/** `main` on Linux: the fixed bring-up of the X11 platform and the GLX
    renderer, the main loop, the teardown and the leak report. Everything
    the X server, GLX, GL, `malloc` and the file system answer is one
    `LinuxEnv`; the ledger is the process-wide one. */
module MainLinux {
  import opened Common
  import opened LeakTracker
  import opened LedgerReplay
  import opened BumpArena
  import opened ShaderSetup
  import opened Lifecycle
  import WL = WindowLinux
  import GL = OpenGlLinux

  /** What every foreign call of one run answers: the platform's and the
      renderer's bring-up, `malloc` for the arena, and the batches of events
      that reach the queue before each pass of the main loop. */
  datatype LinuxEnv = LinuxEnv(
    init: WL.InitOutcome, dummyWindow: Handle, probe: GL.ProbeOutcome, window: WL.WindowOutcome,
    block: Handle, context: GL.ContextOutcome, batches: seq<seq<WL.XEvent>>)

  /** `new` never yields null, the centring arithmetic stays in `i32`, and
      the shader files' sizes fit the `i32` `ReadFile` reports them in. */
  predicate EnvFits(e: LinuxEnv)
  {
    && e.init.windowInfo != NULL
    && IsI32(e.window.screenWidth - 1280) && IsI32(e.window.screenHeight - 720)
    && SourcesBounded(e.context.shaders)
  }

  /** Whether the shader stage succeeds on the fresh arena. */
  predicate Built(e: LinuxEnv)
  {
    ShadersBuild(0, ArenaCapacity(e.block), e.context.shaders)
  }

  /** The position in `BRING_UP` of the step that fails, or one past its end
      when none does. The arena is always created; only `malloc` inside it
      can fail, which shows up in the shader stage. */
  function Reached(e: LinuxEnv): (n: nat)
    ensures 1 <= n <= |BRING_UP| + 1
    ensures n != 4 && n != 6
  {
    if ProbeReached(e) <= 3 then ProbeReached(e) else WindowReached(e)
  }

  /** The first failing step among the first four, or 4 when they all
      succeed (`PlatformDestroyDummyWindow` cannot fail). */
  function ProbeReached(e: LinuxEnv): (n: nat)
    ensures 1 <= n <= 4
  {
    if !WL.InitOk(e.init) then 1
    else if e.dummyWindow == NULL then 2
    else if !GL.ProbeOk(e.init.windowInfo, e.probe) then 3
    else 4
  }

  /** The first failing step among the last three, or 8 when they all
      succeed. */
  function WindowReached(e: LinuxEnv): (n: nat)
    ensures n == 5 || n == 7 || n == 8
  {
    if !WL.WindowOk(e.window) then 5
    else if !GL.ContextOk(e.init.windowInfo, e.context, Built(e)) then 7
    else 8
  }

  predicate BringUpOk(e: LinuxEnv)
  {
    Reached(e) == |BRING_UP| + 1
  }

  /** What a failed run leaves registered: everything the steps before the
      failing one still hold, and what the failing step itself registered. */
  function FailureLeft(e: LinuxEnv): multiset<Handle>
  {
    if ProbeReached(e) <= 3 then ProbeLeft(e) else WL.InitLeft(e.init) + WindowLeft(e)
  }

  /** What the first four steps leave registered when one of them fails. */
  function ProbeLeft(e: LinuxEnv): multiset<Handle>
  {
    var platform := WL.InitLeft(e.init);
    if ProbeReached(e) <= 2 then platform
    else platform + multiset{e.dummyWindow} + GL.InitLeft(e.init.windowInfo, e.probe)
  }

  /** What the last three steps leave registered when one of them fails. */
  function WindowLeft(e: LinuxEnv): multiset<Handle>
  {
    if WindowReached(e) == 5 then WL.CreateWindowLeft(e.window)
    else if WindowReached(e) == 7 then
      WL.CreateWindowLeft(e.window) + (if e.context.ctx == NULL then multiset{} else multiset{e.context.ctx})
    else multiset{}
  }

  /** Every failure after the display is open leaks: `main` returns without
      any teardown, so at least the display stays registered, and the
      `WindowInfo` too once `PlatformInit` has succeeded. */
  lemma FailureLeaks(e: LinuxEnv)
    requires EnvFits(e)
    requires !BringUpOk(e)
    ensures FailureLeft(e) == multiset{} <==> !e.init.threadsOk || e.init.display == NULL
    ensures WL.InitOk(e.init) ==> e.init.display in FailureLeft(e) && e.init.windowInfo in FailureLeft(e)
  {
  }

  /** The handles a full bring-up leaves registered, which the teardown
      releases: the platform's display and `WindowInfo`, the window's
      framebuffer configurations, colormap and window, and the renderer's
      context, program and vertex array. */
  datatype Held = Held(display: Handle, info: Handle, fbc: Handle, cmap: Handle, window: Handle,
                       ctx: Handle, program: Handle, vao: Handle)

  function HeldOf(e: LinuxEnv, programSlot: Handle, vaoSlot: Handle): Held
  {
    Held(e.init.display, e.init.windowInfo, e.window.fbc, e.window.cmap, e.window.window,
         e.context.ctx, programSlot, vaoSlot)
  }

  function HeldLive(Y: multiset<Handle>, h: Held): multiset<Handle>
  {
    Y + multiset{h.display} + multiset{h.info} + multiset{h.fbc} + multiset{h.cmap} + multiset{h.window}
      + multiset{h.ctx} + multiset{h.program} + multiset{h.vao}
  }

  /** The platform and the renderer hold exactly the handles of `h`. */
  ghost predicate Holds(p: WL.LinuxPlatform, r: GL.LinuxRenderer, h: Held)
    reads p, r
  {
    && p.display == h.display && p.windowInfo == h.info && p.fbc == h.fbc && p.cmap == h.cmap
    && p.window == h.window && r.ctx == h.ctx && r.programSlot == h.program && r.vaoSlot == h.vao
  }

  // ---------------------------------------------------------------------
  // The main loop.

  predicate HasQuit(batch: seq<WL.XEvent>, atom: nat)
  {
    exists i :: 0 <= i < |batch| && WL.IsQuit(batch[i], atom)
  }

  /** The passes of the main loop in a run of `e`: up to and including
      the first whose batch holds a quit event. */
  function QuitPasses(e: LinuxEnv): nat
  {
    QuitBatch(e.batches, e.window.atom) + 1
  }

  /** The index of the first batch holding a quit event, or `|bs|`. */
  function QuitBatch(bs: seq<seq<WL.XEvent>>, atom: nat): nat
    decreases |bs|
  {
    if |bs| == 0 then 0
    else if HasQuit(bs[0], atom) then 0
    else 1 + QuitBatch(bs[1..], atom)
  }

  /** `QuitBatch` is the first batch with a quit event: no batch before it
      has one, and it has one unless it is past the end. */
  lemma {:induction false} QuitBatchFirst(bs: seq<seq<WL.XEvent>>, atom: nat)
    ensures QuitBatch(bs, atom) <= |bs|
    ensures forall j :: 0 <= j < QuitBatch(bs, atom) ==> !HasQuit(bs[j], atom)
    ensures QuitBatch(bs, atom) < |bs| ==> HasQuit(bs[QuitBatch(bs, atom)], atom)
    decreases |bs|
  {
    if |bs| > 0 && !HasQuit(bs[0], atom) {
      QuitBatchFirst(bs[1..], atom);
      assert forall j :: 1 <= j < |bs| ==> bs[j] == bs[1..][j - 1];
    }
  }

  /** The one instance of `QuitBatchFirst` a pass of the loop needs. */
  lemma QuitAt(bs: seq<seq<WL.XEvent>>, atom: nat, k: nat)
    requires k <= QuitBatch(bs, atom) < |bs|
    ensures k < QuitBatch(bs, atom) ==> !HasQuit(bs[k], atom)
    ensures k == QuitBatch(bs, atom) ==> HasQuit(bs[k], atom)
  {
    QuitBatchFirst(bs, atom);
  }

  /** `while (running) { PlatformUpdateWindow(running); RendererUpdateContext(); }`:
      pass `k` pumps the events of batch `k`. The pass whose batch holds the
      first quit still renders, and the loop ends right after it. */
  method MainLoop(p: WL.LinuxPlatform, r: GL.LinuxRenderer, bs: seq<seq<WL.XEvent>>)
    returns (passes: nat, calls: seq<Stage>)
    requires p.pending == []
    requires QuitBatch(bs, p.wmDeleteAtom) < |bs|
    modifies p`pending, p`screenSize, r`frames
    ensures passes == QuitBatch(bs, p.wmDeleteAtom) + 1
    ensures calls == Passes(passes)
    ensures |r.frames| == |old(r.frames)| + passes
  {
    ghost var q := QuitBatch(bs, p.wmDeleteAtom);
    var running := true;
    var k := 0;
    calls := [];
    while running
      invariant k <= q + 1
      invariant running ==> k <= q && p.pending == []
      invariant !running ==> k == q + 1
      invariant calls == Passes(k)
      invariant |r.frames| == |old(r.frames)| + k
      decreases q + 1 - k
    {
      var batch := bs[k];
      QuitAt(bs, p.wmDeleteAtom, k);
      ghost var size := p.screenSize;
      assert p.pending + batch == batch;
      WL.DrainQuitIff(batch, p.wmDeleteAtom, size);
      WL.DrainConsumes(batch, p.wmDeleteAtom, size);
      running := p.UpdateWindow(running, batch);
      r.UpdateContext(p.screenSize);
      calls := calls + [UpdateWindow, UpdateContext];
      k := k + 1;
    }
    passes := k;
  }

  // ---------------------------------------------------------------------
  // Bring-up and teardown.

  /** Lines 16 to 52 of `main`: each step in turn, stopping at the first
      that fails. On success the platform, the renderer and the ledger hold
      what the teardown releases. */
  method BringUp(l: Ledger, p: WL.LinuxPlatform, r: GL.LinuxRenderer, e: LinuxEnv) returns (reached: nat, calls: seq<Stage>)
    requires EnvFits(e)
    requires p.pending == []
    modifies l, p, r
    ensures reached == Reached(e)
    ensures l.log == old(l.log)
    ensures reached <= |BRING_UP| ==> calls == FailedRun(reached) && Live(l.entries) == Live(old(l.entries)) + FailureLeft(e)
    ensures reached == |BRING_UP| + 1 ==>
      && calls == BRING_UP
      && p.pending == [] && p.wmDeleteAtom == e.window.atom
      && Holds(p, r, HeldOf(e, r.programSlot, r.vaoSlot))
      && Live(l.entries) == HeldLive(Live(old(l.entries)), HeldOf(e, r.programSlot, r.vaoSlot))
  {
    ghost var L0 := Live(l.entries);
    BringUpPrefixes();
    reached, calls := ProbePhase(l, p, r, e);
    if reached <= 3 {
      ProbeFailure(e);
      return;
    }
    ghost var L1 := Live(l.entries);
    var more;
    reached, more := WindowPhase(l, p, r, e);
    WindowFailure(e);
    calls := calls + more;
    if reached <= 7 {
      WindowFailureLive(e, L0, L1, Live(l.entries));
    }
  }

  lemma ProbeFailure(e: LinuxEnv)
    requires ProbeReached(e) <= 3
    ensures Reached(e) == ProbeReached(e) && FailureLeft(e) == ProbeLeft(e)
  {
  }

  lemma WindowFailure(e: LinuxEnv)
    requires ProbeReached(e) == 4
    ensures Reached(e) == WindowReached(e)
  {
  }

  lemma WindowFailureLive(e: LinuxEnv, L0: multiset<Handle>, L1: multiset<Handle>, L2: multiset<Handle>)
    requires ProbeReached(e) == 4 && WindowReached(e) <= 7
    requires L1 == L0 + multiset{e.init.display} + multiset{e.init.windowInfo} && L2 == L1 + WindowLeft(e)
    ensures L2 == L0 + FailureLeft(e)
  {
  }

  /** Lines 16 to 37 of `main`: the platform, the dummy window, the
      renderer's probe on it, and the dummy window's release. Reaching step
      4 means all of them succeeded, and only the platform's display and
      `WindowInfo` stay registered. */
  method ProbePhase(l: Ledger, p: WL.LinuxPlatform, r: GL.LinuxRenderer, e: LinuxEnv) returns (reached: nat, calls: seq<Stage>)
    requires e.init.windowInfo != NULL
    modifies l, p`display, p`wmDeleteAtom, p`windowInfo, p`window, r`createContextAttribs
    ensures reached == ProbeReached(e)
    ensures calls == BRING_UP[..reached]
    ensures l.log == old(l.log)
    ensures reached <= 3 ==> Live(l.entries) == Live(old(l.entries)) + ProbeLeft(e)
    ensures reached == 4 ==>
      && p.display == e.init.display && p.windowInfo == e.init.windowInfo
      && Live(l.entries) == Live(old(l.entries)) + multiset{e.init.display} + multiset{e.init.windowInfo}
  {
    ghost var L1 := Live(l.entries) + WL.InitLeft(e.init);
    var ok := InitPlatform(l, p, e.init);
    if !ok {
      reached := 1;
    } else {
      reached := DummyAndProbe(l, p, r, e, L1);
    }
    calls := BRING_UP[..reached];
  }

  /** Lines 22 to 37 of `main`, once the platform is up: the dummy window,
      the probe on it, and the dummy window's release. */
  method DummyAndProbe(l: Ledger, p: WL.LinuxPlatform, r: GL.LinuxRenderer, e: LinuxEnv, ghost L: multiset<Handle>)
    returns (reached: nat)
    requires WL.InitOk(e.init) && p.windowInfo == e.init.windowInfo && e.init.windowInfo != NULL
    requires Live(l.entries) == L
    modifies l, p`window, r`createContextAttribs
    ensures reached == ProbeReached(e)
    ensures l.log == old(l.log)
    ensures reached == 3 ==> Live(l.entries) == L + multiset{e.dummyWindow} + GL.InitLeft(e.init.windowInfo, e.probe)
    ensures reached != 3 ==> Live(l.entries) == L
  {
    var info := OpenDummy(l, p, e.dummyWindow);
    if info == NULL {
      assert L + multiset{} == L;
      return 2;
    }
    ghost var L2 := Live(l.entries);
    var ok := Probe(l, r, info, e.probe);
    if !ok {
      return 3;
    }
    assert Live(l.entries) == L + multiset{p.window} by {
      assert L2 + multiset{} == L2;
    }
    CloseDummy(l, p, L);
    return 4;
  }

  /** Lines 39 to 52 of `main`: the real window, the arena, and the context
      with its shaders, after a successful probe. */
  method WindowPhase(l: Ledger, p: WL.LinuxPlatform, r: GL.LinuxRenderer, e: LinuxEnv) returns (reached: nat, calls: seq<Stage>)
    requires EnvFits(e)
    requires p.windowInfo == e.init.windowInfo && p.pending == []
    modifies l, p`fbc, p`bestConfig, p`cmap, p`window, p`wmDeleteAtom, p`placement
    modifies r`ctx, r`programID, r`vao, r`display, r`window
    ensures reached == WindowReached(e)
    ensures p.display == old(p.display) && p.windowInfo == old(p.windowInfo)
    ensures reached == 5 ==> calls == [CreateWindow]
    ensures reached >= 7 ==> calls == [CreateWindow, MakeArena, CreateContext]
    ensures l.log == old(l.log)
    ensures reached <= 7 ==> Live(l.entries) == Live(old(l.entries)) + WindowLeft(e)
    ensures reached == 8 ==>
      && p.pending == [] && p.wmDeleteAtom == e.window.atom
      && p.fbc == e.window.fbc && p.cmap == e.window.cmap && p.window == e.window.window && r.ctx == e.context.ctx
      && Live(l.entries) == Live(old(l.entries)) + multiset{e.window.fbc} + multiset{e.window.cmap} + multiset{e.window.window}
           + multiset{e.context.ctx} + multiset{r.programSlot} + multiset{r.vaoSlot}
  {
    ghost var L0 := Live(l.entries);
    var info := OpenWindow(l, p, e.window);
    if info == NULL {
      return 5, [CreateWindow];
    }
    ghost var L1 := Live(l.entries);
    reached := ArenaAndContext(l, r, e, p.display, p.window, L1);
    WindowLeftSplits(e, L0, L1);
    calls := [CreateWindow, MakeArena, CreateContext];
  }

  lemma WindowLeftSplits(e: LinuxEnv, L0: multiset<Handle>, L1: multiset<Handle>)
    requires WL.WindowOk(e.window) && L1 == L0 + WL.CreateWindowLeft(e.window)
    ensures WindowReached(e) == 7 ==>
      WindowLeft(e) == WL.CreateWindowLeft(e.window) + (if e.context.ctx == NULL then multiset{} else multiset{e.context.ctx})
    ensures L1 == L0 + multiset{e.window.fbc} + multiset{e.window.cmap} + multiset{e.window.window}
  {
  }

  /** Lines 44 to 52 of `main`, once the window is up: the arena, then the
      context with its shaders on it. */
  method ArenaAndContext(l: Ledger, r: GL.LinuxRenderer, e: LinuxEnv, display: Handle, window: Handle, ghost L: multiset<Handle>)
    returns (reached: nat)
    requires WL.WindowOk(e.window) && e.init.windowInfo != NULL
    requires SourcesBounded(e.context.shaders)
    requires Live(l.entries) == L
    modifies l, r`ctx, r`programID, r`vao, r`display, r`window
    ensures reached == WindowReached(e)
    ensures l.log == old(l.log)
    ensures reached == 7 ==> Live(l.entries) == L + (if e.context.ctx == NULL then multiset{} else multiset{e.context.ctx})
    ensures reached == 8 ==> r.ctx == e.context.ctx
    ensures reached == 8 ==> Live(l.entries) == L + multiset{e.context.ctx} + multiset{r.programSlot} + multiset{r.vaoSlot}
  {
    var ba := new BumpAllocator.Make(MB(50), e.block);
    var ok := OpenContext(l, r, e.init.windowInfo, display, window, ba, e.context);
    if !ok {
      return 7;
    }
    return 8;
  }

  // Each bring-up and teardown call as `main` sees it: what it adds to or
  // removes from the ledger's live handles, the log left alone.

  /** `PlatformInit` (line 16 of `main`). */
  method InitPlatform(l: Ledger, p: WL.LinuxPlatform, o: WL.InitOutcome) returns (ok: bool)
    requires o.windowInfo != NULL
    modifies l, p`display, p`wmDeleteAtom, p`windowInfo
    ensures ok <==> WL.InitOk(o)
    ensures Live(l.entries) == Live(old(l.entries)) + WL.InitLeft(o) && l.log == old(l.log)
    ensures ok ==> p.display == o.display && p.windowInfo == o.windowInfo
  {
    ghost var L0 := Live(l.entries);
    ghost var s := Snap(l);
    ok := p.Init(l, o);
    WL.InitLeaves(L0, o);
    Settle(s, WL.InitTrace(o), L0, L0 + WL.InitLeft(o));
  }

  /** `PlatformCreateDummyWindow` (line 22 of `main`). */
  method OpenDummy(l: Ledger, p: WL.LinuxPlatform, created: Handle) returns (info: Handle)
    modifies l, p`window
    ensures info == (if created == NULL then NULL else p.windowInfo)
    ensures p.window == created
    ensures Live(l.entries) == Live(old(l.entries)) + (if created == NULL then multiset{} else multiset{created})
    ensures l.log == old(l.log)
  {
    ghost var L0 := Live(l.entries);
    ghost var s := Snap(l);
    info := p.CreateDummyWindow(l, created);
    WL.DummyLeaves(L0, created);
    Settle(s, WL.DummyTrace(created), L0, if created == NULL then L0 else L0 + multiset{created});
  }

  /** `RendererInit` (line 29 of `main`). */
  method Probe(l: Ledger, r: GL.LinuxRenderer, info: Handle, o: GL.ProbeOutcome) returns (ok: bool)
    modifies l, r`createContextAttribs
    ensures ok <==> GL.ProbeOk(info, o)
    ensures Live(l.entries) == Live(old(l.entries)) + GL.InitLeft(info, o) && l.log == old(l.log)
    ensures ok ==> GL.InitLeft(info, o) == multiset{}
  {
    ghost var L0 := Live(l.entries);
    ghost var s := Snap(l);
    ok := r.Init(l, info, o);
    GL.InitLeaves(L0, info, o);
    Settle(s, GL.InitTrace(info, o), L0, L0 + GL.InitLeft(info, o));
  }

  /** `PlatformDestroyDummyWindow` (line 35 of `main`). */
  method CloseDummy(l: Ledger, p: WL.LinuxPlatform, ghost Y: multiset<Handle>)
    requires Live(l.entries) == Y + multiset{p.window}
    modifies l, p`window
    ensures p.window == NULL
    ensures Live(l.entries) == Y && l.log == old(l.log)
  {
    ghost var w := p.window;
    ghost var s := Snap(l);
    p.DestroyDummyWindow(l);
    Peel1(Y, w);
    Settle(s, WL.DestroyDummyTrace(w), Y + multiset{w}, Y);
  }

  /** `PlatformCreateWindow` (line 39 of `main`). */
  method OpenWindow(l: Ledger, p: WL.LinuxPlatform, o: WL.WindowOutcome) returns (info: Handle)
    requires IsI32(o.screenWidth - 1280) && IsI32(o.screenHeight - 720)
    modifies l, p`fbc, p`bestConfig, p`cmap, p`window, p`wmDeleteAtom, p`placement
    ensures info == (if WL.WindowOk(o) then p.windowInfo else NULL)
    ensures Live(l.entries) == Live(old(l.entries)) + WL.CreateWindowLeft(o) && l.log == old(l.log)
    ensures WL.WindowOk(o) ==> p.fbc == o.fbc && p.cmap == o.cmap && p.window == o.window && p.wmDeleteAtom == o.atom
  {
    ghost var L0 := Live(l.entries);
    ghost var s := Snap(l);
    info := p.CreateWindow(l, 1280, 720, o);
    WL.CreateWindowLeaves(L0, o);
    Settle(s, WL.CreateWindowTrace(o), L0, L0 + WL.CreateWindowLeft(o));
  }

  /** `RendererCreateContext` (line 48 of `main`), on a fresh arena. */
  method OpenContext(l: Ledger, r: GL.LinuxRenderer, info: Handle, display': Handle, window': Handle, ba: BumpAllocator, o: GL.ContextOutcome)
    returns (ok: bool)
    requires ba.Valid() && ba.used == 0
    requires SourcesBounded(o.shaders)
    modifies l, ba`used, ba`contents, r`ctx, r`programID, r`vao, r`display, r`window
    ensures ok <==> GL.ContextOk(info, o, ShadersBuild(0, ba.capacity, o.shaders))
    ensures Live(l.entries) == Live(old(l.entries)) + GL.ContextLeft(info, o, ShadersBuild(0, ba.capacity, o.shaders), r.programSlot, r.vaoSlot)
    ensures l.log == old(l.log)
    ensures info != NULL ==> r.ctx == o.ctx
  {
    ghost var L0 := Live(l.entries);
    ghost var built := ShadersBuild(0, ba.capacity, o.shaders);
    ghost var s := Snap(l);
    ok := r.CreateContext(l, info, display', window', ba, o);
    GL.ContextLeaves(L0, info, o, built, r.programSlot, r.vaoSlot);
    Settle(s, GL.ContextTrace(info, o, built, r.programSlot, r.vaoSlot), L0, L0 + GL.ContextLeft(info, o, built, r.programSlot, r.vaoSlot));
  }

  /** The teardown's order: the context, then the window's three, then the
      renderer's two, then the platform's two. */
  lemma Rearrange(Y: multiset<Handle>, h: Held)
    ensures HeldLive(Y, h)
         == Y + multiset{h.info} + multiset{h.display} + multiset{h.program} + multiset{h.vao}
              + multiset{h.fbc} + multiset{h.window} + multiset{h.cmap} + multiset{h.ctx}
  {
  }

  /** Lines 63 to 68 of `main`: the context, the window, the renderer's
      objects and the platform, each released exactly once. */
  method Teardown(l: Ledger, p: WL.LinuxPlatform, r: GL.LinuxRenderer, ghost Y: multiset<Handle>, ghost h: Held)
    returns (calls: seq<Stage>)
    requires Holds(p, r, h) && Live(l.entries) == HeldLive(Y, h)
    modifies l, p, r
    ensures Live(l.entries) == Y && l.log == old(l.log)
    ensures calls == SHUTDOWN
  {
    Rearrange(Y, h);
    DestroyWindowAndContext(l, p, r, Y + multiset{h.info} + multiset{h.display} + multiset{h.program} + multiset{h.vao});
    ShutdownBoth(l, p, r, Y);
    calls := SHUTDOWN;
  }

  /** Lines 63 and 64 of `main`. */
  method DestroyWindowAndContext(l: Ledger, p: WL.LinuxPlatform, r: GL.LinuxRenderer, ghost Y: multiset<Handle>)
    requires Live(l.entries) == Y + multiset{p.fbc} + multiset{p.window} + multiset{p.cmap} + multiset{r.ctx}
    modifies l, p`cmap, p`window, p`fbc, p`bestConfig, r`ctx, r`display, r`window
    ensures Live(l.entries) == Y && l.log == old(l.log)
  {
    ghost var fbc, cmap, window, ctx := p.fbc, p.cmap, p.window, r.ctx;
    ghost var Y3 := Y + multiset{fbc} + multiset{window} + multiset{cmap};
    ghost var s := Snap(l);
    r.DestroyContext(l);
    Peel1(Y3, ctx);
    Settle(s, GL.DestroyContextTrace(ctx), Y3 + multiset{ctx}, Y3);

    s := Snap(l);
    p.DestroyWindow(l);
    Peel3(Y, cmap, window, fbc);
    Settle(s, WL.DestroyWindowTrace(cmap, window, fbc), Y3, Y);
  }

  /** Lines 67 and 68 of `main`. */
  method ShutdownBoth(l: Ledger, p: WL.LinuxPlatform, r: GL.LinuxRenderer, ghost Y: multiset<Handle>)
    requires Live(l.entries) == Y + multiset{p.windowInfo} + multiset{p.display} + multiset{r.programSlot} + multiset{r.vaoSlot}
    modifies l, p`display, p`windowInfo, p`wmDeleteAtom
    ensures Live(l.entries) == Y && l.log == old(l.log)
  {
    ghost var display, info, program, vao := p.display, p.windowInfo, r.programSlot, r.vaoSlot;
    ghost var Y1 := Y + multiset{info} + multiset{display};
    ghost var s := Snap(l);
    r.Shutdown(l);
    Peel2(Y1, vao, program);
    Settle(s, GL.ShutdownTrace(program, vao), Y1 + multiset{program} + multiset{vao}, Y1);

    s := Snap(l);
    p.Shutdown(l);
    Peel2(Y, display, info);
    Settle(s, WL.ShutdownTrace(display, info), Y1, Y);
  }

  // ---------------------------------------------------------------------
  // `main`.

  /** `main`: returns 0 after a full run whose teardown leaves the ledger's
      live handles as they were and whose report is the last thing printed;
      returns -1 at the first failing bring-up step, before any teardown or
      report, leaving that step's and the earlier steps' handles registered.
      `programSlot` and `vaoSlot` are the addresses of the renderer's
      `g_programID` and `g_VAO`. */
  method Run(l: Ledger, e: LinuxEnv, programSlot: Handle, vaoSlot: Handle) returns (exit: int, calls: seq<Stage>)
    requires EnvFits(e)
    requires programSlot != NULL && vaoSlot != NULL && programSlot != vaoSlot
    requires BringUpOk(e) ==> QuitBatch(e.batches, e.window.atom) < |e.batches|
    modifies l
    ensures exit == 0 || exit == -1
    ensures exit == 0 <==> BringUpOk(e)
    ensures exit == 0 ==>
      && Live(l.entries) == Live(old(l.entries))
      && l.log == old(l.log) + Report(l.entries)
      && calls == CleanRun(QuitPasses(e))
    ensures exit == 0 && AllFreed(old(l.entries)) ==> l.log == old(l.log) + [NoLeaksDetected]
    ensures exit == -1 ==>
      && Live(l.entries) == Live(old(l.entries)) + FailureLeft(e)
      && l.log == old(l.log)
      && calls == FailedRun(Reached(e))
  {
    var p := new WL.LinuxPlatform();
    var r := new GL.LinuxRenderer(programSlot, vaoSlot);
    var reached;
    reached, calls := BringUp(l, p, r, e);
    if reached <= |BRING_UP| {
      return -1, calls;
    }
    ghost var n := QuitPasses(e);
    calls := Operate(l, p, r, e.batches, n, Live(old(l.entries)), HeldOf(e, programSlot, vaoSlot), calls);
    if AllFreed(old(l.entries)) {
      ReportWhenAllFreed(old(l.entries), l.entries);
    }
    return 0, calls;
  }

  /** Lines 56 to 70 of `main`, after a full bring-up whose calls were
      `up`: the loop, the teardown and the report. */
  method Operate(l: Ledger, p: WL.LinuxPlatform, r: GL.LinuxRenderer, bs: seq<seq<WL.XEvent>>,
                 ghost n: nat, ghost Y: multiset<Handle>, ghost h: Held, up: seq<Stage>)
    returns (calls: seq<Stage>)
    requires p.pending == [] && QuitBatch(bs, p.wmDeleteAtom) < |bs| && n == QuitBatch(bs, p.wmDeleteAtom) + 1
    requires Holds(p, r, h) && Live(l.entries) == HeldLive(Y, h)
    requires up == BRING_UP
    modifies l, p, r
    ensures Live(l.entries) == Y
    ensures l.log == old(l.log) + Report(l.entries)
    ensures calls == CleanRun(n)
  {
    var passes, loopCalls := MainLoop(p, r, bs);
    var downCalls := Teardown(l, p, r, Y, h);
    l.ReportLeaks();
    CleanRunOf(up, loopCalls, downCalls, passes, n);
    calls := up + (loopCalls + downCalls + [ReportLeaks]);
  }

  /** When every entry was freed before the run, a run that releases what
      it registers makes a clean report. */
  lemma ReportWhenAllFreed(before: seq<Entry>, after: seq<Entry>)
    requires AllFreed(before) && Live(after) == Live(before)
    ensures Report(after) == [NoLeaksDetected]
  {
    LiveEmptyIff(before);
    LiveEmptyIff(after);
    ReportCleanIff(after);
  }

  /** `main` as the process runs it, with the ledger starting empty: a full
      run prints exactly the clean line and leaves nothing registered; a
      failed run prints nothing and leaves `FailureLeft` registered. */
  method RunFresh(e: LinuxEnv, programSlot: Handle, vaoSlot: Handle)
    returns (exit: int, log: seq<Diagnostic>, leaked: multiset<Handle>)
    requires EnvFits(e)
    requires programSlot != NULL && vaoSlot != NULL && programSlot != vaoSlot
    requires BringUpOk(e) ==> QuitBatch(e.batches, e.window.atom) < |e.batches|
    ensures exit == 0 <==> BringUpOk(e)
    ensures exit == 0 ==> log == [NoLeaksDetected] && leaked == multiset{}
    ensures exit != 0 ==> exit == -1 && log == [] && leaked == FailureLeft(e)
  {
    var l := new Ledger();
    var calls;
    exit, calls := Run(l, e, programSlot, vaoSlot);
    log := l.log;
    leaked := Live(l.entries);
  }
}
