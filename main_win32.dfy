/** `main` on Windows: the fixed bring-up of the Win32 platform and the WGL
    renderer, the main loop, the teardown and the leak report. Everything
    Win32, WGL, GL, `new`, `malloc` and the file system answer is one
    `Win32Env`; the ledger is the process-wide one. */
module MainWin32 {
  import opened Common
  import opened LeakTracker
  import opened LedgerReplay
  import opened BumpArena
  import opened ShaderSetup
  import opened Lifecycle
  import WW = WindowWin32
  import GW = OpenGlWin32

  /** What every foreign call of one run answers: the `WindowInfo` that
      `new` returns, the dummy window, the probe, the real window, the
      title's address, `malloc` for the arena, the context, and the batches
      of messages that reach the queue before each pass of the main loop. */
  datatype Win32Env = Win32Env(
    info: Handle, dummy: WW.DummyOutcome, probe: GW.ProbeOutcome, window: WW.WindowOutcome,
    title: Handle, block: Handle, context: GW.ContextOutcome, batches: seq<seq<WW.WinMsg>>)

  /** `new` never yields null, the centring arithmetic stays in `i32`, and
      the shader files' sizes fit the `i32` `ReadFile` reports them in. */
  predicate EnvFits(e: Win32Env)
  {
    && e.info != NULL
    && (e.window.hInstance != NULL && e.window.classRegistered ==> WW.CenterInRange(e.window.workArea, e.window.frame))
    && SourcesBounded(e.context.shaders)
  }

  /** Whether the shader stage succeeds on the fresh arena. */
  predicate Built(e: Win32Env)
  {
    ShadersBuild(0, ArenaCapacity(e.block), e.context.shaders)
  }

  /** The position in `BRING_UP` of the step that fails, or one past its end
      when none does. `PlatformInit` cannot fail here, so neither can step
      1; the arena is always created. */
  function Reached(e: Win32Env): (n: nat)
    ensures 2 <= n <= |BRING_UP| + 1
    ensures n != 4 && n != 6
  {
    if ProbeReached(e) <= 3 then ProbeReached(e) else WindowReached(e)
  }

  /** The first failing step among the first four, or 4 when they all
      succeed (`PlatformDestroyDummyWindow` cannot fail). */
  function ProbeReached(e: Win32Env): (n: nat)
    ensures 2 <= n <= 4
  {
    if !WW.DummyOk(e.dummy) then 2
    else if !GW.ProbeOk(e.info, e.probe) then 3
    else 4
  }

  /** The first failing step among the last three, or 8 when they all
      succeed. */
  function WindowReached(e: Win32Env): (n: nat)
    ensures n == 5 || n == 7 || n == 8
  {
    if !WW.WindowOk(e.window) then 5
    else if !GW.ContextOk(e.info, e.context, Built(e)) then 7
    else 8
  }

  predicate BringUpOk(e: Win32Env)
  {
    Reached(e) == |BRING_UP| + 1
  }

  /** What a failed run leaves registered: everything the steps before the
      failing one still hold, and what the failing step itself registered. */
  function FailureLeft(e: Win32Env): multiset<Handle>
  {
    if ProbeReached(e) <= 3 then ProbeLeft(e) else multiset{e.info} + WindowLeft(e)
  }

  /** What the first four steps leave registered when one of them fails. */
  function ProbeLeft(e: Win32Env): multiset<Handle>
  {
    var dummy := multiset{e.info} + WW.DummyLeft(e.dummy);
    if ProbeReached(e) == 2 then dummy else dummy + GW.InitLeft(e.info, e.probe)
  }

  /** What the last three steps leave registered when one of them fails. */
  function WindowLeft(e: Win32Env): multiset<Handle>
  {
    if WindowReached(e) == 5 then WW.CreateWindowLeft(e.window)
    else if WindowReached(e) == 7 then
      WW.CreateWindowLeft(e.window) + (if GW.ContextMade(e.info, e.context) then multiset{e.context.hglrc} else multiset{})
    else multiset{}
  }

  /** Every failure leaks: `main` returns without any teardown, so the
      `WindowInfo` always stays registered, and so do the windows and
      device contexts the failing phase had already made. */
  lemma FailureLeaks(e: Win32Env)
    requires !BringUpOk(e)
    ensures e.info in FailureLeft(e)
    ensures Reached(e) == 2 && e.dummy.hInstance != NULL && e.dummy.hwnd != NULL ==> e.dummy.hwnd in FailureLeft(e)
    ensures Reached(e) == 3 ==> e.dummy.hwnd in FailureLeft(e) && e.dummy.hdc in FailureLeft(e)
    ensures Reached(e) == 7 ==> e.window.hwnd in FailureLeft(e) && e.window.hdc in FailureLeft(e)
    ensures Reached(e) == 5 ==> FailureLeft(e) == multiset{e.info}
  {
  }

  /** The handles a full bring-up leaves registered, which the teardown
      releases: the platform's `WindowInfo`, the window and its device
      context, and the renderer's context, program and vertex array. */
  datatype Held = Held(info: Handle, hwnd: Handle, hdc: Handle, hglrc: Handle, program: Handle, vao: Handle)

  function HeldOf(e: Win32Env, programSlot: Handle, vaoSlot: Handle): Held
  {
    Held(e.info, e.window.hwnd, e.window.hdc, e.context.hglrc, programSlot, vaoSlot)
  }

  function HeldLive(Y: multiset<Handle>, h: Held): multiset<Handle>
  {
    Y + multiset{h.info} + multiset{h.hwnd} + multiset{h.hdc} + multiset{h.hglrc}
      + multiset{h.program} + multiset{h.vao}
  }

  /** The platform and the renderer hold exactly the handles of `h`. */
  ghost predicate Holds(p: WW.Win32Platform, r: GW.Win32Renderer, h: Held)
    reads p, r
  {
    && p.windowInfo == h.info && p.hwnd == h.hwnd && p.hdc == h.hdc
    && r.hglrc == h.hglrc && r.programSlot == h.program && r.vaoSlot == h.vao
  }

  // ---------------------------------------------------------------------
  // The main loop.

  predicate HasQuit(batch: seq<WW.WinMsg>)
  {
    exists i :: 0 <= i < |batch| && batch[i].Close?
  }

  /** The passes of the main loop in a run of `e`: up to and including
      the first whose batch holds a `WM_CLOSE`. */
  function QuitPasses(e: Win32Env): nat
  {
    QuitBatch(e.batches) + 1
  }

  /** The index of the first batch holding a `WM_CLOSE`, or `|bs|`. */
  function QuitBatch(bs: seq<seq<WW.WinMsg>>): nat
    decreases |bs|
  {
    if |bs| == 0 then 0
    else if HasQuit(bs[0]) then 0
    else 1 + QuitBatch(bs[1..])
  }

  /** `QuitBatch` is the first batch with a close: no batch before it has
      one, and it has one unless it is past the end. */
  lemma {:induction false} QuitBatchFirst(bs: seq<seq<WW.WinMsg>>)
    ensures QuitBatch(bs) <= |bs|
    ensures forall j :: 0 <= j < QuitBatch(bs) ==> !HasQuit(bs[j])
    ensures QuitBatch(bs) < |bs| ==> HasQuit(bs[QuitBatch(bs)])
    decreases |bs|
  {
    if |bs| > 0 && !HasQuit(bs[0]) {
      QuitBatchFirst(bs[1..]);
      assert forall j :: 1 <= j < |bs| ==> bs[j] == bs[1..][j - 1];
    }
  }

  /** The one instance of `QuitBatchFirst` a pass of the loop needs. */
  lemma QuitAt(bs: seq<seq<WW.WinMsg>>, k: nat)
    requires k <= QuitBatch(bs) < |bs|
    ensures k < QuitBatch(bs) ==> !HasQuit(bs[k])
    ensures k == QuitBatch(bs) ==> HasQuit(bs[k])
  {
    QuitBatchFirst(bs);
  }

  /** `while (running) { PlatformUpdateWindow(running); RendererUpdateContext(); }`:
      pass `k` pumps the messages of batch `k`. `g_running` stays true until
      a `WM_CLOSE` is dispatched; the pass that dispatches the first one
      still renders, and the loop ends right after it. */
  method MainLoop(p: WW.Win32Platform, r: GW.Win32Renderer, bs: seq<seq<WW.WinMsg>>)
    returns (passes: nat, calls: seq<Stage>)
    requires p.pending == [] && p.running
    requires QuitBatch(bs) < |bs|
    modifies p`pending, p`running, p`quitPosted, p`screenSize, r`frames
    ensures passes == QuitBatch(bs) + 1
    ensures calls == Passes(passes)
    ensures |r.frames| == |old(r.frames)| + passes
  {
    ghost var q := QuitBatch(bs);
    var running := true;
    var k := 0;
    calls := [];
    while running
      invariant k <= q + 1
      invariant running ==> k <= q && p.pending == [] && p.running
      invariant !running ==> k == q + 1
      invariant calls == Passes(k)
      invariant |r.frames| == |old(r.frames)| + k
      decreases q + 1 - k
    {
      var batch := bs[k];
      QuitAt(bs, k);
      assert p.pending + batch == batch;
      WW.DispatchedRunning(batch, p.Pump());
      running := p.UpdateWindow(batch);
      r.UpdateContext(p.screenSize);
      calls := calls + [UpdateWindow, UpdateContext];
      k := k + 1;
    }
    passes := k;
  }

  // ---------------------------------------------------------------------
  // Bring-up and teardown.

  /** Lines 16 to 52 of `main`: each step in turn, stopping at the first
      that fails. On success the platform, the renderer and the ledger hold
      what the teardown releases. */
  method BringUp(l: Ledger, p: WW.Win32Platform, r: GW.Win32Renderer, e: Win32Env) returns (reached: nat, calls: seq<Stage>)
    requires EnvFits(e)
    requires p.pending == [] && p.running
    modifies l, p, r
    ensures reached == Reached(e)
    ensures l.log == old(l.log)
    ensures reached <= |BRING_UP| ==> calls == FailedRun(reached) && Live(l.entries) == Live(old(l.entries)) + FailureLeft(e)
    ensures reached == |BRING_UP| + 1 ==>
      && calls == BRING_UP
      && p.pending == [] && p.running
      && Holds(p, r, HeldOf(e, r.programSlot, r.vaoSlot))
      && Live(l.entries) == HeldLive(Live(old(l.entries)), HeldOf(e, r.programSlot, r.vaoSlot))
  {
    ghost var L0 := Live(l.entries);
    BringUpPrefixes();
    reached, calls := ProbePhase(l, p, r, e);
    if reached <= 3 {
      ProbeFailure(e);
      return;
    }
    ghost var L1 := Live(l.entries);
    var more;
    reached, more := WindowPhase(l, p, r, e);
    WindowFailure(e);
    calls := calls + more;
    if reached <= 7 {
      WindowFailureLive(e, L0, L1, Live(l.entries));
    }
  }

  lemma ProbeFailure(e: Win32Env)
    requires ProbeReached(e) <= 3
    ensures Reached(e) == ProbeReached(e) && FailureLeft(e) == ProbeLeft(e)
  {
  }

  lemma WindowFailure(e: Win32Env)
    requires ProbeReached(e) == 4
    ensures Reached(e) == WindowReached(e)
  {
  }

  lemma WindowFailureLive(e: Win32Env, L0: multiset<Handle>, L1: multiset<Handle>, L2: multiset<Handle>)
    requires ProbeReached(e) == 4 && WindowReached(e) <= 7
    requires L1 == L0 + multiset{e.info} && L2 == L1 + WindowLeft(e)
    ensures L2 == L0 + FailureLeft(e)
  {
  }

  /** Lines 16 to 37 of `main`: the platform, the dummy window, the
      renderer's probe on it, and the dummy window's release. Reaching step
      4 means all of them succeeded, and only the `WindowInfo` stays
      registered. */
  method ProbePhase(l: Ledger, p: WW.Win32Platform, r: GW.Win32Renderer, e: Win32Env) returns (reached: nat, calls: seq<Stage>)
    requires e.info != NULL
    modifies l, p`windowInfo, p`hwnd, p`hdc
    modifies r`openglDLL, r`createContextAttribs, r`choosePixelFormat, r`debugCallbackInstalled
    ensures reached == ProbeReached(e)
    ensures calls == BRING_UP[..reached]
    ensures l.log == old(l.log)
    ensures reached <= 3 ==> Live(l.entries) == Live(old(l.entries)) + ProbeLeft(e)
    ensures reached == 4 ==> p.windowInfo == e.info && Live(l.entries) == Live(old(l.entries)) + multiset{e.info}
  {
    ghost var L0 := Live(l.entries);
    InitPlatform(l, p, e.info);
    ghost var L1 := Live(l.entries);
    reached := DummyAndProbe(l, p, r, e, L1);
    ProbeLeftSplits(e, L0, L1);
    calls := BRING_UP[..reached];
  }

  lemma ProbeLeftSplits(e: Win32Env, L0: multiset<Handle>, L1: multiset<Handle>)
    requires L1 == L0 + multiset{e.info}
    ensures ProbeReached(e) == 2 ==> L1 + WW.DummyLeft(e.dummy) == L0 + ProbeLeft(e)
    ensures ProbeReached(e) == 3 ==>
      L1 + WW.DummyLeft(e.dummy) + GW.InitLeft(e.info, e.probe) == L0 + ProbeLeft(e)
  {
  }

  /** Lines 22 to 37 of `main`, once the platform is up: the dummy window,
      the probe on it, and the dummy window's release. */
  method DummyAndProbe(l: Ledger, p: WW.Win32Platform, r: GW.Win32Renderer, e: Win32Env, ghost L: multiset<Handle>)
    returns (reached: nat)
    requires p.windowInfo == e.info && e.info != NULL
    requires Live(l.entries) == L
    modifies l, p`hwnd, p`hdc
    modifies r`openglDLL, r`createContextAttribs, r`choosePixelFormat, r`debugCallbackInstalled
    ensures reached == ProbeReached(e)
    ensures l.log == old(l.log)
    ensures reached == 2 ==> Live(l.entries) == L + WW.DummyLeft(e.dummy)
    ensures reached == 3 ==> Live(l.entries) == L + WW.DummyLeft(e.dummy) + GW.InitLeft(e.info, e.probe)
    ensures reached == 4 ==> Live(l.entries) == L
  {
    var info := OpenDummy(l, p, e.dummy);
    if info == NULL {
      return 2;
    }
    ghost var L2 := Live(l.entries);
    var ok := Probe(l, r, info, e.probe);
    if !ok {
      return 3;
    }
    assert Live(l.entries) == L + multiset{p.hwnd} + multiset{p.hdc} by {
      assert L2 + multiset{} == L2;
    }
    CloseDummy(l, p, L);
    return 4;
  }

  /** Lines 39 to 52 of `main`: the real window, the arena, and the context
      with its shaders, after a successful probe. */
  method WindowPhase(l: Ledger, p: WW.Win32Platform, r: GW.Win32Renderer, e: Win32Env) returns (reached: nat, calls: seq<Stage>)
    requires EnvFits(e)
    requires p.windowInfo == e.info && p.pending == [] && p.running
    modifies l, p`hwnd, p`hdc, p`className, p`screenSize, p`placement
    modifies r`hglrc, r`hdc, r`programID, r`vao
    ensures reached == WindowReached(e)
    ensures p.windowInfo == old(p.windowInfo) && p.pending == [] && p.running
    ensures reached == 5 ==> calls == [CreateWindow]
    ensures reached >= 7 ==> calls == [CreateWindow, MakeArena, CreateContext]
    ensures l.log == old(l.log)
    ensures reached <= 7 ==> Live(l.entries) == Live(old(l.entries)) + WindowLeft(e)
    ensures reached == 8 ==>
      && p.hwnd == e.window.hwnd && p.hdc == e.window.hdc && r.hglrc == e.context.hglrc
      && Live(l.entries) == Live(old(l.entries)) + multiset{e.window.hwnd} + multiset{e.window.hdc}
           + multiset{e.context.hglrc} + multiset{r.programSlot} + multiset{r.vaoSlot}
  {
    ghost var L0 := Live(l.entries);
    var info := OpenWindow(l, p, e.title, e.window);
    if info == NULL {
      return 5, [CreateWindow];
    }
    ghost var L1 := Live(l.entries);
    reached := ArenaAndContext(l, r, e, p.hdc, L1);
    WindowLeftSplits(e, L0, L1);
    calls := [CreateWindow, MakeArena, CreateContext];
  }

  lemma WindowLeftSplits(e: Win32Env, L0: multiset<Handle>, L1: multiset<Handle>)
    requires WW.WindowOk(e.window) && L1 == L0 + WW.CreateWindowLeft(e.window)
    ensures WindowReached(e) == 7 ==>
      WindowLeft(e) == WW.CreateWindowLeft(e.window)
        + (if GW.ContextMade(e.info, e.context) then multiset{e.context.hglrc} else multiset{})
    ensures L1 == L0 + multiset{e.window.hwnd} + multiset{e.window.hdc}
  {
  }

  /** Lines 44 to 52 of `main`, once the window is up: the arena, then the
      context with its shaders on it, on the window's device context. */
  method ArenaAndContext(l: Ledger, r: GW.Win32Renderer, e: Win32Env, hdc: Handle, ghost L: multiset<Handle>)
    returns (reached: nat)
    requires WW.WindowOk(e.window)
    requires SourcesBounded(e.context.shaders)
    requires Live(l.entries) == L
    modifies l, r`hglrc, r`hdc, r`programID, r`vao
    ensures reached == WindowReached(e)
    ensures l.log == old(l.log)
    ensures reached == 7 ==>
      Live(l.entries) == L + (if GW.ContextMade(e.info, e.context) then multiset{e.context.hglrc} else multiset{})
    ensures reached == 8 ==> r.hglrc == e.context.hglrc
    ensures reached == 8 ==> Live(l.entries) == L + multiset{e.context.hglrc} + multiset{r.programSlot} + multiset{r.vaoSlot}
  {
    var ba := new BumpAllocator.Make(MB(50), e.block);
    var ok := OpenContext(l, r, e.info, hdc, ba, e.context);
    if !ok {
      return 7;
    }
    return 8;
  }

  // Each bring-up and teardown call as `main` sees it: what it adds to or
  // removes from the ledger's live handles, the log left alone.

  /** `PlatformInit` (line 16 of `main`), which always succeeds here. */
  method InitPlatform(l: Ledger, p: WW.Win32Platform, info: Handle)
    requires info != NULL
    modifies l, p`windowInfo
    ensures Live(l.entries) == Live(old(l.entries)) + multiset{info} && l.log == old(l.log)
    ensures p.windowInfo == info
  {
    ghost var L0 := Live(l.entries);
    ghost var s := Snap(l);
    var _ := p.Init(l, info);
    WW.InitLeaves(L0, info);
    Settle(s, WW.InitTrace(info), L0, L0 + multiset{info});
  }

  /** `PlatformCreateDummyWindow` (line 22 of `main`). */
  method OpenDummy(l: Ledger, p: WW.Win32Platform, o: WW.DummyOutcome) returns (info: Handle)
    modifies l, p`hwnd, p`hdc
    ensures info == (if WW.DummyOk(o) then p.windowInfo else NULL)
    ensures WW.DummyOk(o) ==> p.hwnd == o.hwnd && p.hdc == o.hdc
    ensures Live(l.entries) == Live(old(l.entries)) + WW.DummyLeft(o) && l.log == old(l.log)
  {
    ghost var L0 := Live(l.entries);
    ghost var s := Snap(l);
    info := p.CreateDummyWindow(l, o);
    WW.DummyLeaves(L0, o);
    Settle(s, WW.DummyTrace(o), L0, L0 + WW.DummyLeft(o));
  }

  /** `RendererInit` (line 29 of `main`). */
  method Probe(l: Ledger, r: GW.Win32Renderer, info: Handle, o: GW.ProbeOutcome) returns (ok: bool)
    modifies l, r`openglDLL, r`createContextAttribs, r`choosePixelFormat, r`debugCallbackInstalled
    ensures ok <==> GW.ProbeOk(info, o)
    ensures Live(l.entries) == Live(old(l.entries)) + GW.InitLeft(info, o) && l.log == old(l.log)
    ensures ok ==> GW.InitLeft(info, o) == multiset{}
  {
    ghost var L0 := Live(l.entries);
    ghost var s := Snap(l);
    ok := r.Init(l, info, o);
    GW.InitLeaves(L0, info, o);
    Settle(s, GW.InitTrace(info, o), L0, L0 + GW.InitLeft(info, o));
  }

  /** `PlatformDestroyDummyWindow` (line 35 of `main`). */
  method CloseDummy(l: Ledger, p: WW.Win32Platform, ghost Y: multiset<Handle>)
    requires Live(l.entries) == Y + multiset{p.hwnd} + multiset{p.hdc}
    modifies l, p`hwnd, p`hdc
    ensures p.hwnd == NULL && p.hdc == NULL
    ensures Live(l.entries) == Y && l.log == old(l.log)
  {
    ghost var hwnd, hdc := p.hwnd, p.hdc;
    ghost var s := Snap(l);
    p.DestroyDummyWindow(l);
    Peel2(Y, hdc, hwnd);
    Settle(s, WW.DestroyDummyTrace(hwnd, hdc), Y + multiset{hwnd} + multiset{hdc}, Y);
  }

  /** `PlatformCreateWindow` (line 39 of `main`). */
  method OpenWindow(l: Ledger, p: WW.Win32Platform, title: Handle, o: WW.WindowOutcome) returns (info: Handle)
    requires o.hInstance != NULL && o.classRegistered ==> WW.CenterInRange(o.workArea, o.frame)
    modifies l, p`hwnd, p`hdc, p`className, p`screenSize, p`placement
    ensures info == (if WW.WindowOk(o) then p.windowInfo else NULL)
    ensures Live(l.entries) == Live(old(l.entries)) + WW.CreateWindowLeft(o) && l.log == old(l.log)
    ensures WW.WindowOk(o) ==> p.hwnd == o.hwnd && p.hdc == o.hdc
    ensures p.windowInfo == old(p.windowInfo) && p.pending == old(p.pending) && p.running == old(p.running)
  {
    ghost var L0 := Live(l.entries);
    ghost var s := Snap(l);
    info := p.CreateWindow(l, 1280, 720, title, o);
    WW.CreateWindowLeaves(L0, o);
    Settle(s, WW.CreateWindowTrace(o), L0, L0 + WW.CreateWindowLeft(o));
  }

  /** `RendererCreateContext` (line 48 of `main`), on a fresh arena. */
  method OpenContext(l: Ledger, r: GW.Win32Renderer, info: Handle, hdc': Handle, ba: BumpAllocator, o: GW.ContextOutcome)
    returns (ok: bool)
    requires ba.Valid() && ba.used == 0
    requires SourcesBounded(o.shaders)
    modifies l, ba`used, ba`contents, r`hglrc, r`hdc, r`programID, r`vao
    ensures ok <==> GW.ContextOk(info, o, ShadersBuild(0, ba.capacity, o.shaders))
    ensures Live(l.entries) == Live(old(l.entries)) + GW.ContextLeft(info, o, ShadersBuild(0, ba.capacity, o.shaders), r.programSlot, r.vaoSlot)
    ensures l.log == old(l.log)
    ensures GW.ContextMade(info, o) ==> r.hglrc == o.hglrc
  {
    ghost var L0 := Live(l.entries);
    ghost var built := ShadersBuild(0, ba.capacity, o.shaders);
    ghost var s := Snap(l);
    ok := r.CreateContext(l, info, hdc', ba, o);
    GW.ContextLeaves(L0, info, o, built, r.programSlot, r.vaoSlot);
    Settle(s, GW.ContextTrace(info, o, built, r.programSlot, r.vaoSlot), L0, L0 + GW.ContextLeft(info, o, built, r.programSlot, r.vaoSlot));
  }

  /** The teardown's order: the context, then the window's two, then the
      renderer's two, then the `WindowInfo`. */
  lemma Rearrange(Y: multiset<Handle>, h: Held)
    ensures HeldLive(Y, h)
         == Y + multiset{h.info} + multiset{h.program} + multiset{h.vao}
              + multiset{h.hwnd} + multiset{h.hdc} + multiset{h.hglrc}
  {
  }

  /** Lines 63 to 68 of `main`: the context, the window, the renderer's
      objects and the platform, each released exactly once. */
  method Teardown(l: Ledger, p: WW.Win32Platform, r: GW.Win32Renderer, ghost Y: multiset<Handle>, ghost h: Held)
    returns (calls: seq<Stage>)
    requires Holds(p, r, h) && Live(l.entries) == HeldLive(Y, h)
    modifies l, p, r
    ensures Live(l.entries) == Y && l.log == old(l.log)
    ensures calls == SHUTDOWN
  {
    Rearrange(Y, h);
    DestroyWindowAndContext(l, p, r, Y + multiset{h.info} + multiset{h.program} + multiset{h.vao});
    ShutdownBoth(l, p, r, Y);
    calls := SHUTDOWN;
  }

  /** Lines 63 and 64 of `main`. */
  method DestroyWindowAndContext(l: Ledger, p: WW.Win32Platform, r: GW.Win32Renderer, ghost Y: multiset<Handle>)
    requires Live(l.entries) == Y + multiset{p.hwnd} + multiset{p.hdc} + multiset{r.hglrc}
    modifies l, p`hwnd, p`hdc, p`className, r`hglrc, r`hdc
    ensures Live(l.entries) == Y && l.log == old(l.log)
  {
    ghost var hwnd, hdc, hglrc := p.hwnd, p.hdc, r.hglrc;
    ghost var Y2 := Y + multiset{hwnd} + multiset{hdc};
    ghost var s := Snap(l);
    r.DestroyContext(l);
    Peel1(Y2, hglrc);
    Settle(s, GW.DestroyContextTrace(hglrc), Y2 + multiset{hglrc}, Y2);

    s := Snap(l);
    p.DestroyWindow(l);
    Peel2(Y, hdc, hwnd);
    Settle(s, WW.DestroyWindowTrace(hwnd, hdc), Y2, Y);
  }

  /** Lines 67 and 68 of `main`. */
  method ShutdownBoth(l: Ledger, p: WW.Win32Platform, r: GW.Win32Renderer, ghost Y: multiset<Handle>)
    requires Live(l.entries) == Y + multiset{p.windowInfo} + multiset{r.programSlot} + multiset{r.vaoSlot}
    modifies l, p`windowInfo, r`openglDLL
    ensures Live(l.entries) == Y && l.log == old(l.log)
  {
    ghost var info, program, vao := p.windowInfo, r.programSlot, r.vaoSlot;
    ghost var Y1 := Y + multiset{info};
    ghost var s := Snap(l);
    r.Shutdown(l);
    Peel2(Y1, vao, program);
    Settle(s, GW.ShutdownTrace(program, vao), Y1 + multiset{program} + multiset{vao}, Y1);

    s := Snap(l);
    p.Shutdown(l);
    Peel1(Y, info);
    Settle(s, WW.ShutdownTrace(info), Y1, Y);
  }

  // ---------------------------------------------------------------------
  // `main`.

  /** `main`: returns 0 after a full run whose teardown leaves the ledger's
      live handles as they were and whose report is the last thing printed;
      returns -1 at the first failing bring-up step, before any teardown or
      report, leaving that step's and the earlier steps' handles registered.
      `programSlot` and `vaoSlot` are the addresses of the renderer's
      `g_programID` and `g_VAO`. */
  method Run(l: Ledger, e: Win32Env, programSlot: Handle, vaoSlot: Handle) returns (exit: int, calls: seq<Stage>)
    requires EnvFits(e)
    requires programSlot != NULL && vaoSlot != NULL && programSlot != vaoSlot
    requires BringUpOk(e) ==> QuitBatch(e.batches) < |e.batches|
    modifies l
    ensures exit == 0 || exit == -1
    ensures exit == 0 <==> BringUpOk(e)
    ensures exit == 0 ==>
      && Live(l.entries) == Live(old(l.entries))
      && l.log == old(l.log) + Report(l.entries)
      && calls == CleanRun(QuitPasses(e))
    ensures exit == 0 && AllFreed(old(l.entries)) ==> l.log == old(l.log) + [NoLeaksDetected]
    ensures exit == -1 ==>
      && Live(l.entries) == Live(old(l.entries)) + FailureLeft(e)
      && l.log == old(l.log)
      && calls == FailedRun(Reached(e))
  {
    var p := new WW.Win32Platform();
    var r := new GW.Win32Renderer(programSlot, vaoSlot);
    var reached;
    reached, calls := BringUp(l, p, r, e);
    if reached <= |BRING_UP| {
      return -1, calls;
    }
    ghost var n := QuitPasses(e);
    calls := Operate(l, p, r, e.batches, n, Live(old(l.entries)), HeldOf(e, programSlot, vaoSlot), calls);
    if AllFreed(old(l.entries)) {
      ReportWhenAllFreed(old(l.entries), l.entries);
    }
    return 0, calls;
  }

  /** Lines 56 to 70 of `main`, after a full bring-up whose calls were
      `up`: the loop, the teardown and the report. */
  method Operate(l: Ledger, p: WW.Win32Platform, r: GW.Win32Renderer, bs: seq<seq<WW.WinMsg>>,
                 ghost n: nat, ghost Y: multiset<Handle>, ghost h: Held, up: seq<Stage>)
    returns (calls: seq<Stage>)
    requires p.pending == [] && p.running && QuitBatch(bs) < |bs| && n == QuitBatch(bs) + 1
    requires Holds(p, r, h) && Live(l.entries) == HeldLive(Y, h)
    requires up == BRING_UP
    modifies l, p, r
    ensures Live(l.entries) == Y
    ensures l.log == old(l.log) + Report(l.entries)
    ensures calls == CleanRun(n)
  {
    var passes, loopCalls := MainLoop(p, r, bs);
    var downCalls := Teardown(l, p, r, Y, h);
    l.ReportLeaks();
    CleanRunOf(up, loopCalls, downCalls, passes, n);
    calls := up + (loopCalls + downCalls + [ReportLeaks]);
  }

  /** When every entry was freed before the run, a run that releases what
      it registers makes a clean report. */
  lemma ReportWhenAllFreed(before: seq<Entry>, after: seq<Entry>)
    requires AllFreed(before) && Live(after) == Live(before)
    ensures Report(after) == [NoLeaksDetected]
  {
    LiveEmptyIff(before);
    LiveEmptyIff(after);
    ReportCleanIff(after);
  }

  /** `main` as the process runs it, with the ledger starting empty: a full
      run prints exactly the clean line and leaves nothing registered; a
      failed run prints nothing and leaves `FailureLeft` registered, which
      always holds the `WindowInfo`. */
  method RunFresh(e: Win32Env, programSlot: Handle, vaoSlot: Handle)
    returns (exit: int, log: seq<Diagnostic>, leaked: multiset<Handle>)
    requires EnvFits(e)
    requires programSlot != NULL && vaoSlot != NULL && programSlot != vaoSlot
    requires BringUpOk(e) ==> QuitBatch(e.batches) < |e.batches|
    ensures exit == 0 <==> BringUpOk(e)
    ensures exit == 0 ==> log == [NoLeaksDetected] && leaked == multiset{}
    ensures exit != 0 ==> exit == -1 && log == [] && leaked == FailureLeft(e) && e.info in leaked
  {
    var l := new Ledger();
    var calls;
    exit, calls := Run(l, e, programSlot, vaoSlot);
    log := l.log;
    leaked := Live(l.entries);
    if exit != 0 {
      FailureLeaks(e);
    }
  }
}
