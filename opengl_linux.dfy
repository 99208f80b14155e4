/** The GLX renderer: a probe of OpenGL through a throw-away context on the
    dummy window, then the real core-profile context on the real window with
    one shader program and one vertex array, a frame per main-loop pass, and
    teardown. The file-scope globals are the fields of `LinuxRenderer`; what
    GLX, GL and the shader compiler return are parameters. */
module OpenGlLinux {
  import opened Common
  import opened LeakTracker
  import opened LedgerReplay
  import opened BumpArena
  import opened FileIo
  import opened ShaderSetup

  /** The `__FILE__` every ledger entry of this renderer carries. */
  const SOURCE_FILE: string := "src/renderer/opengl_linux.cpp"

  // ---------------------------------------------------------------------
  // What GLX and GL return.

  /** `glXChooseFBConfig` (list and count), `glXGetVisualFromFBConfig`,
      `glXCreateContext`, `glXMakeCurrent` and the address loaded for
      `glXCreateContextAttribsARB`, during `RendererInit`. */
  datatype ProbeOutcome = ProbeOutcome(
    fbc: Handle, fbcount: int, vi: Handle, dummyCtx: Handle, makeCurrentOk: bool, createContextAttribs: Handle)

  /** `glXCreateContextAttribsARB`, `glXMakeCurrent` and the shader stage,
      during `RendererCreateContext`. */
  datatype ContextOutcome = ContextOutcome(ctx: Handle, makeCurrentOk: bool, shaders: ShaderOutcome)

  predicate ProbeOk(info: Handle, o: ProbeOutcome)
  {
    && info != NULL && o.fbc != NULL && o.fbcount != 0 && o.vi != NULL
    && o.dummyCtx != NULL && o.makeCurrentOk && o.createContextAttribs != NULL
  }

  /** `built`: whether the shader stage succeeds on the arena as it is. */
  predicate ContextOk(info: Handle, o: ContextOutcome, built: bool)
  {
    info != NULL && o.ctx != NULL && o.makeCurrentOk && built
  }

  // The ledger calls each operation makes, one function per call site.

  function DummyFbcSite(fbc: Handle): Call { Track(fbc, OPENGL, SOURCE_FILE, 164, "X11 dummy framebuffer config") }
  function DummyVisualSite(vi: Handle): Call { Track(vi, CUSTOM, SOURCE_FILE, 172, "X11 dummy visual info") }
  function DummyContextSite(ctx: Handle): Call { Track(ctx, OPENGL, SOURCE_FILE, 182, "X11 dummy context") }
  function ContextSite(ctx: Handle): Call { Track(ctx, HANDLE, SOURCE_FILE, 230, "X11 context") }
  function ProgramSite(slot: Handle): Call { Track(slot, OPENGL, SOURCE_FILE, 289, "OpenGL program") }
  function VaoSite(slot: Handle): Call { Track(slot, OPENGL, SOURCE_FILE, 299, "OpenGL VAO") }

  function InitTrace(info: Handle, o: ProbeOutcome): seq<Call>
  {
    if info == NULL || o.fbc == NULL || o.fbcount == 0 then []
    else if o.vi == NULL then [DummyFbcSite(o.fbc)]
    else if o.dummyCtx == NULL then [DummyFbcSite(o.fbc), DummyVisualSite(o.vi), Release(o.fbc)]
    else if !o.makeCurrentOk || o.createContextAttribs == NULL then
      [DummyFbcSite(o.fbc), DummyVisualSite(o.vi), Release(o.fbc), DummyContextSite(o.dummyCtx), Release(o.vi)]
    else
      [DummyFbcSite(o.fbc), DummyVisualSite(o.vi), Release(o.fbc), DummyContextSite(o.dummyCtx), Release(o.vi),
       Release(o.dummyCtx)]
  }

  function ContextTrace(info: Handle, o: ContextOutcome, built: bool, programSlot: Handle, vaoSlot: Handle): seq<Call>
  {
    if info == NULL || o.ctx == NULL then []
    else if !ContextOk(info, o, built) then [ContextSite(o.ctx)]
    else [ContextSite(o.ctx), ProgramSite(programSlot), VaoSite(vaoSlot)]
  }

  function DestroyContextTrace(ctx: Handle): seq<Call>
  {
    [Release(ctx)]
  }

  function ShutdownTrace(programSlot: Handle, vaoSlot: Handle): seq<Call>
  {
    [Release(vaoSlot), Release(programSlot)]
  }

  // What each bring-up leaves registered.

  /** The one probe object a failed `RendererInit` never releases; nothing
      when it succeeds. */
  function InitLeft(info: Handle, o: ProbeOutcome): multiset<Handle>
  {
    if info == NULL || o.fbc == NULL || o.fbcount == 0 then multiset{}
    else if o.vi == NULL then multiset{o.fbc}
    else if o.dummyCtx == NULL then multiset{o.vi}
    else if !o.makeCurrentOk || o.createContextAttribs == NULL then multiset{o.dummyCtx}
    else multiset{}
  }

  /** `RendererInit` releases every probe object it registered, except the
      last one on a failure path, and never releases one that is not live. */
  lemma InitLeaves(L: multiset<Handle>, info: Handle, o: ProbeOutcome)
    ensures LiveAfter(L, InitTrace(info, o)) == L + InitLeft(info, o)
    ensures MissedLog(L, InitTrace(info, o)) == []
    ensures ProbeOk(info, o) ==> InitLeft(info, o) == multiset{}
    ensures !ProbeOk(info, o) && info != NULL && o.fbc != NULL && o.fbcount != 0 ==> |InitLeft(info, o)| == 1
  {
    var a, b, c := DummyFbcSite(o.fbc), DummyVisualSite(o.vi), Release(o.fbc);
    var d, e, f := DummyContextSite(o.dummyCtx), Release(o.vi), Release(o.dummyCtx);
    var L2 := L + multiset{o.fbc} + multiset{o.vi};
    var L4 := L + multiset{o.vi} + multiset{o.dummyCtx};
    if info == NULL || o.fbc == NULL || o.fbcount == 0 {
    } else if o.vi == NULL {
      Live1(L, a);
    } else if o.dummyCtx == NULL {
      Chain3(L, a, b, c);
    } else if !o.makeCurrentOk || o.createContextAttribs == NULL {
      Chain5(L, a, b, c, d, e);
    } else {
      Chain6(L, a, b, c, d, e, f);
    }
  }

  /** The handles a `RendererCreateContext` leaves registered: the context
      alone when a later step fails, and with it the program and the vertex
      array on success. */
  function ContextLeft(info: Handle, o: ContextOutcome, built: bool, programSlot: Handle, vaoSlot: Handle): multiset<Handle>
  {
    if info == NULL || o.ctx == NULL then multiset{}
    else if !ContextOk(info, o, built) then multiset{o.ctx}
    else multiset{o.ctx} + multiset{programSlot} + multiset{vaoSlot}
  }

  lemma ContextLeaves(L: multiset<Handle>, info: Handle, o: ContextOutcome, built: bool, programSlot: Handle, vaoSlot: Handle)
    ensures LiveAfter(L, ContextTrace(info, o, built, programSlot, vaoSlot)) == L + ContextLeft(info, o, built, programSlot, vaoSlot)
    ensures MissedLog(L, ContextTrace(info, o, built, programSlot, vaoSlot)) == []
  {
    var a, b, c := ContextSite(o.ctx), ProgramSite(programSlot), VaoSite(vaoSlot);
    if info == NULL || o.ctx == NULL {
    } else if !ContextOk(info, o, built) {
      Live1(L, a);
    } else {
      Tracks3(L, a, b, c);
    }
  }

  // ---------------------------------------------------------------------
  // The renderer's globals and operations.

  /** One pass of `RendererUpdateContext`: the viewport set from the screen
      size, drawn, and swapped to `window` on `display`. */
  datatype Frame = Frame(display: Handle, window: Handle, viewport: ScreenSize)

  class LinuxRenderer {
    var ctx: Handle
    var display: Handle
    var window: Handle
    var programID: nat
    var vao: nat
    /** The loaded `glXCreateContextAttribsARB`. */
    var createContextAttribs: Handle
    /** Frames presented so far. */
    var frames: seq<Frame>
    /** The addresses of `g_programID` and `g_VAO`, which the ledger keys on. */
    const programSlot: Handle
    const vaoSlot: Handle

    constructor(programSlot: Handle, vaoSlot: Handle)
      requires programSlot != NULL && vaoSlot != NULL && programSlot != vaoSlot
      ensures this.programSlot == programSlot && this.vaoSlot == vaoSlot
      ensures ctx == NULL && display == NULL && window == NULL && programID == 0 && vao == 0
      ensures createContextAttribs == NULL && frames == []
    {
      this.programSlot := programSlot;
      this.vaoSlot := vaoSlot;
      ctx := NULL;
      display := NULL;
      window := NULL;
      programID := 0;
      vao := 0;
      createContextAttribs := NULL;
      frames := [];
    }

    /** `RendererInit(windowInfo)`: the probe. The framebuffer configuration,
        visual and dummy context are each registered and released once the
        next one exists; `glXCreateContextAttribsARB` is loaded through the
        dummy context, which is then destroyed. */
    method Init(l: Ledger, info: Handle, o: ProbeOutcome) returns (ok: bool)
      modifies this`createContextAttribs, l
      ensures ok <==> ProbeOk(info, o)
      ensures Snap(l) == Run(old(Snap(l)), InitTrace(info, o))
      ensures createContextAttribs ==
        (if info != NULL && o.fbc != NULL && o.fbcount != 0 && o.vi != NULL && o.dummyCtx != NULL && o.makeCurrentOk
         then o.createContextAttribs else old(createContextAttribs))
    {
      ghost var s0 := Snap(l);
      if info == NULL {
        return false;
      }
      var fbc := o.fbc;
      if fbc == NULL || o.fbcount == 0 {
        return false;
      }
      Perform(l, DummyFbcSite(fbc));
      var vi := o.vi;
      if vi == NULL {
        Run1(s0, DummyFbcSite(fbc));
        return false;
      }
      Perform(l, DummyVisualSite(vi));
      Perform(l, Release(fbc));
      var dummyCtx := o.dummyCtx;
      if dummyCtx == NULL {
        Run3(s0, DummyFbcSite(fbc), DummyVisualSite(vi), Release(fbc));
        return false;
      }
      Perform(l, DummyContextSite(dummyCtx));
      Perform(l, Release(vi));
      if !o.makeCurrentOk {
        Run5(s0, DummyFbcSite(fbc), DummyVisualSite(vi), Release(fbc), DummyContextSite(dummyCtx), Release(vi));
        return false;
      }
      createContextAttribs := o.createContextAttribs;
      if createContextAttribs == NULL {
        Run5(s0, DummyFbcSite(fbc), DummyVisualSite(vi), Release(fbc), DummyContextSite(dummyCtx), Release(vi));
        return false;
      }
      Perform(l, Release(dummyCtx));
      Run6(s0, DummyFbcSite(fbc), DummyVisualSite(vi), Release(fbc), DummyContextSite(dummyCtx), Release(vi),
           Release(dummyCtx));
      return true;
    }

    /** `RendererCreateContext(windowInfo, transientStorage)`: the real
        context (registered), both shader sources read into the arena, both
        compiled, then the program and the vertex array (registered). On
        success the context remembers the display and window it presents to. */
    method CreateContext(l: Ledger, info: Handle, display': Handle, window': Handle, ba: BumpAllocator, o: ContextOutcome)
      returns (ok: bool)
      requires ba.Valid()
      requires SourcesBounded(o.shaders)
      modifies this`ctx, this`programID, this`vao, this`display, this`window, l, ba`used, ba`contents
      ensures ba.Valid()
      ensures ok <==> ContextOk(info, o, ShadersBuild(old(ba.used), ba.capacity, o.shaders))
      ensures Snap(l) == Run(old(Snap(l)), ContextTrace(info, o, ShadersBuild(old(ba.used), ba.capacity, o.shaders), programSlot, vaoSlot))
      ensures ctx == (if info != NULL then o.ctx else old(ctx))
      ensures info != NULL && o.ctx != NULL && o.makeCurrentOk ==>
        ba.used == ShadersUsed(old(ba.used), ba.capacity, o.shaders)
      ensures !(info != NULL && o.ctx != NULL && o.makeCurrentOk) ==> ba.used == old(ba.used) && ba.contents == old(ba.contents)
      ensures programID == (if ok then o.shaders.program else old(programID))
      ensures vao == (if ok then o.shaders.vao else old(vao))
      ensures (display, window) == (if ok then (display', window') else (old(display), old(window)))
    {
      ghost var s0 := Snap(l);
      if info == NULL {
        return false;
      }
      ctx := o.ctx;
      if ctx == NULL {
        return false;
      }
      Perform(l, ContextSite(ctx));
      ok := false;
      if o.makeCurrentOk {
        var bothRead := ReadShaders(ba, o.shaders);
        ok := bothRead && o.shaders.vertCompiles && o.shaders.fragCompiles;
      }
      if !ok {
        Run1(s0, ContextSite(ctx));
        return;
      }
      LinkProgram(l, o.shaders.program, o.shaders.vao);
      display := display';
      window := window';
      Run3(s0, ContextSite(ctx), ProgramSite(programSlot), VaoSite(vaoSlot));
      return true;
    }

    /** Lines 284 to 299 of `opengl_linux.cpp`: the linked program and
        the vertex array, each registered under the address of its global. */
    method LinkProgram(l: Ledger, program: nat, vertexArray: nat)
      modifies this`programID, this`vao, l
      ensures programID == program && vao == vertexArray
      ensures Snap(l) == Step(Step(old(Snap(l)), ProgramSite(programSlot)), VaoSite(vaoSlot))
    {
      programID := program;
      Perform(l, ProgramSite(programSlot));
      vao := vertexArray;
      Perform(l, VaoSite(vaoSlot));
    }

    /** `RendererUpdateContext`: clears, sets the viewport to the screen
        size, draws the quad and presents the frame. */
    method UpdateContext(screenSize: ScreenSize)
      modifies this`frames
      ensures frames == old(frames) + [Frame(display, window, screenSize)]
    {
      frames := frames + [Frame(display, window, screenSize)];
    }

    /** `RendererDestroyContext`: releases the context and forgets the
        display and window. */
    method DestroyContext(l: Ledger)
      modifies this`ctx, this`display, this`window, l
      ensures ctx == NULL && display == NULL && window == NULL
      ensures Snap(l) == Run(old(Snap(l)), DestroyContextTrace(old(ctx)))
    {
      ghost var s0 := Snap(l);
      Perform(l, Release(ctx));
      Run1(s0, Release(ctx));
      ctx := NULL;
      display := NULL;
      window := NULL;
    }

    /** `RendererShutdown`: deletes the vertex array and the program and
        releases both slots; the two names themselves are left as they are. */
    method Shutdown(l: Ledger)
      modifies l
      ensures Snap(l) == Run(old(Snap(l)), ShutdownTrace(programSlot, vaoSlot))
    {
      ghost var s0 := Snap(l);
      Perform(l, Release(vaoSlot));
      Perform(l, Release(programSlot));
      Run2(s0, Release(vaoSlot), Release(programSlot));
    }
  }
}
