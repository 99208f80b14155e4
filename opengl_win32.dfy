/** The WGL renderer: a probe of OpenGL through a legacy context on the
    dummy window, which loads the GL entry points and the two WGL extension
    functions, then the real 4.3 core-profile context on the real window
    with one shader program and one vertex array, a frame per main-loop
    pass, and teardown. The file-scope globals are the fields of
    `Win32Renderer`; what WGL, GL and the shader compiler return are
    parameters. */
module OpenGlWin32 {
  import opened Common
  import opened LeakTracker
  import opened LedgerReplay
  import opened BumpArena
  import opened FileIo
  import opened ShaderSetup

  /** The `__FILE__` every ledger entry of this renderer carries. */
  const SOURCE_FILE: string := "src/renderer/opengl_win32.cpp"

  // ---------------------------------------------------------------------
  // The debug-message callback.

  const GL_DEBUG_SEVERITY_HIGH: nat := 0x9146
  const GL_DEBUG_SEVERITY_MEDIUM: nat := 0x9147
  const GL_DEBUG_SEVERITY_LOW: nat := 0x9148
  const GL_DEBUG_SEVERITY_NOTIFICATION: nat := 0x826B

  /** What `GLDebugCallback` does with a message: stop in the debugger, or
      only trace it. */
  datatype DebugAction = Break | Trace

  function DebugCallback(severity: nat): (r: DebugAction)
    ensures r == Break <==>
      severity in {GL_DEBUG_SEVERITY_LOW, GL_DEBUG_SEVERITY_MEDIUM, GL_DEBUG_SEVERITY_HIGH}
  {
    if severity == GL_DEBUG_SEVERITY_LOW || severity == GL_DEBUG_SEVERITY_MEDIUM || severity == GL_DEBUG_SEVERITY_HIGH
    then Break
    else Trace
  }

  /** Every severity but a notification stops the program, even a low one;
      notifications, which a debug context sends for routine events, are
      only traced. */
  lemma DebugSeverities()
    ensures DebugCallback(GL_DEBUG_SEVERITY_LOW) == Break
    ensures DebugCallback(GL_DEBUG_SEVERITY_NOTIFICATION) == Trace
    ensures forall s :: GL_DEBUG_SEVERITY_HIGH <= s <= GL_DEBUG_SEVERITY_LOW ==> DebugCallback(s) == Break
  {
  }

  // ---------------------------------------------------------------------
  // What WGL and GL return.

  /** `ChoosePixelFormat`, `SetPixelFormat`, `wglCreateContext`,
      `wglMakeCurrent`, `LoadLibraryA("opengl32.dll")` and the addresses
      loaded for `wglCreateContextAttribsARB` and `wglChoosePixelFormatARB`,
      during `RendererInit`. */
  datatype ProbeOutcome = ProbeOutcome(
    pixelFormat: int, setPixelFormatOk: bool, rc: Handle, makeCurrentOk: bool,
    dll: Handle, createContextAttribs: Handle, choosePixelFormat: Handle)

  /** `wglChoosePixelFormatARB`, `DescribePixelFormat`, `SetPixelFormat`,
      `wglCreateContextAttribsARB`, `wglMakeCurrent` and the shader stage,
      during `RendererCreateContext`. */
  datatype ContextOutcome = ContextOutcome(
    choseFormat: bool, described: bool, setPixelFormatOk: bool, hglrc: Handle, makeCurrentOk: bool,
    shaders: ShaderOutcome)

  /** The probe reaches its context: a window, a pixel format set on it, and
      a context created for it. */
  predicate ProbeContextMade(info: Handle, o: ProbeOutcome)
  {
    info != NULL && o.pixelFormat != 0 && o.setPixelFormatOk && o.rc != NULL
  }

  predicate ProbeOk(info: Handle, o: ProbeOutcome)
  {
    ProbeContextMade(info, o) && o.makeCurrentOk && o.createContextAttribs != NULL && o.choosePixelFormat != NULL
  }

  /** The real context is created: a pixel format chosen, described and set. */
  predicate ContextMade(info: Handle, o: ContextOutcome)
  {
    info != NULL && o.choseFormat && o.described && o.setPixelFormatOk && o.hglrc != NULL
  }

  /** `built`: whether the shader stage succeeds on the arena as it is. */
  predicate ContextOk(info: Handle, o: ContextOutcome, built: bool)
  {
    ContextMade(info, o) && o.makeCurrentOk && built
  }

  // The ledger calls each operation makes, one function per call site.

  function ProbeContextSite(rc: Handle): Call { Track(rc, OPENGL, SOURCE_FILE, 201, "OpenGL context") }
  function ContextSite(hglrc: Handle): Call { Track(hglrc, OPENGL, SOURCE_FILE, 286, "OpenGL context") }
  function ProgramSite(slot: Handle): Call { Track(slot, OPENGL, SOURCE_FILE, 347, "OpenGL program") }
  function VaoSite(slot: Handle): Call { Track(slot, OPENGL, SOURCE_FILE, 357, "OpenGL VAO") }

  function InitTrace(info: Handle, o: ProbeOutcome): seq<Call>
  {
    if !ProbeContextMade(info, o) then []
    else if !ProbeOk(info, o) then [ProbeContextSite(o.rc)]
    else [ProbeContextSite(o.rc), Release(o.rc)]
  }

  function ContextTrace(info: Handle, o: ContextOutcome, built: bool, programSlot: Handle, vaoSlot: Handle): seq<Call>
  {
    if !ContextMade(info, o) then []
    else if !ContextOk(info, o, built) then [ContextSite(o.hglrc)]
    else [ContextSite(o.hglrc), ProgramSite(programSlot), VaoSite(vaoSlot)]
  }

  function DestroyContextTrace(hglrc: Handle): seq<Call>
  {
    [Release(hglrc)]
  }

  function ShutdownTrace(programSlot: Handle, vaoSlot: Handle): seq<Call>
  {
    [Release(vaoSlot), Release(programSlot)]
  }

  /** The probe context is the only thing `RendererInit` ever registers: the
      library handle it loads is not. */
  lemma InitRegistersOnlyProbe(info: Handle, o: ProbeOutcome)
    ensures Tracked(InitTrace(info, o)) == (if ProbeContextMade(info, o) then multiset{o.rc} else multiset{})
    ensures o.dll != o.rc ==> o.dll !in Tracked(InitTrace(info, o))
  {
    var a := ProbeContextSite(o.rc);
    assert [a][..0] == [];
    assert Tracked([a]) == multiset{o.rc};
    assert [a, Release(o.rc)][..1] == [a];
    assert Tracked([a, Release(o.rc)]) == Tracked([a]);
  }

  // What each bring-up leaves registered.

  /** The probe context when a step after its creation fails; nothing
      otherwise. */
  function InitLeft(info: Handle, o: ProbeOutcome): multiset<Handle>
  {
    if ProbeContextMade(info, o) && !ProbeOk(info, o) then multiset{o.rc} else multiset{}
  }

  /** Pixel-format failures change nothing, and a successful probe releases
      the context it registered. */
  lemma InitLeaves(L: multiset<Handle>, info: Handle, o: ProbeOutcome)
    ensures LiveAfter(L, InitTrace(info, o)) == L + InitLeft(info, o)
    ensures MissedLog(L, InitTrace(info, o)) == []
    ensures ProbeOk(info, o) ==> InitLeft(info, o) == multiset{}
  {
    var a := ProbeContextSite(o.rc);
    if !ProbeContextMade(info, o) {
    } else if !ProbeOk(info, o) {
      Live1(L, a);
    } else {
      Live2(L, a, Release(o.rc));
      AddThenRemove(L, o.rc);
    }
  }

  function ContextLeft(info: Handle, o: ContextOutcome, built: bool, programSlot: Handle, vaoSlot: Handle): multiset<Handle>
  {
    if !ContextMade(info, o) then multiset{}
    else if !ContextOk(info, o, built) then multiset{o.hglrc}
    else multiset{o.hglrc} + multiset{programSlot} + multiset{vaoSlot}
  }

  /** A failure before the context exists changes nothing; a later failure
      leaves the context alone registered; success leaves the context, the
      program and the vertex array. */
  lemma ContextLeaves(L: multiset<Handle>, info: Handle, o: ContextOutcome, built: bool, programSlot: Handle, vaoSlot: Handle)
    ensures LiveAfter(L, ContextTrace(info, o, built, programSlot, vaoSlot)) == L + ContextLeft(info, o, built, programSlot, vaoSlot)
    ensures MissedLog(L, ContextTrace(info, o, built, programSlot, vaoSlot)) == []
  {
    var a, b, c := ContextSite(o.hglrc), ProgramSite(programSlot), VaoSite(vaoSlot);
    if !ContextMade(info, o) {
    } else if !ContextOk(info, o, built) {
      Live1(L, a);
    } else {
      Tracks3(L, a, b, c);
    }
  }

  // ---------------------------------------------------------------------
  // The renderer's globals and operations.

  /** One pass of `RendererUpdateContext`: the viewport set from the screen
      size, drawn, and swapped to the device context `hdc`. */
  datatype Frame = Frame(hdc: Handle, viewport: ScreenSize)

  class Win32Renderer {
    var openglDLL: Handle
    var createContextAttribs: Handle
    var choosePixelFormat: Handle
    /** Whether `GLDebugCallback` is installed as GL's debug-message callback. */
    var debugCallbackInstalled: bool
    var hglrc: Handle
    var hdc: Handle
    var programID: nat
    var vao: nat
    /** Frames presented so far. */
    var frames: seq<Frame>
    /** The addresses of `g_programID` and `g_VAO`, which the ledger keys on. */
    const programSlot: Handle
    const vaoSlot: Handle

    constructor(programSlot: Handle, vaoSlot: Handle)
      requires programSlot != NULL && vaoSlot != NULL && programSlot != vaoSlot
      ensures this.programSlot == programSlot && this.vaoSlot == vaoSlot
      ensures openglDLL == NULL && createContextAttribs == NULL && choosePixelFormat == NULL
      ensures !debugCallbackInstalled && hglrc == NULL && hdc == NULL && programID == 0 && vao == 0
      ensures frames == []
    {
      this.programSlot := programSlot;
      this.vaoSlot := vaoSlot;
      openglDLL := NULL;
      createContextAttribs := NULL;
      choosePixelFormat := NULL;
      debugCallbackInstalled := false;
      hglrc := NULL;
      hdc := NULL;
      programID := 0;
      vao := 0;
      frames := [];
    }

    /** `RendererInit(windowInfo)`: sets a pixel format on the dummy window,
        creates the probe context (registered), makes it current, loads the
        GL entry points and the two extension functions, installs the debug
        callback, and deletes the probe context again. */
    method Init(l: Ledger, info: Handle, o: ProbeOutcome) returns (ok: bool)
      modifies this`openglDLL, this`createContextAttribs, this`choosePixelFormat, this`debugCallbackInstalled, l
      ensures ok <==> ProbeOk(info, o)
      ensures Snap(l) == Run(old(Snap(l)), InitTrace(info, o))
      ensures var loaded := ProbeContextMade(info, o) && o.makeCurrentOk;
        && openglDLL == (if loaded then o.dll else old(openglDLL))
        && createContextAttribs == (if loaded then o.createContextAttribs else old(createContextAttribs))
        && choosePixelFormat == (if loaded then o.choosePixelFormat else old(choosePixelFormat))
      ensures debugCallbackInstalled == (ok || old(debugCallbackInstalled))
    {
      ghost var s0 := Snap(l);
      if info == NULL || o.pixelFormat == 0 || !o.setPixelFormatOk {
        return false;
      }
      var rc := o.rc;
      if rc == NULL {
        return false;
      }
      Perform(l, ProbeContextSite(rc));
      if !o.makeCurrentOk {
        Run1(s0, ProbeContextSite(rc));
        return false;
      }
      openglDLL := o.dll;
      createContextAttribs := o.createContextAttribs;
      choosePixelFormat := o.choosePixelFormat;
      if createContextAttribs == NULL || choosePixelFormat == NULL {
        Run1(s0, ProbeContextSite(rc));
        return false;
      }
      debugCallbackInstalled := true;
      Perform(l, Release(rc));
      Run2(s0, ProbeContextSite(rc), Release(rc));
      return true;
    }

    /** `RendererCreateContext(windowInfo, transientStorage)`: the real
        context (registered) on the window's device context `hdc'`, which
        is remembered once the context is current; both shader sources read
        into the arena, both compiled, then the program and the vertex array
        (registered). */
    method CreateContext(l: Ledger, info: Handle, hdc': Handle, ba: BumpAllocator, o: ContextOutcome)
      returns (ok: bool)
      requires ba.Valid()
      requires SourcesBounded(o.shaders)
      modifies this`hglrc, this`hdc, this`programID, this`vao, l, ba`used, ba`contents
      ensures ba.Valid()
      ensures ok <==> ContextOk(info, o, ShadersBuild(old(ba.used), ba.capacity, o.shaders))
      ensures Snap(l) == Run(old(Snap(l)), ContextTrace(info, o, ShadersBuild(old(ba.used), ba.capacity, o.shaders), programSlot, vaoSlot))
      ensures hglrc == (if info != NULL && o.choseFormat && o.described && o.setPixelFormatOk then o.hglrc else old(hglrc))
      ensures hdc == (if ContextMade(info, o) && o.makeCurrentOk then hdc' else old(hdc))
      ensures ContextMade(info, o) && o.makeCurrentOk ==>
        ba.used == ShadersUsed(old(ba.used), ba.capacity, o.shaders)
      ensures !(ContextMade(info, o) && o.makeCurrentOk) ==> ba.used == old(ba.used) && ba.contents == old(ba.contents)
      ensures programID == (if ok then o.shaders.program else old(programID))
      ensures vao == (if ok then o.shaders.vao else old(vao))
    {
      ghost var s0 := Snap(l);
      if info == NULL || !o.choseFormat || !o.described || !o.setPixelFormatOk {
        return false;
      }
      hglrc := o.hglrc;
      if hglrc == NULL {
        return false;
      }
      Perform(l, ContextSite(hglrc));
      ok := false;
      if o.makeCurrentOk {
        hdc := hdc';
        var bothRead := ReadShaders(ba, o.shaders);
        ok := bothRead && o.shaders.vertCompiles && o.shaders.fragCompiles;
      }
      if !ok {
        Run1(s0, ContextSite(hglrc));
        return;
      }
      LinkProgram(l, o.shaders.program, o.shaders.vao);
      Run3(s0, ContextSite(hglrc), ProgramSite(programSlot), VaoSite(vaoSlot));
      return true;
    }

    /** Lines 343 to 357 of `opengl_win32.cpp`: the linked program and
        the vertex array, each registered under the address of its global. */
    method LinkProgram(l: Ledger, program: nat, vertexArray: nat)
      modifies this`programID, this`vao, l
      ensures programID == program && vao == vertexArray
      ensures Snap(l) == Step(Step(old(Snap(l)), ProgramSite(programSlot)), VaoSite(vaoSlot))
    {
      programID := program;
      Perform(l, ProgramSite(programSlot));
      vao := vertexArray;
      Perform(l, VaoSite(vaoSlot));
    }

    /** `RendererUpdateContext`: clears, sets the viewport to the screen
        size, draws the quad and swaps the remembered device context. */
    method UpdateContext(screenSize: ScreenSize)
      modifies this`frames
      ensures frames == old(frames) + [Frame(hdc, screenSize)]
    {
      frames := frames + [Frame(hdc, screenSize)];
    }

    /** `RendererDestroyContext`: deletes and releases the context and
        forgets the device context. */
    method DestroyContext(l: Ledger)
      modifies this`hglrc, this`hdc, l
      ensures hglrc == NULL && hdc == NULL
      ensures Snap(l) == Run(old(Snap(l)), DestroyContextTrace(old(hglrc)))
    {
      ghost var s0 := Snap(l);
      Perform(l, Release(hglrc));
      Run1(s0, Release(hglrc));
      hglrc := NULL;
      hdc := NULL;
    }

    /** `RendererShutdown`: frees the library, then deletes the vertex array
        and the program and releases both slots. */
    method Shutdown(l: Ledger)
      modifies this`openglDLL, l
      ensures openglDLL == NULL
      ensures Snap(l) == Run(old(Snap(l)), ShutdownTrace(programSlot, vaoSlot))
    {
      ghost var s0 := Snap(l);
      openglDLL := NULL;
      Perform(l, Release(vaoSlot));
      Perform(l, Release(programSlot));
      Run2(s0, Release(vaoSlot), Release(programSlot));
    }
  }
}
