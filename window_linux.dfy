/** The X11 platform layer: the display connection, the window-manager
    delete atom, a throw-away dummy window used to probe OpenGL, the real
    window with its framebuffer configuration and colormap, and the event
    pump that stops the main loop. The file-scope globals are the fields of
    `LinuxPlatform`; every X11 call's result is a parameter. */
module WindowLinux {
  import opened Common
  import opened LeakTracker
  import opened LedgerReplay

  /** The `__FILE__` every ledger entry of this layer carries. */
  const SOURCE_FILE: string := "src/platform/window_linux.cpp"

  // ---------------------------------------------------------------------
  // Events.

  datatype XEvent =
    | ClientMessage(datum0: int)
    | ConfigureNotify(width: int, height: int)
    | OtherEvent

  datatype CallbackResult = NONE | QUIT

  /** A client message whose first datum, read as an `Atom`, is the delete atom. */
  predicate IsQuit(e: XEvent, atom: nat)
  {
    e.ClientMessage? && ToU64(e.datum0) == atom
  }

  /** The effect of `CallbackHandle` on one event: the verdict, and the screen
      size after it (a configure event stores its size as two `u32`). */
  function HandleEvent(e: XEvent, atom: nat, size: ScreenSize): (r: (CallbackResult, ScreenSize))
    ensures r.0 == QUIT <==> IsQuit(e, atom)
    ensures e.ConfigureNotify? ==> r.1 == ScreenSize(ToU32(e.width), ToU32(e.height))
    ensures !e.ConfigureNotify? ==> r.1 == size
  {
    match e
    case ClientMessage(d) => (if ToU64(d) == atom then QUIT else NONE, size)
    case ConfigureNotify(w, h) => (NONE, ScreenSize(ToU32(w), ToU32(h)))
    case OtherEvent => (NONE, size)
  }

  datatype Drained = Drained(rest: seq<XEvent>, quit: bool, size: ScreenSize)

  /** Events are handled front to back until the first quit; whatever follows
      it stays queued. */
  function Drain(q: seq<XEvent>, atom: nat, size: ScreenSize): Drained
    decreases |q|
  {
    if |q| == 0 then Drained([], false, size)
    else
      var (res, size') := HandleEvent(q[0], atom, size);
      if res == QUIT then Drained(q[1..], true, size') else Drain(q[1..], atom, size')
  }

  /** Reference definition of the screen size: the one the last configure
      event of `q` reports, or `size` when `q` has none. */
  function LastConfigured(q: seq<XEvent>, size: ScreenSize): ScreenSize
    decreases |q|
  {
    if |q| == 0 then size
    else match q[|q| - 1]
      case ConfigureNotify(w, h) => ScreenSize(ToU32(w), ToU32(h))
      case _ => LastConfigured(q[..|q| - 1], size)
  }

  lemma {:induction false} LastConfiguredCons(e: XEvent, q: seq<XEvent>, atom: nat, size: ScreenSize)
    ensures LastConfigured([e] + q, size) == LastConfigured(q, HandleEvent(e, atom, size).1)
    decreases |q|
  {
    if |q| == 0 {
      assert [e] + q == [e];
      assert ([e] + q)[..0] == [];
    } else {
      var q' := q[..|q| - 1];
      assert ([e] + q)[..|q|] == [e] + q';
      LastConfiguredCons(e, q', atom, size);
    }
  }

  /** `Drain` consumes a prefix of the queue: it stops right after the first
      quit event if there is one, and everything else, and the screen size it
      leaves is the last configured one in what it consumed. */
  lemma {:induction false} DrainConsumes(q: seq<XEvent>, atom: nat, size: ScreenSize)
    ensures var d := Drain(q, atom, size);
      var n := |q| - |d.rest|;
      && |d.rest| <= |q|
      && d.rest == q[n..]
      && d.size == LastConfigured(q[..n], size)
      && (d.quit <==> n > 0 && IsQuit(q[n - 1], atom))
      && (forall j :: 0 <= j < n - 1 ==> !IsQuit(q[j], atom))
      && (!d.quit ==> d.rest == [])
    decreases |q|
  {
    if |q| > 0 {
      var (res, size') := HandleEvent(q[0], atom, size);
      LastConfiguredCons(q[0], [], atom, size);
      assert [q[0]] + [] == q[..1];
      if res != QUIT {
        DrainConsumes(q[1..], atom, size');
        var d := Drain(q[1..], atom, size');
        var n := |q[1..]| - |d.rest|;
        assert q[..n + 1] == [q[0]] + q[1..][..n];
        LastConfiguredCons(q[0], q[1..][..n], atom, size);
        assert q[1..][n..] == q[n + 1..];
        forall j | 0 <= j < n
          ensures !IsQuit(q[j], atom)
        {
          if j > 0 { assert q[j] == q[1..][j - 1]; }
        }
        if d.quit {
          assert q[n] == q[1..][n - 1];
        }
      }
    }
  }

  /** There is a quit in the queue exactly when `Drain` reports one. */
  lemma DrainQuitIff(q: seq<XEvent>, atom: nat, size: ScreenSize)
    ensures Drain(q, atom, size).quit <==> exists i :: 0 <= i < |q| && IsQuit(q[i], atom)
  {
    DrainConsumes(q, atom, size);
    var d := Drain(q, atom, size);
    var n := |q| - |d.rest|;
    if !d.quit {
      assert n == |q|;
    } else {
      assert IsQuit(q[n - 1], atom);
    }
  }

  // ---------------------------------------------------------------------
  // Window placement.

  datatype Placement = Placement(x: int, y: int, width: int, height: int)

  /** `CalculateCenterPosition`: the origin that centres a `width` x `height`
      window on the screen, with C++'s truncating division. The two margins
      differ by at most one pixel, and the right one is never the smaller when
      the window fits. */
  function CenterPosition(screenWidth: int, screenHeight: int, width: int, height: int): (r: (int, int))
    requires IsI32(screenWidth - width) && IsI32(screenHeight - height)
    ensures screenWidth >= width ==> 0 <= (screenWidth - width - r.0) - r.0 <= 1
    ensures screenWidth < width ==> -1 <= (screenWidth - width - r.0) - r.0 <= 0
    ensures screenHeight >= height ==> 0 <= (screenHeight - height - r.1) - r.1 <= 1
    ensures screenHeight < height ==> -1 <= (screenHeight - height - r.1) - r.1 <= 0
  {
    (TruncHalf(screenWidth - width), TruncHalf(screenHeight - height))
  }

  /** When the leftover width is even the window is exactly centred, and a
      window wider than the screen starts left of it. */
  lemma CenterExact(screenWidth: int, width: int)
    requires IsI32(screenWidth - width)
    ensures (screenWidth - width) % 2 == 0 ==>
      CenterPosition(screenWidth, 0, width, 0).0 * 2 + width == screenWidth
    ensures screenWidth < width - 1 ==> CenterPosition(screenWidth, 0, width, 0).0 < 0
  {
    var d := screenWidth - width;
    var x := CenterPosition(screenWidth, 0, width, 0).0;
    if d % 2 == 0 {
      if d >= 0 { assert 0 <= d - 2 * x <= 1; } else { assert -1 <= d - 2 * x <= 0; }
    }
  }

  // ---------------------------------------------------------------------
  // What the X11 calls return.

  /** `XInitThreads`, `XOpenDisplay`, `XInternAtom`, and the address `new WindowInfo` returns. */
  datatype InitOutcome = InitOutcome(threadsOk: bool, display: Handle, atom: nat, windowInfo: Handle)

  /** `glXChooseFBConfig` (list and count, first entry), `glXGetVisualFromFBConfig`,
      `XCreateColormap`, the screen's size, `XCreateWindow`, and the atom interned again. */
  datatype WindowOutcome = WindowOutcome(
    fbc: Handle, fbcount: int, bestConfig: Handle, vi: Handle, cmap: Handle,
    screenWidth: int, screenHeight: int, window: Handle, atom: nat)

  predicate InitOk(o: InitOutcome) { o.threadsOk && o.display != NULL && o.atom != 0 }

  predicate ConfigOk(o: WindowOutcome) { o.fbc != NULL && o.fbcount != 0 }

  predicate WindowOk(o: WindowOutcome) { ConfigOk(o) && o.vi != NULL && o.window != NULL }

  // The ledger calls each operation makes, one function per call site.

  function DisplaySite(display: Handle): Call { Track(display, HANDLE, SOURCE_FILE, 72, "X11 display") }
  function WindowInfoSite(info: Handle): Call { Track(info, CUSTOM, SOURCE_FILE, 82, "WindowInfo") }
  function DummyWindowSite(window: Handle): Call { Track(window, HANDLE, SOURCE_FILE, 107, "X11 dummy window") }
  function FbcSite(fbc: Handle): Call { Track(fbc, HANDLE, SOURCE_FILE, 145, "X11 framebuffer config") }
  function VisualSite(vi: Handle): Call { Track(vi, HANDLE, SOURCE_FILE, 155, "X11 visual info") }
  function ColormapSite(cmap: Handle): Call { Track(cmap, HANDLE, SOURCE_FILE, 158, "X11 colormap") }
  function WindowSite(window: Handle): Call { Track(window, HANDLE, SOURCE_FILE, 185, "X11 window") }

  function InitTrace(o: InitOutcome): seq<Call>
  {
    if !o.threadsOk || o.display == NULL then []
    else if o.atom == 0 then [DisplaySite(o.display)]
    else [DisplaySite(o.display), WindowInfoSite(o.windowInfo)]
  }

  function DummyTrace(window: Handle): seq<Call>
  {
    if window == NULL then [] else [DummyWindowSite(window)]
  }

  function DestroyDummyTrace(window: Handle): seq<Call>
  {
    [Release(window)]
  }

  function CreateWindowTrace(o: WindowOutcome): seq<Call>
  {
    if !ConfigOk(o) then []
    else if o.vi == NULL then [FbcSite(o.fbc)]
    else if o.window == NULL then [FbcSite(o.fbc), VisualSite(o.vi), ColormapSite(o.cmap)]
    else [FbcSite(o.fbc), VisualSite(o.vi), ColormapSite(o.cmap), WindowSite(o.window), Release(o.vi)]
  }

  function DestroyWindowTrace(cmap: Handle, window: Handle, fbc: Handle): seq<Call>
  {
    [Release(cmap), Release(window), Release(fbc)]
  }

  function ShutdownTrace(display: Handle, windowInfo: Handle): seq<Call>
  {
    [Release(display), Release(windowInfo)]
  }

  // What each bring-up leaves registered.

  /** The display, and the `WindowInfo` once the atom is interned. */
  function InitLeft(o: InitOutcome): multiset<Handle>
  {
    if !o.threadsOk || o.display == NULL then multiset{}
    else if o.atom == 0 then multiset{o.display}
    else multiset{o.display} + multiset{o.windowInfo}
  }

  lemma InitLeaves(L: multiset<Handle>, o: InitOutcome)
    ensures LiveAfter(L, InitTrace(o)) == L + InitLeft(o)
    ensures MissedLog(L, InitTrace(o)) == []
    ensures InitOk(o) <==> |InitLeft(o)| == 2
  {
    if !o.threadsOk || o.display == NULL {
    } else if o.atom == 0 {
      Live1(L, DisplaySite(o.display));
    } else {
      Tracks2(L, DisplaySite(o.display), WindowInfoSite(o.windowInfo));
    }
  }

  lemma DummyLeaves(L: multiset<Handle>, window: Handle)
    ensures LiveAfter(L, DummyTrace(window)) == L + (if window == NULL then multiset{} else multiset{window})
    ensures MissedLog(L, DummyTrace(window)) == []
  {
    if window != NULL {
      Live1(L, DummyWindowSite(window));
    }
  }

  /** Nothing before a configuration is chosen; the configuration list when
      no visual matches; the list, visual and colormap when the window is not
      created; and on success the list, colormap and window, the visual
      having been released. */
  function CreateWindowLeft(o: WindowOutcome): multiset<Handle>
  {
    if !ConfigOk(o) then multiset{}
    else if o.vi == NULL then multiset{o.fbc}
    else if o.window == NULL then multiset{o.fbc} + multiset{o.vi} + multiset{o.cmap}
    else multiset{o.fbc} + multiset{o.cmap} + multiset{o.window}
  }

  lemma CreateWindowLeaves(L: multiset<Handle>, o: WindowOutcome)
    ensures LiveAfter(L, CreateWindowTrace(o)) == L + CreateWindowLeft(o)
    ensures MissedLog(L, CreateWindowTrace(o)) == []
  {
    var a, b, c := FbcSite(o.fbc), VisualSite(o.vi), ColormapSite(o.cmap);
    var d, e := WindowSite(o.window), Release(o.vi);
    if !ConfigOk(o) {
    } else if o.vi == NULL {
      Live1(L, a);
    } else if o.window == NULL {
      Tracks3(L, a, b, c);
    } else {
      Tracks4ReleaseSecond(L, a, b, c, d, e);
    }
  }

  // ---------------------------------------------------------------------
  // The platform's globals and operations.

  class LinuxPlatform {
    var display: Handle
    var window: Handle
    var wmDeleteAtom: nat
    var fbc: Handle
    var bestConfig: Handle
    var cmap: Handle
    var windowInfo: Handle
    /** `shared::g_screenSize`, which only configure events update on X11. */
    var screenSize: ScreenSize
    /** Events the X server has queued for this client. */
    var pending: seq<XEvent>
    /** Origin and size last passed to `XCreateWindow`. */
    var placement: Placement

    /** The globals' static initial values. */
    constructor()
      ensures display == NULL && window == NULL && wmDeleteAtom == 0 && fbc == NULL
      ensures bestConfig == NULL && cmap == NULL && windowInfo == NULL
      ensures screenSize == ScreenSize(0, 0) && pending == [] && placement == Placement(0, 0, 0, 0)
    {
      display := NULL;
      window := NULL;
      wmDeleteAtom := 0;
      fbc := NULL;
      bestConfig := NULL;
      cmap := NULL;
      windowInfo := NULL;
      screenSize := ScreenSize(0, 0);
      pending := [];
      placement := Placement(0, 0, 0, 0);
    }

    /** `PlatformInit`: opens the display (registered), interns the delete
        atom and allocates the `WindowInfo` (registered). */
    method Init(l: Ledger, o: InitOutcome) returns (ok: bool)
      requires o.windowInfo != NULL
      modifies this`display, this`wmDeleteAtom, this`windowInfo, l
      ensures ok <==> InitOk(o)
      ensures Snap(l) == Run(old(Snap(l)), InitTrace(o))
      ensures display == (if o.threadsOk then o.display else old(display))
      ensures wmDeleteAtom == (if o.threadsOk && o.display != NULL then o.atom else old(wmDeleteAtom))
      ensures windowInfo == (if ok then o.windowInfo else old(windowInfo))
    {
      ghost var s0 := Snap(l);
      if !o.threadsOk {
        return false;
      }
      display := o.display;
      if display == NULL {
        return false;
      }
      Perform(l, DisplaySite(display));
      wmDeleteAtom := o.atom;
      if wmDeleteAtom == 0 {
        Run1(s0, DisplaySite(display));
        return false;
      }
      windowInfo := o.windowInfo;
      Perform(l, WindowInfoSite(windowInfo));
      Run2(s0, DisplaySite(display), WindowInfoSite(windowInfo));
      return true;
    }

    /** `PlatformCreateDummyWindow`: a 50 x 50 window (registered) for the
        renderer to probe with; yields the `WindowInfo` or null. */
    method CreateDummyWindow(l: Ledger, created: Handle) returns (info: Handle)
      modifies this`window, l
      ensures window == created
      ensures info == (if created == NULL then NULL else windowInfo)
      ensures Snap(l) == Run(old(Snap(l)), DummyTrace(created))
    {
      ghost var s0 := Snap(l);
      window := created;
      if window == NULL {
        return NULL;
      }
      Perform(l, DummyWindowSite(window));
      Run1(s0, DummyWindowSite(window));
      return windowInfo;
    }

    /** `PlatformDestroyDummyWindow`. */
    method DestroyDummyWindow(l: Ledger)
      modifies this`window, l
      ensures window == NULL
      ensures Snap(l) == Run(old(Snap(l)), DestroyDummyTrace(old(window)))
    {
      ghost var s0 := Snap(l);
      Perform(l, Release(window));
      Run1(s0, Release(window));
      window := NULL;
    }

    /** `PlatformCreateWindow(width, height, title)`: picks the first matching
        framebuffer configuration, creates a colormap and a centred window
        (all registered) and releases the visual info once the window exists. */
    method CreateWindow(l: Ledger, width: int, height: int, o: WindowOutcome) returns (info: Handle)
      requires IsI32(o.screenWidth - width) && IsI32(o.screenHeight - height)
      modifies this`fbc, this`bestConfig, this`cmap, this`window, this`wmDeleteAtom, this`placement, l
      ensures info == (if WindowOk(o) then windowInfo else NULL)
      ensures Snap(l) == Run(old(Snap(l)), CreateWindowTrace(o))
      ensures fbc == o.fbc
      ensures bestConfig == (if ConfigOk(o) then o.bestConfig else old(bestConfig))
      ensures cmap == (if ConfigOk(o) && o.vi != NULL then o.cmap else old(cmap))
      ensures window == (if ConfigOk(o) && o.vi != NULL then o.window else old(window))
      ensures placement == (if ConfigOk(o) && o.vi != NULL then
        var c := CenterPosition(o.screenWidth, o.screenHeight, width, height);
        Placement(c.0, c.1, width, height) else old(placement))
      ensures wmDeleteAtom == (if WindowOk(o) then o.atom else old(wmDeleteAtom))
    {
      ghost var s0 := Snap(l);
      fbc := o.fbc;
      if fbc == NULL || o.fbcount == 0 {
        return NULL;
      }
      Perform(l, FbcSite(fbc));
      bestConfig := o.bestConfig;
      var vi := o.vi;
      if vi == NULL {
        Run1(s0, FbcSite(fbc));
        return NULL;
      }
      Perform(l, VisualSite(vi));
      cmap := o.cmap;
      Perform(l, ColormapSite(cmap));
      var (x, y) := CenterPosition(o.screenWidth, o.screenHeight, width, height);
      placement := Placement(x, y, width, height);
      window := o.window;
      if window == NULL {
        Run3(s0, FbcSite(fbc), VisualSite(vi), ColormapSite(cmap));
        return NULL;
      }
      Perform(l, WindowSite(window));
      wmDeleteAtom := o.atom;
      Perform(l, Release(vi));
      Run5(s0, FbcSite(fbc), VisualSite(vi), ColormapSite(cmap), WindowSite(window), Release(vi));
      return windowInfo;
    }

    /** `CallbackHandle`: classifies one event and records a new size. */
    method CallbackHandle(e: XEvent) returns (r: CallbackResult)
      modifies this`screenSize
      ensures (r, screenSize) == HandleEvent(e, wmDeleteAtom, old(screenSize))
    {
      r := NONE;
      match e {
        case ClientMessage(d) =>
          if ToU64(d) == wmDeleteAtom {
            r := QUIT;
          }
        case ConfigureNotify(w, h) =>
          screenSize := ScreenSize(ToU32(w), ToU32(h));
        case OtherEvent =>
      }
    }

    /** `PlatformUpdateWindow(running)`: `arrived` is what reached the queue
        since the last call. Events are handled until the queue is empty or a
        quit is seen; a quit clears `running` and leaves later events queued. */
    method UpdateWindow(running: bool, arrived: seq<XEvent>) returns (stillRunning: bool)
      modifies this`pending, this`screenSize
      ensures var d := Drain(old(pending) + arrived, wmDeleteAtom, old(screenSize));
        pending == d.rest && screenSize == d.size && stillRunning == (running && !d.quit)
    {
      pending := pending + arrived;
      stillRunning := running;
      ghost var goal := Drain(pending, wmDeleteAtom, screenSize);
      while |pending| > 0
        invariant Drain(pending, wmDeleteAtom, screenSize) == goal
        decreases |pending|
      {
        var e := pending[0];
        pending := pending[1..];
        var result := CallbackHandle(e);
        if result == QUIT {
          stillRunning := false;
          break;
        }
      }
    }

    /** `PlatformDestroyWindow`: releases the colormap, the window and the
        framebuffer configuration list, and clears them. */
    method DestroyWindow(l: Ledger)
      modifies this`cmap, this`window, this`fbc, this`bestConfig, l
      ensures cmap == NULL && window == NULL && fbc == NULL && bestConfig == NULL
      ensures Snap(l) == Run(old(Snap(l)), DestroyWindowTrace(old(cmap), old(window), old(fbc)))
    {
      ghost var s0 := Snap(l);
      Perform(l, Release(cmap));
      Perform(l, Release(window));
      Perform(l, Release(fbc));
      Run3(s0, Release(cmap), Release(window), Release(fbc));
      cmap := NULL;
      window := NULL;
      fbc := NULL;
      bestConfig := NULL;
    }

    /** `PlatformShutdown`: closes the display and deletes the `WindowInfo`. */
    method Shutdown(l: Ledger)
      modifies this`display, this`windowInfo, this`wmDeleteAtom, l
      ensures display == NULL && windowInfo == NULL && wmDeleteAtom == 0
      ensures Snap(l) == Run(old(Snap(l)), ShutdownTrace(old(display), old(windowInfo)))
    {
      ghost var s0 := Snap(l);
      Perform(l, Release(display));
      display := NULL;
      Perform(l, Release(windowInfo));
      Run2(s0, Release(old(display)), Release(old(windowInfo)));
      windowInfo := NULL;
      wmDeleteAtom := 0;
    }
  }
}
