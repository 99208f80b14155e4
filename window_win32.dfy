/** The Win32 platform layer: the `WindowInfo` the renderer reads the window
    and device context through, a throw-away dummy window used to probe
    OpenGL, the real window with its registered class, and the message pump
    that ends the main loop. The file-scope globals are the fields of
    `Win32Platform`; every Win32 call's result is a parameter. */
module WindowWin32 {
  import opened Common
  import opened LeakTracker
  import opened LedgerReplay

  /** The `__FILE__` every ledger entry of this layer carries. */
  const SOURCE_FILE: string := "src/platform/window_win32.cpp"

  // ---------------------------------------------------------------------
  // Window placement.

  datatype Rect = Rect(left: int, top: int, right: int, bottom: int)

  /** Every `i32` difference `CalculateCenterPosition` forms stays in range. */
  predicate CenterInRange(work: Rect, rc: Rect)
  {
    var dw := work.right - work.left;
    var dh := work.bottom - work.top;
    var ww := rc.right - rc.left;
    var wh := rc.bottom - rc.top;
    && IsI32(dw) && IsI32(dh) && IsI32(ww) && IsI32(wh) && IsI32(dw - ww) && IsI32(dh - wh)
    && IsI32(work.left + TruncHalf(dw - ww)) && IsI32(work.top + TruncHalf(dh - wh))
  }

  /** `CalculateCenterPosition(rc, outX, outY)` against the work area `work`
      that `SystemParametersInfoW` reports: the origin that centres `rc`'s
      size inside the work area, with C++'s truncating division. The margin
      left of the window and the one right of it differ by at most a pixel,
      and so do the top and bottom ones. */
  function CenterPosition(work: Rect, rc: Rect): (r: (int, int))
    requires CenterInRange(work, rc)
    ensures var dw, ww := work.right - work.left, rc.right - rc.left;
      var leftMargin := r.0 - work.left;
      dw >= ww ==> 0 <= (dw - ww - leftMargin) - leftMargin <= 1
    ensures var dw, ww := work.right - work.left, rc.right - rc.left;
      var leftMargin := r.0 - work.left;
      dw < ww ==> -1 <= (dw - ww - leftMargin) - leftMargin <= 0
    ensures var dh, wh := work.bottom - work.top, rc.bottom - rc.top;
      var topMargin := r.1 - work.top;
      dh >= wh ==> 0 <= (dh - wh - topMargin) - topMargin <= 1
    ensures var dh, wh := work.bottom - work.top, rc.bottom - rc.top;
      var topMargin := r.1 - work.top;
      dh < wh ==> -1 <= (dh - wh - topMargin) - topMargin <= 0
  {
    var dw := work.right - work.left;
    var dh := work.bottom - work.top;
    var ww := rc.right - rc.left;
    var wh := rc.bottom - rc.top;
    (work.left + TruncHalf(dw - ww), work.top + TruncHalf(dh - wh))
  }

  /** A window no larger than the work area is placed wholly inside it. */
  lemma CenteredInside(work: Rect, rc: Rect)
    requires CenterInRange(work, rc)
    requires rc.right - rc.left <= work.right - work.left
    requires rc.bottom - rc.top <= work.bottom - work.top
    ensures var (x, y) := CenterPosition(work, rc);
      && work.left <= x && x + (rc.right - rc.left) <= work.right
      && work.top <= y && y + (rc.bottom - rc.top) <= work.bottom
  {
  }

  // ---------------------------------------------------------------------
  // Messages.

  /** What `PeekMessageW` can hand out: `WM_CLOSE`, `WM_SIZE` (with the width
      and height `GetClientRect` then reports), and anything else. `WM_QUIT`
      is not queued: `PostQuitMessage` only sets a flag, and the quit message
      is handed out once the queue is otherwise empty. */
  datatype WinMsg =
    | Close
    | Size(clientWidth: int, clientHeight: int)
    | OtherMsg

  /** What `WndProc` reads and writes: `g_running`, the quit flag that
      `PostQuitMessage` raises, and `shared::g_screenSize`. */
  datatype PumpState = PumpState(running: bool, quitPosted: bool, size: ScreenSize)

  /** `WndProc` on one message. */
  function WndEffect(m: WinMsg, s: PumpState): (r: PumpState)
    ensures m.Close? ==> r == PumpState(false, true, s.size)
    ensures m.Size? ==> r == s.(size := ScreenSize(ToU32(m.clientWidth), ToU32(m.clientHeight)))
    ensures m.OtherMsg? ==> r == s
  {
    match m
    case Close => s.(running := false, quitPosted := true)
    case Size(w, h) => s.(size := ScreenSize(ToU32(w), ToU32(h)))
    case OtherMsg => s
  }

  /** `WndProc` applied to the messages of `q`, first to last. */
  function Dispatched(q: seq<WinMsg>, s: PumpState): PumpState
    decreases |q|
  {
    if |q| == 0 then s else WndEffect(q[|q| - 1], Dispatched(q[..|q| - 1], s))
  }

  /** `g_running` ends false exactly when it started false or some message
      was a close; nothing sets it back to true. The quit flag is raised the
      same way. */
  lemma {:induction false} DispatchedRunning(q: seq<WinMsg>, s: PumpState)
    ensures Dispatched(q, s).running <==> s.running && forall j :: 0 <= j < |q| ==> !q[j].Close?
    ensures Dispatched(q, s).quitPosted <==> s.quitPosted || exists j :: 0 <= j < |q| && q[j].Close?
    decreases |q|
  {
    if |q| > 0 {
      var q' := q[..|q| - 1];
      DispatchedRunning(q', s);
      assert forall j :: 0 <= j < |q'| ==> q'[j] == q[j];
    }
  }

  /** With no `WM_SIZE` among the messages the screen size is unchanged. */
  lemma {:induction false} DispatchedSizeKept(q: seq<WinMsg>, s: PumpState)
    requires forall j :: 0 <= j < |q| ==> !q[j].Size?
    ensures Dispatched(q, s).size == s.size
    decreases |q|
  {
    if |q| > 0 {
      var q' := q[..|q| - 1];
      assert forall j :: 0 <= j < |q'| ==> q'[j] == q[j];
      DispatchedSizeKept(q', s);
    }
  }

  /** Otherwise the screen size ends as the last `WM_SIZE` reported. */
  lemma {:induction false} DispatchedSizeLast(q: seq<WinMsg>, s: PumpState, j: nat)
    requires j < |q| && q[j].Size?
    requires forall k :: j < k < |q| ==> !q[k].Size?
    ensures Dispatched(q, s).size == ScreenSize(ToU32(q[j].clientWidth), ToU32(q[j].clientHeight))
    decreases |q|
  {
    if j < |q| - 1 {
      var q' := q[..|q| - 1];
      assert q'[j] == q[j];
      assert forall k :: j < k < |q'| ==> q'[k] == q[k];
      DispatchedSizeLast(q', s, j);
    }
  }

  // ---------------------------------------------------------------------
  // What the Win32 calls return.

  /** `GetModuleHandleW`, `CreateWindowExW` and `GetDC` for the dummy window. */
  datatype DummyOutcome = DummyOutcome(hInstance: Handle, hwnd: Handle, hdc: Handle)

  /** `GetModuleHandleW`, `RegisterClassExW`, the rectangle `AdjustWindowRectEx`
      grows the client area to, the work area, `CreateWindowExW` and `GetDC`. */
  datatype WindowOutcome = WindowOutcome(
    hInstance: Handle, classRegistered: bool, frame: Rect, workArea: Rect, hwnd: Handle, hdc: Handle)

  predicate DummyOk(o: DummyOutcome) { o.hInstance != NULL && o.hwnd != NULL && o.hdc != NULL }

  predicate WindowOk(o: WindowOutcome) { o.hInstance != NULL && o.classRegistered && o.hwnd != NULL }

  // The ledger calls each operation makes, one function per call site.

  function WindowInfoSite(info: Handle): Call { Track(info, CUSTOM, SOURCE_FILE, 61, "WindowInfo") }
  function DummyHwndSite(hwnd: Handle): Call { Track(hwnd, HANDLE, SOURCE_FILE, 91, "Dummy HWND") }
  function DummyHdcSite(hdc: Handle): Call { Track(hdc, HANDLE, SOURCE_FILE, 99, "Dummy HDC") }
  function HwndSite(hwnd: Handle): Call { Track(hwnd, HANDLE, SOURCE_FILE, 165, "HWND") }
  function HdcSite(hdc: Handle): Call { Track(hdc, HANDLE, SOURCE_FILE, 168, "HDC") }

  function InitTrace(info: Handle): seq<Call>
  {
    [WindowInfoSite(info)]
  }

  function DummyTrace(o: DummyOutcome): seq<Call>
  {
    if o.hInstance == NULL || o.hwnd == NULL then []
    else if o.hdc == NULL then [DummyHwndSite(o.hwnd)]
    else [DummyHwndSite(o.hwnd), DummyHdcSite(o.hdc)]
  }

  function DestroyDummyTrace(hwnd: Handle, hdc: Handle): seq<Call>
  {
    [Release(hdc), Release(hwnd)]
  }

  /** `GetDC`'s result is registered without a null check. */
  function CreateWindowTrace(o: WindowOutcome): seq<Call>
  {
    if !WindowOk(o) then [] else [HwndSite(o.hwnd), HdcSite(o.hdc)]
  }

  function DestroyWindowTrace(hwnd: Handle, hdc: Handle): seq<Call>
  {
    [Release(hdc), Release(hwnd)]
  }

  function ShutdownTrace(info: Handle): seq<Call>
  {
    [Release(info)]
  }

  // What each bring-up leaves registered.

  lemma InitLeaves(L: multiset<Handle>, info: Handle)
    ensures LiveAfter(L, InitTrace(info)) == L + multiset{info}
    ensures MissedLog(L, InitTrace(info)) == []
  {
    Live1(L, WindowInfoSite(info));
  }

  /** Nothing when no window is created, the window alone when `GetDC`
      fails, and the window and its device context on success. */
  function DummyLeft(o: DummyOutcome): multiset<Handle>
  {
    if o.hInstance == NULL || o.hwnd == NULL then multiset{}
    else if o.hdc == NULL then multiset{o.hwnd}
    else multiset{o.hwnd} + multiset{o.hdc}
  }

  lemma DummyLeaves(L: multiset<Handle>, o: DummyOutcome)
    ensures LiveAfter(L, DummyTrace(o)) == L + DummyLeft(o)
    ensures MissedLog(L, DummyTrace(o)) == []
    ensures DummyOk(o) <==> |DummyLeft(o)| == 2
    ensures !DummyOk(o) && o.hInstance != NULL && o.hwnd != NULL ==> DummyLeft(o) == multiset{o.hwnd}
  {
    if o.hInstance == NULL || o.hwnd == NULL {
    } else if o.hdc == NULL {
      Live1(L, DummyHwndSite(o.hwnd));
    } else {
      Tracks2(L, DummyHwndSite(o.hwnd), DummyHdcSite(o.hdc));
    }
  }

  function CreateWindowLeft(o: WindowOutcome): multiset<Handle>
  {
    if !WindowOk(o) then multiset{} else multiset{o.hwnd} + multiset{o.hdc}
  }

  lemma CreateWindowLeaves(L: multiset<Handle>, o: WindowOutcome)
    ensures LiveAfter(L, CreateWindowTrace(o)) == L + CreateWindowLeft(o)
    ensures MissedLog(L, CreateWindowTrace(o)) == []
  {
    if WindowOk(o) {
      Tracks2(L, HwndSite(o.hwnd), HdcSite(o.hdc));
    }
  }

  // ---------------------------------------------------------------------
  // The platform's globals and operations.

  /** Origin and size last passed to `CreateWindowExW`. */
  datatype Placement = Placement(x: int, y: int, width: int, height: int)

  class Win32Platform {
    /** The class name the window was registered under (a pointer). */
    var className: Handle
    var hwnd: Handle
    var hdc: Handle
    var windowInfo: Handle
    /** `g_running`. */
    var running: bool
    /** Raised by `PostQuitMessage`, cleared when `WM_QUIT` is retrieved. */
    var quitPosted: bool
    /** `shared::g_screenSize`. */
    var screenSize: ScreenSize
    /** Messages waiting in the thread's queue. */
    var pending: seq<WinMsg>
    var placement: Placement

    /** The globals' static initial values; `g_running` starts true. */
    constructor()
      ensures className == NULL && hwnd == NULL && hdc == NULL && windowInfo == NULL
      ensures running && !quitPosted && screenSize == ScreenSize(0, 0) && pending == []
      ensures placement == Placement(0, 0, 0, 0)
    {
      className := NULL;
      hwnd := NULL;
      hdc := NULL;
      windowInfo := NULL;
      running := true;
      quitPosted := false;
      screenSize := ScreenSize(0, 0);
      pending := [];
      placement := Placement(0, 0, 0, 0);
    }

    function Pump(): PumpState
      reads this
    {
      PumpState(running, quitPosted, screenSize)
    }

    /** `PlatformInit`: allocates the `WindowInfo` (registered) and always
        succeeds; `info` is the address `new` returns. */
    method Init(l: Ledger, info: Handle) returns (ok: bool)
      requires info != NULL
      modifies this`windowInfo, l
      ensures ok
      ensures windowInfo == info
      ensures Snap(l) == Run(old(Snap(l)), InitTrace(info))
    {
      ghost var s0 := Snap(l);
      windowInfo := info;
      Perform(l, WindowInfoSite(windowInfo));
      Run1(s0, WindowInfoSite(windowInfo));
      return true;
    }

    /** `PlatformCreateDummyWindow`: a 50 x 50 static window and its device
        context (both registered); yields the `WindowInfo` or null. */
    method CreateDummyWindow(l: Ledger, o: DummyOutcome) returns (info: Handle)
      modifies this`hwnd, this`hdc, l
      ensures info == (if DummyOk(o) then windowInfo else NULL)
      ensures hwnd == (if o.hInstance != NULL then o.hwnd else old(hwnd))
      ensures hdc == (if o.hInstance != NULL && o.hwnd != NULL then o.hdc else old(hdc))
      ensures Snap(l) == Run(old(Snap(l)), DummyTrace(o))
    {
      ghost var s0 := Snap(l);
      if o.hInstance == NULL {
        return NULL;
      }
      hwnd := o.hwnd;
      if hwnd == NULL {
        return NULL;
      }
      Perform(l, DummyHwndSite(hwnd));
      hdc := o.hdc;
      if hdc == NULL {
        Run1(s0, DummyHwndSite(hwnd));
        return NULL;
      }
      Perform(l, DummyHdcSite(hdc));
      Run2(s0, DummyHwndSite(hwnd), DummyHdcSite(hdc));
      return windowInfo;
    }

    /** `PlatformDestroyDummyWindow`: releases the device context, then the
        window, and clears both. */
    method DestroyDummyWindow(l: Ledger)
      modifies this`hwnd, this`hdc, l
      ensures hwnd == NULL && hdc == NULL
      ensures Snap(l) == Run(old(Snap(l)), DestroyDummyTrace(old(hwnd), old(hdc)))
    {
      ghost var s0 := Snap(l);
      Perform(l, Release(hdc));
      Perform(l, Release(hwnd));
      Run2(s0, Release(hdc), Release(hwnd));
      hwnd := NULL;
      hdc := NULL;
    }

    /** `PlatformCreateWindow(width, height, title)`: registers the window
        class named `title`, centres the adjusted frame in the work area,
        creates the window and takes its device context (both registered),
        and records the requested client size as the screen size. */
    method CreateWindow(l: Ledger, width: int, height: int, title: Handle, o: WindowOutcome) returns (info: Handle)
      requires o.hInstance != NULL && o.classRegistered ==> CenterInRange(o.workArea, o.frame)
      modifies this`hwnd, this`hdc, this`className, this`screenSize, this`placement, l
      ensures info == (if WindowOk(o) then windowInfo else NULL)
      ensures Snap(l) == Run(old(Snap(l)), CreateWindowTrace(o))
      ensures placement == (if o.hInstance != NULL && o.classRegistered then
        var c := CenterPosition(o.workArea, o.frame);
        Placement(c.0, c.1, o.frame.right - o.frame.left, o.frame.bottom - o.frame.top) else old(placement))
      ensures hwnd == (if o.hInstance != NULL && o.classRegistered then o.hwnd else old(hwnd))
      ensures hdc == (if WindowOk(o) then o.hdc else old(hdc))
      ensures className == (if WindowOk(o) then title else old(className))
      ensures screenSize == (if WindowOk(o) then ScreenSize(ToU32(width), ToU32(height)) else old(screenSize))
    {
      ghost var s0 := Snap(l);
      if o.hInstance == NULL || !o.classRegistered {
        return NULL;
      }
      var (x, y) := CenterPosition(o.workArea, o.frame);
      placement := Placement(x, y, o.frame.right - o.frame.left, o.frame.bottom - o.frame.top);
      hwnd := o.hwnd;
      if hwnd == NULL {
        return NULL;
      }
      Perform(l, HwndSite(hwnd));
      hdc := o.hdc;
      Perform(l, HdcSite(hdc));
      Run2(s0, HwndSite(hwnd), HdcSite(hdc));
      className := title;
      screenSize := ScreenSize(ToU32(width), ToU32(height));
      return windowInfo;
    }

    /** `WndProc`: a close posts the quit message and clears `g_running`; a
        resize stores the client area's size; anything else goes to
        `DefWindowProcW` and changes nothing here. */
    method WndProc(m: WinMsg)
      modifies this`running, this`quitPosted, this`screenSize
      ensures Pump() == WndEffect(m, old(Pump()))
    {
      match m {
        case Close =>
          quitPosted := true;
          running := false;
        case Size(w, h) =>
          screenSize := ScreenSize(ToU32(w), ToU32(h));
        case OtherMsg =>
      }
    }

    /** `PlatformUpdateWindow(running)`: `arrived` is what reached the queue
        since the last call. Every queued message is dispatched to `WndProc`;
        the pump then retrieves `WM_QUIT` if one was posted and stops there,
        and the caller's flag takes the value of `g_running`. */
    method UpdateWindow(arrived: seq<WinMsg>) returns (stillRunning: bool)
      modifies this`pending, this`running, this`quitPosted, this`screenSize
      ensures var s := Dispatched(old(pending) + arrived, old(Pump()));
        && pending == [] && !quitPosted
        && running == s.running && screenSize == s.size
      ensures stillRunning == running
    {
      pending := pending + arrived;
      ghost var q := pending;
      ghost var s0 := Pump();
      ghost var i := 0;
      while |pending| > 0
        invariant 0 <= i <= |q| && pending == q[i..]
        invariant Pump() == Dispatched(q[..i], s0)
        decreases |pending|
      {
        var m := pending[0];
        pending := pending[1..];
        WndProc(m);
        assert q[..i + 1][..i] == q[..i];
        i := i + 1;
      }
      assert q[..i] == q;
      if quitPosted {
        quitPosted := false;
      }
      stillRunning := running;
    }

    /** `PlatformDestroyWindow`: releases the device context and the window,
        clears both, and unregisters the class. */
    method DestroyWindow(l: Ledger)
      modifies this`hwnd, this`hdc, this`className, l
      ensures hwnd == NULL && hdc == NULL && className == NULL
      ensures Snap(l) == Run(old(Snap(l)), DestroyWindowTrace(old(hwnd), old(hdc)))
    {
      ghost var s0 := Snap(l);
      Perform(l, Release(hdc));
      Perform(l, Release(hwnd));
      Run2(s0, Release(hdc), Release(hwnd));
      hwnd := NULL;
      hdc := NULL;
      className := NULL;
    }

    /** `PlatformShutdown`: deletes the `WindowInfo` and releases it. */
    method Shutdown(l: Ledger)
      modifies this`windowInfo, l
      ensures windowInfo == NULL
      ensures Snap(l) == Run(old(Snap(l)), ShutdownTrace(old(windowInfo)))
    {
      ghost var s0 := Snap(l);
      Perform(l, Release(windowInfo));
      Run1(s0, Release(windowInfo));
      windowInfo := NULL;
    }
  }
}
