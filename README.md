# Drop Engine core, modelled in Dafny

This models the core of the Drop Engine, a small C++ game engine with an X11/GLX back end and a
Win32/WGL back end. The core covers:

- the leak ledger (`TRACK_LEAK_ALLOC`, `TRACK_LEAK_FREE`, `TRACK_LEAK_REPORT`);
- the bump arena used as transient storage;
- reading a file into that arena;
- the platform and renderer lifecycles of both back ends;
- the fixed sequence `main` drives them through.

Modelling choices:

- **Global state as classes.** The globals of each back end are a class whose fields the methods
  update: `WindowLinux.LinuxPlatform`, `OpenGlLinux.LinuxRenderer`, `WindowWin32.Win32Platform` and
  `OpenGlWin32.Win32Renderer`. The ledger is `LeakTracker.Ledger`, and the arena is
  `BumpArena.BumpAllocator`.
- **Foreign calls as parameters.** What X11, GLX, Win32, WGL, `malloc`, `new` and the file system
  answer is passed in as an outcome value, such as `WindowLinux.InitOutcome` or `FileOnDisk`.
  Every branch of the C++ on those answers is modelled.
- **Handles.** A pointer, window id or GL object is a `nat`, with 0 as null. The ledger keys the GL
  program and vertex array on the addresses of `g_programID` and `g_VAO`, so a renderer carries
  those two addresses as `programSlot` and `vaoSlot`.
- **Ledger calls as traces.** Each lifecycle function is specified by the exact sequence of ledger
  calls it performs (module `LedgerReplay`). The lemmas beside each function state what that
  sequence leaves live.
- **Debug build.** The ledger is modelled as the `D_DEBUG` build has it. In that build the macros
  call `_Register`, `_Unregister` and `_ReportLeaks`.
- **`D_ASSERT`.** In the `D_DEBUG` build a failed `D_ASSERT(false, …)` logs and then calls
  `DEBUG_BREAK`: `raise(SIGTRAP)` on Linux, `__debugbreak()` on Windows. The model continues past
  it, running the code after the assertion as it runs once a debugger resumes. Without a debugger
  the process stops at the failed assertion, so the `-1` results below describe a resumed run.

The drivers `MainLinux.Run` and `MainWin32.Run` prove what `main` promises:

- It returns 0 exactly when every bring-up step succeeds.
- A full run makes the calls `BRING_UP`, then two calls per loop pass, then the teardown and the
  report.
- A full run releases everything it registered, so a run on an empty ledger prints only
  "No memory leaks detected".
- A failed run returns -1 without any teardown. It leaves a precisely stated set of handles
  registered, and no report is printed.

## Model

| member | source | states |
|---|---|---|
| Common.ToU32 | src/platform/window_linux.cpp:46-47 | storing a signed width or height in a `u32` field keeps its residue modulo 2^32, the identity on values already in range |
| Common.ToU64 | src/platform/window_linux.cpp:38 | the `(Atom)` cast of the signed datum keeps its residue modulo 2^64, the identity on values in range |
| Common.TruncHalf | src/platform/window_linux.cpp:22-30 | C++ `a / 2` truncates toward zero: the remainder has the sign of `a`, and the quotient is 0 exactly for -1, 0 and 1 |
| LeakTracker.ToString | src/utils/leak_tracker.cpp:22-37 | each of the four kinds maps to its own name, and exactly the values outside the enum map to "UNKNOWN" (both directions) |
| LeakTracker.FirstLive | src/utils/leak_tracker.cpp:50-56 | the search finds the first entry with the pointer that is not yet freed: the match at the index, none before it, and none at all exactly when it finds nothing |
| LeakTracker.Ledger.constructor | src/utils/leak_tracker.cpp:19-20 | the process starts with no entries and no output |
| LeakTracker.Ledger.Register | src/utils/leak_tracker.cpp:41-45 | one live entry with the handle, kind, file, line and description is appended, and nothing is printed |
| LeakTracker.Ledger.Unregister | src/utils/leak_tracker.cpp:47-59 | the first live match is flagged freed; with no live match the entries stay the same and one "failed to unregister" line is printed |
| LeakTracker.Ledger.ReportLeaks | src/utils/leak_tracker.cpp:61-79 | the entries are unchanged and the report (one line per live entry, or the clean line when there are none) is appended to the output |
| LeakTracker.UnregisteredFlagsFirstLive | src/utils/leak_tracker.cpp:50-56 | unregistering keeps the length, changes nothing without a live match, otherwise flips exactly the first live match's flag and leaves every other entry as it was |
| LeakTracker.LeakLinesEmptyIff | src/utils/leak_tracker.cpp:65-73 | no leak line is printed exactly when every entry is freed |
| LeakTracker.LeakLinesCount | src/utils/leak_tracker.cpp:66-73 | one leak line is printed per live handle, with multiplicity |
| LeakTracker.LeakLinesMembers | src/utils/leak_tracker.cpp:66-73 | a line is among the leak lines exactly when some entry that is not freed produces it |
| LeakTracker.ReportCleanIff | src/utils/leak_tracker.cpp:61-79 | the report is the single clean line exactly when every entry is freed, the clean line never appears beside a leak line, and otherwise the report is the leak lines |
| LeakTracker.LiveEmptyIff | src/utils/leak_tracker.cpp:65-73 | the live multiset is empty exactly when every entry is freed |
| LeakTracker.LiveRegister | src/utils/leak_tracker.cpp:41-45 | registering adds one live copy of the handle |
| LeakTracker.FirstLiveIffLive | src/utils/leak_tracker.cpp:50-56 | the search succeeds exactly when the handle is in the live multiset |
| LeakTracker.LiveUnregister | src/utils/leak_tracker.cpp:47-59 | unregistering removes exactly one copy of the handle from the live multiset, and a copy is there exactly when the search succeeds |
| LeakTracker.DoubleUnregister | src/utils/leak_tracker.cpp:47-59 | freeing a once-registered handle twice frees it on the first call and reports the second as an anomaly without changing the entries |
| LeakTracker.TwoHandleScenario | src/utils/leak_tracker.cpp:41-79 | two registrations and the release of the first yield a report naming exactly the second handle with its kind, site and description |
| LedgerReplay.Perform | include/utils/leak_tracker.hpp:19-27 | each tracking macro performs one step of the ledger replay, so a lifecycle function's effect is the replay of its call sequence |
| LedgerReplay.RunLive | src/utils/leak_tracker.cpp:41-59 | replaying calls leaves the abstract live multiset and prints exactly one anomaly per release of a handle not live at that point |
| LedgerReplay.RunExtends | src/utils/leak_tracker.cpp:41-59 | no sequence of calls removes an entry or clears a `freed` flag |
| LedgerReplay.LiveBalance | src/utils/leak_tracker.cpp:41-59 | when no release misses, live plus released equals the initial live handles plus those tracked |
| LedgerReplay.ReleasesLeave | src/utils/leak_tracker.cpp:47-59 | releasing only live handles, each at most as often as it is live, removes exactly those and prints nothing |
| BumpArena.MB | include/utils/utils.hpp:11 | `MB(x)` is 1048576 times `x` |
| BumpArena.AlignUp | src/utils/bump_allocator.cpp:34 | the rounded size is the least multiple of 16 not below the request (intended meaning, without wrap-around) |
| BumpArena.AllocOffset | src/utils/bump_allocator.cpp:35-43 | a request is granted exactly when the aligned size fits in what remains, and then at the current `used` offset |
| BumpArena.UsedAfter | src/utils/bump_allocator.cpp:35-43 | `used` only grows and never passes the capacity, and it stays put exactly when the request is refused or rounds to 0 |
| BumpArena.BumpAllocator.Make | src/utils/bump_allocator.cpp:12-28 | a successful `malloc` gives a zero-filled block of the requested capacity; a failed one gives a null block of capacity 0; `used` starts at 0 |
| BumpArena.BumpAllocator.BumpAlloc | src/utils/bump_allocator.cpp:30-46 | the arena's invariant is kept, a fitting request gets `memory + used` and bumps `used` by the aligned size, and a refused one gets null and changes nothing |
| BumpArena.RunBounds | src/utils/bump_allocator.cpp:30-46 | over any sequence of requests `used` only grows and stays within the capacity |
| BumpArena.RunWithin | src/utils/bump_allocator.cpp:30-46 | every piece handed out lies, with its aligned size, between the start and the final `used`, and is on a 16-byte boundary when the start is |
| BumpArena.OffsetIsSum | src/utils/bump_allocator.cpp:30-46 | the piece the n-th request gets starts at the initial `used` plus the aligned sizes of the earlier granted requests, and the final `used` is the initial one plus the aligned sizes of all granted requests |
| BumpArena.RunDisjoint | src/utils/bump_allocator.cpp:30-46 | two pieces handed out by one run never overlap: the earlier ends at or before the later begins |
| BumpArena.RefusedIsNoOp | src/utils/bump_allocator.cpp:40-43 | a refused request changes nothing for the requests after it |
| BumpArena.ArenaScenario | src/utils/bump_allocator.cpp:30-46 | on a 1 KiB arena, 10 bytes take offset 0, 20 bytes take offset 16, 2000 bytes are refused, and 48 bytes end up used |
| BumpArena.FailedArenaRefuses | src/utils/bump_allocator.cpp:22-25 | an arena whose `malloc` failed refuses every non-empty request |
| BumpArena.AlignedSizeAsWritten | src/utils/bump_allocator.cpp:34 | the C++ `(size + 15) & ~15` on `u64` is a multiple of 16 below 2^64 |
| BumpArena.AsWrittenAgreesWithoutWrap | src/utils/bump_allocator.cpp:34-38 | when neither sum passes 2^64 the C++ alignment, fit test and bump are exactly the intended ones |
| BumpArena.AlignWrapsToZero | src/utils/bump_allocator.cpp:34-35 | a request of 2^64 - 1 bytes rounds to 0 and is granted, though it cannot fit |
| BumpArena.FitWrapsPastCapacity | src/utils/bump_allocator.cpp:35-38 | with capacity 100 and 32 used, a request of 2^64 - 32 passes the fit test and resets `used` to 0 |
| FileIo.GetFileSize | src/utils/file_io.cpp:26-38 | the size is the file's length when it opens and 0 when it does not; 0 exactly for a missing or empty file |
| FileIo.Written | src/utils/file_io.cpp:59-60 | the file's bytes land at the offset followed by a zero byte, and every other byte of the arena is unchanged |
| FileIo.ReadFile | src/utils/file_io.cpp:65-77 | a non-empty file whose bytes and terminator fit is copied into the arena at the old `used`, with its size reported; a missing or empty file gets null with the size untouched; a file that does not fit gets null |
| ShaderSetup.ShadersUsedBounds | src/renderer/opengl_linux.cpp:242-249 | reading both sources never moves `used` backwards or past the end, and two successful reads advance it by both aligned sizes |
| ShaderSetup.FreshArenaReads | src/renderer/opengl_linux.cpp:242-249 | on a fresh 50 MiB arena both sources are read exactly when both open, are non-empty and fit together |
| ShaderSetup.ReadShaders | src/renderer/opengl_linux.cpp:242-249 | both reads succeed exactly when both sources reach the arena, and `used` ends where the two reads leave it |
| Lifecycle.PassesAlternate | src/main.cpp:55-60 | each loop pass pumps events, then renders |
| Lifecycle.FailedRun | src/main.cpp:16-52 | a run failing at step n made exactly the first n bring-up calls, ending with the failing one, and never rendered or reported |
| Lifecycle.CleanRunFrame | src/main.cpp:16-71 | a clean run opens with the whole bring-up and closes with the whole teardown and report, with two calls per pass between them |
| WindowLinux.HandleEvent | src/platform/window_linux.cpp:32-55 | an event quits exactly when it is a client message carrying the delete atom, and a configure event sets the screen size to its width and height as `u32` |
| WindowLinux.DrainConsumes | src/platform/window_linux.cpp:198-211 | pumping handles events front to back up to and including the first quit, leaves the rest queued, and the size is the last configure before that point |
| WindowLinux.DrainQuitIff | src/platform/window_linux.cpp:198-211 | pumping reports a quit exactly when the queue holds a quit event |
| WindowLinux.CenterPosition | src/platform/window_linux.cpp:22-30 | each coordinate is half the leftover space, truncated toward zero |
| WindowLinux.CenterExact | src/platform/window_linux.cpp:22-30 | an even leftover centres the window exactly, and a window wider than the screen gets a negative origin |
| WindowLinux.InitLeaves | src/platform/window_linux.cpp:58-85 | `PlatformInit` leaves exactly the display registered (once open) and the `WindowInfo` (once the atom is interned); it succeeds exactly when both stay |
| WindowLinux.DummyLeaves | src/platform/window_linux.cpp:87-110 | the dummy window is registered exactly when it was created |
| WindowLinux.CreateWindowLeaves | src/platform/window_linux.cpp:119-196 | `PlatformCreateWindow` leaves nothing without a configuration, the configuration list when no visual matches, list, visual and colormap when the window is not created, and on success list, colormap and window with the visual released |
| WindowLinux.LinuxPlatform.constructor | src/platform/window_linux.cpp:14-20 | the globals start null, zero and empty |
| WindowLinux.LinuxPlatform.Init | src/platform/window_linux.cpp:58-85 | succeeds exactly when threads, display and atom all succeed, performs exactly the init call sequence, and sets each global as far as the steps got |
| WindowLinux.LinuxPlatform.CreateDummyWindow | src/platform/window_linux.cpp:87-110 | returns the `WindowInfo` exactly when the window was created, and registers it then |
| WindowLinux.LinuxPlatform.DestroyDummyWindow | src/platform/window_linux.cpp:112-117 | releases the dummy window and clears it |
| WindowLinux.LinuxPlatform.CreateWindow | src/platform/window_linux.cpp:119-196 | returns the `WindowInfo` exactly when a configuration, a visual and a window are obtained; sets configuration, colormap, window, placement and atom as far as it gets, with the window centred |
| WindowLinux.LinuxPlatform.CallbackHandle | src/platform/window_linux.cpp:32-55 | classifies one event and records the new size as `HandleEvent` says |
| WindowLinux.LinuxPlatform.UpdateWindow | src/platform/window_linux.cpp:198-211 | handles the queue up to the first quit, leaves the rest queued, and stops running exactly when a quit was pumped |
| WindowLinux.LinuxPlatform.DestroyWindow | src/platform/window_linux.cpp:213-226 | releases the colormap, the window and the configuration list, and clears them |
| WindowLinux.LinuxPlatform.Shutdown | src/platform/window_linux.cpp:228-238 | releases the display and the `WindowInfo`, and clears them |
| OpenGlLinux.InitLeaves | src/renderer/opengl_linux.cpp:132-207 | a successful probe releases every object it registered, and a failure after the configuration list leaves exactly one object registered |
| OpenGlLinux.ContextLeaves | src/renderer/opengl_linux.cpp:209-312 | `RendererCreateContext` leaves the context registered once created, and the program and vertex array on success only |
| OpenGlLinux.LinuxRenderer.constructor | src/renderer/opengl_linux.cpp:122-128 | the globals start null and zero, with no frames |
| OpenGlLinux.LinuxRenderer.Init | src/renderer/opengl_linux.cpp:132-207 | succeeds exactly when every probe step does, performs exactly the probe's call sequence, and keeps the loaded context-creation function |
| OpenGlLinux.LinuxRenderer.CreateContext | src/renderer/opengl_linux.cpp:209-312 | succeeds exactly when context, make-current and the shader stage on the arena all succeed; performs exactly that call sequence; reads the shaders only once current; keeps program, vertex array and window on success |
| OpenGlLinux.LinuxRenderer.LinkProgram | src/renderer/opengl_linux.cpp:284-299 | records the program and vertex array and registers both slots |
| OpenGlLinux.LinuxRenderer.UpdateContext | src/renderer/opengl_linux.cpp:314-325 | presents one frame with the viewport set to the screen size |
| OpenGlLinux.LinuxRenderer.DestroyContext | src/renderer/opengl_linux.cpp:327-335 | releases the context and forgets context, display and window |
| OpenGlLinux.LinuxRenderer.Shutdown | src/renderer/opengl_linux.cpp:337-343 | releases the vertex array, then the program |
| WindowWin32.CenterPosition | src/platform/window_win32.cpp:15-28 | each coordinate is the work area's origin plus half the leftover, truncated toward zero |
| WindowWin32.CenteredInside | src/platform/window_win32.cpp:15-28 | a frame no larger than the work area is placed wholly inside it |
| WindowWin32.WndEffect | src/platform/window_win32.cpp:30-54 | a close clears `g_running` and posts a quit, a size message records the client size as `u32`, and anything else changes nothing |
| WindowWin32.DispatchedRunning | src/platform/window_win32.cpp:181-196 | after dispatching, the game still runs exactly when it ran and no close came, and a quit is posted exactly when one was or a close came |
| WindowWin32.DispatchedSizeKept | src/platform/window_win32.cpp:40-48 | without a size message the screen size is unchanged |
| WindowWin32.DispatchedSizeLast | src/platform/window_win32.cpp:40-48 | otherwise the screen size ends as the last size message reported |
| WindowWin32.InitLeaves | src/platform/window_win32.cpp:58-64 | `PlatformInit` leaves exactly the `WindowInfo` registered |
| WindowWin32.DummyLeaves | src/platform/window_win32.cpp:66-102 | the dummy window and device context are both registered exactly when the dummy succeeds, and a failed `GetDC` leaves the window registered |
| WindowWin32.CreateWindowLeaves | src/platform/window_win32.cpp:115-179 | `PlatformCreateWindow` registers the window once created, together with whatever `GetDC` returned |
| WindowWin32.Win32Platform.constructor | src/platform/window_win32.cpp:9-13 | the globals start null with `g_running` true and an empty queue |
| WindowWin32.Win32Platform.Init | src/platform/window_win32.cpp:58-64 | always succeeds, keeps and registers the `WindowInfo` |
| WindowWin32.Win32Platform.CreateDummyWindow | src/platform/window_win32.cpp:66-102 | returns the `WindowInfo` exactly when module, window and device context are all obtained, setting each global as far as it gets |
| WindowWin32.Win32Platform.DestroyDummyWindow | src/platform/window_win32.cpp:104-113 | releases the device context, then the window, and clears both |
| WindowWin32.Win32Platform.CreateWindow | src/platform/window_win32.cpp:115-179 | returns the `WindowInfo` exactly when module, class and window succeed; the frame is centred in the work area; the screen size becomes the requested size on success |
| WindowWin32.Win32Platform.WndProc | src/platform/window_win32.cpp:30-54 | updates `g_running`, the quit flag and the screen size as `WndEffect` says |
| WindowWin32.Win32Platform.UpdateWindow | src/platform/window_win32.cpp:181-196 | dispatches the whole queue and reports `g_running` afterwards |
| WindowWin32.Win32Platform.DestroyWindow | src/platform/window_win32.cpp:198-210 | releases the device context and the window, and clears them and the class |
| WindowWin32.Win32Platform.Shutdown | src/platform/window_win32.cpp:212-217 | releases the `WindowInfo` and clears it |
| OpenGlWin32.DebugCallback | src/renderer/opengl_win32.cpp:147-161 | a debug message breaks exactly when its severity is high, medium or low |
| OpenGlWin32.DebugSeverities | src/renderer/opengl_win32.cpp:147-161 | even a low-severity message breaks, and only a notification is merely traced |
| OpenGlWin32.InitRegistersOnlyProbe | src/renderer/opengl_win32.cpp:165-230 | the probe context is the only thing `RendererInit` registers, and the loaded library is never registered |
| OpenGlWin32.InitLeaves | src/renderer/opengl_win32.cpp:165-230 | a successful probe releases its context, and a failure after the context is created leaves it registered |
| OpenGlWin32.ContextLeaves | src/renderer/opengl_win32.cpp:232-368 | `RendererCreateContext` leaves the context registered once created, and the program and vertex array on success only |
| OpenGlWin32.Win32Renderer.constructor | src/renderer/opengl_win32.cpp:139-145 | the globals start null and zero, with no callback and no frames |
| OpenGlWin32.Win32Renderer.Init | src/renderer/opengl_win32.cpp:165-230 | succeeds exactly when every probe step does, performs exactly the probe's call sequence, keeps the loaded functions, and installs the debug callback on success |
| OpenGlWin32.Win32Renderer.CreateContext | src/renderer/opengl_win32.cpp:232-368 | succeeds exactly when pixel format, context, make-current and the shader stage all succeed; performs exactly that call sequence; reads the shaders only once current |
| OpenGlWin32.Win32Renderer.LinkProgram | src/renderer/opengl_win32.cpp:343-357 | records the program and vertex array and registers both slots |
| OpenGlWin32.Win32Renderer.UpdateContext | src/renderer/opengl_win32.cpp:370-381 | presents one frame on the device context with the viewport set to the screen size |
| OpenGlWin32.Win32Renderer.DestroyContext | src/renderer/opengl_win32.cpp:383-390 | releases the context and clears context and device context |
| OpenGlWin32.Win32Renderer.Shutdown | src/renderer/opengl_win32.cpp:392-401 | frees the library, then releases the vertex array and the program |
| MainLinux.Reached | src/main.cpp:16-52 | the step where bring-up stops is one of the five that can fail, or one past the end |
| MainLinux.ProbeReached | src/main.cpp:16-37 | the first failing step of the first four, or 4 |
| MainLinux.WindowReached | src/main.cpp:39-52 | the first failing step of the last three, or one past the end |
| MainLinux.FailureLeaks | src/main.cpp:16-52 | a failed run leaks nothing exactly when the display never opened, and leaks the display and `WindowInfo` whenever `PlatformInit` succeeded |
| MainLinux.QuitBatchFirst | src/main.cpp:55-60 | the batch the loop stops after is the first holding a quit event |
| MainLinux.MainLoop | src/main.cpp:55-60 | the loop runs until the pass that pumps the first quit, makes two calls per pass, and renders once per pass |
| MainLinux.BringUp | src/main.cpp:16-52 | stops at the first failing step, having made exactly the calls before it and leaking exactly `FailureLeft`; on success platform and renderer hold exactly the handles the ledger has live |
| MainLinux.ProbePhase | src/main.cpp:16-37 | the first four steps stop at the first failure, leaving `ProbeLeft` registered; on success only the display and `WindowInfo` stay |
| MainLinux.DummyAndProbe | src/main.cpp:22-37 | the dummy window and probe leave nothing registered on success, and the dummy window plus what the probe left on a probe failure |
| MainLinux.WindowPhase | src/main.cpp:39-52 | the last three steps make exactly the calls up to the first failure and leave `WindowLeft`; on success the window and context handles are held |
| MainLinux.ArenaAndContext | src/main.cpp:46-52 | the context step on a fresh 50 MiB arena leaves the context registered on failure, and context, program and vertex array on success |
| MainLinux.InitPlatform | src/main.cpp:16-20 | `PlatformInit` succeeds exactly when its outcome is good and leaves `InitLeft` live |
| MainLinux.OpenDummy | src/main.cpp:22-27 | the dummy window is live exactly when created |
| MainLinux.Probe | src/main.cpp:29-33 | `RendererInit` adds exactly what it leaks, nothing when it succeeds |
| MainLinux.CloseDummy | src/main.cpp:35 | destroying the dummy removes it from the live handles and prints nothing |
| MainLinux.OpenWindow | src/main.cpp:39-44 | `PlatformCreateWindow(1280, 720, …)` adds `CreateWindowLeft` and keeps the handles it created |
| MainLinux.OpenContext | src/main.cpp:48-52 | `RendererCreateContext` on the fresh arena adds `ContextLeft` |
| MainLinux.Teardown | src/main.cpp:63-68 | the teardown releases exactly the handles the bring-up left live and prints nothing |
| MainLinux.DestroyWindowAndContext | src/main.cpp:63-64 | releases the context and the window's three handles |
| MainLinux.ShutdownBoth | src/main.cpp:67-68 | releases the program, vertex array, display and `WindowInfo` |
| MainLinux.Run | src/main.cpp:5-72 | returns 0 exactly when bring-up succeeds; then the live handles are as before, the report is printed, and the calls are the clean run; otherwise returns -1 having made the calls up to the failing step and leaking exactly `FailureLeft`, with nothing printed |
| MainLinux.Operate | src/main.cpp:55-70 | after a full bring-up the loop, teardown and report leave the live handles as before the run and make the clean run's calls |
| MainLinux.ReportWhenAllFreed | src/main.cpp:70 | a run that starts and ends with no live handle reports the clean line |
| MainLinux.RunFresh | src/main.cpp:5-72 | on an empty ledger a successful run prints only "No memory leaks detected" and leaks nothing, and a failed one returns -1, prints nothing and leaks `FailureLeft` |
| MainWin32.Reached | src/main.cpp:16-52 | the step where bring-up stops is one of the four that can fail on Windows, or one past the end |
| MainWin32.ProbeReached | src/main.cpp:16-37 | the first failing step of the first four, or 4; `PlatformInit` never fails |
| MainWin32.WindowReached | src/main.cpp:39-52 | the first failing step of the last three, or one past the end |
| MainWin32.FailureLeaks | src/main.cpp:16-52 | every failed run leaks the `WindowInfo`, plus the dummy or real window handles the failing step left |
| MainWin32.QuitBatchFirst | src/main.cpp:55-60 | the batch the loop stops after is the first holding a close |
| MainWin32.MainLoop | src/main.cpp:55-60 | the loop runs until the pass that dispatches the first close, makes two calls per pass, and renders once per pass |
| MainWin32.BringUp | src/main.cpp:16-52 | stops at the first failing step, having made exactly the calls before it and leaking exactly `FailureLeft`; on success platform and renderer hold exactly the handles the ledger has live |
| MainWin32.ProbePhase | src/main.cpp:16-37 | the first four steps stop at the first failure, leaving `ProbeLeft`; on success only the `WindowInfo` stays |
| MainWin32.DummyAndProbe | src/main.cpp:22-37 | the dummy window and probe leave nothing registered on success, and what the dummy and the probe left otherwise |
| MainWin32.WindowPhase | src/main.cpp:39-52 | the last three steps make exactly the calls up to the first failure and leave `WindowLeft`; on success the window and context handles are held |
| MainWin32.ArenaAndContext | src/main.cpp:46-52 | the context step on a fresh 50 MiB arena leaves the context registered on a late failure, and context, program and vertex array on success |
| MainWin32.InitPlatform | src/main.cpp:16-20 | `PlatformInit` always succeeds and leaves the `WindowInfo` live |
| MainWin32.OpenDummy | src/main.cpp:22-27 | the dummy adds `DummyLeft` and yields the `WindowInfo` exactly when it succeeds |
| MainWin32.Probe | src/main.cpp:29-33 | `RendererInit` adds exactly what it leaks, nothing when it succeeds |
| MainWin32.CloseDummy | src/main.cpp:35 | destroying the dummy removes its window and device context from the live handles and prints nothing |
| MainWin32.OpenWindow | src/main.cpp:39-44 | `PlatformCreateWindow(1280, 720, …)` adds `CreateWindowLeft` and keeps the handles it created |
| MainWin32.OpenContext | src/main.cpp:48-52 | `RendererCreateContext` on the fresh arena adds `ContextLeft` |
| MainWin32.Teardown | src/main.cpp:63-68 | the teardown releases exactly the handles the bring-up left live and prints nothing |
| MainWin32.DestroyWindowAndContext | src/main.cpp:63-64 | releases the context, the device context and the window |
| MainWin32.ShutdownBoth | src/main.cpp:67-68 | releases the program, vertex array and `WindowInfo` |
| MainWin32.Run | src/main.cpp:5-72 | returns 0 exactly when bring-up succeeds; then the live handles are as before, the report is printed, and the calls are the clean run; otherwise returns -1 having made the calls up to the failing step and leaking exactly `FailureLeft`, with nothing printed |
| MainWin32.Operate | src/main.cpp:55-70 | after a full bring-up the loop, teardown and report leave the live handles as before the run and make the clean run's calls |
| MainWin32.ReportWhenAllFreed | src/main.cpp:70 | a run that starts and ends with no live handle reports the clean line |
| MainWin32.RunFresh | src/main.cpp:5-72 | on an empty ledger a successful run prints only "No memory leaks detected" and leaks nothing, and a failed one returns -1, prints nothing and leaks `FailureLeft`, which always holds the `WindowInfo` |

## Left out

- Console output: the text, colours and file/line prefixes of `D_TRACE`, `D_ERROR` and `D_LEAK`. A printed line is the datatype `LeakTracker.Diagnostic`, and only the ledger's own lines are kept.
- Stopping the process: `DEBUG_BREAK` inside `D_ASSERT` is not modelled. Execution continues past a failed assertion, as it does once a debugger resumes; without a debugger the process stops at the failed assertion (`SIGTRAP` or an unhandled breakpoint), so no failed bring-up step then reaches `return -1`.
- Locking: the ledger's mutex is left out. The model is single-threaded.
- Process setup: `SetProcessDPIAware` has no state the core reads.
- GL function loading: `LoadOpenGLFunctions` only asserts that each pointer is non-null, so it is not modelled.
- Drawing: GL drawing, the clear colour and other floating-point calls are abstracted to one `Frame` record per pass.
- Window titles and class names are carried as a pointer, because the core never inspects the text.
- Class unregistration: `UnregisterClassW` has no effect that the core observes.
- `FileIo.ReadFile`: when the arena refuses the buffer, the C++ reads into a null pointer, which is undefined behaviour. The model instead returns null with size 0.
- `FileExists`, `GetTimestamp`, `WriteFile` and `CopyFile` in `file_io.cpp` are not part of this model. No core path calls them.
- `PostQuitMessage`/`WM_QUIT` is a flag. `PeekMessageW`'s window filter is not modelled, because every message in the queue is for the one window.
- `MainLinux.Run` and `MainWin32.Run` require the quit or close to arrive in the given batches. Otherwise the loop never ends and `main` does not return.
- `WindowLinux.CenterPosition` and `WindowWin32.CenterPosition` require the `i32` differences to stay in range. Signed overflow there is undefined behaviour in C++.
- `ShaderSetup.ReadShaders` and `FileIo.ReadFile` require files below 2^31 - 1 bytes. The size travels through an `i32`, and the `+ 1` for the terminator would overflow for larger files.
- Where the code differs from the design description, the model follows the code:
  - On both back ends, a failed shader read or compile leaves the new context registered.
  - `GLDebugCallback` breaks at low severity as well.
  - The Win32 `PlatformInit` always succeeds.
  - The Linux `PlatformInit` leaves the display registered when interning the delete atom fails.

## Findings

| source | as written | input that shows it | evidently intended | confidence | as-written member | corrected member |
|---|---|---|---|---|---|---|
| src/utils/bump_allocator.cpp:34 | `(size + 15) & ~15` is computed in `u64`, so the sum wraps for the largest requests | size 2^64 - 1 rounds to 0, and the zero-length piece is granted | the rounded size is the least multiple of 16 not below the request, and a request that large is refused | not executed; reachable only with requests near 2^64 | BumpArena.AlignWrapsToZero | BumpArena.AlignUp |
| src/utils/bump_allocator.cpp:35-38 | `ba->used + allignedSize <= ba->capacity` and `ba->used += allignedSize` are computed in `u64` and can wrap | capacity 100, 32 bytes used, size 2^64 - 32: the fit test passes and `used` becomes 0 | a request is granted only when its true aligned size fits in what remains | not executed; reachable only with requests near 2^64 | BumpArena.FitWrapsPastCapacity | BumpArena.BumpAllocator.BumpAlloc |
