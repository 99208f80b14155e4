/** What the two `main` drivers share: the calls `main` makes, in order, and
    the arena it creates for the renderer. */
module Lifecycle {
  import opened Common
  import opened BumpArena

  /** The back-end calls `main` makes. */
  datatype Stage =
    | PlatformInit | CreateDummyWindow | RendererInit | DestroyDummyWindow | CreateWindow
    | MakeArena | CreateContext | UpdateWindow | UpdateContext
    | DestroyContext | DestroyWindow | RendererShutdown | PlatformShutdown | ReportLeaks

  /** Bring-up, in the order `main` runs it. */
  const BRING_UP: seq<Stage> :=
    [PlatformInit, CreateDummyWindow, RendererInit, DestroyDummyWindow, CreateWindow, MakeArena, CreateContext]

  /** Teardown, in the order `main` runs it. */
  const SHUTDOWN: seq<Stage> := [DestroyContext, DestroyWindow, RendererShutdown, PlatformShutdown]

  /** Teardown and the final report. */
  const TEARDOWN: seq<Stage> := SHUTDOWN + [ReportLeaks]

  /** The calls of `n` passes of the main loop: pump events, then render. */
  function Passes(n: nat): seq<Stage>
  {
    if n == 0 then [] else Passes(n - 1) + [UpdateWindow, UpdateContext]
  }

  /** Pass `i` pumps, then renders. */
  lemma {:induction false} PassesAlternate(n: nat)
    ensures |Passes(n)| == 2 * n
    ensures forall i :: 0 <= i < n ==> Passes(n)[2 * i] == UpdateWindow && Passes(n)[2 * i + 1] == UpdateContext
  {
    if n > 0 {
      PassesAlternate(n - 1);
    }
  }

  /** The calls of a run whose bring-up fails at its `n`-th step: the steps
      up to and including that one, and nothing after it. */
  function FailedRun(n: nat): (r: seq<Stage>)
    requires 1 <= n <= |BRING_UP|
    ensures |r| == n && r[n - 1] == BRING_UP[n - 1]
    ensures ReportLeaks !in r && UpdateContext !in r
  {
    BRING_UP[..n]
  }

  /** The calls of a run that brings everything up and leaves its loop
      after `n` passes: the bring-up, the passes, the teardown, and the
      report. */
  function CleanRun(n: nat): seq<Stage>
  {
    BRING_UP + (Passes(n) + SHUTDOWN + [ReportLeaks])
  }

  /** A clean run opens with the whole bring-up and closes with the whole
      teardown, with two calls per pass between them. */
  lemma CleanRunFrame(n: nat)
    ensures |CleanRun(n)| == |BRING_UP| + 2 * n + |TEARDOWN|
    ensures CleanRun(n)[..|BRING_UP|] == BRING_UP
    ensures CleanRun(n)[|CleanRun(n)| - |TEARDOWN|..] == TEARDOWN
  {
    PassesAlternate(n);
    var r := CleanRun(n);
    assert r == BRING_UP + Passes(n) + TEARDOWN;
    assert r[..|BRING_UP|] == BRING_UP;
    assert r[|r| - |TEARDOWN|..] == TEARDOWN;
  }

  /** Each prefix of the bring-up, written out. */
  lemma BringUpPrefixes()
    ensures BRING_UP[..1] == [PlatformInit]
    ensures BRING_UP[..2] == [PlatformInit, CreateDummyWindow]
    ensures BRING_UP[..3] == [PlatformInit, CreateDummyWindow, RendererInit]
    ensures BRING_UP[..4] == [PlatformInit, CreateDummyWindow, RendererInit, DestroyDummyWindow]
    ensures BRING_UP[..5] == BRING_UP[..4] + [CreateWindow]
    ensures BRING_UP[..7] == BRING_UP[..4] + [CreateWindow, MakeArena, CreateContext]
    ensures BRING_UP == BRING_UP[..7]
  {
  }

  /** A clean run as `main` assembles it. */
  lemma CleanRunOf(up: seq<Stage>, loop: seq<Stage>, down: seq<Stage>, passes: nat, n: nat)
    requires up == BRING_UP && loop == Passes(passes) && down == SHUTDOWN && passes == n
    ensures up + (loop + down + [ReportLeaks]) == CleanRun(n)
  {
  }

  /** The capacity `MakeBumpAllocator(MB(50))` ends with, given what
      `malloc` returned. */
  function ArenaCapacity(block: Handle): nat
  {
    if block != NULL then MB(50) else 0
  }
}
