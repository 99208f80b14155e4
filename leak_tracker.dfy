/** The leak ledger: an append-only list of tracked resources, each flagged
    when it is released, and the diagnostics it prints. The ledger is a class
    whose fields are the global entry vector and the console output it has
    produced; its three operations are methods proved against the pure
    specification functions below. */
module LeakTracker {
  import opened Common

  /** `LeakType` is an `enum class` over `int`; any `int` can be cast to it,
      which is why `ToString` has a default branch. */
  newtype LeakType = x: int | -0x8000_0000 <= x < 0x8000_0000

  const HEAP: LeakType := 0
  const OPENGL: LeakType := 1
  const HANDLE: LeakType := 2
  const CUSTOM: LeakType := 3

  predicate IsKnownKind(t: LeakType) { t == HEAP || t == OPENGL || t == HANDLE || t == CUSTOM }

  /** The printable name of a resource kind. */
  function ToString(t: LeakType): (name: string)
    ensures t == HEAP <==> name == "HEAP"
    ensures t == OPENGL <==> name == "OPENGL"
    ensures t == HANDLE <==> name == "HANDLE"
    ensures t == CUSTOM <==> name == "CUSTOM"
    ensures !IsKnownKind(t) <==> name == "UNKNOWN"
  {
    if t == HEAP then "HEAP"
    else if t == OPENGL then "OPENGL"
    else if t == HANDLE then "HANDLE"
    else if t == CUSTOM then "CUSTOM"
    else "UNKNOWN"
  }

  /** One tracked resource: its handle, kind, registration site, description
      and whether it has been released. */
  datatype Entry = Entry(ptr: Handle, kind: LeakType, file: string, line: int, desc: string, freed: bool)

  /** A line the ledger prints (through the leak logger). */
  datatype Diagnostic =
    | UnregisterFailed(ptr: Handle)
    | LeakDetected(ptr: Handle, kindName: string, file: string, line: int, desc: string)
    | NoLeaksDetected

  predicate LiveMatch(e: Entry, p: Handle) { e.ptr == p && !e.freed }

  /** The index of the first entry that tracks `p` and is not yet freed. */
  function FirstLive(es: seq<Entry>, p: Handle): (r: Option<nat>)
    ensures r.Some? ==> r.value < |es| && LiveMatch(es[r.value], p)
    ensures r.Some? ==> forall j :: 0 <= j < r.value ==> !LiveMatch(es[j], p)
    ensures r.None? <==> forall j :: 0 <= j < |es| ==> !LiveMatch(es[j], p)
    decreases |es|
  {
    if |es| == 0 then None
    else if LiveMatch(es[0], p) then Some(0)
    else match FirstLive(es[1..], p)
      case None => None
      case Some(i) => Some(i + 1)
  }

  /** The entries after unregistering `p`: the first live match is flagged. */
  function Unregistered(es: seq<Entry>, p: Handle): seq<Entry>
  {
    match FirstLive(es, p)
    case None => es
    case Some(i) => es[i := es[i].(freed := true)]
  }

  /** Every entry of `before` is still present at its index in `after`,
      unchanged except that its `freed` flag may have been set. */
  ghost predicate Extends(before: seq<Entry>, after: seq<Entry>)
  {
    && |before| <= |after|
    && forall j :: 0 <= j < |before| ==>
         after[j] == before[j] || (!before[j].freed && after[j] == before[j].(freed := true))
  }

  predicate AllFreed(es: seq<Entry>) { forall j :: 0 <= j < |es| ==> es[j].freed }

  /** The handles of the entries still live, with multiplicity. */
  function Live(es: seq<Entry>): multiset<Handle>
    decreases |es|
  {
    if |es| == 0 then multiset{}
    else (if es[0].freed then multiset{} else multiset{es[0].ptr}) + Live(es[1..])
  }

  /** The report line for one entry: one line if it is live, none otherwise. */
  function LeakLine(e: Entry): seq<Diagnostic>
  {
    if e.freed then [] else [LeakDetected(e.ptr, ToString(e.kind), e.file, e.line, e.desc)]
  }

  function LeakLines(es: seq<Entry>): seq<Diagnostic>
    decreases |es|
  {
    if |es| == 0 then [] else LeakLine(es[0]) + LeakLines(es[1..])
  }

  /** What `ReportLeaks` prints: the leak lines, or the clean line when there are none. */
  function Report(es: seq<Entry>): seq<Diagnostic>
  {
    LeakLines(es) + (if AllFreed(es) then [NoLeaksDetected] else [])
  }

  class Ledger {
    var entries: seq<Entry>
    var log: seq<Diagnostic>

    /** The process starts with an empty ledger and no output. */
    constructor ()
      ensures entries == [] && log == []
    {
      entries, log := [], [];
    }

    method Register(ptr: Handle, kind: LeakType, file: string, line: int, desc: string)
      modifies this
      ensures entries == old(entries) + [Entry(ptr, kind, file, line, desc, false)]
      ensures log == old(log)
    {
      entries := entries + [Entry(ptr, kind, file, line, desc, false)];
    }

    method Unregister(ptr: Handle)
      modifies this
      ensures entries == Unregistered(old(entries), ptr)
      ensures log == old(log) + (if FirstLive(old(entries), ptr).None? then [UnregisterFailed(ptr)] else [])
    {
      var i := 0;
      while i < |entries|
        invariant 0 <= i <= |entries|
        invariant entries == old(entries) && log == old(log)
        invariant forall j :: 0 <= j < i ==> !LiveMatch(entries[j], ptr)
      {
        if entries[i].ptr == ptr && !entries[i].freed {
          assert FirstLive(entries, ptr) == Some(i);
          entries := entries[i := entries[i].(freed := true)];
          return;
        }
        i := i + 1;
      }
      log := log + [UnregisterFailed(ptr)];
    }

    method ReportLeaks()
      modifies this`log
      ensures entries == old(entries)
      ensures log == old(log) + Report(entries)
    {
      var leakFound := false;
      var i := 0;
      while i < |entries|
        invariant 0 <= i <= |entries|
        invariant log == old(log) + LeakLines(entries[..i])
        invariant leakFound <==> !AllFreed(entries[..i])
      {
        LeakLinesConcat(entries[..i], [entries[i]]);
        assert entries[..i + 1] == entries[..i] + [entries[i]];
        if !entries[i].freed {
          leakFound := true;
          var e := entries[i];
          log := log + [LeakDetected(e.ptr, ToString(e.kind), e.file, e.line, e.desc)];
        }
        i := i + 1;
      }
      assert entries[..i] == entries;
      if !leakFound {
        log := log + [NoLeaksDetected];
      }
    }
  }

  // ---------------------------------------------------------------------
  // Properties of the specification functions.

  /** Unregistering flags exactly the first live match; with no match nothing changes. */
  lemma UnregisteredFlagsFirstLive(es: seq<Entry>, p: Handle)
    ensures |Unregistered(es, p)| == |es|
    ensures FirstLive(es, p).None? ==> Unregistered(es, p) == es
    ensures FirstLive(es, p).Some? ==>
      var i := FirstLive(es, p).value;
      && Unregistered(es, p)[i] == es[i].(freed := true)
      && forall j :: 0 <= j < |es| && j != i ==> Unregistered(es, p)[j] == es[j]
    ensures Extends(es, Unregistered(es, p))
  {
  }

  lemma {:induction false} LeakLinesConcat(a: seq<Entry>, b: seq<Entry>)
    ensures LeakLines(a + b) == LeakLines(a) + LeakLines(b)
    decreases |a|
  {
    if |a| == 0 {
      assert a + b == b;
    } else {
      assert (a + b)[1..] == a[1..] + b;
      LeakLinesConcat(a[1..], b);
    }
  }

  lemma {:induction false} LeakLinesEmptyIff(es: seq<Entry>)
    ensures LeakLines(es) == [] <==> AllFreed(es)
    decreases |es|
  {
    if |es| > 0 {
      LeakLinesEmptyIff(es[1..]);
      assert AllFreed(es) <==> es[0].freed && AllFreed(es[1..]) by {
        if es[0].freed && AllFreed(es[1..]) {
          forall j | 0 <= j < |es| ensures es[j].freed {
            if j > 0 { assert es[j] == es[1..][j - 1]; }
          }
        }
      }
    }
  }

  /** One report line per live entry: as many lines as live handles. */
  lemma {:induction false} LeakLinesCount(es: seq<Entry>)
    ensures |LeakLines(es)| == |Live(es)|
    decreases |es|
  {
    if |es| > 0 { LeakLinesCount(es[1..]); }
  }

  /** A leak line is printed exactly for the entries that are not freed. */
  lemma {:induction false} LeakLinesMembers(es: seq<Entry>, d: Diagnostic)
    ensures d in LeakLines(es) <==> exists j :: 0 <= j < |es| && !es[j].freed && LeakLine(es[j]) == [d]
    decreases |es|
  {
    if |es| > 0 {
      LeakLinesMembers(es[1..], d);
      if d in LeakLines(es[1..]) {
        var j :| 0 <= j < |es[1..]| && !es[1..][j].freed && LeakLine(es[1..][j]) == [d];
        assert es[j + 1] == es[1..][j];
      }
      if exists j :: 0 <= j < |es| && !es[j].freed && LeakLine(es[j]) == [d] {
        var j :| 0 <= j < |es| && !es[j].freed && LeakLine(es[j]) == [d];
        if j > 0 { assert es[1..][j - 1] == es[j]; }
      }
    }
  }

  /** The report is the single clean line exactly when every entry is freed,
      and the clean line never accompanies a leak line. */
  lemma ReportCleanIff(es: seq<Entry>)
    ensures Report(es) == [NoLeaksDetected] <==> AllFreed(es)
    ensures NoLeaksDetected in Report(es) <==> AllFreed(es)
    ensures !AllFreed(es) ==> Report(es) == LeakLines(es) && |Report(es)| == |Live(es)|
  {
    LeakLinesEmptyIff(es);
    LeakLinesCount(es);
    if NoLeaksDetected in LeakLines(es) {
      LeakLinesMembers(es, NoLeaksDetected);
    }
  }

  lemma {:induction false} LiveEmptyIff(es: seq<Entry>)
    ensures Live(es) == multiset{} <==> AllFreed(es)
  {
    LeakLinesCount(es);
    LeakLinesEmptyIff(es);
  }

  lemma {:induction false} LiveConcat(a: seq<Entry>, b: seq<Entry>)
    ensures Live(a + b) == Live(a) + Live(b)
    decreases |a|
  {
    if |a| == 0 {
      assert a + b == b;
    } else {
      assert (a + b)[1..] == a[1..] + b;
      LiveConcat(a[1..], b);
    }
  }

  /** Registering adds one live copy of the handle. */
  lemma LiveRegister(es: seq<Entry>, e: Entry)
    requires !e.freed
    ensures Live(es + [e]) == Live(es) + multiset{e.ptr}
  {
    LiveConcat(es, [e]);
    assert [e][1..] == [];
  }

  /** A handle has a live match exactly when it is in the live multiset. */
  lemma {:induction false} FirstLiveIffLive(es: seq<Entry>, p: Handle)
    ensures FirstLive(es, p).Some? <==> p in Live(es)
    decreases |es|
  {
    if |es| > 0 {
      FirstLiveIffLive(es[1..], p);
    }
  }

  lemma UnregisteredCons(es: seq<Entry>, p: Handle)
    requires |es| > 0 && !LiveMatch(es[0], p)
    ensures Unregistered(es, p) == [es[0]] + Unregistered(es[1..], p)
  {
    match FirstLive(es[1..], p)
    case None =>
      assert es == [es[0]] + es[1..];
    case Some(i) =>
      assert FirstLive(es, p) == Some(i + 1);
  }

  lemma LiveUnregisterHead(es: seq<Entry>, p: Handle)
    requires |es| > 0 && LiveMatch(es[0], p)
    ensures Live(Unregistered(es, p)) == Live(es) - multiset{p}
  {
    var u := Unregistered(es, p);
    assert u == es[0 := es[0].(freed := true)];
    assert u[1..] == es[1..];
    assert Live(u) == Live(es[1..]);
  }

  lemma LiveUnregisterTail(es: seq<Entry>, p: Handle)
    requires |es| > 0 && !LiveMatch(es[0], p)
    requires Live(Unregistered(es[1..], p)) == Live(es[1..]) - multiset{p}
    ensures Live(Unregistered(es, p)) == Live(es) - multiset{p}
  {
    UnregisteredCons(es, p);
    var u := Unregistered(es, p);
    assert u[0] == es[0] && u[1..] == Unregistered(es[1..], p);
    var head := if es[0].freed then multiset{} else multiset{es[0].ptr};
    assert Live(u) == head + Live(u[1..]);
    assert Live(es) == head + Live(es[1..]);
    MinusPastHead(head, Live(es[1..]), p);
  }

  lemma MinusPastHead(head: multiset<Handle>, rest: multiset<Handle>, p: Handle)
    requires p !in head
    ensures head + (rest - multiset{p}) == (head + rest) - multiset{p}
  {
  }

  /** Unregistering removes one copy of the handle from the live multiset
      (nothing, when it is not live). */
  lemma {:induction false} LiveUnregister(es: seq<Entry>, p: Handle)
    ensures FirstLive(es, p).Some? <==> p in Live(es)
    ensures Live(Unregistered(es, p)) == Live(es) - multiset{p}
    decreases |es|
  {
    FirstLiveIffLive(es, p);
    if |es| == 0 {
    } else if LiveMatch(es[0], p) {
      LiveUnregisterHead(es, p);
    } else {
      LiveUnregister(es[1..], p);
      LiveUnregisterTail(es, p);
    }
  }

  /** Unregistering a handle that has only ever been registered once, a second
      time, finds no live match: the call is reported as an anomaly, and the
      entry flagged by the first call stays flagged. */
  lemma DoubleUnregister(es: seq<Entry>, e: Entry)
    requires !e.freed
    requires forall j :: 0 <= j < |es| ==> es[j].ptr != e.ptr
    ensures var once := Unregistered(es + [e], e.ptr);
      && once == es + [e.(freed := true)]
      && FirstLive(once, e.ptr).None?
      && Unregistered(once, e.ptr) == once
  {
    var t := es + [e];
    assert forall j :: 0 <= j < |es| ==> t[j] == es[j];
    assert LiveMatch(t[|es|], e.ptr);
    assert FirstLive(t, e.ptr) == Some(|es|);
    var once := t[|es| := e.(freed := true)];
    assert once == es + [e.(freed := true)];
    assert forall j :: 0 <= j < |once| ==> !LiveMatch(once[j], e.ptr);
  }

  /** Two handles are registered and the first is released: the report names
      exactly the second (even if the two values happen to be equal, since
      release takes the earlier entry). */
  method TwoHandleScenario(h1: Handle, h2: Handle) returns (report: seq<Diagnostic>)
    ensures report == [LeakDetected(h2, "HEAP", "scenario", 2, "h2")]
  {
    var l := new Ledger();
    l.Register(h1, OPENGL, "scenario", 1, "h1");
    l.Register(h2, HEAP, "scenario", 2, "h2");
    var before := l.entries;
    assert LiveMatch(before[0], h1);
    assert FirstLive(before, h1) == Some(0);
    l.Unregister(h1);
    var after := l.entries;
    assert after == [Entry(h1, OPENGL, "scenario", 1, "h1", true), Entry(h2, HEAP, "scenario", 2, "h2", false)];
    assert LeakLines(after[1..]) == LeakLine(after[1]) + LeakLines(after[2..]);
    assert !AllFreed(after) by { assert !after[1].freed; }
    l.ReportLeaks();
    report := l.log;
  }
}
