/** The ledger calls a component makes, as data. Each lifecycle function of
    the engine is specified by the exact sequence of `TRACK_LEAK_ALLOC` and
    `TRACK_LEAK_FREE` calls it performs; `Run` gives the ledger that
    sequence produces, and `LiveAfter` abstracts it to the multiset of live
    handles, which is all the leak report depends on. */
module LedgerReplay {
  import opened Common
  import opened LeakTracker

  datatype Call =
    | Track(ptr: Handle, kind: LeakType, file: string, line: int, desc: string)
    | Release(ptr: Handle)

  /** The ledger's entries together with everything it has printed. */
  datatype Snapshot = Snapshot(entries: seq<Entry>, log: seq<Diagnostic>)

  /** One call, as `Ledger.Register` / `Ledger.Unregister` perform it. */
  function Step(s: Snapshot, c: Call): Snapshot
  {
    match c
    case Track(p, k, f, ln, d) => Snapshot(s.entries + [Entry(p, k, f, ln, d, false)], s.log)
    case Release(p) =>
      Snapshot(Unregistered(s.entries, p),
               s.log + (if FirstLive(s.entries, p).None? then [UnregisterFailed(p)] else []))
  }

  function Run(s: Snapshot, t: seq<Call>): Snapshot
    decreases |t|
  {
    if |t| == 0 then s else Step(Run(s, t[..|t| - 1]), t[|t| - 1])
  }

  /** The live-handle multiset after one call. */
  function LiveStep(live: multiset<Handle>, c: Call): multiset<Handle>
  {
    match c
    case Track(p, _, _, _, _) => live + multiset{p}
    case Release(p) => live - multiset{p}
  }

  function LiveAfter(live: multiset<Handle>, t: seq<Call>): multiset<Handle>
    decreases |t|
  {
    if |t| == 0 then live else LiveStep(LiveAfter(live, t[..|t| - 1]), t[|t| - 1])
  }

  /** The anomaly one call prints against the live multiset, if any. */
  function Miss(live: multiset<Handle>, c: Call): seq<Diagnostic>
  {
    if c.Release? && c.ptr !in live then [UnregisterFailed(c.ptr)] else []
  }

  /** The anomalies a call sequence prints: one per release of a handle that is not live. */
  function MissedLog(live: multiset<Handle>, t: seq<Call>): seq<Diagnostic>
    decreases |t|
  {
    if |t| == 0 then []
    else
      var before := LiveAfter(live, t[..|t| - 1]);
      var c := t[|t| - 1];
      MissedLog(live, t[..|t| - 1]) + (if c.Release? && c.ptr !in before then [UnregisterFailed(c.ptr)] else [])
  }

  /** The handles a call sequence registers and releases. */
  function Tracked(t: seq<Call>): multiset<Handle>
    decreases |t|
  {
    if |t| == 0 then multiset{}
    else Tracked(t[..|t| - 1]) + (if t[|t| - 1].Track? then multiset{t[|t| - 1].ptr} else multiset{})
  }

  function Released(t: seq<Call>): multiset<Handle>
    decreases |t|
  {
    if |t| == 0 then multiset{}
    else Released(t[..|t| - 1]) + (if t[|t| - 1].Release? then multiset{t[|t| - 1].ptr} else multiset{})
  }

  lemma RunSnoc(s: Snapshot, t: seq<Call>, c: Call)
    ensures Run(s, t + [c]) == Step(Run(s, t), c)
  {
    assert (t + [c])[..|t|] == t;
  }

  lemma LiveSnoc(live: multiset<Handle>, t: seq<Call>, c: Call)
    ensures LiveAfter(live, t + [c]) == LiveStep(LiveAfter(live, t), c)
    ensures MissedLog(live, t + [c]) == MissedLog(live, t) + Miss(LiveAfter(live, t), c)
  {
    assert (t + [c])[..|t|] == t;
  }

  /** The live multiset of the replayed ledger is the abstract one, and
      what it prints is exactly one anomaly per release of a handle that is
      not live at that point. */
  lemma {:induction false} RunLive(s: Snapshot, t: seq<Call>)
    ensures Live(Run(s, t).entries) == LiveAfter(Live(s.entries), t)
    ensures Run(s, t).log == s.log + MissedLog(Live(s.entries), t)
    decreases |t|
  {
    if |t| > 0 {
      var t' := t[..|t| - 1];
      var c := t[|t| - 1];
      assert t == t' + [c];
      RunLive(s, t');
      RunSnoc(s, t', c);
      LiveSnoc(Live(s.entries), t', c);
      StepLive(Run(s, t'), s.log, MissedLog(Live(s.entries), t'), c);
    }
  }

  /** One call on a ledger whose live multiset and log are known. */
  lemma StepLive(mid: Snapshot, log0: seq<Diagnostic>, missed: seq<Diagnostic>, c: Call)
    requires mid.log == log0 + missed
    ensures Live(Step(mid, c).entries) == LiveStep(Live(mid.entries), c)
    ensures Step(mid, c).log == log0 + (missed + Miss(Live(mid.entries), c))
  {
    var extra := Miss(Live(mid.entries), c);
    match c
    case Track(p, k, f, ln, d) =>
      LiveRegister(mid.entries, Entry(p, k, f, ln, d, false));
      assert Step(mid, c).log == mid.log + extra;
    case Release(p) =>
      LiveUnregister(mid.entries, p);
      assert Step(mid, c).log == mid.log + extra;
    assert (log0 + missed) + extra == log0 + (missed + extra);
  }

  /** A call sequence that takes the live handles from `L` to `L'` and
      releases nothing that is not live leaves the log as it was. */
  lemma Settle(s: Snapshot, t: seq<Call>, L: multiset<Handle>, L': multiset<Handle>)
    requires Live(s.entries) == L
    requires LiveAfter(L, t) == L' && MissedLog(L, t) == []
    ensures Live(Run(s, t).entries) == L' && Run(s, t).log == s.log
  {
    RunLive(s, t);
    assert s.log + [] == s.log;
  }

  /** A call sequence never removes entries or clears a `freed` flag. */
  lemma {:induction false} RunExtends(s: Snapshot, t: seq<Call>)
    ensures Extends(s.entries, Run(s, t).entries)
    decreases |t|
  {
    if |t| > 0 {
      var t' := t[..|t| - 1];
      RunExtends(s, t');
      var mid := Run(s, t').entries;
      UnregisteredFlagsFirstLive(mid, if t[|t| - 1].Release? then t[|t| - 1].ptr else 0);
      assert Extends(mid, Run(s, t).entries);
    }
  }

  /** When no release misses, every handle tracked is either still live or
      released: live + released == initial live + tracked. */
  lemma {:induction false} LiveBalance(live: multiset<Handle>, t: seq<Call>)
    requires MissedLog(live, t) == []
    ensures LiveAfter(live, t) + Released(t) == live + Tracked(t)
    decreases |t|
  {
    if |t| > 0 {
      var t' := t[..|t| - 1];
      var c := t[|t| - 1];
      assert t == t' + [c];
      LiveSnoc(live, t', c);
      assert MissedLog(live, t') == [];
      LiveBalance(live, t');
      BalanceStep(live, LiveAfter(live, t'), Released(t'), Tracked(t'), c);
    }
  }

  /** One more call keeps the balance, when it does not miss. */
  lemma BalanceStep(live: multiset<Handle>, before: multiset<Handle>, released: multiset<Handle>,
                    tracked: multiset<Handle>, c: Call)
    requires before + released == live + tracked
    requires Miss(before, c) == []
    ensures LiveStep(before, c) + (released + (if c.Release? then multiset{c.ptr} else multiset{}))
         == live + (tracked + (if c.Track? then multiset{c.ptr} else multiset{}))
  {
    if c.Release? {
      var p := c.ptr;
      assert p in before;
      assert (before - multiset{p}) + (released + multiset{p}) == ((before - multiset{p}) + multiset{p}) + released;
      assert (before - multiset{p}) + multiset{p} == before;
      assert tracked + multiset{} == tracked;
    } else {
      assert released + multiset{} == released;
      assert (before + multiset{c.ptr}) + released == (before + released) + multiset{c.ptr};
    }
  }

  /** A teardown that releases only handles that are live, each as often as
      it is live, removes exactly those and prints nothing. */
  lemma {:induction false} ReleasesLeave(live: multiset<Handle>, t: seq<Call>)
    requires forall i :: 0 <= i < |t| ==> t[i].Release?
    requires Released(t) <= live
    ensures LiveAfter(live, t) == live - Released(t)
    ensures MissedLog(live, t) == []
    decreases |t|
  {
    if |t| > 0 {
      var t' := t[..|t| - 1];
      var p := t[|t| - 1].ptr;
      assert Released(t) == Released(t') + multiset{p};
      ReleasesLeave(live, t');
      TakeOneMore(live, Released(t'), p);
    }
  }

  lemma TakeOneMore(live: multiset<Handle>, r: multiset<Handle>, p: Handle)
    requires r + multiset{p} <= live
    ensures p in live - r
    ensures (live - r) - multiset{p} == live - (r + multiset{p})
  {
    assert live[p] >= r[p] + 1;
  }

  // Teardowns written out: each releases the handles most recently added to
  // the live multiset, latest first.

  lemma Peel1(Y: multiset<Handle>, a: Handle)
    ensures LiveAfter(Y + multiset{a}, [Release(a)]) == Y
    ensures MissedLog(Y + multiset{a}, [Release(a)]) == []
  {
    Live1(Y + multiset{a}, Release(a));
    AddThenRemove(Y, a);
  }

  lemma Peel2(Y: multiset<Handle>, a: Handle, b: Handle)
    ensures LiveAfter(Y + multiset{b} + multiset{a}, [Release(a), Release(b)]) == Y
    ensures MissedLog(Y + multiset{b} + multiset{a}, [Release(a), Release(b)]) == []
  {
    Live2(Y + multiset{b} + multiset{a}, Release(a), Release(b));
    AddThenRemove(Y + multiset{b}, a);
    AddThenRemove(Y, b);
  }

  lemma Peel3(Y: multiset<Handle>, a: Handle, b: Handle, c: Handle)
    ensures LiveAfter(Y + multiset{c} + multiset{b} + multiset{a}, [Release(a), Release(b), Release(c)]) == Y
    ensures MissedLog(Y + multiset{c} + multiset{b} + multiset{a}, [Release(a), Release(b), Release(c)]) == []
  {
    Live3(Y + multiset{c} + multiset{b} + multiset{a}, Release(a), Release(b), Release(c));
    AddThenRemove(Y + multiset{c} + multiset{b}, a);
    AddThenRemove(Y + multiset{c}, b);
    AddThenRemove(Y, c);
  }

  function Snap(l: Ledger): Snapshot
    reads l
  {
    Snapshot(l.entries, l.log)
  }

  /** Performs one ledger call: `TRACK_LEAK_ALLOC` or `TRACK_LEAK_FREE`. */
  method Perform(l: Ledger, c: Call)
    modifies l
    ensures Snap(l) == Step(old(Snap(l)), c)
  {
    match c {
      case Track(p, k, f, ln, d) => l.Register(p, k, f, ln, d);
      case Release(p) => l.Unregister(p);
    }
  }

  // Unfolding `Run` over short call sequences written out in full.

  lemma Run1(s: Snapshot, a: Call)
    ensures Run(s, [a]) == Step(s, a)
  {
    RunSnoc(s, [], a);
    assert [] + [a] == [a];
  }

  lemma Run2(s: Snapshot, a: Call, b: Call)
    ensures Run(s, [a, b]) == Step(Step(s, a), b)
  {
    Run1(s, a);
    RunSnoc(s, [a], b);
    assert [a] + [b] == [a, b];
  }

  lemma Run3(s: Snapshot, a: Call, b: Call, c: Call)
    ensures Run(s, [a, b, c]) == Step(Step(Step(s, a), b), c)
  {
    Run2(s, a, b);
    RunSnoc(s, [a, b], c);
    assert [a, b] + [c] == [a, b, c];
  }

  lemma Run4(s: Snapshot, a: Call, b: Call, c: Call, d: Call)
    ensures Run(s, [a, b, c, d]) == Step(Step(Step(Step(s, a), b), c), d)
  {
    Run3(s, a, b, c);
    RunSnoc(s, [a, b, c], d);
    assert [a, b, c] + [d] == [a, b, c, d];
  }

  lemma Run5(s: Snapshot, a: Call, b: Call, c: Call, d: Call, e: Call)
    ensures Run(s, [a, b, c, d, e]) == Step(Step(Step(Step(Step(s, a), b), c), d), e)
  {
    Run4(s, a, b, c, d);
    RunSnoc(s, [a, b, c, d], e);
    assert [a, b, c, d] + [e] == [a, b, c, d, e];
  }

  lemma Run6(s: Snapshot, a: Call, b: Call, c: Call, d: Call, e: Call, f: Call)
    ensures Run(s, [a, b, c, d, e, f]) == Step(Step(Step(Step(Step(Step(s, a), b), c), d), e), f)
  {
    Run5(s, a, b, c, d, e);
    RunSnoc(s, [a, b, c, d, e], f);
    assert [a, b, c, d, e] + [f] == [a, b, c, d, e, f];
  }

  // The same for the live multiset.

  lemma Live1(L: multiset<Handle>, a: Call)
    ensures LiveAfter(L, [a]) == LiveStep(L, a)
    ensures MissedLog(L, [a]) == Miss(L, a)
  {
    LiveSnoc(L, [], a);
    assert [] + [a] == [a];
  }

  lemma Live2(L: multiset<Handle>, a: Call, b: Call)
    ensures LiveAfter(L, [a, b]) == LiveStep(LiveStep(L, a), b)
    ensures MissedLog(L, [a, b]) == Miss(L, a) + Miss(LiveStep(L, a), b)
  {
    Live1(L, a);
    LiveSnoc(L, [a], b);
    assert [a] + [b] == [a, b];
  }

  lemma Live3(L: multiset<Handle>, a: Call, b: Call, c: Call)
    ensures var L1 := LiveStep(L, a); var L2 := LiveStep(L1, b);
      && LiveAfter(L, [a, b, c]) == LiveStep(L2, c)
      && MissedLog(L, [a, b, c]) == Miss(L, a) + Miss(L1, b) + Miss(L2, c)
  {
    Live2(L, a, b);
    LiveSnoc(L, [a, b], c);
    assert [a, b] + [c] == [a, b, c];
  }

  lemma Live4(L: multiset<Handle>, a: Call, b: Call, c: Call, d: Call)
    ensures var L1 := LiveStep(L, a); var L2 := LiveStep(L1, b); var L3 := LiveStep(L2, c);
      && LiveAfter(L, [a, b, c, d]) == LiveStep(L3, d)
      && MissedLog(L, [a, b, c, d]) == Miss(L, a) + Miss(L1, b) + Miss(L2, c) + Miss(L3, d)
  {
    Live3(L, a, b, c);
    LiveSnoc(L, [a, b, c], d);
    assert [a, b, c] + [d] == [a, b, c, d];
  }

  lemma Live5(L: multiset<Handle>, a: Call, b: Call, c: Call, d: Call, e: Call)
    ensures var L1 := LiveStep(L, a); var L2 := LiveStep(L1, b); var L3 := LiveStep(L2, c);
      var L4 := LiveStep(L3, d);
      && LiveAfter(L, [a, b, c, d, e]) == LiveStep(L4, e)
      && MissedLog(L, [a, b, c, d, e]) == Miss(L, a) + Miss(L1, b) + Miss(L2, c) + Miss(L3, d) + Miss(L4, e)
  {
    Live4(L, a, b, c, d);
    LiveSnoc(L, [a, b, c, d], e);
    assert [a, b, c, d] + [e] == [a, b, c, d, e];
  }

  // Registrations only, and registrations followed by one release.

  lemma Tracks2(L: multiset<Handle>, a: Call, b: Call)
    requires a.Track? && b.Track?
    ensures LiveAfter(L, [a, b]) == L + multiset{a.ptr} + multiset{b.ptr}
    ensures MissedLog(L, [a, b]) == []
  {
    Live2(L, a, b);
  }

  lemma Tracks3(L: multiset<Handle>, a: Call, b: Call, c: Call)
    requires a.Track? && b.Track? && c.Track?
    ensures LiveAfter(L, [a, b, c]) == L + multiset{a.ptr} + multiset{b.ptr} + multiset{c.ptr}
    ensures MissedLog(L, [a, b, c]) == []
  {
    Live3(L, a, b, c);
  }

  /** Four registrations, then the release of the second. */
  lemma Tracks4ReleaseSecond(L: multiset<Handle>, a: Call, b: Call, c: Call, d: Call, e: Call)
    requires a.Track? && b.Track? && c.Track? && d.Track? && e == Release(b.ptr)
    ensures LiveAfter(L, [a, b, c, d, e]) == L + multiset{a.ptr} + multiset{c.ptr} + multiset{d.ptr}
    ensures MissedLog(L, [a, b, c, d, e]) == []
  {
    Live5(L, a, b, c, d, e);
    var rest := L + multiset{a.ptr} + multiset{c.ptr} + multiset{d.ptr};
    assert L + multiset{a.ptr} + multiset{b.ptr} + multiset{c.ptr} + multiset{d.ptr} == rest + multiset{b.ptr};
    AddThenRemove(rest, b.ptr);
  }

  lemma AddThenRemove(m: multiset<Handle>, p: Handle)
    ensures m + multiset{p} - multiset{p} == m
  {
  }

  lemma AddTwoRemoveFirst(m: multiset<Handle>, p: Handle, q: Handle)
    ensures m + multiset{p} + multiset{q} - multiset{p} == m + multiset{q}
  {
    assert m + multiset{p} + multiset{q} == (m + multiset{q}) + multiset{p};
    AddThenRemove(m + multiset{q}, p);
  }

  // Hand-over chains: each object is registered, and released once the next
  // one has been registered, as in a probe that builds one object from another.

  lemma Chain3(L: multiset<Handle>, a: Call, b: Call, c: Call)
    requires a.Track? && b.Track? && c == Release(a.ptr)
    ensures LiveAfter(L, [a, b, c]) == L + multiset{b.ptr}
    ensures MissedLog(L, [a, b, c]) == []
  {
    Live3(L, a, b, c);
    AddTwoRemoveFirst(L, a.ptr, b.ptr);
  }

  lemma Chain5(L: multiset<Handle>, a: Call, b: Call, c: Call, d: Call, e: Call)
    requires a.Track? && b.Track? && c == Release(a.ptr) && d.Track? && e == Release(b.ptr)
    ensures LiveAfter(L, [a, b, c, d, e]) == L + multiset{d.ptr}
    ensures MissedLog(L, [a, b, c, d, e]) == []
  {
    Live5(L, a, b, c, d, e);
    AddTwoRemoveFirst(L, a.ptr, b.ptr);
    AddTwoRemoveFirst(L, b.ptr, d.ptr);
  }

  lemma Chain6(L: multiset<Handle>, a: Call, b: Call, c: Call, d: Call, e: Call, f: Call)
    requires a.Track? && b.Track? && c == Release(a.ptr) && d.Track? && e == Release(b.ptr)
    requires f == Release(d.ptr)
    ensures LiveAfter(L, [a, b, c, d, e, f]) == L
    ensures MissedLog(L, [a, b, c, d, e, f]) == []
  {
    Chain5(L, a, b, c, d, e);
    LiveSnoc(L, [a, b, c, d, e], f);
    assert [a, b, c, d, e] + [f] == [a, b, c, d, e, f];
  }
}
