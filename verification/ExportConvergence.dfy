/** With the exports left alone by the members, whole reconciles in any order settle: every
    round that writes anything lowers a measure, and the states in which no round writes are
    exactly the resolved ones (and those waiting for an importing cluster). */
module ExportConvergence {
  import opened Api
  import opened ImportStatus
  import opened ExportMachine
  import opened ExportSafety
  import opened ExportRounds

  datatype Round = OfExport(c: Cluster) | OfImport(order: seq<Cluster>)

  function After(s: State, r: Round): State {
    match r
    case OfExport(c) => WorkerRound(s, c)
    case OfImport(order) => ResolverRound(s, order)
  }

  // ----- the measure -----

  function Resolved(si: Option<Import>): Ports {
    if si.None? then [] else si.value.status.ports
  }

  function Ready(exports: Exports): set<Cluster> {
    set c | c in exports && Eligible(exports[c])
  }

  /** Exports that still need their finalizer, or that are on their way out. */
  function Pending(exports: Exports): set<Cluster> {
    set c | c in exports && !Eligible(exports[c])
  }

  /** Listed clusters whose ports are not the resolved ones any more. */
  function Stale(si: Option<Import>, exports: Exports): set<Cluster> {
    set c | c in exports && c in Listed(si) && exports[c].ports != Resolved(si)
  }

  function Missing(si: Option<Import>, exports: Exports): set<Cluster> {
    set c | c in exports && Eligible(exports[c]) && Resolved(si) != [] &&
            exports[c].ports == Resolved(si) && c !in Listed(si)
  }

  function Unjudged(si: Option<Import>, exports: Exports): set<Cluster> {
    set c | c in exports && Eligible(exports[c]) && Resolved(si) != [] &&
            !Agrees(exports[c], exports[c].ports != Resolved(si))
  }

  /** How far the ServiceImport is from where the eligible exports, if any, want it. */
  function Phase(si: Option<Import>, ready: bool): nat {
    if ready then (if si.None? then 3 else if Resolved(si) == [] then 2 else 1)
    else if si.None? then 0
    else if Resolved(si) != [] then 3
    else if si.value.marked then 1 else 2
  }

  datatype Rank = Rank(pending: nat, stale: nat, phase: nat, open: nat)

  function RankOf(s: State): Rank {
    Rank(|Pending(s.exports)|, |Stale(s.si, s.exports)|, Phase(s.si, Ready(s.exports) != {}),
         |Missing(s.si, s.exports)| + |Unjudged(s.si, s.exports)|)
  }

  predicate Below(a: Rank, b: Rank) {
    || a.pending < b.pending
    || (a.pending == b.pending &&
        (|| a.stale < b.stale
         || (a.stale == b.stale && (a.phase < b.phase || (a.phase == b.phase && a.open < b.open)))))
  }

  /** The rank as one number, for up to `n` exports. */
  function Weigh(r: Rank, n: nat): nat {
    ((r.pending * (n + 1) + r.stale) * 4 + r.phase) * (2 * n + 1) + r.open
  }

  function Measure(s: State, n: nat): nat {
    Weigh(RankOf(s), n)
  }

  lemma {:induction false} Carry(a: nat, b: nat, k: nat)
    requires a < b
    ensures a * k + k <= b * k
    decreases b
  {
    if b > a + 1 {
      Carry(a, b - 1, k);
      assert b * k == (b - 1) * k + k;
    } else {
      assert b == a + 1;
      assert b * k == a * k + k;
    }
  }

  lemma WeighBelow(a: Rank, b: Rank, n: nat)
    requires Below(a, b)
    requires a.stale <= n && a.phase <= 3 && a.open <= 2 * n
    ensures Weigh(a, n) < Weigh(b, n)
  {
    var p, q := a.pending * (n + 1), b.pending * (n + 1);
    if a.pending < b.pending {
      Carry(a.pending, b.pending, n + 1);
    }
    var x, y := (p + a.stale) * 4 + a.phase, (q + b.stale) * 4 + b.phase;
    if x < y {
      Carry(x, y, 2 * n + 1);
    }
  }

  lemma Smaller<T>(a: set<T>, b: set<T>)
    requires a <= b
    ensures |a| <= |b|
    ensures a != b ==> |a| < |b|
  {
    var d := b - a;
    assert a + d == b && a !! d;
    assert |b| == |a| + |d|;
    if a != b {
      assert d != {};
    }
  }

  lemma RankBounds(s: State, n: nat)
    requires |s.exports| <= n
    ensures RankOf(s).stale <= n && RankOf(s).phase <= 3 && RankOf(s).open <= 2 * n
  {
    Smaller(Stale(s.si, s.exports), s.exports.Keys);
    Smaller(Missing(s.si, s.exports), s.exports.Keys);
    Smaller(Unjudged(s.si, s.exports), s.exports.Keys);
  }

  // ----- rounds keep the frame -----

  lemma WorkerOutcomeFrame(s: State, c: Cluster)
    requires Calm(s)
    ensures var t := WorkerOutcome(s, c); Calm(t) && t.exports.Keys <= s.exports.Keys
  {
    if c in s.exports && !s.exports[c].marked {
      FetchOutcomeFrame(Finalized(s, c), c);
    }
  }

  /** The effect of a resolving round: the eligible exports with the chosen ports are listed,
      and no spec changes. */
  lemma ResolverSettles(s: State, order: seq<Cluster>, ports: Ports)
    requires Inv(s) && Enumerates(order, s.exports)
    requires s.si.Some? && s.si.value.status.clusters == []
    requires Chosen(ItemsOf(order, s.exports)) == Some(ports)
    ensures ports != []
    ensures var t := ResolverOutcome(s, order);
            && t.workers == s.workers && t.resolver == s.resolver && SameSpecs(s, t)
            && t.si.Some? && t.si.value.status.ports == ports
            && t.si.value.marked == s.si.value.marked && t.si.value.held == s.si.value.held
            && (forall c :: c in t.si.value.status.clusters <==>
                  c in s.exports && Eligible(s.exports[c]) && s.exports[c].ports == ports)
  {
    var items := ItemsOf(order, s.exports);
    PicksAreEligible(order, s.exports, s.next);
    ListingFacts(s, order, ports);
    SettledEffect(s, ports, Split(items, ports, true), Split(items, ports, false));
  }

  lemma ResolverOutcomeFrame(s: State, order: seq<Cluster>)
    requires Calm(s) && Inv(s) && Enumerates(order, s.exports)
    ensures var t := ResolverOutcome(s, order); Calm(t) && t.exports.Keys <= s.exports.Keys
  {
    if s.si.Some? && s.si.value.status.clusters == [] {
      var ports := Chosen(ItemsOf(order, s.exports));
      if ports.Some? {
        ResolverSettles(s, order, ports.value);
      }
    }
  }

  lemma RoundKeepsFrame(s: State, r: Round)
    requires Calm(s) && Inv(s)
    ensures var t := After(s, r); Calm(t) && Inv(t) && t.exports.Keys <= s.exports.Keys && |t.exports| <= |s.exports|
  {
    var c := if r.OfExport? then r.c else "";
    var order := if r.OfImport? then r.order else [];
    RoundsAreRuns(s, c, order);
    var t := After(s, r);
    assert Leads(s, t);
    var es :| Play(s, es) == t;
    LeadsKeepsInv(s, es);
    WorkerOutcomeFrame(s, c);
    WorkerRoundOutcome(s, c);
    if Enumerates(order, s.exports) {
      ResolverOutcomeFrame(s, order);
      ResolverRoundOutcome(s, order);
    }
    Smaller(t.exports.Keys, s.exports.Keys);
  }

  // ----- every writing round makes progress -----

  lemma DeleteProgress(s: State, c: Cluster)
    requires Calm(s) && Inv(s) && Dying(s.exports, c)
    ensures DeleteOutcome(s, c) == s || Below(RankOf(DeleteOutcome(s, c)), RankOf(s))
  {
    var t := DeleteOutcome(s, c);
    if t != s {
      assert Pending(t.exports) == Pending(s.exports) - {c};
      Smaller(Pending(t.exports), Pending(s.exports));
      assert c in Pending(s.exports);
    }
  }

  lemma FinalizerProgress(s: State, c: Cluster)
    requires Calm(s) && Inv(s) && c in s.exports && !s.exports[c].marked && !s.exports[c].finalizer
    ensures Below(RankOf(UpdateOutcome(s, c)), RankOf(s))
  {
    var t, u := UpdateOutcome(s, c), Finalized(s, c);
    FetchOutcomeFrame(u, c);
    assert Pending(t.exports) == Pending(u.exports);
    assert Pending(u.exports) == Pending(s.exports) - {c};
    Smaller(Pending(t.exports), Pending(s.exports));
    assert c in Pending(s.exports);
  }

  /** A change to verdicts only. */
  lemma VerdictsKeepRank(s: State, t: State)
    requires t.si == s.si && SameSpecs(s, t)
    ensures Pending(t.exports) == Pending(s.exports) && Ready(t.exports) == Ready(s.exports)
    ensures Stale(t.si, t.exports) == Stale(s.si, s.exports)
    ensures Missing(t.si, t.exports) == Missing(s.si, s.exports)
  {
  }

  lemma JudgeProgress(s: State, c: Cluster)
    requires Calm(s) && Inv(s) && c in s.exports && Eligible(s.exports[c]) && Resolved(s.si) != []
    ensures var t := Judged(s, c, s.exports[c].ports != Resolved(s.si));
            && Pending(t.exports) == Pending(s.exports) && Ready(t.exports) == Ready(s.exports)
            && Stale(t.si, t.exports) == Stale(s.si, s.exports)
            && Missing(t.si, t.exports) == Missing(s.si, s.exports)
            && |Unjudged(t.si, t.exports)| <= |Unjudged(s.si, s.exports)|
            && (t == s || Below(RankOf(t), RankOf(s)))
  {
    var t := Judged(s, c, s.exports[c].ports != Resolved(s.si));
    VerdictsKeepRank(s, t);
    assert Unjudged(t.si, t.exports) <= Unjudged(s.si, s.exports);
    Smaller(Unjudged(t.si, t.exports), Unjudged(s.si, s.exports));
    if t != s {
      assert c in Unjudged(s.si, s.exports) && c !in Unjudged(t.si, t.exports);
    }
  }

  lemma AdmitProgress(s: State, c: Cluster)
    requires Calm(s) && Inv(s) && c in s.exports && Eligible(s.exports[c])
    requires s.si.Some? && Resolved(s.si) != [] && s.exports[c].ports == Resolved(s.si)
    ensures var t := WithStatus(s, Added(s.si.value.status, c));
            t == s || (Below(RankOf(t), RankOf(s)) && Inv(t) && Calm(t))
  {
    var t := WithStatus(s, Added(s.si.value.status, c));
    AddedKeepsShape(s.si.value.status, c);
    if t != s {
      assert Stale(t.si, t.exports) == Stale(s.si, s.exports);
      assert Missing(t.si, t.exports) == Missing(s.si, s.exports) - {c};
      assert c in Missing(s.si, s.exports);
      assert Unjudged(t.si, t.exports) == Unjudged(s.si, s.exports);
      Smaller(Missing(t.si, t.exports), Missing(s.si, s.exports));
    }
  }

  lemma ExpelProgress(s: State, c: Cluster)
    requires Calm(s) && Inv(s) && c in s.exports && Eligible(s.exports[c])
    requires s.si.Some? && Resolved(s.si) != [] && s.exports[c].ports != Resolved(s.si)
    ensures var t := WithStatus(s, Removed(s.si.value.status, c));
            && (c !in Listed(s.si) ==> t == s)
            && (c in Listed(s.si) ==>
                  && Pending(t.exports) == Pending(s.exports)
                  && |Stale(t.si, t.exports)| < |Stale(s.si, s.exports)|)
  {
    var t := WithStatus(s, Removed(s.si.value.status, c));
    RemovedKeepsShape(s.si.value.status, c);
    if c in Listed(s.si) {
      assert c in Stale(s.si, s.exports) && c !in Stale(t.si, t.exports);
      assert Stale(t.si, t.exports) <= Stale(s.si, s.exports);
      Smaller(Stale(t.si, t.exports), Stale(s.si, s.exports));
    }
  }

  lemma UpdateProgress(s: State, c: Cluster)
    requires Calm(s) && Inv(s) && c in s.exports && Eligible(s.exports[c])
    ensures UpdateOutcome(s, c) == s || Below(RankOf(UpdateOutcome(s, c)), RankOf(s))
  {
    var t := UpdateOutcome(s, c);
    if s.si.None? {
      assert c in Ready(s.exports);
      assert Stale(t.si, t.exports) == {} && Stale(s.si, s.exports) == {};
    } else if Resolved(s.si) != [] {
      if s.exports[c].ports == Resolved(s.si) {
        var u := WithStatus(s, Added(s.si.value.status, c));
        AdmitProgress(s, c);
        JudgeProgress(u, c);
      } else {
        var u := WithStatus(s, Removed(s.si.value.status, c));
        ExpelProgress(s, c);
        if c !in Listed(s.si) {
          JudgeProgress(s, c);
        } else {
          if u.si.value.status.ports != [] {
            VerdictsKeepRank(u, t);
          }
          assert Pending(t.exports) == Pending(s.exports);
          assert |Stale(t.si, t.exports)| < |Stale(s.si, s.exports)|;
        }
      }
    }
  }

  lemma WorkerProgress(s: State, c: Cluster)
    requires Calm(s) && Inv(s)
    ensures WorkerOutcome(s, c) == s || Below(RankOf(WorkerOutcome(s, c)), RankOf(s))
  {
    if c in s.exports {
      if s.exports[c].marked {
        DeleteProgress(s, c);
      } else if s.exports[c].finalizer {
        UpdateProgress(s, c);
      } else {
        FinalizerProgress(s, c);
      }
    }
  }

  lemma ResolverProgress(s: State, order: seq<Cluster>)
    requires Calm(s) && Inv(s) && Enumerates(order, s.exports)
    ensures var t := ResolverOutcome(s, order); t == s || Below(RankOf(t), RankOf(s))
  {
    if s.si.Some? && s.si.value.status.clusters == [] {
      var t, ports := ResolverOutcome(s, order), Chosen(ItemsOf(order, s.exports));
      SomeoneReady(order, s.exports);
      assert Stale(s.si, s.exports) == {};
      if ports.Some? {
        ResolverSettles(s, order, ports.value);
        SettlingKeepsRanks(s, t);
      } else {
        assert t == Purge(s, Done);
        assert Stale(t.si, t.exports) == {};
      }
    }
  }

  lemma SettlingKeepsRanks(s: State, t: State)
    requires SameSpecs(s, t) && t.si.Some?
    requires forall c :: c in t.si.value.status.clusters ==>
                           c in s.exports && s.exports[c].ports == t.si.value.status.ports
    ensures Pending(t.exports) == Pending(s.exports) && Ready(t.exports) == Ready(s.exports)
    ensures Stale(t.si, t.exports) == {}
  {
  }

  lemma SomeoneReady(order: seq<Cluster>, exports: Exports)
    requires Enumerates(order, exports)
    ensures Chosen(ItemsOf(order, exports)).Some? <==> Ready(exports) != {}
  {
    var items := ItemsOf(order, exports);
    forall c | c in Ready(exports) ensures exists t :: t in items && Eligible(t.body) {
      var k :| 0 <= k < |order| && order[k] == c;
      assert items[k] in items;
    }
    if Chosen(items).Some? {
      var t :| t in items && Eligible(t.body);
      assert t.cluster in Ready(exports);
    }
  }

  /** A whole reconcile of any object either writes nothing or lowers the measure. */
  lemma RoundMakesProgress(s: State, r: Round, n: nat)
    requires Calm(s) && Inv(s) && |s.exports| <= n
    ensures After(s, r) == s || Measure(After(s, r), n) < Measure(s, n)
  {
    RoundKeepsFrame(s, r);
    var t := After(s, r);
    match r {
      case OfExport(c) =>
        WorkerRoundOutcome(s, c);
        WorkerProgress(s, c);
      case OfImport(order) =>
        if Enumerates(order, s.exports) {
          ResolverRoundOutcome(s, order);
          ResolverProgress(s, order);
        }
    }
    if t != s {
      RankBounds(t, n);
      WeighBelow(RankOf(t), RankOf(s), n);
    }
  }

  // ----- where no round writes -----

  /** No reconcile of any object writes anything. */
  ghost predicate Quiet(s: State) {
    forall r: Round :: After(s, r) == s
  }

  /** The resolution is complete: every export is eligible, it is listed exactly when it has the
      resolved ports, and its Conflict condition is True exactly when it is not listed. Without
      exports there is no ServiceImport, unless an importing cluster still holds it. */
  ghost predicate Complete(s: State) {
    if s.exports == map[] then s.si.None? || s.si.value.marked
    else
      && s.si.Some? && Resolved(s.si) != []
      && (forall c :: c in s.exports ==>
            && Eligible(s.exports[c])
            && (c in Listed(s.si) <==> s.exports[c].ports == Resolved(s.si))
            && Agrees(s.exports[c], c !in Listed(s.si)))
  }

  /** Everything is being deleted and only an importing cluster's finalizer keeps the
      ServiceImport: the export controller requeues until it is gone. */
  ghost predicate Waiting(s: State) {
    && s.exports != map[] && (forall c :: c in s.exports ==> Dying(s.exports, c))
    && s.si.Some? && Resolved(s.si) == [] && s.si.value.marked
  }

  lemma WaitingMeansDeleting(s: State)
    requires Waiting(s)
    ensures exists c :: c in s.exports && s.exports[c].marked
  {
    var c :| c in s.exports;
    assert Dying(s.exports, c);
  }

  /** A status that lists something names an export. */
  lemma ListingNamesAnExport(s: State)
    requires Inv(s) && Listed(s.si) != []
    ensures s.exports != map[]
  {
    assert Held(s.exports, Listed(s.si)[0]);
  }

  lemma {:induction false} SomeOrder(exports: Exports) returns (order: seq<Cluster>)
    ensures Enumerates(order, exports)
    decreases |exports|
  {
    if exports == map[] {
      order := [];
    } else {
      var c :| c in exports;
      var rest := exports - {c};
      assert exports.Keys == rest.Keys + {c};
      var tail := SomeOrder(rest);
      order := [c] + tail;
    }
  }

  lemma CompleteIsQuiet(s: State)
    requires Calm(s) && Inv(s) && (Complete(s) || Waiting(s))
    ensures Quiet(s)
  {
    forall r: Round ensures After(s, r) == s {
      match r
      case OfExport(c) =>
        WorkerRoundOutcome(s, c);
        if c in s.exports && s.si.Some? {
          RemovedKeepsShape(s.si.value.status, c);
        }
      case OfImport(order) =>
        if Enumerates(order, s.exports) {
          ResolverRoundOutcome(s, order);
          SomeoneReady(order, s.exports);
        }
    }
  }

  lemma QuietExports(s: State, c: Cluster)
    requires Calm(s) && Inv(s) && Quiet(s) && c in s.exports
    ensures s.si.Some?
    ensures Resolved(s.si) != [] ==>
              && Eligible(s.exports[c])
              && (c in Listed(s.si) <==> s.exports[c].ports == Resolved(s.si))
              && Agrees(s.exports[c], c !in Listed(s.si))
    ensures Resolved(s.si) == [] ==> s.exports[c].finalizer
  {
    assert After(s, OfExport(c)) == s;
    WorkerRoundOutcome(s, c);
    var x := s.exports[c];
    if x.marked {
      assert DeleteOutcome(s, c) == s;
    } else {
      var t := Finalized(s, c);
      FetchOutcomeFrame(t, c);
      assert x.finalizer;
      if s.si.Some? && Resolved(s.si) != [] {
        AddedKeepsShape(s.si.value.status, c);
        RemovedKeepsShape(s.si.value.status, c);
      }
    }
  }

  lemma QuietImport(s: State, order: seq<Cluster>)
    requires Calm(s) && Inv(s) && Quiet(s) && Enumerates(order, s.exports)
    requires s.si.Some? && Resolved(s.si) == []
    ensures s.si.value.marked && Ready(s.exports) == {}
  {
    assert After(s, OfImport(order)) == s;
    ResolverRoundOutcome(s, order);
    SomeoneReady(order, s.exports);
    var ports := Chosen(ItemsOf(order, s.exports));
    if ports.Some? {
      ResolverSettles(s, order, ports.value);
    }
  }

  /** The states in which no reconcile writes are exactly the completely resolved ones and
      those in which a deletion waits for an importing cluster. */
  lemma QuietIff(s: State)
    requires Calm(s) && Inv(s)
    ensures Quiet(s) <==> Complete(s) || Waiting(s)
  {
    if Complete(s) || Waiting(s) {
      CompleteIsQuiet(s);
    }
    if Quiet(s) {
      forall c | c in s.exports
        ensures s.si.Some?
        ensures Resolved(s.si) != [] ==>
                  && Eligible(s.exports[c])
                  && (c in Listed(s.si) <==> s.exports[c].ports == Resolved(s.si))
                  && Agrees(s.exports[c], c !in Listed(s.si))
        ensures Resolved(s.si) == [] ==> s.exports[c].finalizer
      {
        QuietExports(s, c);
      }
      var order := SomeOrder(s.exports);
      if s.si.Some? && Resolved(s.si) == [] {
        QuietImport(s, order);
        forall c | c in s.exports ensures Dying(s.exports, c) {
          assert c !in Ready(s.exports);
        }
      } else if s.si.Some? && s.exports == map[] {
        ListingNamesAnExport(s);
      }
    }
  }

  // ----- convergence -----

  function AfterAll(s: State, rs: seq<Round>): State
    decreases |rs|
  {
    if rs == [] then s else AfterAll(After(s, rs[0]), rs[1..])
  }

  /** How many rounds of the schedule write something. */
  function Writes(s: State, rs: seq<Round>): nat
    decreases |rs|
  {
    if rs == [] then 0
    else (if After(s, rs[0]) == s then 0 else 1) + Writes(After(s, rs[0]), rs[1..])
  }

  /** The same exports with the same ports, none of them being deleted. */
  ghost predicate Kept(s: State, t: State) {
    && t.exports.Keys == s.exports.Keys
    && (forall c :: c in s.exports ==> t.exports[c].ports == s.exports[c].ports && !t.exports[c].marked)
  }

  lemma RoundKeepsExports(s: State, r: Round)
    requires Calm(s) && Inv(s) && Kept(s, s)
    ensures Kept(s, After(s, r))
  {
    match r
    case OfExport(c) =>
      WorkerRoundOutcome(s, c);
      if c in s.exports {
        FetchOutcomeFrame(Finalized(s, c), c);
      }
    case OfImport(order) =>
      if Enumerates(order, s.exports) {
        ResolverRoundOutcome(s, order);
        if s.si.Some? && s.si.value.status.clusters == [] {
          var ports := Chosen(ItemsOf(order, s.exports));
          if ports.Some? {
            ResolverSettles(s, order, ports.value);
          }
        }
      }
  }

  /** Whatever the schedule, only boundedly many reconciles write. */
  lemma {:induction false} WritesAreBounded(s: State, rs: seq<Round>, n: nat)
    requires Calm(s) && Inv(s) && |s.exports| <= n
    ensures Writes(s, rs) <= Measure(s, n)
    decreases |rs|
  {
    if rs != [] {
      RoundMakesProgress(s, rs[0], n);
      RoundKeepsFrame(s, rs[0]);
      WritesAreBounded(After(s, rs[0]), rs[1..], n);
    }
  }

  /** From every calm reachable state some schedule of reconciles reaches one in which no
      further reconcile writes. It is completely resolved or waits for an importing cluster;
      if no export is being deleted it is completely resolved, with the exports unchanged. */
  lemma {:induction false} SettlesDown(s: State, n: nat) returns (rs: seq<Round>)
    requires Calm(s) && Inv(s) && |s.exports| <= n
    ensures Quiet(AfterAll(s, rs))
    ensures Complete(AfterAll(s, rs)) || Waiting(AfterAll(s, rs))
    ensures Kept(s, s) ==> Kept(s, AfterAll(s, rs)) && Complete(AfterAll(s, rs))
    decreases Measure(s, n)
  {
    QuietIff(s);
    if Quiet(s) {
      rs := [];
      if Kept(s, s) && Waiting(s) {
        WaitingMeansDeleting(s);
      }
    } else {
      var r: Round :| After(s, r) != s;
      RoundMakesProgress(s, r, n);
      RoundKeepsFrame(s, r);
      if Kept(s, s) {
        RoundKeepsExports(s, r);
      }
      var rest := SettlesDown(After(s, r), n);
      rs := [r] + rest;
      assert rs[1..] == rest;
    }
  }
}
