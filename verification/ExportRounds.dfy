/** Uninterrupted reconciles of the export machine, as whole rounds, and what each round
    amounts to when nothing interferes. */
module ExportRounds {
  import opened Api
  import opened ImportStatus
  import opened ExportMachine
  import opened ExportSafety

  /** Nobody is in the middle of a reconcile. */
  predicate Calm(s: State) {
    s.resolver == Idle && s.workers == map[]
  }

  function Play(s: State, es: seq<Event>): State {
    if es == [] then s else Next(Play(s, es[..|es| - 1]), es[|es| - 1])
  }

  /** Some sequence of events leads from `s` to `t`. */
  ghost predicate Leads(s: State, t: State) {
    exists es :: Play(s, es) == t
  }

  lemma LeadsOn(s: State, t: State, e: Event)
    requires Leads(s, t)
    ensures Leads(s, Next(t, e))
  {
    var es :| Play(s, es) == t;
    assert (es + [e])[..|es|] == es;
    assert Play(s, es + [e]) == Next(t, e);
  }

  lemma {:induction false} LeadsKeepsInv(s: State, es: seq<Event>)
    requires Inv(s)
    ensures Inv(Play(s, es))
  {
    if es != [] {
      LeadsKeepsInv(s, es[..|es| - 1]);
      NextKeepsInv(Play(s, es[..|es| - 1]), es[|es| - 1]);
    }
  }

  // ----- a round of the export controller -----

  /** Reads the export of `c` and makes the (at most four) calls that follow. */
  function WorkerRound(s: State, c: Cluster): State {
    var s1 := Next(s, WorkerRead(c));
    var s2 := Next(s1, WorkerStep(c, Done));
    var s3 := Next(s2, WorkerStep(c, Done));
    var s4 := Next(s3, WorkerStep(c, Done));
    Next(s4, WorkerStep(c, Done))
  }

  function Finalized(s: State, c: Cluster): State
    requires c in s.exports
  {
    if s.exports[c].finalizer then s else PutExport(s, c, s.exports[c].(finalizer := true))
  }

  function Judged(s: State, c: Cluster, conflict: bool): State
    requires c in s.exports
  {
    if Agrees(s.exports[c], conflict) then s else PutExport(s, c, WithVerdict(s.exports[c], conflict))
  }

  function WithStatus(s: State, st: Status): State
    requires s.si.Some?
  {
    if st == s.si.value.status then s else PutImport(s, s.si.value.(status := st))
  }

  /** The whole effect of reconciling an export that is not being deleted. */
  function UpdateOutcome(s: State, c: Cluster): State
    requires c in s.exports
  {
    FetchOutcome(Finalized(s, c), c)
  }

  /** The part of it that follows the finalizer. */
  function FetchOutcome(t: State, c: Cluster): State
    requires c in t.exports
  {
    if t.si.None? then PutImport(t, Import(t.next, false, false, EmptyStatus))
    else if t.si.value.status.ports == [] then t
    else if t.si.value.status.ports == t.exports[c].ports then
      Judged(WithStatus(t, Added(t.si.value.status, c)), c, false)
    else
      var u := WithStatus(t, Removed(t.si.value.status, c));
      if u.si.value.status.ports == [] then u else Judged(u, c, true)
  }

  /** The whole effect of reconciling an export that is being deleted. */
  function DeleteOutcome(s: State, c: Cluster): State {
    if s.si.None? then s.(exports := s.exports - {c})
    else if s.si.value.status.ports == [] then s
    else
      var u := WithStatus(s, Removed(s.si.value.status, c));
      u.(exports := u.exports - {c})
  }

  function WorkerOutcome(s: State, c: Cluster): State {
    if c !in s.exports then s
    else if s.exports[c].marked then (if s.exports[c].finalizer then DeleteOutcome(s, c) else s)
    else UpdateOutcome(s, c)
  }

  /** Reconciling one export changes no spec and starts nothing. */
  lemma FetchOutcomeFrame(t: State, c: Cluster)
    requires c in t.exports
    ensures var u := FetchOutcome(t, c);
            SameSpecs(t, u) && u.workers == t.workers && u.resolver == t.resolver && u.next >= t.next
  {
  }

  /** Resting right after going is staying. */
  lemma RestAfterGo(s: State, c: Cluster, w: Worker)
    requires s.workers == map[]
    ensures Rest(Go(s, c, w), c) == s
    ensures Rest(s, c) == s
  {
    assert map[c := w] - {c} == map[];
  }

  lemma FetchedRound(t: State, c: Cluster)
    requires t.workers == map[] && c in t.exports
    requires t.exports[c].finalizer && !t.exports[c].marked
    requires ImportOk(t.next, t.si)
    ensures var s1 := Go(t, c, FetchImport(t.exports[c]));
            var s2 := Next(s1, WorkerStep(c, Done));
            var s3 := Next(s2, WorkerStep(c, Done));
            Next(s3, WorkerStep(c, Done)) == FetchOutcome(t, c)
  {
    var x := t.exports[c];
    var s1 := Go(t, c, FetchImport(x));
    var s2 := Next(s1, WorkerStep(c, Done));
    var s3 := Next(s2, WorkerStep(c, Done));
    var s4 := Next(s3, WorkerStep(c, Done));
    RestAfterGo(t, c, FetchImport(x));
    if t.si.None? {
      RestAfterGo(PutImport(t, Import(t.next, false, false, EmptyStatus)), c, CreateImport(x));
    } else if t.si.value.status.ports != [] {
      var st := t.si.value.status;
      var conflict := st.ports != x.ports;
      var st' := if conflict then Removed(st, c) else Added(st, c);
      var u := WithStatus(t, st');
      assert u.exports == t.exports;
      RestAfterGo(u, c, s2.workers[c]);
      RestAfterGo(u, c, Judge(x, conflict));
      if st'.ports == [] {
        assert s3 == u;
      } else {
        assert s3 == Go(u, c, Judge(x, conflict));
        RestAfterGo(Judged(u, c, conflict), c, Judge(x, conflict));
        assert s4 == Judged(u, c, conflict);
      }
    }
  }

  lemma UpdateRound(s: State, c: Cluster)
    requires Calm(s) && Inv(s) && c in s.exports && !s.exports[c].marked
    ensures WorkerRound(s, c) == UpdateOutcome(s, c)
  {
    var x := s.exports[c];
    if x.finalizer {
      FetchedRound(s, c);
      assert FetchOutcome(s, c).workers == map[];
    } else {
      var t := Finalized(s, c);
      var s1 := Next(s, WorkerRead(c));
      assert s1 == Go(s, c, AddFinalizer(x));
      var s2 := Next(s1, WorkerStep(c, Done));
      assert s2 == Go(t, c, FetchImport(t.exports[c]));
      FetchedRound(t, c);
    }
  }

  lemma DeleteRound(s: State, c: Cluster)
    requires Calm(s) && Inv(s) && Dying(s.exports, c)
    ensures WorkerRound(s, c) == DeleteOutcome(s, c)
  {
    var x := s.exports[c];
    var s1 := Next(s, WorkerRead(c));
    assert s1 == Go(s, c, FetchForDelete(x));
    var s2 := Next(s1, WorkerStep(c, Done));
    RestAfterGo(s, c, FetchForDelete(x));
    if s.si.None? {
      RestAfterGo(s.(exports := s.exports - {c}), c, DropFinalizer(x));
    } else if s.si.value.status.ports != [] {
      var u := WithStatus(s, Removed(s.si.value.status, c));
      var s3 := Next(s2, WorkerStep(c, Done));
      assert s3 == Go(u, c, DropFinalizer(x));
      RestAfterGo(u.(exports := u.exports - {c}), c, DropFinalizer(x));
    }
  }

  /** The call-by-call machine, left alone, does what the reconcile as a whole does. */
  lemma WorkerRoundOutcome(s: State, c: Cluster)
    requires Calm(s) && Inv(s)
    ensures WorkerRound(s, c) == WorkerOutcome(s, c)
  {
    if c in s.exports {
      if s.exports[c].marked {
        DeleteRound(s, c);
      } else {
        UpdateRound(s, c);
      }
    }
  }

  // ----- a round of the ServiceImport controller -----

  function Work(r: Resolver): nat {
    match r
    case Idle => 0
    case Listing(_) => 0
    case Purging => 1
    case Settling(_, _, todo, _, rivals) => |todo| + |rivals| + 3
    case Marking(_, _, _, rivals) => |rivals| + 2
    case Publishing(_, _, _) => 1
  }

  /** Lets the resolver make its calls until it rests. */
  function Drive(s: State): State
    decreases Work(s.resolver)
  {
    if Work(s.resolver) == 0 then s else Drive(Next(s, ResolverStep(Done)))
  }

  function ResolverRound(s: State, order: seq<Cluster>): State {
    if !Enumerates(order, s.exports) then s
    else Drive(Next(Next(s, ResolverRead), ResolverList(order)))
  }

  lemma {:induction false} DriveLeads(s: State, t: State)
    requires Leads(s, t)
    ensures Leads(s, Drive(t))
    decreases Work(t.resolver)
  {
    if Work(t.resolver) > 0 {
      LeadsOn(s, t, ResolverStep(Done));
      DriveLeads(s, Next(t, ResolverStep(Done)));
    }
  }

  lemma RoundsAreRuns(s: State, c: Cluster, order: seq<Cluster>)
    ensures Leads(s, WorkerRound(s, c))
    ensures Leads(s, ResolverRound(s, order))
  {
    assert Play(s, []) == s;
    var s1 := Next(s, WorkerRead(c));
    LeadsOn(s, s, WorkerRead(c));
    var s2 := Next(s1, WorkerStep(c, Done));
    LeadsOn(s, s1, WorkerStep(c, Done));
    var s3 := Next(s2, WorkerStep(c, Done));
    LeadsOn(s, s2, WorkerStep(c, Done));
    LeadsOn(s, s3, WorkerStep(c, Done));
    LeadsOn(s, Next(s3, WorkerStep(c, Done)), WorkerStep(c, Done));
    LeadsOn(s, s, ResolverRead);
    LeadsOn(s, Next(s, ResolverRead), ResolverList(order));
    DriveLeads(s, Next(Next(s, ResolverRead), ResolverList(order)));
  }

  /** Every listed item is the export as it is now. */
  ghost predicate Fresh(s: State, items: seq<Item>) {
    forall t :: t in items ==> t.cluster in s.exports && s.exports[t.cluster] == t.body
  }

  /** `x'` is `x` with, at most, a new verdict and version. */
  predicate SameSpec(x: Export, x': Export) {
    && x'.generation == x.generation && x'.marked == x.marked
    && x'.finalizer == x.finalizer && x'.ports == x.ports
  }

  ghost predicate SameSpecs(s: State, s': State) {
    && s'.exports.Keys == s.exports.Keys
    && (forall c :: c in s.exports ==> SameSpec(s.exports[c], s'.exports[c]))
  }

  /** Recording the same verdict on each of the items in turn. */
  function JudgeAll(s: State, items: seq<Item>, conflict: bool): State
    decreases |items|
  {
    if items == [] then s
    else
      var c := items[0].cluster;
      JudgeAll(if c in s.exports then Judged(s, c, conflict) else s, items[1..], conflict)
  }

  lemma TailDistinct(items: seq<Item>)
    requires items != [] && Distinct(ClustersOf(items))
    ensures Distinct(ClustersOf(items[1..])) && items[0].cluster !in ClustersOf(items[1..])
    ensures forall t :: t in items[1..] ==> t.cluster != items[0].cluster
    ensures forall c :: c in ClustersOf(items) <==> c == items[0].cluster || c in ClustersOf(items[1..])
  {
    assert ClustersOf(items)[1..] == ClustersOf(items[1..]);
    assert ClustersOf(items) == [items[0].cluster] + ClustersOf(items[1..]);
    forall k | 1 <= k < |items| ensures items[k].cluster != items[0].cluster {
      assert ClustersOf(items)[0] != ClustersOf(items)[k];
    }
  }

  /** `s'` is `s` with these clusters judged, and nothing else changed. */
  ghost predicate JudgedLike(s: State, s': State, clusters: seq<Cluster>, conflict: bool) {
    && SameSpecs(s, s') && s'.next >= s.next
    && s' == s.(exports := s'.exports, next := s'.next)
    && (forall c :: c in clusters ==> c in s'.exports && Agrees(s'.exports[c], conflict))
    && (forall c :: c in s.exports && c !in clusters ==> s'.exports[c] == s.exports[c])
  }

  lemma {:induction false} JudgeAllEffect(s: State, items: seq<Item>, conflict: bool)
    requires Fresh(s, items) && Distinct(ClustersOf(items))
    ensures JudgedLike(s, JudgeAll(s, items, conflict), ClustersOf(items), conflict)
    decreases |items|
  {
    if items != [] {
      var t := items[0];
      TailDistinct(items);
      var s1 := Judged(s, t.cluster, conflict);
      assert Fresh(s1, items[1..]) by {
        forall u | u in items[1..] ensures u.cluster in s1.exports && s1.exports[u.cluster] == u.body {
          assert u in items;
        }
      }
      assert SameSpecs(s, s1) && Agrees(s1.exports[t.cluster], conflict);
      JudgeAllEffect(s1, items[1..], conflict);
    }
  }

  function Published(s: State, ports: Ports, clusters: seq<Cluster>): State
    requires s.si.Some?
  {
    PutImport(s, s.si.value.(status := Status(ports, clusters)))
  }

  lemma {:induction false} DriveMarking(s: State, v: nat, ports: Ports, clusters: seq<Cluster>, rivals: seq<Item>)
    requires s.resolver == Idle && ImportIs(s.si, v)
    requires Fresh(s, rivals) && Distinct(ClustersOf(rivals))
    ensures JudgeAll(s, rivals, true).si == s.si
    ensures Drive(s.(resolver := Marking(v, ports, clusters, rivals))) ==
            Published(JudgeAll(s, rivals, true), ports, clusters)
    decreases |rivals|
  {
    JudgeAllEffect(s, rivals, true);
    var here := s.(resolver := Marking(v, ports, clusters, rivals));
    if rivals == [] {
      var there := s.(resolver := Publishing(v, ports, clusters));
      assert Next(here, ResolverStep(Done)) == there;
      assert Drive(there) == Published(s, ports, clusters);
    } else {
      var t := rivals[0];
      TailDistinct(rivals);
      assert t in rivals;
      var s1 := Judged(s, t.cluster, true);
      assert Next(here, ResolverStep(Done)) == s1.(resolver := Marking(v, ports, clusters, rivals[1..]));
      assert Fresh(s1, rivals[1..]) by {
        forall u | u in rivals[1..] ensures u.cluster in s1.exports && s1.exports[u.cluster] == u.body {
          assert u in rivals;
        }
      }
      DriveMarking(s1, v, ports, clusters, rivals[1..]);
    }
  }

  /** Judging the first item leaves the others as listed. */
  lemma FreshAfterJudging(s: State, all: seq<Item>)
    requires all != [] && Fresh(s, all) && all[0].cluster !in ClustersOf(all[1..])
    ensures Fresh(Judged(s, all[0].cluster, false), all[1..])
  {
    var s1 := Judged(s, all[0].cluster, false);
    forall u | u in all[1..] ensures u.cluster in s1.exports && s1.exports[u.cluster] == u.body {
      assert u in all;
      var k :| 0 <= k < |all[1..]| && all[1..][k] == u;
      assert ClustersOf(all[1..])[k] == u.cluster;
    }
  }

  lemma SettlingEnds(s: State, v: nat, ports: Ports, clusters: seq<Cluster>, rivals: seq<Item>)
    requires clusters != []
    ensures Drive(s.(resolver := Settling(v, ports, [], clusters, rivals))) ==
            Drive(s.(resolver := Marking(v, ports, clusters, rivals)))
  {
    var here := s.(resolver := Settling(v, ports, [], clusters, rivals));
    assert Drive(here) == Drive(Next(here, ResolverStep(Done)));
  }

  lemma SettlingMoves(s: State, v: nat, ports: Ports, todo: seq<Item>, clusters: seq<Cluster>, rivals: seq<Item>)
    requires s.resolver == Idle && todo != []
    requires todo[0].cluster in s.exports && s.exports[todo[0].cluster] == todo[0].body
    ensures Drive(s.(resolver := Settling(v, ports, todo, clusters, rivals))) ==
            Drive(Judged(s, todo[0].cluster, false).(
                  resolver := Settling(v, ports, todo[1..], clusters + [todo[0].cluster], rivals)))
  {
    var here := s.(resolver := Settling(v, ports, todo, clusters, rivals));
    assert Drive(here) == Drive(Next(here, ResolverStep(Done)));
  }

  lemma {:induction false} DriveSettling(s: State, v: nat, ports: Ports, todo: seq<Item>,
                                         clusters: seq<Cluster>, rivals: seq<Item>)
    requires s.resolver == Idle && ImportIs(s.si, v)
    requires Fresh(s, todo + rivals) && Distinct(ClustersOf(todo + rivals))
    requires clusters + ClustersOf(todo) != []
    ensures var s1 := JudgeAll(s, todo, false);
            var s2 := JudgeAll(s1, rivals, true);
            && s2.si == s.si
            && Drive(s.(resolver := Settling(v, ports, todo, clusters, rivals))) ==
               Published(s2, ports, clusters + ClustersOf(todo))
    decreases |todo|
  {
    if todo == [] {
      SettlingEnds(s, v, ports, clusters, rivals);
      assert todo + rivals == rivals;
      assert clusters + ClustersOf(todo) == clusters;
      DriveMarking(s, v, ports, clusters, rivals);
    } else {
      var t, all := todo[0], todo + rivals;
      assert all[1..] == todo[1..] + rivals;
      TailDistinct(all);
      assert t in all;
      SettlingMoves(s, v, ports, todo, clusters, rivals);
      FreshAfterJudging(s, all);
      assert clusters + ClustersOf(todo) == (clusters + [t.cluster]) + ClustersOf(todo[1..]);
      DriveSettling(Judged(s, t.cluster, false), v, ports, todo[1..], clusters + [t.cluster], rivals);
    }
  }

  /** The eligible items, split by their ports, are still one listing without repetition. */
  lemma {:induction false} SplitPartition(items: seq<Item>, ports: Ports)
    requires Distinct(ClustersOf(items))
    ensures Distinct(ClustersOf(Split(items, ports, true) + Split(items, ports, false)))
  {
    var yes, no := Split(items, ports, true), Split(items, ports, false);
    SplitDistinct(items, ports, true);
    SplitDistinct(items, ports, false);
    var both := ClustersOf(yes + no);
    assert both == ClustersOf(yes) + ClustersOf(no);
    forall i, j | 0 <= i < |yes| && 0 <= j < |no| ensures yes[i].cluster != no[j].cluster {
      assert yes[i] in yes && no[j] in no;
      var k :| 0 <= k < |items| && items[k] == yes[i];
      var m :| 0 <= m < |items| && items[m] == no[j];
      assert ClustersOf(items)[k] == yes[i].cluster && ClustersOf(items)[m] == no[j].cluster;
      assert k != m;
    }
  }

  lemma DistinctParts(yes: seq<Item>, no: seq<Item>)
    requires Distinct(ClustersOf(yes + no))
    ensures Distinct(ClustersOf(yes)) && Distinct(ClustersOf(no))
    ensures forall c :: c in ClustersOf(yes) ==> c !in ClustersOf(no)
  {
    var both := ClustersOf(yes + no);
    assert ClustersOf(yes) == both[..|yes|];
    assert ClustersOf(no) == both[|yes|..];
    forall i, j | 0 <= i < |yes| && 0 <= j < |no| ensures ClustersOf(yes)[i] != ClustersOf(no)[j] {
      assert both[i] != both[|yes| + j];
    }
  }

  /** `t` is `s` with the two lists judged and the first published, and nothing else changed. */
  ghost predicate SettledLike(s: State, t: State, ports: Ports, yes: seq<Item>, no: seq<Item>) {
    && s.si.Some?
    && SameSpecs(s, t) && t.workers == s.workers && t.resolver == s.resolver && t.next > s.next
    && t.si == Some(s.si.value.(version := t.next - 1, status := Status(ports, ClustersOf(yes))))
    && (forall c :: c in ClustersOf(yes) ==> c in t.exports && Agrees(t.exports[c], false))
    && (forall c :: c in ClustersOf(no) ==> c in t.exports && Agrees(t.exports[c], true))
    && (forall c :: c in s.exports && c !in ClustersOf(yes) && c !in ClustersOf(no) ==>
          t.exports[c] == s.exports[c])
  }

  /** Settling judges the two lists, publishes the first, and changes nothing else. */
  lemma SettledEffect(s: State, ports: Ports, yes: seq<Item>, no: seq<Item>)
    requires s.si.Some? && Fresh(s, yes + no) && Distinct(ClustersOf(yes + no))
    ensures SettledLike(s, Settled(s, ports, yes, no), ports, yes, no)
  {
    DistinctParts(yes, no);
    FreshPart(s, yes, no);
    JudgeAllEffect(s, yes, false);
    var s1 := JudgeAll(s, yes, false);
    FreshRest(s, s1, yes, no);
    JudgeAllEffect(s1, no, true);
    TwiceJudged(s, s1, JudgeAll(s1, no, true), ports, yes, no);
  }

  lemma FreshPart(s: State, yes: seq<Item>, no: seq<Item>)
    requires Fresh(s, yes + no)
    ensures Fresh(s, yes)
  {
    forall t: Item | t in yes ensures t.cluster in s.exports && s.exports[t.cluster] == t.body {
      assert t in yes + no;
    }
  }

  /** Judging the first list leaves the second as listed. */
  lemma FreshRest(s: State, s1: State, yes: seq<Item>, no: seq<Item>)
    requires Fresh(s, yes + no) && JudgedLike(s, s1, ClustersOf(yes), false)
    requires forall c :: c in ClustersOf(yes) ==> c !in ClustersOf(no)
    ensures Fresh(s1, no)
  {
    forall t: Item | t in no ensures t.cluster in s1.exports && s1.exports[t.cluster] == t.body {
      assert t in yes + no;
      var j :| 0 <= j < |no| && no[j] == t;
      assert ClustersOf(no)[j] == t.cluster;
    }
  }

  lemma TwiceJudged(s: State, s1: State, s2: State, ports: Ports, yes: seq<Item>, no: seq<Item>)
    requires s.si.Some? && JudgedLike(s, s1, ClustersOf(yes), false) && JudgedLike(s1, s2, ClustersOf(no), true)
    requires forall c :: c in ClustersOf(yes) ==> c !in ClustersOf(no)
    ensures s2.si.Some? && SettledLike(s, Published(s2, ports, ClustersOf(yes)), ports, yes, no)
  {
  }

  /** What a resolver round amounts to when the status is empty. */
  function ResolverOutcome(s: State, order: seq<Cluster>): State
    requires Enumerates(order, s.exports)
  {
    if s.si.None? || s.si.value.status.clusters != [] then s
    else
      var items := ItemsOf(order, s.exports);
      var ports := Chosen(items);
      if ports.None? then Purge(s, Done)
      else
        Settled(s, ports.value, Split(items, ports.value, true), Split(items, ports.value, false))
  }

  /** Verdicts first, the status last. */
  function Settled(s: State, ports: Ports, yes: seq<Item>, no: seq<Item>): State {
    var t := JudgeAll(JudgeAll(s, yes, false), no, true);
    if t.si.None? then t else Published(t, ports, ClustersOf(yes))
  }

  /** A current listing, split, is fresh and free of repetition, and somebody is chosen. */
  lemma ListingFacts(s: State, order: seq<Cluster>, ports: Ports)
    requires Enumerates(order, s.exports) && Chosen(ItemsOf(order, s.exports)) == Some(ports)
    ensures var items := ItemsOf(order, s.exports);
            var yes, no := Split(items, ports, true), Split(items, ports, false);
            Fresh(s, yes + no) && Distinct(ClustersOf(yes + no)) && yes != []
  {
    var items := ItemsOf(order, s.exports);
    var yes, no := Split(items, ports, true), Split(items, ports, false);
    assert ClustersOf(items) == order;
    SplitPartition(items, ports);
    ItemsAreFresh(s, order, ports);
    ChosenIsKept(items, ports);
  }

  lemma ItemsAreFresh(s: State, order: seq<Cluster>, ports: Ports)
    requires Enumerates(order, s.exports)
    ensures var items := ItemsOf(order, s.exports);
            Fresh(s, Split(items, ports, true) + Split(items, ports, false))
  {
    var items := ItemsOf(order, s.exports);
    forall t: Item | t in Split(items, ports, true) + Split(items, ports, false)
      ensures t.cluster in s.exports && s.exports[t.cluster] == t.body
    {
      assert t in items;
    }
  }

  lemma SettlingFromStart(s: State, v: nat, ports: Ports, yes: seq<Item>, no: seq<Item>)
    requires s.resolver == Idle && ImportIs(s.si, v) && yes != []
    requires Fresh(s, yes + no) && Distinct(ClustersOf(yes + no))
    ensures Drive(s.(resolver := Settling(v, ports, yes, [], no))) == Settled(s, ports, yes, no)
  {
    assert [] + ClustersOf(yes) == ClustersOf(yes);
    DriveSettling(s, v, ports, yes, [], no);
  }

  lemma ListedState(s: State, order: seq<Cluster>)
    requires s.resolver == Idle && s.si.Some? && s.si.value.status.clusters == []
    requires Enumerates(order, s.exports)
    ensures Next(Next(s, ResolverRead), ResolverList(order)) == ListExports(s, s.si.value.version, order)
  {
    var s1 := s.(resolver := Listing(s.si.value.version));
    assert Next(s, ResolverRead) == s1;
    assert Next(s1, ResolverList(order)) == ListExports(s1, s.si.value.version, order);
    ListingForgets(s, s1, s.si.value.version, order);
  }

  /** The state of the resolver before a listing does not matter. */
  lemma ListingForgets(s: State, s1: State, v: nat, order: seq<Cluster>)
    requires Enumerates(order, s.exports) && s1 == s.(resolver := s1.resolver)
    ensures ListExports(s1, v, order) == ListExports(s, v, order)
  {
  }

  lemma ResolverRoundOutcome(s: State, order: seq<Cluster>)
    requires Calm(s) && Inv(s) && Enumerates(order, s.exports)
    ensures ResolverRound(s, order) == ResolverOutcome(s, order)
  {
    if s.si.Some? && s.si.value.status.clusters == [] {
      var items := ItemsOf(order, s.exports);
      var ports := Chosen(items);
      ListedState(s, order);
      if ports.Some? {
        ListingFacts(s, order, ports.value);
        SettlingFromStart(s, s.si.value.version, ports.value,
                          Split(items, ports.value, true), Split(items, ports.value, false));
      } else {
        var s2 := s.(resolver := Purging);
        assert Drive(s2) == Drive(Next(s2, ResolverStep(Done)));
      }
    }
  }
}
