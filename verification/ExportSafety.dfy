/** The safety invariant of the export machine and its preservation by every event. */
module ExportSafety {
  import opened Api
  import opened ImportStatus
  import opened ExportMachine

  type Exports = map<Cluster, Export>

  function Listed(si: Option<Import>): seq<Cluster> {
    if si.None? then [] else si.value.status.clusters
  }

  /** The export of `c` exists and carries the hub's finalizer. */
  predicate Held(exports: Exports, c: Cluster) {
    c in exports && exports[c].finalizer
  }

  predicate Dying(exports: Exports, c: Cluster) {
    Held(exports, c) && exports[c].marked
  }

  /** No listed cluster dangles: its export is there and cannot vanish unnoticed. */
  ghost predicate NoDangling(si: Option<Import>, exports: Exports) {
    forall c :: c in Listed(si) ==> Held(exports, c)
  }

  /** The version the resolver is going to compare against, if it has read one. */
  function ResolverVersion(r: Resolver): Option<nat> {
    match r
    case Idle => None
    case Purging => None
    case Listing(v) => Some(v)
    case Settling(v, _, _, _, _) => Some(v)
    case Marking(v, _, _, _) => Some(v)
    case Publishing(v, _, _) => Some(v)
  }

  function ResolverPorts(r: Resolver): Option<Ports> {
    match r
    case Settling(_, ports, _, _, _) => Some(ports)
    case Marking(_, ports, _, _) => Some(ports)
    case Publishing(_, ports, _) => Some(ports)
    case _ => None
  }

  /** The clusters the resolver intends to list. */
  function Picked(r: Resolver): seq<Cluster> {
    match r
    case Settling(_, _, todo, clusters, _) => clusters + ClustersOf(todo)
    case Marking(_, _, clusters, _) => clusters
    case Publishing(_, _, clusters) => clusters
    case _ => []
  }

  /** The resolver's write, should it come to that, will still find the version it read. */
  predicate Live(si: Option<Import>, r: Resolver) {
    ResolverVersion(r).Some? && ImportIs(si, ResolverVersion(r).value)
  }

  /** `i` is a faithful copy of a resolved ServiceImport for as long as the version stands. */
  ghost predicate Snapshot(next: nat, si: Option<Import>, i: Import) {
    && i.version < next
    && WellShaped(i.status)
    && i.status.ports != []
    && (ImportIs(si, i.version) ==> si.value.status == i.status)
  }

  /** `c` is beyond the resolver's reach: either not picked, or the pick is already void. */
  ghost predicate Unreachable(si: Option<Import>, r: Resolver, c: Cluster) {
    c in Picked(r) ==> !Live(si, r)
  }

  ghost predicate WorkerOk(next: nat, si: Option<Import>, exports: Exports, r: Resolver, c: Cluster, w: Worker) {
    match w
    case AddFinalizer(x) =>
      x.version < next && !x.marked && (c in exports && exports[c].version == x.version ==> exports[c] == x)
    case FetchImport(x) => Held(exports, c)
    case CreateImport(x) => Held(exports, c)
    case Admit(x, i) => Held(exports, c) && Snapshot(next, si, i) && i.status.ports == x.ports
    case Expel(x, i) => Held(exports, c) && Snapshot(next, si, i)
    case Judge(x, _) => Held(exports, c)
    case FetchForDelete(x) => Dying(exports, c)
    case ExpelForDelete(x, i) =>
      && Dying(exports, c) && Snapshot(next, si, i) && Unreachable(si, r, c)
      && (c !in i.status.clusters ==> c !in Listed(si))
    case DropFinalizer(x) => Dying(exports, c) && Unreachable(si, r, c) && c !in Listed(si)
  }

  ghost predicate WorkersOk(s: State) {
    forall c :: c in s.workers ==> WorkerOk(s.next, s.si, s.exports, s.resolver, c, s.workers[c])
  }

  ghost predicate ImportOk(next: nat, si: Option<Import>) {
    si.Some? ==>
      && si.value.version < next
      && WellShaped(si.value.status)
      && (si.value.marked ==> si.value.held)
  }

  ghost predicate ExportsOk(next: nat, exports: Exports) {
    forall c :: c in exports ==>
      && exports[c].version < next
      && exports[c].ports != []
      && (exports[c].marked ==> exports[c].finalizer)
  }

  /** While the resolver is at work the status is empty: only the resolver fills it, and the
      workers touch only a resolved one. Its picks stay held while its read is current. */
  ghost predicate ResolverOk(next: nat, si: Option<Import>, exports: Exports, r: Resolver) {
    && (r != Idle ==> Listed(si) == [])
    && (ResolverVersion(r).Some? ==> ResolverVersion(r).value < next)
    && (ResolverPorts(r).Some? ==> ResolverPorts(r).value != [])
    && (r.Marking? || r.Publishing? ==> r.clusters != [])
    && Distinct(Picked(r))
    && (Live(si, r) ==> forall c :: c in Picked(r) ==> Held(exports, c))
  }

  ghost predicate Inv(s: State) {
    && ImportOk(s.next, s.si)
    && ExportsOk(s.next, s.exports)
    && NoDangling(s.si, s.exports)
    && ResolverOk(s.next, s.si, s.exports, s.resolver)
    && WorkersOk(s)
  }

  // ----- preservation -----

  /** What a change to the export objects must respect. */
  ghost predicate ExportsKept(s: State, s': State) {
    && s'.si == s.si && s'.resolver == s.resolver && s'.next >= s.next
    && (forall c :: Held(s.exports, c) ==> Held(s'.exports, c))
    && (forall c :: Dying(s.exports, c) ==> Dying(s'.exports, c))
    && (forall c :: c in s'.exports ==>
          s'.exports[c].version >= s.next || (c in s.exports && s'.exports[c] == s.exports[c]))
  }

  lemma ExportChange(s: State, s': State)
    requires Inv(s) && ExportsOk(s'.next, s'.exports) && ExportsKept(s, s')
    requires s'.workers == s.workers
    ensures Inv(s')
  {
    forall c | c in s'.workers ensures WorkerOk(s'.next, s'.si, s'.exports, s'.resolver, c, s'.workers[c]) {
      assert WorkerOk(s.next, s.si, s.exports, s.resolver, c, s.workers[c]);
    }
  }

  lemma MemberKeepsInv(s: State, e: Event)
    requires Inv(s) && (e.MemberCreate? || e.MemberUpdate? || e.MemberDelete?)
    ensures Inv(Next(s, e))
  {
    ExportChange(s, Next(s, e));
  }

  lemma ForeignKeepsInv(s: State, e: Event)
    requires Inv(s) && (e.ForeignHold? || e.ForeignRelease? || e.ForeignTouch?)
    ensures Inv(Next(s, e))
  {
    var s' := Next(s, e);
    forall c | c in s'.workers ensures WorkerOk(s'.next, s'.si, s'.exports, s'.resolver, c, s'.workers[c]) {
      assert WorkerOk(s.next, s.si, s.exports, s.resolver, c, s.workers[c]);
    }
  }

  lemma ReadKeepsInv(s: State, c: Cluster)
    requires Inv(s)
    ensures Inv(Next(s, WorkerRead(c)))
  {
    var s' := Next(s, WorkerRead(c));
    forall d | d in s'.workers ensures WorkerOk(s'.next, s'.si, s'.exports, s'.resolver, d, s'.workers[d]) {
      if d in s.workers {
        assert WorkerOk(s.next, s.si, s.exports, s.resolver, d, s.workers[d]);
      }
    }
  }

  /** Replacing or dropping the worker of one cluster disturbs nothing else. */
  lemma WorkerMoves(s: State, c: Cluster, w: Worker)
    requires Inv(s)
    ensures Inv(Rest(s, c))
    ensures WorkerOk(s.next, s.si, s.exports, s.resolver, c, w) ==> Inv(Go(s, c, w))
  {
  }

  /** A status write on behalf of `c`, from a current copy of a resolved import. */
  lemma StatusWrite(s: State, c: Cluster, i: Import, st: Status)
    requires Inv(s) && Held(s.exports, c)
    requires Snapshot(s.next, s.si, i) && ImportIs(s.si, i.version)
    requires st == Added(i.status, c) || st == Removed(i.status, c)
    ensures Inv(Rest(PutImport(s, s.si.value.(status := st)), c))
  {
    var s' := Rest(PutImport(s, s.si.value.(status := st)), c);
    AddedKeepsShape(i.status, c);
    RemovedKeepsShape(i.status, c);
    forall d | d in s'.workers ensures WorkerOk(s'.next, s'.si, s'.exports, s'.resolver, d, s'.workers[d]) {
      assert WorkerOk(s.next, s.si, s.exports, s.resolver, d, s.workers[d]);
    }
  }

  lemma ExportWrite(s: State, c: Cluster, x: Export)
    requires Inv(s) && c in s.exports
    requires x.ports != [] && (x.marked ==> x.finalizer)
    requires s.exports[c].finalizer ==> x.finalizer
    requires s.exports[c].marked ==> x.marked
    ensures Inv(PutExport(s, c, x))
  {
    ExportChange(s, PutExport(s, c, x));
  }

  lemma FinalizerStepKeepsInv(s: State, c: Cluster, reply: Reply)
    requires Inv(s) && c in s.workers && !reply.Failed? && s.workers[c].AddFinalizer?
    ensures Inv(Next(s, WorkerStep(c, reply)))
  {
    var w := s.workers[c];
    WorkerMoves(s, c, w);
    if ExportIs(s, c, w.x.version) {
      var y := s.exports[c].(finalizer := true);
      ExportWrite(s, c, y);
      var t := PutExport(s, c, y);
      WorkerMoves(t, c, FetchImport(t.exports[c]));
    }
  }

  lemma FetchStepKeepsInv(s: State, c: Cluster, reply: Reply)
    requires Inv(s) && c in s.workers && !reply.Failed?
    requires s.workers[c].FetchImport? || s.workers[c].CreateImport?
    ensures Inv(Next(s, WorkerStep(c, reply)))
  {
    var w, s' := s.workers[c], Next(s, WorkerStep(c, reply));
    forall d | d in s'.workers
      ensures WorkerOk(s'.next, s'.si, s'.exports, s'.resolver, d, s'.workers[d])
    {
      assert WorkerOk(s.next, s.si, s.exports, s.resolver, d, s.workers[d]);
    }
  }

  /** Writing a status and moving on; `Go` after the write equals `Go` after write and rest. */
  lemma StatusWriteAndGo(s: State, c: Cluster, i: Import, st: Status, w: Worker)
    requires Inv(s) && Held(s.exports, c) && c in s.workers
    requires Snapshot(s.next, s.si, i) && ImportIs(s.si, i.version)
    requires st == Added(i.status, c) || st == Removed(i.status, c)
    requires w.Judge? || (w.DropFinalizer? && Dying(s.exports, c) && st == Removed(i.status, c))
    ensures Inv(Go(PutImport(s, s.si.value.(status := st)), c, w))
  {
    var t := PutImport(s, s.si.value.(status := st));
    StatusWrite(s, c, i, st);
    RemovedKeepsShape(i.status, c);
    WorkerMoves(Rest(t, c), c, w);
    assert Go(Rest(t, c), c, w) == Go(t, c, w);
  }

  lemma AdmitStepKeepsInv(s: State, c: Cluster, reply: Reply)
    requires Inv(s) && c in s.workers && !reply.Failed?
    requires s.workers[c].Admit? || s.workers[c].Expel?
    ensures Inv(Next(s, WorkerStep(c, reply)))
  {
    var w := s.workers[c];
    var conflict := w.Expel?;
    var st := if conflict then Removed(w.i.status, c) else Added(w.i.status, c);
    WorkerMoves(s, c, Judge(w.x, conflict));
    if ImportIs(s.si, w.i.version) {
      StatusWrite(s, c, w.i, st);
      StatusWriteAndGo(s, c, w.i, st, Judge(w.x, conflict));
    }
  }

  lemma JudgeStepKeepsInv(s: State, c: Cluster, reply: Reply)
    requires Inv(s) && c in s.workers && !reply.Failed? && s.workers[c].Judge?
    ensures Inv(Next(s, WorkerStep(c, reply)))
  {
    var w := s.workers[c];
    WorkerMoves(s, c, w);
    if ExportIs(s, c, w.x.version) {
      ExportWrite(s, c, WithVerdict(s.exports[c], w.conflict));
      WorkerMoves(PutExport(s, c, WithVerdict(s.exports[c], w.conflict)), c, w);
    }
  }

  lemma DeleteStepKeepsInv(s: State, c: Cluster, reply: Reply)
    requires Inv(s) && c in s.workers && !reply.Failed?
    requires var w := s.workers[c]; w.FetchForDelete? || w.ExpelForDelete?
    ensures Inv(Next(s, WorkerStep(c, reply)))
  {
    var w, s' := s.workers[c], Next(s, WorkerStep(c, reply));
    assert WorkerOk(s.next, s.si, s.exports, s.resolver, c, w);
    WorkerMoves(s, c, w);
    match w
    case FetchForDelete(x) =>
      WorkerMoves(s, c, DropFinalizer(x));
      if s.si.Some? {
        WorkerMoves(s, c, ExpelForDelete(x, s.si.value));
      }
    case ExpelForDelete(x, i) =>
      WorkerMoves(s, c, DropFinalizer(x));
      RemovedKeepsShape(i.status, c);
      if ImportIs(s.si, i.version) {
        var st := Removed(i.status, c);
        StatusWrite(s, c, i, st);
        StatusWriteAndGo(s, c, i, st, DropFinalizer(x));
      }
  }

  /** The dangerous step: the finalizer goes, and with it the export. */
  lemma DropKeepsInv(s: State, c: Cluster, reply: Reply)
    requires Inv(s) && c in s.workers && s.workers[c].DropFinalizer?
    ensures Inv(Next(s, WorkerStep(c, reply)))
  {
    var s' := Next(s, WorkerStep(c, reply));
    assert WorkerOk(s.next, s.si, s.exports, s.resolver, c, s.workers[c]);
    forall d | d in s'.workers ensures WorkerOk(s'.next, s'.si, s'.exports, s'.resolver, d, s'.workers[d]) {
      assert WorkerOk(s.next, s.si, s.exports, s.resolver, d, s.workers[d]);
    }
  }

  /** The items that split off are exports with these ports. */
  lemma PickedIsEligible(order: seq<Cluster>, exports: Exports, ports: Ports, c: Cluster)
    requires Enumerates(order, exports) && c in ClustersOf(Split(ItemsOf(order, exports), ports, true))
    ensures c in exports && Eligible(exports[c]) && exports[c].ports == ports
  {
    var todo := Split(ItemsOf(order, exports), ports, true);
    var k :| 0 <= k < |todo| && ClustersOf(todo)[k] == c;
    assert todo[k] in ItemsOf(order, exports);
  }

  lemma EligibleIsPicked(order: seq<Cluster>, exports: Exports, ports: Ports, c: Cluster)
    requires Enumerates(order, exports) && c in exports && Eligible(exports[c]) && exports[c].ports == ports
    ensures c in ClustersOf(Split(ItemsOf(order, exports), ports, true))
  {
    var items := ItemsOf(order, exports);
    var todo := Split(items, ports, true);
    var k :| 0 <= k < |order| && order[k] == c;
    assert items[k] in todo;
    var j :| 0 <= j < |todo| && todo[j] == items[k];
    assert ClustersOf(todo)[j] == c;
  }

  /** What a fresh listing picks: distinct, eligible, all with the chosen (nonempty) ports. */
  lemma PicksAreEligible(order: seq<Cluster>, exports: Exports, next: nat)
    requires Enumerates(order, exports) && ExportsOk(next, exports)
    ensures var items := ItemsOf(order, exports);
            var ports := Chosen(items);
            ports.Some? ==>
              && ports.value != []
              && Distinct(ClustersOf(Split(items, ports.value, true)))
              && (forall c :: c in ClustersOf(Split(items, ports.value, true)) <==>
                    c in exports && Eligible(exports[c]) && exports[c].ports == ports.value)
  {
    var items := ItemsOf(order, exports);
    var ports := Chosen(items);
    assert ClustersOf(items) == order;
    if ports.Some? {
      SplitDistinct(items, ports.value, true);
      forall c | c in ClustersOf(Split(items, ports.value, true))
        ensures c in exports && Eligible(exports[c]) && exports[c].ports == ports.value
      {
        PickedIsEligible(order, exports, ports.value, c);
      }
      forall c | c in exports && Eligible(exports[c]) && exports[c].ports == ports.value
        ensures c in ClustersOf(Split(items, ports.value, true))
      {
        EligibleIsPicked(order, exports, ports.value, c);
      }
      var t :| t in items && Eligible(t.body) && t.body.ports == ports.value;
    }
  }

  /** The resolver takes up a new set of picks, none of them on its way out. */
  lemma ResolverPicks(s: State, r: Resolver)
    requires Inv(s) && ResolverOk(s.next, s.si, s.exports, r)
    requires forall c :: c in Picked(r) ==> !Dying(s.exports, c)
    ensures Inv(s.(resolver := r))
  {
    forall d | d in s.workers ensures WorkerOk(s.next, s.si, s.exports, r, d, s.workers[d]) {
      assert WorkerOk(s.next, s.si, s.exports, s.resolver, d, s.workers[d]);
    }
  }

  /** Taking up picks that are eligible right now. */
  lemma SettlingStarts(s: State, v: nat, ports: Ports, todo: seq<Item>, rivals: seq<Item>)
    requires Inv(s) && s.resolver == Listing(v) && ports != [] && Distinct(ClustersOf(todo))
    requires forall c :: c in ClustersOf(todo) ==> c in s.exports && Eligible(s.exports[c])
    ensures Inv(s.(resolver := Settling(v, ports, todo, [], rivals)))
  {
    var r := Settling(v, ports, todo, [], rivals);
    assert Picked(r) == ClustersOf(todo);
    ResolverPicks(s, r);
  }

  /** What a listing makes of the resolver. */
  lemma ListedKeepsInv(s: State, v: nat, order: seq<Cluster>)
    requires Inv(s) && s.resolver == Listing(v) && Enumerates(order, s.exports)
    ensures Inv(ListExports(s, v, order))
  {
    var items := ItemsOf(order, s.exports);
    var ports := Chosen(items);
    PicksAreEligible(order, s.exports, s.next);
    if ports.None? {
      ResolverPicks(s, Purging);
    } else {
      SettlingStarts(s, v, ports.value, Split(items, ports.value, true), Split(items, ports.value, false));
    }
  }

  lemma ListKeepsInv(s: State, order: seq<Cluster>)
    requires Inv(s)
    ensures Inv(Next(s, ResolverList(order)))
  {
    if s.resolver.Listing? && Enumerates(order, s.exports) {
      ListedKeepsInv(s, s.resolver.v, order);
    }
  }

  /** The resolver narrows its picks, or stops. */
  lemma ResolverMoves(s: State, r: Resolver)
    requires Inv(s) && ResolverOk(s.next, s.si, s.exports, r)
    requires forall c :: c in Picked(r) ==> c in Picked(s.resolver)
    requires Picked(r) != [] ==> ResolverVersion(r) == ResolverVersion(s.resolver)
    ensures Inv(s.(resolver := r))
  {
    var s' := s.(resolver := r);
    forall d | d in s'.workers ensures WorkerOk(s'.next, s'.si, s'.exports, s'.resolver, d, s'.workers[d]) {
      assert WorkerOk(s.next, s.si, s.exports, s.resolver, d, s.workers[d]);
    }
  }

  /** Moving the first pick over, or leaving it out, keeps the picks distinct. */
  lemma SettlePicks(v: nat, ports: Ports, todo: seq<Item>, clusters: seq<Cluster>, rivals: seq<Item>)
    requires todo != []
    ensures Picked(Settling(v, ports, todo[1..], clusters + [todo[0].cluster], rivals)) ==
            Picked(Settling(v, ports, todo, clusters, rivals))
    ensures var now := Picked(Settling(v, ports, todo, clusters, rivals));
            var left := Picked(Settling(v, ports, todo[1..], clusters, rivals));
            && (forall c :: c in left ==> c in now)
            && (Distinct(now) ==> Distinct(left))
  {
    var now := Picked(Settling(v, ports, todo, clusters, rivals));
    var left := Picked(Settling(v, ports, todo[1..], clusters, rivals));
    assert left == now[..|clusters|] + now[|clusters| + 1..];
  }

  lemma SettleKeepsInv(s: State, reply: Reply)
    requires Inv(s) && s.resolver.Settling?
    ensures Inv(Next(s, ResolverStep(reply)))
  {
    ResolverMoves(s, Idle);
    if s.resolver.todo == [] {
      assert Picked(s.resolver) == s.resolver.clusters;
      ResolverMoves(s, Next(s, ResolverStep(reply)).resolver);
    } else {
      SettleOneKeepsInv(s, reply);
    }
  }

  /** The possible ends of settling one item: on to `keep`, past it to `skip`, or a stop, the
      first and the last perhaps after the verdict has been written. */
  ghost predicate SettleEnds(s: State, s': State, c: Cluster, version: nat, skip: Resolver, keep: Resolver) {
    || s' == s.(resolver := keep) || s' == s.(resolver := skip) || s' == s.(resolver := Idle)
    || (ExportIs(s, c, version) &&
        var t := PutExport(s, c, WithVerdict(s.exports[c], false));
        s' == t.(resolver := keep) || s' == t.(resolver := Idle))
  }

  lemma SettleOneStep(s: State, reply: Reply)
    requires s.resolver.Settling? && s.resolver.todo != []
    ensures var Settling(v, ports, todo, clusters, rivals) := s.resolver;
            SettleEnds(s, StepResolver(s, reply), todo[0].cluster, todo[0].body.version,
                       Settling(v, ports, todo[1..], clusters, rivals),
                       Settling(v, ports, todo[1..], clusters + [todo[0].cluster], rivals))
  {
  }

  lemma SettleOneKeepsInv(s: State, reply: Reply)
    requires Inv(s) && Inv(s.(resolver := Idle)) && s.resolver.Settling? && s.resolver.todo != []
    ensures Inv(Next(s, ResolverStep(reply)))
  {
    var Settling(v, ports, todo, clusters, rivals) := s.resolver;
    var c := todo[0].cluster;
    var skip := Settling(v, ports, todo[1..], clusters, rivals);
    var keep := Settling(v, ports, todo[1..], clusters + [c], rivals);
    SettleOneStep(s, reply);
    NarrowerPicks(s, v, ports, todo, clusters, rivals);
    if c in s.exports {
      VerdictWrite(s, c, false, keep);
    }
  }

  lemma NarrowerPicks(s: State, v: nat, ports: Ports, todo: seq<Item>, clusters: seq<Cluster>, rivals: seq<Item>)
    requires Inv(s) && s.resolver == Settling(v, ports, todo, clusters, rivals) && todo != []
    ensures Inv(s.(resolver := Settling(v, ports, todo[1..], clusters, rivals)))
    ensures Inv(s.(resolver := Settling(v, ports, todo[1..], clusters + [todo[0].cluster], rivals)))
  {
    SettlePicks(v, ports, todo, clusters, rivals);
    ResolverMoves(s, Settling(v, ports, todo[1..], clusters, rivals));
    ResolverMoves(s, Settling(v, ports, todo[1..], clusters + [todo[0].cluster], rivals));
  }

  /** The resolver records a verdict and moves on or stops. */
  lemma VerdictWrite(s: State, c: Cluster, conflict: bool, r: Resolver)
    requires Inv(s) && c in s.exports
    requires Inv(s.(resolver := r)) && Inv(s.(resolver := Idle))
    ensures Inv(PutExport(s, c, WithVerdict(s.exports[c], conflict)).(resolver := r))
    ensures Inv(PutExport(s, c, WithVerdict(s.exports[c], conflict)).(resolver := Idle))
  {
    ExportWrite(s.(resolver := r), c, WithVerdict(s.exports[c], conflict));
    ExportWrite(s.(resolver := Idle), c, WithVerdict(s.exports[c], conflict));
  }

  lemma MarkKeepsInv(s: State, reply: Reply)
    requires Inv(s) && s.resolver.Marking?
    ensures Inv(Next(s, ResolverStep(reply)))
  {
    var s' := Next(s, ResolverStep(reply));
    ResolverMoves(s, Idle);
    if s.resolver.rivals == [] {
      ResolverMoves(s, s'.resolver);
    } else {
      var t := s.resolver.rivals[0];
      var on := Marking(s.resolver.v, s.resolver.ports, s.resolver.clusters, s.resolver.rivals[1..]);
      ResolverMoves(s, on);
      if ExportIs(s, t.cluster, t.body.version) {
        VerdictWrite(s, t.cluster, true, on);
      }
    }
  }

  lemma PublishKeepsInv(s: State, reply: Reply)
    requires Inv(s) && (s.resolver.Publishing? || s.resolver.Purging?)
    ensures Inv(Next(s, ResolverStep(reply)))
  {
    var s' := Next(s, ResolverStep(reply));
    forall d | d in s'.workers ensures WorkerOk(s'.next, s'.si, s'.exports, s'.resolver, d, s'.workers[d]) {
      assert WorkerOk(s.next, s.si, s.exports, s.resolver, d, s.workers[d]);
    }
  }

  lemma ResolverStartKeepsInv(s: State)
    requires Inv(s)
    ensures Inv(Next(s, ResolverRead)) && Inv(Next(s, ResolverAbort))
  {
    ResolverMoves(s, Idle);
    ResolverMoves(s, Next(s, ResolverRead).resolver);
  }

  lemma NextKeepsInv(s: State, e: Event)
    requires Inv(s)
    ensures Inv(Next(s, e))
  {
    match e
    case MemberCreate(_, _) => MemberKeepsInv(s, e);
    case MemberUpdate(_, _) => MemberKeepsInv(s, e);
    case MemberDelete(_) => MemberKeepsInv(s, e);
    case ForeignHold => ForeignKeepsInv(s, e);
    case ForeignRelease => ForeignKeepsInv(s, e);
    case ForeignTouch => ForeignKeepsInv(s, e);
    case WorkerRead(c) => ReadKeepsInv(s, c);
    case WorkerStep(c, reply) =>
      if c in s.workers {
        var w := s.workers[c];
        if reply.Failed? {
          WorkerMoves(s, c, w);
        } else if w.DropFinalizer? {
          DropKeepsInv(s, c, reply);
        } else if w.FetchForDelete? || w.ExpelForDelete? {
          DeleteStepKeepsInv(s, c, reply);
        } else if w.AddFinalizer? {
          FinalizerStepKeepsInv(s, c, reply);
        } else if w.Judge? {
          JudgeStepKeepsInv(s, c, reply);
        } else if w.Admit? || w.Expel? {
          AdmitStepKeepsInv(s, c, reply);
        } else {
          FetchStepKeepsInv(s, c, reply);
        }
      }
    case ResolverRead => ResolverStartKeepsInv(s);
    case ResolverList(order) => ListKeepsInv(s, order);
    case ResolverStep(reply) =>
      match s.resolver {
        case Settling(_, _, _, _, _) => SettleKeepsInv(s, reply);
        case Marking(_, _, _, _) => MarkKeepsInv(s, reply);
        case Publishing(_, _, _) => PublishKeepsInv(s, reply);
        case Purging => PublishKeepsInv(s, reply);
        case _ =>
      }
    case ResolverAbort => ResolverStartKeepsInv(s);
  }

  lemma {:induction false} EveryRunIsSafe(es: seq<Event>)
    ensures Inv(Run(es))
  {
    if es != [] {
      EveryRunIsSafe(es[..|es| - 1]);
      NextKeepsInv(Run(es[..|es| - 1]), es[|es| - 1]);
    }
  }
}
