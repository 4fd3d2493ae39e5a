/** The export half of the hub: the InternalServiceExport controller (one worker per cluster)
    and the ServiceImport controller (the resolver), interleaved call by call over a store of
    versioned objects. One Service is modelled; its exports are keyed by member cluster.

    Every API call is one event. An event that is not possible in a state leaves it unchanged,
    so every sequence of events is a run. */
module ExportMachine {
  import opened Api
  import opened ImportStatus

  /** The ServiceImport; `held` says that another controller keeps a finalizer on it. */
  datatype Import = Import(version: nat, marked: bool, held: bool, status: Status)

  /** What the export controller does next for one cluster; `x` and `i` are the objects it
      holds in memory. A cluster whose reconcile is over has no worker. */
  datatype Worker =
    | AddFinalizer(x: Export)
    | FetchImport(x: Export)
    | CreateImport(x: Export)
    | Admit(x: Export, i: Import)
    | Expel(x: Export, i: Import)
    | Judge(x: Export, conflict: bool)
    | FetchForDelete(x: Export)
    | ExpelForDelete(x: Export, i: Import)
    | DropFinalizer(x: Export)

  /** What the ServiceImport controller does next; `v` is the version it read. */
  datatype Resolver =
    | Idle
    | Listing(v: nat)
    | Purging
    | Settling(v: nat, ports: Ports, todo: seq<Item>, clusters: seq<Cluster>, rivals: seq<Item>)
    | Marking(v: nat, ports: Ports, clusters: seq<Cluster>, rivals: seq<Item>)
    | Publishing(v: nat, ports: Ports, clusters: seq<Cluster>)

  datatype State = State(
    next: nat,
    si: Option<Import>,
    exports: map<Cluster, Export>,
    resolver: Resolver,
    workers: map<Cluster, Worker>)

  datatype Event =
    // member clusters
    | MemberCreate(c: Cluster, ports: Ports)
    | MemberUpdate(c: Cluster, ports: Ports)
    | MemberDelete(c: Cluster)
    // other controllers acting on the ServiceImport's metadata
    | ForeignHold
    | ForeignRelease
    | ForeignTouch
    // the export controller
    | WorkerRead(c: Cluster)
    | WorkerStep(c: Cluster, reply: Reply)
    // the ServiceImport controller
    | ResolverRead
    | ResolverList(order: seq<Cluster>)
    | ResolverStep(reply: Reply)
    | ResolverAbort

  const Init := State(0, None, map[], Idle, map[])

  function Run(es: seq<Event>): State {
    if es == [] then Init else Next(Run(es[..|es| - 1]), es[|es| - 1])
  }

  function Next(s: State, e: Event): State {
    match e
    case MemberCreate(c, ports) =>
      if c in s.exports || ports == [] then s
      else PutExport(s, c, Export(s.next, 1, false, false, ports, None))
    case MemberUpdate(c, ports) =>
      if c !in s.exports || ports == [] then s
      else PutExport(s, c, s.exports[c].(generation := s.exports[c].generation + 1, ports := ports))
    case MemberDelete(c) =>
      if c !in s.exports || s.exports[c].marked then s
      else if s.exports[c].finalizer then PutExport(s, c, s.exports[c].(marked := true))
      else s.(exports := s.exports - {c})
    case ForeignHold =>
      if s.si.None? || s.si.value.marked then s else PutImport(s, s.si.value.(held := true))
    case ForeignRelease =>
      if s.si.None? || !s.si.value.held then s
      else if s.si.value.marked then s.(si := None)
      else PutImport(s, s.si.value.(held := false))
    case ForeignTouch =>
      if s.si.None? then s else PutImport(s, s.si.value)
    case WorkerRead(c) => BeginWorker(s, c)
    case WorkerStep(c, reply) => if c in s.workers then StepWorker(s, c, s.workers[c], reply) else s
    case ResolverRead =>
      if s.resolver != Idle || s.si.None? || s.si.value.status.clusters != [] then s
      else s.(resolver := Listing(s.si.value.version))
    case ResolverList(order) =>
      if s.resolver.Listing? && Enumerates(order, s.exports) then ListExports(s, s.resolver.v, order) else s
    case ResolverStep(reply) => StepResolver(s, reply)
    case ResolverAbort => s.(resolver := Idle)
  }

  // ----- the store -----

  function PutExport(s: State, c: Cluster, x: Export): State {
    s.(exports := s.exports[c := x.(version := s.next)], next := s.next + 1)
  }

  function PutImport(s: State, i: Import): State {
    s.(si := Some(i.(version := s.next)), next := s.next + 1)
  }

  /** The export object of `c` is still the one with this version. */
  predicate ExportIs(s: State, c: Cluster, version: nat) {
    c in s.exports && s.exports[c].version == version
  }

  predicate ImportIs(si: Option<Import>, version: nat) {
    si.Some? && si.value.version == version
  }

  /** `order` names every export once; the API server lists them in no promised order. */
  predicate Enumerates(order: seq<Cluster>, exports: map<Cluster, Export>) {
    (forall c :: c in order ==> c in exports) &&
    (forall c :: c in exports ==> c in order) &&
    (forall i, j :: 0 <= i < j < |order| ==> order[i] != order[j])
  }

  // ----- the export controller -----

  function Rest(s: State, c: Cluster): State {
    s.(workers := s.workers - {c})
  }

  function Go(s: State, c: Cluster, w: Worker): State {
    s.(workers := s.workers[c := w])
  }

  /** Reading the export and choosing between the update and the delete path. */
  function BeginWorker(s: State, c: Cluster): State {
    if c in s.workers || c !in s.exports then s
    else
      var x := s.exports[c];
      if x.marked then (if x.finalizer then Go(s, c, FetchForDelete(x)) else s)
      else Go(s, c, if x.finalizer then FetchImport(x) else AddFinalizer(x))
  }

  function StepWorker(s: State, c: Cluster, w: Worker, reply: Reply): State {
    if reply.Failed? then Rest(s, c)
    else
      match w
      case AddFinalizer(x) =>
        if !ExportIs(s, c, x.version) then Rest(s, c)
        else
          var s' := PutExport(s, c, s.exports[c].(finalizer := true));
          if reply.Lost? then Rest(s', c) else Go(s', c, FetchImport(s'.exports[c]))
      case FetchImport(x) => Fetched(s, c, x)
      case CreateImport(x) =>
        if s.si.Some? then Rest(s, c)
        else Rest(PutImport(s, Import(s.next, false, false, EmptyStatus)), c)
      case Admit(x, i) =>
        var st := Added(i.status, c);
        if st == i.status then Go(s, c, Judge(x, false))
        else if !ImportIs(s.si, i.version) then Rest(s, c)
        else
          var s' := PutImport(s, s.si.value.(status := st));
          if reply.Lost? then Rest(s', c) else Go(s', c, Judge(x, false))
      case Expel(x, i) =>
        var st := Removed(i.status, c);
        if st == i.status then Go(s, c, Judge(x, true))
        else if !ImportIs(s.si, i.version) then Rest(s, c)
        else
          var s' := PutImport(s, s.si.value.(status := st));
          if reply.Lost? || st.ports == [] then Rest(s', c) else Go(s', c, Judge(x, true))
      case Judge(x, conflict) =>
        if Agrees(x, conflict) || !ExportIs(s, c, x.version) then Rest(s, c)
        else Rest(PutExport(s, c, WithVerdict(s.exports[c], conflict)), c)
      case FetchForDelete(x) =>
        if s.si.None? then Go(s, c, DropFinalizer(x))
        else if s.si.value.status.ports == [] then Rest(s, c)
        else Go(s, c, ExpelForDelete(x, s.si.value))
      case ExpelForDelete(x, i) =>
        var st := Removed(i.status, c);
        if st == i.status then Go(s, c, DropFinalizer(x))
        else if !ImportIs(s.si, i.version) then Rest(s, c)
        else
          var s' := PutImport(s, s.si.value.(status := st));
          if reply.Lost? then Rest(s', c) else Go(s', c, DropFinalizer(x))
      case DropFinalizer(x) =>
        if !ExportIs(s, c, x.version) then Rest(s, c)
        else if s.exports[c].marked then Rest(s.(exports := s.exports - {c}), c)
        else Rest(PutExport(s, c, s.exports[c].(finalizer := false)), c)
  }

  /** The update path once the ServiceImport has been fetched. */
  function Fetched(s: State, c: Cluster, x: Export): State {
    if s.si.None? then Go(s, c, CreateImport(x))
    else if s.si.value.status.ports == [] then Rest(s, c)
    else if s.si.value.status.ports == x.ports then Go(s, c, Admit(x, s.si.value))
    else Go(s, c, Expel(x, s.si.value))
  }

  // ----- the ServiceImport controller -----

  function ItemsOf(order: seq<Cluster>, exports: map<Cluster, Export>): (r: seq<Item>)
    requires forall c :: c in order ==> c in exports
    ensures |r| == |order|
    ensures forall i :: 0 <= i < |order| ==> r[i] == Item(order[i], exports[order[i]])
  {
    seq(|order|, i requires 0 <= i < |order| => Item(order[i], exports[order[i]]))
  }

  function ListExports(s: State, v: nat, order: seq<Cluster>): State
    requires Enumerates(order, s.exports)
  {
    var items := ItemsOf(order, s.exports);
    var ports := Chosen(items);
    s.(resolver :=
    if ports.None? then Purging
    else Settling(v, ports.value, Split(items, ports.value, true), [], Split(items, ports.value, false)))
  }

  function StepResolver(s: State, reply: Reply): State {
    match s.resolver
    case Idle => s
    case Listing(_) => s
    case Purging => Purge(s, reply).(resolver := Idle)
    case Settling(v, ports, todo, clusters, rivals) =>
      if todo == [] then s.(resolver := if clusters == [] then Idle else Marking(v, ports, clusters, rivals))
      else
        var t := todo[0];
        var skip := Settling(v, ports, todo[1..], clusters, rivals);
        var keep := Settling(v, ports, todo[1..], clusters + [t.cluster], rivals);
        if Agrees(t.body, false) then s.(resolver := keep)
        else if reply.Failed? then s.(resolver := Idle)
        else if t.cluster !in s.exports then s.(resolver := skip)
        else if !ExportIs(s, t.cluster, t.body.version) then s.(resolver := Idle)
        else
          PutExport(s, t.cluster, WithVerdict(s.exports[t.cluster], false))
          .(resolver := if reply.Lost? then Idle else keep)
    case Marking(v, ports, clusters, rivals) =>
      if rivals == [] then s.(resolver := Publishing(v, ports, clusters))
      else
        var t := rivals[0];
        var on := Marking(v, ports, clusters, rivals[1..]);
        if Agrees(t.body, true) then s.(resolver := on)
        else if reply.Failed? || !ExportIs(s, t.cluster, t.body.version) then s.(resolver := Idle)
        else
          PutExport(s, t.cluster, WithVerdict(s.exports[t.cluster], true))
          .(resolver := if reply.Lost? then Idle else on)
    case Publishing(v, ports, clusters) =>
      if reply.Failed? || !ImportIs(s.si, v) then s.(resolver := Idle)
      else PutImport(s, s.si.value.(status := Status(ports, clusters))).(resolver := Idle)
  }

  /** Deleting the ServiceImport; the call carries no version. */
  function Purge(s: State, reply: Reply): State {
    if reply.Failed? || s.si.None? || s.si.value.marked then s
    else if s.si.value.held then PutImport(s, s.si.value.(marked := true))
    else s.(si := None)
  }
}
