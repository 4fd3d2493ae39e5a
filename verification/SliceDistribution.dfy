/** Distribution of an exported EndpointSlice: one EndpointSliceExport, one copy
    (EndpointSliceImport, same name) per importing member namespace. */
module SliceDistribution {
  import opened Api

  type Namespace = string

  datatype SliceSpec = SliceSpec(owner: string, addresses: seq<string>, ports: seq<int>)

  datatype SliceExport = SliceExport(version: nat, marked: bool, finalizer: bool, spec: SliceSpec)

  /** A distributed copy; its finalizer belongs to the importing member cluster. */
  datatype Copy = Copy(version: nat, marked: bool, finalizer: bool, spec: SliceSpec)

  /** One element of a listing of copies. */
  datatype Placed = Placed(ns: Namespace, copy: Copy)

  /** What the ServiceImport of the owner Service tells: absent, not resolved yet, not in use,
      an annotation that does not parse, or the namespaces that import it. */
  datatype View = Missing | Unresolved | Unclaimed | Garbled | InUse(want: set<Namespace>)

  datatype Worker =
    | Idle
    | Fetching(x: SliceExport)
    | ListingAll(x: SliceExport)
    | WithdrawingAll(x: SliceExport, todo: seq<Namespace>)
    | Unprotecting(x: SliceExport)
    | Protecting(x: SliceExport, want: set<Namespace>)
    | Scanning(x: SliceExport, want: set<Namespace>)
    | Pruning(x: SliceExport, prune: seq<Namespace>, put: seq<Namespace>)
    | Getting(x: SliceExport, put: seq<Namespace>)
    | Putting(x: SliceExport, put: seq<Namespace>, found: Option<Copy>)

  datatype State = State(
    next: nat, ex: Option<SliceExport>, copies: map<Namespace, Copy>, worker: Worker)

  datatype Event =
    // the exporting member cluster
    | ExportCreate(spec: SliceSpec)
    | ExportUpdate(spec: SliceSpec)
    | ExportDelete
    // the importing member clusters
    | CopyHold(ns: Namespace)
    | CopyRelease(ns: Namespace)
    | CopyDelete(ns: Namespace)
    // the controller
    | Read
    | Fetch(view: View)
    | List(order: seq<Namespace>, rest: seq<Namespace>)
    | Step(reply: Reply)

  const Init := State(0, None, map[], Idle)

  function Run(es: seq<Event>): State {
    if es == [] then Init else Next(Run(es[..|es| - 1]), es[|es| - 1])
  }

  function Next(s: State, e: Event): State {
    match e
    case ExportCreate(spec) =>
      if s.ex.Some? then s else PutExport(s, SliceExport(s.next, false, false, spec))
    case ExportUpdate(spec) => if s.ex.None? then s else PutExport(s, s.ex.value.(spec := spec))
    case ExportDelete =>
      if s.ex.None? || s.ex.value.marked then s
      else if s.ex.value.finalizer then PutExport(s, s.ex.value.(marked := true))
      else s.(ex := None)
    case CopyHold(ns) =>
      if ns !in s.copies || s.copies[ns].marked then s else PutCopy(s, ns, s.copies[ns].(finalizer := true))
    case CopyRelease(ns) =>
      if ns !in s.copies then s
      else if s.copies[ns].marked then s.(copies := s.copies - {ns})
      else PutCopy(s, ns, s.copies[ns].(finalizer := false))
    case CopyDelete(ns) => DeleteCopy(s, ns)
    case Read =>
      if s.worker != Idle || s.ex.None? then s
      else
        var x := s.ex.value;
        s.(worker := if !x.marked then Fetching(x) else if x.finalizer then ListingAll(x) else Idle)
    case Fetch(view) => if s.worker.Fetching? then s.(worker := Decide(s.worker.x, view)) else s
    case List(order, rest) =>
      if !Enumerates(order, s.copies.Keys) then s
      else if s.worker.ListingAll? then s.(worker := WithdrawingAll(s.worker.x, order))
      else if s.worker.Scanning? && Enumerates(rest, s.worker.want - s.copies.Keys) then
        var items := Placements(order, s.copies);
        s.(worker := Pruning(s.worker.x, Unmarked(Outside(items, s.worker.want)),
                             Names(Inside(items, s.worker.want)) + rest))
      else s
    case Step(reply) => if reply.Failed? then s.(worker := Idle) else StepWorker(s, reply)
  }

  // ----- the store -----

  function PutExport(s: State, x: SliceExport): State {
    s.(ex := Some(x.(version := s.next)), next := s.next + 1)
  }

  function PutCopy(s: State, ns: Namespace, c: Copy): State {
    s.(copies := s.copies[ns := c.(version := s.next)], next := s.next + 1)
  }

  function DeleteCopy(s: State, ns: Namespace): State {
    if ns !in s.copies || s.copies[ns].marked then s
    else if s.copies[ns].finalizer then PutCopy(s, ns, s.copies[ns].(marked := true))
    else s.(copies := s.copies - {ns})
  }

  predicate ExportIs(ex: Option<SliceExport>, version: nat) {
    ex.Some? && ex.value.version == version
  }

  predicate Enumerates(order: seq<Namespace>, names: set<Namespace>) {
    (forall ns :: ns in order ==> ns in names) &&
    (forall ns :: ns in names ==> ns in order) &&
    (forall i, j :: 0 <= i < j < |order| ==> order[i] != order[j])
  }

  // ----- the scan -----

  function Placements(order: seq<Namespace>, copies: map<Namespace, Copy>): (r: seq<Placed>)
    requires forall ns :: ns in order ==> ns in copies
    ensures |r| == |order| && forall i :: 0 <= i < |r| ==> r[i] == Placed(order[i], copies[order[i]])
  {
    seq(|order|, i requires 0 <= i < |order| => Placed(order[i], copies[order[i]]))
  }

  function Names(items: seq<Placed>): (r: seq<Namespace>)
    ensures |r| == |items| && forall i :: 0 <= i < |r| ==> r[i] == items[i].ns
  {
    seq(|items|, i requires 0 <= i < |items| => items[i].ns)
  }

  /** The copies in namespaces that still ask for the slice. */
  function Inside(items: seq<Placed>, want: set<Namespace>): (r: seq<Placed>)
    ensures forall p :: p in r <==> p in items && p.ns in want
  {
    if items == [] then []
    else
      var last := items[|items| - 1];
      assert items == items[..|items| - 1] + [last];
      Inside(items[..|items| - 1], want) + if last.ns in want then [last] else []
  }

  /** The copies in namespaces that do not. */
  function Outside(items: seq<Placed>, want: set<Namespace>): (r: seq<Placed>)
    ensures forall p :: p in r <==> p in items && p.ns !in want
  {
    if items == [] then []
    else
      var last := items[|items| - 1];
      assert items == items[..|items| - 1] + [last];
      Outside(items[..|items| - 1], want) + if last.ns !in want then [last] else []
  }

  /** The namespaces of those that are not being deleted already. */
  function Unmarked(items: seq<Placed>): (r: seq<Namespace>)
    ensures forall ns :: ns in r <==> exists p :: p in items && p.ns == ns && !p.copy.marked
  {
    if items == [] then []
    else
      var last := items[|items| - 1];
      assert items == items[..|items| - 1] + [last];
      Unmarked(items[..|items| - 1]) + if !last.copy.marked then [last.ns] else []
  }

  // ----- the controller -----

  function Decide(x: SliceExport, view: View): Worker {
    match view
    case Missing => Idle
    case Unresolved => Idle
    case Unclaimed => ListingAll(x)
    case Garbled => Idle
    case InUse(want) => if x.finalizer then Scanning(x, want) else Protecting(x, want)
  }

  function StepWorker(s: State, reply: Reply): State
    requires !reply.Failed?
  {
    match s.worker
    case WithdrawingAll(x, todo) =>
      if todo == [] then s.(worker := Unprotecting(x))
      else DeleteCopy(s, todo[0]).(worker := if reply.Lost? then Idle else WithdrawingAll(x, todo[1..]))
    case Unprotecting(x) =>
      if !ExportIs(s.ex, x.version) then s.(worker := Idle)
      else if s.ex.value.marked then s.(ex := None, worker := Idle)
      else PutExport(s, s.ex.value.(finalizer := false)).(worker := Idle)
    case Protecting(x, want) =>
      if !ExportIs(s.ex, x.version) then s.(worker := Idle)
      else
        var s' := PutExport(s, s.ex.value.(finalizer := true));
        s'.(worker := if reply.Lost? then Idle else Scanning(s'.ex.value, want))
    case Pruning(x, prune, put) =>
      if prune == [] then s.(worker := Getting(x, put))
      else DeleteCopy(s, prune[0]).(worker := if reply.Lost? then Idle else Pruning(x, prune[1..], put))
    case Getting(x, put) =>
      if put == [] then s.(worker := Idle)
      else s.(worker := Putting(x, put, if put[0] in s.copies then Some(s.copies[put[0]]) else None))
    case Putting(x, put, found) =>
      if put == [] then s.(worker := Idle) else PutOne(s, x, put, found, reply)
    case _ => s
  }

  /** The second half of CreateOrUpdate: create, update if the spec differs, or nothing. */
  function PutOne(s: State, x: SliceExport, put: seq<Namespace>, found: Option<Copy>, reply: Reply): State
    requires put != []
  {
    var ns := put[0];
    var on := if reply.Lost? then Idle else Getting(x, put[1..]);
    if found.None? then
      if ns in s.copies then s.(worker := Idle)
      else PutCopy(s, ns, Copy(s.next, false, false, x.spec)).(worker := on)
    else if found.value.spec == x.spec then s.(worker := Getting(x, put[1..]))
    else if ns in s.copies && s.copies[ns].version == found.value.version then
      PutCopy(s, ns, s.copies[ns].(spec := x.spec)).(worker := on)
    else s.(worker := Idle)
  }

  // ----- safety -----

  predicate Protected(ex: Option<SliceExport>) {
    ex.Some? && ex.value.finalizer
  }

  /** Every copy that is not being deleted has its export, and the export its finalizer. */
  ghost predicate Guarded(ex: Option<SliceExport>, copies: map<Namespace, Copy>) {
    forall ns :: ns in copies && !copies[ns].marked ==> Protected(ex)
  }

  /** Every copy outside `todo` is being deleted. */
  ghost predicate OnlyLeft(copies: map<Namespace, Copy>, todo: seq<Namespace>) {
    forall ns :: ns in copies && !copies[ns].marked ==> ns in todo
  }

  ghost predicate WorkerOk(ex: Option<SliceExport>, copies: map<Namespace, Copy>, w: Worker) {
    match w
    case Fetching(x) => x.finalizer ==> Protected(ex)
    case WithdrawingAll(x, todo) => OnlyLeft(copies, todo)
    case Unprotecting(x) => OnlyLeft(copies, [])
    case Scanning(x, _) => Protected(ex)
    case Pruning(x, _, _) => Protected(ex)
    case Getting(x, _) => Protected(ex)
    case Putting(x, _, _) => Protected(ex)
    case _ => true
  }

  ghost predicate Inv(s: State) {
    Guarded(s.ex, s.copies) && WorkerOk(s.ex, s.copies, s.worker)
  }

  lemma StepKeepsInv(s: State, reply: Reply)
    requires Inv(s) && !reply.Failed?
    ensures Inv(StepWorker(s, reply))
  {
    match s.worker
    case WithdrawingAll(x, todo) =>
      if todo != [] {
        assert forall ns :: ns in todo ==> ns == todo[0] || ns in todo[1..];
      }
    case _ =>
  }

  lemma NextKeepsInv(s: State, e: Event)
    requires Inv(s)
    ensures Inv(Next(s, e))
  {
    if e.Step? && !e.reply.Failed? {
      StepKeepsInv(s, e.reply);
    }
  }

  lemma {:induction false} EveryRunIsSafe(es: seq<Event>)
    ensures Inv(Run(es))
  {
    if es != [] {
      EveryRunIsSafe(es[..|es| - 1]);
      NextKeepsInv(Run(es[..|es| - 1]), es[|es| - 1]);
    }
  }

  /** In every run, a copy not marked for deletion has an export that exists and carries the
      cleanup finalizer: no member cluster is left with a slice nobody will ever withdraw. */
  lemma CopiesHaveTheirExport(es: seq<Event>, ns: Namespace)
    requires ns in Run(es).copies && !Run(es).copies[ns].marked
    ensures Run(es).ex.Some? && Run(es).ex.value.finalizer
  {
    EveryRunIsSafe(es);
  }
}
