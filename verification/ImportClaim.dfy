/** The import half of the hub: member clusters race to claim a Service. The lock is the
    ServiceInUseBy annotation on the ServiceImport; finalizers sit on the ServiceImport and on
    each cluster's InternalServiceImport. One Service is modelled; requests are keyed by the
    namespace the hub reserves for a member cluster.

    A read of the ServiceImport may return anything it ever was, or that it does not exist. */
module ImportClaim {
  import opened Api
  import opened ImportStatus

  type Namespace = string
  type ClusterId = string

  datatype Import = Import(
    version: nat, marked: bool, finalizer: bool,
    inUseBy: Option<map<Namespace, ClusterId>>, status: Status)

  /** An InternalServiceImport. */
  datatype Request = Request(version: nat, marked: bool, finalizer: bool, cluster: ClusterId, status: Status)

  /** The member clusters recorded on the ServiceImport. */
  function Claims(i: Import): map<Namespace, ClusterId> {
    if i.inUseBy.None? then map[] else i.inUseBy.value
  }

  function Claimants(si: Option<Import>): set<Namespace> {
    if si.None? then {} else Claims(si.value).Keys
  }

  /** What the controller does next for one request. */
  datatype Worker =
    | Fetching(x: Request)
    | Releasing(x: Request)
    | Clearing(x: Request)
    | Withdrawing(x: Request, i: Import)
    | Unprotecting(x: Request)
    | Protecting(x: Request, i: Import)
    | Claiming(x: Request, i: Import)
    | Fulfilling(x: Request, i: Import)

  /** `seen` keeps every content the ServiceImport has had, by version; there was none at first. */
  datatype State = State(
    next: nat,
    si: Option<Import>,
    seen: map<nat, Import>,
    requests: map<Namespace, Request>,
    workers: map<Namespace, Worker>)

  datatype Event =
    // member clusters
    | RequestCreate(ns: Namespace, cluster: ClusterId)
    | RequestDelete(ns: Namespace)
    // the export side, acting on the ServiceImport
    | ImportCreate
    | ImportResolve(status: Status)
    | ImportDelete
    | ImportTouch
    // the InternalServiceImport controller
    | Read(ns: Namespace)
    | Fetch(ns: Namespace, view: Option<Import>)
    | Step(ns: Namespace, reply: Reply)

  const Init := State(0, None, map[], map[], map[])

  function Run(es: seq<Event>): State {
    if es == [] then Init else Next(Run(es[..|es| - 1]), es[|es| - 1])
  }

  function Next(s: State, e: Event): State {
    match e
    case RequestCreate(ns, cluster) =>
      if ns in s.requests then s
      else PutRequest(s, ns, Request(s.next, false, false, cluster, EmptyStatus))
    case RequestDelete(ns) =>
      if ns !in s.requests || s.requests[ns].marked then s
      else if s.requests[ns].finalizer then PutRequest(s, ns, s.requests[ns].(marked := true))
      else s.(requests := s.requests - {ns})
    case ImportCreate =>
      if s.si.Some? then s else PutImport(s, Import(s.next, false, false, None, EmptyStatus))
    case ImportResolve(status) =>
      if s.si.None? then s else PutImport(s, s.si.value.(status := status))
    case ImportDelete =>
      if s.si.None? || s.si.value.marked then s
      else if s.si.value.finalizer then PutImport(s, s.si.value.(marked := true))
      else DropImport(s)
    case ImportTouch => if s.si.None? then s else PutImport(s, s.si.value)
    case Read(ns) =>
      if ns in s.workers || ns !in s.requests then s else Go(s, ns, Fetching(s.requests[ns]))
    case Fetch(ns, view) =>
      if ns in s.workers && s.workers[ns].Fetching? && Seen(s.seen, view)
      then Decide(s, ns, s.workers[ns].x, view) else s
    case Step(ns, reply) => if ns in s.workers then StepWorker(s, ns, s.workers[ns], reply) else s
  }

  // ----- the store -----

  function PutRequest(s: State, ns: Namespace, x: Request): State {
    s.(requests := s.requests[ns := x.(version := s.next)], next := s.next + 1)
  }

  function PutImport(s: State, i: Import): State {
    var j := i.(version := s.next);
    s.(si := Some(j), seen := s.seen[s.next := j], next := s.next + 1)
  }

  function DropImport(s: State): State {
    s.(si := None)
  }

  /** The ServiceImport was, at some time, like this. */
  predicate Seen(seen: map<nat, Import>, view: Option<Import>) {
    view.Some? ==> view.value.version in seen && seen[view.value.version] == view.value
  }

  predicate RequestIs(s: State, ns: Namespace, version: nat) {
    ns in s.requests && s.requests[ns].version == version
  }

  predicate ImportIs(si: Option<Import>, version: nat) {
    si.Some? && si.value.version == version
  }

  function Rest(s: State, ns: Namespace): State {
    s.(workers := s.workers - {ns})
  }

  function Go(s: State, ns: Namespace, w: Worker): State {
    s.(workers := s.workers[ns := w])
  }

  // ----- the controller -----

  /** The branches of the reconcile, once the ServiceImport has been fetched. */
  function Decide(s: State, ns: Namespace, x: Request, view: Option<Import>): State {
    if view.None? then Go(s, ns, Releasing(x))
    else
      var i := view.value;
      if !i.marked && i.status.clusters == [] then Rest(s, ns)
      else if x.marked || i.marked then
        if !x.finalizer then Rest(s, ns)
        else Go(s, ns, if ns in Claims(i) then Withdrawing(x, i) else Unprotecting(x))
      else if Claims(i) != map[] then
        Go(s, ns, if ns in Claims(i) then Fulfilling(x, i) else Releasing(x))
      else Go(s, ns, if x.finalizer then Claiming(x, i) else Protecting(x, i))
  }

  /** Taking the finalizer off a request; a marked one is gone with it. */
  function Unprotected(s: State, ns: Namespace): State
    requires ns in s.requests
  {
    if s.requests[ns].marked then s.(requests := s.requests - {ns})
    else PutRequest(s, ns, s.requests[ns].(finalizer := false))
  }

  /** Recording the remaining claims, or taking annotation and finalizer off with the last one. */
  function Withdrawn(s: State, left: map<Namespace, ClusterId>): State
    requires s.si.Some?
  {
    var i := s.si.value;
    if left != map[] then PutImport(s, i.(inUseBy := Some(left), finalizer := true))
    else if i.marked then DropImport(s)
    else PutImport(s, i.(inUseBy := None, finalizer := false))
  }

  function StepWorker(s: State, ns: Namespace, w: Worker, reply: Reply): State {
    if reply.Failed? then Rest(s, ns)
    else
      match w
      case Fetching(x) => s
      case Releasing(x) =>
        if !x.finalizer then Go(s, ns, Clearing(x))
        else if !RequestIs(s, ns, x.version) then Rest(s, ns)
        else
          var s' := Unprotected(s, ns);
          if reply.Lost? || ns !in s'.requests then Rest(s', ns) else Go(s', ns, Clearing(s'.requests[ns]))
      case Clearing(x) =>
        if x.status == EmptyStatus || !RequestIs(s, ns, x.version) then Rest(s, ns)
        else Rest(PutRequest(s, ns, s.requests[ns].(status := EmptyStatus)), ns)
      case Withdrawing(x, i) =>
        if !ImportIs(s.si, i.version) then Rest(s, ns)
        else
          var s' := Withdrawn(s, Claims(i) - {ns});
          if reply.Lost? then Rest(s', ns) else Go(s', ns, Unprotecting(x))
      case Unprotecting(x) =>
        if !x.finalizer || !RequestIs(s, ns, x.version) then Rest(s, ns)
        else Rest(Unprotected(s, ns), ns)
      case Protecting(x, i) =>
        if !RequestIs(s, ns, x.version) then Rest(s, ns)
        else
          var s' := PutRequest(s, ns, s.requests[ns].(finalizer := true));
          if reply.Lost? then Rest(s', ns) else Go(s', ns, Claiming(s'.requests[ns], i))
      case Claiming(x, i) =>
        if !ImportIs(s.si, i.version) then Rest(s, ns)
        else
          var s' := PutImport(s, s.si.value.(inUseBy := Some(Claims(i)[ns := x.cluster]), finalizer := true));
          if reply.Lost? then Rest(s', ns) else Go(s', ns, Fulfilling(x, s'.si.value))
      case Fulfilling(x, i) =>
        if !RequestIs(s, ns, x.version) then Rest(s, ns)
        else Rest(PutRequest(s, ns, s.requests[ns].(status := i.status)), ns)
  }

  // ----- at most one claimant, whatever is read -----

  /** At most one claimant, and neither claimed nor marked without the finalizer. */
  ghost predicate ContentOk(i: Import) {
    && |Claims(i)| <= 1
    && (Claims(i) != map[] ==> i.finalizer)
    && (i.marked ==> i.finalizer)
  }

  /** The contents the ServiceImport has had are sound, and the present one is among them. */
  ghost predicate HistoryOk(next: nat, si: Option<Import>, seen: map<nat, Import>) {
    && Seen(seen, si)
    && (forall v :: v in seen ==> v < next && ContentOk(seen[v]))
  }

  ghost predicate Extends(seen: map<nat, Import>, seen': map<nat, Import>) {
    forall v :: v in seen ==> v in seen' && seen'[v] == seen[v]
  }

  ghost predicate WorkerOk(seen: map<nat, Import>, ns: Namespace, w: Worker) {
    match w
    case Withdrawing(x, i) => Seen(seen, Some(i)) && ns in Claims(i)
    case Protecting(x, i) => Seen(seen, Some(i)) && Claims(i) == map[] && !i.marked && !x.finalizer
    case Claiming(x, i) => Seen(seen, Some(i)) && Claims(i) == map[] && !i.marked
    case Fulfilling(x, i) => Seen(seen, Some(i)) && ns in Claims(i)
    case _ => true
  }

  ghost predicate Inv(s: State) {
    && HistoryOk(s.next, s.si, s.seen)
    && (forall ns :: ns in s.workers ==> WorkerOk(s.seen, ns, s.workers[ns]))
  }

  lemma NewContentKeepsHistory(s: State, i: Import)
    requires HistoryOk(s.next, s.si, s.seen)
    requires ContentOk(i)
    ensures var s' := PutImport(s, i); HistoryOk(s'.next, s'.si, s'.seen)
  {
    assert ContentOk(i.(version := s.next));
  }

  /** Giving up the only claim leaves none: the branch that would re-annotate the ServiceImport
      with the remaining claims is never taken. */
  lemma SoleClaim(claims: map<Namespace, ClusterId>, ns: Namespace)
    requires |claims| <= 1 && ns in claims
    ensures claims - {ns} == map[] && claims.Keys == {ns}
  {
    assert claims.Keys == {ns} + (claims.Keys - {ns});
    assert |claims.Keys - {ns}| == 0;
  }

  lemma WithdrawKeepsHistory(s: State, ns: Namespace, i: Import)
    requires HistoryOk(s.next, s.si, s.seen) && Seen(s.seen, Some(i)) && ns in Claims(i)
    requires ImportIs(s.si, i.version)
    ensures s.si.value == i
    ensures var s' := Withdrawn(s, Claims(i) - {ns});
            && HistoryOk(s'.next, s'.si, s'.seen) && Extends(s.seen, s'.seen)
            && Claimants(s'.si) == {}
            && s' == s.(si := s'.si, seen := s'.seen, next := s'.next)
  {
    SoleClaim(Claims(i), ns);
    if !i.marked {
      NewContentKeepsHistory(s, i.(inUseBy := None, finalizer := false));
    }
  }

  lemma ClaimKeepsHistory(s: State, ns: Namespace, i: Import, cluster: ClusterId)
    requires HistoryOk(s.next, s.si, s.seen) && Seen(s.seen, Some(i)) && Claims(i) == map[] && !i.marked
    requires ImportIs(s.si, i.version)
    ensures s.si.value == i
    ensures var s' := PutImport(s, s.si.value.(inUseBy := Some(Claims(i)[ns := cluster]), finalizer := true));
            HistoryOk(s'.next, s'.si, s'.seen) && Extends(s.seen, s'.seen) && Claimants(s'.si) == {ns}
  {
    var j := s.si.value.(inUseBy := Some(Claims(i)[ns := cluster]), finalizer := true);
    assert Claims(j).Keys == {ns};
    NewContentKeepsHistory(s, j);
  }

  /** Workers stay sound while more contents are seen. */
  lemma WorkersKept(s: State, s': State)
    requires Inv(s) && HistoryOk(s'.next, s'.si, s'.seen) && Extends(s.seen, s'.seen)
    requires forall ns :: ns in s'.workers ==>
                            || (ns in s.workers && s'.workers[ns] == s.workers[ns])
                            || WorkerOk(s'.seen, ns, s'.workers[ns])
    ensures Inv(s')
  {
    forall ns | ns in s'.workers ensures WorkerOk(s'.seen, ns, s'.workers[ns]) {
      if ns in s.workers && s'.workers[ns] == s.workers[ns] {
        assert WorkerOk(s.seen, ns, s.workers[ns]);
      }
    }
  }

  /** The part of the state the history is about does not change. */
  ghost predicate SameHistory(s: State, s': State) {
    s'.si == s.si && s'.seen == s.seen && s'.next >= s.next
  }

  lemma UnprotectedFrame(s: State, ns: Namespace)
    requires ns in s.requests
    ensures SameHistory(s, Unprotected(s, ns)) && Unprotected(s, ns).workers == s.workers
  {
  }

  lemma Moved(s: State, s': State, ns: Namespace, w: Worker)
    requires SameHistory(s, s') && s'.workers == s.workers
    ensures SameHistory(s, Rest(s', ns)) && Rest(s', ns).workers == s.workers - {ns}
    ensures SameHistory(s, Go(s', ns, w)) && Go(s', ns, w).workers == s.workers[ns := w]
  {
  }

  /** Steps that do not write the ServiceImport. */
  lemma RequestStepFrame(s: State, ns: Namespace, reply: Reply)
    requires ns in s.workers && !s.workers[ns].Withdrawing? && !s.workers[ns].Claiming?
    ensures var s' := StepWorker(s, ns, s.workers[ns], reply);
            && SameHistory(s, s')
            && (s'.workers == s.workers || s'.workers == s.workers - {ns} ||
                (ns in s'.workers && s'.workers == s.workers[ns := s'.workers[ns]] &&
                 (s'.workers[ns].Clearing? ||
                  (s.workers[ns].Protecting? && s'.workers[ns].Claiming? && s'.workers[ns].i == s.workers[ns].i))))
  {
    match s.workers[ns]
    case Releasing(x) =>
      Moved(s, s, ns, Clearing(x));
      if RequestIs(s, ns, x.version) {
        var s' := Unprotected(s, ns);
        UnprotectedFrame(s, ns);
        Moved(s, s', ns, if ns in s'.requests then Clearing(s'.requests[ns]) else Clearing(x));
      }
    case Unprotecting(x) =>
      if RequestIs(s, ns, x.version) {
        UnprotectedFrame(s, ns);
      }
    case _ =>
  }

  lemma RequestStepKeepsInv(s: State, ns: Namespace, reply: Reply)
    requires Inv(s) && ns in s.workers
    requires !s.workers[ns].Withdrawing? && !s.workers[ns].Claiming?
    ensures Inv(Next(s, Step(ns, reply)))
  {
    assert WorkerOk(s.seen, ns, s.workers[ns]);
    RequestStepFrame(s, ns, reply);
    WorkersKept(s, StepWorker(s, ns, s.workers[ns], reply));
  }

  lemma ClaimStepKeepsInv(s: State, ns: Namespace, reply: Reply)
    requires Inv(s) && ns in s.workers && s.workers[ns].Claiming? && !reply.Failed?
    requires ImportIs(s.si, s.workers[ns].i.version)
    ensures Inv(Next(s, Step(ns, reply)))
  {
    var w := s.workers[ns];
    assert WorkerOk(s.seen, ns, w);
    ClaimKeepsHistory(s, ns, w.i, w.x.cluster);
    WorkersKept(s, Next(s, Step(ns, reply)));
  }

  lemma WithdrawStepKeepsInv(s: State, ns: Namespace, reply: Reply)
    requires Inv(s) && ns in s.workers && s.workers[ns].Withdrawing? && !reply.Failed?
    requires ImportIs(s.si, s.workers[ns].i.version)
    ensures Inv(Next(s, Step(ns, reply)))
  {
    var w := s.workers[ns];
    assert WorkerOk(s.seen, ns, w);
    WithdrawKeepsHistory(s, ns, w.i);
    WorkersKept(s, Next(s, Step(ns, reply)));
  }

  lemma ImportEventKeepsInv(s: State, e: Event)
    requires Inv(s) && (e.ImportCreate? || e.ImportResolve? || e.ImportDelete? || e.ImportTouch?)
    ensures Inv(Next(s, e))
  {
    var s' := Next(s, e);
    if s'.next > s.next {
      var i := s'.si.value;
      assert ContentOk(i) by {
        if s.si.Some? {
          assert ContentOk(s.si.value);
        }
      }
      NewContentKeepsHistory(s, i);
    }
    WorkersKept(s, s');
  }

  lemma StepKeepsInv(s: State, ns: Namespace, reply: Reply)
    requires Inv(s) && ns in s.workers
    ensures Inv(Next(s, Step(ns, reply)))
  {
    var w := s.workers[ns];
    if reply.Failed? || ((w.Claiming? || w.Withdrawing?) && !ImportIs(s.si, w.i.version)) {
      assert Next(s, Step(ns, reply)) == Rest(s, ns);
      WorkersKept(s, Rest(s, ns));
    } else if w.Claiming? {
      ClaimStepKeepsInv(s, ns, reply);
    } else if w.Withdrawing? {
      WithdrawStepKeepsInv(s, ns, reply);
    } else {
      RequestStepKeepsInv(s, ns, reply);
    }
  }

  /** A read sets the worker up with what it has seen. */
  lemma FetchKeepsInv(s: State, ns: Namespace, view: Option<Import>)
    requires Inv(s)
    ensures Inv(Next(s, Fetch(ns, view)))
  {
    if ns in s.workers && s.workers[ns].Fetching? && Seen(s.seen, view) {
      WorkersKept(s, Decide(s, ns, s.workers[ns].x, view));
    }
  }

  lemma RequestEventKeepsInv(s: State, e: Event)
    requires Inv(s) && (e.RequestCreate? || e.RequestDelete? || e.Read?)
    ensures Inv(Next(s, e))
  {
    WorkersKept(s, Next(s, e));
  }

  lemma NextKeepsInv(s: State, e: Event)
    requires Inv(s)
    ensures Inv(Next(s, e))
  {
    if e.Step? {
      if e.ns in s.workers {
        StepKeepsInv(s, e.ns, e.reply);
      }
    } else if e.Fetch? {
      FetchKeepsInv(s, e.ns, e.view);
    } else if e.RequestCreate? || e.RequestDelete? || e.Read? {
      RequestEventKeepsInv(s, e);
    } else {
      ImportEventKeepsInv(s, e);
    }
  }

  lemma {:induction false} EveryRunIsSafe(es: seq<Event>)
    ensures Inv(Run(es))
  {
    if es != [] {
      EveryRunIsSafe(es[..|es| - 1]);
      NextKeepsInv(Run(es[..|es| - 1]), es[|es| - 1]);
    }
  }

  /** Mutual exclusion: in every run, however stale the reads, at most one member cluster holds
      the claim, and a claimed ServiceImport carries the finalizer that keeps it alive. */
  lemma AtMostOneClaimant(es: seq<Event>)
    ensures |Claimants(Run(es).si)| <= 1
    ensures Claimants(Run(es).si) != {} ==> Run(es).si.value.finalizer
  {
    EveryRunIsSafe(es);
    if Run(es).si.Some? {
      assert ContentOk(Run(es).si.value);
      assert |Claims(Run(es).si.value)| == |Claims(Run(es).si.value).Keys|;
    }
  }

  lemma RunSnoc(es: seq<Event>, e: Event)
    ensures Run(es + [e]) == Next(Run(es), e)
  {
    assert (es + [e])[..|es|] == es;
  }

  /** The claim never passes directly from one cluster to another: it is given up first. And a
      claimed ServiceImport vanishes only when the claimant withdraws from one that is marked. */
  lemma ClaimsAreGivenUpFirst(es: seq<Event>, e: Event)
    requires Claimants(Run(es).si) != {}
    ensures var s, s' := Run(es), Run(es + [e]);
            && (Claimants(s'.si) == Claimants(s.si) || Claimants(s'.si) == {})
            && (s'.si.None? ==> e.Step? && e.ns in Claimants(s.si) && s.si.value.marked)
  {
    RunSnoc(es, e);
    EveryRunIsSafe(es);
    ClaimStep(Run(es), e);
  }

  lemma ClaimStep(s: State, e: Event)
    requires Inv(s) && Claimants(s.si) != {}
    ensures var s' := Next(s, e);
            && (Claimants(s'.si) == Claimants(s.si) || Claimants(s'.si) == {})
            && (s'.si.None? ==> e.Step? && e.ns in Claimants(s.si) && s.si.value.marked)
  {
    assert ContentOk(s.si.value);
    if e.Step? && e.ns in s.workers {
      ClaimantStep(s, e.ns, e.reply);
    }
  }

  lemma ClaimantStep(s: State, ns: Namespace, reply: Reply)
    requires Inv(s) && Claimants(s.si) != {} && ns in s.workers
    ensures var s' := StepWorker(s, ns, s.workers[ns], reply);
            && (Claimants(s'.si) == Claimants(s.si) || Claimants(s'.si) == {})
            && (s'.si.None? ==> ns in Claimants(s.si) && s.si.value.marked)
  {
    var w := s.workers[ns];
    assert WorkerOk(s.seen, ns, w);
    if !w.Withdrawing? && !w.Claiming? {
      RequestStepFrame(s, ns, reply);
    } else if w.Withdrawing? && ImportIs(s.si, w.i.version) {
      WithdrawKeepsHistory(s, ns, w.i);
    }
  }
}
