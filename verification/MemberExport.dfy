/** Exporting one Service from a member cluster: its ServiceExport, the Service, and the
    InternalServiceExport on the hub, with the controller interleaving call by call. */
module MemberExport {
  import opened Api
  import opened MemberWeight

  datatype ServiceExport = ServiceExport(version: nat, marked: bool, finalizer: bool, annotation: Option<string>)
  datatype Service = Service(uid: nat, marked: bool, eligible: bool)

  /** The exported copy; its finalizer belongs to the hub. */
  datatype HubExport = HubExport(marked: bool, finalizer: bool, uid: nat, weight: Option<int>)

  /** What is to become of an export that is not being deleted. */
  datatype Verdict = Withdraw | Leave | Publish(svc: Service, weight: int)

  function Judge(x: ServiceExport, svc: Option<Service>): Verdict {
    if svc.None? || svc.value.marked || !svc.value.eligible then Withdraw
    else
      var w := ExtractWeight(x.annotation);
      if w.None? then Leave
      else if w.value == 0 then Withdraw
      else Publish(svc.value, w.value)
  }

  /** There is a Service to export: it exists, is not being deleted and is of the right kind. */
  predicate Exportable(svc: Option<Service>) {
    svc.Some? && !svc.value.marked && svc.value.eligible
  }

  /** The cases. Without an annotation the weight is 1; weight 0 and the lack of an exportable
      Service withdraw the copy; an annotation that says no weight leaves it alone. */
  lemma JudgeCases(x: ServiceExport, svc: Option<Service>, w: int)
    ensures Judge(x, svc) == Withdraw <==>
            !Exportable(svc) || (x.annotation.Some? && Denotes(x.annotation.value, 0))
    ensures Judge(x, svc) == Leave <==>
            Exportable(svc) && x.annotation.Some? && forall v :: !Denotes(x.annotation.value, v)
    ensures Exportable(svc) ==>
            (Judge(x, svc) == Publish(svc.value, w) <==>
             if x.annotation.None? then w == 1 else w != 0 && Denotes(x.annotation.value, w))
  {
    if x.annotation.Some? {
      forall v ensures ExtractWeight(x.annotation) == Some(v) <==> Denotes(x.annotation.value, v) {
        AcceptedIff(x.annotation.value, v);
      }
    }
  }

  datatype Worker =
    | Idle
    | Fetching(x: ServiceExport)
    | Withdrawing(x: ServiceExport)
    | Unprotecting(x: ServiceExport)
    | Marking(x: ServiceExport)
    | Protecting(x: ServiceExport, svc: Service, weight: int)
    | Validating(x: ServiceExport, svc: Service, weight: int)
    | Noting(x: ServiceExport, svc: Service, weight: int)
    | Getting(x: ServiceExport, svc: Service, weight: int)
    | Creating(x: ServiceExport, svc: Service, weight: int)
    | Updating(x: ServiceExport, svc: Service, weight: int, found: HubExport)

  datatype State = State(
    next: nat, sx: Option<ServiceExport>, svc: Option<Service>, hub: Option<HubExport>, worker: Worker)

  datatype Event =
    // users of the member cluster
    | ExportCreate(annotation: Option<string>)
    | ExportAnnotate(annotation: Option<string>)
    | ExportDelete
    | ServiceCreate(eligible: bool)
    | ServiceChange(eligible: bool)
    | ServiceMark
    | ServiceGone
    // the hub
    | HubHold
    | HubRelease
    | HubDelete
    // the controller
    | Read
    | Step(reply: Reply)

  const Init := State(0, None, None, None, Idle)

  /** `weighted` is the traffic manager feature: whether weights are exported. */
  function Run(weighted: bool, es: seq<Event>): State {
    if es == [] then Init else Next(weighted, Run(weighted, es[..|es| - 1]), es[|es| - 1])
  }

  function Next(weighted: bool, s: State, e: Event): State {
    match e
    case ExportCreate(annotation) =>
      if s.sx.Some? then s else Put(s, ServiceExport(s.next, false, false, annotation))
    case ExportAnnotate(annotation) => if s.sx.None? then s else Put(s, s.sx.value.(annotation := annotation))
    case ExportDelete =>
      if s.sx.None? || s.sx.value.marked then s
      else if s.sx.value.finalizer then Put(s, s.sx.value.(marked := true))
      else s.(sx := None)
    case ServiceCreate(eligible) =>
      if s.svc.Some? then s else s.(svc := Some(Service(s.next, false, eligible)), next := s.next + 1)
    case ServiceChange(eligible) => if s.svc.None? then s else s.(svc := Some(s.svc.value.(eligible := eligible)))
    case ServiceMark => if s.svc.None? then s else s.(svc := Some(s.svc.value.(marked := true)))
    case ServiceGone => s.(svc := None)
    case HubHold =>
      if s.hub.None? || s.hub.value.marked then s else s.(hub := Some(s.hub.value.(finalizer := true)))
    case HubRelease =>
      if s.hub.None? then s
      else if s.hub.value.marked then s.(hub := None)
      else s.(hub := Some(s.hub.value.(finalizer := false)))
    case HubDelete => s.(hub := Deleted(s.hub))
    case Read =>
      if s.worker != Idle || s.sx.None? then s
      else if !s.sx.value.marked then s.(worker := Fetching(s.sx.value))
      else if s.sx.value.finalizer then s.(worker := Withdrawing(s.sx.value))
      else s
    case Step(reply) => if reply.Failed? then Fail(s) else StepWorker(weighted, s, reply)
  }

  function Put(s: State, x: ServiceExport): State {
    s.(sx := Some(x.(version := s.next)), next := s.next + 1)
  }

  function Deleted(hub: Option<HubExport>): Option<HubExport> {
    if hub.None? || hub.value.marked then hub
    else if hub.value.finalizer then Some(hub.value.(marked := true))
    else None
  }

  predicate Current(sx: Option<ServiceExport>, x: ServiceExport) {
    sx.Some? && sx.value.version == x.version
  }

  /** A failed call ends the reconcile, except that noting when the Service was last seen may
      fail. */
  function Fail(s: State): State {
    s.(worker := if s.worker.Noting? then Getting(s.worker.x, s.worker.svc, s.worker.weight) else Idle)
  }

  /** After a write of the ServiceExport. */
  function After(s: State, reply: Reply, w: Worker): State {
    s.(worker := if reply.Lost? then Idle else w)
  }

  /** What the reconcile does about a verdict. */
  function Turn(x: ServiceExport, v: Verdict): Worker {
    match v
    case Withdraw => if x.finalizer then Withdrawing(x) else Marking(x)
    case Leave => Marking(x)
    case Publish(svc, weight) => if x.finalizer then Validating(x, svc, weight) else Protecting(x, svc, weight)
  }

  function StepWorker(weighted: bool, s: State, reply: Reply): State {
    match s.worker
    case Idle => s
    case Fetching(x) => s.(worker := Turn(x, Judge(x, s.svc)))
    case Withdrawing(x) => After(s.(hub := Deleted(s.hub)), reply, Unprotecting(x))
    case Creating(x, svc, weight) => Create(weighted, s)
    case Updating(x, svc, weight, found) => Update(weighted, s)
    case Getting(x, svc, weight) =>
      s.(worker := if s.hub.None? then Creating(x, svc, weight)
                   else if s.hub.value.uid != svc.uid then Withdrawing(x)
                   else Updating(x, svc, weight, s.hub.value))
    case _ => Write(s, reply)
  }

  /** The steps that write the ServiceExport. */
  function Write(s: State, reply: Reply): State {
    match s.worker
    case Unprotecting(x) =>
      if !Current(s.sx, x) then s.(worker := Idle)
      else if s.sx.value.marked then s.(sx := None, worker := Idle)
      else var s' := Put(s, s.sx.value.(finalizer := false)); After(s', reply, Marking(s'.sx.value))
    case Marking(x) =>
      if !Current(s.sx, x) then s.(worker := Idle) else After(Put(s, s.sx.value), reply, Idle)
    case Protecting(x, svc, weight) =>
      if !Current(s.sx, x) then s.(worker := Idle)
      else var s' := Put(s, s.sx.value.(finalizer := true)); After(s', reply, Validating(s'.sx.value, svc, weight))
    case Validating(x, svc, weight) =>
      if !Current(s.sx, x) then s.(worker := Idle)
      else var s' := Put(s, s.sx.value); After(s', reply, Noting(s'.sx.value, svc, weight))
    case Noting(x, svc, weight) =>
      if !Current(s.sx, x) then s.(worker := Getting(x, svc, weight))
      else var s' := Put(s, s.sx.value); s'.(worker := Getting(s'.sx.value, svc, weight))
    case _ => s
  }

  function Weighted(weighted: bool, before: Option<int>, weight: int): Option<int> {
    if weighted then Some(weight) else before
  }

  function Create(weighted: bool, s: State): State
    requires s.worker.Creating?
  {
    if s.hub.Some? then s.(worker := Idle)
    else s.(hub := Some(HubExport(false, false, s.worker.svc.uid, Weighted(weighted, None, s.worker.weight))),
            worker := Idle)
  }

  /** The update goes through only if the copy has not changed since it was read. */
  function Update(weighted: bool, s: State): State
    requires s.worker.Updating?
  {
    if s.hub != Some(s.worker.found) then s.(worker := Idle)
    else s.(hub := Some(s.worker.found.(weight := Weighted(weighted, s.worker.found.weight, s.worker.weight))),
            worker := Idle)
  }

  // ----- what every run keeps -----

  predicate Protected(sx: Option<ServiceExport>) {
    sx.Some? && sx.value.finalizer
  }

  predicate Quiet(hub: Option<HubExport>) {
    hub.None? || hub.value.marked
  }

  /** A copy on the hub that is not being deleted has its ServiceExport, with the finalizer; and
      its weight, when set, is between 1 and 1000. */
  predicate Guarded(sx: Option<ServiceExport>, hub: Option<HubExport>) {
    && (Quiet(hub) || Protected(sx))
    && (hub.Some? && hub.value.weight.Some? ==> 1 <= hub.value.weight.value <= 1000)
  }

  predicate WorkerOk(sx: Option<ServiceExport>, hub: Option<HubExport>, w: Worker) {
    match w
    case Fetching(x) => x.finalizer ==> Protected(sx)
    case Unprotecting(x) => Quiet(hub)
    case Protecting(x, svc, weight) => 1 <= weight <= 1000
    case Validating(x, svc, weight) => 1 <= weight <= 1000 && Protected(sx)
    case Noting(x, svc, weight) => 1 <= weight <= 1000 && Protected(sx)
    case Getting(x, svc, weight) => 1 <= weight <= 1000 && Protected(sx)
    case Creating(x, svc, weight) => 1 <= weight <= 1000 && Protected(sx)
    case Updating(x, svc, weight, found) => 1 <= weight <= 1000 && Protected(sx)
    case _ => true
  }

  predicate Inv(s: State) {
    Guarded(s.sx, s.hub) && WorkerOk(s.sx, s.hub, s.worker)
  }

  lemma WriteKeepsInv(s: State, reply: Reply)
    requires Inv(s) && !reply.Failed?
    ensures Inv(Write(s, reply))
  {
  }

  lemma StepKeepsInv(weighted: bool, s: State, reply: Reply)
    requires Inv(s) && !reply.Failed?
    ensures Inv(StepWorker(weighted, s, reply))
  {
    WriteKeepsInv(s, reply);
  }

  lemma NextKeepsInv(weighted: bool, s: State, e: Event)
    requires Inv(s)
    ensures Inv(Next(weighted, s, e))
  {
    match e
    case Step(reply) =>
      if !reply.Failed? {
        StepKeepsInv(weighted, s, reply);
      }
    case _ =>
  }

  /** In every run, a copy on the hub that is not being deleted has its ServiceExport. */
  lemma {:induction false} EveryRunIsSafe(weighted: bool, es: seq<Event>)
    ensures Inv(Run(weighted, es))
    ensures Guarded(Run(weighted, es).sx, Run(weighted, es).hub)
  {
    if es != [] {
      EveryRunIsSafe(weighted, es[..|es| - 1]);
      NextKeepsInv(weighted, Run(weighted, es[..|es| - 1]), es[|es| - 1]);
    }
  }

  // ----- the reconcile as it is written -----

  /** The ServiceExport, the Service and the copy on the hub, while nobody else changes them. Any
      call may fail, with or without having been carried out. */
  class Member {
    const weighted: bool
    var sx: Option<ServiceExport>
    var svc: Option<Service>
    var hub: Option<HubExport>

    constructor (weighted: bool)
      ensures this.weighted == weighted && sx == None && svc == None && hub == None
    {
      this.weighted := weighted;
      sx, svc, hub := None, None, None;
    }

    /** Writing the ServiceExport; one that is being deleted goes when its finalizer does. */
    method WriteExport(x: ServiceExport) returns (ok: bool)
      modifies this`sx
      ensures sx == old(sx) || sx == if x.marked && !x.finalizer then None else Some(x)
      ensures ok ==> sx == if x.marked && !x.finalizer then None else Some(x)
    {
      ok := *;
      var applied: bool := *;
      if ok || applied {
        sx := if x.marked && !x.finalizer then None else Some(x);
      }
    }

    method DeleteHub() returns (ok: bool)
      modifies this`hub
      ensures hub == old(hub) || hub == Deleted(old(hub))
      ensures ok ==> hub == Deleted(old(hub))
    {
      ok := *;
      var applied: bool := *;
      if ok || applied {
        hub := Deleted(hub);
      }
    }

    /** Writing a condition of the ServiceExport, or noting when the Service was last seen: none of
        the fields modelled here changes, but the write may fail. */
    method WriteStatus() returns (ok: bool)
    {
      ok := *;
    }

    /** Delete the copy first, then give up the finalizer. */
    method Unexport() returns (ok: bool)
      requires Guarded(sx, hub) && sx.Some?
      modifies this`sx, this`hub
      ensures Guarded(sx, hub)
      ensures hub == old(hub) || hub == Deleted(old(hub))
      ensures sx == old(sx) || sx.None? || sx == Some(old(sx).value.(finalizer := false))
      ensures ok ==> Quiet(hub) && sx == if old(sx).value.marked then None else Some(old(sx).value.(finalizer := false))
    {
      ok := DeleteHub();
      if ok {
        ok := WriteExport(sx.value.(finalizer := false));
      }
    }

    /** Create or update the copy, unless it is one of an earlier Service. */
    method Export(service: Service, weight: int) returns (ok: bool)
      requires Guarded(sx, hub) && Protected(sx) && 1 <= weight <= 1000
      modifies this`sx, this`hub
      ensures Guarded(sx, hub)
      ensures ok && old(hub).Some? && old(hub).value.uid != service.uid ==> Quiet(hub) && !Protected(sx)
      ensures ok && (old(hub).None? || old(hub).value.uid == service.uid) ==>
                && sx == old(sx) && hub.Some? && hub.value.uid == service.uid
                && hub.value.weight == (if weighted then Some(weight)
                                        else if old(hub).None? then None else old(hub).value.weight)
                && (old(hub).None? ==> !hub.value.marked && !hub.value.finalizer)
                && (old(hub).Some? ==> hub.value.marked == old(hub).value.marked &&
                                       hub.value.finalizer == old(hub).value.finalizer)
    {
      if hub.Some? && hub.value.uid != service.uid {
        ok := Unexport();
        return;
      }
      ok := *;
      var applied: bool := *;
      if ok || applied {
        hub := if hub.None? then Some(HubExport(false, false, service.uid, Weighted(weighted, None, weight)))
               else Some(hub.value.(weight := Weighted(weighted, hub.value.weight, weight)));
      }
    }

    /** One reconcile. Wherever it stops, a copy that is not being deleted has its ServiceExport.
        When it ends well: an export that is being deleted, or whose Service is gone, going or not
        eligible, or whose weight is 0, has no copy left; one whose annotation is invalid keeps
        the copy it had; any other has a copy of this very Service, with this weight, or none if
        the copy was of an earlier Service. */
    method Reconcile() returns (ok: bool)
      requires Guarded(sx, hub)
      modifies this`sx, this`hub
      ensures Guarded(sx, hub)
      ensures ok && old(sx).None? ==> hub == old(hub)
      ensures ok && old(sx).Some? && old(sx).value.marked ==> Quiet(hub) && !Protected(sx)
      ensures ok && old(sx).Some? && !old(sx).value.marked ==>
                match Judge(old(sx).value, svc)
                case Withdraw => Quiet(hub) && !Protected(sx)
                case Leave => hub == old(hub) && Protected(sx) == Protected(old(sx))
                case Publish(service, weight) =>
                  if old(hub).Some? && old(hub).value.uid != service.uid then Quiet(hub) && !Protected(sx)
                  else Protected(sx) && hub.Some? && hub.value.uid == service.uid &&
                       (weighted ==> hub.value.weight == Some(weight))
    {
      ok := true;
      if sx.None? {
        return;
      }
      if sx.value.marked {
        if sx.value.finalizer {
          ok := Unexport();
        }
        return;
      }
      var v := Judge(sx.value, svc);
      match v {
        case Withdraw =>
          if sx.value.finalizer {
            ok := Unexport();
          }
          if ok {
            ok := WriteStatus();
          }
        case Leave =>
          ok := WriteStatus();
        case Publish(service, weight) =>
          if !sx.value.finalizer {
            ok := WriteExport(sx.value.(finalizer := true));
          }
          if ok {
            ok := WriteStatus();
          }
          if ok {
            var noted := WriteStatus();
            ok := Export(service, weight);
          }
      }
    }
  }
}
