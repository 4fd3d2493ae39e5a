/** TrafficManagerProfiles, TrafficManagerBackends and the Azure resources made for them, with the
    two controllers interleaving call by call, any number of objects each. */
module TrafficMachine {
  import opened Api

  type Name = string
  type Uid = nat

  /** `metrics` and `finalizer` are the two finalizers the controllers add. */
  datatype Profile = Profile(uid: Uid, version: nat, marked: bool, metrics: bool, finalizer: bool)

  /** The profile a backend refers to never changes. */
  datatype Backend = Backend(uid: Uid, version: nat, marked: bool, metrics: bool, finalizer: bool, profile: Name)

  /** An Azure endpoint: made for a backend, whose UID is part of its name, or by somebody else. */
  datatype Endpoint = Fleet(owner: Uid, backend: Name, tag: string) | Foreign(tag: string)

  /** An Azure profile; its name holds the UID of the profile object, a tag the object's name. */
  datatype AzProfile = AzProfile(name: Name, endpoints: set<Endpoint>)

  type Azure = map<Uid, AzProfile>

  datatype ProfileWorker =
    | PMetrics(p: Profile)
    | PGet(p: Profile)
    | PProtect(p: Profile, body: set<Endpoint>)
    | PPut(p: Profile, body: set<Endpoint>)
    | PStatus(p: Profile)
    | PDelete(p: Profile)
    | PDrop(p: Profile)

  datatype BackendWorker =
    | BMetrics(b: Backend)
    | BFind(b: Backend)
    | BGet(b: Backend, uid: Uid)
    | BGate(b: Backend, uid: Uid, listing: set<Endpoint>)
    | BSweep(b: Backend, uid: Uid, todo: set<Endpoint>)
    | BProtect(b: Backend, uid: Uid)
    | BWork(b: Backend, uid: Uid)
    | BStatus(b: Backend)
    | DFind(b: Backend)
    | DGet(b: Backend, uid: Uid)
    | DSweep(b: Backend, uid: Uid, todo: set<Endpoint>)
    | DDrop(b: Backend)

  /** A name without a worker is one that is not being reconciled. */
  datatype State = State(
    next: nat,
    profiles: map<Name, Profile>,
    backends: map<Name, Backend>,
    azure: Azure,
    pw: map<Name, ProfileWorker>,
    bw: map<Name, BackendWorker>)

  /** Where a backend reconcile goes when the service behind it has been looked at: nothing to
      do, clean up (no such service, or weight zero), or bring the endpoints up to date. */
  datatype Turn = GiveUp | CleanUp | GoOn

  datatype Event =
    // users
    | ProfileCreate(n: Name)
    | ProfileTouch(n: Name)
    | ProfileDelete(n: Name)
    | BackendCreate(n: Name, profile: Name)
    | BackendTouch(n: Name)
    | BackendDelete(n: Name)
    // changes made in Azure by hand
    | AzureLose(uid: Uid)
    | EndpointLose(uid: Uid, endpoint: Endpoint)
    | EndpointAdd(uid: Uid, tag: string)
    // the controllers
    | ProfileRead(n: Name)
    | ProfileStep(n: Name, reply: Reply, equal: bool)
    | BackendRead(n: Name)
    | BackendStep(n: Name, reply: Reply, turn: Turn)
    | BackendPut(n: Name, tag: string, reply: Reply)
    | BackendCut(n: Name, endpoint: Endpoint, reply: Reply)

  const Init := State(0, map[], map[], map[], map[], map[])

  /** `overwrites` tells what Azure does with the endpoints that a profile write carries: take
      them for the endpoints of the profile, or ignore them. */
  function Run(overwrites: bool, es: seq<Event>): State {
    if es == [] then Init else Next(overwrites, Run(overwrites, es[..|es| - 1]), es[|es| - 1])
  }

  function Next(overwrites: bool, s: State, e: Event): State {
    match e
    case ProfileCreate(n) =>
      if n in s.profiles then s else PutProfile(s, n, Profile(s.next, s.next, false, false, false))
    case ProfileTouch(n) => if n in s.profiles then PutProfile(s, n, s.profiles[n]) else s
    case ProfileDelete(n) =>
      if n !in s.profiles || s.profiles[n].marked then s
      else SettleProfile(s, n, s.profiles[n].(marked := true))
    case BackendCreate(n, profile) =>
      if n in s.backends then s else PutBackend(s, n, Backend(s.next, s.next, false, false, false, profile))
    case BackendTouch(n) => if n in s.backends then PutBackend(s, n, s.backends[n]) else s
    case BackendDelete(n) =>
      if n !in s.backends || s.backends[n].marked then s
      else SettleBackend(s, n, s.backends[n].(marked := true))
    case AzureLose(uid) => s.(azure := s.azure - {uid})
    case EndpointLose(uid, endpoint) => if uid in s.azure then Cut(s, uid, endpoint) else s
    case EndpointAdd(uid, tag) => if uid in s.azure then Add(s, uid, Foreign(tag)) else s
    case ProfileRead(n) => if n in s.pw || n !in s.profiles then s else ReadProfile(s, n)
    case ProfileStep(n, reply, equal) =>
      if n !in s.pw then s else if reply.Failed? then PIdle(s, n) else StepProfile(overwrites, s, n, reply, equal)
    case BackendRead(n) => if n in s.bw || n !in s.backends then s else ReadBackend(s, n)
    case BackendStep(n, reply, turn) =>
      if n !in s.bw then s else if reply.Failed? then BIdle(s, n) else StepBackend(s, n, reply, turn)
    case BackendPut(n, tag, reply) =>
      if n !in s.bw || !s.bw[n].BWork? then s else WorkPut(s, n, tag, reply)
    case BackendCut(n, endpoint, reply) =>
      if n !in s.bw then s else WorkCut(s, n, endpoint, reply)
  }

  // ----- the store -----

  function PutProfile(s: State, n: Name, p: Profile): State {
    s.(profiles := s.profiles[n := p.(version := s.next)], next := s.next + 1)
  }

  function PutBackend(s: State, n: Name, b: Backend): State {
    s.(backends := s.backends[n := b.(version := s.next)], next := s.next + 1)
  }

  /** Writing an object that is being deleted removes it once it has no finalizer left. */
  function SettleProfile(s: State, n: Name, p: Profile): State {
    if p.marked && !p.metrics && !p.finalizer then s.(profiles := s.profiles - {n}) else PutProfile(s, n, p)
  }

  function SettleBackend(s: State, n: Name, b: Backend): State {
    if b.marked && !b.metrics && !b.finalizer then s.(backends := s.backends - {n}) else PutBackend(s, n, b)
  }

  predicate ProfileIs(s: State, n: Name, p: Profile) {
    n in s.profiles && s.profiles[n].uid == p.uid && s.profiles[n].version == p.version
  }

  predicate BackendIs(s: State, n: Name, b: Backend) {
    n in s.backends && s.backends[n].uid == b.uid && s.backends[n].version == b.version
  }

  // ----- Azure -----

  function Cut(s: State, uid: Uid, e: Endpoint): State
    requires uid in s.azure
  {
    s.(azure := s.azure[uid := AzProfile(s.azure[uid].name, s.azure[uid].endpoints - {e})])
  }

  function Add(s: State, uid: Uid, e: Endpoint): State
    requires uid in s.azure
  {
    s.(azure := s.azure[uid := AzProfile(s.azure[uid].name, s.azure[uid].endpoints + {e})])
  }

  /** Creating or updating the Azure profile of the object `n`. */
  function WriteAzure(overwrites: bool, azure: Azure, n: Name, uid: Uid, body: set<Endpoint>): Azure {
    azure[uid := AzProfile(n, if overwrites then body else if uid in azure then azure[uid].endpoints else {})]
  }

  // ----- the profile controller -----

  function PIdle(s: State, n: Name): State {
    s.(pw := s.pw - {n})
  }

  function PGoTo(s: State, n: Name, w: ProfileWorker): State {
    s.(pw := s.pw[n := w])
  }

  function ReadProfile(s: State, n: Name): State
    requires n in s.profiles
  {
    var p := s.profiles[n];
    if !p.marked then PGoTo(s, n, if p.metrics then PGet(p) else PMetrics(p))
    else if p.finalizer then PGoTo(s, n, PDelete(p))
    else if p.metrics then PGoTo(s, n, PDrop(p))
    else s
  }

  /** After a write of the profile object: go on with what was written, unless the answer was
      lost. */
  function PAfter(s: State, n: Name, reply: Reply, w: ProfileWorker): State {
    if reply.Lost? then PIdle(s, n) else PGoTo(s, n, w)
  }

  function StepProfile(overwrites: bool, s: State, n: Name, reply: Reply, equal: bool): State
    requires n in s.pw && !reply.Failed?
  {
    match s.pw[n]
    case PMetrics(p) =>
      if !ProfileIs(s, n, p) then PIdle(s, n)
      else
        var s' := PutProfile(s, n, s.profiles[n].(metrics := true));
        PAfter(s', n, reply, PGet(s'.profiles[n]))
    case PGet(p) =>
      if p.uid in s.azure && equal then PGoTo(s, n, PStatus(p))
      else
        var body := if p.uid in s.azure then s.azure[p.uid].endpoints else {};
        PGoTo(s, n, if p.finalizer then PPut(p, body) else PProtect(p, body))
    case PProtect(p, body) =>
      if !ProfileIs(s, n, p) then PIdle(s, n)
      else
        var s' := PutProfile(s, n, s.profiles[n].(finalizer := true));
        PAfter(s', n, reply, PPut(s'.profiles[n], body))
    case PPut(p, body) =>
      PGoTo(s.(azure := WriteAzure(overwrites, s.azure, n, p.uid, body)), n, PStatus(p))
    case PStatus(p) =>
      if !ProfileIs(s, n, p) then PIdle(s, n) else PIdle(PutProfile(s, n, s.profiles[n]), n)
    case PDelete(p) =>
      var s' := s.(azure := s.azure - {p.uid});
      PAfter(s', n, reply, PDrop(p))
    case PDrop(p) =>
      if !ProfileIs(s, n, p) then PIdle(s, n)
      else PIdle(SettleProfile(s, n, s.profiles[n].(metrics := false, finalizer := false)), n)
  }

  // ----- the backend controller -----

  function BIdle(s: State, n: Name): State {
    s.(bw := s.bw - {n})
  }

  function BGoTo(s: State, n: Name, w: BackendWorker): State {
    s.(bw := s.bw[n := w])
  }

  function BAfter(s: State, n: Name, reply: Reply, w: BackendWorker): State {
    if reply.Lost? then BIdle(s, n) else BGoTo(s, n, w)
  }

  function ReadBackend(s: State, n: Name): State
    requires n in s.backends
  {
    var b := s.backends[n];
    if !b.marked then BGoTo(s, n, if b.metrics then BFind(b) else BMetrics(b))
    else if b.finalizer then BGoTo(s, n, DFind(b))
    else if b.metrics then BGoTo(s, n, DDrop(b))
    else s
  }

  /** The endpoints of a listing that bear the backend's prefix. */
  function Own(b: Backend, endpoints: set<Endpoint>): set<Endpoint> {
    set e | e in endpoints && e.Fleet? && e.owner == b.uid
  }

  function StepBackend(s: State, n: Name, reply: Reply, turn: Turn): State
    requires n in s.bw && !reply.Failed?
  {
    var w := s.bw[n];
    if w.BMetrics? || w.BProtect? || w.BStatus? || w.DDrop? then
      if BackendIs(s, n, w.b) then WriteBackend(s, n, reply) else BIdle(s, n)
    else BGoTo(s, n, Onward(s.profiles, s.azure, w, turn))
  }

  /** The steps that write the backend object; the version matches. */
  function WriteBackend(s: State, n: Name, reply: Reply): State
    requires n in s.bw && BackendIs(s, n, s.bw[n].b)
  {
    var b := s.backends[n];
    match s.bw[n]
    case BMetrics(_) =>
      var s' := PutBackend(s, n, b.(metrics := true));
      BAfter(s', n, reply, BFind(s'.backends[n]))
    case BProtect(_, uid) =>
      var s' := PutBackend(s, n, b.(finalizer := true));
      BAfter(s', n, reply, BWork(s'.backends[n], uid))
    case DDrop(_) => BIdle(SettleBackend(s, n, b.(metrics := false, finalizer := false)), n)
    case _ => BIdle(PutBackend(s, n, b), n)
  }

  /** The steps that only read. */
  function Onward(profiles: map<Name, Profile>, azure: Azure, w: BackendWorker, turn: Turn): BackendWorker {
    match w
    case BFind(b) => if b.profile in profiles && !turn.GiveUp? then BGet(b, profiles[b.profile].uid) else BStatus(b)
    case BGet(b, uid) => if uid in azure then BGate(b, uid, azure[uid].endpoints) else BStatus(b)
    case BGate(b, uid, listing) =>
      if turn.GiveUp? then BStatus(b)
      else if turn.CleanUp? then BSweep(b, uid, Own(b, listing))
      else if b.finalizer then BWork(b, uid)
      else BProtect(b, uid)
    case BSweep(b, uid, todo) => if todo == {} then BStatus(b) else w
    case BWork(b, uid) => BStatus(b)
    case DFind(b) => if b.profile in profiles then DGet(b, profiles[b.profile].uid) else DDrop(b)
    case DGet(b, uid) => if uid in azure then DSweep(b, uid, Own(b, azure[uid].endpoints)) else DDrop(b)
    case DSweep(b, uid, todo) => if todo == {} then DDrop(b) else w
    case _ => w
  }

  /** Creating or updating one of the backend's endpoints; Azure needs the profile for that. A
      refusal does not end the loop, so this event leaves the worker where it is unless the
      answer was lost. */
  function WorkPut(s: State, n: Name, tag: string, reply: Reply): State
    requires n in s.bw && s.bw[n].BWork?
  {
    var b, uid := s.bw[n].b, s.bw[n].uid;
    if uid !in s.azure || reply.Failed? then s
    else
      var s' := Add(s, uid, Fleet(b.uid, n, tag));
      if reply.Lost? then BIdle(s', n) else s'
  }

  /** What a worker that is deleting endpoints does once `e` is deleted, if `e` is its to
      delete. */
  function Strike(w: BackendWorker, e: Endpoint): Option<BackendWorker> {
    match w
    case BWork(b, uid) => if e in Own(b, {e}) then Some(w) else None
    case BSweep(b, uid, todo) => if e in todo then Some(BSweep(b, uid, todo - {e})) else None
    case DSweep(b, uid, todo) => if e in todo then Some(DSweep(b, uid, todo - {e})) else None
    case _ => None
  }

  /** Deleting one of the backend's endpoints, in the update loop or in a clean-up. */
  function WorkCut(s: State, n: Name, e: Endpoint, reply: Reply): State
    requires n in s.bw
  {
    var w := Strike(s.bw[n], e);
    if w.None? then s
    else if reply.Failed? then BIdle(s, n)
    else BAfter(CutIfThere(s, s.bw[n].uid, e), n, reply, w.value)
  }

  function CutIfThere(s: State, uid: Uid, e: Endpoint): State {
    if uid in s.azure then Cut(s, uid, e) else s
  }
}
