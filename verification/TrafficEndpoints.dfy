/** The second half of what every run of the traffic machine keeps: an Azure endpoint of a
    backend has its backend. It holds as long as a profile write brings back no endpoint whose
    backend is gone, or is on its way out without going to delete it. */
module TrafficEndpoints {
  import opened Api
  import opened TrafficMachine
  import opened TrafficLifetimes

  type Profiles = map<Name, Profile>
  type Backends = map<Name, Backend>

  /** The backend `n` exists with this UID and profile, and with its finalizer. */
  predicate Kept(backends: Backends, n: Name, uid: Uid, profile: Name) {
    n in backends && backends[n].uid == uid && backends[n].finalizer && backends[n].profile == profile
  }

  /** Every Azure endpoint made for a backend sits in that backend's profile, and the backend
      exists with its finalizer. */
  ghost predicate EndpointsGuarded(backends: Backends, azure: Azure) {
    forall u, e :: u in azure && e in azure[u].endpoints && e.Fleet? ==>
      Kept(backends, e.backend, e.owner, azure[u].name)
  }

  ghost predicate BackendUids(backends: Backends, next: nat) {
    && (forall n :: n in backends ==> backends[n].uid < next && backends[n].version < next)
    && (forall n, m :: n in backends && m in backends && n != m ==> backends[n].uid != backends[m].uid)
  }

  /** `uid` is, or was, the UID of the profile object `name`. */
  ghost predicate Of(profiles: Profiles, azure: Azure, next: nat, uid: Uid, name: Name) {
    && uid < next
    && (forall n :: n in profiles && profiles[n].uid == uid ==> n == name)
    && (uid in azure ==> azure[uid].name == name)
  }

  /** `b` is how the backend `n` was read. */
  predicate Snapshot(backends: Backends, next: nat, n: Name, b: Backend) {
    b.uid < next && b.version < next &&
    (n in backends && backends[n].uid == b.uid ==> backends[n].profile == b.profile)
  }

  /** The backend is still as `b` says: a write of it will go through. */
  predicate Due(backends: Backends, n: Name, b: Backend) {
    n in backends && backends[n].uid == b.uid && backends[n].version == b.version
  }

  predicate Leaving(backends: Backends, n: Name, uid: Uid) {
    n in backends && backends[n].uid == uid && backends[n].marked
  }

  /** All endpoints made for the backend `owner` are in the Azure profile `uid`. */
  ghost predicate Confined(azure: Azure, owner: Uid, uid: Uid) {
    forall u, e :: u in azure && e in azure[u].endpoints && e.Fleet? && e.owner == owner ==> u == uid
  }

  /** All of them are in `todo`. */
  ghost predicate Listed(azure: Azure, owner: Uid, todo: set<Endpoint>) {
    forall u, e :: u in azure && e in azure[u].endpoints && e.Fleet? && e.owner == owner ==> e in todo
  }

  ghost predicate NoneOf(azure: Azure, owner: Uid) {
    Listed(azure, owner, {})
  }

  ghost predicate BackendWorkerOk(profiles: Profiles, backends: Backends, azure: Azure, next: nat, n: Name,
                                  w: BackendWorker)
  {
    Snapshot(backends, next, n, w.b) &&
    match w
    case BFind(b) => b.finalizer ==> Kept(backends, n, b.uid, b.profile)
    case BGet(b, uid) =>
      (b.finalizer ==> Kept(backends, n, b.uid, b.profile)) && Of(profiles, azure, next, uid, b.profile)
    case BGate(b, uid, _) =>
      (b.finalizer ==> Kept(backends, n, b.uid, b.profile)) && Of(profiles, azure, next, uid, b.profile)
    case BProtect(b, uid) => Of(profiles, azure, next, uid, b.profile)
    case BWork(b, uid) => Kept(backends, n, b.uid, b.profile) && Of(profiles, azure, next, uid, b.profile)
    case DFind(b) => Leaving(backends, n, b.uid)
    case DGet(b, uid) =>
      Leaving(backends, n, b.uid) && (Due(backends, n, b) ==> Confined(azure, b.uid, uid))
    case DSweep(b, uid, todo) =>
      Leaving(backends, n, b.uid) &&
      (Due(backends, n, b) ==> Confined(azure, b.uid, uid) && Listed(azure, b.uid, todo))
    case DDrop(b) =>
      Leaving(backends, n, b.uid) && (Due(backends, n, b) ==> NoneOf(azure, b.uid))
    case _ => true
  }

  ghost predicate BackendWorkersOk(profiles: Profiles, backends: Backends, azure: Azure, next: nat,
                                   bw: map<Name, BackendWorker>)
  {
    forall n :: n in bw ==> BackendWorkerOk(profiles, backends, azure, next, n, bw[n])
  }

  ghost predicate BackendInv(s: State) {
    && BackendUids(s.backends, s.next)
    && EndpointsGuarded(s.backends, s.azure)
    && BackendWorkersOk(s.profiles, s.backends, s.azure, s.next, s.bw)
  }

  // ----- changes on the side of the profiles -----

  /** Profile objects keep their UID; new ones get a new UID. */
  ghost predicate ProfilesMove(profiles: Profiles, profiles': Profiles, next: nat) {
    forall n :: n in profiles' ==>
      (n in profiles && profiles'[n].uid == profiles[n].uid) || profiles'[n].uid == next
  }

  lemma ProfilesMoveKeeps(s: State, s': State)
    requires BackendInv(s) && ProfilesMove(s.profiles, s'.profiles, s.next) && s.next <= s'.next
    requires s'.backends == s.backends && s'.azure == s.azure && s'.bw == s.bw
    ensures BackendInv(s')
  {
    forall n | n in s.bw ensures BackendWorkerOk(s'.profiles, s.backends, s.azure, s'.next, n, s.bw[n]) {
      assert BackendWorkerOk(s.profiles, s.backends, s.azure, s.next, n, s.bw[n]);
    }
  }

  /** Azure holds no backend's endpoint that it did not hold before; new profiles are those of
      existing objects. */
  ghost predicate Shrinks(profiles: Profiles, azure: Azure, azure': Azure) {
    && (forall u, e :: u in azure' && e in azure'[u].endpoints && e.Fleet? ==>
          u in azure && e in azure[u].endpoints && azure'[u].name == azure[u].name)
    && (forall u :: u in azure' ==>
          (u in azure && azure'[u].name == azure[u].name) || Held(profiles, azure'[u].name, u))
  }

  lemma ShrinkKeepsWorker(s: State, azure: Azure, n: Name, w: BackendWorker)
    requires Shrinks(s.profiles, s.azure, azure)
    requires BackendWorkerOk(s.profiles, s.backends, s.azure, s.next, n, w)
    ensures BackendWorkerOk(s.profiles, s.backends, azure, s.next, n, w)
  {
  }

  lemma ShrinkKeeps(s: State, azure: Azure)
    requires BackendInv(s) && Shrinks(s.profiles, s.azure, azure)
    ensures BackendInv(s.(azure := azure))
  {
    forall n | n in s.bw ensures BackendWorkerOk(s.profiles, s.backends, azure, s.next, n, s.bw[n]) {
      assert BackendWorkerOk(s.profiles, s.backends, s.azure, s.next, n, s.bw[n]);
      ShrinkKeepsWorker(s, azure, n, s.bw[n]);
    }
  }

  // ----- changes of backends -----

  lemma PutBackendKeeps(s: State, n: Name, b: Backend)
    requires BackendInv(s)
    requires n in s.backends ==> b.uid == s.backends[n].uid && b.profile == s.backends[n].profile
    requires n in s.backends ==> (s.backends[n].finalizer ==> b.finalizer) && (s.backends[n].marked ==> b.marked)
    requires n !in s.backends ==> b.uid == s.next
    ensures BackendInv(PutBackend(s, n, b))
  {
    var s' := PutBackend(s, n, b);
    forall m | m in s'.bw ensures BackendWorkerOk(s'.profiles, s'.backends, s'.azure, s'.next, m, s'.bw[m]) {
      assert BackendWorkerOk(s.profiles, s.backends, s.azure, s.next, m, s.bw[m]);
    }
  }

  /** The endpoints recorded for the backend `n` are those of the object of that name. */
  lemma OwnedByName(s: State, n: Name, u: Uid, e: Endpoint)
    requires BackendInv(s) && n in s.backends && u in s.azure && e in s.azure[u].endpoints && e.Fleet?
    ensures e.backend == n <==> e.owner == s.backends[n].uid
    ensures e.backend == n ==> s.backends[n].finalizer && s.azure[u].name == s.backends[n].profile
  {
    assert Kept(s.backends, e.backend, e.owner, s.azure[u].name);
  }

  lemma RemoveBackendKeeps(s: State, n: Name, bw: map<Name, BackendWorker>)
    requires BackendInv(s) && n in s.backends && NoneOf(s.azure, s.backends[n].uid)
    requires bw == s.bw || bw == s.bw - {n}
    requires n in bw ==> !s.backends[n].marked && !s.backends[n].finalizer
    ensures BackendInv(s.(backends := s.backends - {n}, bw := bw))
  {
    var backends := s.backends - {n};
    forall m | m in bw ensures BackendWorkerOk(s.profiles, backends, s.azure, s.next, m, bw[m]) {
      assert BackendWorkerOk(s.profiles, s.backends, s.azure, s.next, m, s.bw[m]);
    }
    forall u, e | u in s.azure && e in s.azure[u].endpoints && e.Fleet?
      ensures Kept(backends, e.backend, e.owner, s.azure[u].name)
    {
      OwnedByName(s, n, u, e);
    }
  }

  /** A backend without its finalizer has no endpoints. */
  lemma UnkeptHasNone(s: State, n: Name)
    requires BackendInv(s) && n in s.backends && !s.backends[n].finalizer
    ensures NoneOf(s.azure, s.backends[n].uid)
  {
    forall u, e | u in s.azure && e in s.azure[u].endpoints && e.Fleet? ensures e.owner != s.backends[n].uid {
      OwnedByName(s, n, u, e);
    }
  }

  lemma BGoToKeeps(s: State, n: Name, w: BackendWorker)
    requires BackendInv(s) && BackendWorkerOk(s.profiles, s.backends, s.azure, s.next, n, w)
    ensures BackendInv(BGoTo(s, n, w))
  {
  }

  lemma BIdleKeeps(s: State, n: Name)
    requires BackendInv(s)
    ensures BackendInv(BIdle(s, n))
  {
  }

  // ----- the steps of the backend controller -----

  /** Where the endpoints of a backend are: in the Azure profile of the object it refers to. */
  lemma EndpointsOfBackend(s: State, n: Name, u: Uid, e: Endpoint)
    requires ProfileInv(s) && BackendInv(s) && n in s.backends
    requires u in s.azure && e in s.azure[u].endpoints && e.Fleet? && e.owner == s.backends[n].uid
    ensures s.backends[n].profile in s.profiles && s.profiles[s.backends[n].profile].uid == u
  {
    OwnedByName(s, n, u, e);
    assert Held(s.profiles, s.azure[u].name, u);
  }

  /** Why the clean-up may be skipped when the profile object is gone. */
  lemma NoProfileNoEndpoints(s: State, n: Name)
    requires ProfileInv(s) && BackendInv(s) && n in s.backends && s.backends[n].profile !in s.profiles
    ensures NoneOf(s.azure, s.backends[n].uid)
  {
    forall u, e | u in s.azure && e in s.azure[u].endpoints && e.Fleet? ensures e.owner != s.backends[n].uid {
      if e.owner == s.backends[n].uid {
        EndpointsOfBackend(s, n, u, e);
      }
    }
  }

  lemma ConfinedToProfile(s: State, n: Name)
    requires ProfileInv(s) && BackendInv(s) && n in s.backends && s.backends[n].profile in s.profiles
    ensures Confined(s.azure, s.backends[n].uid, s.profiles[s.backends[n].profile].uid)
  {
    forall u, e | u in s.azure && e in s.azure[u].endpoints && e.Fleet? && e.owner == s.backends[n].uid
      ensures u == s.profiles[s.backends[n].profile].uid
    {
      EndpointsOfBackend(s, n, u, e);
    }
  }

  lemma OfProfile(s: State, name: Name)
    requires ProfileInv(s) && name in s.profiles
    ensures Of(s.profiles, s.azure, s.next, s.profiles[name].uid, name)
  {
    UnheldIsUnmade(s, name);
  }

  lemma OnwardKeeps(s: State, n: Name, turn: Turn)
    requires ProfileInv(s) && BackendInv(s) && n in s.bw
    ensures BackendWorkerOk(s.profiles, s.backends, s.azure, s.next, n, Onward(s.profiles, s.azure, s.bw[n], turn))
  {
    assert BackendWorkerOk(s.profiles, s.backends, s.azure, s.next, n, s.bw[n]);
    match s.bw[n]
    case BFind(b) =>
      if b.profile in s.profiles {
        OfProfile(s, b.profile);
      }
    case DFind(b) =>
      if b.profile in s.profiles {
        ConfinedToProfile(s, n);
      } else {
        NoProfileNoEndpoints(s, n);
      }
    case _ =>
  }

  lemma ReadBackendKeeps(s: State, n: Name)
    requires BackendInv(s) && n in s.backends
    ensures BackendInv(ReadBackend(s, n))
  {
    var b := s.backends[n];
    if b.marked && !b.finalizer && b.metrics {
      UnkeptHasNone(s, n);
      BGoToKeeps(s, n, DDrop(b));
    } else if b.marked && b.finalizer {
      BGoToKeeps(s, n, DFind(b));
    } else if !b.marked {
      BGoToKeeps(s, n, if b.metrics then BFind(b) else BMetrics(b));
    }
  }

  lemma WriteThenGo(s: State, n: Name, b: Backend, reply: Reply, w: BackendWorker)
    requires BackendInv(s) && n in s.backends
    requires b.uid == s.backends[n].uid && b.profile == s.backends[n].profile
    requires (s.backends[n].finalizer ==> b.finalizer) && (s.backends[n].marked ==> b.marked)
    requires BackendWorkerOk(s.profiles, PutBackend(s, n, b).backends, s.azure, s.next + 1, n, w)
    ensures BackendInv(BAfter(PutBackend(s, n, b), n, reply, w))
  {
    PutBackendKeeps(s, n, b);
    BIdleKeeps(PutBackend(s, n, b), n);
    BGoToKeeps(PutBackend(s, n, b), n, w);
  }

  lemma DropBackendKeeps(s: State, n: Name)
    requires BackendInv(s) && n in s.bw && s.bw[n].DDrop? && BackendIs(s, n, s.bw[n].b)
    ensures BackendInv(BIdle(SettleBackend(s, n, s.backends[n].(metrics := false, finalizer := false)), n))
  {
    assert BackendWorkerOk(s.profiles, s.backends, s.azure, s.next, n, s.bw[n]);
    RemoveBackendKeeps(s, n, s.bw - {n});
    assert BIdle(SettleBackend(s, n, s.backends[n].(metrics := false, finalizer := false)), n) ==
           s.(backends := s.backends - {n}, bw := s.bw - {n});
  }

  lemma WriteBackendKeeps(s: State, n: Name, reply: Reply)
    requires BackendInv(s) && n in s.bw && BackendIs(s, n, s.bw[n].b)
    ensures BackendInv(WriteBackend(s, n, reply))
  {
    assert BackendWorkerOk(s.profiles, s.backends, s.azure, s.next, n, s.bw[n]);
    var b := s.backends[n];
    match s.bw[n]
    case BMetrics(_) =>
      var b' := b.(metrics := true);
      WriteThenGo(s, n, b', reply, BFind(PutBackend(s, n, b').backends[n]));
    case BProtect(_, uid) =>
      var b' := b.(finalizer := true);
      WriteThenGo(s, n, b', reply, BWork(PutBackend(s, n, b').backends[n], uid));
    case DDrop(_) => DropBackendKeeps(s, n);
    case _ =>
      PutBackendKeeps(s, n, b);
      BIdleKeeps(PutBackend(s, n, b), n);
  }

  lemma StepBackendKeeps(s: State, n: Name, reply: Reply, turn: Turn)
    requires ProfileInv(s) && BackendInv(s) && n in s.bw && !reply.Failed?
    ensures BackendInv(StepBackend(s, n, reply, turn))
  {
    var w := s.bw[n];
    if w.BMetrics? || w.BProtect? || w.BStatus? || w.DDrop? {
      if BackendIs(s, n, w.b) {
        WriteBackendKeeps(s, n, reply);
      } else {
        BIdleKeeps(s, n);
      }
    } else {
      OnwardKeeps(s, n, turn);
      BGoToKeeps(s, n, Onward(s.profiles, s.azure, w, turn));
    }
  }

  /** Adding an endpoint for the backend `n`, whose update loop is running. */
  lemma AddKeepsWorker(s: State, n: Name, tag: string, m: Name)
    requires BackendInv(s) && n in s.bw && s.bw[n].BWork? && s.bw[n].uid in s.azure && m in s.bw
    ensures var s' := Add(s, s.bw[n].uid, Fleet(s.bw[n].b.uid, n, tag));
            BackendWorkerOk(s.profiles, s.backends, s'.azure, s.next, m, s.bw[m])
  {
    assert BackendWorkerOk(s.profiles, s.backends, s.azure, s.next, n, s.bw[n]);
    assert BackendWorkerOk(s.profiles, s.backends, s.azure, s.next, m, s.bw[m]);
  }

  lemma AddKeeps(s: State, n: Name, tag: string)
    requires BackendInv(s) && n in s.bw && s.bw[n].BWork? && s.bw[n].uid in s.azure
    ensures BackendInv(Add(s, s.bw[n].uid, Fleet(s.bw[n].b.uid, n, tag)))
  {
    var s' := Add(s, s.bw[n].uid, Fleet(s.bw[n].b.uid, n, tag));
    assert BackendWorkerOk(s.profiles, s.backends, s.azure, s.next, n, s.bw[n]);
    forall m | m in s.bw ensures BackendWorkerOk(s.profiles, s.backends, s'.azure, s.next, m, s.bw[m]) {
      AddKeepsWorker(s, n, tag, m);
    }
  }

  lemma WorkPutKeeps(s: State, n: Name, tag: string, reply: Reply)
    requires BackendInv(s) && n in s.bw && s.bw[n].BWork?
    ensures BackendInv(WorkPut(s, n, tag, reply))
  {
    if s.bw[n].uid in s.azure {
      AddKeeps(s, n, tag);
      BIdleKeeps(Add(s, s.bw[n].uid, Fleet(s.bw[n].b.uid, n, tag)), n);
    }
  }

  lemma CutKeeps(s: State, uid: Uid, e: Endpoint)
    requires BackendInv(s)
    ensures BackendInv(CutIfThere(s, uid, e))
  {
    if uid in s.azure {
      ShrinkKeeps(s, Cut(s, uid, e).azure);
    }
  }

  /** Once deleted, an endpoint may be struck off the list. */
  lemma StrikeKeeps(s: State, n: Name, e: Endpoint)
    requires BackendInv(s) && n in s.bw && Strike(s.bw[n], e).Some?
    ensures var s' := CutIfThere(s, s.bw[n].uid, e);
            BackendWorkerOk(s.profiles, s.backends, s'.azure, s.next, n, Strike(s.bw[n], e).value)
  {
    var s' := CutIfThere(s, s.bw[n].uid, e);
    CutKeeps(s, s.bw[n].uid, e);
    assert BackendWorkerOk(s.profiles, s.backends, s'.azure, s.next, n, s.bw[n]);
  }

  lemma WorkCutKeeps(s: State, n: Name, e: Endpoint, reply: Reply)
    requires BackendInv(s) && n in s.bw
    ensures BackendInv(WorkCut(s, n, e, reply))
  {
    var w := Strike(s.bw[n], e);
    if w.Some? {
      var s' := CutIfThere(s, s.bw[n].uid, e);
      CutKeeps(s, s.bw[n].uid, e);
      StrikeKeeps(s, n, e);
      BIdleKeeps(s, n);
      BIdleKeeps(s', n);
      BGoToKeeps(s', n, w.value);
    }
  }

  // ----- the steps of the profile controller -----

  /** The worker will find and delete the endpoint `x` in the Azure profile `uid` before it lets
      its backend go, or is not about to let it go. */
  predicate Admits(w: BackendWorker, uid: Uid, x: Endpoint) {
    match w
    case DGet(_, u) => u == uid
    case DSweep(_, u, todo) => u == uid && x in todo
    case DDrop(_) => false
    case _ => true
  }

  /** A write of the profile `n` may bring the endpoint `x` back: its backend is there, refers to
      this profile and has its finalizer, and a clean-up of it that is under way will see `x`. */
  predicate MayReturn(s: State, n: Name, uid: Uid, x: Endpoint)
    requires x.Fleet?
  {
    && Kept(s.backends, x.backend, x.owner, n)
    && (x.backend in s.bw && Due(s.backends, x.backend, s.bw[x.backend].b) ==> Admits(s.bw[x.backend], uid, x))
  }

  /** The event is not a profile write that Azure takes over and that carries other endpoints. */
  ghost predicate Harmless(overwrites: bool, s: State, e: Event) {
    overwrites && e.ProfileStep? && !e.reply.Failed? && e.n in s.pw && s.pw[e.n].PPut? ==>
      forall x :: x in s.pw[e.n].body && x.Fleet? ==> MayReturn(s, e.n, s.pw[e.n].p.uid, x)
  }

  lemma OverwriteKeepsWorker(s: State, n: Name, m: Name)
    requires ProfileInv(s) && BackendInv(s) && n in s.pw && s.pw[n].PPut? && m in s.bw
    requires forall x :: x in s.pw[n].body && x.Fleet? ==> MayReturn(s, n, s.pw[n].p.uid, x)
    ensures var azure := WriteAzure(true, s.azure, n, s.pw[n].p.uid, s.pw[n].body);
            BackendWorkerOk(s.profiles, s.backends, azure, s.next, m, s.bw[m])
  {
    assert ProfileWorkerOk(s.profiles, s.azure, n, s.pw[n]);
    assert BackendWorkerOk(s.profiles, s.backends, s.azure, s.next, m, s.bw[m]);
  }

  lemma OverwriteKeeps(s: State, n: Name)
    requires ProfileInv(s) && BackendInv(s) && n in s.pw && s.pw[n].PPut?
    requires forall x :: x in s.pw[n].body && x.Fleet? ==> MayReturn(s, n, s.pw[n].p.uid, x)
    ensures BackendInv(s.(azure := WriteAzure(true, s.azure, n, s.pw[n].p.uid, s.pw[n].body)))
  {
    var azure := WriteAzure(true, s.azure, n, s.pw[n].p.uid, s.pw[n].body);
    forall m | m in s.bw ensures BackendWorkerOk(s.profiles, s.backends, azure, s.next, m, s.bw[m]) {
      OverwriteKeepsWorker(s, n, m);
    }
  }

  lemma WriteAzureKeeps(overwrites: bool, s: State, n: Name, reply: Reply, equal: bool)
    requires ProfileInv(s) && BackendInv(s) && n in s.pw && s.pw[n].PPut? && !reply.Failed?
    requires Harmless(overwrites, s, ProfileStep(n, reply, equal))
    ensures BackendInv(s.(azure := WriteAzure(overwrites, s.azure, n, s.pw[n].p.uid, s.pw[n].body)))
  {
    if overwrites {
      OverwriteKeeps(s, n);
    } else {
      assert ProfileWorkerOk(s.profiles, s.azure, n, s.pw[n]);
      UnheldIsUnmade(s, n);
      ShrinkKeeps(s, WriteAzure(overwrites, s.azure, n, s.pw[n].p.uid, s.pw[n].body));
    }
  }

  /** Only the profiles, their controller and the version counter change. */
  ghost predicate ProfileOnly(s: State, s': State) {
    && s'.backends == s.backends && s'.azure == s.azure && s'.bw == s.bw && s.next <= s'.next
    && ProfilesMove(s.profiles, s'.profiles, s.next)
  }

  lemma SettleProfileMoves(s: State, n: Name, p: Profile)
    requires n in s.profiles ==> p.uid == s.profiles[n].uid
    requires n !in s.profiles ==> p.uid == s.next
    ensures ProfileOnly(s, PutProfile(s, n, p)) && ProfileOnly(s, SettleProfile(s, n, p))
  {
  }

  lemma ProfileGoesOn(s: State, s': State, n: Name, reply: Reply, w: ProfileWorker)
    requires ProfileOnly(s, s')
    ensures ProfileOnly(s, PIdle(s', n)) && ProfileOnly(s, PAfter(s', n, reply, w))
  {
  }

  lemma StepProfileMoves(overwrites: bool, s: State, n: Name, reply: Reply, equal: bool)
    requires n in s.pw && !reply.Failed? && !s.pw[n].PPut? && !s.pw[n].PDelete?
    ensures ProfileOnly(s, StepProfile(overwrites, s, n, reply, equal))
  {
    var w := s.pw[n];
    if !w.PGet? && ProfileIs(s, n, w.p) {
      var q := s.profiles[n];
      match w
      case PMetrics(p) =>
        var s' := PutProfile(s, n, q.(metrics := true));
        SettleProfileMoves(s, n, q.(metrics := true));
        ProfileGoesOn(s, s', n, reply, PGet(s'.profiles[n]));
      case PProtect(p, body) =>
        var s' := PutProfile(s, n, q.(finalizer := true));
        SettleProfileMoves(s, n, q.(finalizer := true));
        ProfileGoesOn(s, s', n, reply, PPut(s'.profiles[n], body));
      case PStatus(p) =>
        SettleProfileMoves(s, n, q);
        ProfileGoesOn(s, PutProfile(s, n, q), n, reply, w);
      case PDrop(p) =>
        SettleProfileMoves(s, n, q.(metrics := false, finalizer := false));
        ProfileGoesOn(s, SettleProfile(s, n, q.(metrics := false, finalizer := false)), n, reply, w);
    }
  }

  lemma StepProfileKeepsBackends(overwrites: bool, s: State, n: Name, reply: Reply, equal: bool)
    requires ProfileInv(s) && BackendInv(s) && n in s.pw && !reply.Failed?
    requires Harmless(overwrites, s, ProfileStep(n, reply, equal))
    ensures BackendInv(StepProfile(overwrites, s, n, reply, equal))
  {
    match s.pw[n]
    case PPut(p, body) => WriteAzureKeeps(overwrites, s, n, reply, equal);
    case PDelete(p) => ShrinkKeeps(s, s.azure - {p.uid});
    case _ =>
      StepProfileMoves(overwrites, s, n, reply, equal);
      ProfilesMoveKeeps(s, StepProfile(overwrites, s, n, reply, equal));
  }

  // ----- every step, every run -----

  lemma UserEventMoves(overwrites: bool, s: State, e: Event)
    requires e.ProfileCreate? || e.ProfileTouch? || e.ProfileDelete? || e.ProfileRead?
    ensures ProfileOnly(s, Next(overwrites, s, e))
  {
    match e
    case ProfileCreate(n) =>
      if n !in s.profiles {
        SettleProfileMoves(s, n, Profile(s.next, s.next, false, false, false));
      }
    case ProfileTouch(n) =>
      if n in s.profiles {
        SettleProfileMoves(s, n, s.profiles[n]);
      }
    case ProfileDelete(n) =>
      if n in s.profiles {
        SettleProfileMoves(s, n, s.profiles[n].(marked := true));
      }
    case ProfileRead(n) =>
  }

  lemma ProfileEventKeeps(overwrites: bool, s: State, e: Event)
    requires ProfileInv(s) && BackendInv(s) && Harmless(overwrites, s, e)
    requires e.ProfileCreate? || e.ProfileTouch? || e.ProfileDelete? || e.ProfileRead? || e.ProfileStep?
    ensures BackendInv(Next(overwrites, s, e))
  {
    if !e.ProfileStep? {
      UserEventMoves(overwrites, s, e);
      ProfilesMoveKeeps(s, Next(overwrites, s, e));
    } else if e.n in s.pw && !e.reply.Failed? {
      StepProfileKeepsBackends(overwrites, s, e.n, e.reply, e.equal);
    }
  }

  lemma DeleteBackendKeeps(s: State, n: Name)
    requires BackendInv(s)
    ensures BackendInv(Next(false, s, BackendDelete(n)))
  {
    if n in s.backends && !s.backends[n].marked {
      var b := s.backends[n];
      if b.metrics || b.finalizer {
        PutBackendKeeps(s, n, b.(marked := true));
      } else {
        UnkeptHasNone(s, n);
        RemoveBackendKeeps(s, n, s.bw);
      }
    }
  }

  lemma AzureEventKeeps(overwrites: bool, s: State, e: Event)
    requires BackendInv(s) && (e.AzureLose? || e.EndpointLose? || e.EndpointAdd?)
    ensures BackendInv(Next(overwrites, s, e))
  {
    match e
    case AzureLose(uid) => ShrinkKeeps(s, s.azure - {uid});
    case EndpointLose(uid, endpoint) => CutKeeps(s, uid, endpoint);
    case EndpointAdd(uid, tag) =>
      if uid in s.azure {
        ShrinkKeeps(s, Add(s, uid, Foreign(tag)).azure);
      }
  }

  lemma BackendUserEventKeeps(overwrites: bool, s: State, e: Event)
    requires BackendInv(s) && (e.BackendCreate? || e.BackendTouch? || e.BackendDelete? || e.BackendRead?)
    ensures BackendInv(Next(overwrites, s, e))
  {
    match e
    case BackendCreate(n, profile) =>
      if n !in s.backends {
        PutBackendKeeps(s, n, Backend(s.next, s.next, false, false, false, profile));
      }
    case BackendTouch(n) =>
      if n in s.backends {
        PutBackendKeeps(s, n, s.backends[n]);
      }
    case BackendDelete(n) => DeleteBackendKeeps(s, n);
    case BackendRead(n) =>
      if n in s.backends {
        ReadBackendKeeps(s, n);
      }
  }

  lemma BackendStepEventKeeps(overwrites: bool, s: State, n: Name, reply: Reply, turn: Turn)
    requires ProfileInv(s) && BackendInv(s)
    ensures BackendInv(Next(overwrites, s, BackendStep(n, reply, turn)))
  {
    if n in s.bw {
      BIdleKeeps(s, n);
      if !reply.Failed? {
        StepBackendKeeps(s, n, reply, turn);
      }
    }
  }

  lemma BackendCallKeeps(overwrites: bool, s: State, e: Event)
    requires BackendInv(s) && (e.BackendPut? || e.BackendCut?)
    ensures BackendInv(Next(overwrites, s, e))
  {
    if e.n in s.bw {
      if e.BackendCut? {
        WorkCutKeeps(s, e.n, e.endpoint, e.reply);
      } else if s.bw[e.n].BWork? {
        WorkPutKeeps(s, e.n, e.tag, e.reply);
      }
    }
  }

  lemma NextKeepsBackendInv(overwrites: bool, s: State, e: Event)
    requires ProfileInv(s) && BackendInv(s) && Harmless(overwrites, s, e)
    ensures BackendInv(Next(overwrites, s, e))
  {
    if e.AzureLose? || e.EndpointLose? || e.EndpointAdd? {
      AzureEventKeeps(overwrites, s, e);
    } else if e.ProfileCreate? || e.ProfileTouch? || e.ProfileDelete? || e.ProfileRead? || e.ProfileStep? {
      ProfileEventKeeps(overwrites, s, e);
    } else if e.BackendStep? {
      BackendStepEventKeeps(overwrites, s, e.n, e.reply, e.turn);
    } else if e.BackendPut? || e.BackendCut? {
      BackendCallKeeps(overwrites, s, e);
    } else {
      BackendUserEventKeeps(overwrites, s, e);
    }
  }

  /** No event of the run is a harmful profile write. */
  ghost predicate AllHarmless(overwrites: bool, es: seq<Event>) {
    es == [] ||
    (AllHarmless(overwrites, es[..|es| - 1]) && Harmless(overwrites, Run(overwrites, es[..|es| - 1]), es[|es| - 1]))
  }

  /** In every run without such a write, an Azure endpoint of a backend implies its backend, with
      the finalizer. */
  lemma {:induction false} AzureEndpointsHaveTheirBackend(overwrites: bool, es: seq<Event>)
    requires AllHarmless(overwrites, es)
    ensures BackendInv(Run(overwrites, es))
    ensures EndpointsGuarded(Run(overwrites, es).backends, Run(overwrites, es).azure)
  {
    if es != [] {
      AzureEndpointsHaveTheirBackend(overwrites, es[..|es| - 1]);
      AzureProfilesHaveTheirObject(overwrites, es[..|es| - 1]);
      NextKeepsBackendInv(overwrites, Run(overwrites, es[..|es| - 1]), es[|es| - 1]);
    }
  }
}
