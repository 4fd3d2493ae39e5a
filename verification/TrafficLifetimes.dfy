/** The first half of what every run of the traffic machine keeps: an Azure profile has its profile
    object, with the finalizer. */
module TrafficLifetimes {
  import opened Api
  import opened TrafficMachine

  // ----- profiles -----

  /** The profile object `n` exists with this UID, and with its finalizer. */
  predicate Held(profiles: map<Name, Profile>, n: Name, uid: Uid) {
    n in profiles && profiles[n].uid == uid && profiles[n].finalizer
  }

  /** Every Azure profile belongs to an existing profile object that has its finalizer. */
  ghost predicate ProfilesGuarded(profiles: map<Name, Profile>, azure: Azure) {
    forall u :: u in azure ==> Held(profiles, azure[u].name, u)
  }

  ghost predicate ProfileUids(profiles: map<Name, Profile>, next: nat) {
    && (forall n :: n in profiles ==> profiles[n].uid < next)
    && (forall n, m :: n in profiles && m in profiles && n != m ==> profiles[n].uid != profiles[m].uid)
  }

  /** The object `n` is being deleted and still there. */
  predicate Dying(profiles: map<Name, Profile>, n: Name, uid: Uid) {
    n in profiles && profiles[n].uid == uid && profiles[n].marked
  }

  predicate ProfileWorkerOk(profiles: map<Name, Profile>, azure: Azure, n: Name, w: ProfileWorker) {
    match w
    case PGet(p) => p.finalizer ==> Held(profiles, n, p.uid)
    case PPut(p, body) => Held(profiles, n, p.uid)
    case PDelete(p) => Dying(profiles, n, p.uid)
    case PDrop(p) => Dying(profiles, n, p.uid) && p.uid !in azure
    case _ => true
  }

  ghost predicate ProfileWorkersOk(profiles: map<Name, Profile>, azure: Azure, pw: map<Name, ProfileWorker>) {
    forall n :: n in pw ==> ProfileWorkerOk(profiles, azure, n, pw[n])
  }

  ghost predicate ProfileInv(s: State) {
    && ProfileUids(s.profiles, s.next)
    && ProfilesGuarded(s.profiles, s.azure)
    && ProfileWorkersOk(s.profiles, s.azure, s.pw)
  }

  /** Writing the object `n` keeps what is known of the profiles, as long as its finalizer is
      only taken off when Azure has nothing of it left, and workers on it lose nothing. */
  lemma PutProfileKeeps(s: State, n: Name, p: Profile)
    requires ProfileInv(s)
    requires n in s.profiles ==> p.uid == s.profiles[n].uid
    requires n !in s.profiles ==> p.uid == s.next
    requires n in s.profiles ==> (s.profiles[n].finalizer ==> p.finalizer) && (s.profiles[n].marked ==> p.marked)
    ensures ProfileInv(PutProfile(s, n, p))
  {
    var s' := PutProfile(s, n, p);
    forall m | m in s'.pw ensures ProfileWorkerOk(s'.profiles, s'.azure, m, s'.pw[m]) {
      assert ProfileWorkerOk(s.profiles, s.azure, m, s.pw[m]);
    }
  }

  lemma RemoveProfileKeeps(s: State, n: Name, pw: map<Name, ProfileWorker>)
    requires ProfileInv(s) && n in s.profiles && s.profiles[n].uid !in s.azure
    requires pw == s.pw || pw == s.pw - {n}
    requires n in pw ==> !s.profiles[n].marked && !s.profiles[n].finalizer
    ensures ProfileInv(s.(profiles := s.profiles - {n}, pw := pw))
  {
    var profiles := s.profiles - {n};
    forall m | m in pw ensures ProfileWorkerOk(profiles, s.azure, m, pw[m]) {
      assert ProfileWorkerOk(s.profiles, s.azure, m, s.pw[m]);
    }
    forall u | u in s.azure ensures Held(profiles, s.azure[u].name, u) {
      assert Held(s.profiles, s.azure[u].name, u);
    }
  }

  /** Azure profiles may go, and their endpoints change. */
  lemma AzureKeepsProfiles(s: State, azure: Azure)
    requires ProfileInv(s)
    requires forall u :: u in azure ==> u in s.azure && azure[u].name == s.azure[u].name
    ensures ProfileInv(s.(azure := azure))
  {
    forall m | m in s.pw ensures ProfileWorkerOk(s.profiles, azure, m, s.pw[m]) {
      assert ProfileWorkerOk(s.profiles, s.azure, m, s.pw[m]);
    }
  }

  lemma WriteAzureKeepsProfiles(overwrites: bool, s: State, n: Name, uid: Uid, body: set<Endpoint>)
    requires ProfileInv(s) && n in s.pw && s.pw[n].PPut? && s.pw[n].p.uid == uid
    ensures ProfileInv(s.(azure := WriteAzure(overwrites, s.azure, n, uid, body)))
  {
    var azure := WriteAzure(overwrites, s.azure, n, uid, body);
    assert ProfileWorkerOk(s.profiles, s.azure, n, s.pw[n]);
    forall m | m in s.pw ensures ProfileWorkerOk(s.profiles, azure, m, s.pw[m]) {
      assert ProfileWorkerOk(s.profiles, s.azure, m, s.pw[m]);
    }
  }

  lemma PGoToKeeps(s: State, n: Name, w: ProfileWorker)
    requires ProfileInv(s) && ProfileWorkerOk(s.profiles, s.azure, n, w)
    ensures ProfileInv(PGoTo(s, n, w))
  {
  }

  lemma PIdleKeeps(s: State, n: Name)
    requires ProfileInv(s)
    ensures ProfileInv(PIdle(s, n))
  {
  }

  /** A profile object without its finalizer has nothing in Azure. */
  lemma UnheldIsUnmade(s: State, n: Name)
    requires ProfileInv(s) && n in s.profiles
    ensures s.profiles[n].uid in s.azure ==> s.profiles[n].finalizer && s.azure[s.profiles[n].uid].name == n
  {
    var u := s.profiles[n].uid;
    if u in s.azure {
      assert Held(s.profiles, s.azure[u].name, u);
    }
  }

  lemma ReadProfileKeeps(s: State, n: Name)
    requires ProfileInv(s) && n in s.profiles
    ensures ProfileInv(ReadProfile(s, n))
  {
    UnheldIsUnmade(s, n);
  }

  lemma DropProfileKeeps(s: State, n: Name)
    requires ProfileInv(s) && n in s.pw && s.pw[n].PDrop? && ProfileIs(s, n, s.pw[n].p)
    ensures ProfileInv(PIdle(SettleProfile(s, n, s.profiles[n].(metrics := false, finalizer := false)), n))
  {
    assert ProfileWorkerOk(s.profiles, s.azure, n, s.pw[n]);
    RemoveProfileKeeps(s, n, s.pw - {n});
    assert PIdle(SettleProfile(s, n, s.profiles[n].(metrics := false, finalizer := false)), n) ==
           s.(profiles := s.profiles - {n}, pw := s.pw - {n});
  }

  /** A write of the object that goes on to `w`, or to nothing. */
  lemma WriteProfileKeeps(s: State, n: Name, p: Profile, reply: Reply, w: ProfileWorker)
    requires ProfileInv(s) && n in s.profiles && p.uid == s.profiles[n].uid
    requires (s.profiles[n].finalizer ==> p.finalizer) && (s.profiles[n].marked ==> p.marked)
    requires ProfileWorkerOk(PutProfile(s, n, p).profiles, s.azure, n, w)
    ensures ProfileInv(PAfter(PutProfile(s, n, p), n, reply, w))
    ensures ProfileInv(PIdle(PutProfile(s, n, p), n))
  {
    PutProfileKeeps(s, n, p);
    var s' := PutProfile(s, n, p);
    PIdleKeeps(s', n);
    PGoToKeeps(s', n, w);
  }

  lemma StepProfileKeeps(overwrites: bool, s: State, n: Name, reply: Reply, equal: bool)
    requires ProfileInv(s) && n in s.pw && !reply.Failed?
    ensures ProfileInv(StepProfile(overwrites, s, n, reply, equal))
  {
    assert ProfileWorkerOk(s.profiles, s.azure, n, s.pw[n]);
    PIdleKeeps(s, n);
    match s.pw[n]
    case PMetrics(p) =>
      if ProfileIs(s, n, p) {
        var q := s.profiles[n].(metrics := true);
        WriteProfileKeeps(s, n, q, reply, PGet(PutProfile(s, n, q).profiles[n]));
      }
    case PGet(p) =>
    case PProtect(p, body) =>
      if ProfileIs(s, n, p) {
        var q := s.profiles[n].(finalizer := true);
        WriteProfileKeeps(s, n, q, reply, PPut(PutProfile(s, n, q).profiles[n], body));
      }
    case PPut(p, body) =>
      WriteAzureKeepsProfiles(overwrites, s, n, p.uid, body);
      PGoToKeeps(s.(azure := WriteAzure(overwrites, s.azure, n, p.uid, body)), n, PStatus(p));
    case PStatus(p) =>
      if ProfileIs(s, n, p) {
        WriteProfileKeeps(s, n, s.profiles[n], reply, PStatus(p));
      }
    case PDelete(p) =>
      var azure := s.azure - {p.uid};
      AzureKeepsProfiles(s, azure);
      PIdleKeeps(s.(azure := azure), n);
      PGoToKeeps(s.(azure := azure), n, PDrop(p));
    case PDrop(p) =>
      if ProfileIs(s, n, p) {
        DropProfileKeeps(s, n);
      }
  }

  /** Nothing else touches the profile objects or their controller: `s'` differs from `s` in the
      backends, their controller, and endpoints. */
  ghost predicate BackendMove(s: State, s': State) {
    && s'.profiles == s.profiles && s'.pw == s.pw && s.next <= s'.next
    && s'.azure.Keys == s.azure.Keys && forall u :: u in s.azure ==> s'.azure[u].name == s.azure[u].name
  }

  /** Only the backends, their controller and the version counter change. */
  ghost predicate BackendOnly(s: State, s': State) {
    s'.azure == s.azure && s'.profiles == s.profiles && s'.pw == s.pw && s.next <= s'.next
  }

  lemma SettleMoves(s: State, n: Name, b: Backend)
    ensures BackendOnly(s, SettleBackend(s, n, b))
    ensures BackendOnly(s, PutBackend(s, n, b))
  {
  }

  lemma AfterMoves(s: State, s': State, n: Name, reply: Reply, w: BackendWorker)
    requires BackendOnly(s, s')
    ensures BackendOnly(s, BIdle(s', n)) && BackendOnly(s, BAfter(s', n, reply, w))
  {
  }

  lemma WriteBackendMoves(s: State, n: Name, reply: Reply)
    requires n in s.bw && BackendIs(s, n, s.bw[n].b)
    ensures BackendOnly(s, WriteBackend(s, n, reply))
  {
    var b := s.backends[n];
    match s.bw[n]
    case BMetrics(_) =>
      var b' := b.(metrics := true);
      SettleMoves(s, n, b');
      AfterMoves(s, PutBackend(s, n, b'), n, reply, BFind(PutBackend(s, n, b').backends[n]));
    case BProtect(_, uid) =>
      var b' := b.(finalizer := true);
      SettleMoves(s, n, b');
      AfterMoves(s, PutBackend(s, n, b'), n, reply, BWork(PutBackend(s, n, b').backends[n], uid));
    case DDrop(_) =>
      var b' := b.(metrics := false, finalizer := false);
      SettleMoves(s, n, b');
      AfterMoves(s, SettleBackend(s, n, b'), n, reply, s.bw[n]);
    case _ =>
      SettleMoves(s, n, b);
      AfterMoves(s, PutBackend(s, n, b), n, reply, s.bw[n]);
  }

  lemma StepBackendMoves(s: State, n: Name, reply: Reply, turn: Turn)
    requires n in s.bw && !reply.Failed?
    ensures BackendOnly(s, StepBackend(s, n, reply, turn))
  {
    if BackendIs(s, n, s.bw[n].b) {
      WriteBackendMoves(s, n, reply);
    }
  }

  lemma CutMoves(s: State, uid: Uid, e: Endpoint)
    ensures BackendMove(s, CutIfThere(s, uid, e))
  {
  }

  lemma WorkCutMoves(s: State, n: Name, e: Endpoint, reply: Reply)
    requires n in s.bw
    ensures BackendMove(s, WorkCut(s, n, e, reply))
  {
    if Strike(s.bw[n], e).Some? {
      CutMoves(s, s.bw[n].uid, e);
    }
  }

  lemma WorkPutMoves(s: State, n: Name, tag: string, reply: Reply)
    requires n in s.bw && s.bw[n].BWork?
    ensures BackendMove(s, WorkPut(s, n, tag, reply))
  {
  }

  lemma BackendUserEventMoves(overwrites: bool, s: State, e: Event)
    requires e.BackendCreate? || e.BackendTouch? || e.BackendDelete? || e.BackendRead?
    ensures BackendOnly(s, Next(overwrites, s, e))
  {
  }

  lemma EndpointEventMoves(overwrites: bool, s: State, e: Event)
    requires e.EndpointLose? || e.EndpointAdd?
    ensures BackendMove(s, Next(overwrites, s, e))
  {
  }

  lemma BackendStepEventMoves(overwrites: bool, s: State, n: Name, reply: Reply, turn: Turn)
    ensures BackendOnly(s, Next(overwrites, s, BackendStep(n, reply, turn)))
  {
    if n in s.bw && !reply.Failed? {
      StepBackendMoves(s, n, reply, turn);
    }
  }

  lemma BackendCallMoves(overwrites: bool, s: State, e: Event)
    requires e.BackendPut? || e.BackendCut?
    ensures BackendMove(s, Next(overwrites, s, e))
  {
    if e.n in s.bw {
      if e.BackendCut? {
        WorkCutMoves(s, e.n, e.endpoint, e.reply);
      } else if s.bw[e.n].BWork? {
        WorkPutMoves(s, e.n, e.tag, e.reply);
      }
    }
  }

  lemma BackendEventMoves(overwrites: bool, s: State, e: Event)
    requires e.BackendCreate? || e.BackendTouch? || e.BackendDelete? || e.BackendRead? || e.BackendStep? ||
             e.BackendPut? || e.BackendCut? || e.EndpointLose? || e.EndpointAdd?
    ensures BackendMove(s, Next(overwrites, s, e))
  {
    if e.BackendStep? {
      BackendStepEventMoves(overwrites, s, e.n, e.reply, e.turn);
    } else if e.BackendPut? || e.BackendCut? {
      BackendCallMoves(overwrites, s, e);
    } else if e.EndpointLose? || e.EndpointAdd? {
      EndpointEventMoves(overwrites, s, e);
    } else {
      BackendUserEventMoves(overwrites, s, e);
    }
  }

  lemma BackendMoveKeepsProfiles(s: State, s': State)
    requires ProfileInv(s) && BackendMove(s, s')
    ensures ProfileInv(s')
  {
    AzureKeepsProfiles(s, s'.azure);
  }

  lemma NextKeepsProfileInv(overwrites: bool, s: State, e: Event)
    requires ProfileInv(s)
    ensures ProfileInv(Next(overwrites, s, e))
  {
    match e
    case ProfileCreate(n) =>
      if n !in s.profiles {
        PutProfileKeeps(s, n, Profile(s.next, s.next, false, false, false));
      }
    case ProfileTouch(n) =>
      if n in s.profiles {
        PutProfileKeeps(s, n, s.profiles[n]);
      }
    case ProfileDelete(n) => DeleteProfileKeeps(s, n);
    case AzureLose(uid) => AzureKeepsProfiles(s, s.azure - {uid});
    case ProfileRead(n) =>
      if n !in s.pw && n in s.profiles {
        ReadProfileKeeps(s, n);
      }
    case ProfileStep(n, reply, equal) =>
      if n in s.pw {
        PIdleKeeps(s, n);
        if !reply.Failed? {
          StepProfileKeeps(overwrites, s, n, reply, equal);
        }
      }
    case _ =>
      BackendEventMoves(overwrites, s, e);
      BackendMoveKeepsProfiles(s, Next(overwrites, s, e));
  }

  lemma DeleteProfileKeeps(s: State, n: Name)
    requires ProfileInv(s)
    ensures ProfileInv(Next(false, s, ProfileDelete(n)))
  {
    if n in s.profiles && !s.profiles[n].marked {
      var p := s.profiles[n];
      if p.metrics || p.finalizer {
        PutProfileKeeps(s, n, p.(marked := true));
      } else {
        UnheldIsUnmade(s, n);
        RemoveProfileKeeps(s, n, s.pw);
      }
    }
  }

  /** In every run, an Azure profile implies its profile object, with the finalizer. */
  lemma {:induction false} AzureProfilesHaveTheirObject(overwrites: bool, es: seq<Event>)
    ensures ProfileInv(Run(overwrites, es))
    ensures ProfilesGuarded(Run(overwrites, es).profiles, Run(overwrites, es).azure)
  {
    if es != [] {
      AzureProfilesHaveTheirObject(overwrites, es[..|es| - 1]);
      NextKeepsProfileInv(overwrites, Run(overwrites, es[..|es| - 1]), es[|es| - 1]);
    }
  }
}
