/** Where the second half of the lifetime property ends. A profile write sends back the endpoints
    the profile had when it was read. If Azure takes them over, a write can bring back an endpoint
    whose backend has cleaned up and gone in between, or is about to. */
module TrafficRestore {
  import opened Api
  import opened TrafficMachine
  import opened TrafficLifetimes
  import opened TrafficEndpoints

  /** Some run, with Azure taking over the endpoints of a profile write, ends in `s`. */
  ghost predicate Reached(s: State) {
    exists es: seq<Event> :: Run(true, es) == s
  }

  lemma Step(s: State, e: Event) returns (s': State)
    requires Reached(s)
    ensures s' == Next(true, s, e) && Reached(s')
  {
    var es :| Run(true, es) == s;
    s' := Next(true, s, e);
    assert (es + [e])[..|es|] == es;
    assert Run(true, es + [e]) == s';
  }

  lemma Start()
    ensures Reached(Init)
  {
    assert Run(true, []) == Init;
  }

  /** A reading step of the only backend that is being reconciled. */
  lemma Onwards(s: State, n: Name, w: BackendWorker, turn: Turn) returns (s': State)
    requires Reached(s) && s.bw == map[n := w]
    requires !w.BMetrics? && !w.BProtect? && !w.BStatus? && !w.DDrop?
    ensures Reached(s') && s' == s.(bw := map[n := Onward(s.profiles, s.azure, w, turn)])
  {
    s' := Step(s, BackendStep(n, Done, turn));
    assert map[n := w][n := Onward(s.profiles, s.azure, w, turn)] == map[n := Onward(s.profiles, s.azure, w, turn)];
  }

  /** A writing step of it. */
  lemma Writes(s: State, n: Name, w: BackendWorker) returns (s': State)
    requires Reached(s) && s.bw == map[n := w] && (w.BMetrics? || w.BProtect? || w.DDrop?) && BackendIs(s, n, w.b)
    ensures Reached(s') && s' == WriteBackend(s, n, Done)
  {
    s' := Step(s, BackendStep(n, Done, GoOn));
  }

  const P: Name := "profile"
  const B: Name := "backend"
  const E := Fleet(4, B, "endpoint")

  function ProfileAt(version: nat, finalizer: bool): Profile {
    Profile(0, version, false, true, finalizer)
  }

  /** A profile is created and protected, and its Azure profile is about to be made. */
  lemma ProfileProtected() returns (s: State)
    ensures Reached(s)
    ensures s == State(3, map[P := ProfileAt(2, true)], map[], map[], map[P := PPut(ProfileAt(2, true), {})], map[])
  {
    Start();
    s := Step(Init, ProfileCreate(P));
    s := Step(s, ProfileRead(P));
    s := Step(s, ProfileStep(P, Done, false));
    assert s.profiles == map[P := ProfileAt(1, false)] && s.pw == map[P := PGet(ProfileAt(1, false))];
    s := Step(s, ProfileStep(P, Done, false));
    assert s.pw == map[P := PProtect(ProfileAt(1, false), {})];
    s := Step(s, ProfileStep(P, Done, false));
  }

  const Ready := State(4, map[P := ProfileAt(3, true)], map[], map[0 := AzProfile(P, {})], map[], map[])

  lemma ProfileReady()
    ensures Reached(Ready)
  {
    var s := ProfileProtected();
    s := Step(s, ProfileStep(P, Done, false));
    assert s.azure == map[0 := AzProfile(P, {})];
    s := Step(s, ProfileStep(P, Done, false));
    assert s == Ready;
  }

  function BackendAt(version: nat, marked: bool, finalizer: bool): Backend {
    Backend(4, version, marked, true, finalizer, P)
  }

  /** A backend of that profile is created and looks at Azure. */
  lemma BackendLooks() returns (s: State)
    ensures Reached(s)
    ensures s == Ready.(next := 6, backends := map[B := BackendAt(5, false, false)],
                        bw := map[B := BGate(BackendAt(5, false, false), 0, {})])
  {
    s := BackendStarts();
    var b := BackendAt(5, false, false);
    s := Onwards(s, B, BFind(b), GoOn);
    s := Onwards(s, B, BGet(b, 0), GoOn);
  }

  lemma BackendStarts() returns (s: State)
    ensures Reached(s)
    ensures s == Ready.(next := 6, backends := map[B := BackendAt(5, false, false)],
                        bw := map[B := BFind(BackendAt(5, false, false))])
  {
    ProfileReady();
    s := Step(Ready, BackendCreate(B, P));
    var b := Backend(4, 4, false, false, false, P);
    assert s.backends == map[B := b];
    s := Step(s, BackendRead(B));
    assert s.bw == map[B := BMetrics(b)];
    s := Writes(s, B, BMetrics(b));
    assert s.backends == map[B := BackendAt(5, false, false)];
  }

  /** It makes an endpoint. */
  const Serving := State(7, map[P := ProfileAt(3, true)], map[B := BackendAt(6, false, true)],
                         map[0 := AzProfile(P, {E})], map[], map[])

  lemma BackendServes()
    ensures Reached(Serving)
  {
    var s := BackendWorks();
    s := Step(s, BackendPut(B, "endpoint", Done));
    assert {} + {E} == {E};
    assert s.azure == map[0 := AzProfile(P, {E})];
    s := Step(s, BackendStep(B, Failed, GoOn));
    assert s == Serving;
  }

  lemma BackendWorks() returns (s: State)
    ensures Reached(s)
    ensures s == Ready.(next := 7, backends := map[B := BackendAt(6, false, true)],
                        bw := map[B := BWork(BackendAt(6, false, true), 0)])
  {
    s := BackendLooks();
    var b := BackendAt(5, false, false);
    s := Onwards(s, B, BGate(b, 0, {}), GoOn);
    s := Writes(s, B, BProtect(b, 0));
    assert s.backends == map[B := BackendAt(6, false, true)];
  }

  /** The profile is read, with that endpoint; then the backend is deleted. */
  lemma ProfileReadEarly() returns (s: State)
    ensures Reached(s)
    ensures s == Serving.(next := 8, backends := map[B := BackendAt(7, true, true)],
                          pw := map[P := PPut(ProfileAt(3, true), {E})])
  {
    BackendServes();
    s := Step(Serving, ProfileRead(P));
    s := Step(s, ProfileStep(P, Done, false));
    assert s.pw == map[P := PPut(ProfileAt(3, true), {E})];
    s := Step(s, BackendDelete(B));
  }

  /** The backend looks for what it has to delete. */
  lemma BackendLooksAgain() returns (s: State)
    ensures Reached(s)
    ensures s == Serving.(next := 8, backends := map[B := BackendAt(7, true, true)],
                          pw := map[P := PPut(ProfileAt(3, true), {E})],
                          bw := map[B := DSweep(BackendAt(7, true, true), 0, {E})])
  {
    s := ProfileReadEarly();
    var b := BackendAt(7, true, true);
    s := Step(s, BackendRead(B));
    assert s.bw == map[B := DFind(b)];
    s := Onwards(s, B, DFind(b), GoOn);
    s := Onwards(s, B, DGet(b, 0), GoOn);
    assert Own(b, {E}) == {E};
  }

  /** It deletes its endpoint. */
  lemma BackendCleansUp() returns (s: State)
    ensures Reached(s)
    ensures s == State(8, map[P := ProfileAt(3, true)], map[B := BackendAt(7, true, true)], map[0 := AzProfile(P, {})],
                       map[P := PPut(ProfileAt(3, true), {E})], map[B := DSweep(BackendAt(7, true, true), 0, {})])
  {
    s := BackendLooksAgain();
    s := Step(s, BackendCut(B, E, Done));
    assert {E} - {E} == {};
    assert s.azure == map[0 := AzProfile(P, {})];
  }

  /** It goes. */
  lemma BackendGoes() returns (s: State)
    ensures Reached(s)
    ensures s.backends == map[] && s.azure == map[0 := AzProfile(P, {})]
    ensures s.pw == map[P := PPut(ProfileAt(3, true), {E})]
  {
    s := BackendCleansUp();
    var b := BackendAt(7, true, true);
    s := Onwards(s, B, DSweep(b, 0, {}), GoOn);
    s := Writes(s, B, DDrop(b));
    assert s.backends == map[];
  }

  /** And the write of the profile brings its endpoint back. */
  lemma EndpointOutlivesBackend() returns (s: State)
    ensures Reached(s)
    ensures s.backends == map[] && s.azure == map[0 := AzProfile(P, {E})]
  {
    s := BackendGoes();
    s := Step(s, ProfileStep(P, Done, false));
  }

  lemma {:induction false} IgnoringIsHarmless(es: seq<Event>)
    ensures AllHarmless(false, es)
  {
    if es != [] {
      IgnoringIsHarmless(es[..|es| - 1]);
    }
  }

  /** Endpoints have their backend in every run if and only if Azure ignores the endpoints that a
      profile write carries. */
  lemma EndpointsGuardedIff(overwrites: bool)
    ensures (forall es: seq<Event> :: EndpointsGuarded(Run(overwrites, es).backends, Run(overwrites, es).azure)) <==>
            !overwrites
  {
    if overwrites {
      var s := EndpointOutlivesBackend();
      var es :| Run(true, es) == s;
      assert E in s.azure[0].endpoints && !Kept(s.backends, E.backend, E.owner, s.azure[0].name);
      assert !EndpointsGuarded(Run(overwrites, es).backends, Run(overwrites, es).azure);
    } else {
      forall es: seq<Event> ensures EndpointsGuarded(Run(overwrites, es).backends, Run(overwrites, es).azure) {
        IgnoringIsHarmless(es);
        AzureEndpointsHaveTheirBackend(overwrites, es);
      }
    }
  }

  // ----- one profile write, and everything that may follow -----

  function Play(overwrites: bool, s: State, es: seq<Event>): State
    decreases |es|
  {
    if es == [] then s else Play(overwrites, Next(overwrites, s, es[0]), es[1..])
  }

  ghost predicate HarmlessFrom(overwrites: bool, s: State, es: seq<Event>)
    decreases |es|
  {
    es == [] || (Harmless(overwrites, s, es[0]) && HarmlessFrom(overwrites, Next(overwrites, s, es[0]), es[1..]))
  }

  /** After these events every endpoint of a backend has its backend. */
  ghost predicate GuardedAfter(overwrites: bool, s: State, es: seq<Event>) {
    var t := Play(overwrites, s, es);
    EndpointsGuarded(t.backends, t.azure)
  }

  /** The state after `more` events that follow the run `es`. */
  ghost predicate Reaches(overwrites: bool, es: seq<Event>, more: seq<Event>) {
    Run(overwrites, es + more) == Play(overwrites, Run(overwrites, es), more)
  }

  lemma ReachesFirst(overwrites: bool, es: seq<Event>, more: seq<Event>)
    requires more != [] && Reaches(overwrites, es + [more[0]], more[1..])
    ensures Reaches(overwrites, es, more)
  {
    PlayFirst(overwrites, es, more);
    assert es + more == es + [more[0]] + more[1..];
  }

  lemma {:induction false} RunPlays(overwrites: bool, es: seq<Event>, more: seq<Event>)
    ensures Reaches(overwrites, es, more)
    decreases |more|
  {
    if more == [] {
      assert es + more == es;
    } else {
      RunPlays(overwrites, es + [more[0]], more[1..]);
      ReachesFirst(overwrites, es, more);
    }
  }

  lemma RunSnoc(overwrites: bool, es: seq<Event>, e: Event)
    ensures Run(overwrites, es + [e]) == Next(overwrites, Run(overwrites, es), e)
  {
    assert (es + [e])[..|es|] == es;
  }

  lemma PlayFirst(overwrites: bool, es: seq<Event>, more: seq<Event>)
    requires more != []
    ensures Play(overwrites, Run(overwrites, es), more) == Play(overwrites, Run(overwrites, es + [more[0]]), more[1..])
  {
    RunSnoc(overwrites, es, more[0]);
  }

  lemma {:induction false} HarmlessIsSafe(overwrites: bool, s: State, es: seq<Event>)
    requires ProfileInv(s) && BackendInv(s) && HarmlessFrom(overwrites, s, es)
    ensures GuardedAfter(overwrites, s, es)
    decreases |es|
  {
    if es != [] {
      NextKeepsProfileInv(overwrites, s, es[0]);
      NextKeepsBackendInv(overwrites, s, es[0]);
      HarmlessIsSafe(overwrites, Next(overwrites, s, es[0]), es[1..]);
    }
  }

  /** The backend `m` is on its way out and its clean-up will not delete its endpoint `x`. */
  ghost predicate Doomed(s: State, m: Name, uid: Uid, x: Endpoint) {
    && m in s.bw && Due(s.backends, m, s.bw[m].b) && s.backends[m].marked && !Admits(s.bw[m], uid, x)
    && uid in s.azure && x in s.azure[uid].endpoints && x.Fleet? && x.backend == m
  }

  /** One event of the backend controller, in front of what follows. */
  lemma OneMore(overwrites: bool, s: State, e: Event, rest: seq<Event>) returns (more: seq<Event>)
    requires e.BackendStep? || e.BackendCut?
    requires HarmlessFrom(overwrites, Next(overwrites, s, e), rest)
    requires !GuardedAfter(overwrites, Next(overwrites, s, e), rest)
    ensures HarmlessFrom(overwrites, s, more) && !GuardedAfter(overwrites, s, more)
  {
    more := [e] + rest;
    assert more[1..] == rest;
  }

  lemma DropStrands(overwrites: bool, s: State, m: Name, uid: Uid, x: Endpoint) returns (more: seq<Event>)
    requires Doomed(s, m, uid, x) && s.bw[m].DDrop?
    ensures HarmlessFrom(overwrites, s, more) && !GuardedAfter(overwrites, s, more)
  {
    var e := BackendStep(m, Done, GoOn);
    var t := Next(overwrites, s, e);
    assert t.azure == s.azure && m !in t.backends;
    assert !Kept(t.backends, x.backend, x.owner, t.azure[uid].name);
    more := OneMore(overwrites, s, e, []);
  }

  /** The clean-up goes through its list, which `x` is not on, and lets the backend go. */
  lemma {:induction false} SweepStrands(overwrites: bool, s: State, m: Name, uid: Uid, x: Endpoint)
    returns (more: seq<Event>)
    requires Doomed(s, m, uid, x) && s.bw[m].DSweep?
    ensures HarmlessFrom(overwrites, s, more) && !GuardedAfter(overwrites, s, more)
    decreases |s.bw[m].todo|
  {
    var todo := s.bw[m].todo;
    if todo == {} {
      var e := BackendStep(m, Done, GoOn);
      var rest := DropStrands(overwrites, Next(overwrites, s, e), m, uid, x);
      more := OneMore(overwrites, s, e, rest);
    } else {
      var y :| y in todo;
      var e := BackendCut(m, y, Done);
      CutStaysDoomed(overwrites, s, m, uid, x, y);
      var rest := SweepStrands(overwrites, Next(overwrites, s, e), m, uid, x);
      more := OneMore(overwrites, s, e, rest);
    }
  }

  lemma CutStaysDoomed(overwrites: bool, s: State, m: Name, uid: Uid, x: Endpoint, y: Endpoint)
    requires Doomed(s, m, uid, x) && s.bw[m].DSweep? && y in s.bw[m].todo
    ensures var t := Next(overwrites, s, BackendCut(m, y, Done));
            && Doomed(t, m, uid, x) && t.bw[m].DSweep? && |t.bw[m].todo| < |s.bw[m].todo|
  {
    var DSweep(b, u, todo) := s.bw[m];
    var t := Next(overwrites, s, BackendCut(m, y, Done));
    assert t.bw[m] == DSweep(b, u, todo - {y});
    assert t.azure[uid].endpoints == if u == uid then s.azure[uid].endpoints - {y} else s.azure[uid].endpoints;
  }

  lemma DoomedStrands(overwrites: bool, s: State, m: Name, uid: Uid, x: Endpoint) returns (more: seq<Event>)
    requires Doomed(s, m, uid, x)
    ensures HarmlessFrom(overwrites, s, more) && !GuardedAfter(overwrites, s, more)
  {
    if s.bw[m].DDrop? {
      more := DropStrands(overwrites, s, m, uid, x);
    } else if s.bw[m].DSweep? {
      more := SweepStrands(overwrites, s, m, uid, x);
    } else {
      var e := BackendStep(m, Done, GoOn);
      var t := Next(overwrites, s, e);
      assert t == BGoTo(s, m, Onward(s.profiles, s.azure, s.bw[m], GoOn));
      var rest;
      if t.bw[m].DDrop? {
        rest := DropStrands(overwrites, t, m, uid, x);
      } else {
        rest := SweepStrands(overwrites, t, m, uid, x);
      }
      more := OneMore(overwrites, s, e, rest);
    }
  }

  /** A harmful write leaves an endpoint without its backend, at once or in a continuation that
      consists of nothing but the backend's own clean-up. */
  lemma HarmfulWriteStrands(s: State, n: Name, reply: Reply, equal: bool) returns (more: seq<Event>)
    requires ProfileInv(s) && BackendInv(s)
    requires !Harmless(true, s, ProfileStep(n, reply, equal))
    ensures var s' := Next(true, s, ProfileStep(n, reply, equal));
            HarmlessFrom(true, s', more) && !GuardedAfter(true, s', more)
  {
    var uid := s.pw[n].p.uid;
    var s' := Next(true, s, ProfileStep(n, reply, equal));
    assert s'.azure == WriteAzure(true, s.azure, n, uid, s.pw[n].body);
    assert s'.backends == s.backends && s'.bw == s.bw;
    assert s'.azure[uid] == AzProfile(n, s.pw[n].body);
    var x :| x in s.pw[n].body && x.Fleet? && !MayReturn(s, n, uid, x);
    if !Kept(s.backends, x.backend, x.owner, n) {
      more := [];
      assert x in s'.azure[uid].endpoints;
    } else {
      assert BackendWorkerOk(s.profiles, s.backends, s.azure, s.next, x.backend, s.bw[x.backend]);
      more := DoomedStrands(true, s', x.backend, uid, x);
    }
  }

  /** The condition on one profile write, exactly. In a state where all is well it is met if and
      only if all stays well, and if and only if every endpoint of a backend has its backend
      after whatever follows, as long as later writes meet it too. */
  lemma WriteIsSafeIff(overwrites: bool, s: State, n: Name, reply: Reply, equal: bool)
    requires ProfileInv(s) && BackendInv(s)
    ensures var e := ProfileStep(n, reply, equal);
            var s' := Next(overwrites, s, e);
            && (Harmless(overwrites, s, e) <==> BackendInv(s'))
            && (Harmless(overwrites, s, e) <==>
                forall more :: HarmlessFrom(overwrites, s', more) ==> GuardedAfter(overwrites, s', more))
  {
    var e := ProfileStep(n, reply, equal);
    var s' := Next(overwrites, s, e);
    NextKeepsProfileInv(overwrites, s, e);
    if Harmless(overwrites, s, e) {
      NextKeepsBackendInv(overwrites, s, e);
      forall more | HarmlessFrom(overwrites, s', more) ensures GuardedAfter(overwrites, s', more) {
        HarmlessIsSafe(overwrites, s', more);
      }
    } else {
      var more := HarmfulWriteStrands(s, n, reply, equal);
      if BackendInv(s') {
        HarmlessIsSafe(overwrites, s', more);
      }
    }
  }

  /** A run that is harmless up to a harmful write has a continuation that goes wrong. */
  lemma HarmfulRunGoesWrong(es: seq<Event>, n: Name, reply: Reply, equal: bool) returns (more: seq<Event>)
    requires AllHarmless(true, es) && !Harmless(true, Run(true, es), ProfileStep(n, reply, equal))
    ensures var t := Run(true, es + [ProfileStep(n, reply, equal)] + more);
            !EndpointsGuarded(t.backends, t.azure)
  {
    var e := ProfileStep(n, reply, equal);
    AzureProfilesHaveTheirObject(true, es);
    AzureEndpointsHaveTheirBackend(true, es);
    more := HarmfulWriteStrands(Run(true, es), n, reply, equal);
    RunSnoc(true, es, e);
    RunPlays(true, es + [e], more);
  }
}
