/** What undisturbed reconciles of a backend and of a profile do. */
module TrafficRounds {
  import opened Api
  import opened TrafficMachine

  /** Deleting these endpoints, one call after the other. */
  function Sweep(ow: bool, s: State, n: Name, order: seq<Endpoint>): State
    decreases |order|
  {
    if order == [] then s else Sweep(ow, Next(ow, s, BackendCut(n, order[0], Done)), n, order[1..])
  }

  function Elements(order: seq<Endpoint>): set<Endpoint> {
    set e | e in order
  }

  lemma ElementsCons(order: seq<Endpoint>)
    requires order != []
    ensures Elements(order) == {order[0]} + Elements(order[1..])
  {
    assert order == [order[0]] + order[1..];
  }

  /** The Azure profile `uid` has lost `gone`, and nothing else has happened in Azure. */
  ghost predicate Lost(azure: Azure, azure': Azure, uid: Uid, gone: set<Endpoint>) {
    && azure'.Keys == azure.Keys
    && (forall k :: k in azure && k != uid ==> azure'[k] == azure[k])
    && (uid in azure ==> azure'[uid] == azure[uid].(endpoints := azure[uid].endpoints - gone))
  }

  lemma LostTogether(a: Azure, b: Azure, c: Azure, uid: Uid, g: set<Endpoint>, h: set<Endpoint>)
    requires Lost(a, b, uid, g) && Lost(b, c, uid, h)
    ensures Lost(a, c, uid, g + h)
  {
    if uid in a {
      assert a[uid].endpoints - g - h == a[uid].endpoints - (g + h);
    }
  }

  /** A worker in the middle of a clean-up, with these endpoints to go. */
  predicate Sweeps(w: BackendWorker, uid: Uid, todo: set<Endpoint>) {
    (w.BSweep? || w.DSweep?) && w.uid == uid && w.todo == todo
  }

  function Swept(w: BackendWorker): BackendWorker
    requires w.BSweep? || w.DSweep?
  {
    if w.BSweep? then BSweep(w.b, w.uid, {}) else DSweep(w.b, w.uid, {})
  }

  lemma CutTurn(ow: bool, s: State, n: Name, e: Endpoint) returns (t: State)
    requires n in s.bw && (s.bw[n].BSweep? || s.bw[n].DSweep?) && e in s.bw[n].todo
    ensures t == Next(ow, s, BackendCut(n, e, Done))
    ensures n in t.bw && Sweeps(t.bw[n], s.bw[n].uid, s.bw[n].todo - {e}) && Swept(t.bw[n]) == Swept(s.bw[n])
    ensures t == s.(azure := t.azure, bw := s.bw[n := t.bw[n]])
    ensures Lost(s.azure, t.azure, s.bw[n].uid, {e})
  {
    t := Next(ow, s, BackendCut(n, e, Done));
  }

  /** The clean-up takes exactly the listed endpoints out of the profile. */
  lemma {:induction false} SweepEnds(ow: bool, s: State, n: Name, order: seq<Endpoint>)
    requires n in s.bw && (s.bw[n].BSweep? || s.bw[n].DSweep?)
    requires Distinct(order) && s.bw[n].todo == Elements(order)
    ensures var t := Sweep(ow, s, n, order);
            && t == BGoTo(s.(azure := t.azure), n, Swept(s.bw[n]))
            && Lost(s.azure, t.azure, s.bw[n].uid, Elements(order))
    decreases |order|
  {
    if order == [] {
      assert Elements(order) == {};
      assert s.bw == s.bw[n := Swept(s.bw[n])];
    } else {
      var u := CutTurn(ow, s, n, order[0]);
      ElementsCons(order);
      assert order[0] !in order[1..];
      assert Elements(order) - {order[0]} == Elements(order[1..]);
      SweepEnds(ow, u, n, order[1..]);
      LostTogether(s.azure, u.azure, Sweep(ow, u, n, order[1..]).azure, s.bw[n].uid, {order[0]}, Elements(order[1..]));
    }
  }

  // ----- single steps -----

  lemma Moves(ow: bool, s: State, n: Name, w: BackendWorker, turn: Turn)
    requires !w.BMetrics? && !w.BProtect? && !w.BStatus? && !w.DDrop?
    ensures Next(ow, BGoTo(s, n, w), BackendStep(n, Done, turn)) == BGoTo(s, n, Onward(s.profiles, s.azure, w, turn))
  {
    assert s.bw[n := w][n := Onward(s.profiles, s.azure, w, turn)] == s.bw[n := Onward(s.profiles, s.azure, w, turn)];
  }

  lemma Reports(ow: bool, s: State, n: Name)
    requires n !in s.bw && n in s.backends
    ensures Next(ow, BGoTo(s, n, BStatus(s.backends[n])), BackendStep(n, Done, GoOn)) == PutBackend(s, n, s.backends[n])
  {
    assert s.bw[n := BStatus(s.backends[n])] - {n} == s.bw;
  }

  lemma Drops(ow: bool, s: State, n: Name)
    requires n !in s.bw && n in s.backends && s.backends[n].marked
    ensures Next(ow, BGoTo(s, n, DDrop(s.backends[n])), BackendStep(n, Done, GoOn)) == s.(backends := s.backends - {n})
  {
    assert s.bw[n := DDrop(s.backends[n])] - {n} == s.bw;
  }

  lemma SweepFrom(ow: bool, s: State, n: Name, w: BackendWorker, order: seq<Endpoint>) returns (azure: Azure)
    requires (w.BSweep? || w.DSweep?) && Distinct(order) && w.todo == Elements(order)
    ensures Sweep(ow, BGoTo(s, n, w), n, order) == BGoTo(s.(azure := azure), n, Swept(w))
    ensures Lost(s.azure, azure, w.uid, Elements(order))
  {
    var u := BGoTo(s, n, w);
    SweepEnds(ow, u, n, order);
    azure := Sweep(ow, u, n, order).azure;
    assert s.bw[n := w][n := Swept(w)] == s.bw[n := Swept(w)];
  }

  lemma NoneOwn(b: Backend, azure: Azure, azure': Azure, uid: Uid)
    requires uid in azure && Lost(azure, azure', uid, Own(b, azure[uid].endpoints))
    ensures Own(b, azure'[uid].endpoints) == {}
  {
  }

  // ----- a backend whose service is gone, or has weight zero -----

  /** The backend `n` is not being reconciled, and the Azure profile it refers to is there. */
  predicate Placed(s: State, n: Name) {
    && n !in s.bw && n in s.backends && s.backends[n].profile in s.profiles
    && s.profiles[s.backends[n].profile].uid in s.azure
  }

  function Home(s: State, n: Name): Uid
    requires Placed(s, n)
  {
    s.profiles[s.backends[n].profile].uid
  }

  /** The order in which the backend's endpoints are deleted. */
  ghost predicate Clears(s: State, n: Name, order: seq<Endpoint>)
    requires Placed(s, n)
  {
    Distinct(order) && Elements(order) == Own(s.backends[n], s.azure[Home(s, n)].endpoints)
  }

  /** An undisturbed reconcile of a backend that finds it has to clean up. */
  function CleanUpRound(ow: bool, s: State, n: Name, order: seq<Endpoint>): State {
    var s1 := Next(ow, s, BackendRead(n));
    var s2 := Next(ow, s1, BackendStep(n, Done, GoOn));
    var s3 := Next(ow, s2, BackendStep(n, Done, GoOn));
    var s4 := Next(ow, s3, BackendStep(n, Done, CleanUp));
    var s5 := Sweep(ow, s4, n, order);
    var s6 := Next(ow, s5, BackendStep(n, Done, GoOn));
    Next(ow, s6, BackendStep(n, Done, GoOn))
  }

  /** Afterwards the Azure profile has none of the backend's endpoints and all the others, and
      the backend is as it was. */
  lemma CleanUpClears(ow: bool, s: State, n: Name, order: seq<Endpoint>)
    requires Placed(s, n) && Clears(s, n, order) && !s.backends[n].marked && s.backends[n].metrics
    ensures var t := CleanUpRound(ow, s, n, order);
            && Lost(s.azure, t.azure, Home(s, n), Own(s.backends[n], s.azure[Home(s, n)].endpoints))
            && Own(s.backends[n], t.azure[Home(s, n)].endpoints) == {}
            && t.profiles == s.profiles && n !in t.bw
            && t.backends == s.backends[n := s.backends[n].(version := s.next)]
  {
    var b, uid := s.backends[n], Home(s, n);
    Moves(ow, s, n, BFind(b), GoOn);
    Moves(ow, s, n, BGet(b, uid), GoOn);
    Moves(ow, s, n, BGate(b, uid, s.azure[uid].endpoints), CleanUp);
    var azure := SweepFrom(ow, s, n, BSweep(b, uid, Elements(order)), order);
    NoneOwn(b, s.azure, azure, uid);
    var u := s.(azure := azure);
    Moves(ow, u, n, BSweep(b, uid, {}), GoOn);
    Reports(ow, u, n);
    assert CleanUpRound(ow, s, n, order) == PutBackend(u, n, b);
  }

  // ----- a backend that is being deleted -----

  function DeleteRound(ow: bool, s: State, n: Name, order: seq<Endpoint>): State {
    var s1 := Next(ow, s, BackendRead(n));
    var s2 := Next(ow, s1, BackendStep(n, Done, GoOn));
    var s3 := Next(ow, s2, BackendStep(n, Done, GoOn));
    var s4 := Sweep(ow, s3, n, order);
    var s5 := Next(ow, s4, BackendStep(n, Done, GoOn));
    Next(ow, s5, BackendStep(n, Done, GoOn))
  }

  /** Deleting a backend takes its endpoints out of Azure, and then the backend goes. */
  lemma DeletionClears(ow: bool, s: State, n: Name, order: seq<Endpoint>)
    requires Placed(s, n) && Clears(s, n, order) && s.backends[n].marked && s.backends[n].finalizer
    ensures var t := DeleteRound(ow, s, n, order);
            && Lost(s.azure, t.azure, Home(s, n), Own(s.backends[n], s.azure[Home(s, n)].endpoints))
            && Own(s.backends[n], t.azure[Home(s, n)].endpoints) == {}
            && t.profiles == s.profiles && n !in t.bw && t.backends == s.backends - {n}
  {
    var b, uid := s.backends[n], Home(s, n);
    Moves(ow, s, n, DFind(b), GoOn);
    Moves(ow, s, n, DGet(b, uid), GoOn);
    var azure := SweepFrom(ow, s, n, DSweep(b, uid, Elements(order)), order);
    NoneOwn(b, s.azure, azure, uid);
    var u := s.(azure := azure);
    Moves(ow, u, n, DSweep(b, uid, {}), GoOn);
    Drops(ow, u, n);
    assert DeleteRound(ow, s, n, order) == u.(backends := s.backends - {n});
  }

  // ----- profiles -----

  /** An undisturbed reconcile of a profile, `equal` being what the comparison finds. Once it is
      over, the steps that are left do nothing. */
  function ProfileRound(ow: bool, s: State, n: Name, equal: bool): State {
    var s1 := Next(ow, s, ProfileRead(n));
    var s2 := Next(ow, s1, ProfileStep(n, Done, equal));
    var s3 := Next(ow, s2, ProfileStep(n, Done, equal));
    var s4 := Next(ow, s3, ProfileStep(n, Done, equal));
    Next(ow, s4, ProfileStep(n, Done, equal))
  }

  /** Deleting a profile takes its Azure profile along. */
  lemma ProfileDeletionClears(ow: bool, s: State, n: Name, equal: bool)
    requires n !in s.pw && n in s.profiles && s.profiles[n].marked && s.profiles[n].finalizer
    ensures var t := ProfileRound(ow, s, n, equal);
            && t.azure == s.azure - {s.profiles[n].uid} && t.profiles == s.profiles - {n}
            && t.backends == s.backends && n !in t.pw
  {
    var p := s.profiles[n];
    var s1 := Next(ow, s, ProfileRead(n));
    assert s1 == PGoTo(s, n, PDelete(p));
    var s2 := Next(ow, s1, ProfileStep(n, Done, equal));
    assert s2.pw[n] == PDrop(p) && s2.azure == s.azure - {p.uid};
    var s3 := Next(ow, s2, ProfileStep(n, Done, equal));
    assert n !in s3.pw && s3.profiles == s.profiles - {n};
    assert ProfileRound(ow, s, n, equal) == s3;
  }

  lemma StatusEnds(ow: bool, s: State, n: Name, p: Profile, equal: bool)
    requires n !in s.pw && n in s.profiles && s.profiles[n] == p
    ensures Next(ow, PGoTo(s, n, PStatus(p)), ProfileStep(n, Done, equal)) == PutProfile(s, n, p)
  {
    assert s.pw[n := PStatus(p)] - {n} == s.pw;
  }

  lemma WritingMoves(ow: bool, s: State, n: Name, p: Profile, body: set<Endpoint>, equal: bool)
    ensures Next(ow, PGoTo(s, n, PPut(p, body)), ProfileStep(n, Done, equal)) ==
            PGoTo(s.(azure := WriteAzure(ow, s.azure, n, p.uid, body)), n, PStatus(p))
  {
    assert s.pw[n := PPut(p, body)][n := PStatus(p)] == s.pw[n := PStatus(p)];
  }

  lemma ProtectingMoves(ow: bool, s: State, n: Name, p: Profile, body: set<Endpoint>, equal: bool)
    requires n in s.profiles && s.profiles[n] == p
    ensures var u := PutProfile(s, n, p.(finalizer := true));
            Next(ow, PGoTo(s, n, PProtect(p, body)), ProfileStep(n, Done, equal)) ==
            PGoTo(u, n, PPut(u.profiles[n], body))
  {
    var u := PutProfile(s, n, p.(finalizer := true));
    assert s.pw[n := PProtect(p, body)][n := PPut(u.profiles[n], body)] == s.pw[n := PPut(u.profiles[n], body)];
  }

  /** The endpoints a profile is read with; none if there is no Azure profile yet. */
  function Found(azure: Azure, uid: Uid): set<Endpoint> {
    if uid in azure then azure[uid].endpoints else {}
  }

  /** The Azure profile of `n` is there with the endpoints it had, and nothing else has happened
      in Azure. */
  ghost predicate Present(azure: Azure, azure': Azure, uid: Uid, n: Name) {
    && azure'.Keys == azure.Keys + {uid}
    && azure'[uid] == AzProfile(n, Found(azure, uid))
    && forall k :: k in azure && k != uid ==> azure'[k] == azure[k]
  }

  /** The profile that is read when it is written back changes nothing, whatever Azure makes of
      the endpoints in the request. */
  lemma WrittenBack(ow: bool, azure: Azure, n: Name, uid: Uid)
    ensures Present(azure, WriteAzure(ow, azure, n, uid, Found(azure, uid)), uid, n)
  {
  }

  lemma ReadMoves(ow: bool, s: State, n: Name, p: Profile, equal: bool)
    requires n !in s.pw && n in s.profiles && s.profiles[n] == p && !p.marked && p.metrics
    ensures var body := Found(s.azure, p.uid);
            var w := if p.uid in s.azure && equal then PStatus(p)
                     else if p.finalizer then PPut(p, body) else PProtect(p, body);
            Next(ow, Next(ow, s, ProfileRead(n)), ProfileStep(n, Done, equal)) == PGoTo(s, n, w)
  {
    assert Next(ow, s, ProfileRead(n)) == PGoTo(s, n, PGet(p));
    var body := Found(s.azure, p.uid);
    var w := if p.uid in s.azure && equal then PStatus(p) else if p.finalizer then PPut(p, body) else PProtect(p, body);
    assert s.pw[n := PGet(p)][n := w] == s.pw[n := w];
  }

  lemma IdleStays(ow: bool, s: State, n: Name, equal: bool)
    requires n !in s.pw
    ensures Next(ow, s, ProfileStep(n, Done, equal)) == s
  {
  }

  /** A profile that is as it should be in Azure is only reported on. */
  lemma EqualProfileStays(ow: bool, s: State, n: Name)
    requires n !in s.pw && n in s.profiles && !s.profiles[n].marked && s.profiles[n].metrics
    requires s.profiles[n].uid in s.azure
    ensures ProfileRound(ow, s, n, true) == PutProfile(s, n, s.profiles[n])
  {
    var p := s.profiles[n];
    ReadMoves(ow, s, n, p, true);
    StatusEnds(ow, s, n, p, true);
    var t := PutProfile(s, n, p);
    IdleStays(ow, t, n, true);
  }

  /** Any other gets its Azure profile, under its own name, and is protected; the endpoints that
      were there stay, whatever Azure makes of those in the request. */
  lemma ProfileIsWritten(ow: bool, s: State, n: Name, equal: bool)
    requires n !in s.pw && n in s.profiles && !s.profiles[n].marked && s.profiles[n].metrics
    requires !equal || s.profiles[n].uid !in s.azure
    ensures var t := ProfileRound(ow, s, n, equal);
            && Present(s.azure, t.azure, s.profiles[n].uid, n)
            && n in t.profiles
            && t.profiles == s.profiles[n := s.profiles[n].(version := t.profiles[n].version, finalizer := true)]
            && t.backends == s.backends && t.bw == s.bw && t.pw == s.pw
  {
    var p := s.profiles[n];
    var body := Found(s.azure, p.uid);
    ReadMoves(ow, s, n, p, equal);
    WrittenBack(ow, s.azure, n, p.uid);
    var u := if p.finalizer then s else PutProfile(s, n, p.(finalizer := true));
    if !p.finalizer {
      ProtectingMoves(ow, s, n, p, body, equal);
    }
    WritingMoves(ow, u, n, u.profiles[n], body, equal);
    var v := u.(azure := WriteAzure(ow, s.azure, n, p.uid, body));
    StatusEnds(ow, v, n, u.profiles[n], equal);
    IdleStays(ow, PutProfile(v, n, u.profiles[n]), n, equal);
    assert ProfileRound(ow, s, n, equal) == PutProfile(v, n, u.profiles[n]);
  }
}
