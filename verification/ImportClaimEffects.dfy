/** What an undisturbed reconcile of an InternalServiceImport does, in every state it may find. */
module ImportClaimEffects {
  import opened Api
  import opened ImportStatus
  import opened ImportClaim
  import opened ImportClaimRuns

  /** Nobody is at work on a request. */
  predicate Calm(s: State, ns: Namespace) {
    s.workers == map[] && Seen(s.seen, s.si) && ns in s.requests
  }

  /** At most the request of `ns` has changed. */
  ghost predicate OthersStay(s: State, t: State, ns: Namespace) {
    && s.requests - {ns} == t.requests - {ns}
    && t.workers == map[] && Seen(t.seen, t.si)
  }

  ghost predicate Untouched(s: State, t: State) {
    t.si == s.si && t.requests == s.requests && t.workers == map[]
  }

  /** The request neither imports anything nor is held back from going. */
  ghost predicate LetGo(s: State, t: State, ns: Namespace)
    requires ns in s.requests
  {
    var x := s.requests[ns];
    && t.si == s.si && OthersStay(s, t, ns)
    && if x.marked && x.finalizer then ns !in t.requests
       else ns in t.requests &&
            t.requests[ns] == x.(version := t.requests[ns].version, finalizer := false, status := EmptyStatus)
  }

  /** The request is as it was but for its finalizer, or gone if it was to go. */
  ghost predicate Loosened(s: State, t: State, ns: Namespace)
    requires ns in s.requests
  {
    var x := s.requests[ns];
    && OthersStay(s, t, ns)
    && if x.marked then ns !in t.requests
       else ns in t.requests && t.requests[ns] == x.(version := t.requests[ns].version, finalizer := false)
  }

  /** The claim of `ns` is off the ServiceImport and the others are still there; with the last
      claim goes the protection, and a ServiceImport that waited for it is gone. */
  ghost predicate ClaimTaken(i: Import, si': Option<Import>, ns: Namespace) {
    if ns !in Claims(i) then si' == Some(i)
    else if Claims(i).Keys == {ns} then
      if i.marked then si'.None?
      else si'.Some? && si'.value == i.(version := si'.value.version, finalizer := false, inUseBy := None)
    else
      && si'.Some? && si'.value.inUseBy.Some?
      && si'.value == i.(version := si'.value.version, finalizer := true, inUseBy := si'.value.inUseBy)
      && Claims(si'.value) == Claims(i) - {ns}
  }

  /** The request carries what the ServiceImport says. */
  ghost predicate Imports(s: State, t: State, ns: Namespace, status: Status, protected: bool)
    requires ns in s.requests
  {
    && OthersStay(s, t, ns) && ns in t.requests
    && t.requests[ns] == s.requests[ns].(version := t.requests[ns].version, status := status, finalizer := protected)
  }

  /** The claim of `ns`, and nobody else's, is on the ServiceImport, which is protected. */
  ghost predicate ClaimMade(i: Import, si': Option<Import>, ns: Namespace, cluster: ClusterId) {
    && si'.Some?
    && si'.value == i.(version := si'.value.version, finalizer := true, inUseBy := Some(map[ns := cluster]))
  }

  lemma OnlyWorker(ns: Namespace, w: Worker)
    ensures map[ns := w] - {ns} == map[]
  {
  }

  lemma OneOutOthers(m: map<Namespace, Request>, ns: Namespace, x: Request)
    ensures m[ns := x] - {ns} == m - {ns} == m - {ns} - {ns}
  {
  }

  /** How every round starts. */
  lemma Starts(s: State, ns: Namespace) returns (s2: State)
    requires Calm(s, ns)
    ensures s2 == Decide(s.(workers := map[ns := Fetching(s.requests[ns])]), ns, s.requests[ns], s.si)
    ensures Round(s, ns) == Drive(s2, ns, 3)
  {
    var s1 := Next(s, Read(ns));
    assert s1.workers == map[ns := Fetching(s.requests[ns])];
    assert s1 == s.(workers := map[ns := Fetching(s.requests[ns])]);
    s2 := Next(s1, Fetch(ns, s1.si));
    var s3 := Next(s2, Step(ns, Done));
    var s4 := Next(s3, Step(ns, Done));
    assert Drive(s4, ns, 1) == Drive(Next(s4, Step(ns, Done)), ns, 0);
    assert Drive(s3, ns, 2) == Drive(s4, ns, 1);
    assert Drive(s2, ns, 3) == Drive(s3, ns, 2);
  }

  /** The next `n` calls of the reconcile, all of which succeed. */
  function Drive(s: State, ns: Namespace, n: nat): State
    decreases n
  {
    if n == 0 then s else Drive(Next(s, Step(ns, Done)), ns, n - 1)
  }

  lemma {:induction false} DoneStays(s: State, ns: Namespace, n: nat)
    requires s.workers == map[]
    ensures Drive(s, ns, n) == s
  {
    if n > 0 {
      assert Next(s, Step(ns, Done)) == s;
      DoneStays(s, ns, n - 1);
    }
  }

  /** `s` with `ns` at `w`. */
  function At(s: State, ns: Namespace, w: Worker): State {
    s.(workers := map[ns := w])
  }

  lemma Steps(s: State, ns: Namespace, w: Worker, n: nat)
    requires n > 0
    ensures Drive(At(s, ns, w), ns, n) == Drive(StepWorker(At(s, ns, w), ns, w, Done), ns, n - 1)
  {
  }

  lemma UnprotectingEnds(s: State, ns: Namespace, n: nat)
    requires n > 0 && ns in s.requests && s.requests[ns].finalizer && Seen(s.seen, s.si)
    ensures var t := Drive(At(s, ns, Unprotecting(s.requests[ns])), ns, n);
            Loosened(s, t, ns) && t.si == s.si
  {
    var w := Unprotecting(s.requests[ns]);
    Steps(s, ns, w, n);
    var t := StepWorker(At(s, ns, w), ns, w, Done);
    OnlyWorker(ns, w);
    OneOutOthers(s.requests, ns, s.requests[ns].(version := s.next, finalizer := false));
    DoneStays(t, ns, n - 1);
  }

  lemma ClearingEnds(s: State, ns: Namespace, n: nat)
    requires n > 0 && ns in s.requests && Seen(s.seen, s.si)
    ensures var t := Drive(At(s, ns, Clearing(s.requests[ns])), ns, n);
            Imports(s, t, ns, EmptyStatus, s.requests[ns].finalizer) && t.si == s.si
  {
    var w := Clearing(s.requests[ns]);
    Steps(s, ns, w, n);
    var t := StepWorker(At(s, ns, w), ns, w, Done);
    OnlyWorker(ns, w);
    OneOutOthers(s.requests, ns, s.requests[ns].(version := s.next, status := EmptyStatus));
    DoneStays(t, ns, n - 1);
  }

  lemma ReleasedEnds(s: State, ns: Namespace)
    requires ns in s.requests && s.requests[ns].finalizer && !s.requests[ns].marked && Seen(s.seen, s.si)
    ensures LetGo(s, Drive(At(s, ns, Releasing(s.requests[ns])), ns, 3), ns)
  {
    var x := s.requests[ns];
    var w := Releasing(x);
    Steps(s, ns, w, 3);
    var u := PutRequest(s, ns, x.(finalizer := false));
    assert StepWorker(At(s, ns, w), ns, w, Done) == At(u, ns, Clearing(u.requests[ns]));
    ClearingEnds(u, ns, 2);
    OneOutOthers(s.requests, ns, u.requests[ns]);
  }

  lemma ReleasedGoes(s: State, ns: Namespace)
    requires ns in s.requests && s.requests[ns].finalizer && s.requests[ns].marked && Seen(s.seen, s.si)
    ensures LetGo(s, Drive(At(s, ns, Releasing(s.requests[ns])), ns, 3), ns)
  {
    var w := Releasing(s.requests[ns]);
    Steps(s, ns, w, 3);
    OnlyWorker(ns, w);
    var t := StepWorker(At(s, ns, w), ns, w, Done);
    assert t == s.(requests := s.requests - {ns}, workers := map[]);
    DoneStays(t, ns, 2);
  }

  lemma UnheldClears(s: State, ns: Namespace)
    requires ns in s.requests && !s.requests[ns].finalizer && Seen(s.seen, s.si)
    ensures LetGo(s, Drive(At(s, ns, Releasing(s.requests[ns])), ns, 3), ns)
  {
    var w := Releasing(s.requests[ns]);
    Steps(s, ns, w, 3);
    assert StepWorker(At(s, ns, w), ns, w, Done) == At(s, ns, Clearing(s.requests[ns]));
    ClearingEnds(s, ns, 2);
  }

  lemma ReleasingEnds(s: State, ns: Namespace)
    requires ns in s.requests && Seen(s.seen, s.si)
    ensures LetGo(s, Drive(At(s, ns, Releasing(s.requests[ns])), ns, 3), ns)
  {
    if !s.requests[ns].finalizer {
      UnheldClears(s, ns);
    } else if s.requests[ns].marked {
      ReleasedGoes(s, ns);
    } else {
      ReleasedEnds(s, ns);
    }
  }

  lemma FulfillingEnds(s: State, ns: Namespace, i: Import, n: nat)
    requires n > 0 && ns in s.requests && Seen(s.seen, s.si)
    ensures var t := Drive(At(s, ns, Fulfilling(s.requests[ns], i)), ns, n);
            Imports(s, t, ns, i.status, s.requests[ns].finalizer) && t.si == s.si
  {
    var w := Fulfilling(s.requests[ns], i);
    Steps(s, ns, w, n);
    var t := StepWorker(At(s, ns, w), ns, w, Done);
    OnlyWorker(ns, w);
    OneOutOthers(s.requests, ns, s.requests[ns].(version := s.next, status := i.status));
    DoneStays(t, ns, n - 1);
  }

  lemma ClaimingEnds(s: State, ns: Namespace, n: nat)
    requires n > 1 && ns in s.requests && Seen(s.seen, s.si) && s.requests[ns].finalizer
    requires s.si.Some? && Claims(s.si.value) == map[]
    ensures var t := Drive(At(s, ns, Claiming(s.requests[ns], s.si.value)), ns, n);
            && Imports(s, t, ns, s.si.value.status, true)
            && ClaimMade(s.si.value, t.si, ns, s.requests[ns].cluster)
  {
    var i, x := s.si.value, s.requests[ns];
    var w := Claiming(x, i);
    Steps(s, ns, w, n);
    OnlyWorker(ns, w);
    var u := PutImport(s, i.(inUseBy := Some(Claims(i)[ns := x.cluster]), finalizer := true));
    assert Claims(i)[ns := x.cluster] == map[ns := x.cluster];
    assert StepWorker(At(s, ns, w), ns, w, Done) == At(u, ns, Fulfilling(x, u.si.value));
    FulfillingEnds(u, ns, u.si.value, n - 1);
  }

  lemma ProtectingEnds(s: State, ns: Namespace)
    requires ns in s.requests && Seen(s.seen, s.si)
    requires s.si.Some? && Claims(s.si.value) == map[]
    ensures var t := Drive(At(s, ns, Protecting(s.requests[ns], s.si.value)), ns, 3);
            && Imports(s, t, ns, s.si.value.status, true)
            && ClaimMade(s.si.value, t.si, ns, s.requests[ns].cluster)
  {
    var i, x := s.si.value, s.requests[ns];
    var w := Protecting(x, i);
    Steps(s, ns, w, 3);
    OnlyWorker(ns, w);
    var u := PutRequest(s, ns, x.(finalizer := true));
    assert StepWorker(At(s, ns, w), ns, w, Done) == At(u, ns, Claiming(u.requests[ns], i));
    ClaimingEnds(u, ns, 2);
    OneOutOthers(s.requests, ns, u.requests[ns]);
  }

  lemma TakingLeaves(s: State, ns: Namespace)
    requires s.si.Some? && ns in Claims(s.si.value) && Seen(s.seen, s.si)
    ensures var u := Withdrawn(s, Claims(s.si.value) - {ns});
            && ClaimTaken(s.si.value, u.si, ns) && Seen(u.seen, u.si)
            && u.requests == s.requests && u.workers == s.workers
  {
    var claims := Claims(s.si.value);
    if claims - {ns} == map[] {
      forall m | m in claims ensures m == ns {
        assert m != ns ==> m in claims - {ns};
      }
      assert claims.Keys == {ns};
    }
  }

  lemma WithdrawingEnds(s: State, ns: Namespace)
    requires ns in s.requests && s.requests[ns].finalizer && Seen(s.seen, s.si)
    requires s.si.Some? && ns in Claims(s.si.value)
    ensures var t := Drive(At(s, ns, Withdrawing(s.requests[ns], s.si.value)), ns, 3);
            Loosened(s, t, ns) && ClaimTaken(s.si.value, t.si, ns)
  {
    var i, x := s.si.value, s.requests[ns];
    var w := Withdrawing(x, i);
    Steps(s, ns, w, 3);
    OnlyWorker(ns, w);
    TakingLeaves(s, ns);
    var u := Withdrawn(s, Claims(i) - {ns});
    assert StepWorker(At(s, ns, w), ns, w, Done) == At(u, ns, Unprotecting(x));
    UnprotectingEnds(u, ns, 2);
  }

  /** Without a ServiceImport the request imports nothing and is not held back. */
  lemma NothingToImport(s: State, ns: Namespace)
    requires Calm(s, ns) && s.si.None?
    ensures LetGo(s, Round(s, ns), ns)
  {
    var s2 := Starts(s, ns);
    assert s2 == At(s, ns, Releasing(s.requests[ns]));
    ReleasingEnds(s, ns);
  }

  /** A ServiceImport that is still to be resolved is waited for. */
  lemma UnresolvedWaits(s: State, ns: Namespace)
    requires Calm(s, ns) && s.si.Some? && !s.si.value.marked && s.si.value.status.clusters == []
    ensures Untouched(s, Round(s, ns))
  {
    var s2 := Starts(s, ns);
    OnlyWorker(ns, Fetching(s.requests[ns]));
    DoneStays(s2, ns, 3);
  }

  /** When the request or the ServiceImport is being deleted, the claim is withdrawn and the
      request let go; a request that holds nothing is left alone. */
  lemma DeletionWithdraws(s: State, ns: Namespace)
    requires Calm(s, ns) && s.si.Some? && (s.si.value.marked || s.si.value.status.clusters != [])
    requires s.requests[ns].marked || s.si.value.marked
    ensures !s.requests[ns].finalizer ==> Untouched(s, Round(s, ns))
    ensures s.requests[ns].finalizer ==> Loosened(s, Round(s, ns), ns) && ClaimTaken(s.si.value, Round(s, ns).si, ns)
  {
    var i, x := s.si.value, s.requests[ns];
    var s2 := Starts(s, ns);
    OnlyWorker(ns, Fetching(x));
    if !x.finalizer {
      DoneStays(s2, ns, 3);
    } else if ns in Claims(i) {
      OnlyWorker(ns, Withdrawing(x, i));
      assert s2 == At(s, ns, Withdrawing(x, i));
      WithdrawingEnds(s, ns);
    } else {
      assert s2 == At(s, ns, Unprotecting(x));
      UnprotectingEnds(s, ns, 3);
    }
  }

  /** A claimant is told what the ServiceImport says; a request that comes second imports
      nothing; and a free Service goes to the request. */
  lemma ClaimDecides(s: State, ns: Namespace)
    requires Calm(s, ns) && s.si.Some? && s.si.value.status.clusters != []
    requires !s.requests[ns].marked && !s.si.value.marked
    ensures var i, x, t := s.si.value, s.requests[ns], Round(s, ns);
            && (ns in Claims(i) ==> t.si == s.si && Imports(s, t, ns, i.status, x.finalizer))
            && (ns !in Claims(i) && Claims(i) != map[] ==> LetGo(s, t, ns))
            && (Claims(i) == map[] ==> Imports(s, t, ns, i.status, true) && ClaimMade(i, t.si, ns, x.cluster))
  {
    var i, x := s.si.value, s.requests[ns];
    var s2 := Starts(s, ns);
    if ns in Claims(i) {
      assert s2 == At(s, ns, Fulfilling(x, i));
      FulfillingEnds(s, ns, i, 3);
    } else if Claims(i) != map[] {
      assert s2 == At(s, ns, Releasing(x));
      ReleasingEnds(s, ns);
    } else if x.finalizer {
      assert s2 == At(s, ns, Claiming(x, i));
      ClaimingEnds(s, ns, 3);
    } else {
      assert s2 == At(s, ns, Protecting(x, i));
      ProtectingEnds(s, ns);
    }
  }

  /** So after a round of a request for a resolved Service somebody has the claim, and the
      request imports the Service if that is its cluster, and nothing otherwise. */
  lemma ImportsIffClaims(s: State, ns: Namespace)
    requires Calm(s, ns) && s.si.Some? && s.si.value.status.clusters != []
    requires !s.requests[ns].marked && !s.si.value.marked
    ensures var t := Round(s, ns);
            && ns in t.requests && Claimants(t.si) != {}
            && t.requests[ns].status == (if ns in Claimants(t.si) then s.si.value.status else EmptyStatus)
  {
    ClaimDecides(s, ns);
    var i, t := s.si.value, Round(s, ns);
    if Claims(i) == map[] {
      assert ns in Claimants(t.si);
    } else {
      assert Claims(i).Keys != {} by {
        var m :| m in Claims(i);
        assert m in Claims(i).Keys;
      }
    }
  }
}
