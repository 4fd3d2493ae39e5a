/** What holds over whole runs of the claim protocol. */
module ImportClaimRuns {
  import opened Api
  import opened ImportStatus
  import opened ImportClaim

  // ----- an imported status is evidence of a claim -----

  /** At some point of the run the ServiceImport was exactly `i`. */
  ghost predicate Past(es: seq<Event>, i: Import) {
    exists k :: 0 <= k <= |es| && Run(es[..k]).si == Some(i)
  }

  /** At some point of the run `ns` held the claim. */
  ghost predicate HeldEarlier(es: seq<Event>, ns: Namespace) {
    exists k :: 0 <= k <= |es| && ns in Claimants(Run(es[..k]).si)
  }

  lemma PastGrows(es: seq<Event>, e: Event, i: Import)
    requires Past(es, i)
    ensures Past(es + [e], i)
  {
    var k :| 0 <= k <= |es| && Run(es[..k]).si == Some(i);
    assert (es + [e])[..k] == es[..k];
  }

  lemma HeldGrows(es: seq<Event>, e: Event, ns: Namespace)
    requires HeldEarlier(es, ns)
    ensures HeldEarlier(es + [e], ns)
  {
    var k :| 0 <= k <= |es| && ns in Claimants(Run(es[..k]).si);
    assert (es + [e])[..k] == es[..k];
  }

  ghost predicate Witnessed(es: seq<Event>) {
    var s := Run(es);
    && (forall v :: v in s.seen ==> Past(es, s.seen[v]))
    && (forall ns :: ns in s.requests && s.requests[ns].status != EmptyStatus ==> HeldEarlier(es, ns))
  }

  /** What is seen afterwards was seen before, or is the present content. */
  ghost predicate SeenGrows(s: State, s': State) {
    forall v :: v in s'.seen ==> (v in s.seen && s.seen[v] == s'.seen[v]) || s'.si == Some(s'.seen[v])
  }

  lemma StepSeen(s: State, ns: Namespace, reply: Reply)
    requires ns in s.workers
    ensures SeenGrows(s, StepWorker(s, ns, s.workers[ns], reply))
  {
    var w := s.workers[ns];
    if !w.Withdrawing? && !w.Claiming? {
      RequestStepFrame(s, ns, reply);
    }
  }

  lemma SeenSources(s: State, e: Event)
    ensures SeenGrows(s, Next(s, e))
  {
    if e.Step? && e.ns in s.workers {
      StepSeen(s, e.ns, e.reply);
    }
  }

  /** Only fulfilling an import puts a status on a request. */
  lemma StatusSources(s: State, e: Event, ns: Namespace)
    requires ns in Next(s, e).requests && Next(s, e).requests[ns].status != EmptyStatus
    ensures (ns in s.requests && s.requests[ns].status != EmptyStatus) ||
            (ns in s.workers && s.workers[ns].Fulfilling?)
  {
    if e.Step? && e.ns in s.workers && !e.reply.Failed? && !(e.ns == ns && s.workers[ns].Fulfilling?) {
      StepStatus(s, e.ns, e.reply, ns);
    }
  }

  lemma StepStatus(s: State, m: Namespace, reply: Reply, ns: Namespace)
    requires m in s.workers && !reply.Failed? && !(m == ns && s.workers[m].Fulfilling?)
    requires ns in Next(s, Step(m, reply)).requests
    ensures ns in s.requests
    ensures Next(s, Step(m, reply)).requests[ns].status in {s.requests[ns].status, EmptyStatus}
  {
  }

  lemma {:induction false} RunsAreWitnessed(es: seq<Event>)
    ensures Witnessed(es)
  {
    if es != [] {
      var front, e := es[..|es| - 1], es[|es| - 1];
      assert es == front + [e];
      RunsAreWitnessed(front);
      EveryRunIsSafe(front);
      var s, s' := Run(front), Run(es);
      SeenSources(s, e);
      forall v | v in s'.seen ensures Past(es, s'.seen[v]) {
        if s'.si == Some(s'.seen[v]) {
          assert es[..|es|] == es;
        } else {
          PastGrows(front, e, s.seen[v]);
        }
      }
      forall ns | ns in s'.requests && s'.requests[ns].status != EmptyStatus ensures HeldEarlier(es, ns) {
        StatusSources(s, e, ns);
        if ns !in s.requests || s.requests[ns].status == EmptyStatus {
          FulfillingHeld(front, ns);
        }
        HeldGrows(front, e, ns);
      }
    }
  }

  lemma FulfillingHeld(es: seq<Event>, ns: Namespace)
    requires Witnessed(es) && Inv(Run(es)) && ns in Run(es).workers && Run(es).workers[ns].Fulfilling?
    ensures HeldEarlier(es, ns)
  {
    var s := Run(es);
    var i := s.workers[ns].i;
    assert WorkerOk(s.seen, ns, s.workers[ns]);
    assert Past(es, s.seen[i.version]);
    var k :| 0 <= k <= |es| && Run(es[..k]).si == Some(i);
    assert ns in Claimants(Run(es[..k]).si);
  }

  /** A request with a nonempty status belongs to a cluster that held the claim earlier in the
      run, however stale the reads. */
  lemma ImportedStatusWasClaimed(es: seq<Event>, ns: Namespace)
    requires ns in Run(es).requests && Run(es).requests[ns].status != EmptyStatus
    ensures exists k :: 0 <= k <= |es| && ns in Claimants(Run(es[..k]).si)
  {
    RunsAreWitnessed(es);
  }

  // ----- the claimant's request stays, unless a read tells it to go -----

  predicate Protected(requests: map<Namespace, Request>, ns: Namespace) {
    ns in requests && requests[ns].finalizer
  }

  /** Every claim is backed by a request that carries its finalizer. */
  ghost predicate Backed(si: Option<Import>, requests: map<Namespace, Request>) {
    forall ns :: ns in Claimants(si) ==> Protected(requests, ns)
  }

  /** The request is still as `x` says: a write of it will go through. */
  predicate Due(requests: map<Namespace, Request>, ns: Namespace, x: Request) {
    ns in requests && requests[ns].version == x.version
  }

  /** Having read `view`, the reconcile of `x` takes the finalizer off it without withdrawing. */
  predicate GivesUp(ns: Namespace, x: Request, view: Option<Import>) {
    x.finalizer &&
    (view.None? ||
     var i := view.value;
     ns !in Claims(i) && (i.marked || (i.status.clusters != [] && (x.marked || Claims(i) != map[]))))
  }

  /** The event is not a read that makes a claimant give up its request. */
  ghost predicate Harmless(s: State, e: Event) {
    e.Fetch? && e.ns in s.workers && s.workers[e.ns].Fetching? && Seen(s.seen, e.view) &&
    e.ns in Claimants(s.si) && Due(s.requests, e.ns, s.workers[e.ns].x) ==>
      !GivesUp(e.ns, s.workers[e.ns].x, e.view)
  }

  ghost predicate SoundWorker(si: Option<Import>, requests: map<Namespace, Request>, next: nat, ns: Namespace,
                              w: Worker)
  {
    w.x.version < next &&
    match w
    case Fetching(x) => x.finalizer ==> Protected(requests, ns)
    case Releasing(x) => ns in Claimants(si) && Due(requests, ns, x) ==> !x.finalizer
    case Unprotecting(x) => ns in Claimants(si) && Due(requests, ns, x) ==> !x.finalizer
    case Claiming(x, i) => Protected(requests, ns)
    case _ => true
  }

  ghost predicate Sound(s: State) {
    && Backed(s.si, s.requests)
    && (forall ns :: ns in s.requests ==> s.requests[ns].version < s.next)
    && (forall ns :: ns in s.workers ==> SoundWorker(s.si, s.requests, s.next, ns, s.workers[ns]))
  }

  /** Requests are as they were, or have a new version. */
  ghost predicate RequestsMove(s: State, s': State) {
    && s.next <= s'.next
    && (forall ns :: ns in s'.requests ==>
          && s'.requests[ns].version < s'.next
          && ((ns in s.requests && s'.requests[ns] == s.requests[ns]) || s'.requests[ns].version >= s.next))
  }

  /** The other workers' facts survive when claims only go away and protections only come. */
  lemma OthersKeep(s: State, s': State, ns: Namespace)
    requires Sound(s) && Backed(s'.si, s'.requests) && RequestsMove(s, s')
    requires s'.workers - {ns} == s.workers - {ns}
    requires forall m :: m != ns && m in Claimants(s'.si) ==> m in Claimants(s.si)
    requires forall m :: m != ns && Protected(s.requests, m) ==> Protected(s'.requests, m)
    requires ns in s'.workers ==> SoundWorker(s'.si, s'.requests, s'.next, ns, s'.workers[ns])
    ensures Sound(s')
  {
    forall m | m in s'.workers ensures SoundWorker(s'.si, s'.requests, s'.next, m, s'.workers[m]) {
      if m != ns {
        assert m in s'.workers - {ns};
        assert SoundWorker(s.si, s.requests, s.next, m, s.workers[m]);
      }
    }
  }

  /** Where a read leads. */
  lemma DecideFrame(s: State, ns: Namespace, x: Request, view: Option<Import>)
    ensures var s' := Decide(s, ns, x, view);
            && s'.si == s.si && s'.requests == s.requests && s'.next == s.next
            && s'.workers - {ns} == s.workers - {ns}
            && (ns in s'.workers ==> s'.workers[ns].x == x && !s'.workers[ns].Fetching? && !s'.workers[ns].Clearing?)
            && (ns in s'.workers && (s'.workers[ns].Releasing? || s'.workers[ns].Unprotecting?) && x.finalizer ==>
                  GivesUp(ns, x, view))
            && (GivesUp(ns, x, view) ==>
                  ns in s'.workers && (s'.workers[ns] == Releasing(x) || s'.workers[ns] == Unprotecting(x)))
            && (ns in s'.workers && s'.workers[ns].Claiming? ==> x.finalizer)
  {
  }

  lemma FetchKeepsSound(s: State, ns: Namespace, view: Option<Import>)
    requires Sound(s) && Harmless(s, Fetch(ns, view))
    ensures Sound(Next(s, Fetch(ns, view)))
  {
    if ns in s.workers && s.workers[ns].Fetching? && Seen(s.seen, view) {
      assert SoundWorker(s.si, s.requests, s.next, ns, s.workers[ns]);
      DecideFrame(s, ns, s.workers[ns].x, view);
      OthersKeep(s, Decide(s, ns, s.workers[ns].x, view), ns);
    }
  }

  /** A withdrawal leaves no claim and touches no request. */
  lemma WithdrawnFrame(s: State, ns: Namespace, i: Import)
    requires HistoryOk(s.next, s.si, s.seen) && Seen(s.seen, Some(i)) && ns in Claims(i) && ImportIs(s.si, i.version)
    ensures var t := Withdrawn(s, Claims(i) - {ns});
            Claimants(t.si) == {} && t.requests == s.requests && t.workers == s.workers && s.next <= t.next
  {
    WithdrawKeepsHistory(s, ns, i);
  }

  /** Without claims only the versions of the workers' requests matter, and their protections. */
  lemma NoClaimsKeepSound(s: State, t: State, ns: Namespace, x: Request)
    requires Sound(s) && t.requests == s.requests && t.workers == s.workers && s.next <= t.next
    requires Claimants(t.si) == {} && x.version < s.next
    ensures Sound(Rest(t, ns)) && Sound(Go(t, ns, Unprotecting(x)))
  {
    forall m | m in s.workers ensures SoundWorker(t.si, t.requests, t.next, m, s.workers[m]) {
      assert SoundWorker(s.si, s.requests, s.next, m, s.workers[m]);
    }
  }

  /** What the two steps that write the ServiceImport come to. */
  lemma ImportStep(s: State, ns: Namespace, reply: Reply)
    requires ns in s.workers && !reply.Failed?
    requires (s.workers[ns].Withdrawing? || s.workers[ns].Claiming?) && ImportIs(s.si, s.workers[ns].i.version)
    ensures var w := s.workers[ns];
            Next(s, Step(ns, reply)) ==
            if w.Withdrawing? then
              var t := Withdrawn(s, Claims(w.i) - {ns});
              if reply.Lost? then Rest(t, ns) else Go(t, ns, Unprotecting(w.x))
            else
              var t := Claimed(s, ns, w.x, w.i);
              if reply.Lost? then Rest(t, ns) else Go(t, ns, Fulfilling(w.x, t.si.value))
  {
  }

  function Claimed(s: State, ns: Namespace, x: Request, i: Import): (t: State)
    requires s.si.Some?
    ensures t.si.Some?
  {
    PutImport(s, s.si.value.(inUseBy := Some(Claims(i)[ns := x.cluster]), finalizer := true))
  }

  lemma WithdrawnIsSound(s: State, ns: Namespace, x: Request, i: Import)
    requires Inv(s) && Sound(s) && ImportIs(s.si, i.version) && x.version < s.next
    requires Seen(s.seen, Some(i)) && ns in Claims(i)
    ensures var t := Withdrawn(s, Claims(i) - {ns}); Sound(Rest(t, ns)) && Sound(Go(t, ns, Unprotecting(x)))
  {
    WithdrawnFrame(s, ns, i);
    NoClaimsKeepSound(s, Withdrawn(s, Claims(i) - {ns}), ns, x);
  }

  lemma ClaimedIsSound(s: State, ns: Namespace, x: Request, i: Import)
    requires Inv(s) && Sound(s) && ImportIs(s.si, i.version) && x.version < s.next && Protected(s.requests, ns)
    requires Seen(s.seen, Some(i)) && Claims(i) == map[] && !i.marked
    ensures var t := Claimed(s, ns, x, i); Sound(Rest(t, ns)) && Sound(Go(t, ns, Fulfilling(x, t.si.value)))
  {
    ClaimedFrame(s, ns, x, i);
    OwnClaimKeepsSound(s, Claimed(s, ns, x, i), ns, Fulfilling(x, Claimed(s, ns, x, i).si.value));
  }

  lemma ClaimedFrame(s: State, ns: Namespace, x: Request, i: Import)
    requires HistoryOk(s.next, s.si, s.seen) && Seen(s.seen, Some(i)) && Claims(i) == map[] && !i.marked
    requires ImportIs(s.si, i.version)
    ensures var t := Claimed(s, ns, x, i);
            Claimants(t.si) == {ns} && t.requests == s.requests && t.workers == s.workers && s.next <= t.next
  {
    ClaimKeepsHistory(s, ns, i, x.cluster);
  }

  /** The worker's own claim, backed by its own request, disturbs nobody. */
  lemma OwnClaimKeepsSound(s: State, t: State, ns: Namespace, w: Worker)
    requires Sound(s) && t.requests == s.requests && t.workers == s.workers && s.next <= t.next
    requires Claimants(t.si) == {ns} && Protected(s.requests, ns) && w.Fulfilling? && w.x.version < s.next
    ensures Sound(Rest(t, ns)) && Sound(Go(t, ns, w))
  {
    forall m | m in s.workers && m != ns ensures SoundWorker(t.si, t.requests, t.next, m, s.workers[m]) {
      assert SoundWorker(s.si, s.requests, s.next, m, s.workers[m]);
    }
  }

  lemma ImportStepKeepsSound(s: State, ns: Namespace, reply: Reply)
    requires Inv(s) && Sound(s) && ns in s.workers && !reply.Failed?
    requires (s.workers[ns].Withdrawing? || s.workers[ns].Claiming?) && ImportIs(s.si, s.workers[ns].i.version)
    ensures Sound(Next(s, Step(ns, reply)))
  {
    var w := s.workers[ns];
    assert WorkerOk(s.seen, ns, w) && SoundWorker(s.si, s.requests, s.next, ns, w);
    ImportStep(s, ns, reply);
    if w.Withdrawing? {
      WithdrawnIsSound(s, ns, w.x, w.i);
    } else {
      ClaimedIsSound(s, ns, w.x, w.i);
    }
  }

  /** What a step that does not write the ServiceImport does: it may take the finalizer off its own
      request, if that is what it is at and the request is as it knows it. */
  ghost predicate RequestStep(s: State, s': State, ns: Namespace, w: Worker) {
    && s'.si == s.si && RequestsMove(s, s') && s'.workers - {ns} == s.workers - {ns}
    && (forall m :: m != ns && Protected(s.requests, m) ==> Protected(s'.requests, m))
    && (Protected(s.requests, ns) &&
        !((w.Releasing? || w.Unprotecting?) && w.x.finalizer && Due(s.requests, ns, w.x)) ==>
          Protected(s'.requests, ns))
    && (ns in s'.workers ==>
          && s'.workers[ns].x.version < s'.next
          && (s'.workers[ns] == w || s'.workers[ns].Clearing? ||
              (s'.workers[ns].Claiming? && Protected(s'.requests, ns))))
  }

  lemma RequestStepFits(s: State, ns: Namespace, reply: Reply)
    requires ns in s.workers && !s.workers[ns].Withdrawing? && !s.workers[ns].Claiming?
    requires s.workers[ns].x.version < s.next
    requires forall m :: m in s.requests ==> s.requests[m].version < s.next
    ensures RequestStep(s, StepWorker(s, ns, s.workers[ns], reply), ns, s.workers[ns])
  {
    RequestStepFrame(s, ns, reply);
    RequestStepRequests(s, ns, reply);
  }

  lemma RequestStepKeepsSound(s: State, s': State, ns: Namespace)
    requires Sound(s) && ns in s.workers && !s.workers[ns].Withdrawing? && !s.workers[ns].Claiming?
    requires RequestStep(s, s', ns, s.workers[ns])
    ensures Sound(s')
  {
    assert SoundWorker(s.si, s.requests, s.next, ns, s.workers[ns]);
    OthersKeep(s, s', ns);
  }

  /** Only the finalizer-removing steps take a protection away, and only their own, and only
      with the version they know. */
  lemma RequestStepRequests(s: State, ns: Namespace, reply: Reply)
    requires ns in s.workers && !s.workers[ns].Withdrawing? && !s.workers[ns].Claiming?
    requires s.workers[ns].x.version < s.next
    requires forall m :: m in s.requests ==> s.requests[m].version < s.next
    ensures var s' := StepWorker(s, ns, s.workers[ns], reply);
            && RequestsMove(s, s')
            && (forall m :: m != ns && Protected(s.requests, m) ==> Protected(s'.requests, m))
            && (Protected(s.requests, ns) &&
                !((s.workers[ns].Releasing? || s.workers[ns].Unprotecting?) && s.workers[ns].x.finalizer &&
                  Due(s.requests, ns, s.workers[ns].x)) ==>
                  Protected(s'.requests, ns))
            && (ns in s'.workers ==> s'.workers[ns].x.version < s'.next)
            && (ns in s'.workers && s'.workers[ns].Claiming? ==> Protected(s'.requests, ns))
  {
  }

  /** An event that moves no worker, adds no claim and takes no protection away. */
  lemma QuietEventKeepsSound(s: State, s': State)
    requires Sound(s) && RequestsMove(s, s') && s'.workers == s.workers
    requires forall m :: m in Claimants(s'.si) ==> m in Claimants(s.si)
    requires forall m :: Protected(s.requests, m) ==> Protected(s'.requests, m)
    ensures Sound(s')
  {
    forall m | m in s'.workers ensures SoundWorker(s'.si, s'.requests, s'.next, m, s'.workers[m]) {
      assert SoundWorker(s.si, s.requests, s.next, m, s.workers[m]);
    }
  }

  lemma ReadKeepsSound(s: State, ns: Namespace)
    requires Sound(s)
    ensures Sound(Next(s, Read(ns)))
  {
    if ns !in s.workers && ns in s.requests {
      OthersKeep(s, Go(s, ns, Fetching(s.requests[ns])), ns);
    }
  }

  lemma EnvironmentKeepsSound(s: State, e: Event)
    requires Sound(s) && !e.Fetch? && !e.Step?
    ensures Sound(Next(s, e))
  {
    if e.Read? {
      ReadKeepsSound(s, e.ns);
    } else {
      QuietEventKeepsSound(s, Next(s, e));
    }
  }

  lemma NextKeepsSound(s: State, e: Event)
    requires Inv(s) && Sound(s) && Harmless(s, e)
    ensures Sound(Next(s, e))
  {
    if e.Fetch? {
      FetchKeepsSound(s, e.ns, e.view);
    } else if e.Step? && e.ns in s.workers {
      var w := s.workers[e.ns];
      if e.reply.Failed? || ((w.Claiming? || w.Withdrawing?) && !ImportIs(s.si, w.i.version)) {
        assert Next(s, e) == Rest(s, e.ns);
        OthersKeep(s, Rest(s, e.ns), e.ns);
      } else if w.Claiming? || w.Withdrawing? {
        ImportStepKeepsSound(s, e.ns, e.reply);
      } else {
        assert SoundWorker(s.si, s.requests, s.next, e.ns, w);
        RequestStepFits(s, e.ns, e.reply);
        RequestStepKeepsSound(s, StepWorker(s, e.ns, w, e.reply), e.ns);
      }
    } else if !e.Step? {
      EnvironmentKeepsSound(s, e);
    }
  }

  /** No event of the run is a harmful read. */
  ghost predicate AllHarmless(es: seq<Event>) {
    es == [] || (AllHarmless(es[..|es| - 1]) && Harmless(Run(es[..|es| - 1]), es[|es| - 1]))
  }

  lemma {:induction false} HarmlessRunsAreSound(es: seq<Event>)
    requires AllHarmless(es)
    ensures Inv(Run(es)) && Sound(Run(es))
  {
    if es != [] {
      var front := es[..|es| - 1];
      HarmlessRunsAreSound(front);
      NextKeepsInv(Run(front), es[|es| - 1]);
      NextKeepsSound(Run(front), es[|es| - 1]);
    }
  }

  /** In every run without harmful reads, stale ones included: the claimant's request exists and
      carries its cleanup finalizer, so the claim cannot outlive it. */
  lemma ClaimantIsProtected(es: seq<Event>, ns: Namespace)
    requires AllHarmless(es) && ns in Claimants(Run(es).si)
    ensures ns in Run(es).requests && Run(es).requests[ns].finalizer
    ensures Run(es).si.value.finalizer
  {
    HarmlessRunsAreSound(es);
    assert Protected(Run(es).requests, ns);
    AtMostOneClaimant(es);
  }

  /** A read is harmless if it shows the claimant its own claim, so a current one always is. */
  lemma OwnClaimIsHarmless(s: State, ns: Namespace, view: Option<Import>)
    requires ns in Claimants(s.si) ==> view.Some? && ns in Claims(view.value)
    ensures Harmless(s, Fetch(ns, view))
  {
  }

  // ----- one read, and everything that may follow -----

  function Play(s: State, es: seq<Event>): State
    decreases |es|
  {
    if es == [] then s else Play(Next(s, es[0]), es[1..])
  }

  ghost predicate HarmlessFrom(s: State, es: seq<Event>)
    decreases |es|
  {
    es == [] || (Harmless(s, es[0]) && HarmlessFrom(Next(s, es[0]), es[1..]))
  }

  ghost predicate BackedAfter(s: State, es: seq<Event>) {
    Backed(Play(s, es).si, Play(s, es).requests)
  }

  lemma {:induction false} HarmlessIsSafe(s: State, es: seq<Event>)
    requires Inv(s) && Sound(s) && HarmlessFrom(s, es)
    ensures BackedAfter(s, es)
    decreases |es|
  {
    if es != [] {
      NextKeepsInv(s, es[0]);
      NextKeepsSound(s, es[0]);
      HarmlessIsSafe(Next(s, es[0]), es[1..]);
    }
  }

  /** After a harmful read the very next call of the reconcile leaves the claim behind. */
  lemma HarmfulReadStrands(s: State, ns: Namespace, view: Option<Import>)
    requires !Harmless(s, Fetch(ns, view))
    ensures var s' := Next(s, Fetch(ns, view));
            HarmlessFrom(s', [Step(ns, Done)]) && !BackedAfter(s', [Step(ns, Done)])
  {
    var x, s' := s.workers[ns].x, Next(s, Fetch(ns, view));
    DecideFrame(s, ns, x, view);
    var t := Next(s', Step(ns, Done));
    assert !Protected(t.requests, ns) && ns in Claimants(t.si);
    assert [Step(ns, Done)][1..] == [];
    assert Play(s', [Step(ns, Done)]) == t;
  }

  /** The condition on one read, exactly. In a state where all is well it is met if and only if
      all stays well, and if and only if every claim is backed by a protected request after
      whatever follows, as long as later reads meet it too. */
  lemma ReadIsSafeIff(s: State, ns: Namespace, view: Option<Import>)
    requires Inv(s) && Sound(s)
    ensures var s' := Next(s, Fetch(ns, view));
            && (Harmless(s, Fetch(ns, view)) <==> Sound(s'))
            && (Harmless(s, Fetch(ns, view)) <==> forall more :: HarmlessFrom(s', more) ==> BackedAfter(s', more))
  {
    var e := Fetch(ns, view);
    var s' := Next(s, e);
    NextKeepsInv(s, e);
    if Harmless(s, e) {
      NextKeepsSound(s, e);
      forall more | HarmlessFrom(s', more) ensures BackedAfter(s', more) {
        HarmlessIsSafe(s', more);
      }
    } else {
      HarmfulReadStrands(s, ns, view);
      if Sound(s') {
        HarmlessIsSafe(s', [Step(ns, Done)]);
      }
    }
  }

  // ----- claiming and withdrawing -----

  /** Nobody is working; `ns` asks, and the resolved ServiceImport is free. */
  predicate FreeFor(s: State, ns: Namespace) {
    && s.workers == map[]
    && s.si.Some? && !s.si.value.marked && !s.si.value.finalizer && s.si.value.inUseBy.None?
    && s.si.value.status.clusters != []
    && ns in s.requests && !s.requests[ns].marked && !s.requests[ns].finalizer
    && Seen(s.seen, s.si)
  }

  /** An undisturbed reconcile of a request: what it reads is current and no call fails. Once it
      is over, the steps that are left do nothing. */
  function Round(s: State, ns: Namespace): State {
    var s1 := Next(s, Read(ns));
    var s2 := Next(s1, Fetch(ns, s1.si));
    var s3 := Next(s2, Step(ns, Done));
    var s4 := Next(s3, Step(ns, Done));
    Next(s4, Step(ns, Done))
  }

  /** The request is deleted and its reconcile runs undisturbed. */
  function WithdrawRound(s: State, ns: Namespace): State {
    Round(Next(s, RequestDelete(ns)), ns)
  }

  lemma ClaimRoundEffect(s: State, ns: Namespace)
    requires FreeFor(s, ns)
    ensures var t := Round(s, ns);
            && t.workers == map[] && Seen(t.seen, t.si)
            && t.si.Some? && t.si.value == s.si.value.(version := t.si.value.version, finalizer := true,
                                                       inUseBy := Some(map[ns := s.requests[ns].cluster]))
            && t.requests.Keys == s.requests.Keys
            && t.requests[ns] == s.requests[ns].(version := t.requests[ns].version, finalizer := true,
                                                 status := s.si.value.status)
            && (forall m :: m in s.requests && m != ns ==> t.requests[m] == s.requests[m])
  {
    var i, x := s.si.value, s.requests[ns];
    var s1 := Next(s, Read(ns));
    var s2 := Next(s1, Fetch(ns, s1.si));
    assert s2.workers == map[ns := Protecting(x, i)];
    var s3 := Next(s2, Step(ns, Done));
    assert s3.workers == map[ns := Claiming(s3.requests[ns], i)];
    var s4 := Next(s3, Step(ns, Done));
    assert s4.workers[ns] == Fulfilling(s3.requests[ns], s4.si.value);
    assert s4.workers.Keys == {ns};
    var t := Next(s4, Step(ns, Done));
    assert t.workers == map[];
  }

  lemma WithdrawRoundEffect(t: State, ns: Namespace, cluster: ClusterId)
    requires t.workers == map[] && Seen(t.seen, t.si) && t.si.Some? && !t.si.value.marked
    requires t.si.value.inUseBy == Some(map[ns := cluster]) && t.si.value.status.clusters != []
    requires ns in t.requests && t.requests[ns].finalizer && !t.requests[ns].marked
    ensures var u := WithdrawRound(t, ns);
            && u.workers == map[] && u.requests == t.requests - {ns}
            && u.si.Some?
            && u.si.value == t.si.value.(version := u.si.value.version, finalizer := false, inUseBy := None)
  {
    var i := t.si.value;
    var s0 := Next(t, RequestDelete(ns));
    var s1 := Next(s0, Read(ns));
    var s2 := Next(s1, Fetch(ns, s1.si));
    assert s2.workers == map[ns := Withdrawing(s0.requests[ns], i)];
    assert map[ns := cluster] - {ns} == map[];
    var s3 := Next(s2, Step(ns, Done));
    assert s3.workers == map[ns := Unprotecting(s0.requests[ns])];
    var s4 := Next(s3, Step(ns, Done));
    assert s4.workers == map[];
    var u := Next(s4, Step(ns, Done));
    assert u == s4;
    assert u.requests == t.requests - {ns};
  }

  /** Withdrawing undoes claiming: the ServiceImport is back to what it was but for its version,
      the request is gone, and nobody else's request has changed. */
  lemma WithdrawUndoesClaim(s: State, ns: Namespace)
    requires FreeFor(s, ns)
    ensures var t := Round(s, ns);
            var u := WithdrawRound(t, ns);
            && Claimants(t.si) == {ns}
            && u.si.Some? && u.si.value == s.si.value.(version := u.si.value.version)
            && u.requests == s.requests - {ns}
            && u.workers == map[]
  {
    ClaimRoundEffect(s, ns);
    WithdrawRoundEffect(Round(s, ns), ns, s.requests[ns].cluster);
  }

  // ----- stale reads leave a claim dangling -----

  lemma Extend(es: seq<Event>, s: State, e: Event) returns (es': seq<Event>)
    requires Run(es) == s
    ensures Run(es') == Next(s, e)
  {
    es' := es + [e];
    RunSnoc(es, e);
  }

  lemma RunToClaim(ns: Namespace, status: Status) returns (es: seq<Event>, s: State)
    requires status.clusters != []
    ensures Run(es) == s && s.workers == map[] && Claimants(s.si) == {ns}
    ensures ns in s.requests && s.requests[ns].finalizer && !s.requests[ns].marked
  {
    es := Extend([], Init, ImportCreate);
    var s1 := Next(Init, ImportCreate);
    es := Extend(es, s1, ImportResolve(status));
    var s2 := Next(s1, ImportResolve(status));
    es := Extend(es, s2, RequestCreate(ns, "id"));
    var s3 := Next(s2, RequestCreate(ns, "id"));
    assert FreeFor(s3, ns);
    ClaimRoundEffect(s3, ns);
    var t1 := Next(s3, Read(ns));
    es := Extend(es, s3, Read(ns));
    var t2 := Next(t1, Fetch(ns, t1.si));
    es := Extend(es, t1, Fetch(ns, t1.si));
    var t3 := Next(t2, Step(ns, Done));
    es := Extend(es, t2, Step(ns, Done));
    var t4 := Next(t3, Step(ns, Done));
    es := Extend(es, t3, Step(ns, Done));
    es := Extend(es, t4, Step(ns, Done));
    s := Round(s3, ns);
  }

  /** Why ClaimantIsProtected excludes harmful reads: a reconcile of the deleted request that
      still believes there is no ServiceImport drops the finalizer, and the claim stays behind
      with nobody left to withdraw it. */
  lemma StaleReadStrandsTheClaim()
    ensures exists es, ns :: ns in Claimants(Run(es).si) && ns !in Run(es).requests
  {
    var ns := "fleet-member-1";
    var es, s := RunToClaim(ns, Status([ServicePort("http", "TCP", None, 80, "8080")], ["member-2"]));
    es := RunToStrand(es, s, ns);
    assert ns in Claimants(Run(es).si) && ns !in Run(es).requests;
  }

  /** The deleted request is reconciled with a read that finds no ServiceImport. */
  lemma RunToStrand(es: seq<Event>, s: State, ns: Namespace) returns (es': seq<Event>)
    requires Run(es) == s && s.workers == map[] && Claimants(s.si) == {ns}
    requires ns in s.requests && s.requests[ns].finalizer && !s.requests[ns].marked
    ensures ns in Claimants(Run(es').si) && ns !in Run(es').requests
  {
    var s1 := Next(s, RequestDelete(ns));
    es' := Extend(es, s, RequestDelete(ns));
    var s2 := Next(s1, Read(ns));
    es' := Extend(es', s1, Read(ns));
    assert s2.workers == map[ns := Fetching(s1.requests[ns])];
    var s3 := Next(s2, Fetch(ns, None));
    es' := Extend(es', s2, Fetch(ns, None));
    assert s3.workers == map[ns := Releasing(s1.requests[ns])];
    es' := Extend(es', s3, Step(ns, Done));
  }
}
