/** What holds over whole runs of the export machine. */
module ExportHistory {
  import opened Api
  import opened ImportStatus
  import opened ExportMachine
  import opened ExportSafety

  lemma RunSnoc(es: seq<Event>, e: Event)
    ensures Run(es + [e]) == Next(Run(es), e)
  {
    assert (es + [e])[..|es|] == es;
  }

  /** In every reachable state: every listed cluster has an export that still exists and still
      carries its finalizer, ports are resolved exactly when clusters are listed, and no
      cluster is listed twice. */
  lemma ListedClustersNeverDangle(es: seq<Event>)
    ensures var s := Run(es);
            && (forall c :: c in Listed(s.si) ==> c in s.exports && s.exports[c].finalizer)
            && (s.si.Some? ==> WellShaped(s.si.value.status))
  {
    EveryRunIsSafe(es);
    assert NoDangling(Run(es).si, Run(es).exports);
    assert forall c :: c in Listed(Run(es).si) ==> Held(Run(es).exports, c);
  }

  /** Ports never change between consecutive states that both list clusters. */
  lemma PortsAreStable(es: seq<Event>, e: Event)
    requires Listed(Run(es).si) != [] && Listed(Run(es + [e]).si) != []
    ensures Run(es + [e]).si.value.status.ports == Run(es).si.value.status.ports
  {
    RunSnoc(es, e);
    EveryRunIsSafe(es);
    var s := Run(es);
    if e.WorkerStep? && e.c in s.workers {
      assert WorkerOk(s.next, s.si, s.exports, s.resolver, e.c, s.workers[e.c]);
    }
  }

  /** The hub issues its delete call only for a ServiceImport that lists nothing. */
  lemma DeleteCallsFindNothingListed(es: seq<Event>)
    requires Run(es).resolver.Purging?
    ensures Listed(Run(es).si) == []
  {
    EveryRunIsSafe(es);
  }

  /** A ServiceImport that lists clusters disappears in exactly one way: another controller
      takes the last finalizer off an import that was marked for deletion earlier. */
  lemma ListingImportVanishesIff(es: seq<Event>, e: Event)
    requires Listed(Run(es).si) != []
    ensures Run(es + [e]).si.None? <==> e.ForeignRelease? && Run(es).si.value.marked
  {
    RunSnoc(es, e);
    EveryRunIsSafe(es);
    var s := Run(es);
    if e.WorkerStep? && e.c in s.workers {
      StepKeepsImport(s, e.c, e.reply);
    } else if e.ResolverStep? {
      ResolverKeepsImport(s, e.reply);
    }
  }

  /** The export controller never deletes the ServiceImport. */
  lemma StepKeepsImport(s: State, c: Cluster, reply: Reply)
    requires c in s.workers && s.si.Some?
    ensures StepWorker(s, c, s.workers[c], reply).si.Some?
  {
  }

  lemma ResolverKeepsImport(s: State, reply: Reply)
    requires Inv(s) && Listed(s.si) != []
    ensures StepResolver(s, reply).si.Some?
  {
  }

  // ----- every listed cluster was admitted with the listed ports -----

  /** At some point of the run the export of `c` was eligible and had these ports. */
  ghost predicate Was(es: seq<Event>, c: Cluster, ports: Ports) {
    exists k :: 0 <= k <= |es| && EligibleWith(Run(es[..k]).exports, c, ports)
  }

  predicate EligibleWith(exports: Exports, c: Cluster, ports: Ports) {
    c in exports && Eligible(exports[c]) && exports[c].ports == ports
  }

  lemma WasNow(es: seq<Event>, c: Cluster, ports: Ports)
    requires EligibleWith(Run(es).exports, c, ports)
    ensures Was(es, c, ports)
  {
    assert es[..|es|] == es;
  }

  lemma WasBefore(es: seq<Event>, e: Event, c: Cluster, ports: Ports)
    requires Was(es, c, ports)
    ensures Was(es + [e], c, ports)
  {
    var k :| 0 <= k <= |es| && EligibleWith(Run(es[..k]).exports, c, ports);
    assert (es + [e])[..k] == es[..k];
  }

  /** The worker has left the read of its export behind and is on the update path. */
  predicate OnUpdatePath(w: Worker) {
    w.FetchImport? || w.CreateImport? || w.Admit? || w.Expel? || w.Judge?
  }

  ghost predicate Witnessed(es: seq<Event>) {
    var s := Run(es);
    && (forall c :: c in Listed(s.si) ==> Was(es, c, s.si.value.status.ports))
    && (forall c :: c in s.workers && OnUpdatePath(s.workers[c]) ==> Was(es, c, s.workers[c].x.ports))
    && (forall c :: c in Picked(s.resolver) ==>
          ResolverPorts(s.resolver).Some? && Was(es, c, ResolverPorts(s.resolver).value))
  }

  /** Only the worker of `d` may have moved. */
  ghost predicate OnlyMoved(s: State, s': State, d: Cluster) {
    s'.workers - {d} == s.workers - {d}
  }

  lemma UpdateStepMoves(s: State, d: Cluster, w: Worker, reply: Reply)
    requires w.AddFinalizer? || w.FetchImport? || w.CreateImport? || w.Judge? || reply.Failed?
    ensures OnlyMoved(s, StepWorker(s, d, w, reply), d)
  {
  }

  lemma StatusStepMoves(s: State, d: Cluster, w: Worker, reply: Reply)
    requires w.Admit? || w.Expel? || w.ExpelForDelete?
    ensures OnlyMoved(s, StepWorker(s, d, w, reply), d)
  {
  }

  lemma DeleteStepMoves(s: State, d: Cluster, w: Worker, reply: Reply)
    requires w.FetchForDelete? || w.DropFinalizer?
    ensures OnlyMoved(s, StepWorker(s, d, w, reply), d)
  {
  }

  lemma OtherStepRests(s: State, d: Cluster, reply: Reply, c: Cluster)
    requires d in s.workers && c != d
    ensures var s' := StepWorker(s, d, s.workers[d], reply);
            (c in s'.workers <==> c in s.workers) && (c in s.workers ==> s'.workers[c] == s.workers[c])
  {
    var w := s.workers[d];
    var s' := StepWorker(s, d, w, reply);
    if w.Admit? || w.Expel? || w.ExpelForDelete? {
      StatusStepMoves(s, d, w, reply);
    } else if w.FetchForDelete? || w.DropFinalizer? {
      DeleteStepMoves(s, d, w, reply);
    } else {
      UpdateStepMoves(s, d, w, reply);
    }
    assert c in s'.workers - {d} <==> c in s'.workers;
    assert c in s.workers - {d} <==> c in s.workers;
  }

  lemma ResolverStepRests(s: State, reply: Reply)
    ensures StepResolver(s, reply).workers == s.workers
  {
  }

  /** No event but its own moves a worker. */
  lemma OtherWorkersRest(s: State, e: Event, c: Cluster)
    requires !(e.WorkerRead? && e.c == c) && !(e.WorkerStep? && e.c == c)
    ensures c in Next(s, e).workers <==> c in s.workers
    ensures c in s.workers ==> Next(s, e).workers[c] == s.workers[c]
  {
    if e.WorkerStep? && e.c in s.workers {
      OtherStepRests(s, e.c, e.reply, c);
    } else if e.ResolverStep? {
      ResolverStepRests(s, e.reply);
    }
  }

  lemma OwnStepSnapshots(s: State, c: Cluster, reply: Reply)
    requires Inv(s) && c in s.workers
    requires var s' := Next(s, WorkerStep(c, reply)); c in s'.workers && OnUpdatePath(s'.workers[c])
    ensures var s' := Next(s, WorkerStep(c, reply));
            || (OnUpdatePath(s.workers[c]) && s.workers[c].x == s'.workers[c].x)
            || EligibleWith(s'.exports, c, s'.workers[c].x.ports)
  {
    assert WorkerOk(s.next, s.si, s.exports, s.resolver, c, s.workers[c]);
  }

  /** On the update path a worker keeps the export it read; it gets there only with one that
      is eligible right now. */
  lemma WorkerSnapshots(s: State, e: Event, c: Cluster)
    requires Inv(s) && c in Next(s, e).workers && OnUpdatePath(Next(s, e).workers[c])
    ensures var x := Next(s, e).workers[c].x;
            || (c in s.workers && OnUpdatePath(s.workers[c]) && s.workers[c].x == x)
            || EligibleWith(Next(s, e).exports, c, x.ports)
  {
    if e.WorkerStep? && e.c == c && c in s.workers {
      OwnStepSnapshots(s, c, e.reply);
    } else if !(e.WorkerRead? && e.c == c) && !(e.WorkerStep? && e.c == c) {
      OtherWorkersRest(s, e, c);
    }
  }

  lemma WorkersStayWitnessed(es: seq<Event>, e: Event, c: Cluster)
    requires Inv(Run(es)) && Witnessed(es)
    requires c in Run(es + [e]).workers && OnUpdatePath(Run(es + [e]).workers[c])
    ensures Was(es + [e], c, Run(es + [e]).workers[c].x.ports)
  {
    RunSnoc(es, e);
    var s, x := Run(es), Run(es + [e]).workers[c].x;
    WorkerSnapshots(s, e, c);
    if c in s.workers && OnUpdatePath(s.workers[c]) && s.workers[c].x == x {
      WasBefore(es, e, c, x.ports);
    } else {
      WasNow(es + [e], c, x.ports);
    }
  }

  /** A listing picks clusters that are eligible right now. */
  lemma ListingPicks(s: State, e: Event, c: Cluster)
    requires Inv(s) && e.ResolverList? && s.resolver.Listing? && Enumerates(e.order, s.exports)
    requires c in Picked(Next(s, e).resolver)
    ensures var r := Next(s, e).resolver;
            ResolverPorts(r).Some? && EligibleWith(Next(s, e).exports, c, ResolverPorts(r).value)
  {
    PicksAreEligible(e.order, s.exports, s.next);
    assert Picked(Next(s, e).resolver) == ClustersOf(Next(s, e).resolver.todo);
  }

  /** Settling hands the picks on. */
  lemma SettlingKeepsPicks(s: State, reply: Reply, c: Cluster)
    requires s.resolver.Settling? && c in Picked(StepResolver(s, reply).resolver)
    ensures c in Picked(s.resolver) && ResolverPorts(StepResolver(s, reply).resolver) == ResolverPorts(s.resolver)
  {
    var r := s.resolver;
    if r.todo != [] {
      SettlePicks(r.v, r.ports, r.todo, r.clusters, r.rivals);
    } else {
      assert Picked(r) == r.clusters;
    }
  }

  /** Picks are inherited, with their ports, or eligible right now. */
  lemma PickSources(s: State, e: Event, c: Cluster)
    requires Inv(s) && c in Picked(Next(s, e).resolver)
    ensures var r := Next(s, e).resolver;
            && ResolverPorts(r).Some?
            && ((c in Picked(s.resolver) && ResolverPorts(s.resolver) == ResolverPorts(r)) ||
                EligibleWith(Next(s, e).exports, c, ResolverPorts(r).value))
  {
    if e.ResolverList? && s.resolver.Listing? && Enumerates(e.order, s.exports) {
      ListingPicks(s, e, c);
    } else if e.ResolverStep? {
      if s.resolver.Settling? {
        SettlingKeepsPicks(s, e.reply, c);
      }
    } else {
      ResolverRests(s, e);
    }
  }

  /** Only its own events move the resolver. */
  lemma ResolverRests(s: State, e: Event)
    requires !e.ResolverStep? && !(e.ResolverList? && s.resolver.Listing? && Enumerates(e.order, s.exports))
    ensures Next(s, e).resolver == s.resolver || Picked(Next(s, e).resolver) == []
  {
    if e.WorkerStep? && e.c in s.workers {
      StepLeavesResolver(s, e.c, e.reply);
    }
  }

  lemma StepLeavesResolver(s: State, c: Cluster, reply: Reply)
    requires c in s.workers
    ensures StepWorker(s, c, s.workers[c], reply).resolver == s.resolver
  {
  }

  lemma PicksStayWitnessed(es: seq<Event>, e: Event, c: Cluster)
    requires Inv(Run(es)) && Witnessed(es)
    requires c in Picked(Run(es + [e]).resolver)
    ensures var r := Run(es + [e]).resolver;
            ResolverPorts(r).Some? && Was(es + [e], c, ResolverPorts(r).value)
  {
    RunSnoc(es, e);
    var s, r := Run(es), Run(es + [e]).resolver;
    PickSources(s, e, c);
    if c in Picked(s.resolver) && ResolverPorts(s.resolver) == ResolverPorts(r) {
      WasBefore(es, e, c, ResolverPorts(r).value);
    } else {
      WasNow(es + [e], c, ResolverPorts(r).value);
    }
  }

  lemma ListingStaysWitnessed(es: seq<Event>, e: Event, c: Cluster)
    requires Inv(Run(es)) && Witnessed(es)
    requires c in Listed(Run(es + [e]).si)
    ensures Was(es + [e], c, Run(es + [e]).si.value.status.ports)
  {
    RunSnoc(es, e);
    var s, s' := Run(es), Run(es + [e]);
    var ports := s'.si.value.status.ports;
    if c in Listed(s.si) {
      PortsAreStable(es, e);
      WasBefore(es, e, c, ports);
    } else if e.WorkerStep? {
      var w := s.workers[e.c];
      assert WorkerOk(s.next, s.si, s.exports, s.resolver, e.c, w);
      NewlyListed(s, e, c);
      assert Was(es, c, w.x.ports);
      WasBefore(es, e, c, ports);
    } else {
      assert e.ResolverStep? && s.resolver.Publishing?;
      assert c in Picked(s.resolver);
      WasBefore(es, e, c, ports);
    }
  }

  /** Only the worker of a cluster lists it anew, and only with the ports it read. */
  lemma NewlyListed(s: State, e: Event, c: Cluster)
    requires Inv(s) && e.WorkerStep? && c !in Listed(s.si) && c in Listed(Next(s, e).si)
    ensures c == e.c && c in s.workers && s.workers[c].Admit?
    ensures Next(s, e).si.value.status.ports == s.workers[c].x.ports
  {
    assert e.c in s.workers;
    var w := s.workers[e.c];
    assert WorkerOk(s.next, s.si, s.exports, s.resolver, e.c, w);
    match w
    case Admit(_, i) => AddedKeepsShape(i.status, e.c);
    case Expel(_, i) => RemovedKeepsShape(i.status, e.c);
    case ExpelForDelete(_, i) => RemovedKeepsShape(i.status, e.c);
    case _ =>
  }

  lemma {:induction false} RunsAreWitnessed(es: seq<Event>)
    ensures Inv(Run(es)) && Witnessed(es)
  {
    EveryRunIsSafe(es);
    if es != [] {
      var front, e := es[..|es| - 1], es[|es| - 1];
      RunsAreWitnessed(front);
      assert es == front + [e];
      var s := Run(es);
      forall c | c in Listed(s.si) ensures Was(es, c, s.si.value.status.ports) {
        ListingStaysWitnessed(front, e, c);
      }
      forall c | c in s.workers && OnUpdatePath(s.workers[c]) ensures Was(es, c, s.workers[c].x.ports) {
        WorkersStayWitnessed(front, e, c);
      }
      forall c | c in Picked(s.resolver)
        ensures ResolverPorts(s.resolver).Some? && Was(es, c, ResolverPorts(s.resolver).value)
      {
        PicksStayWitnessed(front, e, c);
      }
    }
  }

  /** Every listed cluster had, at some earlier point of the run, an eligible export with
      exactly the listed ports. */
  lemma ListedClustersWereAdmitted(es: seq<Event>, c: Cluster)
    requires c in Listed(Run(es).si)
    ensures exists k :: 0 <= k <= |es| && EligibleWith(Run(es[..k]).exports, c, Run(es).si.value.status.ports)
  {
    RunsAreWitnessed(es);
  }
}
