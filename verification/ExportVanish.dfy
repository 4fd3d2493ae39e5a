/** A run in which a ServiceImport disappears although it lists a cluster. */
module ExportVanish {
  import opened Api
  import opened ImportStatus
  import opened ExportMachine
  import opened ExportSafety
  import opened ExportRounds
  import opened ExportConvergence
  import opened ExportHistory

  /** Calm, reachable and safe. */
  ghost predicate Reached(s: State) {
    Calm(s) && Inv(s) && Leads(Init, s)
  }

  lemma {:induction false} PlayIsRun(es: seq<Event>)
    ensures Play(Init, es) == Run(es)
  {
    if es != [] {
      PlayIsRun(es[..|es| - 1]);
    }
  }

  lemma {:induction false} LeadsChain(s: State, t: State, es: seq<Event>)
    requires Leads(s, t)
    ensures Leads(s, Play(t, es))
  {
    if es != [] {
      LeadsChain(s, t, es[..|es| - 1]);
      LeadsOn(s, Play(t, es[..|es| - 1]), es[|es| - 1]);
    }
  }

  lemma ReachedByRound(s: State, r: Round)
    requires Reached(s)
    ensures Reached(After(s, r))
  {
    RoundKeepsFrame(s, r);
    RoundsAreRuns(s, if r.OfExport? then r.c else "", if r.OfImport? then r.order else []);
    var es :| Play(s, es) == After(s, r);
    LeadsChain(Init, s, es);
  }

  lemma ReachedByEvent(s: State, e: Event)
    requires Reached(s)
    requires e.MemberCreate? || e.MemberDelete? || e.ForeignHold?
    ensures Reached(Next(s, e))
  {
    NextKeepsInv(s, e);
    LeadsOn(Init, s, e);
  }

  /** One cluster exports the Service, an importing cluster puts its finalizer on the resolved
      import, and the export goes away: the import stays, empty and marked. */
  lemma HeldImportIsMarked(ports: Ports) returns (s: State)
    requires ports != []
    ensures Reached(s) && s.exports == map[]
    ensures s.si.Some? && s.si.value.marked && s.si.value.held && s.si.value.status == EmptyStatus
  {
    var a := "member-1";
    assert Play(Init, []) == Init;
    var s1 := Next(Init, MemberCreate(a, ports));
    ReachedByEvent(Init, MemberCreate(a, ports));
    assert s1.exports == map[a := Export(0, 1, false, false, ports, None)];
    var s2 := After(s1, OfExport(a));
    ReachedByRound(s1, OfExport(a));
    WorkerRoundOutcome(s1, a);
    assert s2.si.Some? && s2.si.value.status == EmptyStatus;
    assert s2.exports.Keys == {a} && Eligible(s2.exports[a]) && s2.exports[a].ports == ports;
    var s3 := After(s2, OfImport([a]));
    ReachedByRound(s2, OfImport([a]));
    ResolverRoundOutcome(s2, [a]);
    assert ItemsOf([a], s2.exports)[0].body == s2.exports[a];
    ResolverSettles(s2, [a], ports);
    assert s3.si.value.status.ports == ports && a in Listed(s3.si) && !s3.si.value.marked;
    s := EmptiedAndMarked(s3, a);
  }

  /** The second half of that run. */
  lemma EmptiedAndMarked(s3: State, a: Cluster) returns (s: State)
    requires Reached(s3) && s3.exports.Keys == {a} && Eligible(s3.exports[a])
    requires s3.si.Some? && !s3.si.value.marked && a in Listed(s3.si)
    ensures Reached(s) && s.exports == map[]
    ensures s.si.Some? && s.si.value.marked && s.si.value.held && s.si.value.status == EmptyStatus
  {
    var s4 := Next(s3, ForeignHold);
    ReachedByEvent(s3, ForeignHold);
    var s5 := Next(s4, MemberDelete(a));
    ReachedByEvent(s4, MemberDelete(a));
    assert Dying(s5.exports, a) && s5.si == s4.si;
    var s6 := After(s5, OfExport(a));
    ReachedByRound(s5, OfExport(a));
    WorkerRoundOutcome(s5, a);
    assert s6.exports == map[];
    if Listed(s6.si) != [] {
      ListingNamesAnExport(s6);
    }
    assert s6.si.Some? && s6.si.value.held && !s6.si.value.marked;
    s := After(s6, OfImport([]));
    ReachedByRound(s6, OfImport([]));
    ResolverRoundOutcome(s6, []);
  }

  /** The resolver does not look at the deletion mark: it fills the marked import for the next
      exporter. */
  lemma MarkedImportListsAgain() returns (s: State)
    ensures Reached(s) && Listed(s.si) != [] && s.si.value.marked && s.si.value.held
  {
    var b, ports := "member-2", [ServicePort("http", "TCP", None, 80, "8080")];
    var s0 := HeldImportIsMarked(ports);
    var s1 := Next(s0, MemberCreate(b, ports));
    ReachedByEvent(s0, MemberCreate(b, ports));
    assert s1.exports == map[b := Export(s0.next, 1, false, false, ports, None)];
    var s2 := After(s1, OfExport(b));
    ReachedByRound(s1, OfExport(b));
    WorkerRoundOutcome(s1, b);
    assert s2.exports.Keys == {b} && Eligible(s2.exports[b]) && s2.exports[b].ports == ports;
    s := After(s2, OfImport([b]));
    ReachedByRound(s2, OfImport([b]));
    ResolverRoundOutcome(s2, [b]);
    assert ItemsOf([b], s2.exports)[0].body == s2.exports[b];
    ResolverSettles(s2, [b], ports);
    assert b in Listed(s.si);
  }

  /** When the importing cluster then lets go, the import is gone with its listing. */
  lemma ListingImportCanVanish()
    ensures exists es: seq<Event>, e: Event :: Listed(Run(es).si) != [] && Run(es + [e]).si.None?
  {
    var s := MarkedImportListsAgain();
    var es :| Play(Init, es) == s;
    PlayIsRun(es);
    RunSnoc(es, ForeignRelease);
  }
}
