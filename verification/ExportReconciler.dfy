/** The two reconcile functions as they are written: step by step, editing the objects in
    memory and writing them back. Any write may fail, with or without having been carried out.
    Each function is shown to have the effect of a round when it ends well, and to keep the
    safety invariant wherever it stops. */
module ExportReconciler {
  import opened Api
  import opened ImportStatus
  import opened ExportMachine
  import opened ExportSafety
  import opened ExportRounds
  import opened ExportEffects

  // ----- the states in which a reconcile may stop -----

  lemma FinalizedKeepsInv(s: State, c: Cluster)
    requires Inv(s) && c in s.exports
    ensures Inv(Finalized(s, c))
  {
    if !s.exports[c].finalizer {
      ExportWrite(s, c, s.exports[c].(finalizer := true));
    }
  }

  lemma JudgedKeepsInv(s: State, c: Cluster, conflict: bool)
    requires Inv(s) && c in s.exports
    ensures Inv(Judged(s, c, conflict))
  {
    if !Agrees(s.exports[c], conflict) {
      ExportWrite(s, c, WithVerdict(s.exports[c], conflict));
    }
  }

  lemma CreatedKeepsInv(s: State)
    requires Calm(s) && Inv(s) && s.si.None?
    ensures Inv(PutImport(s, Import(s.next, false, false, EmptyStatus)))
  {
  }

  /** Adding or removing the cluster of an export that has its finalizer. */
  lemma StatusKeepsInv(s: State, c: Cluster, st: Status)
    requires Calm(s) && Inv(s) && Held(s.exports, c) && s.si.Some? && s.si.value.status.ports != []
    requires st == Added(s.si.value.status, c) || st == Removed(s.si.value.status, c)
    ensures Inv(WithStatus(s, st))
  {
    StatusWrite(s, c, s.si.value, st);
    var t := PutImport(s, s.si.value.(status := st));
    assert Rest(t, c) == t by {
      assert t.workers - {c} == t.workers;
    }
  }

  /** Letting go of an export that is being deleted and not listed. */
  lemma DroppedKeepsInv(s: State, c: Cluster)
    requires Calm(s) && Inv(s) && c !in Listed(s.si)
    ensures Inv(s.(exports := s.exports - {c}))
  {
  }

  lemma RoundsKeepInv(s: State, c: Cluster, order: seq<Cluster>)
    requires Calm(s) && Inv(s)
    ensures Inv(WorkerOutcome(s, c))
    ensures Enumerates(order, s.exports) ==> Inv(ResolverOutcome(s, order))
  {
    RoundsAreRuns(s, c, order);
    WorkerRoundOutcome(s, c);
    var es :| Play(s, es) == WorkerRound(s, c);
    LeadsKeepsInv(s, es);
    if Enumerates(order, s.exports) {
      ResolverRoundOutcome(s, order);
      var es' :| Play(s, es') == ResolverRound(s, order);
      LeadsKeepsInv(s, es');
    }
  }

  // ----- the reconciles -----

  class Hub {
    var next: nat
    var si: Option<Import>
    var exports: map<Cluster, Export>

    constructor ()
      ensures View() == Init
    {
      next, si, exports := 0, None, map[];
    }

    /** The store as a calm state of the machine. */
    function View(): (s: State)
      reads this
      ensures Calm(s)
    {
      State(next, si, exports, Idle, map[])
    }

    method WriteExport(c: Cluster, x: Export) returns (ok: bool)
      modifies this
      ensures View() == old(View()) || View() == PutExport(old(View()), c, x)
      ensures ok ==> View() == PutExport(old(View()), c, x)
    {
      ok := *;
      var applied: bool := *;
      if ok || applied {
        exports := exports[c := x.(version := next)];
        next := next + 1;
      }
    }

    method WriteImport(i: Import) returns (ok: bool)
      modifies this
      ensures View() == old(View()) || View() == PutImport(old(View()), i)
      ensures ok ==> View() == PutImport(old(View()), i)
    {
      ok := *;
      var applied: bool := *;
      if ok || applied {
        si := Some(i.(version := next));
        next := next + 1;
      }
    }

    /** Writes the edited status back unless it is unchanged. */
    method UpdateImportStatus(edited: ServiceImportObject) returns (ok: bool)
      requires si.Some?
      modifies this
      ensures View() == old(View()) || View() == WithStatus(old(View()), old(edited.status))
      ensures ok ==> View() == WithStatus(old(View()), old(edited.status))
    {
      ok := true;
      if edited.status != si.value.status {
        ok := WriteImport(si.value.(status := edited.status));
      }
    }

    method UpdateExportStatus(c: Cluster, conflict: bool) returns (ok: bool)
      requires c in exports
      modifies this
      ensures View() == old(View()) || View() == Judged(old(View()), c, conflict)
      ensures ok ==> View() == Judged(old(View()), c, conflict)
    {
      ok := true;
      if !Agrees(exports[c], conflict) {
        ok := WriteExport(c, WithVerdict(exports[c], conflict));
      }
    }

    /** Edits the status for an export that has its finalizer, and records the verdict. */
    method Place(c: Cluster, conflict: bool) returns (ok: bool)
      requires Inv(View()) && Held(exports, c) && si.Some? && si.value.status.ports != []
      modifies this
      ensures Inv(View())
      ensures var st := old(si.value.status);
              var u := WithStatus(old(View()), if conflict then Removed(st, c) else Added(st, c));
              ok ==> View() == if u.si.value.status.ports == [] then u else Judged(u, c, conflict)
    {
      var edited := new ServiceImportObject(si.value.status);
      if conflict {
        edited.RemoveCluster(c);
      } else {
        edited.AddCluster(c);
      }
      StatusKeepsInv(View(), c, edited.status);
      ok := UpdateImportStatus(edited);
      if !ok || |si.value.status.ports| == 0 {
        return;
      }
      JudgedKeepsInv(View(), c, conflict);
      ok := UpdateExportStatus(c, conflict);
    }

    method HandleUpdate(c: Cluster) returns (ok: bool)
      requires Inv(View()) && Held(exports, c)
      modifies this
      ensures Inv(View())
      ensures ok ==> View() == FetchOutcome(old(View()), c) && Reconciled(old(View()), View(), c)
    {
      FetchEffect(View(), c);
      if si.None? {
        CreatedKeepsInv(View());
        ok := WriteImport(Import(next, false, false, EmptyStatus));
        return;
      }
      if |si.value.status.ports| == 0 {
        return true;
      }
      AddedKeepsShape(si.value.status, c);
      ok := Place(c, si.value.status.ports != exports[c].ports);
    }

    method HandleDelete(c: Cluster) returns (ok: bool)
      requires Inv(View()) && c in exports && exports[c].marked
      modifies this
      ensures Inv(View())
      ensures ok ==> View() == if old(exports[c].finalizer) then DeleteOutcome(old(View()), c) else old(View())
    {
      if !exports[c].finalizer {
        return true;
      }
      if si.Some? {
        if |si.value.status.ports| == 0 {
          return true;
        }
        RemovedKeepsShape(si.value.status, c);
        var edited := new ServiceImportObject(si.value.status);
        edited.RemoveCluster(c);
        StatusKeepsInv(View(), c, edited.status);
        ok := UpdateImportStatus(edited);
        if !ok {
          return;
        }
      }
      DroppedKeepsInv(View(), c);
      ok := *;
      var applied: bool := *;
      if ok || applied {
        exports := exports - {c};
      }
    }

    /** Reconciling an InternalServiceExport. */
    method ReconcileExport(c: Cluster) returns (ok: bool)
      requires Inv(View())
      modifies this
      ensures Inv(View())
      ensures ok ==> View() == WorkerOutcome(old(View()), c)
      ensures ok && old(c in exports && !exports[c].marked) ==> Reconciled(old(View()), View(), c)
    {
      if c !in exports {
        return true;
      }
      if exports[c].marked {
        ok := HandleDelete(c);
        return;
      }
      UpdateEffect(View(), c);
      if !exports[c].finalizer {
        FinalizedKeepsInv(View(), c);
        ok := WriteExport(c, exports[c].(finalizer := true));
        if !ok {
          return;
        }
      }
      ok := HandleUpdate(c);
    }

    /** Records one verdict on each of the items, in order; their clusters are returned. */
    method JudgeItems(items: seq<Item>, conflict: bool) returns (ok: bool, clusters: seq<Cluster>)
      requires Inv(View())
      modifies this
      ensures Inv(View()) && si == old(si)
      ensures ok ==> View() == JudgeAll(old(View()), items, conflict) && clusters == ClustersOf(items)
    {
      ok, clusters := true, [];
      for i := 0 to |items|
        invariant Inv(View()) && si == old(si)
        invariant |clusters| == i && forall k :: 0 <= k < i ==> clusters[k] == items[k].cluster
        invariant JudgeAll(View(), items[i..], conflict) == JudgeAll(old(View()), items, conflict)
      {
        var c := items[i].cluster;
        assert items[i..][0] == items[i] && items[i..][1..] == items[i + 1..];
        if c in exports {
          JudgedKeepsInv(View(), c, conflict);
          ok := UpdateExportStatus(c, conflict);
          if !ok {
            return;
          }
        }
        clusters := clusters + [c];
      }
      ok := true;
    }

    /** Deleting the ServiceImport, which has nothing to list. */
    method DeleteImport() returns (ok: bool)
      requires si.Some?
      modifies this
      ensures View() == old(View()) || View() == Purge(old(View()), Done)
      ensures ok ==> View() == Purge(old(View()), Done)
    {
      ok := true;
      if si.value.marked {
      } else if si.value.held {
        ok := WriteImport(si.value.(marked := true));
      } else {
        ok := *;
        var applied: bool := *;
        if ok || applied {
          si := None;
        }
      }
    }

    /** Reconciling the ServiceImport, the exports being listed in the given order. */
    method ReconcileImport(order: seq<Cluster>) returns (ok: bool)
      requires Inv(View()) && Enumerates(order, exports)
      modifies this
      ensures Inv(View())
      ensures ok ==> View() == ResolverOutcome(old(View()), order)
    {
      if si.None? || |si.value.status.clusters| != 0 {
        return true;
      }
      RoundsKeepInv(View(), "", order);
      var items := ItemsOf(order, exports);
      var resolved, noConflict, conflict := Resolve(items);
      if resolved.None? {
        ok := DeleteImport();
        return;
      }
      var clusters;
      ok, clusters := JudgeItems(noConflict, false);
      if ok {
        var rivals;
        ok, rivals := JudgeItems(conflict, true);
        if ok {
          ok := WriteImport(si.value.(status := Status(resolved.value, clusters)));
        }
      }
    }
  }
}
