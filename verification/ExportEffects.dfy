/** What an undisturbed reconcile leaves behind, in terms of the objects alone. */
module ExportEffects {
  import opened Api
  import opened ImportStatus
  import opened ExportMachine
  import opened ExportSafety
  import opened ExportRounds

  /** The list `after` is `before` with `c` in it: where it was, or at the end. */
  ghost predicate Appended(before: seq<Cluster>, after: seq<Cluster>, c: Cluster) {
    after == before + if c in before then [] else [c]
  }

  /** The list `after` is `before` without `c`, in order. */
  ghost predicate TakenOut(before: seq<Cluster>, after: seq<Cluster>, c: Cluster) {
    && (c !in before ==> after == before)
    && (forall k :: 0 <= k < |before| && before[k] == c ==> after == before[..k] + before[k + 1..])
  }

  lemma RemovalTakesOut(st: Status, c: Cluster)
    requires WellShaped(st)
    ensures TakenOut(st.clusters, Removed(st, c).clusters, c)
  {
    if c !in st.clusters {
      WithoutAbsent(st.clusters, c);
    }
    forall k | 0 <= k < |st.clusters| && st.clusters[k] == c
      ensures Removed(st, c).clusters == st.clusters[..k] + st.clusters[k + 1..]
    {
      WithoutInOrder(st.clusters, k);
    }
  }

  /** All exports but that of `c` are as they were, and so is everything the members set. */
  ghost predicate OnlyExport(s: State, t: State, c: Cluster) {
    && t.exports.Keys == s.exports.Keys
    && (forall d :: d in s.exports && d != c ==> t.exports[d] == s.exports[d])
    && (c in s.exports ==>
          && t.exports[c].ports == s.exports[c].ports && t.exports[c].generation == s.exports[c].generation
          && t.exports[c].marked == s.exports[c].marked)
  }

  /** The condition says whether there is a conflict, for the present generation. */
  predicate Says(x: Export, conflict: bool) {
    x.verdict.Some? && x.verdict.value.conflict == conflict && x.verdict.value.observed >= x.generation
  }

  lemma JudgedEffect(s: State, c: Cluster, conflict: bool)
    requires c in s.exports
    ensures var t := Judged(s, c, conflict);
            && OnlyExport(s, t, c) && t.si == s.si && Says(t.exports[c], conflict)
            && t.exports[c].finalizer == s.exports[c].finalizer
  {
  }

  lemma FinalizedEffect(s: State, c: Cluster)
    requires c in s.exports
    ensures var t := Finalized(s, c);
            && OnlyExport(s, t, c) && t.si == s.si
            && t.exports[c].finalizer && t.exports[c].verdict == s.exports[c].verdict
  {
  }

  /** The ServiceImport keeps its deletion mark and the other controller's finalizer. */
  predicate SameMeta(before: Option<Import>, after: Option<Import>) {
    before.Some? && after.Some? && after.value.marked == before.value.marked && after.value.held == before.value.held
  }

  lemma WithStatusEffect(s: State, st: Status)
    requires s.si.Some?
    ensures var t := WithStatus(s, st);
            t.exports == s.exports && SameMeta(s.si, t.si) && t.si.value.status == st
  {
  }

  /** An export whose ports are the resolved ones is listed and has no conflict. */
  lemma AdmitEffect(t: State, c: Cluster)
    requires c in t.exports && t.si.Some? && WellShaped(t.si.value.status)
    requires t.si.value.status.ports != [] && t.si.value.status.ports == t.exports[c].ports
    ensures var u := FetchOutcome(t, c);
            && OnlyExport(t, u, c) && u.exports[c].finalizer == t.exports[c].finalizer
            && SameMeta(t.si, u.si) && u.si.value.status.ports == t.si.value.status.ports
            && Appended(Listed(t.si), Listed(u.si), c) && c in Listed(u.si)
            && Says(u.exports[c], false)
  {
    var st := t.si.value.status;
    AddedKeepsShape(st, c);
    WithStatusEffect(t, Added(st, c));
    JudgedEffect(WithStatus(t, Added(st, c)), c, false);
  }

  /** An export with other ports leaves the list in the same reconcile that records its conflict;
      only when it was the last one listed are the ports forgotten instead. */
  lemma ExpelEffect(t: State, c: Cluster)
    requires c in t.exports && t.si.Some? && WellShaped(t.si.value.status)
    requires t.si.value.status.ports != [] && t.si.value.status.ports != t.exports[c].ports
    ensures var u := FetchOutcome(t, c);
            && OnlyExport(t, u, c) && u.exports[c].finalizer == t.exports[c].finalizer
            && SameMeta(t.si, u.si)
            && TakenOut(Listed(t.si), Listed(u.si), c) && c !in Listed(u.si)
            && (Listed(t.si) != [c] ==>
                  u.si.value.status.ports == t.si.value.status.ports && Says(u.exports[c], true))
            && (Listed(t.si) == [c] ==> u.si.value.status == Status([], []) && u.exports == t.exports)
  {
    var st := t.si.value.status;
    RemovedKeepsShape(st, c);
    RemovalTakesOut(st, c);
    WithStatusEffect(t, Removed(st, c));
    JudgedEffect(WithStatus(t, Removed(st, c)), c, true);
    OnlyOneListed(st, c);
  }

  lemma OnlyOneListed(st: Status, c: Cluster)
    requires WellShaped(st) && st.ports != []
    ensures Removed(st, c).clusters == [] <==> st.clusters == [c]
    ensures Removed(st, c).clusters == [] ==> Removed(st, c) == Status([], [])
  {
    RemovedKeepsShape(st, c);
    var left := Removed(st, c).clusters;
    if left == [] {
      forall i | 0 <= i < |st.clusters| ensures st.clusters[i] == c {
        assert st.clusters[i] in st.clusters && st.clusters[i] !in left;
      }
      DistinctLength(st.clusters, {c});
    } else {
      assert left[0] in left;
    }
  }

  /** What an undisturbed reconcile of an export that is not being deleted leaves behind. */
  ghost predicate Reconciled(s: State, t: State, c: Cluster)
    requires c in s.exports
  {
    && OnlyExport(s, t, c) && c in t.exports && t.exports[c].finalizer && t.si.Some?
    && (s.si.None? ==>
          t.si.value.status == Status([], []) && !t.si.value.marked && !t.si.value.held &&
          t.exports[c].verdict == s.exports[c].verdict)
    && (s.si.Some? ==> SameMeta(s.si, t.si))
    && (s.si.Some? && s.si.value.status.ports == [] ==>
          t.si == s.si && t.exports[c].verdict == s.exports[c].verdict)
    && (s.si.Some? && s.si.value.status.ports != [] ==>
          var ports := s.si.value.status.ports;
          if s.exports[c].ports == ports then
            && t.si.value.status.ports == ports && Appended(Listed(s.si), Listed(t.si), c)
            && Says(t.exports[c], false)
          else if Listed(s.si) == [c] then
            t.si.value.status == Status([], []) && t.exports[c].verdict == s.exports[c].verdict
          else
            && t.si.value.status.ports == ports && TakenOut(Listed(s.si), Listed(t.si), c)
            && Says(t.exports[c], true))
  }

  lemma FetchEffect(t: State, c: Cluster)
    requires c in t.exports && t.exports[c].finalizer
    requires t.si.Some? ==> WellShaped(t.si.value.status)
    ensures Reconciled(t, FetchOutcome(t, c), c)
  {
    if t.si.Some? && t.si.value.status.ports != [] {
      if t.si.value.status.ports == t.exports[c].ports {
        AdmitEffect(t, c);
      } else {
        ExpelEffect(t, c);
      }
    }
  }

  /** The update path of the export reconcile: afterwards the export has its finalizer; it is
      listed exactly if its ports are the resolved ones, and its condition says exactly that;
      every other export, and every other place in the list, is as before. */
  lemma UpdateEffect(s: State, c: Cluster)
    requires Calm(s) && Inv(s) && c in s.exports && !s.exports[c].marked
    ensures Reconciled(s, WorkerOutcome(s, c), c)
    ensures var t := WorkerOutcome(s, c);
            t.si.value.status.ports != [] ==>
              && (c in Listed(t.si) <==> t.exports[c].ports == t.si.value.status.ports)
              && Says(t.exports[c], c !in Listed(t.si))
  {
    var t := Finalized(s, c);
    FinalizedEffect(s, c);
    FetchEffect(t, c);
    ListedIff(s, WorkerOutcome(s, c), c);
  }

  lemma ListedIff(s: State, t: State, c: Cluster)
    requires c in s.exports && Reconciled(s, t, c) && (s.si.Some? ==> WellShaped(s.si.value.status))
    ensures t.si.value.status.ports != [] ==>
              (c in Listed(t.si) <==> t.exports[c].ports == t.si.value.status.ports)
  {
    var before, after := Listed(s.si), Listed(t.si);
    if TakenOut(before, after, c) && c in before {
      var k :| 0 <= k < |before| && before[k] == c;
      assert after == before[..k] + before[k + 1..];
      assert c !in after;
    }
  }

  /** The delete path: nothing happens while the ServiceImport is not resolved; otherwise the
      export is gone, and its cluster is out of the list, which keeps its order. */
  lemma DeleteEffect(s: State, c: Cluster)
    requires Calm(s) && Inv(s) && c in s.exports && s.exports[c].marked
    ensures var t := WorkerOutcome(s, c);
            if s.si.Some? && s.si.value.status.ports == [] then t == s
            else
              && t.exports == s.exports - {c}
              && (s.si.None? ==> t.si.None?)
              && (s.si.Some? ==>
                    && SameMeta(s.si, t.si)
                    && TakenOut(Listed(s.si), Listed(t.si), c) && c !in Listed(t.si)
                    && t.si.value.status.ports == if Listed(s.si) == [c] then [] else s.si.value.status.ports)
  {
    if s.si.Some? && s.si.value.status.ports != [] {
      var st := s.si.value.status;
      RemovedKeepsShape(st, c);
      RemovalTakesOut(st, c);
      WithStatusEffect(s, Removed(st, c));
      OnlyOneListed(st, c);
    }
  }

  // ----- the ServiceImport -----

  /** Nobody is eligible: the ServiceImport is deleted, or marked while another controller holds
      it, and no export is touched. */
  lemma PurgeEffect(s: State, order: seq<Cluster>)
    requires Calm(s) && Inv(s) && Enumerates(order, s.exports)
    requires s.si.Some? && s.si.value.status.clusters == []
    requires forall c :: c in s.exports ==> s.exports[c].marked || !s.exports[c].finalizer
    ensures var t := ResolverOutcome(s, order);
            && t.exports == s.exports
            && (t.si.None? <==> !s.si.value.held)
            && (t.si.Some? ==> t.si.value.marked && t.si.value.held && t.si.value.status == s.si.value.status)
  {
    var items := ItemsOf(order, s.exports);
    forall t | t in items ensures !Eligible(t.body) {
      assert t.cluster in s.exports && s.exports[t.cluster] == t.body;
    }
  }

  /** The first export in the listing that is neither going nor new decides the ports. */
  lemma {:induction false} FirstDecides(items: seq<Item>, k: nat)
    requires k < |items| && items[k].body.finalizer && !items[k].body.marked
    requires forall i :: 0 <= i < k ==> items[i].body.marked || !items[i].body.finalizer
    ensures Chosen(items) == Some(items[k].body.ports)
  {
    if k > 0 {
      FirstDecides(items[1..], k - 1);
    }
  }

  lemma RivalHasOthers(order: seq<Cluster>, exports: Exports, ports: Ports, c: Cluster)
    requires Enumerates(order, exports) && c in ClustersOf(Split(ItemsOf(order, exports), ports, false))
    ensures c in exports && Eligible(exports[c]) && exports[c].ports != ports
  {
    var no := Split(ItemsOf(order, exports), ports, false);
    var k :| 0 <= k < |no| && ClustersOf(no)[k] == c;
    assert no[k] in ItemsOf(order, exports);
  }

  lemma OthersAreRivals(order: seq<Cluster>, exports: Exports, ports: Ports, c: Cluster)
    requires Enumerates(order, exports) && c in exports && Eligible(exports[c]) && exports[c].ports != ports
    ensures c in ClustersOf(Split(ItemsOf(order, exports), ports, false))
  {
    var items := ItemsOf(order, exports);
    var no := Split(items, ports, false);
    var k :| 0 <= k < |order| && order[k] == c;
    assert items[k] in no;
    var j :| 0 <= j < |no| && no[j] == items[k];
    assert ClustersOf(no)[j] == c;
  }

  /** A split of a listing, by what the exports are. */
  ghost predicate SplitByPorts(exports: Exports, ports: Ports, yes: seq<Cluster>, no: seq<Cluster>) {
    && (forall c :: c in yes <==>
          c in exports && exports[c].finalizer && !exports[c].marked && exports[c].ports == ports)
    && (forall c :: c in no <==>
          c in exports && exports[c].finalizer && !exports[c].marked && exports[c].ports != ports)
  }

  lemma SplitIsByPorts(order: seq<Cluster>, exports: Exports, ports: Ports)
    requires Enumerates(order, exports)
    ensures var items := ItemsOf(order, exports);
            SplitByPorts(exports, ports, ClustersOf(Split(items, ports, true)), ClustersOf(Split(items, ports, false)))
  {
    var items := ItemsOf(order, exports);
    var yes, no := ClustersOf(Split(items, ports, true)), ClustersOf(Split(items, ports, false));
    forall c | c in yes ensures c in exports && Eligible(exports[c]) && exports[c].ports == ports {
      PickedIsEligible(order, exports, ports, c);
    }
    forall c | c in exports && Eligible(exports[c]) && exports[c].ports == ports ensures c in yes {
      EligibleIsPicked(order, exports, ports, c);
    }
    forall c | c in no ensures c in exports && Eligible(exports[c]) && exports[c].ports != ports {
      RivalHasOthers(order, exports, ports, c);
    }
    forall c | c in exports && Eligible(exports[c]) && exports[c].ports != ports ensures c in no {
      OthersAreRivals(order, exports, ports, c);
    }
  }

  /** Somebody is eligible: the ports are those of the first such export in the listing; exactly
      the eligible exports with these ports are listed, and each eligible export's condition says
      whether it is; the others are untouched. */
  lemma ResolveEffect(s: State, order: seq<Cluster>, k: nat)
    requires Calm(s) && Inv(s) && Enumerates(order, s.exports)
    requires s.si.Some? && s.si.value.status.clusters == []
    requires k < |order| && s.exports[order[k]].finalizer && !s.exports[order[k]].marked
    requires forall i :: 0 <= i < k ==> s.exports[order[i]].marked || !s.exports[order[i]].finalizer
    ensures ResolvedWith(s, ResolverOutcome(s, order), s.exports[order[k]].ports)
  {
    var items := ItemsOf(order, s.exports);
    var ports := s.exports[order[k]].ports;
    FirstDecides(items, k);
    OutcomeIsSettled(s, order, ports);
    SplitIsByPorts(order, s.exports, ports);
    SettledByPorts(s, ports, Split(items, ports, true), Split(items, ports, false));
  }

  lemma OutcomeIsSettled(s: State, order: seq<Cluster>, ports: Ports)
    requires Enumerates(order, s.exports) && Chosen(ItemsOf(order, s.exports)) == Some(ports)
    requires s.si.Some? && s.si.value.status.clusters == []
    ensures var items := ItemsOf(order, s.exports);
            var yes, no := Split(items, ports, true), Split(items, ports, false);
            && ResolverOutcome(s, order) == Settled(s, ports, yes, no)
            && Fresh(s, yes + no) && Distinct(ClustersOf(yes + no))
  {
    ListingFacts(s, order, ports);
  }

  ghost predicate ResolvedWith(s: State, t: State, ports: Ports) {
    && SameMeta(s.si, t.si) && t.si.value.status.ports == ports
    && t.exports.Keys == s.exports.Keys
    && (forall c :: c in Listed(t.si) <==>
          c in s.exports && s.exports[c].finalizer && !s.exports[c].marked && s.exports[c].ports == ports)
    && (forall c :: c in s.exports && s.exports[c].finalizer && !s.exports[c].marked ==>
          Says(t.exports[c], c !in Listed(t.si)))
    && (forall c :: c in s.exports && (s.exports[c].marked || !s.exports[c].finalizer) ==>
          t.exports[c] == s.exports[c])
  }

  /** The verdicts and the status that settling leaves. */
  ghost predicate SettledAs(s: State, t: State, ports: Ports, yes: seq<Cluster>, no: seq<Cluster>) {
    && SameMeta(s.si, t.si) && t.si.value.status == Status(ports, yes)
    && t.exports.Keys == s.exports.Keys
    && (forall c :: c in yes ==> c in t.exports && Says(t.exports[c], false))
    && (forall c :: c in no ==> c in t.exports && Says(t.exports[c], true))
    && (forall c :: c in s.exports && c !in yes && c !in no ==> t.exports[c] == s.exports[c])
  }

  lemma SettlingSettles(s: State, ports: Ports, yes: seq<Item>, no: seq<Item>)
    requires s.si.Some? && Fresh(s, yes + no) && Distinct(ClustersOf(yes + no))
    ensures SettledAs(s, Settled(s, ports, yes, no), ports, ClustersOf(yes), ClustersOf(no))
  {
    SettledEffect(s, ports, yes, no);
    SettledLikeAs(s, Settled(s, ports, yes, no), ports, yes, no);
  }

  lemma SettledLikeAs(s: State, t: State, ports: Ports, yes: seq<Item>, no: seq<Item>)
    requires SettledLike(s, t, ports, yes, no)
    ensures SettledAs(s, t, ports, ClustersOf(yes), ClustersOf(no))
  {
  }

  lemma SettledAsResolved(s: State, t: State, ports: Ports, yes: seq<Cluster>, no: seq<Cluster>)
    requires SettledAs(s, t, ports, yes, no) && SplitByPorts(s.exports, ports, yes, no)
    ensures ResolvedWith(s, t, ports)
  {
  }

  lemma SettledByPorts(s: State, ports: Ports, yes: seq<Item>, no: seq<Item>)
    requires s.si.Some? && Fresh(s, yes + no) && Distinct(ClustersOf(yes + no))
    requires SplitByPorts(s.exports, ports, ClustersOf(yes), ClustersOf(no))
    ensures ResolvedWith(s, Settled(s, ports, yes, no), ports)
  {
    SettlingSettles(s, ports, yes, no);
    SettledAsResolved(s, Settled(s, ports, yes, no), ports, ClustersOf(yes), ClustersOf(no));
  }
}
