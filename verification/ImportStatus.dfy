/** The status of a ServiceImport, the exports it is resolved from, and the in-memory
    computations that the two hub controllers perform on them. */
module ImportStatus {
  import opened Api

  type Cluster = string

  datatype ServicePort = ServicePort(
    name: string, protocol: string, appProtocol: Option<string>, port: int, targetPort: string)

  type Ports = seq<ServicePort>

  datatype Status = Status(ports: Ports, clusters: seq<Cluster>)

  const EmptyStatus := Status([], [])

  /** The Conflict condition on an InternalServiceExport; its reason follows from its status. */
  datatype Verdict = Verdict(conflict: bool, observed: nat)

  /** An InternalServiceExport: `marked` is a deletion timestamp, `finalizer` the hub's own. */
  datatype Export = Export(
    version: nat, generation: nat, marked: bool, finalizer: bool, ports: Ports, verdict: Option<Verdict>)

  /** One element of a listing of exports. */
  datatype Item = Item(cluster: Cluster, body: Export)

  /** The condition already says `conflict`, for this generation or a newer one. */
  predicate Agrees(x: Export, conflict: bool) {
    x.verdict.Some? && x.verdict.value.conflict == conflict && x.verdict.value.observed >= x.generation
  }

  function WithVerdict(x: Export, conflict: bool): Export {
    x.(verdict := Some(Verdict(conflict, x.generation)))
  }

  /** Neither on its way out nor still unknown to the export controller. */
  predicate Eligible(x: Export) {
    !x.marked && x.finalizer
  }

  // ----- removing and adding a cluster -----

  function Without(clusters: seq<Cluster>, c: Cluster): (r: seq<Cluster>)
    ensures forall x :: x in r <==> x in clusters && x != c
    ensures |r| <= |clusters|
  {
    if clusters == [] then []
    else
      var last := clusters[|clusters| - 1];
      var front := Without(clusters[..|clusters| - 1], c);
      assert clusters == clusters[..|clusters| - 1] + [last];
      if last != c then front + [last] else front
  }

  function Removed(st: Status, c: Cluster): Status {
    var left := Without(st.clusters, c);
    if left == [] then EmptyStatus else st.(clusters := left)
  }

  function Added(st: Status, c: Cluster): Status {
    if c in st.clusters then st else st.(clusters := st.clusters + [c])
  }

  /** Ports are resolved exactly when clusters are listed, and no cluster is listed twice. */
  ghost predicate WellShaped(st: Status) {
    (st.ports == [] <==> st.clusters == []) && Distinct(st.clusters)
  }

  lemma {:induction false} WithoutDistinct(clusters: seq<Cluster>, c: Cluster)
    requires Distinct(clusters)
    ensures Distinct(Without(clusters, c))
  {
    if clusters != [] {
      var front, last := clusters[..|clusters| - 1], clusters[|clusters| - 1];
      WithoutDistinct(front, c);
      assert last !in front;
      assert last !in Without(front, c);
    }
  }

  lemma {:induction false} WithoutAbsent(clusters: seq<Cluster>, c: Cluster)
    requires c !in clusters
    ensures Without(clusters, c) == clusters
  {
    if clusters != [] {
      WithoutAbsent(clusters[..|clusters| - 1], c);
      assert clusters == clusters[..|clusters| - 1] + [clusters[|clusters| - 1]];
    }
  }

  /** Removal keeps the shape, takes out exactly one cluster, and either keeps the ports or,
      when nobody is left, forgets them. */
  lemma RemovedKeepsShape(st: Status, c: Cluster)
    requires WellShaped(st)
    ensures WellShaped(Removed(st, c))
    ensures forall x :: x in Removed(st, c).clusters <==> x in st.clusters && x != c
    ensures Removed(st, c).clusters != [] ==> Removed(st, c).ports == st.ports
    ensures c !in st.clusters ==> Removed(st, c) == st
  {
    WithoutDistinct(st.clusters, c);
    if c !in st.clusters {
      WithoutAbsent(st.clusters, c);
    }
  }

  lemma AddedKeepsShape(st: Status, c: Cluster)
    requires WellShaped(st) && st.ports != []
    ensures WellShaped(Added(st, c))
    ensures forall x :: x in Added(st, c).clusters <==> x in st.clusters || x == c
    ensures Added(st, c).ports == st.ports
    ensures Added(st, c).clusters == st.clusters + if c in st.clusters then [] else [c]
  {
  }

  /** Recording a verdict changes nothing else, and says it for the present generation. */
  lemma VerdictIsRecorded(x: Export, conflict: bool)
    ensures var y := WithVerdict(x, conflict);
            && y.verdict == Some(Verdict(conflict, x.generation))
            && y.version == x.version && y.generation == x.generation && y.marked == x.marked
            && y.finalizer == x.finalizer && y.ports == x.ports
            && Agrees(y, conflict) && !Agrees(y, !conflict)
  {
  }

  /** Removal takes one place out of the list and leaves the others in order. */
  lemma {:induction false} WithoutInOrder(clusters: seq<Cluster>, k: nat)
    requires k < |clusters| && Distinct(clusters)
    ensures Without(clusters, clusters[k]) == clusters[..k] + clusters[k + 1..]
  {
    var front, last := clusters[..|clusters| - 1], clusters[|clusters| - 1];
    if k == |clusters| - 1 {
      assert last !in front;
      WithoutAbsent(front, last);
    } else {
      WithoutInOrder(front, k);
      assert clusters[..k] + clusters[k + 1..] == front[..k] + front[k + 1..] + [last];
    }
  }

  /** Removing a cluster that was just added to a resolved status gives the old status back. */
  lemma AddThenRemove(st: Status, c: Cluster)
    requires WellShaped(st) && st.ports != [] && c !in st.clusters
    ensures Removed(Added(st, c), c) == st
  {
    var both := st.clusters + [c];
    assert both[..|both| - 1] == st.clusters;
    WithoutAbsent(st.clusters, c);
  }

  /** The in-memory ServiceImport that the export controller edits before writing it back. */
  class ServiceImportObject {
    var status: Status

    constructor (st: Status)
      ensures status == st
    {
      status := st;
    }

    method RemoveCluster(c: Cluster)
      modifies this
      ensures status == Removed(old(status), c)
    {
      var updated: seq<Cluster> := [];
      for i := 0 to |status.clusters|
        invariant status == old(status)
        invariant updated == Without(status.clusters[..i], c)
      {
        assert status.clusters[..i + 1][..i] == status.clusters[..i];
        if status.clusters[i] != c {
          updated := updated + [status.clusters[i]];
        }
      }
      assert status.clusters[..|status.clusters|] == status.clusters;
      if |updated| == 0 {
        status := EmptyStatus;
      } else {
        status := status.(clusters := updated);
      }
    }

    method AddCluster(c: Cluster)
      modifies this
      ensures status == Added(old(status), c)
    {
      for i := 0 to |status.clusters|
        invariant status == old(status)
        invariant c !in status.clusters[..i]
      {
        if status.clusters[i] == c {
          return;
        }
      }
      status := status.(clusters := status.clusters + [c]);
    }
  }

  // ----- choosing the spec and splitting the exports by it -----

  /** The eligible items whose ports equal `ports` (`same`), or the eligible others. */
  function Split(items: seq<Item>, ports: Ports, same: bool): (r: seq<Item>)
    ensures forall t :: t in r <==> t in items && Eligible(t.body) && ((t.body.ports == ports) <==> same)
  {
    if items == [] then []
    else
      var last := items[|items| - 1];
      var front := Split(items[..|items| - 1], ports, same);
      assert items == items[..|items| - 1] + [last];
      if Eligible(last.body) && ((last.body.ports == ports) <==> same) then front + [last] else front
  }

  /** The ports of the first eligible item. */
  function Chosen(items: seq<Item>): (r: Option<Ports>)
    ensures r.None? <==> forall t :: t in items ==> !Eligible(t.body)
    ensures r.Some? ==> exists t :: t in items && Eligible(t.body) && t.body.ports == r.value
  {
    if items == [] then None
    else
      assert items == [items[0]] + items[1..];
      if Eligible(items[0].body) then Some(items[0].body.ports) else Chosen(items[1..])
  }

  function ClustersOf(items: seq<Item>): (r: seq<Cluster>)
    ensures |r| == |items|
    ensures forall i :: 0 <= i < |items| ==> r[i] == items[i].cluster
  {
    seq(|items|, i requires 0 <= i < |items| => items[i].cluster)
  }

  lemma {:induction false} ChosenSnoc(items: seq<Item>, t: Item)
    ensures Chosen(items + [t]) ==
            if Chosen(items).Some? then Chosen(items)
            else if Eligible(t.body) then Some(t.body.ports) else None
  {
    if items != [] {
      ChosenSnoc(items[1..], t);
      assert (items + [t])[1..] == items[1..] + [t];
    }
  }

  lemma SplitSnoc(items: seq<Item>, t: Item, ports: Ports, same: bool)
    ensures Split(items + [t], ports, same) ==
            Split(items, ports, same) +
            if Eligible(t.body) && ((t.body.ports == ports) <==> same) then [t] else []
  {
    assert (items + [t])[..|items|] == items;
  }

  lemma {:induction false} SplitDistinct(items: seq<Item>, ports: Ports, same: bool)
    requires Distinct(ClustersOf(items))
    ensures Distinct(ClustersOf(Split(items, ports, same)))
  {
    if items != [] {
      var front := items[..|items| - 1];
      forall i, j | 0 <= i < j < |front| ensures ClustersOf(front)[i] != ClustersOf(front)[j] {
        assert ClustersOf(items)[i] != ClustersOf(items)[j];
      }
      SplitDistinct(front, ports, same);
      var kept := Split(front, ports, same);
      var last := items[|items| - 1];
      forall i | 0 <= i < |kept| ensures kept[i].cluster != last.cluster {
        assert kept[i] in front;
        var k :| 0 <= k < |front| && front[k] == kept[i];
        assert ClustersOf(items)[k] != ClustersOf(items)[|items| - 1];
      }
    }
  }

  /** The items, filed: the chosen ports, the eligible items with these ports, and the others. */
  ghost predicate Filed(items: seq<Item>, resolved: Option<Ports>, noConflict: seq<Item>, conflict: seq<Item>) {
    && resolved == Chosen(items)
    && (resolved.None? ==> noConflict == [] && conflict == [])
    && (resolved.Some? ==>
          noConflict == Split(items, resolved.value, true) && conflict == Split(items, resolved.value, false))
  }

  /** Filing one more item. */
  lemma FileMore(items: seq<Item>, t: Item, ports: Ports)
    requires Eligible(t.body)
    requires Chosen(items) == Some(ports) || (Chosen(items).None? && t.body.ports == ports)
    ensures Chosen(items + [t]) == Some(ports)
    ensures Split(items + [t], ports, true) == Split(items, ports, true) + if t.body.ports == ports then [t] else []
    ensures Split(items + [t], ports, false) == Split(items, ports, false) + if t.body.ports != ports then [t] else []
    ensures Chosen(items).None? ==> Split(items, ports, true) == [] && Split(items, ports, false) == []
  {
    ChosenSnoc(items, t);
    SplitSnoc(items, t, ports, true);
    SplitSnoc(items, t, ports, false);
    if Chosen(items).None? {
      NoneEligible(items, ports, true);
      NoneEligible(items, ports, false);
    }
  }

  lemma FileSkips(items: seq<Item>, t: Item, resolved: Option<Ports>, noConflict: seq<Item>, conflict: seq<Item>)
    requires !Eligible(t.body) && Filed(items, resolved, noConflict, conflict)
    ensures Filed(items + [t], resolved, noConflict, conflict)
  {
    ChosenSnoc(items, t);
    if resolved.Some? {
      SplitSnoc(items, t, resolved.value, true);
      SplitSnoc(items, t, resolved.value, false);
    }
  }

  /** One turn of the resolution loop. */
  method FileOne(t: Item, resolved: Option<Ports>, noConflict: seq<Item>, conflict: seq<Item>, ghost items: seq<Item>)
    returns (resolved': Option<Ports>, noConflict': seq<Item>, conflict': seq<Item>)
    requires Filed(items, resolved, noConflict, conflict)
    ensures Filed(items + [t], resolved', noConflict', conflict')
    ensures |noConflict'| + |conflict'| <= |noConflict| + |conflict| + 1
  {
    resolved', noConflict', conflict' := resolved, noConflict, conflict;
    if !Eligible(t.body) {
      FileSkips(items, t, resolved, noConflict, conflict);
      return;
    }
    if resolved.None? {
      resolved' := Some(t.body.ports);
    }
    FileMore(items, t, resolved'.value);
    if resolved'.value != t.body.ports {
      conflict' := conflict + [t];
    } else {
      noConflict' := noConflict + [t];
    }
  }

  /** The resolution loop: the first eligible export fixes the ports, and every eligible
      export is then filed under "no conflict" or "conflict". */
  method Resolve(items: seq<Item>)
    returns (resolved: Option<Ports>, noConflict: seq<Item>, conflict: seq<Item>)
    ensures Filed(items, resolved, noConflict, conflict)
    ensures resolved.Some? ==> noConflict != []
    ensures |noConflict| + |conflict| <= |items|
  {
    resolved, noConflict, conflict := None, [], [];
    ghost var done: seq<Item> := [];
    for i := 0 to |items|
      invariant done == items[..i]
      invariant Filed(done, resolved, noConflict, conflict)
      invariant |noConflict| + |conflict| <= i
    {
      resolved, noConflict, conflict := FileOne(items[i], resolved, noConflict, conflict, done);
      done := done + [items[i]];
    }
    assert done == items;
    if resolved.Some? {
      ChosenIsKept(done, resolved.value);
    }
  }

  lemma ChosenIsKept(items: seq<Item>, ports: Ports)
    requires Chosen(items) == Some(ports)
    ensures Split(items, ports, true) != []
  {
    var t :| t in items && Eligible(t.body) && t.body.ports == ports;
    assert t in Split(items, ports, true);
  }

  lemma {:induction false} NoneEligible(items: seq<Item>, ports: Ports, same: bool)
    requires forall t :: t in items ==> !Eligible(t.body)
    ensures Split(items, ports, same) == []
  {
    if items != [] {
      var front := items[..|items| - 1];
      assert items[|items| - 1] in items;
      assert forall t :: t in front ==> t in items;
      NoneEligible(front, ports, same);
    }
  }
}
