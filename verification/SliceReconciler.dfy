/** The EndpointSliceExport reconcile as it is written, with its loops, any call of which may
    fail. */
module SliceReconciler {
  import opened Api
  import opened SliceDistribution
  import opened SliceEffects

  /** A sequence without repetitions whose elements are exactly `names` has their number. */
  lemma EnumerationLength(order: seq<Namespace>, names: set<Namespace>)
    requires Enumerates(order, names)
    ensures |order| == |names|
  {
    DistinctLength(order, names);
  }

  lemma {:induction false} InsideDistinct(items: seq<Placed>, want: set<Namespace>)
    requires Distinct(Names(items))
    ensures Distinct(Names(Inside(items, want)))
    ensures forall ns :: ns in Names(Inside(items, want)) <==> ns in want && ns in Names(items)
  {
    if items != [] {
      var front, last := items[..|items| - 1], items[|items| - 1];
      assert Names(front) == Names(items)[..|items| - 1];
      InsideDistinct(front, want);
      var kept := Inside(front, want);
      assert last.ns !in Names(front);
      assert Names(items) == Names(front) + [last.ns];
      assert Names(kept + [last]) == Names(kept) + [last.ns];
    }
  }

  lemma NamesPrefix(items: seq<Placed>, n: nat)
    requires n < |items| && Distinct(Names(items))
    ensures Names(items[..n + 1]) == Names(items[..n]) + [items[n].ns]
    ensures items[n].ns !in Names(items[..n])
  {
    assert Names(items[..n]) == Names(items)[..n];
  }

  lemma EnumeratesBoth(a: seq<Namespace>, b: seq<Namespace>, x: set<Namespace>, y: set<Namespace>)
    requires Enumerates(a, x) && Enumerates(b, y) && x !! y
    ensures Enumerates(a + b, x + y)
  {
    var c := a + b;
    forall i, j | 0 <= i < j < |c| ensures c[i] != c[j] {
      if i < |a| <= j {
        assert c[i] in x && c[j] in y;
      }
    }
  }

  /** The wanted namespaces that have a copy, followed by the others, are all of them, once. */
  lemma ScanCovers(items: seq<Placed>, want: set<Namespace>, rest: seq<Namespace>, left: set<Namespace>)
    requires Distinct(Names(items)) && Enumerates(rest, left)
    requires forall ns :: ns in left <==> ns in want && ns !in Names(items)
    ensures Enumerates(Names(Inside(items, want)) + rest, want)
  {
    InsideDistinct(items, want);
    var here := want - left;
    assert Enumerates(Names(Inside(items, want)), here);
    EnumeratesBoth(Names(Inside(items, want)), rest, here, left);
    assert here + left == want;
  }

  lemma ScanSplits(items: seq<Placed>, want: set<Namespace>, toPut: seq<Namespace>)
    requires Enumerates(toPut, want)
    ensures forall p :: p in Outside(items, want) ==> p.ns !in toPut
    ensures forall p :: p in items ==> p in Outside(items, want) || p.ns in toPut
  {
  }

  /** Where the first loop of the scan is once it has looked at `done`. */
  ghost predicate Matched(done: seq<Placed>, inUseBy: map<Namespace, string>, toWithdraw: seq<Placed>,
                          toUpdate: seq<Namespace>, left: map<Namespace, string>)
  {
    && toWithdraw == Outside(done, inUseBy.Keys)
    && toUpdate == Names(Inside(done, inUseBy.Keys))
    && (forall ns :: ns in left <==> ns in inUseBy && ns !in Names(done))
  }

  lemma MatchMore(done: seq<Placed>, p: Placed, want: set<Namespace>)
    ensures Inside(done + [p], want) == Inside(done, want) + if p.ns in want then [p] else []
    ensures Outside(done + [p], want) == Outside(done, want) + if p.ns !in want then [p] else []
    ensures Names(done + [p]) == Names(done) + [p.ns]
    ensures Names(Inside(done, want) + [p]) == Names(Inside(done, want)) + [p.ns]
  {
    assert (done + [p])[..|done|] == done;
    NamesSnoc(done, p);
    NamesSnoc(Inside(done, want), p);
  }

  /** One turn of that loop. */
  method MatchOne(p: Placed, inUseBy: map<Namespace, string>, toWithdraw: seq<Placed>, toUpdate: seq<Namespace>,
                  left: map<Namespace, string>, ghost done: seq<Placed>)
    returns (toWithdraw': seq<Placed>, toUpdate': seq<Namespace>, left': map<Namespace, string>)
    requires Matched(done, inUseBy, toWithdraw, toUpdate, left) && p.ns !in Names(done)
    ensures Matched(done + [p], inUseBy, toWithdraw', toUpdate', left')
  {
    toWithdraw', toUpdate', left' := toWithdraw, toUpdate, left;
    MatchMore(done, p, inUseBy.Keys);
    if p.ns in left {
      toUpdate' := toUpdate + [p.ns];
      left' := left - {p.ns};
    } else {
      toWithdraw' := toWithdraw + [p];
    }
  }

  /** The first loop of the scan: copies found among the namespaces that ask are to be
      updated and struck out of the map; the others are to be withdrawn. */
  method Match(items: seq<Placed>, inUseBy: map<Namespace, string>)
    returns (toWithdraw: seq<Placed>, toUpdate: seq<Namespace>, left: map<Namespace, string>)
    requires Distinct(Names(items))
    ensures Matched(items, inUseBy, toWithdraw, toUpdate, left)
  {
    toWithdraw, toUpdate, left := [], [], inUseBy;
    ghost var done: seq<Placed> := [];
    for i := 0 to |items|
      invariant done == items[..i]
      invariant Matched(done, inUseBy, toWithdraw, toUpdate, left)
    {
      NamesPrefix(items, i);
      toWithdraw, toUpdate, left := MatchOne(items[i], inUseBy, toWithdraw, toUpdate, left, done);
      done := done + [items[i]];
    }
    assert done == items;
  }

  lemma NamesSnoc(items: seq<Placed>, p: Placed)
    ensures Names(items + [p]) == Names(items) + [p.ns]
  {
  }

  /** Matching the existing copies with the namespaces that ask; what the first loop leaves in
      the map needs a new copy. Together the results are exact: every namespace that asks is
      served once, and what is withdrawn is what exists and is not asked for. */
  method Scan(items: seq<Placed>, inUseBy: map<Namespace, string>)
    returns (toWithdraw: seq<Placed>, toPut: seq<Namespace>)
    requires Distinct(Names(items))
    ensures toWithdraw == Outside(items, inUseBy.Keys)
    ensures Enumerates(toPut, inUseBy.Keys)
    ensures |toPut| == |inUseBy|
    ensures forall p :: p in toWithdraw ==> p.ns !in toPut
    ensures forall p :: p in items ==> p in toWithdraw || p.ns in toPut
  {
    var left;
    toWithdraw, toPut, left := Match(items, inUseBy);
    var rest := EnumerateKeys(left);
    ScanCovers(items, inUseBy.Keys, rest, left.Keys);
    toPut := toPut + rest;
    EnumerationLength(toPut, inUseBy.Keys);
    ScanSplits(items, inUseBy.Keys, toPut);
  }

  /** Ranging over a map, in no promised order. */
  method EnumerateKeys<V>(m: map<Namespace, V>) returns (order: seq<Namespace>)
    ensures Enumerates(order, m.Keys)
  {
    order := [];
    var left := m.Keys;
    while left != {}
      invariant left <= m.Keys
      invariant Enumerates(order, m.Keys - left)
    {
      var ns :| ns in left;
      order := order + [ns];
      left := left - {ns};
    }
  }

  lemma ElementsSnoc(names: seq<Namespace>, ns: Namespace)
    ensures Elements(names + [ns]) == Elements(names) + {ns}
  {
  }

  lemma AllGo(c: map<Namespace, Copy>, c': map<Namespace, Copy>, spec: SliceSpec)
    requires Changed(c, c', c.Keys, {}, spec)
    ensures forall ns :: Going(c, c', ns)
    ensures forall ns :: ns in c' ==> c'[ns].marked
  {
    forall ns ensures Going(c, c', ns) && (ns in c' ==> c'[ns].marked) {
      assert ns !in c ==> Kept(c, c', ns);
    }
  }

  class SliceHub {
    var next: nat
    var ex: Option<SliceExport>
    var copies: map<Namespace, Copy>

    constructor ()
      ensures next == 0 && ex == None && copies == map[]
    {
      next, ex, copies := 0, None, map[];
    }

    /** Each namespace that asks has a copy with this spec, every other copy is being deleted. */
    ghost predicate Distributed(want: set<Namespace>, spec: SliceSpec)
      reads this
    {
      && (forall ns :: ns in want ==> ns in copies && copies[ns].spec == spec)
      && (forall ns :: ns in copies && ns !in want ==> copies[ns].marked)
    }

    method Delete(ns: Namespace) returns (ok: bool)
      modifies this
      ensures ex == old(ex)
      ensures forall m :: m != ns ==> (m in copies <==> m in old(copies))
      ensures forall m :: m != ns && m in copies ==> copies[m] == old(copies)[m]
      ensures ns in copies ==> ns in old(copies) && copies[ns].spec == old(copies)[ns].spec
      ensures ns in copies && !copies[ns].marked ==> !old(copies)[ns].marked
      ensures ok ==> ns in copies ==> copies[ns].marked
      ensures ok ==> forall spec :: Changed(old(copies), copies, {ns}, {}, spec)
    {
      ok := *;
      var applied: bool := *;
      if (ok || applied) && ns in copies && !copies[ns].marked {
        if copies[ns].finalizer {
          copies := copies[ns := copies[ns].(marked := true, version := next)];
          next := next + 1;
        } else {
          copies := copies - {ns};
        }
      }
    }

    /** CreateOrUpdate: nothing is written when the spec is there already. */
    method CreateOrUpdate(ns: Namespace, spec: SliceSpec) returns (ok: bool)
      requires SliceDistribution.Protected(ex)
      modifies this
      ensures ex == old(ex)
      ensures forall m :: m != ns ==> (m in copies <==> m in old(copies))
      ensures forall m :: m != ns && m in copies ==> copies[m] == old(copies)[m]
      ensures ok ==> ns in copies && copies[ns].spec == spec
      ensures ok && ns in old(copies) ==> copies[ns].marked == old(copies)[ns].marked
      ensures ns in old(copies) && old(copies)[ns].spec == spec ==> copies == old(copies) && next == old(next)
    {
      ok := *;
      var applied: bool := *;
      if ns in copies && copies[ns].spec == spec {
        return;
      }
      if ok || applied {
        if ns in copies {
          copies := copies[ns := copies[ns].(spec := spec, version := next)];
        } else {
          copies := copies[ns := Copy(next, false, false, spec)];
        }
        next := next + 1;
      }
    }

    method Prune(toWithdraw: seq<Placed>) returns (ok: bool)
      requires forall p :: p in toWithdraw ==> p.ns in copies && copies[p.ns] == p.copy
      requires Distinct(Names(toWithdraw))
      modifies this
      ensures ex == old(ex)
      ensures forall ns :: ns !in Names(toWithdraw) ==> (ns in copies <==> ns in old(copies))
      ensures forall ns :: ns in copies ==> ns in old(copies)
      ensures forall ns :: ns !in Names(toWithdraw) && ns in copies ==> copies[ns] == old(copies)[ns]
      ensures ok ==> forall ns :: ns in Names(toWithdraw) && ns in copies ==> copies[ns].marked
      ensures (forall p :: p in toWithdraw ==> p.copy.marked) ==> ok && copies == old(copies) && next == old(next)
    {
      for i := 0 to |toWithdraw|
        invariant ex == old(ex)
        invariant forall ns :: ns !in Names(toWithdraw)[..i] ==> (ns in copies <==> ns in old(copies))
        invariant forall ns :: ns in copies ==> ns in old(copies)
        invariant forall ns :: ns !in Names(toWithdraw)[..i] && ns in copies ==> copies[ns] == old(copies)[ns]
        invariant forall ns :: ns in Names(toWithdraw)[..i] && ns in copies ==> copies[ns].marked
        invariant (forall p :: p in toWithdraw ==> p.copy.marked) ==> copies == old(copies) && next == old(next)
      {
        var p := toWithdraw[i];
        assert Names(toWithdraw)[..i + 1] == Names(toWithdraw)[..i] + [p.ns];
        assert p.ns !in Names(toWithdraw)[..i];
        if p.copy.marked {
          assert copies[p.ns] == old(copies)[p.ns];
          continue;
        }
        ok := Delete(p.ns);
        if !ok {
          assert p in toWithdraw;
          assert forall ns :: ns in Names(toWithdraw)[..i + 1] ==> ns in Names(toWithdraw);
          return;
        }
      }
      assert Names(toWithdraw)[..|toWithdraw|] == Names(toWithdraw);
      ok := true;
    }

    method Put(toPut: seq<Namespace>, spec: SliceSpec) returns (ok: bool)
      requires SliceDistribution.Protected(ex) && Distinct(toPut)
      modifies this
      ensures ex == old(ex)
      ensures forall ns :: ns !in toPut ==> (ns in copies <==> ns in old(copies))
      ensures forall ns :: ns !in toPut && ns in copies ==> copies[ns] == old(copies)[ns]
      ensures ok ==> forall ns :: ns in toPut ==> ns in copies && copies[ns].spec == spec
      ensures (forall ns :: ns in toPut ==> ns in old(copies) && old(copies)[ns].spec == spec) ==>
                copies == old(copies) && next == old(next)
    {
      for i := 0 to |toPut|
        invariant ex == old(ex)
        invariant forall ns :: ns !in toPut[..i] ==> (ns in copies <==> ns in old(copies))
        invariant forall ns :: ns !in toPut[..i] && ns in copies ==> copies[ns] == old(copies)[ns]
        invariant forall ns :: ns in toPut[..i] ==> ns in copies && copies[ns].spec == spec
        invariant (forall ns :: ns in toPut ==> ns in old(copies) && old(copies)[ns].spec == spec) ==>
                    copies == old(copies) && next == old(next)
      {
        assert toPut[..i + 1] == toPut[..i] + [toPut[i]];
        assert toPut[i] !in toPut[..i];
        ok := CreateOrUpdate(toPut[i], spec);
        if !ok {
          assert forall ns :: ns in toPut[..i + 1] ==> ns in toPut;
          return;
        }
      }
      assert toPut[..|toPut|] == toPut;
      ok := true;
    }

    /** The loop that deletes copies, up to the first failure. */
    method DeleteEach(order: seq<Namespace>) returns (ok: bool)
      requires ex.Some? && Guarded(ex, copies)
      modifies this
      ensures ex == old(ex) && Guarded(ex, copies)
      ensures ok ==> Changed(old(copies), copies, Elements(order), {}, ex.value.spec)
    {
      ghost var done: seq<Namespace> := [];
      assert Elements(done) == {};
      for i := 0 to |order|
        invariant done == order[..i] && ex == old(ex) && Guarded(ex, copies)
        invariant Changed(old(copies), copies, Elements(done), {}, ex.value.spec)
      {
        ghost var before := copies;
        ok := Delete(order[i]);
        if !ok {
          return;
        }
        GoingTogether(old(copies), before, copies, ex.value.spec, Elements(done), {order[i]});
        ElementsSnoc(done, order[i]);
        done := done + [order[i]];
      }
      assert done == order;
      ok := true;
    }

    /** Withdrawing every copy, and only then taking the finalizer off the export; an export
        that is being deleted is gone with it. */
    method WithdrawAll() returns (ok: bool)
      requires ex.Some? && Guarded(ex, copies)
      modifies this
      ensures Guarded(ex, copies)
      ensures ok ==> forall ns :: Going(old(copies), copies, ns)
      ensures ok ==> forall ns :: ns in copies ==> copies[ns].marked
      ensures ok ==> Unheld(old(ex).value, ex)
      ensures ok ==> !SliceDistribution.Protected(ex) && (ex.None? <==> old(ex).value.marked)
      ensures !ok && !SliceDistribution.Protected(ex) ==> forall ns :: ns in copies ==> copies[ns].marked
    {
      var order := EnumerateKeys(copies);
      ok := DeleteEach(order);
      if !ok {
        return;
      }
      AllOf(order, old(copies).Keys);
      AllGo(old(copies), copies, ex.value.spec);
      ok := *;
      var applied: bool := *;
      if ok || applied {
        if ex.value.marked {
          ex := None;
        } else {
          ex := Some(ex.value.(finalizer := false, version := next));
          next := next + 1;
        }
      }
    }

    /** The distributing half of the reconcile, for an export that is not being deleted.

        Whatever happens, no copy is left unguarded. Without an error every namespace that asks
        ends up with a copy of the export's spec and every other copy is on its way out. And
        when that is so already, nothing is written. */
    method Distribute(inUseBy: map<Namespace, string>) returns (ok: bool)
      requires ex.Some? && !ex.value.marked && Guarded(ex, copies)
      modifies this
      ensures Guarded(ex, copies)
      ensures ex.Some? && ex.value.spec == old(ex).value.spec
      ensures ok ==> SliceDistribution.Protected(ex) && Distributed(inUseBy.Keys, ex.value.spec)
      ensures old(SliceDistribution.Protected(ex) && Distributed(inUseBy.Keys, ex.value.spec)) ==>
                ex == old(ex) && copies == old(copies) && next == old(next)
    {
      ok := *;
      var applied: bool := *;
      if !ex.value.finalizer {
        if ok || applied {
          ex := Some(ex.value.(finalizer := true, version := next));
          next := next + 1;
        }
        if !ok {
          return;
        }
      }
      var order := EnumerateKeys(copies);
      var items := Placements(order, copies);
      assert Names(items) == order;
      var toWithdraw, toPut := Scan(items, inUseBy);
      OutsideDistinct(items, inUseBy.Keys);
      ok := Prune(toWithdraw);
      if ok {
        ok := Put(toPut, ex.value.spec);
      }
    }

    /** The whole reconcile. Whatever fails, no copy is left unguarded. Without an error a
        deleted export goes once its copies do; an export whose Service nobody imports loses
        its copies and its finalizer; one whose Service is in use is distributed to those who
        ask; and when it cannot be told who asks, nothing is done. */
    method Reconcile(view: View) returns (ok: bool)
      requires Guarded(ex, copies)
      modifies this
      ensures Guarded(ex, copies)
      ensures old(ex.None? || (ex.value.marked && !ex.value.finalizer)) ==> ok && unchanged(this)
      ensures ok && old(ex.Some? && ex.value.marked && ex.value.finalizer) ==>
                ex.None? && forall ns :: Going(old(copies), copies, ns)
      ensures old(ex.Some? && !ex.value.marked) && (view.Missing? || view.Unresolved? || view.Garbled?) ==>
                ok && unchanged(this)
      ensures ok && old(ex.Some? && !ex.value.marked) && view.Unclaimed? ==>
                && ex.Some? && ex.value == old(ex).value.(version := ex.value.version, finalizer := false)
                && forall ns :: Going(old(copies), copies, ns)
      ensures ok && old(ex.Some? && !ex.value.marked) && view.InUse? ==>
                && SliceDistribution.Protected(ex) && ex.value.spec == old(ex).value.spec
                && Distributed(view.want, ex.value.spec)
    {
      ok := true;
      if ex.None? {
        return;
      }
      if ex.value.marked {
        if ex.value.finalizer {
          ok := WithdrawAll();
        }
        return;
      }
      match view
      case Unclaimed => ok := WithdrawAll();
      case InUse(want) => ok := Distribute(map ns | ns in want :: "");
      case _ =>
    }
  }

  lemma {:induction false} OutsideDistinct(items: seq<Placed>, want: set<Namespace>)
    requires Distinct(Names(items))
    ensures Distinct(Names(Outside(items, want)))
    ensures forall ns :: ns in Names(Outside(items, want)) <==> ns !in want && ns in Names(items)
  {
    if items != [] {
      var front, last := items[..|items| - 1], items[|items| - 1];
      assert Names(front) == Names(items)[..|items| - 1];
      OutsideDistinct(front, want);
      assert last.ns !in Names(front);
      assert items == front + [last];
      NamesSnoc(front, last);
      NamesSnoc(Outside(front, want), last);
      if last.ns !in want {
        DistinctSnoc(Names(Outside(front, want)), last.ns);
      }
    }
  }

  lemma DistinctSnoc(names: seq<Namespace>, ns: Namespace)
    requires Distinct(names) && ns !in names
    ensures Distinct(names + [ns])
  {
  }
}
