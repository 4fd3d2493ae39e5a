/** What an undisturbed reconcile of an EndpointSliceExport does, for each thing the ServiceImport
    may tell. */
module SliceEffects {
  import opened Api
  import opened SliceDistribution

  // ----- what happens to a copy -----

  /** A copy that was there goes: at once, or as soon as its member cluster lets go of it. */
  ghost predicate Going(c: map<Namespace, Copy>, c': map<Namespace, Copy>, ns: Namespace) {
    && (ns in c' <==> ns in c && (c[ns].marked || c[ns].finalizer))
    && (ns in c' && ns in c ==>
          c'[ns].marked && c'[ns].spec == c[ns].spec && (c[ns].marked ==> c'[ns] == c[ns]))
  }

  ghost predicate Kept(c: map<Namespace, Copy>, c': map<Namespace, Copy>, ns: Namespace) {
    && (ns in c' <==> ns in c)
    && (ns in c' && ns in c ==> c'[ns] == c[ns])
  }

  /** There is a copy with this spec: the one that was there, or a new one. */
  ghost predicate Served(c: map<Namespace, Copy>, c': map<Namespace, Copy>, ns: Namespace, spec: SliceSpec) {
    && ns in c' && c'[ns].spec == spec
    && (ns in c ==> c'[ns].marked == c[ns].marked && c'[ns].finalizer == c[ns].finalizer)
    && (ns in c && c[ns].spec == spec ==> c'[ns] == c[ns])
    && (ns !in c ==> !c'[ns].marked && !c'[ns].finalizer)
  }

  /** The copies in `gone` go, those in `put` carry the spec, the others stay as they are. */
  ghost predicate Changed(c: map<Namespace, Copy>, c': map<Namespace, Copy>, gone: set<Namespace>,
                          put: set<Namespace>, spec: SliceSpec)
  {
    && (forall ns :: ns in gone ==> Going(c, c', ns))
    && (forall ns :: ns in put ==> Served(c, c', ns, spec))
    && (forall ns :: ns !in gone && ns !in put ==> Kept(c, c', ns))
  }

  lemma OneGoes(s: State, ns: Namespace, spec: SliceSpec)
    ensures Changed(s.copies, DeleteCopy(s, ns).copies, {ns}, {}, spec)
  {
  }

  lemma GoingTogether(a: map<Namespace, Copy>, b: map<Namespace, Copy>, c: map<Namespace, Copy>, spec: SliceSpec,
                      g: set<Namespace>, h: set<Namespace>)
    requires Changed(a, b, g, {}, spec) && Changed(b, c, h, {}, spec)
    ensures Changed(a, c, g + h, {}, spec)
  {
    forall ns | ns in g + h ensures Going(a, c, ns) {
      assert Going(a, b, ns) || Kept(a, b, ns);
      assert Going(b, c, ns) || Kept(b, c, ns);
    }
    forall ns | ns !in g + h ensures Kept(a, c, ns) {
      assert Kept(a, b, ns) && Kept(b, c, ns);
    }
  }

  lemma ServedTogether(a: map<Namespace, Copy>, b: map<Namespace, Copy>, c: map<Namespace, Copy>, spec: SliceSpec,
                       p: set<Namespace>, q: set<Namespace>)
    requires Changed(a, b, {}, p, spec) && Changed(b, c, {}, q, spec)
    ensures Changed(a, c, {}, p + q, spec)
  {
    forall ns | ns in p + q ensures Served(a, c, ns, spec) {
      assert Served(a, b, ns, spec) || Kept(a, b, ns);
      assert Served(b, c, ns, spec) || Kept(b, c, ns);
    }
    forall ns | ns !in p + q ensures Kept(a, c, ns) {
      assert Kept(a, b, ns) && Kept(b, c, ns);
    }
  }

  lemma GoneThenServed(a: map<Namespace, Copy>, b: map<Namespace, Copy>, c: map<Namespace, Copy>, spec: SliceSpec,
                       g: set<Namespace>, p: set<Namespace>)
    requires Changed(a, b, g, {}, spec) && Changed(b, c, {}, p, spec) && g !! p
    ensures Changed(a, c, g, p, spec)
  {
    forall ns | ns in g ensures Going(a, c, ns) {
      assert Going(a, b, ns) && Kept(b, c, ns);
    }
    forall ns | ns in p ensures Served(a, c, ns, spec) {
      assert Kept(a, b, ns) && Served(b, c, ns, spec);
    }
    forall ns | ns !in g && ns !in p ensures Kept(a, c, ns) {
      assert Kept(a, b, ns) && Kept(b, c, ns);
    }
  }

  function Elements(names: seq<Namespace>): set<Namespace> {
    set ns | ns in names
  }

  lemma ElementsCons(names: seq<Namespace>)
    requires names != []
    ensures Elements(names) == {names[0]} + Elements(names[1..])
  {
    assert names == [names[0]] + names[1..];
  }

  // ----- the loops -----

  /** The next `n` calls of the controller, all of which succeed. */
  function Drive(s: State, n: nat): State
    decreases n
  {
    if n == 0 then s else Drive(Next(s, Step(Done)), n - 1)
  }

  lemma {:induction false} IdleStays(s: State, n: nat)
    requires s.worker == Idle
    ensures Drive(s, n) == s
    decreases n
  {
    if n > 0 {
      IdleStays(s, n - 1);
    }
  }

  /** The export lets go: it is gone if it was to go, and unprotected if not. */
  ghost predicate Unheld(x: SliceExport, ex: Option<SliceExport>) {
    if x.marked then ex.None?
    else ex.Some? && ex.value == x.(version := ex.value.version, finalizer := false)
  }

  lemma {:induction false} WithdrawalEnds(s: State, x: SliceExport, todo: seq<Namespace>, n: nat)
    requires s.worker == WithdrawingAll(x, todo) && s.ex == Some(x) && n >= |todo| + 2
    ensures var t := Drive(s, n);
            t.worker == Idle && Unheld(x, t.ex) && Changed(s.copies, t.copies, Elements(todo), {}, x.spec)
    decreases n
  {
    var u := Next(s, Step(Done));
    if todo == [] {
      var v := Next(u, Step(Done));
      assert Drive(s, n) == Drive(u, n - 1) == Drive(v, n - 2);
      IdleStays(v, n - 2);
      assert Elements(todo) == {};
    } else {
      WithdrawalEnds(u, x, todo[1..], n - 1);
      OneGoes(s, todo[0], x.spec);
      ElementsCons(todo);
      GoingTogether(s.copies, u.copies, Drive(u, n - 1).copies, x.spec, {todo[0]}, Elements(todo[1..]));
    }
  }

  /** The first loop, up to the start of the second. */
  lemma {:induction false} PruningEnds(s: State, x: SliceExport, prune: seq<Namespace>, put: seq<Namespace>, n: nat)
    returns (u: State)
    requires s.worker == Pruning(x, prune, put) && n > |prune|
    ensures Drive(s, n) == Drive(u, n - |prune| - 1)
    ensures u.worker == Getting(x, put) && u.ex == s.ex
    ensures Changed(s.copies, u.copies, Elements(prune), {}, x.spec)
    decreases n
  {
    var v := Next(s, Step(Done));
    if prune == [] {
      u := v;
      assert Elements(prune) == {};
    } else {
      u := PruningEnds(v, x, prune[1..], put, n - 1);
      OneGoes(s, prune[0], x.spec);
      ElementsCons(prune);
      GoingTogether(s.copies, v.copies, u.copies, x.spec, {prune[0]}, Elements(prune[1..]));
    }
  }

  /** One turn of the second loop. */
  lemma PutTurn(s: State, x: SliceExport, put: seq<Namespace>) returns (v: State)
    requires s.worker == Getting(x, put) && put != []
    ensures v == Next(Next(s, Step(Done)), Step(Done))
    ensures v.worker == Getting(x, put[1..]) && v.ex == s.ex
    ensures Changed(s.copies, v.copies, {}, {put[0]}, x.spec)
  {
    var u := Next(s, Step(Done));
    assert u.copies == s.copies;
    v := Next(u, Step(Done));
  }

  lemma PutNothing(s: State, x: SliceExport, n: nat)
    requires s.worker == Getting(x, []) && n > 0
    ensures var t := Drive(s, n);
            t.worker == Idle && t.ex == s.ex && Changed(s.copies, t.copies, {}, Elements([]), x.spec)
  {
    IdleStays(Next(s, Step(Done)), n - 1);
    assert Elements([]) == {};
  }

  lemma {:induction false} PuttingEnds(s: State, x: SliceExport, put: seq<Namespace>, n: nat)
    requires s.worker == Getting(x, put) && n >= 2 * |put| + 1
    ensures var t := Drive(s, n);
            t.worker == Idle && t.ex == s.ex && Changed(s.copies, t.copies, {}, Elements(put), x.spec)
    decreases n
  {
    if put == [] {
      PutNothing(s, x, n);
    } else {
      var u := Next(s, Step(Done));
      var v := PutTurn(s, x, put);
      assert Drive(s, n) == Drive(u, n - 1) == Drive(v, n - 2);
      PuttingEnds(v, x, put[1..], n - 2);
      ElementsCons(put);
      ServedTogether(s.copies, v.copies, Drive(v, n - 2).copies, x.spec, {put[0]}, Elements(put[1..]));
    }
  }

  /** The two loops together. */
  lemma LoopsEnd(s: State, x: SliceExport, prune: seq<Namespace>, put: seq<Namespace>, n: nat)
    requires s.worker == Pruning(x, prune, put) && n >= |prune| + 2 * |put| + 2
    requires Elements(prune) !! Elements(put)
    ensures var t := Drive(s, n);
            && t.worker == Idle && t.ex == s.ex
            && Changed(s.copies, t.copies, Elements(prune), Elements(put), x.spec)
  {
    var u := PruningEnds(s, x, prune, put, n);
    PuttingEnds(u, x, put, n - |prune| - 1);
    GoneThenServed(s.copies, u.copies, Drive(s, n).copies, x.spec, Elements(prune), Elements(put));
  }

  // ----- the rounds -----

  /** An undisturbed reconcile: the export is read, the ServiceImport fetched, the finalizer put
      on if it is missing, the copies listed, and everything that follows carried out. Once it
      is over, the steps that are left do nothing. */
  function Round(s: State, view: View, order: seq<Namespace>, rest: seq<Namespace>, n: nat): State {
    var s1 := Next(s, Read);
    var s2 := Next(s1, Fetch(view));
    var s3 := Next(s2, Step(Done));
    Drive(Next(s3, List(order, rest)), n)
  }

  /** The calls of a round are at most so many. */
  function Enough(order: seq<Namespace>, rest: seq<Namespace>): nat {
    3 * |order| + 2 * |rest| + 2
  }

  ghost predicate Quiet(s: State, order: seq<Namespace>) {
    s.worker == Idle && Enumerates(order, s.copies.Keys)
  }

  ghost predicate Untouched(s: State, t: State) {
    t.ex == s.ex && t.copies == s.copies && t.worker == Idle
  }

  lemma AllOf(order: seq<Namespace>, names: set<Namespace>)
    requires Enumerates(order, names)
    ensures Elements(order) == names
  {
  }

  lemma ListedThenWithdrawn(s: State, x: SliceExport, order: seq<Namespace>, rest: seq<Namespace>, n: nat)
    requires s.worker == ListingAll(x) && s.ex == Some(x) && Enumerates(order, s.copies.Keys) && n >= |order| + 2
    ensures var t := Drive(Next(s, List(order, rest)), n);
            t.worker == Idle && Unheld(x, t.ex) && forall ns :: Going(s.copies, t.copies, ns)
  {
    AllOf(order, s.copies.Keys);
    WithdrawalEnds(Next(s, List(order, rest)), x, order, n);
    var t := Drive(Next(s, List(order, rest)), n);
    forall ns ensures Going(s.copies, t.copies, ns) {
      assert ns !in s.copies ==> Kept(s.copies, t.copies, ns);
    }
  }

  /** A deleted export that was ever distributed takes all its copies along, whatever the
      ServiceImport tells; one that was not is left alone. */
  lemma DeletedRound(s: State, view: View, order: seq<Namespace>, rest: seq<Namespace>, n: nat)
    requires Quiet(s, order) && n >= Enough(order, rest)
    requires s.ex.Some? && s.ex.value.marked
    ensures var t := Round(s, view, order, rest, n);
            if s.ex.value.finalizer then
              t.worker == Idle && t.ex.None? && forall ns :: Going(s.copies, t.copies, ns)
            else Untouched(s, t)
  {
    var x := s.ex.value;
    if x.finalizer {
      var s3 := s.(worker := ListingAll(x));
      assert Round(s, view, order, rest, n) == Drive(Next(s3, List(order, rest)), n);
      ListedThenWithdrawn(s3, x, order, rest, n);
    } else {
      IdleStays(s, n);
    }
  }

  /** When no cluster imports the Service any more, every copy goes and the export is let go. */
  lemma UnclaimedRound(s: State, order: seq<Namespace>, rest: seq<Namespace>, n: nat)
    requires Quiet(s, order) && n >= Enough(order, rest)
    requires s.ex.Some? && !s.ex.value.marked
    ensures var t := Round(s, Unclaimed, order, rest, n);
            && t.worker == Idle && (forall ns :: Going(s.copies, t.copies, ns))
            && t.ex.Some? && t.ex.value == s.ex.value.(version := t.ex.value.version, finalizer := false)
  {
    var x := s.ex.value;
    var s3 := s.(worker := ListingAll(x));
    assert Round(s, Unclaimed, order, rest, n) == Drive(Next(s3, List(order, rest)), n);
    ListedThenWithdrawn(s3, x, order, rest, n);
  }

  /** Without a resolved ServiceImport, or with an annotation that does not parse, nothing is
      done. */
  lemma UndecidedRound(s: State, view: View, order: seq<Namespace>, rest: seq<Namespace>, n: nat)
    requires Quiet(s, order) && n >= Enough(order, rest)
    requires s.ex.None? || (!s.ex.value.marked && (view.Missing? || view.Unresolved? || view.Garbled?))
    ensures Untouched(s, Round(s, view, order, rest, n))
  {
    IdleStays(s, n);
  }

  lemma PlacedIn(order: seq<Namespace>, copies: map<Namespace, Copy>, ns: Namespace)
    requires Enumerates(order, copies.Keys)
    ensures ns in copies ==> Placed(ns, copies[ns]) in Placements(order, copies)
    ensures forall p :: p in Placements(order, copies) ==> p.ns in copies && p.copy == copies[p.ns]
  {
    if ns in copies {
      var i :| 0 <= i < |order| && order[i] == ns;
      assert Placements(order, copies)[i] == Placed(ns, copies[ns]);
    }
  }

  /** What the scan finds to delete and to write. */
  lemma ScanFinds(copies: map<Namespace, Copy>, want: set<Namespace>, order: seq<Namespace>, rest: seq<Namespace>)
    returns (prune: seq<Namespace>, put: seq<Namespace>)
    requires Enumerates(order, copies.Keys) && Enumerates(rest, want - copies.Keys)
    ensures var items := Placements(order, copies);
            prune == Unmarked(Outside(items, want)) && put == Names(Inside(items, want)) + rest
    ensures Elements(prune) == set ns | ns in copies && ns !in want && !copies[ns].marked
    ensures Elements(put) == want
  {
    var items := Placements(order, copies);
    prune, put := Unmarked(Outside(items, want)), Names(Inside(items, want)) + rest;
    forall ns ensures ns in prune <==> ns in copies && ns !in want && !copies[ns].marked {
      PlacedIn(order, copies, ns);
    }
    forall ns ensures ns in put <==> ns in want {
      PlacedIn(order, copies, ns);
      NameIn(Inside(items, want), ns);
    }
  }

  lemma NameIn(items: seq<Placed>, ns: Namespace)
    ensures ns in Names(items) <==> exists p :: p in items && p.ns == ns
  {
    if ns in Names(items) {
      var i :| 0 <= i < |items| && Names(items)[i] == ns;
      assert items[i] in items && items[i].ns == ns;
    }
    if p :| p in items && p.ns == ns {
      var i :| 0 <= i < |items| && items[i] == p;
      assert Names(items)[i] == ns;
    }
  }

  lemma {:induction false} NoLongerThan(items: seq<Placed>, want: set<Namespace>)
    ensures |Unmarked(Outside(items, want))| <= |Outside(items, want)|
    ensures |Inside(items, want)| + |Outside(items, want)| == |items|
  {
    if items != [] {
      NoLongerThan(items[..|items| - 1], want);
    }
    UnmarkedIsShorter(Outside(items, want));
  }

  lemma {:induction false} UnmarkedIsShorter(items: seq<Placed>)
    ensures |Unmarked(items)| <= |items|
  {
    if items != [] {
      UnmarkedIsShorter(items[..|items| - 1]);
    }
  }

  /** Every wanted namespace is served, and every other copy goes. */
  ghost predicate Delivered(s: State, t: State, want: set<Namespace>, spec: SliceSpec) {
    && (forall ns :: ns in want ==> Served(s.copies, t.copies, ns, spec))
    && (forall ns :: ns !in want ==> Going(s.copies, t.copies, ns))
  }

  lemma ScannedThenDelivered(s: State, x: SliceExport, want: set<Namespace>, order: seq<Namespace>,
                             rest: seq<Namespace>, n: nat)
    requires s.worker == Scanning(x, want) && n >= Enough(order, rest)
    requires Enumerates(order, s.copies.Keys) && Enumerates(rest, want - s.copies.Keys)
    ensures var t := Drive(Next(s, List(order, rest)), n);
            t.worker == Idle && t.ex == s.ex && Delivered(s, t, want, x.spec)
  {
    var prune, put := ScanFinds(s.copies, want, order, rest);
    NoLongerThan(Placements(order, s.copies), want);
    var s4 := s.(worker := Pruning(x, prune, put));
    assert Next(s, List(order, rest)) == s4;
    LoopsEnd(s4, x, prune, put, n);
    var t := Drive(s4, n);
    forall ns | ns !in want ensures Going(s.copies, t.copies, ns) {
      assert ns !in Elements(prune) ==> Kept(s.copies, t.copies, ns);
    }
  }

  /** When the Service is in use, the export is protected, every namespace that asks has a copy
      of its spec, and every other copy goes. */
  lemma InUseRound(s: State, want: set<Namespace>, order: seq<Namespace>, rest: seq<Namespace>, n: nat)
    requires Quiet(s, order) && n >= Enough(order, rest) && Enumerates(rest, want - s.copies.Keys)
    requires s.ex.Some? && !s.ex.value.marked
    ensures var t := Round(s, InUse(want), order, rest, n);
            && t.worker == Idle && Delivered(s, t, want, s.ex.value.spec)
            && t.ex.Some? && t.ex.value == s.ex.value.(version := t.ex.value.version, finalizer := true)
            && (s.ex.value.finalizer ==> t.ex == s.ex)
  {
    var x := s.ex.value;
    if x.finalizer {
      var s3 := s.(worker := Scanning(x, want));
      assert Round(s, InUse(want), order, rest, n) == Drive(Next(s3, List(order, rest)), n);
      ScannedThenDelivered(s3, x, want, order, rest, n);
    } else {
      var u := PutExport(s, x.(finalizer := true));
      var s3 := u.(worker := Scanning(u.ex.value, want));
      assert Next(Next(Next(s, Read), Fetch(InUse(want))), Step(Done)) == s3;
      assert Round(s, InUse(want), order, rest, n) == Drive(Next(s3, List(order, rest)), n);
      ScannedThenDelivered(s3, u.ex.value, want, order, rest, n);
    }
  }
}
