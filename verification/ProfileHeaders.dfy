/** Comparing two lists of custom headers without regard to order: both are sorted by name, in
    place, and then compared. The sort is the insertion sort that Go uses for short slices. */
module ProfileHeaders {
  import opened Api

  datatype Header = Header(name: string, value: Option<string>)

  // ----- the order of names -----

  /** The order of Go strings: lexicographic. */
  predicate Less(s: string, t: string) {
    if t == "" then false
    else if s == "" then true
    else s[0] < t[0] || (s[0] == t[0] && Less(s[1..], t[1..]))
  }

  lemma {:induction false} LessIsStrict(s: string, t: string)
    ensures !(Less(s, t) && Less(t, s))
    ensures !Less(s, t) && !Less(t, s) ==> s == t
  {
    if s != "" && t != "" {
      LessIsStrict(s[1..], t[1..]);
      assert s == [s[0]] + s[1..] && t == [t[0]] + t[1..];
    }
  }

  lemma {:induction false} LessIsTransitive(s: string, t: string, u: string)
    requires !Less(t, s) && !Less(u, t)
    ensures !Less(u, s)
  {
    if s != "" && t != "" && u != "" {
      if s[0] == t[0] == u[0] {
        LessIsTransitive(s[1..], t[1..], u[1..]);
      }
    }
  }

  // ----- the sort -----

  /** No later header has a smaller name. */
  ghost predicate Ordered(s: seq<Header>) {
    forall i, j :: 0 <= i < j < |s| ==> !Less(s[j].name, s[i].name)
  }

  /** Moving `h` left past the headers with a larger name. */
  function Insert(s: seq<Header>, h: Header): (r: seq<Header>)
    ensures |r| == |s| + 1
  {
    if s == [] || !Less(h.name, s[|s| - 1].name) then s + [h]
    else Insert(s[..|s| - 1], h) + [s[|s| - 1]]
  }

  function Sorted(s: seq<Header>): (r: seq<Header>)
    ensures |r| == |s|
  {
    if s == [] then [] else Insert(Sorted(s[..|s| - 1]), s[|s| - 1])
  }

  /** The headers of one name, in order. */
  function Named(s: seq<Header>, name: string): seq<Header> {
    if s == [] then []
    else Named(s[..|s| - 1], name) + if s[|s| - 1].name == name then [s[|s| - 1]] else []
  }

  lemma NamedSnoc(s: seq<Header>, h: Header, name: string)
    ensures Named(s + [h], name) == Named(s, name) + if h.name == name then [h] else []
  {
    assert (s + [h])[..|s|] == s;
  }

  /** Insertion keeps the order. */
  lemma {:induction false} InsertOrders(s: seq<Header>, h: Header)
    requires Ordered(s)
    ensures Ordered(Insert(s, h))
    ensures forall x :: x in Insert(s, h) ==> x in s || x == h
  {
    if s == [] {
    } else {
      var front, last := s[..|s| - 1], s[|s| - 1];
      assert s == front + [last];
      LessIsStrict(h.name, last.name);
      if Less(h.name, last.name) {
        InsertOrders(front, h);
        var r := Insert(front, h);
        forall i | 0 <= i < |r| ensures !Less(last.name, r[i].name) {
          assert r[i] in r;
          if r[i] in front {
            var k :| 0 <= k < |front| && front[k] == r[i];
            assert s[k] == r[i];
          }
        }
      } else {
        forall i | 0 <= i < |s| ensures !Less(h.name, s[i].name) {
          if i < |s| - 1 {
            LessIsTransitive(s[i].name, last.name, h.name);
          }
        }
      }
    }
  }

  lemma {:induction false} SortOrders(s: seq<Header>)
    ensures Ordered(Sorted(s))
  {
    if s != [] {
      SortOrders(s[..|s| - 1]);
      InsertOrders(Sorted(s[..|s| - 1]), s[|s| - 1]);
    }
  }

  /** Insertion, and so the sort, keeps the headers of each name in the order they had. */
  lemma {:induction false} InsertIsStable(s: seq<Header>, h: Header, name: string)
    ensures Named(Insert(s, h), name) == Named(s + [h], name)
  {
    if s == [] || !Less(h.name, s[|s| - 1].name) {
    } else {
      var front, last := s[..|s| - 1], s[|s| - 1];
      InsertIsStable(front, h, name);
      assert s == front + [last];
      NamedSnoc(Insert(front, h), last, name);
      NamedSnoc(front, h, name);
      NamedSnoc(front, last, name);
      NamedSnoc(s, h, name);
      LessIsStrict(h.name, last.name);
      NamedSwap(Named(front, name), h, last, name);
    }
  }

  /** Two headers of different names may change places. */
  lemma NamedSwap(s: seq<Header>, h: Header, g: Header, name: string)
    requires h.name != g.name
    ensures s + (if h.name == name then [h] else []) + (if g.name == name then [g] else []) ==
            s + (if g.name == name then [g] else []) + (if h.name == name then [h] else [])
  {
  }

  lemma {:induction false} SortIsStable(s: seq<Header>, name: string)
    ensures Named(Sorted(s), name) == Named(s, name)
  {
    if s != [] {
      var front, last := s[..|s| - 1], s[|s| - 1];
      SortIsStable(front, name);
      InsertIsStable(Sorted(front), last, name);
      NamedSnoc(Sorted(front), last, name);
    }
  }

  lemma {:induction false} SortPermutes(s: seq<Header>)
    ensures multiset(Sorted(s)) == multiset(s)
  {
    if s != [] {
      var front, last := s[..|s| - 1], s[|s| - 1];
      SortPermutes(front);
      InsertPermutes(Sorted(front), last);
      assert s == front + [last];
    }
  }

  lemma {:induction false} InsertPermutes(s: seq<Header>, h: Header)
    ensures multiset(Insert(s, h)) == multiset(s) + multiset{h}
  {
    if s == [] || !Less(h.name, s[|s| - 1].name) {
    } else {
      var front, last := s[..|s| - 1], s[|s| - 1];
      InsertPermutes(front, h);
      assert s == front + [last];
    }
  }

  // ----- what the comparison decides -----

  lemma {:induction false} NamedContains(s: seq<Header>, h: Header, name: string)
    ensures h in Named(s, name) <==> h in s && h.name == name
  {
    if s != [] {
      NamedContains(s[..|s| - 1], h, name);
      assert s == s[..|s| - 1] + [s[|s| - 1]];
    }
  }

  predicate SameNamed(x: seq<Header>, y: seq<Header>, name: string) {
    Named(x, name) == Named(y, name)
  }

  /** Name by name, the two lists have the same headers in the same order. */
  ghost predicate AgreeByName(x: seq<Header>, y: seq<Header>) {
    forall name :: SameNamed(x, y, name)
  }

  lemma FrontsAgree(x: seq<Header>, y: seq<Header>, name: string)
    requires x != [] && y != [] && x[|x| - 1] == y[|y| - 1] && SameNamed(x, y, name)
    ensures SameNamed(x[..|x| - 1], y[..|y| - 1], name)
  {
    var fx, fy, h := Named(x[..|x| - 1], name), Named(y[..|y| - 1], name), x[|x| - 1];
    if h.name == name {
      assert fx == Named(x, name)[..|fx|] && fy == Named(y, name)[..|fy|];
    } else {
      assert fx == Named(x, name) && fy == Named(y, name);
    }
  }

  /** Headers that are ordered by name are determined by the headers of each name. */
  lemma {:induction false} OrderedDetermined(x: seq<Header>, y: seq<Header>)
    requires Ordered(x) && Ordered(y) && AgreeByName(x, y)
    ensures x == y
    decreases |x| + |y|
  {
    if x == [] || y == [] {
      var z := x + y;
      if z != [] {
        assert SameNamed(x, y, z[0].name);
        NamedContains(x, z[0], z[0].name);
        NamedContains(y, z[0], z[0].name);
      }
    } else {
      SameLast(x, y);
      var front, front' := x[..|x| - 1], y[..|y| - 1];
      forall name ensures SameNamed(front, front', name) {
        assert SameNamed(x, y, name);
        FrontsAgree(x, y, name);
      }
      OrderedDetermined(front, front');
      assert x == x[..|x| - 1] + [x[|x| - 1]] && y == y[..|y| - 1] + [y[|y| - 1]];
    }
  }

  /** The last headers of two ordered lists that agree name by name are the same. */
  lemma SameLast(x: seq<Header>, y: seq<Header>)
    requires Ordered(x) && Ordered(y) && x != [] && y != [] && AgreeByName(x, y)
    ensures x[|x| - 1] == y[|y| - 1]
  {
    var hx, hy := x[|x| - 1], y[|y| - 1];
    assert SameNamed(x, y, hx.name) && SameNamed(x, y, hy.name);
    NamedContains(x, hx, hx.name);
    NamedContains(y, hx, hx.name);
    NamedContains(y, hy, hy.name);
    NamedContains(x, hy, hy.name);
    LastIsLargest(y, hx);
    LastIsLargest(x, hy);
    LessIsStrict(hx.name, hy.name);
    assert Named(x, hx.name)[|Named(x, hx.name)| - 1] == hx;
    assert Named(y, hx.name)[|Named(y, hx.name)| - 1] == hy;
  }

  lemma LastIsLargest(s: seq<Header>, h: Header)
    requires Ordered(s) && h in s
    ensures !Less(s[|s| - 1].name, h.name)
  {
    var i :| 0 <= i < |s| && s[i] == h;
    LessIsStrict(h.name, h.name);
  }

  lemma SortKeepsAgreement(a: seq<Header>, b: seq<Header>, name: string)
    ensures SameNamed(Sorted(a), Sorted(b), name) <==> SameNamed(a, b, name)
  {
    SortIsStable(a, name);
    SortIsStable(b, name);
  }

  /** The comparison, exactly: it holds if and only if, name by name, the two lists have the same
      headers in the same order. */
  lemma SameSortedIff(a: seq<Header>, b: seq<Header>)
    ensures Sorted(a) == Sorted(b) <==> AgreeByName(a, b)
  {
    forall name ensures SameNamed(Sorted(a), Sorted(b), name) <==> SameNamed(a, b, name) {
      SortKeepsAgreement(a, b, name);
    }
    if AgreeByName(a, b) {
      SortOrders(a);
      SortOrders(b);
      OrderedDetermined(Sorted(a), Sorted(b));
    } else {
      var name :| !SameNamed(a, b, name);
      assert !SameNamed(Sorted(a), Sorted(b), name);
    }
  }

  /** Sorting what is sorted changes nothing. */
  lemma SortedTwice(s: seq<Header>)
    ensures Sorted(Sorted(s)) == Sorted(s)
  {
    forall name ensures SameNamed(Sorted(s), s, name) {
      SortIsStable(s, name);
    }
    SameSortedIff(Sorted(s), s);
  }

  /** No two headers share a name. */
  ghost predicate DistinctNames(s: seq<Header>) {
    forall i, j :: 0 <= i < j < |s| ==> s[i].name != s[j].name
  }

  lemma {:induction false} PermutedNamed(a: seq<Header>, name: string)
    ensures forall h :: multiset(Named(a, name))[h] == if h.name == name then multiset(a)[h] else 0
  {
    if a != [] {
      PermutedNamed(a[..|a| - 1], name);
      assert a == a[..|a| - 1] + [a[|a| - 1]];
    }
  }

  lemma {:induction false} AtMostOneNamed(s: seq<Header>, name: string)
    requires DistinctNames(s)
    ensures |Named(s, name)| <= 1
    ensures Named(s, name) != [] ==> exists i :: 0 <= i < |s| && s[i].name == name
  {
    if s != [] {
      var front, last := s[..|s| - 1], s[|s| - 1];
      AtMostOneNamed(front, name);
      if Named(front, name) != [] {
        var i :| 0 <= i < |front| && front[i].name == name;
        assert s[i].name == name;
      } else if last.name == name {
        assert s[|s| - 1].name == name;
      }
    }
  }

  lemma SameSingletons(x: seq<Header>, y: seq<Header>)
    requires |y| <= 1 && multiset(x) == multiset(y)
    ensures x == y
  {
    assert |x| == |multiset(x)| == |y|;
    if |y| == 1 {
      assert x == [x[0]] && y == [y[0]];
      assert x[0] in multiset(x);
    }
  }

  lemma PermutedAgree(a: seq<Header>, b: seq<Header>, name: string)
    requires DistinctNames(b) && multiset(a) == multiset(b)
    ensures SameNamed(a, b, name)
  {
    PermutedNamed(a, name);
    PermutedNamed(b, name);
    AtMostOneNamed(b, name);
    SameSingletons(Named(a, name), Named(b, name));
  }

  /** With distinct names among the wanted headers, the comparison holds if and only if the lists
      are permutations of each other. */
  lemma SameSortedIffPermuted(a: seq<Header>, b: seq<Header>)
    requires DistinctNames(b)
    ensures Sorted(a) == Sorted(b) <==> multiset(a) == multiset(b)
  {
    if Sorted(a) == Sorted(b) {
      SortPermutes(a);
      SortPermutes(b);
    }
    if multiset(a) == multiset(b) {
      forall name ensures SameNamed(a, b, name) {
        PermutedAgree(a, b, name);
      }
      SameSortedIff(a, b);
    }
  }

  // ----- in place -----

  /** Moving `a[i]` left into the sorted part before it. */
  method InsertInPlace(a: array<Header>, i: nat)
    requires i < a.Length
    modifies a
    ensures a[..i + 1] == Insert(old(a[..i]), old(a[i]))
    ensures a[i + 1..] == old(a[i + 1..])
  {
    ghost var before, h := a[..i], a[i];
    var j := i;
    assert a[..j] == before && a[j + 1..i + 1] == [];
    while j > 0 && Less(a[j].name, a[j - 1].name)
      invariant 0 <= j <= i && a[j] == h
      invariant a[..j] == before[..j]
      invariant Insert(before, h) == Insert(before[..j], h) + a[j + 1..i + 1]
      invariant a[i + 1..] == old(a[i + 1..])
    {
      assert before[..j][..j - 1] == before[..j - 1] && before[..j][j - 1] == a[j - 1];
      a[j - 1], a[j] := a[j], a[j - 1];
      assert a[j..i + 1] == [a[j]] + a[j + 1..i + 1];
      j := j - 1;
    }
    assert Insert(before[..j], h) == before[..j] + [h];
    assert a[..i + 1] == a[..j] + [a[j]] + a[j + 1..i + 1];
  }

  method SortInPlace(a: array<Header>)
    modifies a
    ensures a[..] == Sorted(old(a[..]))
  {
    ghost var s := a[..];
    for i := 0 to a.Length
      invariant a[..i] == Sorted(s[..i])
      invariant a[i..] == s[i..]
    {
      assert a[i] == s[i] by {
        assert a[i..][0] == s[i..][0];
      }
      assert s[..i + 1][..i] == s[..i];
      ghost var rest := a[i + 1..];
      assert rest == a[i..][1..] == s[i + 1..];
      InsertInPlace(a, i);
    }
    assert a[..] == a[..a.Length] && s == s[..a.Length];
  }

  /** The comparison as it is made. Both slices are left sorted. */
  method HeadersEqual(current: array<Header>, desired: array<Header>) returns (equal: bool)
    requires current != desired
    modifies current, desired
    ensures current[..] == Sorted(old(current[..])) && desired[..] == Sorted(old(desired[..]))
    ensures equal <==> AgreeByName(old(current[..]), old(desired[..]))
    ensures DistinctNames(old(desired[..])) ==>
              (equal <==> multiset(old(current[..])) == multiset(old(desired[..])))
  {
    ghost var a, b := current[..], desired[..];
    SortInPlace(current);
    SortInPlace(desired);
    equal := current[..] == desired[..];
    SameSortedIff(a, b);
    if DistinctNames(b) {
      SameSortedIffPermuted(a, b);
    }
  }
}
