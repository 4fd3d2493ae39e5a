/** How a backend's weight is divided among the exported services behind it: each endpoint gets
    the ceiling of its share. The division is done in float64. */
module Weights {

  /** Exact ceiling division. */
  function CeilDiv(a: int, b: int): (q: int)
    requires b > 0
    ensures (q - 1) * b < a <= q * b
  {
    EuclidBounds(a + b - 1, b);
    (a + b - 1) / b
  }

  lemma EuclidBounds(n: int, b: int)
    requires b > 0
    ensures (n / b) * b <= n < (n / b) * b + b
  {
    assert n == (n / b) * b + n % b;
  }

  /** The share of one export weight `w` out of `total`, for a backend of weight `backend`. */
  function Share(backend: int, w: int, total: int): int
    requires total > 0
  {
    CeilDiv(backend * w, total)
  }

  function Sum(ws: seq<int>): int {
    if ws == [] then 0 else ws[0] + Sum(ws[1..])
  }

  lemma {:induction false} SumSnoc(ws: seq<int>, w: int)
    ensures Sum(ws + [w]) == Sum(ws) + w
  {
    if ws == [] {
      assert [w][1..] == [];
    } else {
      SumSnoc(ws[1..], w);
      assert (ws + [w])[1..] == ws[1..] + [w];
    }
  }

  function Shares(backend: int, ws: seq<int>, total: int): seq<int>
    requires total > 0
  {
    if ws == [] then [] else [Share(backend, ws[0], total)] + Shares(backend, ws[1..], total)
  }

  /** A ceiling is determined by its two bounds. */
  lemma CeilDivUnique(a: int, b: int, q: int)
    requires b > 0 && (q - 1) * b < a <= q * b
    ensures CeilDiv(a, b) == q
  {
    var r := CeilDiv(a, b);
    if r < q {
      MulMono(r, q - 1, b);
    } else if q < r {
      MulMono(q, r - 1, b);
    }
  }

  lemma MulMono(x: int, y: int, b: int)
    requires x <= y && b >= 0
    ensures x * b <= y * b
  {
  }

  lemma CeilDivMono(a: int, a': int, b: int)
    requires b > 0 && a <= a'
    ensures CeilDiv(a, b) <= CeilDiv(a', b)
  {
    var q, q' := CeilDiv(a, b), CeilDiv(a', b);
    if q' < q {
      MulMono(q', q - 1, b);
    }
  }

  /** A positive export weight gets at least 1 and at most the whole backend weight, and a
      larger weight never gets less. */
  lemma ShareBounds(backend: int, w: int, w': int, total: int)
    requires backend >= 1 && 1 <= w <= w' <= total
    ensures 1 <= Share(backend, w, total) <= Share(backend, w', total) <= backend
  {
    MulMono(w, w', backend);
    MulMono(w', total, backend);
    assert backend * w >= 1 by { MulMono(1, w, backend); }
    CeilDivMono(1, backend * w, total);
    CeilDivMono(backend * w, backend * w', total);
    CeilDivMono(backend * w', backend * total, total);
    assert (backend - 1) * total == backend * total - total;
    CeilDivUnique(backend * total, total, backend);
    CeilDivUnique(1, total, 1);
  }

  lemma Distribute(x: int, y: int, z: int)
    ensures (x + y) * z == x * z + y * z
    ensures z * (x + y) == z * x + z * y
  {
  }

  /** The shares add up to no less than the backend weight's proportion of `ws`, and exceed it
      by less than one per endpoint. */
  lemma {:induction false} SharesSum(backend: int, ws: seq<int>, total: int)
    requires total > 0
    ensures backend * Sum(ws) <= Sum(Shares(backend, ws, total)) * total
    ensures Sum(Shares(backend, ws, total)) * total <= backend * Sum(ws) + |ws| * (total - 1)
  {
    if ws != [] {
      var rest := Shares(backend, ws[1..], total);
      var q := Share(backend, ws[0], total);
      assert Shares(backend, ws, total)[1..] == rest;
      SharesSum(backend, ws[1..], total);
      SharesStep(backend, ws[0], Sum(ws[1..]), q, Sum(rest), total, |ws| - 1);
    }
  }

  lemma SharesStep(backend: int, w: int, ws: int, q: int, qs: int, total: int, n: int)
    requires (q - 1) * total < backend * w <= q * total
    requires backend * ws <= qs * total <= backend * ws + n * (total - 1)
    ensures backend * (w + ws) <= (q + qs) * total <= backend * (w + ws) + (n + 1) * (total - 1)
  {
    Distribute(w, ws, backend);
    Distribute(q, qs, total);
    Distribute(q, -1, total);
    Distribute(n, 1, total - 1);
  }

  lemma {:induction false} SumBounded(ws: seq<int>, limit: int)
    requires forall w :: w in ws ==> w <= limit
    ensures Sum(ws) <= |ws| * limit
  {
    if ws != [] {
      assert ws[0] in ws;
      assert forall w :: w in ws[1..] ==> w in ws;
      SumBounded(ws[1..], limit);
      Distribute(|ws| - 1, 1, limit);
    }
  }

  lemma {:induction false} SumPositive(ws: seq<int>)
    requires forall w :: w in ws ==> w >= 1
    ensures Sum(ws) >= |ws|
    ensures forall w :: w in ws ==> w <= Sum(ws)
  {
    if ws != [] {
      assert ws[0] in ws;
      assert forall w :: w in ws[1..] ==> w in ws;
      SumPositive(ws[1..]);
      assert forall w :: w in ws ==> w == ws[0] || w in ws[1..];
    }
  }

  /** The allocation as a whole: nothing of the backend weight is lost, and rounding up adds
      less than one per endpoint. */
  lemma AllocationTotal(backend: int, ws: seq<int>)
    requires backend >= 1 && ws != [] && forall w :: w in ws ==> w >= 1
    ensures Sum(ws) > 0
    ensures backend <= Sum(Shares(backend, ws, Sum(ws))) <= backend + |ws| - 1
  {
    SumPositive(ws);
    SharesSum(backend, ws, Sum(ws));
    TotalBounds(backend, Sum(ws), Sum(Shares(backend, ws, Sum(ws))), |ws|);
  }

  lemma TotalBounds(backend: int, total: int, s: int, n: int)
    requires total > 0 && n > 0
    requires backend * total <= s * total <= backend * total + n * (total - 1)
    ensures backend <= s <= backend + n - 1
  {
    if s < backend {
      MulMono(s + 1, backend, total);
      Distribute(s, 1, total);
    }
    if s >= backend + n {
      MulMono(backend + n, s, total);
      Distribute(backend, n, total);
      Distribute(total, -1, n);
    }
  }

  // ----- float64 -----

  /** The largest power of two up to which float64 represents every integer. */
  const TwoTo53 := 0x20_0000_0000_0000

  /** Powers of two. */
  function Pow2(n: nat): (r: int)
    ensures r >= 1
  {
    if n == 0 then 1 else 2 * Pow2(n - 1)
  }

  lemma {:induction false} Pow2Grows(m: nat, n: nat)
    requires m <= n
    ensures Pow2(m) <= Pow2(n)
    decreases n
  {
    if m < n {
      Pow2Grows(m, n - 1);
    }
  }

  lemma Pow2Of53()
    ensures Pow2(53) == TwoTo53
  {
    assert Pow2(10) == 1024;
    assert Pow2(20) == 1024 * 1024 by { Pow2Adds(10, 10); }
    assert Pow2(40) == Pow2(20) * Pow2(20) by { Pow2Adds(20, 20); }
    assert Pow2(13) == 8192;
    Pow2Adds(40, 13);
  }

  lemma {:induction false} Pow2Adds(m: nat, n: nat)
    ensures Pow2(m + n) == Pow2(m) * Pow2(n)
  {
    if n > 0 {
      Pow2Adds(m, n - 1);
      assert Pow2(m + n) == 2 * (Pow2(m) * Pow2(n - 1));
    }
  }

  /** `x` lies where binary64 numbers are normal: at least 2^-1022 and not beyond 2^1023. */
  ghost predicate Normal(x: real) {
    x * Pow2(1022) as real >= 1.0 && x <= Pow2(1023) as real
  }

  /** What section 4.3.1 of IEEE 754 gives for rounding a quotient in binary64: order is kept,
      representable integers stay, and in the normal range the relative error is at most 2^-53. */
  ghost predicate CorrectlyRounded(fl: real -> real) {
    && (forall x: real, y: real :: x <= y ==> fl(x) <= fl(y))
    && (forall n: int :: -TwoTo53 <= n <= TwoTo53 ==> AtInteger(fl, n) == n as real)
    && (forall x: real :: Normal(x) ==> -x <= Moved(fl, x) * TwoTo53 as real <= x)
  }

  ghost function AtInteger(fl: real -> real, n: int): real {
    fl(n as real)
  }

  /** By how much rounding moves `x`. */
  ghost function Moved(fl: real -> real, x: real): real {
    fl(x) - x
  }

  /** The weight of an endpoint as the controller computes it. */
  function FloatShare(fl: real -> real, backend: int, w: int, total: int): int
    requires total > 0
  {
    Ceil(fl((backend * w) as real / total as real))
  }

  function Ceil(x: real): (n: int)
    ensures n as real - 1.0 < x <= n as real
  {
    if x.Floor as real == x then x.Floor else x.Floor + 1
  }

  lemma ProductAsReal(m: int, b: int)
    ensures (m * b) as real == m as real * b as real
  {
  }

  lemma QuotientTimes(a: int, b: int)
    requires b > 0
    ensures (a as real / b as real) * b as real == a as real
  {
  }

  /** `x * b` against `m * b`, with `b` positive. */
  lemma FactorOrder(x: real, m: real, b: real)
    requires b > 0.0
    ensures x * b <= m * b ==> x <= m
    ensures x * b > m * b ==> x > m
    ensures (x - m) * b == x * b - m * b
  {
    if x > m {
      RealMulMonoStrict(m, x, b);
    } else {
      RealMulMono(x, m, b);
    }
  }

  /** The integer bounds of the ceiling, read as bounds of the exact quotient. */
  lemma QuotientBounds(a: int, b: int, n: int, x: real)
    requires b > 0 && (n - 1) * b < a <= n * b && x == a as real / b as real
    ensures x * b as real == a as real
    ensures (n - 1) as real < x <= n as real
    ensures (x - (n - 1) as real) * b as real >= 1.0
  {
    QuotientTimes(a, b);
    ProductAsReal(n - 1, b);
    ProductAsReal(n, b);
    FactorOrder(x, (n - 1) as real, b as real);
    FactorOrder(x, n as real, b as real);
    assert (n - 1) * b + 1 <= a;
  }

  lemma RealMulMono(x: real, y: real, b: real)
    requires x <= y && b >= 0.0
    ensures x * b <= y * b
  {
  }

  lemma RealMulMonoStrict(x: real, y: real, b: real)
    requires x < y && b > 0.0
    ensures x * b < y * b
  {
  }

  /** The quotient lies further above the integer below it than rounding can move it. */
  lemma GapBeatsError(a: int, b: int, d: real, x: real)
    requires b > 0 && 0 <= a < TwoTo53
    requires x * b as real == a as real && d * b as real >= 1.0
    ensures d * TwoTo53 as real > x
  {
    var rb, m := b as real, TwoTo53 as real;
    RealMulMono(1.0, d * rb, m);
    assert (d * rb) * m == (d * m) * rb;
    assert (d * m) * rb > x * rb;
    if d * m <= x {
      RealMulMono(d * m, x, rb);
    }
  }

  lemma CeilingIsSmall(a: int, b: int)
    requires 0 <= a && b > 0
    ensures 0 <= CeilDiv(a, b) <= a
  {
    CeilDivMono(0, a, b);
    CeilDivUnique(0, b, 0);
    MulMono(1, b, a);
    assert a * b >= a;
    CeilDivMono(a, a * b, b);
    assert (a - 1) * b == a * b - b;
    CeilDivUnique(a * b, b, a);
  }

  /** Quotients of integers up to 2^53 are normal. */
  lemma QuotientIsNormal(a: int, b: int, x: real)
    requires 1 <= a <= TwoTo53 && 0 < b <= TwoTo53 && x * b as real == a as real
    ensures Normal(x)
  {
    Pow2Of53();
    Pow2Grows(53, 1022);
    Pow2Grows(53, 1023);
    ScaledUp(a as real, b as real, Pow2(1022) as real, x);
    ScaledDown(a as real, b as real, Pow2(1023) as real, x);
  }

  lemma ScaledUp(a: real, b: real, m: real, x: real)
    requires a >= 1.0 && 0.0 < b <= m && x * b == a
    ensures x * m >= 1.0
  {
    if x <= 0.0 {
      RealMulMono(x, 0.0, b);
    }
    RealMulMono(b, m, x);
  }

  lemma ScaledDown(a: real, b: real, m: real, x: real)
    requires 1.0 <= a <= m && b >= 1.0 && x * b == a
    ensures x <= m
  {
    if x > m {
      RealMulMono(1.0, b, x);
    }
  }

  /** Rounding the quotient to float64 before taking the ceiling changes nothing, as long as the
      product is exact: no bound on the divisor is needed beyond its own exactness. */
  lemma FloatCeilingIsExact(fl: real -> real, a: int, b: int)
    requires CorrectlyRounded(fl)
    requires 0 <= a < TwoTo53 && 0 < b <= TwoTo53
    ensures Ceil(fl(a as real / b as real)) == CeilDiv(a, b)
  {
    var x, n := a as real / b as real, CeilDiv(a, b);
    QuotientBounds(a, b, n, x);
    CeilingIsSmall(a, b);
    assert AtInteger(fl, n) == n as real;
    assert fl(x) <= n as real;
    if a == 0 {
      CeilDivUnique(0, b, 0);
    } else {
      RoundedStaysAbove(fl, a, b, n, x);
    }
  }

  lemma RoundedStaysAbove(fl: real -> real, a: int, b: int, n: int, x: real)
    requires CorrectlyRounded(fl) && 1 <= a < TwoTo53 && 0 < b <= TwoTo53
    requires x * b as real == a as real && (x - (n - 1) as real) * b as real >= 1.0
    ensures fl(x) > (n - 1) as real
  {
    QuotientIsNormal(a, b, x);
    GapBeatsError(a, b, x - (n - 1) as real, x);
    assert -x <= Moved(fl, x) * TwoTo53 as real;
    SumPositiveFactor(Moved(fl, x), x - (n - 1) as real, TwoTo53 as real, x);
  }

  lemma SumPositiveFactor(move: real, gap: real, m: real, x: real)
    requires m > 0.0 && -x <= move * m && gap * m > x
    ensures move + gap > 0.0
  {
    assert (move + gap) * m == move * m + gap * m;
    PositiveFactor(move + gap, m);
  }

  lemma PositiveFactor(d: real, m: real)
    requires m > 0.0 && d * m > 0.0
    ensures d > 0.0
  {
    if d <= 0.0 {
      RealMulMono(d, 0.0, m);
    }
  }

  /** The weight the controller computes for an endpoint, in float64, is the exact share. */
  lemma FloatShareIsExact(fl: real -> real, backend: int, w: int, total: int)
    requires CorrectlyRounded(fl)
    requires 1 <= backend <= 1000 && 1 <= w <= 1000 && w <= total <= TwoTo53
    ensures FloatShare(fl, backend, w, total) == Share(backend, w, total)
    ensures 1 <= FloatShare(fl, backend, w, total) <= backend
  {
    MulMono(backend, 1000, w);
    MulMono(0, backend, w);
    FloatCeilingIsExact(fl, backend * w, total);
    ShareBounds(backend, w, w, total);
  }
}
