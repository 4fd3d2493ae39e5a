/** The weight annotation of a ServiceExport: a decimal number between 0 and 1000. */
module MemberWeight {
  import opened Api

  predicate DigitChar(c: char) {
    '0' <= c <= '9'
  }

  predicate AllDigits(s: string) {
    s != "" && forall i :: 0 <= i < |s| ==> DigitChar(s[i])
  }

  function Value(s: string): (n: nat)
    requires forall i :: 0 <= i < |s| ==> DigitChar(s[i])
  {
    if s == "" then 0
    else
      assert DigitChar(s[|s| - 1]);
      10 * Value(s[..|s| - 1]) + (s[|s| - 1] as int - '0' as int)
  }

  const MaxInt := 0x7fff_ffff_ffff_ffff

  /** strconv.Atoi for 64-bit integers: an optional sign, then digits, and no overflow. */
  function Atoi(s: string): Option<int> {
    var signed := s != "" && (s[0] == '+' || s[0] == '-');
    var digits := if signed then s[1..] else s;
    if !AllDigits(digits) then None
    else
      var n: int := if signed && s[0] == '-' then 0 - Value(digits) else Value(digits);
      if -MaxInt - 1 <= n <= MaxInt then Some(n) else None
  }

  /** No annotation means 1; anything but an integer in [0, 1000] is an error. */
  function ExtractWeight(annotation: Option<string>): Option<int> {
    if annotation.None? then Some(1)
    else
      var n := Atoi(annotation.value);
      if n.Some? && 0 <= n.value <= 1000 then n else None
  }

  function DigitOf(n: nat): (c: char)
    requires n < 10
    ensures DigitChar(c) && c as int - '0' as int == n
  {
    '0' + n as char
  }

  /** How a number is written. */
  function Decimal(n: nat): (s: string)
    ensures AllDigits(s)
  {
    if n < 10 then [DigitOf(n)] else Decimal(n / 10) + [DigitOf(n % 10)]
  }

  lemma {:induction false} DecimalReadsBack(n: nat)
    ensures Value(Decimal(n)) == n
  {
    if n >= 10 {
      DecimalReadsBack(n / 10);
      assert Decimal(n)[..|Decimal(n)| - 1] == Decimal(n / 10);
    } else {
      assert Decimal(n)[..0] == "";
    }
  }

  /** Every allowed weight can be written, and is read back. */
  lemma WeightRoundTrip(w: nat)
    requires w <= 1000
    ensures ExtractWeight(Some(Decimal(w))) == Some(w)
  {
    DecimalReadsBack(w);
  }

  /** Without the zeros in front; the last digit stays. */
  function Stripped(s: string): (r: string)
    requires AllDigits(s)
    ensures AllDigits(r) && (|r| == 1 || r[0] != '0')
  {
    if |s| > 1 && s[0] == '0' then Stripped(s[1..]) else s
  }

  lemma {:induction false} LeadingZero(s: string)
    requires AllDigits(s)
    ensures AllDigits("0" + s) && Value("0" + s) == Value(s)
  {
    var t := "0" + s;
    assert t[..|t| - 1] == "0" + s[..|s| - 1];
    if |s| > 1 {
      LeadingZero(s[..|s| - 1]);
    } else {
      assert s[..0] == "" && "0"[..0] == "";
      assert Value("0") == 0;
    }
  }

  lemma {:induction false} StrippingKeepsValue(s: string)
    requires AllDigits(s)
    ensures Value(Stripped(s)) == Value(s)
  {
    if |s| > 1 && s[0] == '0' {
      StrippingKeepsValue(s[1..]);
      assert s == "0" + s[1..];
      LeadingZero(s[1..]);
    }
  }

  /** A numeral without superfluous zeros is the way its value is written. */
  lemma {:induction false} NumeralIsDecimal(s: string)
    requires AllDigits(s) && (|s| == 1 || s[0] != '0')
    ensures s == Decimal(Value(s))
  {
    var front, last := s[..|s| - 1], s[|s| - 1];
    assert s == front + [last];
    assert DigitChar(last);
    if |s| == 1 {
      assert Value(front) == 0;
    } else {
      NumeralIsDecimal(front);
      assert Value(front) != 0 by {
        assert Decimal(0) == "0";
      }
    }
  }

  /** The text says `w`, a weight: a sign if any, zeros if any, and the number as it is written.
      Only zero may be negative. */
  ghost predicate Denotes(s: string, w: int) {
    var signed := s != "" && (s[0] == '+' || s[0] == '-');
    var digits := if signed then s[1..] else s;
    && 0 <= w <= 1000 && AllDigits(digits) && Stripped(digits) == Decimal(w)
    && (signed && s[0] == '-' ==> w == 0)
  }

  /** What is accepted, exactly: the weight as it is written, with any number of zeros in front
      and possibly a sign; the sign '-' only for zero. */
  lemma AcceptedIff(s: string, w: int)
    ensures ExtractWeight(Some(s)) == Some(w) <==> Denotes(s, w)
  {
    var signed := s != "" && (s[0] == '+' || s[0] == '-');
    var digits := if signed then s[1..] else s;
    if AllDigits(digits) {
      StrippingKeepsValue(digits);
      NumeralIsDecimal(Stripped(digits));
      if 0 <= w {
        DecimalReadsBack(w);
      }
    }
  }
}
