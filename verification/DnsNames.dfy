/** The name grammars of section 2.1 of RFC 1123 and section 2.3.1 of RFC 1035, as Kubernetes
    checks them: lower case only, 253 characters for a subdomain, 63 for a label. */
module DnsNames {

  predicate Digit(c: char) {
    '0' <= c <= '9'
  }

  predicate Letter(c: char) {
    'a' <= c <= 'z'
  }

  predicate Alnum(c: char) {
    Digit(c) || Letter(c)
  }

  /** What may stand inside a label. */
  predicate LabelChar(c: char) {
    Alnum(c) || c == '-'
  }

  predicate LabelShape(s: string) {
    s != "" && Alnum(s[0]) && Alnum(s[|s| - 1]) && forall i :: 0 <= i < |s| ==> LabelChar(s[i])
  }

  predicate IsLabel1123(s: string) {
    |s| <= 63 && LabelShape(s)
  }

  predicate IsLabel1035(s: string) {
    |s| <= 63 && LabelShape(s) && Letter(s[0])
  }

  /** Where the first dot is, or the end. */
  function FirstDot(s: string): (k: nat)
    ensures k <= |s|
    ensures forall i :: 0 <= i < k ==> s[i] != '.'
    ensures k < |s| ==> s[k] == '.'
  {
    if s == "" || s[0] == '.' then 0 else 1 + FirstDot(s[1..])
  }

  /** The parts between the dots. */
  function Labels(s: string): seq<string>
    decreases |s|
  {
    var k := FirstDot(s);
    if k == |s| then [s] else [s[..k]] + Labels(s[k + 1..])
  }

  /** Labels joined by dots. */
  predicate IsSubdomain(s: string) {
    |s| <= 253 && forall l :: l in Labels(s) ==> LabelShape(l)
  }

  /** The same, without taking the name apart: every dot stands between two letters or digits. */
  predicate SubdomainShape(s: string) {
    && s != "" && Alnum(s[0]) && Alnum(s[|s| - 1])
    && (forall i :: 0 <= i < |s| ==> LabelChar(s[i]) || s[i] == '.')
    && (forall i :: 0 < i < |s| - 1 && s[i] == '.' ==> Alnum(s[i - 1]) && Alnum(s[i + 1]))
  }

  /** Splitting a shape at its first dot. */
  lemma ShapeAtDot(s: string, k: nat)
    requires k < |s| && s[k] == '.' && forall i :: 0 <= i < k ==> s[i] != '.'
    ensures SubdomainShape(s) <==> LabelShape(s[..k]) && SubdomainShape(s[k + 1..])
  {
    var head, tail := s[..k], s[k + 1..];
    if LabelShape(head) && SubdomainShape(tail) {
      forall i | 0 < i < |s| - 1 && s[i] == '.' ensures Alnum(s[i - 1]) && Alnum(s[i + 1]) {
        if i == k {
          assert s[k - 1] == head[|head| - 1] && s[k + 1] == tail[0];
        } else {
          assert tail[i - k - 1] == '.';
          assert i - k - 1 > 0 && s[i - 1] == tail[i - k - 2] && s[i + 1] == tail[i - k];
        }
      }
      forall i | 0 <= i < |s| ensures LabelChar(s[i]) || s[i] == '.' {
        if i < k {
          assert s[i] == head[i];
        } else if i > k {
          assert s[i] == tail[i - k - 1];
        }
      }
      assert s[0] == head[0] && s[|s| - 1] == tail[|tail| - 1];
    }
    if SubdomainShape(s) {
      assert 0 < k < |s| - 1;
      assert head[0] == s[0] && head[k - 1] == s[k - 1];
      assert tail[0] == s[k + 1] && tail[|tail| - 1] == s[|s| - 1];
      forall i | 0 < i < |tail| - 1 && tail[i] == '.' ensures Alnum(tail[i - 1]) && Alnum(tail[i + 1]) {
        assert s[i + k + 1] == '.' && s[i + k] == tail[i - 1] && s[i + k + 2] == tail[i + 1];
      }
    }
  }

  /** The two definitions agree. */
  lemma {:induction false} SubdomainIff(s: string)
    ensures (forall l :: l in Labels(s) ==> LabelShape(l)) <==> SubdomainShape(s)
    decreases |s|
  {
    var k := FirstDot(s);
    if k == |s| {
      assert Labels(s) == [s];
      assert s in Labels(s);
    } else {
      var head, rest := s[..k], Labels(s[k + 1..]);
      SubdomainIff(s[k + 1..]);
      ShapeAtDot(s, k);
      assert Labels(s) == [head] + rest;
      assert head in Labels(s);
      assert forall l :: l in Labels(s) <==> l == head || l in rest;
    }
  }
}
