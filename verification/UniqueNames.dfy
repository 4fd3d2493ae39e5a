/** Names put together from cut-down parts and a random suffix, and when they are valid. */
module UniqueNames {
  import opened DnsNames

  datatype Result = Ok(name: string) | Err

  const Subdomain1123 := 1
  const Label1123 := 2
  const Label1035 := 3

  /** The first five characters of a UUID: hexadecimal digits in lower case. */
  predicate IsSuffix(s: string) {
    |s| == 5 && forall i :: 0 <= i < 5 ==> Digit(s[i]) || 'a' <= s[i] <= 'f'
  }

  function Cut(s: string, n: nat): string {
    s[..if n < |s| then n else |s|]
  }

  function RemoveDots(s: string): (r: string)
    ensures |r| <= |s|
    ensures forall c :: c in r <==> c in s && c != '.'
    ensures s != "" && s[0] != '.' ==> r != "" && r[0] == s[0]
  {
    if s == "" then ""
    else
      assert s == [s[0]] + s[1..];
      if s[0] == '.' then RemoveDots(s[1..]) else [s[0]] + RemoveDots(s[1..])
  }

  function Joined(namespace: string, name: string, suffix: string, slots: nat): string {
    Cut(namespace, slots) + "-" + Cut(name, slots) + "-" + suffix
  }

  function FleetJoined(cluster: string, namespace: string, name: string, suffix: string, slots: nat): string {
    Cut(cluster, slots) + "-" + Joined(namespace, name, suffix, slots)
  }

  /** Only the dots are taken out, and the rest keeps its order. */
  lemma {:induction false} RemoveDotsJoins(a: string, b: string)
    ensures RemoveDots(a + b) == RemoveDots(a) + RemoveDots(b)
    ensures '.' !in a ==> RemoveDots(a) == a
  {
    if a == "" {
      assert a + b == b;
    } else {
      assert (a + b)[1..] == a[1..] + b;
      RemoveDotsJoins(a[1..], b);
    }
  }

  /** Parts that are short enough can be read back from the name, in their order. */
  lemma JoinedReadsBack(namespace: string, name: string, suffix: string, slots: nat)
    requires |namespace| <= slots && |name| <= slots
    ensures var r := Joined(namespace, name, suffix, slots);
            var i := |namespace|;
            var j := i + 1 + |name|;
            && |r| == j + 1 + |suffix|
            && r[..i] == namespace && r[i] == '-' && r[i + 1..j] == name && r[j] == '-' && r[j + 1..] == suffix
  {
    assert Cut(namespace, slots) == namespace && Cut(name, slots) == name;
    assert Joined(namespace, name, suffix, slots) == namespace + "-" + name + "-" + suffix;
  }

  lemma FleetJoinedReadsBack(cluster: string, namespace: string, name: string, suffix: string, slots: nat)
    requires |cluster| <= slots && |namespace| <= slots && |name| <= slots
    ensures var r := FleetJoined(cluster, namespace, name, suffix, slots);
            var i := |cluster|;
            var j := i + 1 + |namespace|;
            var k := j + 1 + |name|;
            && |r| == k + 1 + |suffix|
            && r[..i] == cluster && r[i] == '-' && r[i + 1..j] == namespace && r[j] == '-'
            && r[j + 1..k] == name && r[k] == '-' && r[k + 1..] == suffix
  {
    assert Cut(cluster, slots) == cluster && Cut(namespace, slots) == namespace && Cut(name, slots) == name;
    assert FleetJoined(cluster, namespace, name, suffix, slots) ==
           cluster + "-" + namespace + "-" + name + "-" + suffix;
  }

  /** Longer ones are cut to the same length, and the name is at most so long. */
  lemma FleetJoinedCuts(cluster: string, namespace: string, name: string, suffix: string, slots: nat)
    ensures FleetJoined(cluster, namespace, name, suffix, slots) ==
            FleetJoined(Cut(cluster, slots), Cut(namespace, slots), Cut(name, slots), suffix, slots)
    ensures |FleetJoined(cluster, namespace, name, suffix, slots)| <= 3 * slots + 3 + |suffix|
  {
    assert Cut(Cut(cluster, slots), slots) == Cut(cluster, slots);
    assert Cut(Cut(namespace, slots), slots) == Cut(namespace, slots);
    assert Cut(Cut(name, slots), slots) == Cut(name, slots);
  }

  predicate IsValid(format: int, name: string) {
    if format == Subdomain1123 then IsSubdomain(name)
    else if format == Label1123 then IsLabel1123(name)
    else format == Label1035 && IsLabel1035(name)
  }

  function Checked(format: int, name: string): Result {
    if IsValid(format, name) then Ok(name) else Err
  }

  /** How many characters each part may keep. */
  function Slots(format: int, parts: int): nat
    requires parts == 2 || parts == 3
  {
    ((if format == Subdomain1123 then 253 else 63) - (parts + 5)) / parts
  }

  function ClusterScoped(format: int, namespace: string, name: string, suffix: string): Result
    requires format == Label1035 ==> namespace != ""
  {
    var slots := Slots(format, 2);
    if format == Subdomain1123 then Checked(format, Joined(namespace, name, suffix, slots))
    else if format == Label1123 then Checked(format, Joined(namespace, RemoveDots(name), suffix, slots))
    else if format == Label1035 then
      Checked(format, Joined(Lettered(namespace), RemoveDots(name), suffix, slots))
    else Err
  }

  function FleetScoped(format: int, cluster: string, namespace: string, name: string, suffix: string): Result {
    var slots := Slots(format, 3);
    if format == Subdomain1123 then Checked(format, FleetJoined(cluster, namespace, name, suffix, slots))
    else if format == Label1123 || format == Label1035 then
      Checked(format, FleetJoined(RemoveDots(cluster), namespace, RemoveDots(name), suffix, slots))
    else Err
  }

  // ----- labels -----

  predicate LabelChars(s: string) {
    forall c :: c in s ==> LabelChar(c)
  }

  lemma CutKeepsChars(s: string, n: nat)
    requires LabelChars(s)
    ensures LabelChars(Cut(s, n))
  {
  }

  lemma SubdomainWithoutDots(s: string)
    requires IsSubdomain(s)
    ensures LabelChars(RemoveDots(s))
    ensures RemoveDots(s) != "" && RemoveDots(s)[0] == s[0] && Alnum(s[0])
  {
    SubdomainIff(s);
  }

  /** A name joined from label characters has the shape of a label, whatever was cut off. */
  lemma JoinedIsLabel(namespace: string, name: string, suffix: string, slots: nat)
    requires slots > 0 && LabelChars(namespace) && LabelChars(name) && IsSuffix(suffix)
    requires namespace != "" && Alnum(namespace[0])
    ensures var r := Joined(namespace, name, suffix, slots);
            LabelShape(r) && r[0] == namespace[0] && |r| <= 2 * slots + 7
  {
    CutKeepsChars(namespace, slots);
    CutKeepsChars(name, slots);
    var r := Joined(namespace, name, suffix, slots);
    assert r[|r| - 1] == suffix[4];
    forall i | 0 <= i < |r| ensures LabelChar(r[i]) {
      assert r[i] in Cut(namespace, slots) || r[i] == '-' || r[i] in Cut(name, slots) || r[i] in suffix;
    }
  }

  lemma FleetJoinedIsLabel(cluster: string, namespace: string, name: string, suffix: string, slots: nat)
    requires slots > 0 && LabelChars(cluster) && LabelChars(namespace) && LabelChars(name) && IsSuffix(suffix)
    requires cluster != "" && Alnum(cluster[0]) && namespace != "" && Alnum(namespace[0])
    ensures var r := FleetJoined(cluster, namespace, name, suffix, slots);
            LabelShape(r) && r[0] == cluster[0] && |r| <= 3 * slots + 8
  {
    JoinedIsLabel(namespace, name, suffix, slots);
    CutKeepsChars(cluster, slots);
    var head, tail := Cut(cluster, slots), Joined(namespace, name, suffix, slots);
    var r := FleetJoined(cluster, namespace, name, suffix, slots);
    assert r[|r| - 1] == tail[|tail| - 1];
    forall i | 0 <= i < |r| ensures LabelChar(r[i]) {
      assert r[i] in head || r[i] == '-' || r[i] in tail;
    }
  }

  lemma LabelHasChars(s: string)
    requires IsLabel1123(s)
    ensures s != "" && Alnum(s[0]) && LabelChars(s)
  {
  }

  /** Namespaces that start with a digit are given a prefix for RFC 1035. */
  function Lettered(namespace: string): (r: string)
    requires namespace != ""
    ensures LabelChars(namespace) ==> LabelChars(r)
    ensures r != "" && (Alnum(namespace[0]) ==> Letter(r[0]))
  {
    if Digit(namespace[0]) then "ns" + namespace else namespace
  }

  /** A cluster-scoped label can always be made. */
  lemma ClusterLabelsNeverFail(namespace: string, name: string, suffix: string)
    requires IsLabel1123(namespace) && IsSubdomain(name) && IsSuffix(suffix)
    ensures ClusterScoped(Label1123, namespace, name, suffix).Ok?
    ensures ClusterScoped(Label1035, namespace, name, suffix).Ok?
  {
    SubdomainWithoutDots(name);
    LabelHasChars(namespace);
    LabelPasses(namespace, RemoveDots(name), suffix);
    LabelPasses(Lettered(namespace), RemoveDots(name), suffix);
  }

  lemma LabelPasses(namespace: string, name: string, suffix: string)
    requires LabelChars(namespace) && LabelChars(name) && IsSuffix(suffix)
    requires namespace != "" && Alnum(namespace[0])
    ensures IsLabel1123(Joined(namespace, name, suffix, 28))
    ensures Letter(namespace[0]) ==> IsLabel1035(Joined(namespace, name, suffix, 28))
  {
    JoinedIsLabel(namespace, name, suffix, 28);
  }

  /** A fleet-scoped label of RFC 1123 can always be made; one of RFC 1035 if and only if the
      cluster ID does not start with a digit. */
  lemma FleetLabelsFailIff(cluster: string, namespace: string, name: string, suffix: string)
    requires IsSubdomain(cluster) && IsLabel1123(namespace) && IsSubdomain(name) && IsSuffix(suffix)
    ensures FleetScoped(Label1123, cluster, namespace, name, suffix).Ok?
    ensures cluster != ""
    ensures FleetScoped(Label1035, cluster, namespace, name, suffix).Err? <==> Digit(cluster[0])
  {
    SubdomainWithoutDots(cluster);
    SubdomainWithoutDots(name);
    LabelHasChars(namespace);
    FleetJoinedIsLabel(RemoveDots(cluster), namespace, RemoveDots(name), suffix, 18);
  }

  // ----- subdomains -----

  /** The beginning of a subdomain: only its last character may be anything. */
  predicate Open(s: string) {
    && s != "" && Alnum(s[0])
    && (forall i :: 0 <= i < |s| ==> LabelChar(s[i]) || s[i] == '.')
    && (forall i :: 0 < i < |s| - 1 && s[i] == '.' ==> Alnum(s[i - 1]) && Alnum(s[i + 1]))
    && (s[|s| - 1] == '.' ==> |s| > 1 && Alnum(s[|s| - 2]))
  }

  /** The cut at `n` falls just after a dot. */
  predicate CutAfterDot(s: string, n: nat) {
    0 < n < |s| && s[n - 1] == '.'
  }

  lemma CutIsOpen(s: string, n: nat)
    requires SubdomainShape(s) && n > 0
    ensures Open(Cut(s, n))
    ensures Cut(s, n)[|Cut(s, n)| - 1] == '.' <==> CutAfterDot(s, n)
  {
    var r := Cut(s, n);
    forall i | 0 < i < |r| - 1 && r[i] == '.' ensures Alnum(r[i - 1]) && Alnum(r[i + 1]) {
      assert s[i] == '.';
    }
  }

  lemma JoinAfterDot(a: string, b: string)
    requires a != "" && a[|a| - 1] == '.' && Alnum(a[0])
    ensures !Open(a + "-" + b)
  {
    var r := a + "-" + b;
    assert r[|a| - 1] == '.' && r[|a|] == '-' && !Alnum(r[|a|]);
    if b == "" {
      assert r[|r| - 1] == '-';
    }
  }

  /** Where a character of a joined name comes from. */
  lemma JoinedChar(a: string, b: string, i: int)
    requires 0 <= i < |a| + 1 + |b|
    ensures i < |a| ==> (a + "-" + b)[i] == a[i]
    ensures i == |a| ==> (a + "-" + b)[i] == '-'
    ensures i > |a| ==> (a + "-" + b)[i] == b[i - |a| - 1]
  {
  }

  lemma JoinedDot(a: string, b: string, i: int)
    requires Open(a) && Open(b) && a[|a| - 1] != '.'
    requires 0 < i < |a| + |b| && (a + "-" + b)[i] == '.'
    ensures Alnum((a + "-" + b)[i - 1]) && Alnum((a + "-" + b)[i + 1])
  {
    JoinedChar(a, b, i - 1);
    JoinedChar(a, b, i);
    JoinedChar(a, b, i + 1);
  }

  lemma JoinBeforeDot(a: string, b: string)
    requires Open(a) && Open(b) && a[|a| - 1] != '.'
    ensures Open(a + "-" + b)
  {
    var r := a + "-" + b;
    forall i | 0 < i < |r| - 1 && r[i] == '.' ensures Alnum(r[i - 1]) && Alnum(r[i + 1]) {
      JoinedDot(a, b, i);
    }
    forall i | 0 <= i < |r| ensures LabelChar(r[i]) || r[i] == '.' {
      JoinedChar(a, b, i);
    }
    JoinedChar(a, b, 0);
    JoinedChar(a, b, |r| - 1);
    JoinedChar(a, b, |r| - 2);
  }

  /** Parts may be joined by a dash unless the first ends with a dot. */
  lemma JoinOpen(a: string, b: string)
    requires Open(a) && Open(b)
    ensures Open(a + "-" + b) <==> a[|a| - 1] != '.'
  {
    if a[|a| - 1] == '.' {
      JoinAfterDot(a, b);
    } else {
      JoinBeforeDot(a, b);
    }
  }

  /** The end of a joined name is open only if what follows the first dash is. */
  lemma JoinOpenTail(a: string, b: string)
    requires b != "" && Alnum(b[0]) && Open(a + "-" + b)
    ensures Open(b)
  {
    var r := a + "-" + b;
    forall i | 0 < i < |b| - 1 && b[i] == '.' ensures Alnum(b[i - 1]) && Alnum(b[i + 1]) {
      TailChar(a, b, i - 1);
      TailChar(a, b, i);
      TailChar(a, b, i + 1);
    }
    forall i | 0 <= i < |b| ensures LabelChar(b[i]) || b[i] == '.' {
      TailChar(a, b, i);
    }
    TailChar(a, b, |b| - 1);
    if |b| > 1 {
      TailChar(a, b, |b| - 2);
    }
  }

  lemma TailChar(a: string, b: string, i: nat)
    requires i < |b|
    ensures (a + "-" + b)[|a| + 1 + i] == b[i]
  {
  }

  lemma SuffixIsOpen(suffix: string)
    requires IsSuffix(suffix)
    ensures Open(suffix) && Alnum(suffix[4])
  {
  }

  /** Joining two parts and a suffix. */
  lemma JoinedIsOpenIff(namespace: string, name: string, suffix: string, slots: nat)
    requires SubdomainShape(namespace) && SubdomainShape(name) && IsSuffix(suffix) && slots > 0
    ensures var r := Joined(namespace, name, suffix, slots);
            && r != "" && Alnum(r[0]) && Alnum(r[|r| - 1]) && |r| <= 2 * slots + 7
            && (Open(r) <==> !CutAfterDot(namespace, slots) && !CutAfterDot(name, slots))
  {
    var a, b := Cut(namespace, slots), Cut(name, slots);
    CutIsOpen(namespace, slots);
    CutIsOpen(name, slots);
    SuffixIsOpen(suffix);
    JoinOpen(b, suffix);
    var tail := b + "-" + suffix;
    var r := Joined(namespace, name, suffix, slots);
    assert r == a + "-" + tail;
    assert r[|r| - 1] == suffix[4] && r[0] == a[0] && tail[0] == b[0];
    if Open(tail) {
      JoinOpen(a, tail);
    } else if Open(r) {
      JoinOpenTail(a, tail);
    }
  }

  /** For a name that ends with a letter or digit and is not too long, open is enough. */
  lemma OpenIsSubdomain(s: string)
    requires s != "" && Alnum(s[|s| - 1]) && |s| <= 253
    ensures IsSubdomain(s) <==> Open(s)
  {
    SubdomainIff(s);
  }

  lemma CheckIsOpen(s: string)
    requires s != "" && Alnum(s[|s| - 1]) && |s| <= 253
    ensures Checked(Subdomain1123, s).Err? <==> !Open(s)
  {
    OpenIsSubdomain(s);
  }

  lemma SubdomainHasShape(s: string)
    requires IsSubdomain(s)
    ensures SubdomainShape(s)
  {
    SubdomainIff(s);
  }

  lemma LabelHasShape(s: string, n: nat)
    requires IsLabel1123(s)
    ensures SubdomainShape(s) && !CutAfterDot(s, n)
  {
  }

  lemma FleetJoinedIsOpenIff(cluster: string, namespace: string, name: string, suffix: string, slots: nat)
    requires SubdomainShape(cluster) && SubdomainShape(namespace) && SubdomainShape(name) && IsSuffix(suffix) && slots > 0
    ensures var r := FleetJoined(cluster, namespace, name, suffix, slots);
            && r != "" && Alnum(r[|r| - 1]) && |r| <= 3 * slots + 8
            && (Open(r) <==>
                !CutAfterDot(cluster, slots) && !CutAfterDot(namespace, slots) && !CutAfterDot(name, slots))
  {
    JoinedIsOpenIff(namespace, name, suffix, slots);
    CutIsOpen(cluster, slots);
    var a, tail := Cut(cluster, slots), Joined(namespace, name, suffix, slots);
    var r := FleetJoined(cluster, namespace, name, suffix, slots);
    assert r == a + "-" + tail && r[|r| - 1] == tail[|tail| - 1];
    if Open(tail) {
      JoinOpen(a, tail);
    } else if Open(r) {
      JoinOpenTail(a, tail);
    }
  }

  lemma JoinedCheck(namespace: string, name: string, suffix: string)
    requires SubdomainShape(namespace) && SubdomainShape(name) && IsSuffix(suffix)
    ensures var r := Joined(namespace, name, suffix, 123);
            && |r| <= 253
            && (Checked(Subdomain1123, r).Err? <==> CutAfterDot(namespace, 123) || CutAfterDot(name, 123))
  {
    JoinedIsOpenIff(namespace, name, suffix, 123);
    CheckIsOpen(Joined(namespace, name, suffix, 123));
  }

  lemma FleetJoinedCheck(cluster: string, namespace: string, name: string, suffix: string)
    requires SubdomainShape(cluster) && SubdomainShape(namespace) && SubdomainShape(name) && IsSuffix(suffix)
    ensures var r := FleetJoined(cluster, namespace, name, suffix, 81);
            && |r| <= 253
            && (Checked(Subdomain1123, r).Err? <==>
                CutAfterDot(cluster, 81) || CutAfterDot(namespace, 81) || CutAfterDot(name, 81))
  {
    FleetJoinedIsOpenIff(cluster, namespace, name, suffix, 81);
    CheckIsOpen(FleetJoined(cluster, namespace, name, suffix, 81));
  }

  /** A cluster-scoped subdomain fails if and only if the name is cut just after a dot; its
      length is never the reason. */
  lemma ClusterSubdomainFailsIff(namespace: string, name: string, suffix: string)
    requires IsLabel1123(namespace) && IsSubdomain(name) && IsSuffix(suffix)
    ensures ClusterScoped(Subdomain1123, namespace, name, suffix).Err? <==> CutAfterDot(name, 123)
    ensures |Joined(namespace, name, suffix, 123)| <= 253
  {
    LabelHasShape(namespace, 123);
    SubdomainHasShape(name);
    JoinedCheck(namespace, name, suffix);
  }

  /** A fleet-scoped subdomain fails if and only if the cluster ID or the name is cut just after
      a dot. */
  lemma FleetSubdomainFailsIff(cluster: string, namespace: string, name: string, suffix: string)
    requires IsSubdomain(cluster) && IsLabel1123(namespace) && IsSubdomain(name) && IsSuffix(suffix)
    ensures FleetScoped(Subdomain1123, cluster, namespace, name, suffix).Err? <==>
            CutAfterDot(cluster, 81) || CutAfterDot(name, 81)
    ensures |FleetJoined(cluster, namespace, name, suffix, 81)| <= 253
  {
    SubdomainHasShape(cluster);
    LabelHasShape(namespace, 81);
    SubdomainHasShape(name);
    FleetJoinedCheck(cluster, namespace, name, suffix);
  }

  /** A valid name with a dot at position `n`. */
  function Dotted(n: nat): (s: string)
    requires n > 0
    ensures |s| == n + 2 && s[n] == '.' && forall i :: 0 <= i < |s| && i != n ==> s[i] == 'a'
  {
    seq(n, i => 'a') + ".a"
  }

  lemma DottedIsSubdomain(n: nat)
    requires 0 < n <= 251
    ensures IsSubdomain(Dotted(n))
  {
    SubdomainIff(Dotted(n));
  }

  /** Formatting does fail for valid inputs. In every namespace there is a name for which no
      cluster-scoped subdomain can be made, */
  lemma ClusterSubdomainCanFail(namespace: string, suffix: string) returns (name: string)
    requires IsLabel1123(namespace) && IsSuffix(suffix)
    ensures IsSubdomain(name) && ClusterScoped(Subdomain1123, namespace, name, suffix).Err?
  {
    name := Dotted(122);
    DottedIsSubdomain(122);
    ClusterSubdomainFailsIff(namespace, name, suffix);
  }

  /** and in every cluster and namespace one for which no fleet-scoped one can. */
  lemma FleetSubdomainCanFail(cluster: string, namespace: string, suffix: string) returns (name: string)
    requires IsSubdomain(cluster) && IsLabel1123(namespace) && IsSuffix(suffix)
    ensures IsSubdomain(name) && FleetScoped(Subdomain1123, cluster, namespace, name, suffix).Err?
  {
    name := Dotted(80);
    DottedIsSubdomain(80);
    FleetSubdomainFailsIff(cluster, namespace, name, suffix);
  }

  // ----- the fallback -----

  const Alphabet := "abcdefghijklmnopqrstuvwxyz"

  /** A random string of lower case letters. */
  method RandomLowerCase(n: nat) returns (s: string)
    ensures |s| == n && forall i :: 0 <= i < n ==> Letter(s[i])
  {
    var b := new char[n];
    for i := 0 to n
      invariant forall j :: 0 <= j < i ==> Letter(b[j])
    {
      var k: nat := *;
      b[i] := Alphabet[k % |Alphabet|];
    }
    s := b[..];
  }

  /** Such a string is a valid name in every format, if it is not too long. */
  lemma LettersAreValid(s: string, format: int)
    requires 1 <= |s| <= 63 && forall i :: 0 <= i < |s| ==> Letter(s[i])
    requires 1 <= format <= 3
    ensures IsValid(format, s)
  {
    SubdomainIff(s);
  }

  /** The name assigned to an exported EndpointSlice: whatever the inputs are, it is a valid
      subdomain; for valid inputs it is the formatted name unless a cut falls after a dot. */
  method AssignName(cluster: string, namespace: string, name: string, suffix: string) returns (given: string)
    ensures IsSubdomain(given)
    ensures IsSubdomain(cluster) && IsLabel1123(namespace) && IsSubdomain(name) && IsSuffix(suffix) &&
            !CutAfterDot(cluster, 81) && !CutAfterDot(name, 81) ==>
              given == FleetJoined(cluster, namespace, name, suffix, 81)
  {
    var r := FleetScoped(Subdomain1123, cluster, namespace, name, suffix);
    if IsSubdomain(cluster) && IsLabel1123(namespace) && IsSubdomain(name) && IsSuffix(suffix) {
      FleetSubdomainFailsIff(cluster, namespace, name, suffix);
    }
    if r.Ok? {
      return r.name;
    }
    given := RandomLowerCase(25);
    LettersAreValid(given, Subdomain1123);
  }
}
