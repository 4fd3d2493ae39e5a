/** The loop that makes the Azure endpoints of one backend match the desired ones, with any
    Azure call failing in any of the ways the loop tells apart. */
module EndpointSync {
  import opened Api
  import DesiredEndpoints

  // ----- names -----

  /** Lower case, for the ASCII names and resource IDs Azure uses. */
  function LowerChar(c: char): char {
    if 'A' <= c <= 'Z' then (c as int + 32) as char else c
  }

  function Lower(s: string): (r: string)
    ensures |r| == |s| && forall i :: 0 <= i < |s| ==> r[i] == LowerChar(s[i])
  {
    seq(|s|, i requires 0 <= i < |s| => LowerChar(s[i]))
  }

  predicate EqualFold(a: string, b: string) {
    Lower(a) == Lower(b)
  }

  predicate Owned(prefix: string, name: string) {
    prefix <= name
  }

  function Prefix(uid: string): string {
    "fleet-" + uid + "#"
  }

  /** Of two prefixes of one name, the longer has a '#' where the shorter ends. */
  lemma ShorterPrefix(name: string, uid: string, other: string)
    requires Owned(Prefix(uid), name) && Owned(Prefix(other), name)
    requires |uid| < |other|
    ensures other[|uid|] == '#'
  {
    var p, q := Prefix(uid), Prefix(other);
    assert p[|p| - 1] == '#' && q[|p| - 1] == other[|uid|];
    assert name[|p| - 1] == p[|p| - 1] == q[|p| - 1];
  }

  /** An endpoint belongs to at most one backend: UIDs contain no '#'. */
  lemma OneOwner(name: string, uid: string, other: string)
    requires Owned(Prefix(uid), name) && Owned(Prefix(other), name)
    requires '#' !in uid && '#' !in other
    ensures uid == other
  {
    if |uid| < |other| {
      ShorterPrefix(name, uid, other);
    } else if |other| < |uid| {
      ShorterPrefix(name, other, uid);
    } else {
      var p, q := Prefix(uid), Prefix(other);
      assert p == name[..|p|] == q;
      assert uid == p[6..|p| - 1] && other == q[6..|q| - 1];
    }
  }

  // ----- endpoints -----

  /** An endpoint as Azure returns it; any field may be missing. */
  datatype AzEndpoint = AzEndpoint(
    name: Option<string>, kind: Option<string>, target: Option<string>, weight: Option<int>,
    status: Option<string>, id: Option<string>)

  datatype Desired = Desired(name: string, kind: string, target: string, weight: int, status: string, cluster: string)

  type Endpoints = map<string, AzEndpoint>
  type Wanted = map<string, Desired>

  /** The comparison the controller makes: the few fields it manages, the rest ignored. */
  predicate Equal(current: AzEndpoint, d: Desired) {
    && current.kind.Some? && EqualFold(current.kind.value, d.kind)
    && current.target.Some? && current.weight.Some? && current.status.Some?
    && EqualFold(current.target.value, d.target)
    && current.weight.value == d.weight
    && current.status.value == d.status
  }

  /** What makes an endpoint the wanted one: the same type and target up to letter case, and
      exactly the same weight and status. */
  predicate Serves(e: AzEndpoint, d: Desired) {
    && e.kind.Some? && Lower(e.kind.value) == Lower(d.kind)
    && e.target.Some? && Lower(e.target.value) == Lower(d.target)
    && e.weight == Some(d.weight)
    && e.status == Some(d.status)
  }

  /** Every wanted endpoint is keyed by its own name, in lower case, and is the backend's. */
  ghost predicate WellNamed(prefix: string, desired: Wanted) {
    forall n :: n in desired ==> desired[n].name == n && Lower(n) == n && Owned(prefix, n)
  }

  lemma LowerJoins(a: string, b: string)
    ensures Lower(a + b) == Lower(a) + Lower(b)
  {
  }

  /** The names the controller generates are the backend's, and in lower case when the UID, the
      service name and the cluster name are. */
  lemma GeneratedNamesAreWellNamed(uid: string, service: string, cluster: string)
    requires Lower(uid) == uid && Lower(service) == service && Lower(cluster) == cluster
    ensures var n := DesiredEndpoints.EndpointName(Prefix(uid), service, cluster);
            Owned(Prefix(uid), n) && Lower(n) == n
  {
    var p := Prefix(uid);
    LowerJoins("fleet-", uid);
    LowerJoins("fleet-" + uid, "#");
    LowerJoins(p, service);
    LowerJoins(p + service, "#");
    LowerJoins(p + service + "#", cluster);
  }

  // ----- how far Azure is from what is wanted -----

  /** Owned by the backend, but not wanted. */
  function Stray(prefix: string, wanted: set<string>, endpoints: Endpoints): set<string> {
    set k | k in endpoints && Owned(prefix, k) && k !in wanted
  }

  /** Wanted, but absent or different. */
  function Behind(desired: Wanted, endpoints: Endpoints): set<string> {
    set n | n in desired && (n !in endpoints || !Serves(endpoints[n], desired[n]))
  }

  function Measure(prefix: string, desired: Wanted, endpoints: Endpoints): nat {
    |Stray(prefix, desired.Keys, endpoints)| + |Behind(desired, endpoints)|
  }

  lemma Shrink<T>(big: set<T>, part: set<T>)
    requires part <= big
    ensures |big - part| == |big| - |part|
  {
    assert big == (big - part) + part;
  }

  /** Deleting unwanted endpoints lowers the measure by their number. */
  lemma DeletingLowers(prefix: string, desired: Wanted, endpoints: Endpoints, gone: set<string>)
    requires gone <= Stray(prefix, desired.Keys, endpoints)
    ensures Behind(desired, endpoints - gone) == Behind(desired, endpoints)
    ensures Stray(prefix, desired.Keys, endpoints - gone) == Stray(prefix, desired.Keys, endpoints) - gone
    ensures Measure(prefix, desired, endpoints - gone) == Measure(prefix, desired, endpoints) - |gone|
  {
    Shrink(Stray(prefix, desired.Keys, endpoints), gone);
    assert Behind(desired, endpoints - gone) == Behind(desired, endpoints);
    assert Stray(prefix, desired.Keys, endpoints - gone) == Stray(prefix, desired.Keys, endpoints) - gone;
  }

  /** `after` is `before` with the wanted endpoints `put` brought up to date. */
  ghost predicate BroughtUp(desired: Wanted, before: Endpoints, after: Endpoints, put: set<string>) {
    && put <= Behind(desired, before)
    && (forall n :: n in put ==> n in after && Serves(after[n], desired[n]))
    && after.Keys == before.Keys + put
    && (forall k :: k in before && k !in put ==> after[k] == before[k])
  }

  lemma BehindAfter(desired: Wanted, before: Endpoints, after: Endpoints, put: set<string>)
    requires BroughtUp(desired, before, after, put)
    ensures Behind(desired, after) == Behind(desired, before) - put
  {
    forall n | n in desired ensures n in Behind(desired, after) <==> n in Behind(desired, before) && n !in put {
      if n in put {
      } else if n in before {
        assert after[n] == before[n];
      }
    }
  }

  /** So does writing wanted endpoints that were absent or different. */
  lemma WritingLowers(prefix: string, desired: Wanted, before: Endpoints, after: Endpoints, put: set<string>)
    requires BroughtUp(desired, before, after, put)
    ensures Stray(prefix, desired.Keys, after) == Stray(prefix, desired.Keys, before)
    ensures Behind(desired, after) == Behind(desired, before) - put
    ensures Measure(prefix, desired, after) == Measure(prefix, desired, before) - |put|
  {
    assert Stray(prefix, desired.Keys, after) == Stray(prefix, desired.Keys, before);
    BehindAfter(desired, before, after, put);
    Shrink(Behind(desired, before), put);
  }

  // ----- Azure -----

  /** How a call ends. A failed call may have been carried out all the same. */
  datatype Answer = Ok | Http(code: int) | NotSent

  predicate IsNotFound(a: Answer) {
    a == Http(404)
  }

  predicate IsClientError(a: Answer) {
    a.Http? && 400 <= a.code < 500
  }

  predicate IsThrottled(a: Answer) {
    a == Http(429)
  }

  /** The endpoints of one Azure profile, by lower-cased name, and how often they were written. */
  class Azure {
    var endpoints: Endpoints
    var calls: nat
    var writes: nat
    var last: Answer

    ghost predicate Valid()
      reads this
    {
      forall k :: k in endpoints ==> endpoints[k].name.Some? && Lower(endpoints[k].name.value) == k
    }

    /** NotFound means that somebody else has deleted the endpoint. */
    method Delete(name: string) returns (answer: Answer)
      requires Valid()
      modifies this
      ensures Valid() && calls == old(calls) + 1 && last == answer
      ensures writes == old(writes) + if answer.Ok? then 1 else 0
      ensures endpoints == old(endpoints) || endpoints == old(endpoints) - {Lower(name)}
      ensures answer.Ok? || IsNotFound(answer) ==> endpoints == old(endpoints) - {Lower(name)}
    {
      calls := calls + 1;
      answer := *;
      last := answer;
      var applied: bool := *;
      var k := Lower(name);
      if answer.Ok? {
        writes := writes + 1;
      }
      if answer.Ok? || IsNotFound(answer) || applied {
        endpoints := endpoints - {k};
      }
    }

    /** Azure stores what it is sent, up to the letter case of the name, type and target. */
    method CreateOrUpdate(d: Desired) returns (answer: Answer, stored: AzEndpoint)
      requires Valid()
      modifies this
      ensures Valid() && calls == old(calls) + 1 && last == answer
      ensures writes == old(writes) + if answer.Ok? then 1 else 0
      ensures Serves(stored, d) && stored.name.Some? && Lower(stored.name.value) == Lower(d.name)
      ensures endpoints == old(endpoints) || endpoints == old(endpoints)[Lower(d.name) := stored]
      ensures answer.Ok? ==> endpoints == old(endpoints)[Lower(d.name) := stored]
    {
      calls := calls + 1;
      answer := *;
      last := answer;
      var applied: bool := *;
      stored := *;
      if !(Serves(stored, d) && stored.name.Some? && Lower(stored.name.value) == Lower(d.name)) {
        stored := AzEndpoint(Some(d.name), Some(d.kind), Some(d.target), Some(d.weight), Some(d.status), None);
      }
      if answer.Ok? {
        writes := writes + 1;
      }
      if answer.Ok? || applied {
        endpoints := endpoints[Lower(d.name) := stored];
      }
    }
  }

  /** What the profile was read as: every endpoint once, in any order, possibly with entries
      that lack a name. */
  ghost predicate Current(listing: seq<AzEndpoint>, endpoints: Endpoints) {
    if listing == [] then endpoints == map[]
    else
      var front, last := listing[..|listing| - 1], listing[|listing| - 1];
      if last.name.None? then Current(front, endpoints)
      else
        var k := Lower(last.name.value);
        k in endpoints && endpoints[k] == last && Current(front, endpoints - {k})
  }

  // ----- the status that is reported -----

  datatype Accepted = Accepted(name: string, weight: Option<int>, cluster: string, resourceID: string)

  function Report(e: AzEndpoint, d: Desired): Accepted
    requires e.name.Some?
  {
    Accepted(Lower(e.name.value), e.weight, d.cluster, if e.id.None? then "" else e.id.value)
  }

  ghost predicate Enumerates(names: seq<string>, elements: set<string>) {
    Distinct(names) && forall n :: n in names <==> n in elements
  }

  function NamesOf(accepted: seq<Accepted>): (r: seq<string>)
    ensures |r| == |accepted| && forall i :: 0 <= i < |r| ==> r[i] == accepted[i].name
  {
    seq(|accepted|, i requires 0 <= i < |accepted| => accepted[i].name)
  }

  /** The report has one entry for each of the endpoints `done`, with the weight computed for it
      and the cluster it comes from. */
  ghost predicate Reports(accepted: seq<Accepted>, done: set<string>, desired: Wanted) {
    && Enumerates(NamesOf(accepted), done)
    && (forall a :: a in accepted ==>
          a.name in desired && a.weight == Some(desired[a.name].weight) && a.cluster == desired[a.name].cluster)
  }

  function ResourceID(e: AzEndpoint): string {
    if e.id.None? then "" else e.id.value
  }

  /** What is reported as accepted is in Azure as it is wanted, under the resource ID reported. */
  ghost predicate Backed(accepted: seq<Accepted>, desired: Wanted, endpoints: Endpoints) {
    forall a :: a in accepted ==>
      && a.name in desired && a.name in endpoints
      && Serves(endpoints[a.name], desired[a.name]) && a.resourceID == ResourceID(endpoints[a.name])
  }

  lemma BackedOneMore(accepted: seq<Accepted>, desired: Wanted, endpoints: Endpoints, e: AzEndpoint, n: string)
    requires Backed(accepted, desired, endpoints) && e.name.Some? && Lower(e.name.value) == n
    requires n in desired && n in endpoints && endpoints[n] == e && Serves(e, desired[n])
    ensures Backed(accepted + [Report(e, desired[n])], desired, endpoints)
  {
  }

  /** Deleting endpoints that are not wanted, or writing one that is not reported, takes nothing
      from under the report. */
  lemma BackedStays(accepted: seq<Accepted>, desired: Wanted, before: Endpoints, after: Endpoints)
    requires Backed(accepted, desired, before)
    requires forall a :: a in accepted && a.name in before ==> a.name in after && after[a.name] == before[a.name]
    ensures Backed(accepted, desired, after)
  {
  }

  lemma ReportOneMore(accepted: seq<Accepted>, done: set<string>, desired: Wanted, n: string, e: AzEndpoint)
    requires Reports(accepted, done, desired)
    requires n in desired && n !in done && Serves(e, desired[n]) && e.name.Some? && Lower(e.name.value) == n
    ensures Reports(accepted + [Report(e, desired[n])], done + {n}, desired)
  {
    var a := Report(e, desired[n]);
    assert NamesOf(accepted + [a]) == NamesOf(accepted) + [n];
    assert forall m :: m in NamesOf(accepted) + [n] <==> m in done + {n};
  }

  // ----- the two loops -----

  /** The names met in a listing, lower-cased. */
  ghost function Seen(listing: seq<AzEndpoint>): set<string> {
    if listing == [] then {}
    else
      var front, last := listing[..|listing| - 1], listing[|listing| - 1];
      Seen(front) + if last.name.None? then {} else {Lower(last.name.value)}
  }

  /** A current listing names every endpoint, and none twice. */
  lemma {:induction false} SeenAll(listing: seq<AzEndpoint>, endpoints: Endpoints)
    requires Current(listing, endpoints)
    ensures Seen(listing) == endpoints.Keys
  {
    if listing != [] {
      var front, last := listing[..|listing| - 1], listing[|listing| - 1];
      if last.name.None? {
        SeenAll(front, endpoints);
      } else {
        SeenAll(front, endpoints - {Lower(last.name.value)});
      }
    }
  }

  ghost function SeenUpTo(listing: seq<AzEndpoint>, i: nat): set<string>
    requires i <= |listing|
  {
    Seen(listing[..i])
  }

  /** Meeting the entry `e` takes the names met from `seen` to `seen'`. */
  ghost predicate Meets(e: AzEndpoint, endpoints: Endpoints, seen: set<string>, seen': set<string>) {
    if e.name.None? then seen' == seen
    else
      var k := Lower(e.name.value);
      k in endpoints && endpoints[k] == e && k !in seen && seen' == seen + {k}
  }

  lemma {:induction false} SeenPrefix(listing: seq<AzEndpoint>, i: nat, endpoints: Endpoints)
    requires i < |listing| && Current(listing, endpoints)
    ensures Meets(listing[i], endpoints, SeenUpTo(listing, i), SeenUpTo(listing, i + 1))
  {
    var front, last := listing[..|listing| - 1], listing[|listing| - 1];
    if i == |listing| - 1 {
      assert listing[..i + 1] == listing;
      if last.name.Some? {
        SeenAll(front, endpoints - {Lower(last.name.value)});
      }
    } else {
      assert front[..i + 1] == listing[..i + 1] && front[..i] == listing[..i];
      SeenPrefix(front, i, if last.name.None? then endpoints else endpoints - {Lower(last.name.value)});
    }
  }

  lemma SeenNone(listing: seq<AzEndpoint>)
    ensures SeenUpTo(listing, 0) == {}
  {
  }

  lemma SeenWhole(listing: seq<AzEndpoint>, endpoints: Endpoints)
    requires Current(listing, endpoints)
    ensures SeenUpTo(listing, |listing|) == endpoints.Keys
  {
    assert listing[..|listing|] == listing;
    SeenAll(listing, endpoints);
  }

  /** How far the first loop is once it has met `seen`: the unwanted ones among them are gone,
      the wanted ones that are as they should be are struck off. */
  ghost predicate Progress(prefix: string, desired: Wanted, start: Endpoints, seen: set<string>,
                           gone: set<string>, left: Wanted)
  {
    && gone == seen * Stray(prefix, desired.Keys, start)
    && left.Keys == desired.Keys - (seen - Behind(desired, start))
    && (forall n :: n in left ==> left[n] == desired[n])
  }

  lemma ProgressStep(prefix: string, desired: Wanted, start: Endpoints, seen: set<string>, gone: set<string>,
                     left: Wanted, name: string)
    requires Progress(prefix, desired, start, seen, gone, left) && WellNamed(prefix, desired)
    requires name in start && name !in seen
    ensures name in left <==> name in desired
    ensures !Owned(prefix, name) ==> Progress(prefix, desired, start, seen + {name}, gone, left)
    ensures Owned(prefix, name) && name !in left ==>
              && name in Stray(prefix, desired.Keys, start) && name !in gone
              && Progress(prefix, desired, start, seen + {name}, gone + {name}, left)
    ensures name in left && Serves(start[name], left[name]) ==>
              Progress(prefix, desired, start, seen + {name}, gone, left - {name})
    ensures name in left && !Serves(start[name], left[name]) ==>
              Progress(prefix, desired, start, seen + {name}, gone, left)
  {
  }

  lemma ProgressDone(prefix: string, desired: Wanted, start: Endpoints, gone: set<string>, left: Wanted)
    requires Progress(prefix, desired, start, start.Keys, gone, left)
    ensures gone == Stray(prefix, desired.Keys, start)
    ensures left.Keys == Behind(desired, start)
  {
    assert forall n :: n in desired && n !in start ==> n in Behind(desired, start);
    assert left.Keys == Behind(desired, start);
  }

  /** The calls of the first loop: none, or there was something to delete. */
  ghost predicate CalledFor(stray: set<string>, before: nat, now: nat, gone: set<string>, answer: Answer) {
    (now == before && gone == {} && answer.Ok?) || (now > before && stray != {})
  }

  /** Deleting one unwanted endpoint: that it is gone already is no failure. */
  method DeleteStray(azure: Azure, e: AzEndpoint, ghost start: Endpoints, ghost gone: set<string>)
    returns (answer: Answer, ghost gone': set<string>)
    requires azure.Valid() && e.name.Some? && azure.endpoints == start - gone
    requires Lower(e.name.value) !in gone
    modifies azure
    ensures azure.Valid() && azure.endpoints == start - gone'
    ensures gone <= gone' <= gone + {Lower(e.name.value)}
    ensures azure.writes <= old(azure.writes) + |gone'| - |gone|
    ensures answer.Ok? ==> gone' == gone + {Lower(e.name.value)}
    ensures azure.calls == old(azure.calls) + 1
    ensures answer == if azure.last == Http(404) then Ok else azure.last
  {
    var name := Lower(e.name.value);
    gone' := gone + {name};
    answer := azure.Delete(e.name.value);
    assert start - gone - {name} == start - gone';
    if IsNotFound(answer) {
      answer := Ok;
    } else if !answer.Ok? && azure.endpoints == start - gone {
      gone' := gone;
    }
  }

  /** How far the first loop is, with what it has accepted. */
  ghost predicate Pruning(prefix: string, desired: Wanted, start: Endpoints, seen: set<string>,
                          gone: set<string>, left: Wanted, accepted: seq<Accepted>)
  {
    && Progress(prefix, desired, start, seen, gone, left)
    && Reports(accepted, desired.Keys - left.Keys, desired)
    && Backed(accepted, desired, start)
  }

  lemma PruningStarts(prefix: string, desired: Wanted, start: Endpoints, listing: seq<AzEndpoint>)
    ensures Pruning(prefix, desired, start, SeenUpTo(listing, 0), {}, desired, [])
  {
    assert SeenUpTo(listing, 0) == {};
    assert desired.Keys - desired.Keys == {};
  }

  /** Meeting an endpoint that is as wanted accepts it. */
  lemma PruningAccepts(prefix: string, desired: Wanted, start: Endpoints, seen: set<string>, gone: set<string>,
                       left: Wanted, accepted: seq<Accepted>, name: string, e: AzEndpoint)
    requires Pruning(prefix, desired, start, seen, gone, left, accepted) && WellNamed(prefix, desired)
    requires name in start && start[name] == e && name !in seen && name in left && Serves(e, left[name])
    requires e.name.Some? && Lower(e.name.value) == name
    ensures Pruning(prefix, desired, start, seen + {name}, gone, left - {name}, accepted + [Report(e, left[name])])
  {
    ProgressStep(prefix, desired, start, seen, gone, left, name);
    ReportOneMore(accepted, desired.Keys - left.Keys, desired, name, e);
    BackedOneMore(accepted, desired, start, e, name);
    assert desired.Keys - (left - {name}).Keys == (desired.Keys - left.Keys) + {name};
  }

  /** Meeting any other changes only what is gone. */
  lemma PruningPasses(prefix: string, desired: Wanted, start: Endpoints, seen: set<string>, gone: set<string>,
                      left: Wanted, accepted: seq<Accepted>, name: string)
    requires Pruning(prefix, desired, start, seen, gone, left, accepted) && WellNamed(prefix, desired)
    requires name in start && name !in seen && (name !in left || !Serves(start[name], left[name]))
    ensures var stray := Owned(prefix, name) && name !in left;
            && (stray ==> name in Stray(prefix, desired.Keys, start) && name !in gone)
            && Pruning(prefix, desired, start, seen + {name}, if stray then gone + {name} else gone, left, accepted)
  {
    ProgressStep(prefix, desired, start, seen, gone, left, name);
  }

  /** One turn of the first loop. */
  method PruneOne(azure: Azure, prefix: string, e: AzEndpoint, desired: Wanted, left: Wanted, accepted: seq<Accepted>,
                  ghost start: Endpoints, ghost seen: set<string>, ghost seen': set<string>, ghost gone: set<string>)
    returns (answer: Answer, left': Wanted, accepted': seq<Accepted>, ghost gone': set<string>)
    requires azure.Valid() && azure.endpoints == start - gone && WellNamed(prefix, desired)
    requires Pruning(prefix, desired, start, seen, gone, left, accepted)
    requires Meets(e, start, seen, seen')
    modifies azure
    ensures azure.Valid() && azure.endpoints == start - gone'
    ensures gone' <= Stray(prefix, desired.Keys, start)
    ensures azure.writes <= old(azure.writes) + |gone'| - |gone|
    ensures (azure.calls == old(azure.calls) && gone' == gone && answer.Ok?) ||
            (azure.calls > old(azure.calls) && Stray(prefix, desired.Keys, start) != {})
    ensures !answer.Ok? ==> answer == azure.last && answer != Http(404)
    ensures answer.Ok? ==> Pruning(prefix, desired, start, seen', gone', left', accepted')
  {
    answer, left', accepted', gone' := Ok, left, accepted, gone;
    if e.name.None? {
      return;
    }
    var name := Lower(e.name.value);
    if name in left && Serves(e, left[name]) {
      PruningAccepts(prefix, desired, start, seen, gone, left, accepted, name, e);
    } else {
      PruningPasses(prefix, desired, start, seen, gone, left, accepted, name);
    }
    if Owned(prefix, name) {
      if name !in left {
        answer, gone' := DeleteStray(azure, e, start, gone);
      } else if Equal(e, left[name]) {
        accepted' := accepted + [Report(e, left[name])];
        left' := left - {name};
      }
    }
  }

  /** The first loop: endpoints of the backend that are not wanted are deleted, those that are
      already as wanted are accepted and struck off. `gone` is what has been deleted. */
  method Prune(azure: Azure, prefix: string, listing: seq<AzEndpoint>, desired: Wanted)
    returns (answer: Answer, left: Wanted, accepted: seq<Accepted>, ghost gone: set<string>)
    requires azure.Valid() && Current(listing, azure.endpoints) && WellNamed(prefix, desired)
    modifies azure
    ensures azure.Valid() && azure.endpoints == old(azure.endpoints) - gone
    ensures gone <= Stray(prefix, desired.Keys, old(azure.endpoints))
    ensures azure.writes <= old(azure.writes) + |gone|
    ensures CalledFor(Stray(prefix, desired.Keys, old(azure.endpoints)), old(azure.calls), azure.calls, gone, answer)
    ensures !answer.Ok? ==> answer == azure.last && answer != Http(404)
    ensures answer.Ok? ==>
              Pruning(prefix, desired, old(azure.endpoints), old(azure.endpoints).Keys, gone, left, accepted)
  {
    ghost var start, stray := azure.endpoints, Stray(prefix, desired.Keys, azure.endpoints);
    answer, left, accepted, gone := Ok, desired, [], {};
    PruningStarts(prefix, desired, start, listing);
    var i := 0;
    while i < |listing| && answer.Ok?
      invariant 0 <= i <= |listing| && azure.Valid() && azure.endpoints == start - gone
      invariant gone <= stray
      invariant azure.writes <= old(azure.writes) + |gone|
      invariant CalledFor(stray, old(azure.calls), azure.calls, gone, answer)
      invariant !answer.Ok? ==> answer == azure.last && answer != Http(404)
      invariant !answer.Ok? || Pruning(prefix, desired, start, SeenUpTo(listing, i), gone, left, accepted)
    {
      ghost var seen, seen' := SeenUpTo(listing, i), SeenUpTo(listing, i + 1);
      assert Meets(listing[i], start, seen, seen') by {
        SeenPrefix(listing, i, start);
      }
      answer, left, accepted, gone := PruneOne(azure, prefix, listing[i], desired, left, accepted, start,
                                               seen, seen', gone);
      i := i + 1;
    }
    SeenWhole(listing, start);
  }

  lemma BroughtUpOneMore(desired: Wanted, before: Endpoints, after: Endpoints, put: set<string>, n: string, e: AzEndpoint)
    requires BroughtUp(desired, before, after, put)
    requires n in Behind(desired, before) && n !in put && Serves(e, desired[n])
    ensures BroughtUp(desired, before, after[n := e], put + {n})
  {
  }

  /** The account of the second loop: of the wanted endpoints, `todo` are still to be written,
      `done` are accepted and `failed` were refused. */
  ghost predicate Accounted(desired: Wanted, todo: set<string>, done: set<string>, failed: set<string>,
                            accepted: seq<Accepted>, bad: seq<string>)
  {
    && Reports(accepted, done, desired) && Enumerates(bad, failed)
    && todo !! done && todo !! failed && done !! failed
    && todo + done + failed == desired.Keys
  }

  lemma AccountAccepted(desired: Wanted, todo: set<string>, done: set<string>, failed: set<string>,
                        accepted: seq<Accepted>, bad: seq<string>, n: string, e: AzEndpoint)
    requires Accounted(desired, todo, done, failed, accepted, bad)
    requires n in todo && Serves(e, desired[n]) && e.name.Some? && Lower(e.name.value) == n
    ensures Accounted(desired, todo - {n}, done + {n}, failed, accepted + [Report(e, desired[n])], bad)
  {
    ReportOneMore(accepted, done, desired, n, e);
  }

  lemma AccountFailed(desired: Wanted, todo: set<string>, done: set<string>, failed: set<string>,
                      accepted: seq<Accepted>, bad: seq<string>, n: string)
    requires Accounted(desired, todo, done, failed, accepted, bad)
    requires n in todo
    ensures Accounted(desired, todo - {n}, done, failed + {n}, accepted, bad + [n])
  {
    assert forall m :: m in bad + [n] <==> m in failed + {n};
  }

  /** At the end nothing is left to write, and every wanted endpoint has been accepted once or
      refused once. */
  lemma AccountClosed(desired: Wanted, done: set<string>, failed: set<string>, accepted: seq<Accepted>, bad: seq<string>)
    requires Accounted(desired, {}, done, failed, accepted, bad)
    ensures |accepted| + |bad| == |desired|
  {
    DistinctLength(NamesOf(accepted), done);
    DistinctLength(bad, failed);
    assert desired.Keys == done + failed;
  }

  /** What one write did: `put` grew by at most the endpoint written. */
  ghost predicate Wrote(desired: Wanted, before: Endpoints, after: Endpoints, put: set<string>, put': set<string>,
                        n: string)
  {
    BroughtUp(desired, before, after, put') && put <= put' <= put + {n}
  }

  /** Writing one wanted endpoint. */
  method Write(azure: Azure, d: Desired, ghost desired: Wanted, ghost before: Endpoints, ghost put: set<string>)
    returns (answer: Answer, stored: AzEndpoint, ghost put': set<string>)
    requires azure.Valid() && BroughtUp(desired, before, azure.endpoints, put)
    requires d.name in Behind(desired, before) && d.name !in put && desired[d.name] == d && Lower(d.name) == d.name
    modifies azure
    ensures azure.Valid() && Wrote(desired, before, azure.endpoints, put, put', d.name)
    ensures azure.writes <= old(azure.writes) + |put'| - |put|
    ensures Serves(stored, d) && stored.name.Some? && Lower(stored.name.value) == d.name
    ensures answer.Ok? ==> d.name in put' && azure.endpoints == old(azure.endpoints)[d.name := stored]
    ensures azure.endpoints == old(azure.endpoints) || azure.endpoints == old(azure.endpoints)[d.name := stored]
    ensures azure.calls == old(azure.calls) + 1 && azure.last == answer
  {
    BroughtUpAny(desired, before, azure.endpoints, put, d.name);
    put' := put + {d.name};
    answer, stored := azure.CreateOrUpdate(d);
    if !answer.Ok? && azure.endpoints == old(azure.endpoints) {
      put' := put;
    }
  }

  lemma BroughtUpAny(desired: Wanted, before: Endpoints, after: Endpoints, put: set<string>, n: string)
    requires BroughtUp(desired, before, after, put) && n in Behind(desired, before) && n !in put
    ensures forall e :: Serves(e, desired[n]) ==> BroughtUp(desired, before, after[n := e], put + {n})
  {
    forall e | Serves(e, desired[n]) ensures BroughtUp(desired, before, after[n := e], put + {n}) {
      BroughtUpOneMore(desired, before, after, put, n, e);
    }
  }

  /** What the second loop has written, accepted and seen refused. */
  datatype Ledger = Ledger(put: set<string>, done: set<string>, failed: set<string>)

  ghost predicate Putting(desired: Wanted, before: Endpoints, todo: set<string>, led: Ledger,
                          accepted: seq<Accepted>, bad: seq<string>)
  {
    && todo <= Behind(desired, before) && todo !! led.put
    && Accounted(desired, todo, led.done, led.failed, accepted, bad)
    && led.done <= led.put + (desired.Keys - Behind(desired, before))
  }

  /** A request that Azure calls bad, which sending again will not help; too many requests is
      not one of them. */
  predicate Refusal(a: Answer) {
    a.Http? && 400 <= a.code <= 499 && a.code != 429
  }

  lemma PuttingStarts(desired: Wanted, before: Endpoints, accepted: seq<Accepted>, led: Ledger)
    requires Reports(accepted, desired.Keys - Behind(desired, before), desired)
    requires led == Ledger({}, desired.Keys - Behind(desired, before), {})
    ensures BroughtUp(desired, before, before, led.put)
    ensures Putting(desired, before, Behind(desired, before), led, accepted, [])
  {
  }

  lemma PuttingAccepted(desired: Wanted, before: Endpoints, todo: set<string>, led: Ledger, accepted: seq<Accepted>,
                        bad: seq<string>, n: string, e: AzEndpoint)
    requires Putting(desired, before, todo, led, accepted, bad)
    requires n in todo && Serves(e, desired[n]) && e.name.Some? && Lower(e.name.value) == n
    ensures Putting(desired, before, todo - {n}, Ledger(led.put + {n}, led.done + {n}, led.failed),
                    accepted + [Report(e, desired[n])], bad)
  {
    AccountAccepted(desired, todo, led.done, led.failed, accepted, bad, n, e);
  }

  lemma PuttingFailed(desired: Wanted, before: Endpoints, todo: set<string>, led: Ledger, accepted: seq<Accepted>,
                      bad: seq<string>, n: string, put': set<string>)
    requires Putting(desired, before, todo, led, accepted, bad)
    requires n in todo && led.put <= put' <= led.put + {n}
    ensures Putting(desired, before, todo - {n}, Ledger(put', led.done, led.failed + {n}), accepted, bad + [n])
  {
    AccountFailed(desired, todo, led.done, led.failed, accepted, bad, n);
  }

  /** A write to an endpoint that is not reported yet takes nothing from under the report. */
  lemma WriteKeepsBacked(desired: Wanted, before: Endpoints, todo: set<string>, led: Ledger, accepted: seq<Accepted>,
                         bad: seq<string>, n: string, endpoints: Endpoints, e: AzEndpoint)
    requires Putting(desired, before, todo, led, accepted, bad) && n in todo
    requires Backed(accepted, desired, endpoints)
    ensures Backed(accepted, desired, endpoints[n := e])
  {
    forall a | a in accepted ensures a.name != n {
      assert a.name in NamesOf(accepted) by {
        var i :| 0 <= i < |accepted| && accepted[i] == a;
        assert NamesOf(accepted)[i] == a.name;
      }
    }
    BackedStays(accepted, desired, endpoints, endpoints[n := e]);
  }

  /** What is made of Azure's answer to a write: the endpoint is accepted, noted as refused, or
      the loop ends. */
  method File(sent: Answer, stored: AzEndpoint, d: Desired, accepted: seq<Accepted>, bad: seq<string>)
    returns (answer: Answer, accepted': seq<Accepted>, bad': seq<string>)
    requires stored.name.Some?
    ensures sent.Ok? ==> answer.Ok? && accepted' == accepted + [Report(stored, d)] && bad' == bad
    ensures Refusal(sent) ==> answer.Ok? && accepted' == accepted && bad' == bad + [d.name]
    ensures !sent.Ok? && !Refusal(sent) ==> answer == sent && accepted' == accepted && bad' == bad
  {
    answer, accepted', bad' := sent, accepted, bad;
    if sent.Ok? {
      accepted' := accepted + [Report(stored, d)];
    } else if IsClientError(sent) && !IsThrottled(sent) {
      bad' := bad + [d.name];
      answer := Ok;
    }
  }

  /** One turn of the second loop. */
  method PutOne(azure: Azure, d: Desired, accepted: seq<Accepted>, bad: seq<string>,
                ghost desired: Wanted, ghost before: Endpoints, ghost todo: set<string>, ghost led: Ledger)
    returns (answer: Answer, accepted': seq<Accepted>, bad': seq<string>, ghost led': Ledger)
    requires azure.Valid() && BroughtUp(desired, before, azure.endpoints, led.put)
    requires Putting(desired, before, todo, led, accepted, bad)
    requires d.name in todo && desired[d.name] == d && Lower(d.name) == d.name
    requires Backed(accepted, desired, azure.endpoints)
    modifies azure
    ensures azure.Valid() && BroughtUp(desired, before, azure.endpoints, led'.put)
    ensures azure.calls == old(azure.calls) + 1 && Backed(accepted', desired, azure.endpoints)
    ensures azure.last.Ok? ==>
              d.name in azure.endpoints && accepted' == accepted + [Report(azure.endpoints[d.name], d)]
    ensures !azure.last.Ok? ==> accepted' == accepted
    ensures Refusal(azure.last) ==> bad' == bad + [d.name]
    ensures !Refusal(azure.last) ==> bad' == bad
    ensures answer == if Refusal(azure.last) then Ok else azure.last
    ensures azure.writes <= old(azure.writes) + |led'.put| - |led.put|
    ensures answer.Ok? ==> Putting(desired, before, todo - {d.name}, led', accepted', bad')
  {
    var sent, stored;
    ghost var put';
    sent, stored, put' := Write(azure, d, desired, before, led.put);
    answer, accepted', bad' := File(sent, stored, d, accepted, bad);
    WriteKeepsBacked(desired, before, todo, led, accepted, bad, d.name, old(azure.endpoints), stored);
    led' := Ledger(put', led.done, led.failed);
    if sent.Ok? {
      PuttingAccepted(desired, before, todo, led, accepted, bad, d.name, stored);
      BackedOneMore(accepted, desired, azure.endpoints, stored, d.name);
      led' := Ledger(put', led.done + {d.name}, led.failed);
    } else if Refusal(sent) {
      PuttingFailed(desired, before, todo, led, accepted, bad, d.name, put');
      led' := Ledger(put', led.done, led.failed + {d.name});
    }
  }

  /** The second loop: what the first left is written, in any order. A request Azure calls bad
      is noted and the loop goes on; any other failure ends it. */
  method Put(azure: Azure, desired: Wanted, left: Wanted, matched: seq<Accepted>)
    returns (answer: Answer, accepted: seq<Accepted>, bad: seq<string>, ghost led: Ledger)
    requires azure.Valid() && forall n :: n in desired ==> desired[n].name == n && Lower(n) == n
    requires left.Keys == Behind(desired, azure.endpoints) && forall n :: n in left ==> left[n] == desired[n]
    requires Reports(matched, desired.Keys - left.Keys, desired) && Backed(matched, desired, azure.endpoints)
    modifies azure
    ensures azure.Valid() && BroughtUp(desired, old(azure.endpoints), azure.endpoints, led.put)
    ensures azure.writes <= old(azure.writes) + |led.put|
    ensures azure.calls >= old(azure.calls) && (azure.calls == old(azure.calls) <==> left == map[])
    ensures left == map[] ==> answer.Ok?
    ensures !answer.Ok? ==> answer == azure.last && !Refusal(answer)
    ensures Backed(accepted, desired, azure.endpoints)
    ensures answer.Ok? ==> Putting(desired, old(azure.endpoints), {}, led, accepted, bad)
  {
    ghost var before := azure.endpoints;
    answer, accepted, bad, led := Ok, matched, [], Ledger({}, desired.Keys - left.Keys, {});
    PuttingStarts(desired, before, matched, led);
    var todo := left.Keys;
    while todo != {} && answer.Ok?
      invariant azure.Valid() && BroughtUp(desired, before, azure.endpoints, led.put)
      invariant todo <= left.Keys
      invariant azure.writes <= old(azure.writes) + |led.put|
      invariant azure.calls > old(azure.calls) || (azure.calls == old(azure.calls) && todo == left.Keys && answer.Ok?)
      invariant left == map[] ==> azure.calls == old(azure.calls)
      invariant !answer.Ok? ==> answer == azure.last && !Refusal(answer)
      invariant Backed(accepted, desired, azure.endpoints)
      invariant answer.Ok? ==> Putting(desired, before, todo, led, accepted, bad)
      decreases |todo|
    {
      var n :| n in todo;
      answer, accepted, bad, led := PutOne(azure, left[n], accepted, bad, desired, before, todo, led);
      todo := todo - {n};
    }
  }

  /** Endpoints that are not the backend's are as they were. */
  ghost predicate OthersKept(prefix: string, before: Endpoints, after: Endpoints) {
    forall k :: !Owned(prefix, k) ==>
      (k in before <==> k in after) && (k in before && k in after ==> after[k] == before[k])
  }

  lemma DeletingKeepsOthers(prefix: string, desired: Wanted, before: Endpoints, gone: set<string>)
    requires gone <= Stray(prefix, desired.Keys, before)
    ensures OthersKept(prefix, before, before - gone)
  {
  }

  lemma WritingKeepsOthers(prefix: string, desired: Wanted, start: Endpoints, before: Endpoints, after: Endpoints,
                           put: set<string>)
    requires WellNamed(prefix, desired) && OthersKept(prefix, start, before) && BroughtUp(desired, before, after, put)
    ensures OthersKept(prefix, start, after)
  {
  }

  /** What a run that ends well leaves behind. */
  ghost predicate Settled(prefix: string, desired: Wanted, endpoints: Endpoints, led: Ledger,
                          accepted: seq<Accepted>, bad: seq<string>)
  {
    && Stray(prefix, desired.Keys, endpoints) == {}
    && Accounted(desired, {}, led.done, led.failed, accepted, bad)
    && |accepted| + |bad| == |desired|
    && led.done !! Behind(desired, endpoints)
    && (bad == [] ==> Measure(prefix, desired, endpoints) == 0)
  }

  lemma EndsSettled(prefix: string, desired: Wanted, before: Endpoints, after: Endpoints, led: Ledger,
                    accepted: seq<Accepted>, bad: seq<string>)
    requires Stray(prefix, desired.Keys, before) == {}
    requires BroughtUp(desired, before, after, led.put)
    requires Putting(desired, before, {}, led, accepted, bad)
    ensures Settled(prefix, desired, after, led, accepted, bad)
  {
    WritingLowers(prefix, desired, before, after, led.put);
    AccountClosed(desired, led.done, led.failed, accepted, bad);
    if bad == [] {
      assert led.failed == {} by {
        assert forall n :: n in bad <==> n in led.failed;
      }
      assert Behind(desired, after) == {};
    }
  }

  /** Azure is as wanted: every wanted endpoint serves, and the backend has no other. */
  ghost predicate InPlace(prefix: string, desired: Wanted, endpoints: Endpoints) {
    && (forall n :: n in desired ==> n in endpoints && Serves(endpoints[n], desired[n]))
    && (forall k :: k in endpoints && Owned(prefix, k) ==> k in desired)
  }

  lemma InPlaceIff(prefix: string, desired: Wanted, endpoints: Endpoints)
    ensures InPlace(prefix, desired, endpoints) <==>
            Stray(prefix, desired.Keys, endpoints) == {} && Behind(desired, endpoints) == {}
    ensures InPlace(prefix, desired, endpoints) <==> Measure(prefix, desired, endpoints) == 0
  {
    forall k | k in endpoints && Owned(prefix, k) && k !in desired ensures Stray(prefix, desired.Keys, endpoints) != {} {
      assert k in Stray(prefix, desired.Keys, endpoints);
    }
    forall n | n in desired && (n !in endpoints || !Serves(endpoints[n], desired[n]))
      ensures Behind(desired, endpoints) != {}
    {
      assert n in Behind(desired, endpoints);
    }
  }

  lemma NoneStray(prefix: string, desired: Wanted, endpoints: Endpoints)
    requires Stray(prefix, desired.Keys, endpoints) == {}
    ensures forall k :: k in endpoints && Owned(prefix, k) ==> k in desired
  {
    forall k | k in endpoints && Owned(prefix, k) ensures k in desired {
      assert k in Stray(prefix, desired.Keys, endpoints) <==> k !in desired;
    }
  }

  /** The whole loop. Wherever it ends, each write that succeeded has brought Azure at least one
      step closer to what is wanted, and other endpoints are untouched; when it ends well, what is
      accepted is in Azure as it is wanted, the rest was refused, and the backend has no endpoint
      that is not wanted; and Azure is left alone exactly when it is as wanted already. */
  method Sync(azure: Azure, prefix: string, listing: seq<AzEndpoint>, desired: Wanted)
    returns (answer: Answer, accepted: seq<Accepted>, bad: seq<string>, ghost led: Ledger)
    requires azure.Valid() && Current(listing, azure.endpoints) && WellNamed(prefix, desired)
    modifies azure
    ensures azure.Valid() && OthersKept(prefix, old(azure.endpoints), azure.endpoints)
    ensures Measure(prefix, desired, azure.endpoints) + (azure.writes - old(azure.writes)) <=
            Measure(prefix, desired, old(azure.endpoints))
    ensures azure.calls == old(azure.calls) <==> InPlace(prefix, desired, old(azure.endpoints))
    ensures azure.calls == old(azure.calls) ==> answer.Ok?
    ensures !answer.Ok? ==> answer == azure.last && answer != Http(404)
    ensures answer.Ok? ==> Backed(accepted, desired, azure.endpoints)
    ensures answer.Ok? ==> forall k :: k in azure.endpoints && Owned(prefix, k) ==> k in desired
    ensures answer.Ok? ==> Settled(prefix, desired, azure.endpoints, led, accepted, bad)
  {
    ghost var start := azure.endpoints;
    var left;
    ghost var gone;
    answer, left, accepted, gone := Prune(azure, prefix, listing, desired);
    DeletingLowers(prefix, desired, start, gone);
    DeletingKeepsOthers(prefix, desired, start, gone);
    bad, led := [], Ledger({}, {}, {});
    InPlaceIff(prefix, desired, start);
    assert Refusal(Http(404));
    if answer.Ok? {
      ghost var before := azure.endpoints;
      ProgressDone(prefix, desired, start, gone, left);
      BackedStays(accepted, desired, start, before);
      answer, accepted, bad, led := Put(azure, desired, left, accepted);
      WritingLowers(prefix, desired, before, azure.endpoints, led.put);
      WritingKeepsOthers(prefix, desired, start, before, azure.endpoints, led.put);
      if answer.Ok? {
        EndsSettled(prefix, desired, before, azure.endpoints, led, accepted, bad);
        NoneStray(prefix, desired, azure.endpoints);
      }
    }
  }

  // ----- cleaning up -----

  /** The endpoints that the clean-up takes for the backend's. It looks at names as Azure spells
      them. */
  function Spelled(prefix: string, endpoints: Endpoints): set<string>
    requires forall k :: k in endpoints ==> endpoints[k].name.Some?
  {
    set k | k in endpoints && Owned(prefix, endpoints[k].name.value)
  }

  lemma SpelledIsOwned(prefix: string, endpoints: Endpoints)
    requires forall k :: k in endpoints ==> endpoints[k].name.Some? && Lower(endpoints[k].name.value) == k
    requires Lower(prefix) == prefix
    ensures Spelled(prefix, endpoints) <= Stray(prefix, {}, endpoints)
  {
    forall k | k in Spelled(prefix, endpoints) ensures Owned(prefix, k) {
      var name := endpoints[k].name.value;
      assert forall i :: 0 <= i < |prefix| ==> prefix[i] == name[i] && Lower(prefix)[i] == k[i];
    }
  }

  /** How far the clean-up is once it has met `seen`: what is gone was taken for the backend's,
      and without a failure all of that is gone. */
  ghost predicate Sweeping(prefix: string, start: Endpoints, seen: set<string>, gone: set<string>, failed: bool)
    requires forall k :: k in start ==> start[k].name.Some?
  {
    gone <= Spelled(prefix, start) && gone <= seen && (!failed ==> gone == Spelled(prefix, start) * seen)
  }

  /** An endpoint of the backend that Azure spells with a capital letter is not taken for it. */
  lemma SpellingMatters() returns (prefix: string, endpoints: Endpoints)
    ensures Lower(prefix) == prefix
    ensures forall k :: k in endpoints ==> endpoints[k].name.Some? && Lower(endpoints[k].name.value) == k
    ensures Spelled(prefix, endpoints) == {} && Stray(prefix, {}, endpoints) != {}
  {
    prefix := Prefix("u");
    var name := "Fleet-u#web#c";
    var key := prefix + "web#c";
    assert prefix == "fleet-u#" && key == "fleet-u#web#c";
    assert Lower(name) == key;
    endpoints := map[key := AzEndpoint(Some(name), None, None, None, None, None)];
    assert !Owned(prefix, name) by {
      assert prefix[0] != name[0];
    }
    assert key in Stray(prefix, {}, endpoints);
  }

  /** One turn of the clean-up; once a call has failed the others may not be sent. */
  method CleanupOne(azure: Azure, prefix: string, e: AzEndpoint, failed: bool,
                    ghost start: Endpoints, ghost seen: set<string>, ghost seen': set<string>, ghost gone: set<string>)
    returns (failed': bool, ghost gone': set<string>)
    requires azure.Valid() && azure.endpoints == start - gone && Meets(e, start, seen, seen')
    requires forall k :: k in start ==> start[k].name.Some?
    requires Sweeping(prefix, start, seen, gone, failed)
    modifies azure
    ensures azure.Valid() && azure.endpoints == start - gone'
    ensures Sweeping(prefix, start, seen', gone', failed')
  {
    failed', gone' := failed, gone;
    if e.name.None? || !Owned(prefix, e.name.value) {
      return;
    }
    var sent: bool := *;
    if failed && !sent {
      return;
    }
    var answer;
    answer, gone' := DeleteStray(azure, e, start, gone);
    failed' := failed || !answer.Ok?;
  }

  lemma SweptClean(prefix: string, start: Endpoints, gone: set<string>, failed: bool)
    requires forall k :: k in start ==> start[k].name.Some? && Lower(start[k].name.value) == k
    requires Lower(prefix) == prefix && Sweeping(prefix, start, start.Keys, gone, failed)
    ensures OthersKept(prefix, start, start - gone)
    ensures !failed ==>
              && gone == Spelled(prefix, start)
              && (Stray(prefix, {}, start - gone) == {} <==> Spelled(prefix, start) == Stray(prefix, {}, start))
  {
    SpelledIsOwned(prefix, start);
    assert Spelled(prefix, start) * start.Keys == Spelled(prefix, start);
    DeletingKeepsOthers(prefix, map[], start, gone);
    DeletingLowers(prefix, map[], start, gone);
  }

  /** Deleting every endpoint of the backend. When it succeeds, none is left, if and only if
      Azure spells the prefix of each of them the way it was written. */
  method Cleanup(azure: Azure, prefix: string, listing: seq<AzEndpoint>) returns (failed: bool)
    requires azure.Valid() && Current(listing, azure.endpoints) && Lower(prefix) == prefix
    modifies azure
    ensures azure.Valid() && OthersKept(prefix, old(azure.endpoints), azure.endpoints)
    ensures !failed ==> azure.endpoints == old(azure.endpoints) - old(Spelled(prefix, azure.endpoints))
    ensures !failed ==> (Stray(prefix, {}, azure.endpoints) == {} <==>
                         old(Spelled(prefix, azure.endpoints)) == Stray(prefix, {}, old(azure.endpoints)))
  {
    ghost var start := azure.endpoints;
    ghost var gone: set<string> := {};
    failed := false;
    SeenNone(listing);
    for i := 0 to |listing|
      invariant azure.Valid() && azure.endpoints == start - gone
      invariant Sweeping(prefix, start, SeenUpTo(listing, i), gone, failed)
    {
      SeenPrefix(listing, i, start);
      failed, gone := CleanupOne(azure, prefix, listing[i], failed, start, SeenUpTo(listing, i),
                                 SeenUpTo(listing, i + 1), gone);
    }
    SeenWhole(listing, start);
    SweptClean(prefix, start, gone, failed);
  }
}
