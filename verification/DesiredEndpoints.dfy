/** Building the desired Traffic Manager endpoints of a backend. Weights are pointers here: the
    weight of an endpoint, the weight reported for its source cluster and the weight in the
    InternalServiceExport start out as one and the same integer in memory. */
module DesiredEndpoints {
  import opened Api
  import opened Weights

  type Cluster = string

  /** An integer in memory. */
  class Box {
    var value: int

    constructor (v: int)
      ensures value == v
    {
      value := v;
    }
  }

  /** The properties of an endpoint; copies of the endpoint share them. */
  class Properties {
    var target: string
    var status: string
    var weight: Box

    constructor (t: string, st: string, w: Box)
      ensures target == t && status == st && weight == w
    {
      target, status, weight := t, st, w;
    }
  }

  datatype Endpoint = Endpoint(name: string, kind: string, properties: Properties)
  datatype FromCluster = FromCluster(cluster: Cluster, weight: Box)
  datatype Desired = Desired(endpoint: Endpoint, fromCluster: FromCluster)

  datatype ServiceType = ClusterIP | NodePort | LoadBalancer

  /** The fields of an InternalServiceExport that matter here; an unset weight is null. */
  datatype ExportSpec = ExportSpec(
    kind: ServiceType, internalLoadBalancer: bool, publicIP: Option<string>, dnsLabel: bool, weight: Box?)

  type Exports = map<Cluster, ExportSpec>

  datatype Reason = UnsupportedType | InternalLoadBalancer | NoPublicIP | NoDnsLabel

  datatype Outcome =
    | Unknown
    | Processed(desired: map<string, Desired>, invalid: map<Cluster, Reason>)

  const EndpointKind := "Microsoft.Network/trafficManagerProfiles/AzureEndpoints"
  const Enabled := "Enabled"

  /** Why an exported service cannot be an endpoint. */
  function Objection(x: ExportSpec): Option<Reason> {
    if x.kind != LoadBalancer then Some(UnsupportedType)
    else if x.internalLoadBalancer then Some(Reason.InternalLoadBalancer)
    else if x.publicIP.None? then Some(NoPublicIP)
    else if !x.dnsLabel then Some(NoDnsLabel)
    else None
  }

  /** What stands in the way of an endpoint, each thing on its own. */
  predicate InTheWay(x: ExportSpec, r: Reason) {
    match r
    case UnsupportedType => !x.kind.LoadBalancer?
    case InternalLoadBalancer => x.internalLoadBalancer
    case NoPublicIP => x.publicIP.None?
    case NoDnsLabel => !x.dnsLabel
  }

  const Reasons := [UnsupportedType, Reason.InternalLoadBalancer, NoPublicIP, NoDnsLabel]

  /** A service can be an endpoint when nothing is in the way, and otherwise the reason given is
      the first one. */
  lemma FirstReasonWins(x: ExportSpec, i: nat)
    requires i < |Reasons|
    ensures Objection(x).None? <==> forall r :: !InTheWay(x, r)
    ensures Objection(x) == Some(Reasons[i]) <==>
            InTheWay(x, Reasons[i]) && forall j :: 0 <= j < i ==> !InTheWay(x, Reasons[j])
  {
    assert Reasons[0] == UnsupportedType && Reasons[1] == Reason.InternalLoadBalancer && Reasons[2] == NoPublicIP;
    assert Objection(x).Some? ==> InTheWay(x, Objection(x).value);
  }

  function EndpointName(prefix: string, service: string, c: Cluster): string {
    prefix + service + "#" + c
  }

  /** The name is the backend's prefix, the service and the cluster, in this order. */
  lemma NameParts(prefix: string, service: string, c: Cluster)
    ensures var r := EndpointName(prefix, service, c);
            var i := |prefix|;
            var j := i + |service|;
            && |r| == j + 1 + |c|
            && r[..i] == prefix && r[i..j] == service && r[j] == '#' && r[j + 1..] == c
  {
  }

  /** Within one backend, endpoint names tell the clusters apart. */
  lemma NamesTellClustersApart(prefix: string, service: string, c: Cluster, d: Cluster)
    requires EndpointName(prefix, service, c) == EndpointName(prefix, service, d)
    ensures c == d
  {
    var stem := prefix + service + "#";
    assert EndpointName(prefix, service, c)[|stem|..] == c;
    assert EndpointName(prefix, service, d)[|stem|..] == d;
  }

  /** The weight configured for an exported service; 1 when unset. */
  function WeightOf(x: ExportSpec): int
    reads x.weight
  {
    if x.weight == null then 1 else x.weight.value
  }

  /** The listed clusters whose service can be an endpoint, in order. */
  function Usable(clusters: seq<Cluster>, exports: Exports): (r: seq<Cluster>)
    requires forall c :: c in clusters ==> c in exports
    ensures forall c :: c in r <==> c in clusters && Objection(exports[c]).None?
  {
    if clusters == [] then []
    else
      var last := clusters[|clusters| - 1];
      assert clusters == clusters[..|clusters| - 1] + [last];
      Usable(clusters[..|clusters| - 1], exports) + if Objection(exports[last]).None? then [last] else []
  }

  /** The listed clusters whose service cannot, with the reason. */
  function Rejected(clusters: seq<Cluster>, exports: Exports): (r: map<Cluster, Reason>)
    requires forall c :: c in clusters ==> c in exports
    ensures forall c :: c in r <==> c in clusters && Objection(exports[c]).Some?
    ensures forall c :: c in r ==> Objection(exports[c]) == Some(r[c])
  {
    if clusters == [] then map[]
    else
      var last := clusters[|clusters| - 1];
      assert clusters == clusters[..|clusters| - 1] + [last];
      var r := Rejected(clusters[..|clusters| - 1], exports);
      if Objection(exports[last]).Some? then r[last := Objection(exports[last]).value] else r
  }

  /** `weights` are the configured weights, as values; an unset weight counts as 1. */
  ghost predicate Configured(weights: map<Cluster, int>, exports: Exports)
    reads set c | c in exports :: exports[c].weight
  {
    && weights.Keys == exports.Keys
    && forall c :: c in exports ==> weights[c] == if exports[c].weight == null then 1 else exports[c].weight.value
  }

  function Pick(us: seq<Cluster>, weights: map<Cluster, int>): (r: seq<int>)
    requires forall c :: c in us ==> c in weights
    ensures |r| == |us| && forall i :: 0 <= i < |r| ==> r[i] == weights[us[i]]
  {
    seq(|us|, i requires 0 <= i < |us| => weights[us[i]])
  }

  lemma PickSnoc(us: seq<Cluster>, weights: map<Cluster, int>, c: Cluster)
    requires c in weights && forall b :: b in us ==> b in weights
    ensures Sum(Pick(us + [c], weights)) == Sum(Pick(us, weights)) + weights[c]
  {
    SumSnoc(Pick(us, weights), weights[c]);
    assert Pick(us + [c], weights) == Pick(us, weights) + [weights[c]];
  }

  /** `d` is the freshly generated endpoint of cluster `c`: its weight and the weight reported
      for the cluster are the same integer. */
  ghost predicate Generated(d: Desired, prefix: string, service: string, x: ExportSpec, w: int)
    reads d.endpoint.properties, d.fromCluster.weight
  {
    && Described(d, prefix, service, x, w)
    && d.endpoint.properties.weight == d.fromCluster.weight
  }

  /** Everything about `d` but the weight of the endpoint; `w` is the configured weight. */
  ghost predicate Described(d: Desired, prefix: string, service: string, x: ExportSpec, w: int)
    reads d.endpoint.properties, d.fromCluster.weight
  {
    && d.endpoint.name == EndpointName(prefix, service, d.fromCluster.cluster)
    && d.endpoint.kind == EndpointKind
    && Some(d.endpoint.properties.target) == x.publicIP
    && d.endpoint.properties.status == Enabled
    && d.fromCluster.weight.value == w
  }

  method Generate(prefix: string, service: string, c: Cluster, x: ExportSpec) returns (d: Desired)
    requires Objection(x).None?
    ensures fresh(d.endpoint.properties)
    ensures d.fromCluster.weight == x.weight || (x.weight == null && fresh(d.fromCluster.weight))
    ensures d.fromCluster.cluster == c && Generated(d, prefix, service, x, WeightOf(x))
  {
    var weight: Box;
    if x.weight == null {
      weight := new Box(1);
    } else {
      weight := x.weight;
    }
    var properties := new Properties(x.publicIP.value, Enabled, weight);
    d := Desired(Endpoint(EndpointName(prefix, service, c), EndpointKind, properties), FromCluster(c, weight));
  }

  /** The map has one entry for each of the clusters `us`, under its endpoint name. */
  ghost predicate Keyed(desired: map<string, Desired>, prefix: string, service: string, us: seq<Cluster>) {
    && (forall n :: n in desired ==>
          desired[n].fromCluster.cluster in us &&
          n == EndpointName(prefix, service, desired[n].fromCluster.cluster))
    && (forall c :: c in us ==>
          EndpointName(prefix, service, c) in desired &&
          desired[EndpointName(prefix, service, c)].fromCluster.cluster == c)
  }

  lemma KeyedGrows(desired: map<string, Desired>, prefix: string, service: string, us: seq<Cluster>, d: Desired)
    requires Keyed(desired, prefix, service, us)
    requires d.fromCluster.cluster !in us
    requires d.endpoint.name == EndpointName(prefix, service, d.fromCluster.cluster)
    ensures d.endpoint.name !in desired
    ensures Keyed(desired[d.endpoint.name := d], prefix, service, us + [d.fromCluster.cluster])
  {
    var c := d.fromCluster.cluster;
    forall b | EndpointName(prefix, service, b) == EndpointName(prefix, service, c) ensures b == c {
      NamesTellClustersApart(prefix, service, b, c);
    }
  }

  /** The entries are as generated, each with properties of its own. */
  ghost predicate AllGenerated(desired: map<string, Desired>, prefix: string, service: string,
                               exports: Exports, weights: map<Cluster, int>)
    requires weights.Keys == exports.Keys
    reads (set n | n in desired :: desired[n].endpoint.properties)
    reads (set n | n in desired :: desired[n].fromCluster.weight)
  {
    && (forall n :: n in desired ==>
          var c := desired[n].fromCluster.cluster;
          c in exports && Generated(desired[n], prefix, service, exports[c], weights[c]))
    && Separate(desired)
  }

  /** The result of the first loop over the clusters `done`. */
  ghost predicate Collected(prefix: string, service: string, done: seq<Cluster>, exports: Exports,
                            weights: map<Cluster, int>, desired: map<string, Desired>,
                            invalid: map<Cluster, Reason>, total: int)
    requires weights.Keys == exports.Keys && forall c :: c in done ==> c in exports
    reads (set n | n in desired :: desired[n].endpoint.properties)
    reads (set n | n in desired :: desired[n].fromCluster.weight)
  {
    && Keyed(desired, prefix, service, Usable(done, exports))
    && AllGenerated(desired, prefix, service, exports, weights)
    && total == Sum(Pick(Usable(done, exports), weights))
    && invalid == Rejected(done, exports)
  }

  /** Adding one usable cluster. */
  method CollectUsable(prefix: string, service: string, c: Cluster, exports: Exports, desired: map<string, Desired>,
                       ghost us: seq<Cluster>, ghost weights: map<Cluster, int>)
    returns (desired': map<string, Desired>, w: int)
    requires c in exports && Objection(exports[c]).None? && c !in us
    requires weights.Keys == exports.Keys && WeightOf(exports[c]) == weights[c]
    requires Keyed(desired, prefix, service, us) && AllGenerated(desired, prefix, service, exports, weights)
    ensures Keyed(desired', prefix, service, us + [c])
    ensures AllGenerated(desired', prefix, service, exports, weights)
    ensures forall n :: n in desired' ==>
              (n in desired && desired'[n] == desired[n]) || fresh(desired'[n].endpoint.properties)
    ensures w == weights[c]
  {
    var d := Generate(prefix, service, c, exports[c]);
    KeyedGrows(desired, prefix, service, us, d);
    desired' := desired[d.endpoint.name := d];
    w := d.endpoint.properties.weight.value;
  }

  lemma UsableSnoc(done: seq<Cluster>, c: Cluster, exports: Exports, weights: map<Cluster, int>)
    requires c in exports && weights.Keys == exports.Keys && forall b :: b in done ==> b in exports
    ensures forall b :: b in done + [c] ==> b in exports
    ensures Objection(exports[c]).None? ==>
              && Usable(done + [c], exports) == Usable(done, exports) + [c]
              && Rejected(done + [c], exports) == Rejected(done, exports)
              && Sum(Pick(Usable(done + [c], exports), weights)) ==
                 Sum(Pick(Usable(done, exports), weights)) + weights[c]
    ensures Objection(exports[c]).Some? ==>
              && Usable(done + [c], exports) == Usable(done, exports)
              && Rejected(done + [c], exports) == Rejected(done, exports)[c := Objection(exports[c]).value]
  {
    assert (done + [c])[..|done|] == done;
    if Objection(exports[c]).None? {
      PickSnoc(Usable(done, exports), weights, c);
    }
  }

  lemma CollectedGrows(prefix: string, service: string, done: seq<Cluster>, c: Cluster, exports: Exports,
                       desired: map<string, Desired>, invalid: map<Cluster, Reason>, total: int,
                       weights: map<Cluster, int>)
    requires c in exports && weights.Keys == exports.Keys && forall b :: b in done ==> b in exports
    requires Objection(exports[c]).None? && Keyed(desired, prefix, service, Usable(done, exports) + [c])
    requires AllGenerated(desired, prefix, service, exports, weights)
    requires total == Sum(Pick(Usable(done, exports), weights)) && invalid == Rejected(done, exports)
    ensures forall b :: b in done + [c] ==> b in exports
    ensures Collected(prefix, service, done + [c], exports, weights, desired, invalid, total + weights[c])
  {
    UsableSnoc(done, c, exports, weights);
  }

  lemma CollectedRejects(prefix: string, service: string, done: seq<Cluster>, c: Cluster, exports: Exports,
                         desired: map<string, Desired>, invalid: map<Cluster, Reason>, total: int,
                         weights: map<Cluster, int>)
    requires c in exports && weights.Keys == exports.Keys && forall b :: b in done ==> b in exports
    requires Objection(exports[c]).Some? && Collected(prefix, service, done, exports, weights, desired, invalid, total)
    ensures forall b :: b in done + [c] ==> b in exports
    ensures Collected(prefix, service, done + [c], exports, weights, desired, invalid[c := Objection(exports[c]).value],
                      total)
  {
    UsableSnoc(done, c, exports, weights);
  }

  /** One turn of the first loop, for a cluster that has an export. */
  method CollectOne(prefix: string, service: string, c: Cluster, exports: Exports, desired: map<string, Desired>,
                    invalid: map<Cluster, Reason>, total: int, ghost done: seq<Cluster>, ghost done': seq<Cluster>,
                    ghost weights: map<Cluster, int>)
    returns (desired': map<string, Desired>, invalid': map<Cluster, Reason>, total': int)
    requires c in exports && c !in done && done' == done + [c]
    requires weights.Keys == exports.Keys && WeightOf(exports[c]) == weights[c]
    requires forall b :: b in done ==> b in exports
    requires Collected(prefix, service, done, exports, weights, desired, invalid, total)
    ensures forall b :: b in done' ==> b in exports
    ensures Collected(prefix, service, done', exports, weights, desired', invalid', total')
    ensures forall n :: n in desired' ==>
              (n in desired && desired'[n] == desired[n]) || fresh(desired'[n].endpoint.properties)
  {
    desired', invalid', total' := desired, invalid, total;
    if Objection(exports[c]).Some? {
      invalid' := invalid[c := Objection(exports[c]).value];
      CollectedRejects(prefix, service, done, c, exports, desired, invalid, total, weights);
    } else {
      var w;
      desired', w := CollectUsable(prefix, service, c, exports, desired, Usable(done, exports), weights);
      total' := total + w;
      CollectedGrows(prefix, service, done, c, exports, desired', invalid, total, weights);
    }
  }

  ghost predicate AllExported(clusters: seq<Cluster>, exports: Exports) {
    forall c :: c in clusters ==> c in exports
  }

  lemma NextCluster(clusters: seq<Cluster>, i: nat)
    requires i < |clusters| && Distinct(clusters)
    ensures clusters[..i + 1] == clusters[..i] + [clusters[i]]
    ensures clusters[i] !in clusters[..i] && clusters[i] in clusters
  {
  }

  /** The first loop: one desired endpoint for each usable cluster, or nothing as soon as a
      listed cluster has no export. */
  method Collect(prefix: string, service: string, clusters: seq<Cluster>, exports: Exports,
                 ghost weights: map<Cluster, int>)
    returns (ok: bool, desired: map<string, Desired>, invalid: map<Cluster, Reason>, total: int)
    requires Distinct(clusters) && Configured(weights, exports)
    ensures ok <==> AllExported(clusters, exports)
    ensures ok ==> Collected(prefix, service, clusters, exports, weights, desired, invalid, total)
    ensures ok ==> forall n :: n in desired ==> fresh(desired[n].endpoint.properties)
  {
    ok, desired, invalid, total := true, map[], map[], 0;
    for i := 0 to |clusters|
      invariant ok && AllExported(clusters[..i], exports)
      invariant Configured(weights, exports)
      invariant Collected(prefix, service, clusters[..i], exports, weights, desired, invalid, total)
      invariant forall n :: n in desired ==> fresh(desired[n].endpoint.properties)
    {
      NextCluster(clusters, i);
      if clusters[i] !in exports {
        ok := false;
        return;
      }
      desired, invalid, total := CollectOne(prefix, service, clusters[i], exports, desired, invalid, total,
                                            clusters[..i], clusters[..i + 1], weights);
    }
    assert clusters[..|clusters|] == clusters;
  }

  /** An endpoint after the second loop: its weight is its share of the backend weight, and
      everything else, the weight reported for its cluster included, is as it was. */
  ghost predicate Rescaled(d: Desired, prefix: string, service: string, x: ExportSpec, w: int, share: int)
    reads d.endpoint.properties, d.endpoint.properties.weight, d.fromCluster.weight
  {
    Described(d, prefix, service, x, w) && d.endpoint.properties.weight.value == share
  }

  /** The configured weights of the desired endpoints are in range and `total` covers them. */
  ghost predicate InRange(desired: map<string, Desired>, weights: map<Cluster, int>, total: int) {
    total <= TwoTo53 &&
    forall n :: n in desired ==>
      var c := desired[n].fromCluster.cluster;
      c in weights && 1 <= weights[c] <= 1000 && weights[c] <= total
  }

  ghost function PropertiesOf(desired: map<string, Desired>): set<Properties> {
    set n | n in desired :: desired[n].endpoint.properties
  }

  /** One turn of the second loop. */
  method RescaleOne(prefix: string, service: string, backend: int, total: int, d: Desired, fl: real -> real,
                    ghost x: ExportSpec, ghost w: int)
    requires 1 <= backend <= 1000 && 1 <= w <= 1000 && w <= total <= TwoTo53 && CorrectlyRounded(fl)
    requires Generated(d, prefix, service, x, w)
    modifies d.endpoint.properties
    ensures fresh(d.endpoint.properties.weight)
    ensures Rescaled(d, prefix, service, x, w, Share(backend, w, total))
  {
    var properties := d.endpoint.properties;
    FloatShareIsExact(fl, backend, w, total);
    var weight := new Box(FloatShare(fl, backend, properties.weight.value, total));
    properties.weight := weight;
  }

  /** Partway through the second loop: the endpoints in `left` are still as generated. */
  ghost predicate Rescaling(prefix: string, service: string, backend: int, total: int, exports: Exports,
                            desired: map<string, Desired>, weights: map<Cluster, int>, left: set<string>)
    requires weights.Keys == exports.Keys && InRange(desired, weights, total)
    reads PropertiesOf(desired)
    reads (set p | p in PropertiesOf(desired) :: p.weight)
    reads (set n | n in desired :: desired[n].fromCluster.weight)
  {
    forall n :: n in desired ==>
      var c := desired[n].fromCluster.cluster;
      if n in left then Generated(desired[n], prefix, service, exports[c], weights[c])
      else Rescaled(desired[n], prefix, service, exports[c], weights[c], Share(backend, weights[c], total))
  }

  ghost predicate Separate(desired: map<string, Desired>) {
    forall n, m :: n in desired && m in desired && n != m ==>
      desired[n].endpoint.properties != desired[m].endpoint.properties
  }

  /** One turn of the second loop, seen from the whole map. */
  method RescaleNext(prefix: string, service: string, backend: int, total: int, exports: Exports,
                     desired: map<string, Desired>, fl: real -> real, n: string,
                     ghost weights: map<Cluster, int>, ghost left: set<string>)
    requires 1 <= backend <= 1000 && CorrectlyRounded(fl) && n in desired && n in left && Separate(desired)
    requires weights.Keys == exports.Keys && InRange(desired, weights, total)
    requires Rescaling(prefix, service, backend, total, exports, desired, weights, left)
    modifies desired[n].endpoint.properties
    ensures Rescaling(prefix, service, backend, total, exports, desired, weights, left - {n})
  {
    ghost var c := desired[n].fromCluster.cluster;
    RescaleOne(prefix, service, backend, total, desired[n], fl, exports[c], weights[c]);
  }

  /** The second loop: each endpoint's weight is replaced, through the shared properties, by a
      new integer. The map is ranged over in any order. */
  method Rescale(prefix: string, service: string, backend: int, total: int, exports: Exports,
                 desired: map<string, Desired>, fl: real -> real, ghost weights: map<Cluster, int>)
    requires 1 <= backend <= 1000 && CorrectlyRounded(fl)
    requires weights.Keys == exports.Keys && AllGenerated(desired, prefix, service, exports, weights)
    requires InRange(desired, weights, total)
    modifies PropertiesOf(desired)
    ensures Rescaling(prefix, service, backend, total, exports, desired, weights, {})
  {
    var left := desired.Keys;
    while left != {}
      invariant left <= desired.Keys
      invariant Rescaling(prefix, service, backend, total, exports, desired, weights, left)
      decreases |left|
    {
      var n :| n in left;
      RescaleNext(prefix, service, backend, total, exports, desired, fl, n, weights, left);
      left := left - {n};
    }
  }

  /** The total is the sum over distinct positive weights, so it covers each of them. */
  lemma TotalInRange(desired: map<string, Desired>, prefix: string, service: string, us: seq<Cluster>,
                     weights: map<Cluster, int>)
    requires Keyed(desired, prefix, service, us)
    requires forall c :: c in us ==> c in weights && 1 <= weights[c] <= 1000
    requires |us| * 1000 <= TwoTo53
    ensures InRange(desired, weights, Sum(Pick(us, weights)))
  {
    var ws := Pick(us, weights);
    SumPositive(ws);
    SumBounded(ws, 1000);
    forall c | c in us ensures weights[c] in ws {
      var i :| 0 <= i < |us| && us[i] == c;
      assert ws[i] == weights[c];
    }
  }

  lemma {:induction false} UsableShorter(clusters: seq<Cluster>, exports: Exports)
    requires forall c :: c in clusters ==> c in exports
    ensures |Usable(clusters, exports)| <= |clusters|
  {
    if clusters != [] {
      UsableShorter(clusters[..|clusters| - 1], exports);
    }
  }

  lemma {:induction false} SharesAt(backend: int, ws: seq<int>, total: int)
    requires total > 0
    ensures |Shares(backend, ws, total)| == |ws|
    ensures forall i :: 0 <= i < |ws| ==> Shares(backend, ws, total)[i] == Share(backend, ws[i], total)
  {
    if ws != [] {
      SharesAt(backend, ws[1..], total);
    }
  }

  /** The shares, listed in the order of `us`, as the desired endpoints hold them. */
  ghost predicate Holds(desired: map<string, Desired>, prefix: string, service: string, us: seq<Cluster>,
                        shares: seq<int>)
    requires Keyed(desired, prefix, service, us)
    reads PropertiesOf(desired), set p | p in PropertiesOf(desired) :: p.weight
  {
    |shares| == |us| &&
    forall i :: 0 <= i < |us| ==>
      desired[EndpointName(prefix, service, us[i])].endpoint.properties.weight.value == shares[i]
  }

  lemma SharesHeld(prefix: string, service: string, backend: int, exports: Exports, desired: map<string, Desired>,
                   us: seq<Cluster>, weights: map<Cluster, int>) returns (shares: seq<int>)
    requires backend >= 1 && weights.Keys == exports.Keys && Keyed(desired, prefix, service, us)
    requires forall c :: c in us ==> c in weights && weights[c] >= 1
    requires InRange(desired, weights, Sum(Pick(us, weights)))
    requires Rescaling(prefix, service, backend, Sum(Pick(us, weights)), exports, desired, weights, {})
    ensures Holds(desired, prefix, service, us, shares)
    ensures us != [] ==> backend <= Sum(shares) <= backend + |us| - 1
  {
    shares := [];
    if us != [] {
      var ws := Pick(us, weights);
      AllocationTotal(backend, ws);
      SharesAt(backend, ws, Sum(ws));
      shares := Shares(backend, ws, Sum(ws));
    }
  }

  /** The whole computation. The configured weights, and the weights reported for the clusters,
      are the same integers as before, although the endpoint weights have all been replaced. */
  method Process(prefix: string, service: string, backend: int, clusters: seq<Cluster>, exports: Exports,
                 fl: real -> real, ghost weights: map<Cluster, int>)
    returns (r: Outcome, ghost shares: seq<int>)
    requires 1 <= backend <= 1000 && CorrectlyRounded(fl)
    requires Distinct(clusters) && |clusters| * 1000 <= TwoTo53
    requires Configured(weights, exports)
    requires forall c :: c in clusters && c in exports && Objection(exports[c]).None? ==> 1 <= weights[c] <= 1000
    ensures Configured(weights, exports)
    ensures r.Unknown? <==> clusters == [] || !AllExported(clusters, exports)
    ensures r.Processed? ==>
              var us := Usable(clusters, exports);
              var total := Sum(Pick(us, weights));
              && r.invalid == Rejected(clusters, exports)
              && Keyed(r.desired, prefix, service, us)
              && InRange(r.desired, weights, total)
              && Rescaling(prefix, service, backend, total, exports, r.desired, weights, {})
              && Holds(r.desired, prefix, service, us, shares)
              && (us != [] ==> backend <= Sum(shares) <= backend + |us| - 1)
  {
    r, shares := Unknown, [];
    if clusters == [] {
      return;
    }
    var ok, desired, invalid, total := Collect(prefix, service, clusters, exports, weights);
    if !ok {
      return;
    }
    ghost var us := Usable(clusters, exports);
    UsableShorter(clusters, exports);
    TotalInRange(desired, prefix, service, us, weights);
    Rescale(prefix, service, backend, total, exports, desired, fl, weights);
    shares := SharesHeld(prefix, service, backend, exports, desired, us, weights);
    r := Processed(desired, invalid);
  }

  /** A larger configured weight never gets a smaller share, and every share lies between 1 and
      the weight of the backend. */
  lemma SharesFollowWeights(backend: int, us: seq<Cluster>, weights: map<Cluster, int>, c: Cluster, d: Cluster)
    requires backend >= 1 && c in us && d in us
    requires forall b :: b in us ==> b in weights && weights[b] >= 1
    requires weights[c] <= weights[d]
    ensures var total := Sum(Pick(us, weights));
            && total >= weights[d]
            && 1 <= Share(backend, weights[c], total) <= Share(backend, weights[d], total) <= backend
  {
    var ws := Pick(us, weights);
    SumPositive(ws);
    var i :| 0 <= i < |us| && us[i] == d;
    assert ws[i] == weights[d] && ws[i] in ws;
    ShareBounds(backend, weights[c], weights[d], Sum(ws));
  }
}
