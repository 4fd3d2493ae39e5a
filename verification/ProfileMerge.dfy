/** Comparing an Azure Traffic Manager profile with the desired one, and building the request that
    brings it in line, on profiles as values. */
module ProfileMerge {
  import opened Api
  import opened ProfileHeaders

  // ----- profiles as values -----

  /** `other` stands for everything the controller does not manage. */
  datatype MonitorDoc = MonitorDoc(
    interval: Option<int>, path: Option<string>, port: Option<int>, protocol: Option<string>,
    timeout: Option<int>, tolerated: Option<int>, headers: seq<Header>, other: string)

  datatype Dns = Dns(relativeName: Option<string>, ttl: Option<int>, fqdn: Option<string>)

  datatype PropertiesDoc = PropertiesDoc(
    dns: Option<Dns>, monitor: Option<MonitorDoc>, status: Option<string>, routing: Option<string>,
    endpoints: seq<string>, other: string)

  type TagsDoc = map<string, Option<string>>

  datatype ProfileDoc = ProfileDoc(
    id: Option<string>, location: Option<string>, properties: Option<PropertiesDoc>, tags: Option<TagsDoc>)

  predicate FullMonitor(m: MonitorDoc) {
    m.interval.Some? && m.path.Some? && m.port.Some? && m.protocol.Some? && m.timeout.Some? && m.tolerated.Some?
  }

  predicate HasRequired(d: ProfileDoc) {
    && d.properties.Some?
    && var p := d.properties.value;
       p.monitor.Some? && p.status.Some? && p.routing.Some? && p.dns.Some?
  }

  /** What the comparison relies on in a desired profile. */
  predicate Full(d: ProfileDoc) {
    && HasRequired(d) && d.tags.Some?
    && FullMonitor(d.properties.value.monitor.value) && d.properties.value.dns.value.ttl.Some?
  }

  /** The managed monitor fields, apart from the headers. */
  predicate SameProbe(c: MonitorDoc, d: MonitorDoc) {
    && c.interval == d.interval && c.path == d.path && c.port == d.port && c.protocol == d.protocol
    && c.timeout == d.timeout && c.tolerated == d.tolerated
  }

  predicate SameMonitor(c: MonitorDoc, d: MonitorDoc)
    requires FullMonitor(d)
  {
    SameProbe(c, d) && Sorted(c.headers) == Sorted(d.headers)
  }

  /** Looking a tag up: an absent tag and one without a value are the same. */
  function TagValue(tags: TagsDoc, key: string): Option<string> {
    if key in tags then tags[key] else None
  }

  /** A desired tag without a value is never there. */
  predicate TagThere(current: TagsDoc, desired: TagsDoc, key: string)
    requires key in desired
  {
    desired[key].Some? && TagValue(current, key) == desired[key]
  }

  predicate TagsThere(current: Option<TagsDoc>, desired: TagsDoc) {
    current.Some? && forall key :: key in desired ==> TagThere(current.value, desired, key)
  }

  /** The comparison: the managed fields, the headers in any order, the desired tags among the
      current ones. */
  predicate EqualDoc(c: ProfileDoc, d: ProfileDoc)
    requires Full(d)
  {
    && HasRequired(c)
    && var p, q := c.properties.value, d.properties.value;
       && SameMonitor(p.monitor.value, q.monitor.value)
       && p.status == q.status && p.routing == q.routing
       && p.dns.value.ttl == q.dns.value.ttl
       && TagsThere(c.tags, d.tags.value)
  }

  function MergeMonitor(c: Option<MonitorDoc>, d: MonitorDoc): MonitorDoc {
    if c.None? then d else d.(other := c.value.other)
  }

  function MergeProperties(c: Option<PropertiesDoc>, d: PropertiesDoc): PropertiesDoc
    requires d.monitor.Some?
  {
    if c.None? then d
    else PropertiesDoc(d.dns, Some(MergeMonitor(c.value.monitor, d.monitor.value)), d.status, d.routing,
                       c.value.endpoints, c.value.other)
  }

  function MergeTags(c: Option<TagsDoc>, d: TagsDoc): TagsDoc {
    if c.None? then d else c.value + d
  }

  /** The request: the current profile with the managed fields reset. */
  function Merge(c: ProfileDoc, d: ProfileDoc): ProfileDoc
    requires Full(d)
  {
    ProfileDoc(c.id, d.location, Some(MergeProperties(c.properties, d.properties.value)),
               Some(MergeTags(c.tags, d.tags.value)))
  }

  /** The request passes the comparison, whatever the current profile is, if and only if every
      desired tag has a value. */
  lemma MergePassesIff(c: ProfileDoc, d: ProfileDoc)
    requires Full(d)
    ensures EqualDoc(Merge(c, d), d) <==> forall key :: key in d.tags.value ==> d.tags.value[key].Some?
  {
    var tags := d.tags.value;
    assert forall key :: key in tags ==> TagValue(MergeTags(c.tags, tags), key) == tags[key];
    if EqualDoc(Merge(c, d), d) {
      forall key | key in tags ensures tags[key].Some? {
        assert TagThere(Merge(c, d).tags.value, tags, key);
      }
    }
  }

  /** And it keeps everything that is not managed: endpoints, other properties, other tags. */
  lemma MergeKeepsUnmanaged(c: ProfileDoc, d: ProfileDoc)
    requires Full(d)
    ensures var r := Merge(c, d);
            && r.id == c.id
            && (c.properties.Some? ==>
                  && r.properties.value.endpoints == c.properties.value.endpoints
                  && r.properties.value.other == c.properties.value.other
                  && (c.properties.value.monitor.Some? ==>
                        r.properties.value.monitor.value.other == c.properties.value.monitor.value.other))
            && (c.tags.Some? ==> forall key :: key !in d.tags.value ==>
                  (key in r.tags.value <==> key in c.tags.value) &&
                  TagValue(r.tags.value, key) == TagValue(c.tags.value, key))
  {
  }

  /** What the request says of the managed fields is what is desired. */
  lemma MergeCarriesDesired(c: ProfileDoc, d: ProfileDoc)
    requires Full(d)
    ensures var r := Merge(c, d);
            && r.location == d.location && r.properties.Some? && r.tags.Some?
            && (forall key :: key in d.tags.value ==> key in r.tags.value && r.tags.value[key] == d.tags.value[key])
            && var p, q := r.properties.value, d.properties.value;
               && p.status == q.status && p.routing == q.routing && p.dns == q.dns && p.monitor.Some?
               && var m, n := p.monitor.value, q.monitor.value;
                  && m.interval == n.interval && m.path == n.path && m.port == n.port && m.protocol == n.protocol
                  && m.timeout == n.timeout && m.tolerated == n.tolerated && m.headers == n.headers
  {
  }

  /** A profile but for what the comparison passes over: the location, the DNS names and the
      order of the headers. */
  function Essence(d: ProfileDoc): ProfileDoc {
    d.(location := None,
       properties :=
         if d.properties.None? then None
         else
           var p := d.properties.value;
           Some(p.(dns := if p.dns.None? then None else Some(Dns(None, p.dns.value.ttl, None)),
                   monitor := if p.monitor.None? then None
                              else Some(p.monitor.value.(headers := Sorted(p.monitor.value.headers))))))
  }

  lemma OverridesNothing(a: TagsDoc, b: TagsDoc)
    ensures a == a + b <==> forall key :: key in b ==> key in a && a[key] == b[key]
  {
    if a == a + b {
      assert forall key :: key in b ==> (a + b)[key] == b[key];
    }
  }

  lemma TagsThereIff(c: Option<TagsDoc>, d: TagsDoc)
    ensures TagsThere(c, d) <==> c == Some(MergeTags(c, d)) && forall key :: key in d ==> d[key].Some?
  {
    if c.Some? {
      OverridesNothing(c.value, d);
      assert forall key :: key in d ==>
               (TagThere(c.value, d, key) <==> d[key].Some? && key in c.value && c.value[key] == d[key]);
    }
  }

  /** The comparison is exact: it holds if and only if the request would change nothing but what
      it passes over, and every desired tag has a value. */
  lemma EqualIffNothingToChange(c: ProfileDoc, d: ProfileDoc)
    requires Full(d)
    ensures EqualDoc(c, d) <==>
            && Essence(Merge(c, d)) == Essence(c)
            && forall key :: key in d.tags.value ==> d.tags.value[key].Some?
  {
    TagsThereIff(c.tags, d.tags.value);
    var r := Merge(c, d);
    MergeCarriesDesired(c, d);
    if HasRequired(c) {
      var p, q := c.properties.value, r.properties.value;
      assert Essence(r).properties == Essence(c).properties <==>
             && SameMonitor(p.monitor.value, d.properties.value.monitor.value)
             && p.status == q.status && p.routing == q.routing && p.dns.value.ttl == q.dns.value.ttl;
    }
  }

  lemma MergeTwice(c: ProfileDoc, d: ProfileDoc)
    requires Full(d)
    ensures Merge(Merge(c, d), d) == Merge(c, d)
  {
    var tags := d.tags.value;
    assert MergeTags(c.tags, tags) + tags == MergeTags(c.tags, tags);
  }

  // ----- sorting as a side effect -----

  function HeadersOf(d: ProfileDoc): seq<Header> {
    if d.properties.Some? && d.properties.value.monitor.Some? then d.properties.value.monitor.value.headers else []
  }

  function WithHeaders(d: ProfileDoc, h: seq<Header>): ProfileDoc {
    if d.properties.Some? && d.properties.value.monitor.Some? then
      d.(properties := Some(d.properties.value.(monitor := Some(d.properties.value.monitor.value.(headers := h)))))
    else d
  }

  /** `a` is `b`, except that the comparison may have sorted its headers. */
  predicate Reordered(a: ProfileDoc, b: ProfileDoc) {
    WithHeaders(a, []) == WithHeaders(b, []) && Sorted(HeadersOf(a)) == Sorted(HeadersOf(b))
  }

  /** The side effect matters neither to the request nor to the next comparison. */
  lemma ReorderingIsHarmless(c: ProfileDoc, c': ProfileDoc, d: ProfileDoc, d': ProfileDoc, x: ProfileDoc)
    requires Full(d) && Reordered(c', c) && Reordered(d', d)
    ensures Full(d')
    ensures Merge(c', d') == Merge(c, d')
    ensures EqualDoc(x, d') <==> EqualDoc(x, d)
  {
    var m, m' := d.properties.value.monitor.value, d'.properties.value.monitor.value;
    assert m'.(headers := []) == m.(headers := []);
    assert WithHeaders(c', []) == WithHeaders(c, []);
    assert c'.properties.Some? && c'.properties.value.monitor.Some? ==>
             c'.properties.value.monitor.value.other == c.properties.value.monitor.value.other;
    assert MergeProperties(c'.properties, d'.properties.value) == MergeProperties(c.properties, d'.properties.value);
  }

  // ----- defaults -----

  function Or<T>(o: Option<T>, v: T): Option<T> {
    if o.None? then Some(v) else o
  }

  /** The defaults. The timeout has one only for the two known intervals. */
  function Defaulted(m: MonitorDoc): MonitorDoc {
    var interval := Or(m.interval, 30);
    m.(interval := interval, path := Or(m.path, "/"), port := Or(m.port, 80), protocol := Or(m.protocol, "HTTP"),
       timeout := if m.timeout.Some? then m.timeout
                  else if interval == Some(30) then Some(10)
                  else if interval == Some(10) then Some(9)
                  else None,
       tolerated := Or(m.tolerated, 3))
  }

  /** The values they stand for. What is given stays. */
  lemma DefaultValues(m: MonitorDoc)
    ensures var r := Defaulted(m);
            && r.interval == Some(if m.interval.Some? then m.interval.value else 30)
            && r.path == Some(if m.path.Some? then m.path.value else "/")
            && r.port == Some(if m.port.Some? then m.port.value else 80)
            && r.protocol == Some(if m.protocol.Some? then m.protocol.value else "HTTP")
            && r.tolerated == Some(if m.tolerated.Some? then m.tolerated.value else 3)
            && r.headers == m.headers && r.other == m.other
            && (m.timeout.Some? ==> r.timeout == m.timeout)
            && (m.timeout.None? && m.interval in {None, Some(30)} ==> r.timeout == Some(10))
            && (m.timeout.None? && m.interval == Some(10) ==> r.timeout == Some(9))
            && (m.timeout.None? && m.interval !in {None, Some(10), Some(30)} ==> r.timeout.None?)
            && Defaulted(r) == r
  {
  }

  const TagKey := "networking.fleet.azure.com.trafficManagerProfile"

  function Generated(ns: string, name: string, m: MonitorDoc): ProfileDoc {
    ProfileDoc(
      None, Some("global"),
      Some(PropertiesDoc(Some(Dns(Some(ns + "-" + name), Some(60), None)), Some(m), Some("Enabled"), Some("Weighted"),
                         [], "")),
      Some(map[TagKey := Some(ns + "/" + name)]))
  }

  /** What the profile is generated with: enabled, routing by weight, a DNS name and a tag that
      say which object it belongs to, and the monitor as it is. */
  lemma GeneratedContents(ns: string, name: string, m: MonitorDoc)
    ensures var r := Generated(ns, name, m);
            && r.id.None? && r.location == Some("global") && r.tags.Some? && r.properties.Some?
            && r.tags.value.Keys == {"networking.fleet.azure.com.trafficManagerProfile"}
            && r.tags.value[TagKey] == Some(ns + "/" + name)
            && var p := r.properties.value;
               && p.status == Some("Enabled") && p.routing == Some("Weighted") && p.monitor == Some(m)
               && p.dns == Some(Dns(Some(ns + "-" + name), Some(60), None)) && p.endpoints == []
  {
  }

  /** The generated profile has all the comparison relies on if and only if the timeout is given
      or the interval is one that has a default for it. */
  lemma GeneratedIsFullIff(ns: string, name: string, m: MonitorDoc)
    ensures Full(Generated(ns, name, Defaulted(m))) <==>
            m.timeout.Some? || m.interval in {None, Some(30), Some(10)}
  {
  }

  /** So a request built for a defaulted profile always passes. */
  lemma RequestPasses(c: ProfileDoc, ns: string, name: string, m: MonitorDoc)
    requires m.timeout.Some? || m.interval in {None, Some(30), Some(10)}
    ensures Full(Generated(ns, name, Defaulted(m)))
    ensures EqualDoc(Merge(c, Generated(ns, name, Defaulted(m))), Generated(ns, name, Defaulted(m)))
  {
    GeneratedIsFullIff(ns, name, m);
    MergePassesIff(c, Generated(ns, name, Defaulted(m)));
  }
}
