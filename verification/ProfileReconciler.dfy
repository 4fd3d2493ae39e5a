/** The profile controller's comparison and request as they are written: on objects that are
    changed in place, with the header slices sorted as a side effect. */
module ProfileReconciler {
  import opened Api
  import opened ProfileHeaders
  import opened ProfileMerge

  class Monitor {
    var interval: Option<int>
    var path: Option<string>
    var port: Option<int>
    var protocol: Option<string>
    var timeout: Option<int>
    var tolerated: Option<int>
    var headers: array<Header>
    var other: string

    constructor (d: MonitorDoc)
      ensures Doc() == d && fresh(headers)
    {
      interval, path, port, protocol := d.interval, d.path, d.port, d.protocol;
      timeout, tolerated, other := d.timeout, d.tolerated, d.other;
      headers := new Header[|d.headers|](i requires 0 <= i < |d.headers| => d.headers[i]);
      new;
      assert headers[..] == d.headers;
    }

    function Doc(): MonitorDoc
      reads this, headers
    {
      MonitorDoc(interval, path, port, protocol, timeout, tolerated, headers[..], other)
    }
  }

  class Properties {
    var dns: Option<Dns>
    var monitor: Monitor?
    var status: Option<string>
    var routing: Option<string>
    var endpoints: seq<string>
    var other: string

    constructor (d: PropertiesDoc)
      ensures Doc() == d
      ensures monitor != null ==> fresh(monitor) && fresh(monitor.headers)
    {
      dns, status, routing, endpoints, other := d.dns, d.status, d.routing, d.endpoints, d.other;
      monitor := null;
      new;
      if d.monitor.Some? {
        var m := new Monitor(d.monitor.value);
        monitor := m;
      }
    }

    function Doc(): PropertiesDoc
      reads this, monitor, if monitor == null then {} else {monitor.headers}
    {
      PropertiesDoc(dns, if monitor == null then None else Some(monitor.Doc()), status, routing, endpoints, other)
    }
  }

  class Tags {
    var entries: TagsDoc

    constructor (d: TagsDoc)
      ensures entries == d
    {
      entries := d;
    }
  }

  /** A profile in memory; copies share its properties and tags. */
  datatype Profile = Profile(id: Option<string>, location: Option<string>, properties: Properties?, tags: Tags?) {
    ghost function Parts(): set<object>
      reads properties
      reads if properties == null then null else properties.monitor
    {
      var ps: set<object> := if properties == null then {} else {properties};
      var ms: set<object> :=
        if properties == null || properties.monitor == null then {}
        else var m: Monitor := properties.monitor; {m, m.headers};
      var ts: set<object> := if tags == null then {} else {tags};
      ps + ms + ts
    }

    ghost function Headers(): set<object>
      reads properties
      reads if properties == null then null else properties.monitor
    {
      if properties == null || properties.monitor == null then {} else {properties.monitor.headers}
    }

    function Doc(): ProfileDoc
      reads Parts()
    {
      ProfileDoc(id, location, if properties == null then None else Some(properties.Doc()),
                 if tags == null then None else Some(tags.entries))
    }
  }

  /** A profile as it arrives in an answer of Azure, or as the controller generates it. */
  method Materialize(d: ProfileDoc) returns (x: Profile)
    ensures fresh(x.Parts()) && x.Doc() == d
  {
    var properties: Properties?, tags: Tags? := null, null;
    if d.properties.Some? {
      properties := new Properties(d.properties.value);
    }
    if d.tags.Some? {
      tags := new Tags(d.tags.value);
    }
    x := Profile(d.id, d.location, properties, tags);
  }

  method Both(c: ProfileDoc, d: ProfileDoc) returns (current: Profile, desired: Profile)
    ensures fresh(current.Parts()) && fresh(desired.Parts()) && current.Parts() !! desired.Parts()
    ensures current.Doc() == c && desired.Doc() == d
  {
    current := Materialize(c);
    desired := Materialize(d);
  }

  // ----- the request -----

  method ResetMonitor(current: Monitor, desired: Monitor)
    requires current != desired
    modifies current
    ensures current.Doc() == MergeMonitor(Some(old(current.Doc())), desired.Doc())
  {
    current.interval := desired.interval;
    current.path := desired.path;
    current.port := desired.port;
    current.protocol := desired.protocol;
    current.timeout := desired.timeout;
    current.tolerated := desired.tolerated;
    current.headers := desired.headers;
  }

  method ResetProperties(current: Properties, desired: Properties)
    requires desired.monitor != null && current != desired && current.monitor != desired.monitor
    modifies current, current.monitor
    ensures current.Doc() == MergeProperties(Some(old(current.Doc())), old(desired.Doc()))
  {
    current.dns := desired.dns;
    if current.monitor == null {
      current.monitor := desired.monitor;
    } else {
      ResetMonitor(current.monitor, desired.monitor);
    }
    current.status := desired.status;
    current.routing := desired.routing;
  }

  lemma OneMoreTag(before: TagsDoc, desired: TagsDoc, left: set<string>, key: string)
    requires key in left && left <= desired.Keys
    ensures (before + (desired - left))[key := desired[key]] == before + (desired - (left - {key}))
  {
  }

  /** Setting the desired tags one by one, in any order. */
  method ResetTags(current: Tags, desired: Tags)
    requires current != desired
    modifies current
    ensures current.entries == MergeTags(Some(old(current.entries)), desired.entries)
  {
    var left := desired.entries.Keys;
    while left != {}
      invariant left <= desired.entries.Keys
      invariant current.entries == old(current.entries) + (desired.entries - left)
      decreases |left|
    {
      var key :| key in left;
      OneMoreTag(old(current.entries), desired.entries, left, key);
      current.entries := current.entries[key := desired.entries[key]];
      left := left - {key};
    }
    assert left == {} && desired.entries - left == desired.entries;
  }

  /** The current profile, changed in place into the request. */
  method BuildRequest(current: Profile, desired: Profile) returns (r: Profile)
    requires current.Parts() !! desired.Parts() && Full(desired.Doc())
    modifies current.Parts()
    ensures r.Doc() == Merge(old(current.Doc()), old(desired.Doc()))
    ensures desired.Doc() == old(desired.Doc())
  {
    var properties, tags := current.properties, current.tags;
    if properties == null {
      properties := desired.properties;
    } else {
      ResetProperties(properties, desired.properties);
    }
    if tags == null {
      tags := desired.tags;
    } else {
      ResetTags(tags, desired.tags);
    }
    r := Profile(current.id, desired.location, properties, tags);
  }

  // ----- the comparison -----

  method MonitorEqual(current: Monitor, desired: Monitor) returns (equal: bool)
    requires current != desired && current.headers != desired.headers && FullMonitor(desired.Doc())
    modifies current.headers, desired.headers
    ensures equal == SameMonitor(old(current.Doc()), old(desired.Doc()))
    ensures Sorted(current.headers[..]) == old(Sorted(current.headers[..]))
    ensures Sorted(desired.headers[..]) == old(Sorted(desired.headers[..]))
  {
    if current.interval.None? || current.path.None? || current.port.None? || current.protocol.None? ||
       current.timeout.None? || current.tolerated.None? {
      return false;
    }
    if current.interval != desired.interval || current.path != desired.path || current.port != desired.port ||
       current.protocol != desired.protocol || current.timeout != desired.timeout ||
       current.tolerated != desired.tolerated {
      return false;
    }
    SameSortedIff(current.headers[..], desired.headers[..]);
    SortedTwice(current.headers[..]);
    SortedTwice(desired.headers[..]);
    equal := HeadersEqual(current.headers, desired.headers);
  }

  method TagsExist(current: Tags?, desired: Tags) returns (exist: bool)
    ensures exist == TagsThere(if current == null then None else Some(current.entries), desired.entries)
  {
    if current == null {
      return false;
    }
    var left := desired.entries.Keys;
    while left != {}
      invariant left <= desired.entries.Keys
      invariant forall key :: key in desired.entries && key !in left ==>
                  TagThere(current.entries, desired.entries, key)
      decreases |left|
    {
      var key :| key in left;
      left := left - {key};
      var value, currentValue := desired.entries[key], TagValue(current.entries, key);
      if (value.None? && currentValue.Some?) || (value.Some? && currentValue.None?) ||
         (currentValue.None? || currentValue.value != value.value) {
        return false;
      }
    }
    return true;
  }

  /** The comparison as it is made. */
  method ProfileEqual(current: Profile, desired: Profile) returns (equal: bool)
    requires current.Parts() !! desired.Parts() && Full(desired.Doc())
    modifies current.Headers(), desired.Headers()
    ensures equal == EqualDoc(old(current.Doc()), old(desired.Doc()))
    ensures Reordered(current.Doc(), old(current.Doc())) && Reordered(desired.Doc(), old(desired.Doc()))
    ensures current.Parts() == old(current.Parts()) && desired.Parts() == old(desired.Parts())
  {
    var p, q := current.properties, desired.properties;
    ghost var c, d := current.Doc(), desired.Doc();
    equal := false;
    if p != null && p.monitor != null && p.status.Some? && p.routing.Some? && p.dns.Some? {
      var same := MonitorEqual(p.monitor, q.monitor);
      assert same == SameMonitor(c.properties.value.monitor.value, d.properties.value.monitor.value);
      if same && p.status == q.status && p.routing == q.routing && p.dns.value.ttl == q.dns.value.ttl {
        equal := TagsExist(current.tags, desired.tags);
      }
    }
  }

  // ----- defaults and the desired profile -----

  class Spec {
    var monitor: Monitor?

    constructor ()
      ensures monitor == null
    {
      monitor := null;
    }
  }

  const NoMonitor := MonitorDoc(None, None, None, None, None, None, [], "")

  method SetDefaults(spec: Spec)
    modifies spec, spec.monitor
    ensures spec.monitor != null
    ensures old(spec.monitor) == null ==> fresh(spec.monitor) && spec.monitor.Doc() == Defaulted(NoMonitor)
    ensures old(spec.monitor) != null ==>
              spec.monitor == old(spec.monitor) && spec.monitor.Doc() == Defaulted(old(spec.monitor.Doc()))
  {
    if spec.monitor == null {
      spec.monitor := new Monitor(NoMonitor);
    }
    FillIn(spec.monitor);
  }

  method FillIn(m: Monitor)
    modifies m
    ensures m.Doc() == Defaulted(old(m.Doc()))
  {
    if m.interval.None? {
      m.interval := Some(30);
    }
    if m.path.None? {
      m.path := Some("/");
    }
    if m.port.None? {
      m.port := Some(80);
    }
    if m.protocol.None? {
      m.protocol := Some("HTTP");
    }
    if m.timeout.None? {
      if m.interval.value == 30 {
        m.timeout := Some(10);
      } else if m.interval.value == 10 {
        m.timeout := Some(9);
      }
    }
    if m.tolerated.None? {
      m.tolerated := Some(3);
    }
  }

  // ----- the reconcile -----

  /** Azure stores what it is sent; it gives the profile an ID and a full domain name. */
  predicate Stores(stored: ProfileDoc, sent: ProfileDoc) {
    && stored.tags == sent.tags
    && stored.properties.Some? && sent.properties.Some?
    && var p, q := stored.properties.value, sent.properties.value;
       && p.dns.Some? && q.dns.Some? && p.dns.value.ttl == q.dns.value.ttl
       && p.monitor == q.monitor && p.status == q.status && p.routing == q.routing
       && p.endpoints == q.endpoints && p.other == q.other
  }

  lemma StoredPasses(stored: ProfileDoc, sent: ProfileDoc, d: ProfileDoc)
    requires Full(d) && EqualDoc(sent, d) && Stores(stored, sent)
    ensures EqualDoc(stored, d)
  {
  }

  /** The Azure profile, if there is one, and how many writes were carried out. */
  class AzureProfile {
    var doc: Option<ProfileDoc>
    var writes: nat

    method CreateOrUpdate(sent: ProfileDoc) returns (ok: bool)
      requires sent.properties.Some? && sent.properties.value.dns.Some?
      modifies this
      ensures writes == old(writes) ==> doc == old(doc) && !ok
      ensures writes != old(writes) ==> writes == old(writes) + 1 && doc.Some? && Stores(doc.value, sent)
    {
      ok := *;
      var applied: bool := *;
      if ok || applied {
        var stored: ProfileDoc := *;
        if !Stores(stored, sent) {
          stored := sent;
        }
        doc, writes := Some(stored), writes + 1;
      }
    }
  }

  /** What a write keeps of the profile that was there. */
  predicate Unmanaged(before: ProfileDoc, after: ProfileDoc, d: ProfileDoc)
    requires d.tags.Some?
  {
    && (before.properties.Some? ==>
          && after.properties.Some?
          && after.properties.value.endpoints == before.properties.value.endpoints
          && after.properties.value.other == before.properties.value.other)
    && (before.tags.Some? ==>
          after.tags.Some? && forall key :: key in before.tags.value && key !in d.tags.value ==>
            key in after.tags.value && after.tags.value[key] == before.tags.value[key])
  }

  lemma RequestIsRight(c: ProfileDoc, c': ProfileDoc, d: ProfileDoc, d': ProfileDoc)
    requires Full(d) && Reordered(c', c) && Reordered(d', d)
    requires forall key :: key in d.tags.value ==> d.tags.value[key].Some?
    ensures Full(d') && EqualDoc(Merge(c', d'), d) && Unmanaged(c, Merge(c', d'), d)
  {
    ReorderingIsHarmless(c, c', d, d', Merge(c', d'));
    MergePassesIff(c', d');
    MergeKeepsUnmanaged(c', d');
    assert WithHeaders(c', []) == WithHeaders(c, []);
  }

  /** The request that updates an existing profile, or none. */
  method PrepareUpdate(current: ProfileDoc, desired: ProfileDoc) returns (needed: bool, sent: ProfileDoc)
    requires Full(desired) && forall key :: key in desired.tags.value ==> desired.tags.value[key].Some?
    ensures needed <==> !EqualDoc(current, desired)
    ensures needed ==> EqualDoc(sent, desired) && Unmanaged(current, sent, desired)
  {
    var have, want := Both(current, desired);
    var equal := ProfileEqual(have, want);
    sent := desired;
    if !equal {
      ghost var c, d := have.Doc(), want.Doc();
      RequestIsRight(current, c, desired, d);
      var request := BuildRequest(have, want);
      sent := request.Doc();
    }
    needed := !equal;
  }

  /** Whether a profile has to be written, which it has exactly if the request would change more
      than its location, DNS names and the order of headers; and what is sent then: something
      that passes the comparison and keeps what is not managed. */
  method Prepare(current: Option<ProfileDoc>, desired: ProfileDoc) returns (needed: bool, sent: ProfileDoc)
    requires Full(desired) && forall key :: key in desired.tags.value ==> desired.tags.value[key].Some?
    ensures needed <==> !(current.Some? && EqualDoc(current.value, desired))
    ensures needed <==> current.None? || Essence(Merge(current.value, desired)) != Essence(current.value)
    ensures needed ==> EqualDoc(sent, desired)
    ensures needed && current.Some? ==> Unmanaged(current.value, sent, desired)
  {
    if current.None? {
      MergePassesIff(desired, desired);
      return true, desired;
    }
    EqualIffNothingToChange(current.value, desired);
    needed, sent := PrepareUpdate(current.value, desired);
  }

  /** The profile object, as far as the reconcile writes it. */
  class ProfileObject {
    var finalizer: bool

    method WriteFinalizer() returns (ok: bool)
      modifies this
      ensures old(finalizer) ==> finalizer
      ensures ok ==> finalizer
    {
      ok := *;
      var applied: bool := *;
      if ok || applied {
        finalizer := true;
      }
    }

    /** The status is not modelled, but writing it may fail. */
    method WriteStatus() returns (ok: bool)
    {
      ok := *;
    }
  }

  /** One reconcile of a defaulted profile object. A profile that passes the comparison is not
      written; one that is written passes it, and keeps what is not managed. So after a write
      the next reconcile writes nothing. And nothing is written before the object has its
      finalizer. */
  method HandleUpdate(profile: ProfileObject, azure: AzureProfile, ns: string, name: string, m: MonitorDoc)
    returns (ok: bool)
    requires Full(Generated(ns, name, m))
    modifies profile, azure
    ensures old(profile.finalizer) ==> profile.finalizer
    ensures azure.writes != old(azure.writes) ==> profile.finalizer
    ensures var d := Generated(ns, name, m);
            && (old(azure.doc).Some? && EqualDoc(old(azure.doc).value, d) ==>
                  azure.writes == old(azure.writes) && profile.finalizer == old(profile.finalizer))
            && (azure.writes == old(azure.writes) ==> azure.doc == old(azure.doc))
            && (azure.writes != old(azure.writes) ==>
                  && azure.writes == old(azure.writes) + 1
                  && azure.doc.Some? && EqualDoc(azure.doc.value, d)
                  && (old(azure.doc).Some? ==> Unmanaged(old(azure.doc).value, azure.doc.value, d)))
  {
    var readable: bool := *;
    if !readable {
      return false;
    }
    var needed, sent := Prepare(azure.doc, Generated(ns, name, m));
    ok := true;
    if needed {
      if !profile.finalizer {
        ok := profile.WriteFinalizer();
        if !ok {
          return;
        }
      }
      ok := azure.CreateOrUpdate(sent);
      if azure.writes != old(azure.writes) {
        StoredPasses(azure.doc.value, sent, Generated(ns, name, m));
      }
    }
    var told := profile.WriteStatus();
    ok := ok && told;
  }
}
