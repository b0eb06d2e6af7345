/**
 Pair scoring and candidate pruning (backend/app/services/correlation_engine.py, lines 19-67).
 */
module Correlation {
  import opened Base
  import opened Config

  /** The keys of an event's JSON payload that correlation and risk scoring read. */
  datatype Payload = Payload(
    deviceId: Option<string>,
    destinationIp: Option<string>,
    sensitiveResource: bool,
    privileged: bool,
    eventType: Option<string>,
    resource: Option<string>)

  datatype Event = Event(
    id: string,
    tenant: string,
    timestamp: int,
    source: string,
    user: Option<string>,
    host: Option<string>,
    sourceIp: Option<string>,
    data: Payload)

  ghost predicate UniqueIds(events: seq<Event>) {
    forall i, j :: 0 <= i < j < |events| ==> events[i].id != events[j].id
  }

  function Elements<T>(s: seq<T>): set<T> {
    set x | x in s
  }

  // ---- Scoring ----------------------------------------------------------------------------

  function Gap(left: Event, right: Event): int {
    if left.timestamp >= right.timestamp then left.timestamp - right.timestamp
    else right.timestamp - left.timestamp
  }

  /** Equal and present: an absent or empty value is never shared. */
  predicate Shared(x: Option<string>, y: Option<string>) {
    Truthy(x) && x == y
  }

  /** The source and destination addresses that are present; unlike `Shared`, this keeps the empty string. */
  function Addresses(e: Event): set<string> {
    (if e.sourceIp.Some? then {e.sourceIp.value} else {})
    + (if e.data.destinationIp.Some? then {e.data.destinationIp.value} else {})
  }

  predicate AddressesOverlap(left: Event, right: Event) {
    Addresses(left) * Addresses(right) != {}
  }

  function ConnectionScore(cfg: Settings, left: Event, right: Event): int {
    var gap := Gap(left, right);
    if gap > cfg.correlationWindowMinutes * MINUTE then 0
    else
      (if Shared(left.user, right.user) then 4 else 0)
      + (if Shared(left.host, right.host) then 4 else 0)
      + (if Shared(left.data.deviceId, right.data.deviceId) then 3 else 0)
      + (if Shared(left.sourceIp, right.sourceIp) then 3 else 0)
      + (if AddressesOverlap(left, right) then 2 else 0)
      + (if gap <= 900 * SECOND then 3 else 1)
  }

  lemma ConnectionScoreSymmetric(cfg: Settings, left: Event, right: Event)
    ensures ConnectionScore(cfg, left, right) == ConnectionScore(cfg, right, left)
  {
  }

  // ---- Candidate pairs --------------------------------------------------------------------

  /** A bucket key; the constructor stands for the string prefix `u:`, `h:`, `s:`, `d:` or `ip:`. */
  datatype Anchor = UserKey(u: string) | HostKey(h: string) | SourceKey(s: string)
                  | DeviceKey(d: string) | DestinationKey(ip: string)

  function KeyOf(value: Option<string>, make: string -> Anchor): seq<Anchor> {
    if Truthy(value) then [make(value.value)] else []
  }

  function Anchors(e: Event): seq<Anchor> {
    KeyOf(e.user, v => UserKey(v))
    + KeyOf(e.host, v => HostKey(v))
    + KeyOf(e.sourceIp, v => SourceKey(v))
    + KeyOf(e.data.deviceId, v => DeviceKey(v))
    + KeyOf(e.data.destinationIp, v => DestinationKey(v))
  }

  /** What it means for an event to be filed under a key. */
  ghost predicate HasAnchor(e: Event, k: Anchor) {
    match k
    case UserKey(v) => v != "" && e.user == Some(v)
    case HostKey(v) => v != "" && e.host == Some(v)
    case SourceKey(v) => v != "" && e.sourceIp == Some(v)
    case DeviceKey(v) => v != "" && e.data.deviceId == Some(v)
    case DestinationKey(v) => v != "" && e.data.destinationIp == Some(v)
  }

  lemma AnchorsComplete(e: Event)
    ensures forall k :: k in Anchors(e) <==> HasAnchor(e, k)
    ensures forall i, j :: 0 <= i < j < |Anchors(e)| ==> Anchors(e)[i] != Anchors(e)[j]
  {
    forall k ensures k in Anchors(e) <==> HasAnchor(e, k) {
      var u := KeyOf(e.user, v => UserKey(v));
      var h := KeyOf(e.host, v => HostKey(v));
      var s := KeyOf(e.sourceIp, v => SourceKey(v));
      var d := KeyOf(e.data.deviceId, v => DeviceKey(v));
      var i := KeyOf(e.data.destinationIp, v => DestinationKey(v));
      assert k in Anchors(e) <==> k in u || k in h || k in s || k in d || k in i;
    }
    AnchorsDistinct(e);
  }

  function Prefix(k: Anchor): nat {
    match k
    case UserKey(_) => 0
    case HostKey(_) => 1
    case SourceKey(_) => 2
    case DeviceKey(_) => 3
    case DestinationKey(_) => 4
  }

  /** The prefixes occur in order, each at most once, and are all below `n`. */
  ghost predicate PrefixesAscend(keys: seq<Anchor>, n: nat) {
    && (forall i :: 0 <= i < |keys| ==> Prefix(keys[i]) < n)
    && forall i, j :: 0 <= i < j < |keys| ==> Prefix(keys[i]) < Prefix(keys[j])
  }

  lemma AppendNextPrefix(keys: seq<Anchor>, n: nat, more: seq<Anchor>)
    requires PrefixesAscend(keys, n) && |more| <= 1 && forall k :: k in more ==> Prefix(k) == n
    ensures PrefixesAscend(keys + more, n + 1)
  {
  }

  lemma AnchorsDistinct(e: Event)
    ensures forall i, j :: 0 <= i < j < |Anchors(e)| ==> Anchors(e)[i] != Anchors(e)[j]
  {
    var u := KeyOf(e.user, v => UserKey(v));
    var h := KeyOf(e.host, v => HostKey(v));
    var s := KeyOf(e.sourceIp, v => SourceKey(v));
    var d := KeyOf(e.data.deviceId, v => DeviceKey(v));
    AppendNextPrefix(u, 1, h);
    AppendNextPrefix(u + h, 2, s);
    AppendNextPrefix(u + h + s, 3, d);
    AppendNextPrefix(u + h + s + d, 4, KeyOf(e.data.destinationIp, v => DestinationKey(v)));
    assert PrefixesAscend(Anchors(e), 5);
  }

  /** The two events have a user, host, source IP, device or destination IP in common. */
  ghost predicate Anchored(a: Event, b: Event) {
    exists k :: HasAnchor(a, k) && HasAnchor(b, k)
  }

  lemma AnchoredMeaning(a: Event, b: Event)
    ensures Anchored(a, b) <==>
            || Shared(a.user, b.user)
            || Shared(a.host, b.host)
            || Shared(a.sourceIp, b.sourceIp)
            || Shared(a.data.deviceId, b.data.deviceId)
            || Shared(a.data.destinationIp, b.data.destinationIp)
  {
    if Shared(a.user, b.user) { assert HasAnchor(a, UserKey(a.user.value)); }
    if Shared(a.host, b.host) { assert HasAnchor(a, HostKey(a.host.value)); }
    if Shared(a.sourceIp, b.sourceIp) { assert HasAnchor(a, SourceKey(a.sourceIp.value)); }
    if Shared(a.data.deviceId, b.data.deviceId) { assert HasAnchor(a, DeviceKey(a.data.deviceId.value)); }
    if Shared(a.data.destinationIp, b.data.destinationIp) {
      assert HasAnchor(a, DestinationKey(a.data.destinationIp.value));
    }
  }

  /** The two ids, the smaller first. */
  function OrderedPair(a: string, b: string): (string, string) {
    if LessEq(a, b) then (a, b) else (b, a)
  }

  /** The bucket of `k` once `events` have been distributed. */
  ghost function Bucket(events: seq<Event>, k: Anchor): seq<Event> {
    Filter(events, e => HasAnchor(e, k))
  }

  ghost predicate PairOfAnchored(events: seq<Event>, p: (string, string)) {
    exists i, j :: 0 <= i < j < |events| && Anchored(events[i], events[j])
                && p == OrderedPair(events[i].id, events[j].id)
  }

  /**
   Fills the buckets event by event and pairs the members of each bucket. The result is exactly
   the id pairs of anchored events: no anchored pair is missed and no other pair is produced.
   */
  method CandidatePairs(events: seq<Event>) returns (pairs: set<(string, string)>)
    ensures forall p :: p in pairs <==> PairOfAnchored(events, p)
  {
    var buckets: map<Anchor, seq<Event>> := FillBuckets(events);
    pairs := set k: Anchor, i: int, j: int | k in buckets && 0 <= i < j < |buckets[k]|
                 :: OrderedPair(buckets[k][i].id, buckets[k][j].id);
    forall p | p in pairs ensures PairOfAnchored(events, p) {
      var k: Anchor, i: int, j: int :| k in buckets && 0 <= i < j < |buckets[k]|
                  && p == OrderedPair(buckets[k][i].id, buckets[k][j].id);
      BucketPairAnchored(events, k, i, j);
    }
    forall p | PairOfAnchored(events, p) ensures p in pairs {
      var i, j :| 0 <= i < j < |events| && Anchored(events[i], events[j])
               && p == OrderedPair(events[i].id, events[j].id);
      var k, x, y := AnchoredPairInBucket(events, i, j);
    }
  }

  lemma BucketPairAnchored(events: seq<Event>, k: Anchor, i: int, j: int)
    requires 0 <= i < j < |Bucket(events, k)|
    ensures PairOfAnchored(events, OrderedPair(Bucket(events, k)[i].id, Bucket(events, k)[j].id))
  {
    var x, y := FilterPositions(events, e => HasAnchor(e, k), i, j);
    assert HasAnchor(events[x], k) && HasAnchor(events[y], k);
    assert Anchored(events[x], events[y]);
  }

  lemma AnchoredPairInBucket(events: seq<Event>, i: int, j: int) returns (k: Anchor, x: int, y: int)
    requires 0 <= i < j < |events| && Anchored(events[i], events[j])
    ensures HasAnchor(events[i], k)
    ensures 0 <= x < y < |Bucket(events, k)|
    ensures Bucket(events, k)[x] == events[i] && Bucket(events, k)[y] == events[j]
  {
    k :| HasAnchor(events[i], k) && HasAnchor(events[j], k);
    x, y := FilterKeeps(events, e => HasAnchor(e, k), i, j);
  }

  /** The bucket loop: every anchor of every event leads to a bucket with its events in order. */
  method FillBuckets(events: seq<Event>) returns (buckets: map<Anchor, seq<Event>>)
    ensures forall k :: k in buckets ==> buckets[k] == Bucket(events, k)
    ensures forall k, e :: e in events && HasAnchor(e, k) ==> k in buckets
  {
    buckets := map[];
    for n := 0 to |events|
      invariant Filled(events, n, buckets)
    {
      AnchorsComplete(events[n]);
      var filled := AppendUnderKeys(buckets, Anchors(events[n]), events[n]);
      FilledNext(events, n, buckets, filled);
      buckets := filled;
    }
    assert events[..|events|] == events;
  }

  /** The buckets of the first `n` events. */
  ghost predicate Filled(events: seq<Event>, n: nat, buckets: map<Anchor, seq<Event>>) {
    && n <= |events|
    && (forall k :: k in buckets ==> buckets[k] == Bucket(events[..n], k))
    && (forall k, i :: 0 <= i < n && HasAnchor(events[i], k) ==> k in buckets)
  }

  lemma FilledNext(events: seq<Event>, n: nat, before: map<Anchor, seq<Event>>, filled: map<Anchor, seq<Event>>)
    requires n < |events| && Filled(events, n, before)
    requires forall k :: k in filled <==> k in before || HasAnchor(events[n], k)
    requires forall k :: k in filled ==>
               filled[k] == (if k in before then before[k] else [])
                       + (if HasAnchor(events[n], k) then [events[n]] else [])
    ensures Filled(events, n + 1, filled)
  {
    forall k | k in filled ensures filled[k] == Bucket(events[..n + 1], k) {
      BucketExtends(events, n, k, before);
    }
  }

  lemma BucketExtends(events: seq<Event>, n: nat, k: Anchor, before: map<Anchor, seq<Event>>)
    requires n < |events|
    requires k in before ==> before[k] == Bucket(events[..n], k)
    requires k !in before ==> forall i :: 0 <= i < n ==> !HasAnchor(events[i], k)
    ensures Bucket(events[..n + 1], k)
         == (if k in before then before[k] else []) + (if HasAnchor(events[n], k) then [events[n]] else [])
  {
    assert events[..n + 1] == events[..n] + [events[n]];
    FilterSnoc(events[..n], events[n], e => HasAnchor(e, k));
    if k !in before {
      FilterNone(events[..n], e => HasAnchor(e, k));
    }
  }

  /** The inner loop: appends `event` to the bucket of each key. */
  method AppendUnderKeys(buckets: map<Anchor, seq<Event>>, keys: seq<Anchor>, event: Event)
    returns (filled: map<Anchor, seq<Event>>)
    requires forall i, j :: 0 <= i < j < |keys| ==> keys[i] != keys[j]
    ensures forall k :: k in filled <==> k in buckets || k in keys
    ensures forall k :: k in filled ==>
              filled[k] == (if k in buckets then buckets[k] else []) + (if k in keys then [event] else [])
  {
    filled := buckets;
    for n := 0 to |keys|
      invariant forall k :: k in filled <==> k in buckets || k in keys[..n]
      invariant forall k :: k in filled ==>
                  filled[k] == (if k in buckets then buckets[k] else [])
                               + (if k in keys[..n] then [event] else [])
    {
      filled := filled[keys[n] := (if keys[n] in filled then filled[keys[n]] else []) + [event]];
    }
  }

  // ---- What pruning leaves out --------------------------------------------------------------

  /** The edges the correlation engine accepts: anchored pairs that reach the minimum score. */
  ghost function PrunedEdge(cfg: Settings): (Event, Event) -> bool {
    (a, b) => a != b && Anchored(a, b) && ConnectionScore(cfg, a, b) >= cfg.correlationMinScore
  }

  /** The edges a comparison of every pair would accept. */
  ghost function FullEdge(cfg: Settings): (Event, Event) -> bool {
    (a, b) => a != b && ConnectionScore(cfg, a, b) >= cfg.correlationMinScore
  }

  /** An overlap the buckets do not see: one event's source against the other's destination, or "". */
  predicate CrossOverlap(a: Event, b: Event) {
    || (a.sourceIp.Some? && a.sourceIp == b.data.destinationIp)
    || (a.data.destinationIp.Some? && a.data.destinationIp == b.sourceIp)
    || (a.sourceIp == b.sourceIp == Some(""))
    || (a.data.destinationIp == b.data.destinationIp == Some(""))
  }

  /** Without a common anchor a pair scores at most 5, and this is the score it gets. */
  lemma UnanchoredScore(cfg: Settings, a: Event, b: Event)
    requires !Anchored(a, b)
    ensures ConnectionScore(cfg, a, b)
         == if Gap(a, b) > cfg.correlationWindowMinutes * MINUTE then 0
            else (if CrossOverlap(a, b) then 2 else 0) + (if Gap(a, b) <= 900 * SECOND then 3 else 1)
  {
    AnchoredMeaning(a, b);
    if CrossOverlap(a, b) {
      var v := if a.sourceIp.Some? && a.sourceIp == b.data.destinationIp then a.sourceIp.value
               else if a.data.destinationIp.Some? && a.data.destinationIp == b.sourceIp then b.sourceIp.value
               else "";
      assert v in Addresses(a) && v in Addresses(b);
      assert v in Addresses(a) * Addresses(b);
    }
    if AddressesOverlap(a, b) {
      var v :| v in Addresses(a) * Addresses(b);
    }
  }

  /** From a minimum score of 6 on, pruning loses no edge. */
  lemma PruningLosesNothing(cfg: Settings, a: Event, b: Event)
    requires cfg.correlationMinScore >= 6
    ensures PrunedEdge(cfg)(a, b) == FullEdge(cfg)(a, b)
  {
    if !Anchored(a, b) {
      UnanchoredScore(cfg, a, b);
    }
  }

  /** At the default minimum score of 5 the lost edges are exactly these. */
  lemma PruningGap(cfg: Settings, a: Event, b: Event)
    requires cfg.correlationMinScore == 5
    ensures FullEdge(cfg)(a, b) && !PrunedEdge(cfg)(a, b) <==>
            && a != b && !Anchored(a, b) && CrossOverlap(a, b)
            && Gap(a, b) <= 900 * SECOND
            && Gap(a, b) <= cfg.correlationWindowMinutes * MINUTE
    ensures FullEdge(cfg)(a, b) && !PrunedEdge(cfg)(a, b) ==> ConnectionScore(cfg, a, b) == 5
  {
    if !Anchored(a, b) {
      UnanchoredScore(cfg, a, b);
    }
  }
}
