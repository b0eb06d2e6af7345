/**
 Creating and enriching incidents from correlated groups
 (backend/app/services/correlation_engine.py, lines 151-155 and 208-400).
 */
module Incidents {
  import opened Base
  import opened Config
  import opened Correlation
  import opened Detection
  import opened Playbook
  import opened Risk

  type Event = Correlation.Event

  datatype Status = New | Investigating | Contained | Resolved

  datatype Incident = Incident(
    id: string,
    tenant: string,
    fingerprint: string,
    kind: Kind,
    status: Status,
    breakdown: Breakdown,
    risk: int,
    residual: int,
    severity: Severity,
    eventIds: seq<string>,
    actions: seq<Recommendation>,
    user: Option<string>,
    host: Option<string>,
    assignedTo: Option<string>,
    triagedAt: Option<int>)

  datatype Reason = IncidentCreated | IncidentEnriched | ActionExecuted(action: string)

  datatype HistoryRow = HistoryRow(incident: string, risk: int, residual: int, reason: Reason)

  /** The event, finding, incident and risk-history tables, each in insertion order. */
  datatype Cases = Cases(
    rows: seq<Event>,
    records: seq<Finding>,
    incidents: seq<Incident>,
    history: seq<HistoryRow>)

  /** The two uses of SHA-256: the fingerprint proper and the one that avoids a taken fingerprint. */
  datatype Hashes = Hashes(
    fingerprint: (string, Kind, string, int) -> string,
    rehash: (string, string, seq<string>) -> string)

  predicate Open(i: Incident) {
    i.status in {New, Investigating}
  }

  function EventIds(events: seq<Event>): (r: seq<string>)
    ensures |r| == |events|
  {
    seq(|events|, i requires 0 <= i < |events| => events[i].id)
  }

  function When(e: Event): int {
    e.timestamp
  }

  // ---- The principal of a group -----------------------------------------------------------------

  function Occurrences(values: seq<string>, v: string): nat {
    multiset(values)[v]
  }

  /** The most frequent of `values` among the first `n`; of equals, the one met first. */
  function Leader(values: seq<string>, n: nat): string
    requires 1 <= n <= |values|
  {
    if n == 1 then values[0]
    else
      var best := Leader(values, n - 1);
      if Occurrences(values, values[n - 1]) > Occurrences(values, best) then values[n - 1] else best
  }

  /** The most frequent value; there is none among no values. */
  function MostCommon(values: seq<string>): Option<string> {
    if values == [] then None else Some(Leader(values, |values|))
  }

  function Present(values: seq<Option<string>>): seq<string> {
    if values == [] then []
    else
      var n := |values| - 1;
      Present(values[..n]) + if Truthy(values[n]) then [values[n].value] else []
  }

  function Users(events: seq<Event>): seq<string> {
    Present(seq(|events|, i requires 0 <= i < |events| => events[i].user))
  }

  function Hosts(events: seq<Event>): seq<string> {
    Present(seq(|events|, i requires 0 <= i < |events| => events[i].host))
  }

  /** The most common user, or the most common host when there is no user at all. */
  function Principal(events: seq<Event>): Option<string> {
    if Users(events) != [] then MostCommon(Users(events)) else MostCommon(Hosts(events))
  }

  // ---- Evidence ---------------------------------------------------------------------------------

  /** The query for the findings about the given events. */
  function FindingsAbout(records: seq<Finding>, ids: set<string>): seq<Finding> {
    if records == [] then []
    else
      var n := |records| - 1;
      FindingsAbout(records[..n], ids) + if records[n].eventId in ids then [records[n]] else []
  }

  /** The query for the tenant's events with the given ids. */
  function EventsAmong(rows: seq<Event>, tenant: string, ids: set<string>): seq<Event> {
    if rows == [] then []
    else
      var n := |rows| - 1;
      EventsAmong(rows[..n], tenant, ids)
      + if rows[n].tenant == tenant && rows[n].id in ids then [rows[n]] else []
  }

  /** The findings about each event of the group, event by event. */
  function GroupFindings(records: seq<Finding>, ids: seq<string>): seq<Finding> {
    if ids == [] then []
    else
      var n := |ids| - 1;
      GroupFindings(records, ids[..n]) + FindingsAbout(records, {ids[n]})
  }

  // ---- Looking for an incident to enrich ---------------------------------------------------------

  function First<T>(s: seq<T>, p: T -> bool): (r: Option<nat>)
    ensures r.Some? ==> r.value < |s| && p(s[r.value]) && forall j :: 0 <= j < r.value ==> !p(s[j])
    ensures r == None ==> forall j :: 0 <= j < |s| ==> !p(s[j])
  {
    if s == [] then None
    else
      var n := |s| - 1;
      match First(s[..n], p)
      case Some(k) => Some(k)
      case None => if p(s[n]) then Some(n) else None
  }

  function OpenWith(tenant: string, fp: string): Incident -> bool {
    (i: Incident) => i.tenant == tenant && Open(i) && i.fingerprint == fp
  }

  function OpenSharing(tenant: string, ids: set<string>): Incident -> bool {
    (i: Incident) => i.tenant == tenant && Open(i) && !(Elements(i.eventIds) !! ids)
  }

  function FindExisting(incidents: seq<Incident>, tenant: string, fp: string, ids: set<string>): Option<nat> {
    match First(incidents, OpenWith(tenant, fp))
    case Some(k) => Some(k)
    case None => First(incidents, OpenSharing(tenant, ids))
  }

  predicate TakenInTenant(incidents: seq<Incident>, tenant: string, fp: string) {
    exists i :: i in incidents && i.tenant == tenant && i.fingerprint == fp
  }

  function Others(incidents: seq<Incident>, k: nat): seq<Incident>
    requires k < |incidents|
  {
    incidents[..k] + incidents[k + 1..]
  }

  // ---- The session ------------------------------------------------------------------------------

  function Fingerprints(incidents: seq<Incident>): seq<string> {
    seq(|incidents|, i requires 0 <= i < |incidents| => incidents[i].fingerprint)
  }

  /** The unique constraint on the fingerprint column. */
  predicate DistinctFingerprints(incidents: seq<Incident>) {
    forall j, k :: 0 <= j < k < |incidents| ==> incidents[j].fingerprint != incidents[k].fingerprint
  }

  /**
   A session that does not flush before queries (backend/app/database.py, line 14). `cases` is what the
   objects in memory say; `disk` holds the fingerprints the incident table has got so far. A query
   filters on the table, but the objects it returns show their pending values.
   */
  datatype Session = Session(cases: Cases, disk: seq<string>) {
    predicate Aligned() {
      |disk| == |cases.incidents|
    }

    /** The incidents as a query filters them: no other filtered column has pending values. */
    function Table(): (r: seq<Incident>)
      requires Aligned()
      ensures |r| == |disk|
    {
      seq(|disk|, i requires 0 <= i < |disk| => cases.incidents[i].(fingerprint := disk[i]))
    }
  }

  /** A session with nothing pending. */
  function Begin(c: Cases): (s: Session)
    ensures s.Aligned() && s.Table() == c.incidents
  {
    var s := Session(c, Fingerprints(c.incidents));
    assert s.Table() == c.incidents;
    s
  }

  // ---- One group --------------------------------------------------------------------------------

  datatype Absorbed =
    | TooWeak                             // fewer than two distinct flags: the group is skipped
    | NoPrincipal                         // IndexError: no user and no host
    | FingerprintClash                    // IntegrityError: unique fingerprint violated
    | Stored(session: Session, at: nat)

  function Bucket(cfg: Settings, start: int): int
    requires 0 < cfg.maxIncidentSpanMinutes
  {
    start / (cfg.maxIncidentSpanMinutes * MINUTE)
  }

  function Fingerprint(cfg: Settings, h: Hashes, tenant: string, flags: set<string>, events: seq<Event>): string
    requires 0 < cfg.maxIncidentSpanMinutes && events != [] && Principal(events).Some?
  {
    h.fingerprint(tenant, InferType(flags), Principal(events).value, Bucket(cfg, events[0].timestamp))
  }

  /** The events of an enriched incident: its stored ones and the group, in time order. */
  function Merged(rows: seq<Event>, i: Incident, group: seq<Event>): (all: seq<Event>)
    ensures multiset(all)
            == multiset(group + EventsAmong(rows, i.tenant, Elements(i.eventIds) - Elements(EventIds(group))))
  {
    SortBy(group + EventsAmong(rows, i.tenant, Elements(i.eventIds) - Elements(EventIds(group))), When)
  }

  /** The fields that are recomputed from events and findings. */
  function Recomputed(i: Incident, all: seq<Event>, found: seq<Finding>): Incident {
    var kind := InferType(Flags(found));
    var actions := Carry(if i.kind == kind then i.actions else [], Recommend(Flags(found)));
    var breakdown := BreakdownOf(found, all);
    i.(kind := kind, breakdown := breakdown, risk := breakdown.Total(),
       residual := Residual(breakdown.Total(), actions), severity := SeverityOf(breakdown.Total()),
       eventIds := EventIds(all), actions := actions,
       user := MostCommon(Users(all)), host := MostCommon(Hosts(all)))
  }

  /** Risk, residual risk, type or set of evidence has changed. */
  predicate Differs(before: Incident, after: Incident) {
    || before.risk != after.risk || before.residual != after.residual || before.kind != after.kind
    || Elements(before.eventIds) != Elements(after.eventIds)
  }

  /** The fingerprint of an enriched incident: its own if another row of the tenant has the new one. */
  function Kept(s: Session, k: nat, wanted: string): string
    requires s.Aligned() && k < |s.disk|
  {
    var i := s.cases.incidents[k];
    if TakenInTenant(Others(s.Table(), k), i.tenant, wanted) then i.fingerprint else wanted
  }

  function Enrichment(before: Incident, after: Incident): seq<HistoryRow> {
    if Differs(before, after) then [HistoryRow(after.id, after.risk, after.residual, IncidentEnriched)] else []
  }

  /** Changes the object only; the row follows with the next flush. */
  function Enrich(cfg: Settings, h: Hashes, s: Session, k: nat, group: seq<Event>): (r: Absorbed)
    requires 0 < cfg.maxIncidentSpanMinutes && s.Aligned() && k < |s.disk|
    ensures r.Stored? ==> r.session.Aligned()
  {
    var c, i := s.cases, s.cases.incidents[k];
    var all := Merged(c.rows, i, group);
    if all == [] || Principal(all) == None then NoPrincipal
    else
      var found := FindingsAbout(c.records, Elements(EventIds(all)));
      var wanted := Fingerprint(cfg, h, i.tenant, Flags(found), all);
      var j := Recomputed(i, all, found).(fingerprint := Kept(s, k, wanted));
      Stored(s.(cases := c.(incidents := c.incidents[k := j], history := c.history + Enrichment(i, j))), k)
  }

  function Opened(id: string, tenant: string, fp: string, group: seq<Event>, found: seq<Finding>): Incident {
    var breakdown := BreakdownOf(found, group);
    Incident(id, tenant, fp, InferType(Flags(found)), New, breakdown, breakdown.Total(), breakdown.Total(),
             SeverityOf(breakdown.Total()), EventIds(group), Recommend(Flags(found)),
             MostCommon(Users(group)), MostCommon(Hosts(group)), None, None)
  }

  /**
   Adds the object and flushes. The flush writes the pending rows first and then the new one, so it
   fails exactly when two fingerprints in memory are equal.
   */
  function Create(h: Hashes, s: Session, group: seq<Event>, found: seq<Finding>, wanted: string, newId: string)
    : (r: Absorbed)
    requires s.Aligned() && group != []
    ensures r.Stored? ==> r.session.Aligned()
  {
    var c, tenant := s.cases, group[0].tenant;
    var fp := if TakenInTenant(s.Table(), tenant, wanted) then h.rehash(tenant, wanted, EventIds(group)) else wanted;
    var i := Opened(newId, tenant, fp, group, found);
    if !DistinctFingerprints(c.incidents + [i]) then FingerprintClash
    else
      Stored(Begin(c.(incidents := c.incidents + [i],
                      history := c.history + [HistoryRow(newId, i.risk, i.risk, IncidentCreated)])),
             |c.incidents|)
  }

  /** One turn of the loop over the connected groups. */
  function Absorb(cfg: Settings, h: Hashes, s: Session, group: seq<Event>, newId: string): (r: Absorbed)
    requires 0 < cfg.maxIncidentSpanMinutes && s.Aligned() && group != []
    ensures r.Stored? ==> r.session.Aligned()
  {
    var found := GroupFindings(s.cases.records, EventIds(group));
    if |Flags(found)| < 2 then TooWeak
    else if Principal(group) == None then NoPrincipal
    else
      var tenant := group[0].tenant;
      var wanted := Fingerprint(cfg, h, tenant, Flags(found), group);
      match FindExisting(s.Table(), tenant, wanted, Elements(EventIds(group)))
      case Some(k) => Enrich(cfg, h, s, k, group)
      case None => Create(h, s, group, found, wanted, newId)
  }

  /** The session after a group, unless the group has raised an exception. */
  function AfterGroup(s: Session, r: Absorbed): Option<Session> {
    match r
    case TooWeak => Some(s)
    case NoPrincipal => None
    case FingerprintClash => None
    case Stored(t, _) => Some(t)
  }

  /** The loop over the groups of one batch. */
  function AbsorbAll(cfg: Settings, h: Hashes, s: Session, groups: seq<seq<Event>>, newIds: nat -> string)
    : (r: Option<Session>)
    requires 0 < cfg.maxIncidentSpanMinutes && s.Aligned()
    requires forall n :: 0 <= n < |groups| ==> groups[n] != []
    ensures r.Some? ==> r.value.Aligned()
  {
    if groups == [] then Some(s)
    else
      var n := |groups| - 1;
      match AbsorbAll(cfg, h, s, groups[..n], newIds)
      case None => None
      case Some(t) => AfterGroup(t, Absorb(cfg, h, t, groups[n], newIds(n)))
  }

  /** A whole batch: all groups in order and the final commit, which flushes what is still pending. */
  function CorrelateBatch(cfg: Settings, h: Hashes, c: Cases, groups: seq<seq<Event>>, newIds: nat -> string)
    : Option<Cases>
    requires 0 < cfg.maxIncidentSpanMinutes
    requires forall n :: 0 <= n < |groups| ==> groups[n] != []
  {
    match AbsorbAll(cfg, h, Begin(c), groups, newIds)
    case None => None
    case Some(s) => if DistinctFingerprints(s.cases.incidents) then Some(s.cases) else None
  }
}
