/**
 A batch that aborts although its groups are sound: late logins turn an open incident into a credential
 compromise, and further logins of the same user, more than an hour later but in the same fingerprint
 bucket, ask for the fingerprint that is still pending.
 */
module LateLogins {
  import opened Base
  import opened Config
  import opened Correlation
  import Groups
  import opened Detection
  import opened Rules
  import Pipeline
  import Ingestion
  import Incremental
  import opened Playbook
  import opened Risk
  import opened Incidents
  import opened IncidentLaws
  import opened Absorption
  import opened Sessions
  import opened Transactions
  import opened Response
  import opened Workflow
  import opened WorkflowLaws
  import opened Batches
  import opened Scenarios

  type Event = Correlation.Event

  // ---- Groups of one user ----------------------------------------------------------------------------

  /** Impossible travel with a new device. */
  ghost predicate Compromised(records: seq<Finding>, group: seq<Event>) {
    {"IMPOSSIBLE_TRAVEL", "NEW_DEVICE"} <= Flags(GroupFindings(records, EventIds(group)))
  }

  lemma CredentialType(flags: set<string>)
    requires {"IMPOSSIBLE_TRAVEL", "NEW_DEVICE"} <= flags
    ensures InferType(flags) == Credential && |flags| >= 2
  {
    assert "NEW_DEVICE" in flags * {"MFA_FATIGUE", "NEW_DEVICE"};
    assert "IMPOSSIBLE_TRAVEL"[0] != "NEW_DEVICE"[0];
    SubsetSize({"IMPOSSIBLE_TRAVEL", "NEW_DEVICE"}, flags);
  }

  /** The fingerprint of a compromise of the user. */
  function CredentialPrint(h: Hashes, tenant: string, user: string, start: int): string {
    h.fingerprint(tenant, Credential, user, Incidents.Bucket(DEFAULTS, start))
  }

  lemma WantedByUser(h: Hashes, c: Cases, group: seq<Event>, user: string)
    requires OneUser(group, user) && Compromised(c.records, group)
    ensures Qualifies(c, group)
    ensures Wanted(DEFAULTS, h, c, group) == CredentialPrint(h, group[0].tenant, user, group[0].timestamp)
  {
    PrincipalOfUser(group, user);
    CredentialType(Flags(GroupFindings(c.records, EventIds(group))));
  }

  lemma SameFlags(records: seq<Finding>, ids: seq<string>)
    ensures Flags(FindingsAbout(records, Elements(ids))) == Flags(GroupFindings(records, ids))
  {
    forall f ensures f in FindingsAbout(records, Elements(ids)) <==> f in GroupFindings(records, ids) {
      FindingsAboutMembers(records, Elements(ids), f);
      GroupFindingsMembers(records, ids, f);
    }
  }

  // ---- The only incident of the table, enriched by a group that holds its evidence -------------------------

  lemma {:induction false} NothingAmong(rows: seq<Event>, tenant: string)
    ensures EventsAmong(rows, tenant, {}) == []
  {
    if rows == [] {
    } else {
      NothingAmong(rows[..|rows| - 1], tenant);
    }
  }

  lemma MergedIsGroup(rows: seq<Event>, i: Incident, group: seq<Event>)
    requires Elements(i.eventIds) <= Elements(EventIds(group)) && Sorted(group, When)
    ensures Merged(rows, i, group) == group
  {
    assert Elements(i.eventIds) - Elements(EventIds(group)) == {};
    NothingAmong(rows, i.tenant);
    assert group + [] == group;
    SortBySorted(group, When);
  }

  /** The incident is open and its evidence is in the group, which has turned into a compromise of the user. */
  ghost predicate Strengthens(h: Hashes, c: Cases, i: Incident, one: seq<Event>, user: string) {
    && c.incidents == [i] && OneUser(one, user) && Compromised(c.records, one) && Sorted(one, When)
    && i.tenant == one[0].tenant && Open(i) && i.eventIds != [] && Elements(i.eventIds) <= Elements(EventIds(one))
    && i.fingerprint != CredentialPrint(h, i.tenant, user, one[0].timestamp)
  }

  lemma FoundByEvidence(h: Hashes, c: Cases, i: Incident, one: seq<Event>, user: string)
    requires Strengthens(h, c, i, one, user)
    ensures FindExisting(Begin(c).Table(), i.tenant, CredentialPrint(h, i.tenant, user, one[0].timestamp),
                         Elements(EventIds(one))) == Some(0)
  {
    var fp := CredentialPrint(h, i.tenant, user, one[0].timestamp);
    assert Begin(c).Table() == [i];
    assert i.eventIds[0] in Elements(i.eventIds) && i.eventIds[0] in Elements(EventIds(one));
    assert First([i], OpenWith(i.tenant, fp)) == None;
    assert OpenSharing(i.tenant, Elements(EventIds(one)))(i);
  }

  lemma StrengthenedPrint(h: Hashes, c: Cases, i: Incident, one: seq<Event>, user: string)
    requires Strengthens(h, c, i, one, user)
    ensures var r := Enrich(DEFAULTS, h, Begin(c), 0, one);
            && r.Stored? && |r.session.cases.incidents| == 1 && |r.session.disk| == 1
            && r.session.cases.incidents[0].fingerprint == CredentialPrint(h, i.tenant, user, one[0].timestamp)
            && r.session.cases.incidents[0].eventIds == EventIds(one)
  {
    MergedIsGroup(c.rows, i, one);
    PrincipalOfUser(one, user);
    SameFlags(c.records, EventIds(one));
    CredentialType(Flags(GroupFindings(c.records, EventIds(one))));
    assert Incidents.Others(Begin(c).Table(), 0) == [];
  }

  lemma StrengthenedFirst(h: Hashes, c: Cases, i: Incident, one: seq<Event>, user: string, newId: string)
    requires Strengthens(h, c, i, one, user)
    ensures Absorb(DEFAULTS, h, Begin(c), one, newId) == Enrich(DEFAULTS, h, Begin(c), 0, one)
  {
    WantedByUser(h, c, one, user);
    FoundByEvidence(h, c, i, one, user);
  }

  /** A second compromise of the user, in the same bucket and without a common event. */
  ghost predicate Follows(c: Cases, one: seq<Event>, two: seq<Event>, user: string)
    requires one != []
  {
    && OneUser(two, user) && Compromised(c.records, two) && two[0].tenant == one[0].tenant
    && Incidents.Bucket(DEFAULTS, two[0].timestamp) == Incidents.Bucket(DEFAULTS, one[0].timestamp)
    && Elements(EventIds(one)) !! Elements(EventIds(two))
  }

  /** It asks for the fingerprint the incident has just got. */
  lemma FollowerAsksTheSame(h: Hashes, c: Cases, i: Incident, one: seq<Event>, two: seq<Event>, user: string,
                            newIds: nat -> string)
    requires Strengthens(h, c, i, one, user) && Follows(c, one, two, user)
    ensures SameFingerprint(DEFAULTS, h, c, 0, one, two, newIds)
  {
    StrengthenedFirst(h, c, i, one, user, newIds(0));
    StrengthenedPrint(h, c, i, one, user);
    WantedByUser(h, c, two, user);
  }

  // ---- The story ----------------------------------------------------------------------------------------

  /** The user's events: two on a host, and four logins reported later. */
  datatype Story = Story(user: string, x: RawEvent, y: RawEvent, a: RawEvent, b: RawEvent, c: RawEvent, d: RawEvent) {

    function Late(): seq<RawEvent> {
      [a, b, c, d]
    }

    function Rows(): seq<RawEvent> {
      [x, y, a, b, c, d]
    }

    /** The first journey joins the two host events. */
    function One(tenant: string): seq<Event> {
      Normalized([x, y, a, b], tenant)
    }

    /** The second journey is a group of its own. */
    function Two(tenant: string): seq<Event> {
      Normalized([c, d], tenant)
    }
  }

  /** PowerShell with a suspicious command line, then a changed run key; no access to the credential store. */
  predicate Start(s: Story) {
    && s.x.Endpoint? && s.y.Endpoint? && s.x.user == s.y.user == s.user != ""
    && 0 <= s.y.timestamp - s.x.timestamp <= 15 * MINUTE
    && SuspiciousPowerShell(s.x) && Upper(s.x.eventType) != "CREDENTIAL_STORE_ACCESS"
    && Upper(s.y.eventType) == "RUN_KEY_MODIFICATION"
  }

  /** Two successful logins, impossible travel both from devices the baseline does not know. */
  predicate Journey(baseline: Baseline, user: string, a: RawEvent, b: RawEvent) {
    && IsLogin(a) && IsLogin(b) && a.user == b.user == user && a.timestamp < b.timestamp
    && UntrustedDevice(baseline, a) && UntrustedDevice(baseline, b)
    && Conflict(DEFAULTS.impossibleTravelWindowMinutes * MINUTE, a, b)
  }

  predicate Told(s: Story, baseline: Baseline) {
    && Start(s) && Journey(baseline, s.user, s.a, s.b) && Journey(baseline, s.user, s.c, s.d)
    && s.y.timestamp <= s.a.timestamp && s.b.timestamp <= s.x.timestamp + 60 * MINUTE
    && s.b.timestamp + 60 * MINUTE < s.c.timestamp
    && Incidents.Bucket(DEFAULTS, s.x.timestamp) == Incidents.Bucket(DEFAULTS, s.c.timestamp)
    && Pipeline.UniqueIds(s.Rows())
  }

  function Login(id: string, minute: int, country: string): RawEvent {
    Authentication(id, minute * MINUTE, "alice", "198.51.100.7", country, "phone-1", true, false)
  }

  /** Such events; the baseline knows no device of the user. */
  const RUN_KEY :=
    RawEvent.Endpoint("EVT-2", MINUTE, "host-1", "alice", "reg.exe", "", "RUN_KEY_MODIFICATION", None)
  const STORY := Story("alice", SHELL, RUN_KEY,
                       Login("EVT-3", 10, "FR"), Login("EVT-4", 15, "US"),
                       Login("EVT-5", 76, "FR"), Login("EVT-6", 80, "US"))

  lemma StoryUnique()
    ensures Pipeline.UniqueIds(STORY.Rows())
  {
    var rows := STORY.Rows();
    assert forall k :: 0 <= k < 6 ==> |rows[k].id| == 5 && rows[k].id[4] as int == '1' as int + k;
  }

  lemma StoryExists()
    ensures Told(STORY, map[])
  {
    ShellSuspicious();
    assert "FR"[0] != "US"[0];
    StoryUnique();
  }

  // ---- What the second batch stores -----------------------------------------------------------------------

  function DeviceKey(id: string): Pipeline.Key {
    (id, "AUTH-003", "1.1", "NEW_DEVICE")
  }

  lemma NewDeviceStored(baseline: Baseline, mentions: Pipeline.Mentions, st: Pipeline.State, batch: seq<RawEvent>,
                        e: RawEvent)
    requires Pipeline.UniqueIds(st.rows + batch) && e in batch && UntrustedDevice(baseline, e)
    ensures Pipeline.Recorded(Pipeline.ProcessTelemetry(DEFAULTS, baseline, mentions, st, batch).records,
                              DeviceKey(e.id))
  {
    var slice := Pipeline.Slice(DEFAULTS, mentions, st.rows + batch, batch);
    FreshBatch(baseline, mentions, st, batch);
    Incremental.SliceMembers(DEFAULTS, mentions, st.rows, batch);
    Incremental.BatchInContext(DEFAULTS, mentions, batch, e);
    NewDeviceReported(DEFAULTS, baseline, slice, e);
    Ingestion.RecordHasKeys(st.records, Detected(DEFAULTS, baseline, slice));
  }

  /** Everything a journey leaves in the finding table. */
  ghost predicate JourneyShown(records: seq<Finding>, a: RawEvent, b: RawEvent) {
    && Pipeline.Recorded(records, DeviceKey(a.id)) && Pipeline.Recorded(records, DeviceKey(b.id))
    && Pipeline.Recorded(records, Incremental.TravelKey(b.id))
  }

  lemma JourneyStored(baseline: Baseline, mentions: Pipeline.Mentions, st: Pipeline.State, batch: seq<RawEvent>,
                      user: string, a: RawEvent, b: RawEvent)
    requires Pipeline.UniqueIds(st.rows + batch) && Ingestion.UniqueKeys(st.records)
    requires a in batch && b in batch && Journey(baseline, user, a, b)
    requires forall r :: r in st.records ==> r.rule != TRAVEL_RULE
    ensures JourneyShown(Pipeline.ProcessTelemetry(DEFAULTS, baseline, mentions, st, batch).records, a, b)
  {
    NewDeviceStored(baseline, mentions, st, batch, a);
    NewDeviceStored(baseline, mentions, st, batch, b);
    Incremental.BatchInContext(DEFAULTS, mentions, batch, a);
    Incremental.BatchInContext(DEFAULTS, mentions, batch, b);
    Incremental.LaterBatchFlags(DEFAULTS, baseline, mentions, st, batch, a, b);
  }

  /** The findings the groups are judged by. */
  ghost predicate Shown(records: seq<Finding>, s: Story) {
    && Reported(records, s.x.id) && Reported(records, s.y.id)
    && JourneyShown(records, s.a, s.b) && JourneyShown(records, s.c, s.d)
  }

  lemma StartLinked(s: Story, tenant: string)
    requires Start(s) && s.x.id != s.y.id
    ensures Linked(s.x, s.y, tenant)
    ensures InferType(RuleFlags(s.x) + RuleFlags(s.y)) == Suspicious && |RuleFlags(s.x) + RuleFlags(s.y)| >= 2
  {
    PowerShellFlagged(s.x);
    assert Simple(s.y, "ENDP-003", "1.0", "PERSISTENCE", 25) in EventRules(DEFAULTS, s.y);
    SameUserLinked(Pipeline.Normalize(s.x, tenant), Pipeline.Normalize(s.y, tenant));
    assert RuleFlags(s.x) <= {"SUSPICIOUS_POWERSHELL", "PERSISTENCE"};
    assert RuleFlags(s.y) <= {"SUSPICIOUS_POWERSHELL", "PERSISTENCE"};
    SuspiciousType(RuleFlags(s.x) + RuleFlags(s.y));
  }

  lemma SuspiciousType(flags: set<string>)
    requires flags == {"SUSPICIOUS_POWERSHELL", "PERSISTENCE"}
    ensures InferType(flags) == Suspicious && |flags| >= 2
  {
    assert "SUSPICIOUS_POWERSHELL"[0] != "PERSISTENCE"[0];
    SubsetSize({"SUSPICIOUS_POWERSHELL", "PERSISTENCE"}, flags);
  }

  /** The state the second batch meets. */
  ghost predicate Started(st: Pipeline.State, s: Story) {
    && Sane(st) && st.rows == [s.x, s.y] && FlaggedByRules(st, s.x, s.y)
    && RuleFlags(s.x) != {} && RuleFlags(s.y) != {}
  }

  lemma LateStored(baseline: Baseline, mentions: Pipeline.Mentions, st: Pipeline.State, s: Story)
    requires Told(s, baseline) && Started(st, s)
    ensures var after := Pipeline.ProcessTelemetry(DEFAULTS, baseline, mentions, st, s.Late());
            after.rows == s.Rows() && Sane(after)
    ensures !Pipeline.RepeatsNewId(st.rows, s.Late()) && Pipeline.NewRows(st.rows, s.Late()) == s.Late()
  {
    assert st.rows + s.Late() == s.Rows();
    FreshBatch(baseline, mentions, st, s.Late());
    ProcessKeepsSane(baseline, mentions, st, s.Late());
  }

  lemma LateShown(baseline: Baseline, mentions: Pipeline.Mentions, st: Pipeline.State, s: Story)
    requires Told(s, baseline) && Started(st, s)
    ensures Shown(Pipeline.ProcessTelemetry(DEFAULTS, baseline, mentions, st, s.Late()).records, s)
  {
    var late := s.Late();
    assert st.rows + late == s.Rows();
    assert s.a in late && s.b in late && s.c in late && s.d in late;
    JourneyStored(baseline, mentions, st, late, s.user, s.a, s.b);
    JourneyStored(baseline, mentions, st, late, s.user, s.c, s.d);
    StartStillShown(baseline, mentions, st, s);
  }

  lemma StartStillShown(baseline: Baseline, mentions: Pipeline.Mentions, st: Pipeline.State, s: Story)
    requires Pipeline.UniqueIds(st.rows + s.Late()) && Started(st, s)
    ensures var records := Pipeline.ProcessTelemetry(DEFAULTS, baseline, mentions, st, s.Late()).records;
            Reported(records, s.x.id) && Reported(records, s.y.id)
  {
    var slice := Pipeline.Slice(DEFAULTS, mentions, st.rows + s.Late(), s.Late());
    FreshBatch(baseline, mentions, st, s.Late());
    HasRecord(st, s.x.id);
    HasRecord(st, s.y.id);
    Ingestion.RecordAppends(st.records, Detected(DEFAULTS, baseline, slice));
  }

  // ---- The two groups ----------------------------------------------------------------------------------------

  /** A reported event within an hour of one of the batch is a candidate. */
  lemma NearCandidate(st: Pipeline.State, batch: seq<RawEvent>, e: RawEvent, other: RawEvent)
    requires Sane(st) && other in batch && -60 * MINUTE <= e.timestamp - other.timestamp <= 60 * MINUTE
    requires Reported(st.records, e.id) || Pipeline.Recorded(st.records, DeviceKey(e.id))
    ensures Candidate(DEFAULTS, st, batch)(e)
  {
    assert NearBatch(DEFAULTS, batch, e);
    FlaggedIsCandidate(st, batch, e);
  }

  lemma ForRows(s: Story, p: RawEvent -> bool)
    requires p(s.x) && p(s.y) && p(s.a) && p(s.b) && p(s.c) && p(s.d)
    ensures forall e :: e in s.Rows() ==> p(e)
  {
  }

  lemma RowsNormalized(s: Story, tenant: string)
    ensures Normalized(s.Rows(), tenant) == s.One(tenant) + s.Two(tenant)
  {
    NormalizedAppend([s.x, s.y, s.a, s.b], [s.c, s.d], tenant);
    assert s.Rows() == [s.x, s.y, s.a, s.b] + [s.c, s.d];
  }

  lemma LateCandidates(st: Pipeline.State, s: Story, baseline: Baseline, tenant: string)
    requires Told(s, baseline) && Sane(st) && st.rows == s.Rows() && Shown(st.records, s)
    ensures Candidates(DEFAULTS, st, s.Late(), tenant) == s.One(tenant) + s.Two(tenant)
  {
    var late := s.Late();
    assert s.a in late && s.b in late && s.c in late && s.d in late;
    NearCandidate(st, late, s.x, s.a);
    NearCandidate(st, late, s.y, s.a);
    NearCandidate(st, late, s.a, s.a);
    NearCandidate(st, late, s.b, s.b);
    NearCandidate(st, late, s.c, s.c);
    NearCandidate(st, late, s.d, s.d);
    ForRows(s, Candidate(DEFAULTS, st, late));
    AllCandidates(st, late, tenant);
    RowsNormalized(s, tenant);
  }

  /** Events of one user within an hour of each other are a burst. */
  lemma UserBurst(s: seq<Event>, user: string)
    requires |s| >= 2 && OneUser(s, user) && UniqueIds(s) && Sorted(s, When)
    requires s[|s| - 1].timestamp - s[0].timestamp <= 60 * MINUTE
    ensures Groups.Burst(DEFAULTS, s)
  {
    forall a, b | a in s && b in s && a != b ensures PrunedEdge(DEFAULTS)(a, b) {
      var j :| 0 <= j < |s| && s[j] == a;
      var k :| 0 <= k < |s| && s[k] == b;
      SortedAt(s, When, 0, j);
      SortedAt(s, When, 0, k);
      SortedAt(s, When, j, |s| - 1);
      SortedAt(s, When, k, |s| - 1);
      SameUserLinked(a, b);
    }
  }

  lemma LateGroups(s: Story, baseline: Baseline, tenant: string)
    requires Told(s, baseline)
    ensures OneUser(s.One(tenant), s.user) && OneUser(s.Two(tenant), s.user)
    ensures Sorted(s.One(tenant), When) && Sorted(s.Two(tenant), When)
    ensures Groups.Emitted(DEFAULTS, s.One(tenant) + s.Two(tenant), [s.One(tenant), s.Two(tenant)])
  {
    var one, two := s.One(tenant), s.Two(tenant);
    LateBursts(s, baseline, tenant);
    forall e, f | e in one && f in two ensures e != f && !PrunedEdge(DEFAULTS)(e, f) && !PrunedEdge(DEFAULTS)(f, e) {
      assert e.timestamp <= s.b.timestamp && s.c.timestamp <= f.timestamp;
    }
    Groups.TwoBurstsEmitted(DEFAULTS, one, two);
  }

  lemma RowsBurst(rows: seq<RawEvent>, user: string, tenant: string)
    requires |rows| >= 2 && user != "" && Pipeline.UniqueIds(rows) && Sorted(rows, TimeOf)
    requires forall e :: e in rows ==> Pipeline.UserOf(e) == Some(user)
    requires rows[|rows| - 1].timestamp - rows[0].timestamp <= 60 * MINUTE
    ensures var group := Normalized(rows, tenant);
            OneUser(group, user) && Sorted(group, When) && Groups.Burst(DEFAULTS, group)
  {
    UserBurst(Normalized(rows, tenant), user);
  }

  lemma LateBursts(s: Story, baseline: Baseline, tenant: string)
    requires Told(s, baseline)
    ensures var one, two := s.One(tenant), s.Two(tenant);
            && OneUser(one, s.user) && OneUser(two, s.user) && Sorted(one, When) && Sorted(two, When)
            && Groups.Burst(DEFAULTS, one) && Groups.Burst(DEFAULTS, two)
  {
    PartsUnique(s);
    RowsBurst([s.x, s.y, s.a, s.b], s.user, tenant);
    RowsBurst([s.c, s.d], s.user, tenant);
  }

  lemma PartsUnique(s: Story)
    requires Pipeline.UniqueIds(s.Rows())
    ensures Pipeline.UniqueIds([s.x, s.y, s.a, s.b]) && Pipeline.UniqueIds([s.c, s.d])
  {
    assert [s.x, s.y, s.a, s.b] == s.Rows()[..4] && [s.c, s.d] == s.Rows()[4..];
  }

  lemma GroupCompromised(records: seq<Finding>, group: seq<Event>, a: Event, b: Event)
    requires a in group && b in group
    requires Pipeline.Recorded(records, DeviceKey(a.id)) && Pipeline.Recorded(records, Incremental.TravelKey(b.id))
    ensures Compromised(records, group)
  {
    var ids := EventIds(group);
    var j :| 0 <= j < |group| && group[j] == a;
    var k :| 0 <= k < |group| && group[k] == b;
    assert ids[j] in ids && ids[k] in ids;
    assert "NEW_DEVICE" in Pipeline.FlagsOf(records, ids[j]);
    assert "IMPOSSIBLE_TRAVEL" in Pipeline.FlagsOf(records, ids[k]);
    GroupFlags(records, ids, "NEW_DEVICE");
    GroupFlags(records, ids, "IMPOSSIBLE_TRAVEL");
  }

  lemma BothCompromised(records: seq<Finding>, s: Story, tenant: string)
    requires Shown(records, s)
    ensures Compromised(records, s.One(tenant)) && Compromised(records, s.Two(tenant))
  {
    var one, two := s.One(tenant), s.Two(tenant);
    assert one[2] in one && one[3] in one && two[0] in two && two[1] in two;
    GroupCompromised(records, one, one[2], one[3]);
    GroupCompromised(records, two, two[0], two[1]);
  }

  // ---- The first batch ---------------------------------------------------------------------------------------

  function StartPrint(h: Hashes, tenant: string, s: Story): string {
    h.fingerprint(tenant, Suspicious, s.user, Incidents.Bucket(DEFAULTS, s.x.timestamp))
  }

  /** The tables the second batch meets: one open incident, about the first two events. */
  ghost predicate AfterStart(h: Hashes, st: Pipeline.State, desk: Desk, s: Story, tenant: string, i: Incident) {
    && Started(st, s) && Mirrors(desk.cases, st, tenant) && FindingsKnown(desk.cases) && DeskInv(DEFAULTS, h, desk)
    && desk.cases.rows == PairOf(s.x, s.y, tenant) && desk.cases.records == st.records && desk.cases.incidents == [i]
    && i.tenant == tenant && Open(i) && i.eventIds == EventIds(PairOf(s.x, s.y, tenant))
    && i.fingerprint == StartPrint(h, tenant, s)
  }

  lemma StartWanted(h: Hashes, c: Cases, s: Story, tenant: string)
    requires Start(s) && s.x.id != s.y.id
    requires Flags(GroupFindings(c.records, EventIds(PairOf(s.x, s.y, tenant)))) == RuleFlags(s.x) + RuleFlags(s.y)
    ensures Qualifies(c, PairOf(s.x, s.y, tenant))
    ensures Wanted(DEFAULTS, h, c, PairOf(s.x, s.y, tenant)) == StartPrint(h, tenant, s)
  {
    StartLinked(s, tenant);
    PrincipalOfUser(PairOf(s.x, s.y, tenant), s.user);
  }

  /** A batch that has changed something has been committed. */
  lemma CommittedMirrors(h: Hashes, d: Desk, step: Step, after: Pipeline.State, tenant: string)
    requires step.Batch? && Enabled(d, step) && AllOrNothing(DEFAULTS, h, d, step, after, tenant)
    requires Apply(DEFAULTS, h, d, step) != d
    ensures var c := Apply(DEFAULTS, h, d, step).cases; Mirrors(c, after, tenant) && FindingsKnown(c)
  {
  }

  /** The step of the first batch, as far as it matters here. */
  ghost predicate StartStep(step: Step, st: Pipeline.State, s: Story, tenant: string) {
    && step.Batch? && Enabled(NOTHING, step) && step.groups == [PairOf(s.x, s.y, tenant)]
    && step.rows == PairOf(s.x, s.y, tenant) && step.records == st.records
  }

  lemma StartApplied(h: Hashes, st: Pipeline.State, first: Step, s: Story, tenant: string)
    requires Start(s) && s.x.id != s.y.id && Started(st, s) && StartStep(first, st, s, tenant)
    requires AllOrNothing(DEFAULTS, h, NOTHING, first, st, tenant)
    ensures var desk := Apply(DEFAULTS, h, NOTHING, first);
            && Reachable(DEFAULTS, h, [first], desk) && |desk.cases.incidents| == 1
            && AfterStart(h, st, desk, s, tenant, desk.cases.incidents[0])
            && desk.cases.incidents[0].id == first.newIds(0)
  {
    PairFlags(st, s.x, s.y, tenant);
    StartWanted(h, Telemetry(first), s, tenant);
    FirstBatchCreates(h, first);
    CommittedMirrors(h, NOTHING, first, st, tenant);
  }

  lemma StartArrives(h: Hashes, baseline: Baseline, mentions: Pipeline.Mentions, tenant: string, s: Story,
                     newIds: nat -> string) returns (first: Step, desk: Desk)
    requires Start(s) && s.x.id != s.y.id && ColonFree(newIds(0))
    ensures FirstBatch(baseline, mentions, tenant, s.x, s.y, newIds, first)
    ensures Reachable(DEFAULTS, h, [first], desk) && |desk.cases.incidents| == 1
    ensures AfterStart(h, AfterPair(baseline, mentions, s.x, s.y), desk, s, tenant, desk.cases.incidents[0])
    ensures desk.cases.incidents[0].id == newIds(0)
  {
    StartLinked(s, tenant);
    first := PairArrives(h, baseline, mentions, tenant, s.x, s.y, newIds);
    FirstBatchParts(baseline, mentions, tenant, s.x, s.y, newIds, first);
    PairRows(baseline, mentions, s.x, s.y);
    StartApplied(h, AfterPair(baseline, mentions, s.x, s.y), first, s, tenant);
    desk := Apply(DEFAULTS, h, NOTHING, first);
  }

  // ---- The second batch ----------------------------------------------------------------------------------------

  /** The step is the batch of the four logins, with the groups the search emits for it. */
  ghost predicate SecondBatch(baseline: Baseline, mentions: Pipeline.Mentions, tenant: string, st: Pipeline.State,
                              s: Story, newIds: nat -> string, step: Step) {
    && st.records <= Pipeline.ProcessTelemetry(DEFAULTS, baseline, mentions, st, s.Late()).records
    && step == StepOfBatch(DEFAULTS, baseline, mentions, tenant, st, s.Late(), [s.One(tenant), s.Two(tenant)], newIds)
    && EmittedFor(Pipeline.ProcessTelemetry(DEFAULTS, baseline, mentions, st, s.Late()), s.Late(), tenant, step.groups)
  }

  lemma LateEmitted(baseline: Baseline, mentions: Pipeline.Mentions, tenant: string, st: Pipeline.State, s: Story)
    requires Told(s, baseline) && Started(st, s)
    ensures EmittedFor(Pipeline.ProcessTelemetry(DEFAULTS, baseline, mentions, st, s.Late()), s.Late(), tenant,
                       [s.One(tenant), s.Two(tenant)])
  {
    LateStored(baseline, mentions, st, s);
    LateShown(baseline, mentions, st, s);
    LateCandidates(Pipeline.ProcessTelemetry(DEFAULTS, baseline, mentions, st, s.Late()), s, baseline, tenant);
    LateGroups(s, baseline, tenant);
  }

  lemma OwnRows(desk: Desk, s: Story, tenant: string)
    requires desk.cases.rows == PairOf(s.x, s.y, tenant)
    ensures NotForeign(desk.cases, s.Late(), tenant)
  {
  }

  lemma LateArrives(h: Hashes, baseline: Baseline, mentions: Pipeline.Mentions, tenant: string, st: Pipeline.State,
                    desk: Desk, s: Story, i: Incident, newIds: nat -> string) returns (second: Step)
    requires Told(s, baseline) && AfterStart(h, st, desk, s, tenant, i) && FreshIds(desk.cases, newIds, 2)
    ensures SecondBatch(baseline, mentions, tenant, st, s, newIds, second) && Enabled(desk, second)
    ensures AllOrNothing(DEFAULTS, h, desk, second,
                         Pipeline.ProcessTelemetry(DEFAULTS, baseline, mentions, st, s.Late()), tenant)
  {
    var groups := [s.One(tenant), s.Two(tenant)];
    LateStored(baseline, mentions, st, s);
    LateEmitted(baseline, mentions, tenant, st, s);
    OwnRows(desk, s, tenant);
    second := BatchIsStep(DEFAULTS, h, baseline, mentions, tenant, st, desk, s.Late(), groups, newIds);
  }

  /** The tables the groups of the second batch are correlated on. */
  function LateTables(desk: Desk, step: Step): Cases
    requires step.Batch?
  {
    Ingested(desk.cases, step.rows, step.records)
  }

  lemma AddedRecords(c: Cases, st: Pipeline.State, after: Pipeline.State)
    requires c.records == st.records <= after.records
    ensures c.records + AddedFindings(st, after) == after.records
  {
  }

  lemma LateRecords(baseline: Baseline, mentions: Pipeline.Mentions, tenant: string, st: Pipeline.State, desk: Desk,
                    s: Story, newIds: nat -> string, step: Step)
    requires SecondBatch(baseline, mentions, tenant, st, s, newIds, step) && desk.cases.records == st.records
    ensures step.Batch? && step.groups == [s.One(tenant), s.Two(tenant)] && step.newIds == newIds
    ensures LateTables(desk, step).records
            == Pipeline.ProcessTelemetry(DEFAULTS, baseline, mentions, st, s.Late()).records
  {
    AddedRecords(desk.cases, st, Pipeline.ProcessTelemetry(DEFAULTS, baseline, mentions, st, s.Late()));
  }

  lemma LateStrengthens(h: Hashes, c: Cases, s: Story, baseline: Baseline, tenant: string, i: Incident)
    requires Told(s, baseline) && Shown(c.records, s) && c.incidents == [i] && i.tenant == tenant && Open(i)
    requires i.eventIds == EventIds(PairOf(s.x, s.y, tenant)) && i.fingerprint == StartPrint(h, tenant, s)
    requires StartPrint(h, tenant, s) != CredentialPrint(h, tenant, s.user, s.x.timestamp)
    ensures Strengthens(h, c, i, s.One(tenant), s.user) && Follows(c, s.One(tenant), s.Two(tenant), s.user)
  {
    LateGroups(s, baseline, tenant);
    BothCompromised(c.records, s, tenant);
    StoryIds(s, tenant);
  }

  lemma StoryIds(s: Story, tenant: string)
    requires Pipeline.UniqueIds(s.Rows())
    ensures Elements(EventIds(PairOf(s.x, s.y, tenant))) <= Elements(EventIds(s.One(tenant)))
    ensures Elements(EventIds(s.One(tenant))) !! Elements(EventIds(s.Two(tenant)))
  {
    var rows := s.Rows();
    assert EventIds(PairOf(s.x, s.y, tenant)) == [s.x.id, s.y.id];
    assert EventIds(s.One(tenant)) == [s.x.id, s.y.id, s.a.id, s.b.id];
    assert EventIds(s.Two(tenant)) == [s.c.id, s.d.id];
    forall k | 0 <= k < 4 ensures rows[k].id != s.c.id && rows[k].id != s.d.id {
      assert rows[4].id != rows[k].id && rows[5].id != rows[k].id;
    }
    assert rows[0].id == s.x.id && rows[1].id == s.y.id && rows[2].id == s.a.id && rows[3].id == s.b.id;
  }

  lemma ClashRollsBack(h: Hashes, desk: Desk, step: Step, one: seq<Event>, two: seq<Event>)
    requires step.Batch? && Enabled(desk, step) && step.groups == [one, two]
    requires SameFingerprint(DEFAULTS, h, LateTables(desk, step), 0, one, two, step.newIds)
    ensures Apply(DEFAULTS, h, desk, step) == desk
  {
    PendingFingerprintClash(DEFAULTS, h, LateTables(desk, step), 0, one, two, step.newIds);
  }

  lemma LateClashes(h: Hashes, baseline: Baseline, mentions: Pipeline.Mentions, tenant: string, st: Pipeline.State,
                    desk: Desk, s: Story, i: Incident, newIds: nat -> string, second: Step)
    requires Told(s, baseline) && AfterStart(h, st, desk, s, tenant, i)
    requires StartPrint(h, tenant, s) != CredentialPrint(h, tenant, s.user, s.x.timestamp)
    requires SecondBatch(baseline, mentions, tenant, st, s, newIds, second)
    ensures second.Batch?
    ensures SameFingerprint(DEFAULTS, h, LateTables(desk, second), 0, s.One(tenant), s.Two(tenant), newIds)
  {
    LateRecords(baseline, mentions, tenant, st, desk, s, newIds, second);
    LateShown(baseline, mentions, st, s);
    LateStrengthens(h, LateTables(desk, second), s, baseline, tenant, i);
    FollowerAsksTheSame(h, LateTables(desk, second), i, s.One(tenant), s.Two(tenant), s.user, newIds);
  }

  /** The second batch on the tables the first one leaves. */
  lemma LateAborts(h: Hashes, baseline: Baseline, mentions: Pipeline.Mentions, tenant: string, st: Pipeline.State,
                   desk: Desk, s: Story, i: Incident, newIds: nat -> string) returns (second: Step)
    requires Told(s, baseline) && AfterStart(h, st, desk, s, tenant, i) && FreshIds(desk.cases, newIds, 2)
    requires StartPrint(h, tenant, s) != CredentialPrint(h, tenant, s.user, s.x.timestamp)
    ensures SecondBatch(baseline, mentions, tenant, st, s, newIds, second)
    ensures SameFingerprint(DEFAULTS, h, LateTables(desk, second), 0, s.One(tenant), s.Two(tenant), newIds)
    ensures Enabled(desk, second) && Apply(DEFAULTS, h, desk, second) == desk
  {
    second := LateArrives(h, baseline, mentions, tenant, st, desk, s, i, newIds);
    LateClashes(h, baseline, mentions, tenant, st, desk, s, i, newIds, second);
    LateRecords(baseline, mentions, tenant, st, desk, s, newIds, second);
    ClashRollsBack(h, desk, second, s.One(tenant), s.Two(tenant));
  }

  lemma TwoFreshIds(c: Cases, ids: nat -> string, newIds: nat -> string)
    requires |c.incidents| == 1 && c.incidents[0].id == ids(0) && ColonFree(newIds(0)) && ColonFree(newIds(1))
    requires ids(0) != newIds(0) && ids(0) != newIds(1) && newIds(0) != newIds(1)
    ensures FreshIds(c, newIds, 2)
  {
  }

  /**
   Two batches of one tenant, through detection, the candidate query and the group search: the first
   creates a suspicious incident, and the second aborts because both its groups end up with one
   fingerprint, so its telemetry is not stored either.
   */
  lemma LateLoginsAbort(h: Hashes, baseline: Baseline, mentions: Pipeline.Mentions, tenant: string, s: Story,
                        ids: nat -> string, newIds: nat -> string)
    returns (first: Step, desk: Desk, second: Step)
    requires Told(s, baseline) && StartPrint(h, tenant, s) != CredentialPrint(h, tenant, s.user, s.x.timestamp)
    requires ColonFree(ids(0)) && ColonFree(newIds(0)) && ColonFree(newIds(1))
    requires ids(0) != newIds(0) && ids(0) != newIds(1) && newIds(0) != newIds(1)
    ensures FirstBatch(baseline, mentions, tenant, s.x, s.y, ids, first) && Reachable(DEFAULTS, h, [first], desk)
    ensures SecondBatch(baseline, mentions, tenant, AfterPair(baseline, mentions, s.x, s.y), s, newIds, second)
    ensures SameFingerprint(DEFAULTS, h, LateTables(desk, second), 0, s.One(tenant), s.Two(tenant), newIds)
    ensures Enabled(desk, second) && Apply(DEFAULTS, h, desk, second) == desk
  {
    assert s.Rows()[0].id != s.Rows()[1].id;
    first, desk := StartArrives(h, baseline, mentions, tenant, s, ids);
    TwoFreshIds(desk.cases, ids, newIds);
    second := LateAborts(h, baseline, mentions, tenant, AfterPair(baseline, mentions, s.x, s.y), desk, s,
                         desk.cases.incidents[0], newIds);
  }

  lemma OneTenant(h: Hashes, incidents: seq<Incident>, tenant: string)
    requires forall i :: i in incidents ==> i.tenant == tenant
    ensures SeparatedFrom(h, incidents, tenant)
  {
  }

  /** Had the second batch stored its telemetry and correlated its groups one by one, both would have been taken in. */
  lemma LateSplitCommits(h: Hashes, desk: Desk, step: Step, one: seq<Event>, two: seq<Event>)
    returns (d: Cases, e: Cases)
    requires DeskInv(DEFAULTS, h, desk) && step.Batch? && Enabled(desk, step) && step.groups == [one, two]
    requires SameFingerprint(DEFAULTS, h, LateTables(desk, step), 0, one, two, step.newIds)
    requires forall i :: i in desk.cases.incidents ==> i.tenant == two[0].tenant
    ensures CommitsEnriched(DEFAULTS, h, LateTables(desk, step), one, step.newIds, 0, d)
    ensures CommitsEnriched(DEFAULTS, h, d, two, step.newIds, 0, e)
  {
    IngestKeepsCases(h, desk.cases, step.rows, step.records);
    OneTenant(h, desk.cases.incidents, two[0].tenant);
    assert step.groups[0] == one && step.groups[1] == two;
    d, e := SplitBatchCommits(DEFAULTS, h, LateTables(desk, step), 0, one, two, step.newIds);
  }
}
