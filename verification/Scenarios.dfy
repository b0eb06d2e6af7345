/**
 Batches that lead to what the laws speak of: raw telemetry goes through detection, the candidate query
 and the group search at the default settings, and the resulting step of the incident machine creates
 the incident, or aborts.
 */
module Scenarios {
  import opened Base
  import opened Config
  import Correlation
  import Groups
  import opened Detection
  import opened Rules
  import Pipeline
  import Ingestion
  import Incremental
  import opened Playbook
  import opened Risk
  import opened Incidents
  import opened IncidentLaws
  import opened Absorption
  import opened Sessions
  import opened Transactions
  import opened Response
  import opened Workflow
  import opened WorkflowLaws
  import opened Batches
  import opened Continuations

  type Event = Correlation.Event

  // ---- The events detection looks at ----------------------------------------------------------------

  function RuleFlags(e: RawEvent): set<string> {
    set f | f in EventRules(DEFAULTS, e) :: f.flag
  }

  /** Among events of hosts and the network each event has the flags of its own rules. */
  lemma LocalFlags(events: seq<RawEvent>, e: RawEvent)
    requires e in events && forall o :: o in events && o.id == e.id ==> o == e
    ensures Pipeline.FlagsOf(AllEventRules(DEFAULTS, events), e.id) == RuleFlags(e)
  {
    var all := AllEventRules(DEFAULTS, events);
    forall flag ensures flag in Pipeline.FlagsOf(all, e.id) <==> flag in RuleFlags(e) {
      if flag in Pipeline.FlagsOf(all, e.id) {
        var f :| f in all && f.eventId == e.id && f.flag == flag;
        EventRulesCollected(DEFAULTS, events, f);
        var o :| o in events && f in EventRules(DEFAULTS, o);
        EventRuleFinding(DEFAULTS, o, f);
      }
      if flag in RuleFlags(e) {
        var f :| f in EventRules(DEFAULTS, e) && f.flag == flag;
        EventRulesCollected(DEFAULTS, events, f);
        EventRuleFinding(DEFAULTS, e, f);
      }
    }
  }

  // ---- Two events of hosts or the network ---------------------------------------------------------------

  /** Two flagged events, in time order, that the search links. */
  ghost predicate Linked(x: RawEvent, y: RawEvent, tenant: string) {
    && Local(x) && Local(y) && x.id != y.id && 0 <= y.timestamp - x.timestamp <= 15 * MINUTE
    && RuleFlags(x) != {} && RuleFlags(y) != {}
    && Correlation.PrunedEdge(DEFAULTS)(Pipeline.Normalize(x, tenant), Pipeline.Normalize(y, tenant))
  }

  /** The pipeline's state after they have arrived as the first batch. */
  ghost function AfterPair(baseline: Baseline, mentions: Pipeline.Mentions, x: RawEvent, y: RawEvent): Pipeline.State {
    Pipeline.ProcessTelemetry(DEFAULTS, baseline, mentions, Pipeline.EMPTY, [x, y])
  }

  /** The pipeline's laws hold of its state. */
  ghost predicate Sane(st: Pipeline.State) {
    Ingestion.Consistent(st) && Ingestion.UniqueKeys(st.records) && Ingestion.Scoring(st.records)
  }

  lemma EmptySane()
    ensures Sane(Pipeline.EMPTY)
  {
  }

  lemma ProcessKeepsSane(baseline: Baseline, mentions: Pipeline.Mentions, st: Pipeline.State, batch: seq<RawEvent>)
    requires Sane(st)
    ensures Sane(Pipeline.ProcessTelemetry(DEFAULTS, baseline, mentions, st, batch))
  {
    Ingestion.ProcessKeepsConsistent(DEFAULTS, baseline, mentions, st, batch);
    Ingestion.ProcessKeepsScoring(DEFAULTS, baseline, mentions, st, batch);
    Incremental.ProcessKeepsKeysUnique(DEFAULTS, baseline, mentions, st, batch);
  }

  /** A batch of new events is stored as a whole, and judged in its own context. */
  lemma FreshBatch(baseline: Baseline, mentions: Pipeline.Mentions, st: Pipeline.State, batch: seq<RawEvent>)
    requires batch != [] && Pipeline.UniqueIds(st.rows + batch)
    ensures var after := Pipeline.ProcessTelemetry(DEFAULTS, baseline, mentions, st, batch);
            var slice := Pipeline.Slice(DEFAULTS, mentions, st.rows + batch, batch);
            && after.rows == st.rows + batch
            && after.records == Pipeline.Record(st.records, Detected(DEFAULTS, baseline, slice))
    ensures Pipeline.NewRows(st.rows, batch) == batch && !Pipeline.RepeatsNewId(st.rows, batch)
  {
    Incremental.AddRowsFresh(st.rows, batch);
    assert (st.rows + batch)[|st.rows|..] == batch;
  }

  /** The first batch is judged on itself. */
  lemma FirstSlice(mentions: Pipeline.Mentions, batch: seq<RawEvent>)
    requires Pipeline.UniqueIds([] + batch)
    ensures forall e :: e in Pipeline.Slice(DEFAULTS, mentions, [] + batch, batch) <==> e in batch
  {
    Incremental.SliceMembers(DEFAULTS, mentions, [], batch);
    forall e | e in batch ensures Pipeline.InContext(DEFAULTS, mentions, batch, e) {
      Incremental.BatchInContext(DEFAULTS, mentions, batch, e);
    }
    assert forall e :: e in [] + batch <==> e in batch;
  }

  lemma PairSlice(mentions: Pipeline.Mentions, x: RawEvent, y: RawEvent)
    requires x.id != y.id
    ensures Pipeline.UniqueIds(Pipeline.EMPTY.rows + [x, y])
    ensures forall e :: e in Pipeline.Slice(DEFAULTS, mentions, Pipeline.EMPTY.rows + [x, y], [x, y])
                        <==> e == x || e == y
  {
    FirstSlice(mentions, [x, y]);
  }

  lemma PairRows(baseline: Baseline, mentions: Pipeline.Mentions, x: RawEvent, y: RawEvent)
    requires Local(x) && Local(y) && x.id != y.id
    ensures var after := AfterPair(baseline, mentions, x, y);
            && after.rows == [x, y] && Sane(after) && FlaggedByRules(after, x, y)
    ensures !Pipeline.RepeatsNewId([], [x, y]) && Pipeline.NewRows([], [x, y]) == [x, y]
  {
    PairSlice(mentions, x, y);
    FreshBatch(baseline, mentions, Pipeline.EMPTY, [x, y]);
    PairFindings(baseline, Pipeline.Slice(DEFAULTS, mentions, Pipeline.EMPTY.rows + [x, y], [x, y]), x, y);
    EmptySane();
    ProcessKeepsSane(baseline, mentions, Pipeline.EMPTY, [x, y]);
  }

  /** The records are those of the rules on single events. */
  ghost predicate FlaggedByRules(st: Pipeline.State, x: RawEvent, y: RawEvent) {
    && Pipeline.FlagsOf(st.records, x.id) == RuleFlags(x) && Pipeline.FlagsOf(st.records, y.id) == RuleFlags(y)
    && forall r :: r in st.records ==> r.rule != TRAVEL_RULE
  }

  lemma PairFindings(baseline: Baseline, slice: seq<RawEvent>, x: RawEvent, y: RawEvent)
    requires Local(x) && Local(y) && x.id != y.id && forall e :: e in slice <==> e == x || e == y
    ensures var records := Pipeline.Record([], Detected(DEFAULTS, baseline, slice));
            && Pipeline.FlagsOf(records, x.id) == RuleFlags(x) && Pipeline.FlagsOf(records, y.id) == RuleFlags(y)
            && forall r :: r in records ==> r.rule != TRAVEL_RULE
  {
    var findings := Detected(DEFAULTS, baseline, slice);
    LocalDetected(DEFAULTS, baseline, slice);
    LocalFlags(slice, x);
    LocalFlags(slice, y);
    RecordedFlags(findings, x.id);
    RecordedFlags(findings, y.id);
    Ingestion.RecordMembers([], findings);
    EventRulesAreOthers(DEFAULTS, slice);
  }

  lemma RecordedFlags(findings: seq<Finding>, id: string)
    ensures Pipeline.FlagsOf(Pipeline.Record([], findings), id) == Pipeline.FlagsOf(findings, id)
  {
    Ingestion.RecordFlags([], findings, id);
  }

  // ---- From records to groups ------------------------------------------------------------------------

  /** Some rule other than impossible travel has reported the event. */
  ghost predicate Reported(records: seq<Finding>, id: string) {
    exists r :: r in records && r.eventId == id && r.rule != TRAVEL_RULE
  }

  /** Such an event, close to the batch, is a candidate. */
  lemma FlaggedIsCandidate(st: Pipeline.State, batch: seq<RawEvent>, e: RawEvent)
    requires Sane(st) && NearBatch(DEFAULTS, batch, e) && Reported(st.records, e.id)
    ensures Candidate(DEFAULTS, st, batch)(e)
  {
    var r :| r in st.records && r.eventId == e.id && r.rule != TRAVEL_RULE;
    Ingestion.ScoredRow(st, r);
  }

  /** Where every stored event is a candidate, all of them are correlated. */
  lemma AllCandidates(st: Pipeline.State, batch: seq<RawEvent>, tenant: string)
    requires forall e :: e in st.rows ==> Candidate(DEFAULTS, st, batch)(e)
    ensures Candidates(DEFAULTS, st, batch, tenant) == Normalized(st.rows, tenant)
  {
    FilterAll(st.rows, Candidate(DEFAULTS, st, batch));
  }

  lemma HasRecord(st: Pipeline.State, id: string)
    requires Pipeline.FlagsOf(st.records, id) != {}
    ensures exists r :: r in st.records && r.eventId == id
  {
    var flag :| flag in Pipeline.FlagsOf(st.records, id);
  }

  lemma PairCandidates(st: Pipeline.State, x: RawEvent, y: RawEvent, tenant: string)
    requires Sane(st) && st.rows == [x, y] && FlaggedByRules(st, x, y) && RuleFlags(x) != {} && RuleFlags(y) != {}
    ensures Candidates(DEFAULTS, st, [x, y], tenant) == Normalized([x, y], tenant)
  {
    HasRecord(st, x.id);
    HasRecord(st, y.id);
    FlaggedIsCandidate(st, [x, y], x);
    FlaggedIsCandidate(st, [x, y], y);
    AllCandidates(st, [x, y], tenant);
  }

  lemma PairGroups(x: RawEvent, y: RawEvent, tenant: string)
    requires Linked(x, y, tenant)
    ensures var a, b := Pipeline.Normalize(x, tenant), Pipeline.Normalize(y, tenant);
            Groups.Emitted(DEFAULTS, [a, b], [[a, b]])
  {
    var a, b := Pipeline.Normalize(x, tenant), Pipeline.Normalize(y, tenant);
    Groups.PrunedEdgeSymmetric(DEFAULTS, {a, b});
    Groups.BurstEmitted(DEFAULTS, [a, b]);
  }

  lemma {:induction false} GroupFindingsMembers(records: seq<Finding>, ids: seq<string>, f: Finding)
    ensures f in GroupFindings(records, ids) <==> f in records && f.eventId in ids
  {
    if ids == [] {
    } else {
      var n := |ids| - 1;
      assert ids == ids[..n] + [ids[n]];
      GroupFindingsMembers(records, ids[..n], f);
      FindingsAboutMembers(records, {ids[n]}, f);
    }
  }

  lemma FindingsAboutMembers(records: seq<Finding>, ids: set<string>, f: Finding)
    ensures f in FindingsAbout(records, ids) <==> f in records && f.eventId in ids
  {
    FindingsAboutCount(records, ids, f);
    assert f in FindingsAbout(records, ids) <==> f in multiset(FindingsAbout(records, ids));
    assert f in records <==> f in multiset(records);
  }

  lemma GroupFlags(records: seq<Finding>, ids: seq<string>, flag: string)
    ensures flag in Flags(GroupFindings(records, ids))
            <==> exists id :: id in ids && flag in Pipeline.FlagsOf(records, id)
  {
    if flag in Flags(GroupFindings(records, ids)) {
      var f :| f in GroupFindings(records, ids) && f.flag == flag;
      GroupFindingsMembers(records, ids, f);
      assert flag in Pipeline.FlagsOf(records, f.eventId);
    }
    if id :| id in ids && flag in Pipeline.FlagsOf(records, id) {
      var f :| f in records && f.eventId == id && f.flag == flag;
      GroupFindingsMembers(records, ids, f);
    }
  }

  // ---- The first batch as a step ------------------------------------------------------------------------

  function PairOf(x: RawEvent, y: RawEvent, tenant: string): seq<Event> {
    [Pipeline.Normalize(x, tenant), Pipeline.Normalize(y, tenant)]
  }

  /** The step is the batch of the two events on empty tables, with the groups the search emits for it. */
  ghost predicate FirstBatch(baseline: Baseline, mentions: Pipeline.Mentions, tenant: string, x: RawEvent, y: RawEvent,
                             newIds: nat -> string, step: Step) {
    && Pipeline.EMPTY.records <= AfterPair(baseline, mentions, x, y).records
    && step == StepOfBatch(DEFAULTS, baseline, mentions, tenant, Pipeline.EMPTY, [x, y], [PairOf(x, y, tenant)], newIds)
    && EmittedFor(AfterPair(baseline, mentions, x, y), [x, y], tenant, step.groups)
  }

  lemma NothingMirrors(tenant: string)
    ensures Mirrors(NOTHING.cases, Pipeline.EMPTY, tenant) && FindingsKnown(NOTHING.cases)
  {
  }

  lemma PairNormalized(x: RawEvent, y: RawEvent, tenant: string)
    ensures Normalized([x, y], tenant) == PairOf(x, y, tenant)
  {
  }

  lemma PairEmitted(st: Pipeline.State, x: RawEvent, y: RawEvent, tenant: string)
    requires Linked(x, y, tenant) && Sane(st) && st.rows == [x, y] && FlaggedByRules(st, x, y)
    ensures EmittedFor(st, [x, y], tenant, [PairOf(x, y, tenant)])
  {
    PairCandidates(st, x, y, tenant);
    PairNormalized(x, y, tenant);
    PairGroups(x, y, tenant);
  }

  /** The groups are what the search emits for the candidates of the batch. */
  ghost predicate EmittedFor(after: Pipeline.State, batch: seq<RawEvent>, tenant: string, groups: seq<seq<Event>>) {
    Groups.Emitted(DEFAULTS, Candidates(DEFAULTS, after, batch, tenant), groups)
  }

  lemma OneFreshId(newIds: nat -> string, n: nat)
    requires n <= 1 && ColonFree(newIds(0))
    ensures FreshIds(NOTHING.cases, newIds, n)
  {
  }

  /** Any first batch, with the groups emitted for it, is a step from empty tables. */
  lemma FirstStep(h: Hashes, baseline: Baseline, mentions: Pipeline.Mentions, tenant: string, batch: seq<RawEvent>,
                  groups: seq<seq<Event>>, newIds: nat -> string) returns (step: Step)
    requires !Pipeline.RepeatsNewId([], batch) && FreshIds(NOTHING.cases, newIds, |groups|)
    requires EmittedFor(Pipeline.ProcessTelemetry(DEFAULTS, baseline, mentions, Pipeline.EMPTY, batch), batch, tenant,
                        groups)
    ensures Pipeline.EMPTY.records
            <= Pipeline.ProcessTelemetry(DEFAULTS, baseline, mentions, Pipeline.EMPTY, batch).records
    ensures step == StepOfBatch(DEFAULTS, baseline, mentions, tenant, Pipeline.EMPTY, batch, groups, newIds)
    ensures Enabled(NOTHING, step)
    ensures AllOrNothing(DEFAULTS, h, NOTHING, step,
                         Pipeline.ProcessTelemetry(DEFAULTS, baseline, mentions, Pipeline.EMPTY, batch), tenant)
  {
    NothingMirrors(tenant);
    NothingInv(DEFAULTS, h);
    EmptySane();
    step := BatchIsStep(DEFAULTS, h, baseline, mentions, tenant, Pipeline.EMPTY, NOTHING, batch, groups, newIds);
  }

  lemma PairArrives(h: Hashes, baseline: Baseline, mentions: Pipeline.Mentions, tenant: string, x: RawEvent,
                    y: RawEvent, newIds: nat -> string) returns (step: Step)
    requires Linked(x, y, tenant) && ColonFree(newIds(0))
    ensures FirstBatch(baseline, mentions, tenant, x, y, newIds, step) && Enabled(NOTHING, step)
    ensures AllOrNothing(DEFAULTS, h, NOTHING, step, AfterPair(baseline, mentions, x, y), tenant)
  {
    PairRows(baseline, mentions, x, y);
    PairEmitted(AfterPair(baseline, mentions, x, y), x, y, tenant);
    OneFreshId(newIds, 1);
    step := FirstStep(h, baseline, mentions, tenant, [x, y], [PairOf(x, y, tenant)], newIds);
  }

  lemma FirstBatchParts(baseline: Baseline, mentions: Pipeline.Mentions, tenant: string, x: RawEvent, y: RawEvent,
                        newIds: nat -> string, step: Step)
    requires FirstBatch(baseline, mentions, tenant, x, y, newIds, step) && Local(x) && Local(y) && x.id != y.id
    ensures step.Batch? && step.groups == [PairOf(x, y, tenant)] && step.newIds == newIds
    ensures step.rows == PairOf(x, y, tenant) && step.records == AfterPair(baseline, mentions, x, y).records
  {
    PairRows(baseline, mentions, x, y);
    PairNormalized(x, y, tenant);
  }

  // ---- The incident it creates ----------------------------------------------------------------------------

  lemma PairFlags(st: Pipeline.State, x: RawEvent, y: RawEvent, tenant: string)
    requires FlaggedByRules(st, x, y)
    ensures Flags(GroupFindings(st.records, EventIds(PairOf(x, y, tenant)))) == RuleFlags(x) + RuleFlags(y)
  {
    var ids := EventIds(PairOf(x, y, tenant));
    assert ids == [x.id, y.id];
    forall flag ensures flag in Flags(GroupFindings(st.records, ids)) <==> flag in RuleFlags(x) + RuleFlags(y) {
      GroupFlags(st.records, ids, flag);
      assert x.id in ids && y.id in ids;
    }
  }

  /** The tables the first batch is correlated on. */
  function Telemetry(step: Step): Cases
    requires step.Batch?
  {
    Cases(step.rows, step.records, [], [])
  }

  lemma FirstTables(step: Step)
    requires step.Batch?
    ensures Ingested(NOTHING.cases, step.rows, step.records) == Telemetry(step)
  {
    assert [] + step.rows == step.rows && [] + step.records == step.records;
  }

  /** One batch with one qualifying group creates one incident for it. */
  lemma FirstBatchCreates(h: Hashes, step: Step)
    requires step.Batch? && Enabled(NOTHING, step) && |step.groups| == 1 && Qualifies(Telemetry(step), step.groups[0])
    ensures var d, group := Apply(DEFAULTS, h, NOTHING, step), step.groups[0];
            && Reachable(DEFAULTS, h, [step], d) && DeskInv(DEFAULTS, h, d) && d.executions == []
            && CreatedIn(Telemetry(step), d.cases, group, step.newIds(0)) && |d.cases.incidents| == 1
            && d.cases.incidents[0].kind == InferType(Flags(GroupFindings(step.records, EventIds(group))))
            && d.cases.incidents[0].fingerprint == Wanted(DEFAULTS, h, Telemetry(step), group)
  {
    var group := step.groups[0];
    FirstTables(step);
    assert step.groups == [group];
    FirstIncident(DEFAULTS, h, Telemetry(step), group, step.newIds(0));
    OneGroupStep(DEFAULTS, h, NOTHING, step, group);
    FirstStepReaches(DEFAULTS, h, step);
  }

  // ---- An endpoint incident -----------------------------------------------------------------------------------

  /** PowerShell with a suspicious command line, then access to the credential store, by one user on one host. */
  predicate EndpointAttack(x: RawEvent, y: RawEvent) {
    && x.Endpoint? && y.Endpoint? && x.id != y.id && x.user == y.user != "" && x.hostname == y.hostname
    && 0 <= y.timestamp - x.timestamp <= 15 * MINUTE
    && SuspiciousPowerShell(x) && Upper(y.eventType) == "CREDENTIAL_STORE_ACCESS"
  }

  /** Two such events; their ids have the length the schema asks for. */
  const SHELL := RawEvent.Endpoint("EVT-1", 0, "host-1", "alice", "powershell.exe",
                                   "powershell " + "-EncodedCommand" + " SQBFAFgA", "PROCESS_START", None)
  const STORE := RawEvent.Endpoint("EVT-2", MINUTE, "host-1", "alice", "lsass.exe", "", "CREDENTIAL_STORE_ACCESS", None)

  lemma LowerContains(before: string, text: string, after: string, needle: string)
    requires Lower(text) == needle
    ensures Contains(Lower(before + text + after), needle)
  {
    var all := Lower(before + text + after);
    assert all[|before|..][..|text|] == Lower(text);
    ContainsAt(all, needle, |before|);
  }

  lemma ShellSuspicious()
    ensures SuspiciousPowerShell(SHELL)
  {
    LowerContains("", "powershell", ".exe", "powershell");
    assert "" + "powershell" + ".exe" == "powershell.exe";
    LowerContains("powershell ", "-EncodedCommand", " SQBFAFgA", "-encodedcommand");
  }

  lemma AttackExists()
    ensures EndpointAttack(SHELL, STORE)
  {
    assert "EVT-1"[4] != "EVT-2"[4];
    ShellSuspicious();
  }

  lemma PowerShellFlagged(e: RawEvent)
    requires SuspiciousPowerShell(e)
    ensures "SUSPICIOUS_POWERSHELL" in RuleFlags(e)
  {
    assert Simple(e, "ENDP-001", "1.0", "SUSPICIOUS_POWERSHELL", 30) in EventRules(DEFAULTS, e);
  }

  lemma CredentialAccessFlagged(e: RawEvent)
    requires e.Endpoint? && Upper(e.eventType) == "CREDENTIAL_STORE_ACCESS"
    ensures "CREDENTIAL_ACCESS" in RuleFlags(e)
  {
    assert Simple(e, "ENDP-002", "1.0", "CREDENTIAL_ACCESS", 30) in EventRules(DEFAULTS, e);
  }

  lemma EndpointFlagsOnly(e: RawEvent)
    requires e.Endpoint?
    ensures RuleFlags(e) <= {"SUSPICIOUS_POWERSHELL", "CREDENTIAL_ACCESS", "PERSISTENCE"}
  {
  }

  /** Events of one user within an hour are linked. */
  lemma SameUserLinked(a: Event, b: Event)
    requires a != b && Truthy(a.user) && a.user == b.user && Correlation.Gap(a, b) <= 60 * MINUTE
    ensures Correlation.PrunedEdge(DEFAULTS)(a, b)
  {
    Correlation.AnchoredMeaning(a, b);
  }

  lemma AttackLinked(x: RawEvent, y: RawEvent, tenant: string)
    requires EndpointAttack(x, y)
    ensures Linked(x, y, tenant)
    ensures InferType(RuleFlags(x) + RuleFlags(y)) == Kind.Endpoint && |RuleFlags(x) + RuleFlags(y)| >= 2
  {
    PowerShellFlagged(x);
    CredentialAccessFlagged(y);
    SameUserLinked(Pipeline.Normalize(x, tenant), Pipeline.Normalize(y, tenant));
    EndpointFlagsOnly(x);
    EndpointFlagsOnly(y);
    EndpointType(RuleFlags(x) + RuleFlags(y));
  }

  lemma EndpointType(flags: set<string>)
    requires {"SUSPICIOUS_POWERSHELL", "CREDENTIAL_ACCESS"} <= flags
    requires flags <= {"SUSPICIOUS_POWERSHELL", "CREDENTIAL_ACCESS", "PERSISTENCE"}
    ensures InferType(flags) == Kind.Endpoint && |flags| >= 2
  {
    assert "CREDENTIAL_ACCESS" in flags * {"CREDENTIAL_ACCESS", "KNOWN_MALICIOUS_IP"};
    assert "SUSPICIOUS_POWERSHELL"[0] != "CREDENTIAL_ACCESS"[0];
    SubsetSize({"SUSPICIOUS_POWERSHELL", "CREDENTIAL_ACCESS"}, flags);
  }

  ghost predicate OneUser(events: seq<Event>, user: string) {
    events != [] && user != "" && forall e :: e in events ==> e.user == Some(user)
  }

  lemma {:induction false} PresentAll(values: seq<Option<string>>, v: string)
    requires v != "" && forall n :: 0 <= n < |values| ==> values[n] == Some(v)
    ensures |Present(values)| == |values| && forall n :: 0 <= n < |values| ==> Present(values)[n] == v
  {
    if values == [] {
    } else {
      PresentAll(values[..|values| - 1], v);
    }
  }

  /** The principal of a group of one user is that user. */
  lemma PrincipalOfUser(events: seq<Event>, user: string)
    requires OneUser(events, user)
    ensures Principal(events) == Some(user) && !Anonymous(events)
  {
    var users := seq(|events|, i requires 0 <= i < |events| => events[i].user);
    forall n | 0 <= n < |users| ensures users[n] == Some(user) {
      assert events[n] in events;
    }
    PresentAll(users, user);
    var k := LeaderIsMode(Users(events), |Users(events)|);
    assert events[0] in events;
  }

  lemma NamedPair(x: RawEvent, y: RawEvent, tenant: string)
    requires x.Endpoint? && y.Endpoint? && x.user != ""
    ensures !Anonymous(PairOf(x, y, tenant)) && Principal(PairOf(x, y, tenant)).Some?
  {
    assert PairOf(x, y, tenant)[0] in PairOf(x, y, tenant);
    PrincipalNoneIff(PairOf(x, y, tenant));
  }

  lemma AttackQualifies(baseline: Baseline, mentions: Pipeline.Mentions, tenant: string, x: RawEvent, y: RawEvent,
                        newIds: nat -> string, step: Step)
    requires EndpointAttack(x, y) && FirstBatch(baseline, mentions, tenant, x, y, newIds, step)
    ensures step.Batch? && Qualifies(Telemetry(step), PairOf(x, y, tenant))
    ensures InferType(Flags(GroupFindings(step.records, EventIds(PairOf(x, y, tenant))))) == Kind.Endpoint
  {
    AttackLinked(x, y, tenant);
    FirstBatchParts(baseline, mentions, tenant, x, y, newIds, step);
    PairRows(baseline, mentions, x, y);
    PairFlags(AfterPair(baseline, mentions, x, y), x, y, tenant);
    NamedPair(x, y, tenant);
  }

  /**
   Such a pair of events, as the first batch of a tenant, leads from empty tables to a new endpoint
   incident of which nothing has been executed.
   */
  lemma EndpointReached(h: Hashes, baseline: Baseline, mentions: Pipeline.Mentions, tenant: string, x: RawEvent,
                        y: RawEvent, newIds: nat -> string) returns (step: Step, d: Desk)
    requires EndpointAttack(x, y) && ColonFree(newIds(0))
    ensures FirstBatch(baseline, mentions, tenant, x, y, newIds, step)
    ensures Reachable(DEFAULTS, h, [step], d) && NewEndpoint(DEFAULTS, h, d, 0)
  {
    AttackLinked(x, y, tenant);
    step := PairArrives(h, baseline, mentions, tenant, x, y, newIds);
    d := Apply(DEFAULTS, h, NOTHING, step);
    FirstBatchParts(baseline, mentions, tenant, x, y, newIds, step);
    AttackQualifies(baseline, mentions, tenant, x, y, newIds, step);
    FirstBatchCreates(h, step);
    CreatedIsNew(DEFAULTS, h, d, Telemetry(step), PairOf(x, y, tenant), newIds(0));
  }

  // ---- A third incident for it -----------------------------------------------------------------------------------

  function AttackPrint(h: Hashes, tenant: string, x: RawEvent): string
    requires x.Endpoint?
  {
    h.fingerprint(tenant, Kind.Endpoint, x.user, Bucket(DEFAULTS, x.timestamp))
  }

  lemma AttackWanted(h: Hashes, c: Cases, x: RawEvent, y: RawEvent, tenant: string)
    requires EndpointAttack(x, y) && Qualifies(c, PairOf(x, y, tenant))
    requires InferType(Flags(GroupFindings(c.records, EventIds(PairOf(x, y, tenant))))) == Kind.Endpoint
    ensures Wanted(DEFAULTS, h, c, PairOf(x, y, tenant)) == AttackPrint(h, tenant, x)
  {
    PrincipalOfUser(PairOf(x, y, tenant), x.user);
  }

  lemma ThirdAttackAborts(h: Hashes, c: Cases, x: RawEvent, y: RawEvent, tenant: string, first: nat -> string,
                          second: nat -> string, third: nat -> string) returns (once: Cases, again: Cases)
    requires EndpointAttack(x, y) && Qualifies(c, PairOf(x, y, tenant)) && c.incidents == []
    requires InferType(Flags(GroupFindings(c.records, EventIds(PairOf(x, y, tenant))))) == Kind.Endpoint
    requires AttackPrint(h, tenant, x) != h.rehash(tenant, AttackPrint(h, tenant, x), [x.id, y.id])
    ensures Round(DEFAULTS, h, c, PairOf(x, y, tenant), first) == Some(once)
    ensures Round(DEFAULTS, h, once, PairOf(x, y, tenant), second) == Some(again)
    ensures CorrelateBatch(DEFAULTS, h, again, [PairOf(x, y, tenant)], third) == None
  {
    AttackWanted(h, c, x, y, tenant);
    assert EventIds(PairOf(x, y, tenant)) == [x.id, y.id];
    once, again := ThirdIncidentHappens(DEFAULTS, h, c, PairOf(x, y, tenant), first, second, third);
  }

  /**
   If the incident of such a pair is resolved, created again from the same events and resolved again,
   the third time the batch aborts, unless the two hashes of the pair are equal.
   */
  lemma ThirdEndpointAborts(h: Hashes, baseline: Baseline, mentions: Pipeline.Mentions, tenant: string, x: RawEvent,
                            y: RawEvent, step: Step, first: nat -> string, second: nat -> string,
                            third: nat -> string) returns (once: Cases, again: Cases)
    requires EndpointAttack(x, y) && FirstBatch(baseline, mentions, tenant, x, y, first, step)
    requires AttackPrint(h, tenant, x) != h.rehash(tenant, AttackPrint(h, tenant, x), [x.id, y.id])
    ensures step.Batch? && Round(DEFAULTS, h, Telemetry(step), PairOf(x, y, tenant), first) == Some(once)
    ensures Round(DEFAULTS, h, once, PairOf(x, y, tenant), second) == Some(again)
    ensures CorrelateBatch(DEFAULTS, h, again, [PairOf(x, y, tenant)], third) == None
  {
    AttackQualifies(baseline, mentions, tenant, x, y, first, step);
    once, again := ThirdAttackAborts(h, Telemetry(step), x, y, tenant, first, second, third);
  }

  // ---- A batch nobody can be named for ----------------------------------------------------------------------------

  /** Two large transfers to one known malicious address, without a user or a host. */
  predicate AnonymousTransfers(x: RawEvent, y: RawEvent) {
    && x.Network? && y.Network? && x.id != y.id && 0 <= y.timestamp - x.timestamp <= 15 * MINUTE
    && x.networkUser == y.networkUser == None && x.networkHost == y.networkHost == None
    && x.destinationIp == y.destinationIp && x.destinationIp in MALICIOUS_IPS
    && x.bytesSent >= DEFAULTS.unusualEgressBytes && y.bytesSent >= DEFAULTS.unusualEgressBytes
  }

  lemma TransferFlagged(e: RawEvent)
    requires e.Network? && e.destinationIp in MALICIOUS_IPS && e.bytesSent >= DEFAULTS.unusualEgressBytes
    ensures {"KNOWN_MALICIOUS_IP", "UNUSUAL_EGRESS"} <= RuleFlags(e)
  {
    assert Simple(e, "NET-001", "1.0", "KNOWN_MALICIOUS_IP", 35) in EventRules(DEFAULTS, e);
    assert Simple(e, "NET-002", "1.0", "UNUSUAL_EGRESS", 25) in EventRules(DEFAULTS, e);
  }

  /** Events with one destination within 15 minutes are linked. */
  lemma SameDestinationLinked(a: Event, b: Event)
    requires a != b && Truthy(a.data.destinationIp) && a.data.destinationIp == b.data.destinationIp
    requires 0 <= b.timestamp - a.timestamp <= 15 * MINUTE
    ensures Correlation.PrunedEdge(DEFAULTS)(a, b)
  {
    Correlation.AnchoredMeaning(a, b);
    assert a.data.destinationIp.value in Correlation.Addresses(a) * Correlation.Addresses(b);
  }

  lemma TwoTransferFlags(flags: set<string>)
    requires {"KNOWN_MALICIOUS_IP", "UNUSUAL_EGRESS"} <= flags
    ensures |flags| >= 2
  {
    assert "KNOWN_MALICIOUS_IP"[0] != "UNUSUAL_EGRESS"[0];
    SubsetSize({"KNOWN_MALICIOUS_IP", "UNUSUAL_EGRESS"}, flags);
  }

  lemma TransfersLinked(x: RawEvent, y: RawEvent, tenant: string)
    requires AnonymousTransfers(x, y)
    ensures Linked(x, y, tenant) && |RuleFlags(x) + RuleFlags(y)| >= 2
  {
    TransferFlagged(x);
    TransferFlagged(y);
    TwoTransferFlags(RuleFlags(x) + RuleFlags(y));
    SameDestinationLinked(Pipeline.Normalize(x, tenant), Pipeline.Normalize(y, tenant));
  }

  lemma TransfersAnonymous(x: RawEvent, y: RawEvent, tenant: string)
    requires AnonymousTransfers(x, y)
    ensures Anonymous(PairOf(x, y, tenant))
  {
  }

  lemma AnonymousBatchAborts(h: Hashes, step: Step)
    requires step.Batch? && Enabled(NOTHING, step) && |step.groups| == 1 && Anonymous(step.groups[0])
    requires |Flags(GroupFindings(step.records, EventIds(step.groups[0])))| >= 2
    ensures Apply(DEFAULTS, h, NOTHING, step) == NOTHING
  {
    FirstTables(step);
    assert step.groups == [step.groups[0]];
    IndexErrorIff(DEFAULTS, h, Begin(Telemetry(step)), step.groups[0], step.newIds(0));
    OneGroup(DEFAULTS, h, Begin(Telemetry(step)), step.groups[0], step.newIds);
  }

  /** As the first batch of a tenant they raise the index error, so the batch stores nothing. */
  lemma AnonymousTransfersAbort(h: Hashes, baseline: Baseline, mentions: Pipeline.Mentions, tenant: string,
                                x: RawEvent, y: RawEvent, newIds: nat -> string) returns (step: Step)
    requires AnonymousTransfers(x, y) && ColonFree(newIds(0))
    ensures FirstBatch(baseline, mentions, tenant, x, y, newIds, step) && Enabled(NOTHING, step)
    ensures Apply(DEFAULTS, h, NOTHING, step) == NOTHING
  {
    TransfersLinked(x, y, tenant);
    TransfersAnonymous(x, y, tenant);
    step := PairArrives(h, baseline, mentions, tenant, x, y, newIds);
    FirstBatchParts(baseline, mentions, tenant, x, y, newIds, step);
    PairRows(baseline, mentions, x, y);
    PairFlags(AfterPair(baseline, mentions, x, y), x, y, tenant);
    AnonymousBatchAborts(h, step);
  }
}
