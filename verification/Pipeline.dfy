/**
 Incremental ingestion: persistence, historical context, detection, first-write-wins findings and
 the annotations derived from them (backend/app/services/pipeline.py, lines 29-188).
 */
module Pipeline {
  import opened Base
  import opened Config
  import opened Detection
  import opened Rules
  import C = Correlation

  // ---- Normalisation ------------------------------------------------------------------------

  function UserOf(e: RawEvent): Option<string> {
    if e.Network? then e.networkUser else Some(e.user)
  }

  function HostnameOf(e: RawEvent): Option<string> {
    if e.Endpoint? then Some(e.hostname) else if e.Network? then e.networkHost else None
  }

  function DeviceOf(e: RawEvent): Option<string> {
    if e.Authentication? then Some(e.deviceId) else if e.Cloud? then e.cloudDevice else None
  }

  function SourceIpOf(e: RawEvent): Option<string> {
    if e.Endpoint? then None else Some(e.sourceIp)
  }

  function DestinationOf(e: RawEvent): Option<string> {
    if e.Endpoint? then e.contacted else if e.Network? then Some(e.destinationIp) else None
  }

  /** The host column: the device of identity and cloud telemetry, the hostname of the rest. */
  function HostOf(e: RawEvent): Option<string> {
    match e
    case Authentication(_, _, _, _, _, _, _, _) => DeviceOf(e)
    case Cloud(_, _, _, _, _, _, _, _, _) => DeviceOf(e)
    case _ => HostnameOf(e)
  }

  function SourceName(e: RawEvent): string {
    match e
    case Authentication(_, _, _, _, _, _, _, _) => "Identity"
    case Endpoint(_, _, _, _, _, _, _, _) => "Endpoint"
    case Network(_, _, _, _, _, _, _) => "Network"
    case Cloud(_, _, _, _, _, _, _, _, _) => "Cloud"
  }

  /** The stored row correlation works on. */
  function Normalize(e: RawEvent, tenant: string): C.Event {
    C.Event(e.id, tenant, e.timestamp, SourceName(e), UserOf(e), HostOf(e), SourceIpOf(e),
            C.Payload(DeviceOf(e), DestinationOf(e),
                      e.Cloud? && e.sensitiveResource, e.Cloud? && e.privileged,
                      if e.Endpoint? then Some(e.eventType) else None,
                      if e.Cloud? then Some(e.resource) else None))
  }

  // ---- Historical context ---------------------------------------------------------------------

  /** Decides the query clause that searches a row's stored text for an address. */
  type Mentions = (RawEvent, string) -> bool

  function Lookback(cfg: Settings): int {
    Max(Max(cfg.correlationWindowMinutes, cfg.impossibleTravelWindowMinutes),
        Max(cfg.privilegedActionWindowMinutes, cfg.mfaFatigueWindowMinutes)) * MINUTE
  }

  /** `row` matches one of the query clauses built from the incoming event `e`. */
  predicate Matches(mentions: Mentions, e: RawEvent, row: RawEvent) {
    || (UserOf(e).Some? && UserOf(row) == UserOf(e))
    || (HostOf(row).Some? && (HostOf(row) == HostnameOf(e) || HostOf(row) == DeviceOf(e)))
    || (SourceIpOf(e).Some? && SourceIpOf(row) == SourceIpOf(e))
    || (DestinationOf(e).Some? && mentions(row, DestinationOf(e).value))
  }

  predicate InContext(cfg: Settings, mentions: Mentions, batch: seq<RawEvent>, row: RawEvent) {
    && (exists e :: e in batch && row.timestamp >= e.timestamp - Lookback(cfg))
    && (exists e :: e in batch && row.timestamp <= e.timestamp)
    && (exists e :: e in batch && Matches(mentions, e, row))
  }

  /**
   Stored events from the earliest incoming timestamp minus the lookback to the latest incoming
   timestamp that share something with the batch, ordered by time.
   */
  function HistoricalContext(cfg: Settings, mentions: Mentions, rows: seq<RawEvent>,
                             batch: seq<RawEvent>): seq<RawEvent>
  {
    SortBy(Filter(rows, row => InContext(cfg, mentions, batch, row)), TimeOf)
  }

  predicate HasId(events: seq<RawEvent>, id: string) {
    exists e :: e in events && e.id == id
  }

  /** One assignment to an insertion-ordered dictionary under the event's id, on its sequence of values. */
  function Place(values: seq<RawEvent>, e: RawEvent): seq<RawEvent> {
    if values == [] then [e]
    else if values[0].id == e.id then [e] + values[1..]
    else [values[0]] + Place(values[1..], e)
  }

  /** The dictionary of the context and the batch by event id; later ones replace earlier ones in place. */
  function Typed(context: seq<RawEvent>, batch: seq<RawEvent>): seq<RawEvent> {
    if batch == [] then context
    else Place(Typed(context, batch[..|batch| - 1]), batch[|batch| - 1])
  }

  // ---- Persistent state -----------------------------------------------------------------------

  datatype Annotation = Annotation(flags: set<string>, risk: int)

  /** The event table in insertion order, the finding table, and each event's derived columns. */
  datatype State = State(rows: seq<RawEvent>, records: seq<Finding>, notes: map<string, Annotation>)

  const EMPTY := State([], [], map[])

  function Unstored(rows: seq<RawEvent>): RawEvent -> bool {
    (e: RawEvent) => !HasId(rows, e.id)
  }

  /** The events to insert: the lookup finds stored rows, not what the same batch has already added. */
  function NewRows(rows: seq<RawEvent>, batch: seq<RawEvent>): seq<RawEvent> {
    Filter(batch, Unstored(rows))
  }

  function AddRows(rows: seq<RawEvent>, batch: seq<RawEvent>): seq<RawEvent> {
    rows + NewRows(rows, batch)
  }

  predicate UniqueIds(events: seq<RawEvent>) {
    forall i, j :: 0 <= i < j < |events| ==> events[i].id != events[j].id
  }

  /** Some id that is not stored yet occurs twice in the batch. */
  predicate RepeatsNewId(rows: seq<RawEvent>, batch: seq<RawEvent>) {
    exists i, j :: 0 <= i < j < |batch| && batch[i].id == batch[j].id && !HasId(rows, batch[i].id)
  }

  /** The primary key is violated exactly when the batch repeats a new id. */
  lemma FlushFailsIff(rows: seq<RawEvent>, batch: seq<RawEvent>)
    ensures !UniqueIds(NewRows(rows, batch)) <==> RepeatsNewId(rows, batch)
  {
    var added := NewRows(rows, batch);
    if i, j :| 0 <= i < j < |added| && added[i].id == added[j].id {
      var x, y := FilterPositions(batch, Unstored(rows), i, j);
      assert batch[x].id == batch[y].id && !HasId(rows, batch[x].id);
    }
    if i, j :| 0 <= i < j < |batch| && batch[i].id == batch[j].id && !HasId(rows, batch[i].id) {
      var x, y := FilterKeeps(batch, Unstored(rows), i, j);
      assert added[x].id == added[y].id;
    }
  }

  type Key = (string, string, string, string)

  function KeyOf(f: Finding): Key {
    (f.eventId, f.rule, f.version, f.flag)
  }

  predicate Recorded(records: seq<Finding>, key: Key) {
    exists r :: r in records && KeyOf(r) == key
  }

  /** First write wins: a finding is stored only when its key is not stored yet. */
  function Record(records: seq<Finding>, findings: seq<Finding>): seq<Finding> {
    if findings == [] then records
    else
      var n := |findings| - 1;
      var earlier := Record(records, findings[..n]);
      if Recorded(earlier, KeyOf(findings[n])) then earlier else earlier + [findings[n]]
  }

  function FlagsOf(records: seq<Finding>, id: string): set<string> {
    set r | r in records && r.eventId == id :: r.flag
  }

  function PointsOf(records: seq<Finding>, id: string): int {
    if records == [] then 0
    else
      var n := |records| - 1;
      PointsOf(records[..n], id) + if records[n].eventId == id then records[n].risk else 0
  }

  function Derive(records: seq<Finding>, id: string): Annotation {
    Annotation(FlagsOf(records, id), Min(100, PointsOf(records, id)))
  }

  predicate Affected(findings: seq<Finding>, id: string) {
    exists f :: f in findings && f.eventId == id
  }

  /** New rows start unannotated; rows with a finding in this run are recomputed from all records. */
  function Annotate(notes: map<string, Annotation>, rows: seq<RawEvent>, records: seq<Finding>,
                    findings: seq<Finding>): map<string, Annotation> {
    map e | e in rows :: e.id :=
      if Affected(findings, e.id) then Derive(records, e.id)
      else if e.id in notes then notes[e.id] else Annotation({}, 0)
  }

  function Slice(cfg: Settings, mentions: Mentions, rows: seq<RawEvent>, batch: seq<RawEvent>): seq<RawEvent> {
    SortBy(Typed(HistoricalContext(cfg, mentions, rows, batch), batch), TimeOf)
  }

  /** The state after one batch; one that repeats a new id is rolled back. */
  function ProcessTelemetry(cfg: Settings, baseline: Baseline, mentions: Mentions, st: State,
                            batch: seq<RawEvent>): State
    requires 1 <= cfg.mfaFatigueThreshold
  {
    if batch == [] || RepeatsNewId(st.rows, batch) then st
    else
      var rows := AddRows(st.rows, batch);
      var findings := Detected(cfg, baseline, Slice(cfg, mentions, rows, batch));
      var records := Record(st.records, findings);
      State(rows, records, Annotate(st.notes, rows, records, findings))
  }

  // ---- The pipeline object --------------------------------------------------------------------

  ghost predicate WellFormed(st: State) {
    forall id :: id in st.notes <==> HasId(st.rows, id)
  }

  /** One tenant's event and finding tables, updated in place by each batch. */
  class TelemetryStore {
    const cfg: Settings
    const baseline: Baseline
    const mentions: Mentions
    var rows: seq<RawEvent>
    var records: seq<Finding>
    var notes: map<string, Annotation>

    ghost function Snapshot(): State
      reads this
    {
      State(rows, records, notes)
    }

    ghost predicate Valid()
      reads this
    {
      1 <= cfg.mfaFatigueThreshold && WellFormed(Snapshot())
    }

    constructor (cfg: Settings, baseline: Baseline, mentions: Mentions)
      requires 1 <= cfg.mfaFatigueThreshold
      ensures Valid() && Snapshot() == EMPTY
      ensures this.cfg == cfg && this.baseline == baseline && this.mentions == mentions
    {
      this.cfg, this.baseline, this.mentions := cfg, baseline, mentions;
      rows, records, notes := [], [], map[];
    }

    /** One transaction: persist, look back, detect, store new findings, recompute annotations. */
    method Process(batch: seq<RawEvent>) returns (ok: bool)
      requires Valid()
      modifies this
      ensures Valid() && (ok <==> !RepeatsNewId(old(rows), batch))
      ensures Snapshot() == ProcessTelemetry(cfg, baseline, mentions, old(Snapshot()), batch)
    {
      if batch == [] {
        return true;
      }
      ok := Persist(batch);
      if !ok {
        return;
      }
      var slice := Slice(cfg, mentions, rows, batch);
      var findings := RunDetection(cfg, baseline, slice);
      Commit(findings, old(notes));
    }

    /** Stores the new findings and recomputes the annotations they affect. */
    method Commit(findings: seq<Finding>, ghost before: map<string, Annotation>)
      requires Valid()
      requires forall id :: id in notes ==> notes[id] == if id in before then before[id] else Annotation({}, 0)
      modifies this`records, this`notes
      ensures Valid() && records == Record(old(records), findings)
      ensures notes == Annotate(before, rows, records, findings)
    {
      StoreFindings(findings);
      Reannotate(findings);
      AnnotationsMatch(before, old(notes), notes, rows, records, findings);
    }

    /** Collects the new rows and flushes them; the primary key may refuse them. */
    method Persist(batch: seq<RawEvent>) returns (ok: bool)
      requires Valid()
      modifies this`rows, this`notes
      ensures Valid() && (ok <==> !RepeatsNewId(old(rows), batch))
      ensures !ok ==> rows == old(rows) && notes == old(notes)
      ensures ok ==> rows == AddRows(old(rows), batch)
      ensures ok ==> forall id :: id in notes ==>
                notes[id] == if id in old(notes) then old(notes)[id] else Annotation({}, 0)
    {
      var pending := [];
      assert batch[..|batch|] == batch;
      for n := 0 to |batch|
        invariant pending == NewRows(rows, batch[..n])
      {
        assert batch[..n + 1][..n] == batch[..n];
        if !HasId(rows, batch[n].id) {
          pending := pending + [batch[n]];
        }
      }
      FlushFailsIff(rows, batch);
      ok := UniqueIds(pending);
      if ok {
        RowsAdded(rows, pending);
        rows := rows + pending;
        notes := (map e | e in pending :: e.id := Annotation({}, 0)) + notes;
      }
    }

    method StoreFindings(findings: seq<Finding>)
      requires Valid()
      modifies this`records
      ensures Valid() && records == Record(old(records), findings)
    {
      assert findings[..|findings|] == findings;
      for n := 0 to |findings|
        invariant records == Record(old(records), findings[..n])
      {
        assert findings[..n + 1][..n] == findings[..n];
        if !Recorded(records, KeyOf(findings[n])) {
          records := records + [findings[n]];
        }
      }
    }

    method Reannotate(findings: seq<Finding>)
      requires Valid()
      modifies this`notes
      ensures Valid()
      ensures forall id :: id in notes ==>
                notes[id] == if Affected(findings, id) then Derive(records, id) else old(notes)[id]
    {
      var pending := set f | f in findings && f.eventId in notes :: f.eventId;
      ghost var all := pending;
      while pending != {}
        invariant notes.Keys == old(notes).Keys && pending <= all
        invariant forall id :: id in notes ==>
                    notes[id] == if id in all - pending then Derive(records, id) else old(notes)[id]
      {
        var id :| id in pending;
        notes := notes[id := Derive(records, id)];
        pending := pending - {id};
      }
    }
  }

  lemma AnnotationsMatch(before: map<string, Annotation>, loaded: map<string, Annotation>,
                         after: map<string, Annotation>, rows: seq<RawEvent>, records: seq<Finding>,
                         findings: seq<Finding>)
    requires forall id :: id in loaded <==> HasId(rows, id)
    requires forall id :: id in after <==> HasId(rows, id)
    requires forall id :: id in loaded ==> loaded[id] == if id in before then before[id] else Annotation({}, 0)
    requires forall id :: id in after ==>
               after[id] == if Affected(findings, id) then Derive(records, id) else loaded[id]
    ensures after == Annotate(before, rows, records, findings)
  {
  }

  lemma RowsAdded(rows: seq<RawEvent>, more: seq<RawEvent>)
    ensures forall id :: HasId(rows + more, id) <==> HasId(rows, id) || HasId(more, id)
  {
  }
}
