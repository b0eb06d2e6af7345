/**
 Batch-by-batch ingestion agrees with one detection run over the whole history on impossible
 travel (backend/app/services/pipeline.py, lines 80-166).
 */
module Incremental {
  import opened Base
  import opened Config
  import opened Detection
  import opened Rules
  import opened Pipeline
  import opened Ingestion

  function Flatten(batches: seq<seq<RawEvent>>): seq<RawEvent> {
    if batches == [] then [] else Flatten(batches[..|batches| - 1]) + batches[|batches| - 1]
  }

  /** Each batch lies strictly after everything delivered before it; no id occurs twice. */
  ghost predicate InOrder(batches: seq<seq<RawEvent>>) {
    && UniqueIds(Flatten(batches))
    && (batches != [] ==>
          var n := |batches| - 1;
          && InOrder(batches[..n])
          && forall x, y :: x in Flatten(batches[..n]) && y in batches[n] ==> TimeOf(x) < TimeOf(y))
  }

  function ProcessAll(cfg: Settings, baseline: Baseline, mentions: Mentions, batches: seq<seq<RawEvent>>): State
    requires 1 <= cfg.mfaFatigueThreshold
  {
    if batches == [] then EMPTY
    else
      var n := |batches| - 1;
      ProcessTelemetry(cfg, baseline, mentions, ProcessAll(cfg, baseline, mentions, batches[..n]), batches[n])
  }

  function TravelKey(id: string): Key {
    (id, TRAVEL_RULE, TRAVEL_VERSION, TRAVEL_FLAG)
  }

  /** `id` carries the 30-point finding of the later login of an impossible journey. */
  predicate LaterLogin(findings: seq<Finding>, id: string) {
    exists f :: f in findings && KeyOf(f) == TravelKey(id) && f.risk == 30
  }

  // ---- The first travel finding of an event ---------------------------------------------------

  function FirstPoints(findings: seq<Finding>, id: string): Option<int> {
    if findings == [] then None
    else
      var n := |findings| - 1;
      var earlier := FirstPoints(findings[..n], id);
      if earlier.Some? then earlier
      else if KeyOf(findings[n]) == TravelKey(id) then Some(findings[n].risk) else None
  }

  lemma {:induction false} FirstPointsAppend(a: seq<Finding>, b: seq<Finding>, id: string)
    ensures FirstPoints(a + b, id) == if FirstPoints(a, id).Some? then FirstPoints(a, id) else FirstPoints(b, id)
  {
    if b == [] {
      assert a + b == a;
    } else {
      var n := |b| - 1;
      assert (a + b)[..|a + b| - 1] == a + b[..n];
      FirstPointsAppend(a, b[..n], id);
    }
  }

  lemma {:induction false} FirstPointsKnown(findings: seq<Finding>, id: string)
    ensures FirstPoints(findings, id).Some? <==> Recorded(findings, TravelKey(id))
    ensures FirstPoints(findings, id) == Some(30) ==> LaterLogin(findings, id)
  {
    if findings == [] {
    } else {
      var n := |findings| - 1;
      FirstPointsKnown(findings[..n], id);
      assert findings == findings[..n] + [findings[n]];
      assert forall f :: f in findings[..n] ==> f in findings;
      assert findings[n] in findings;
    }
  }

  /** First write wins: what is stored for an event is the first finding ever produced for it. */
  lemma {:induction false} RecordKeepsFirst(records: seq<Finding>, findings: seq<Finding>, id: string)
    ensures FirstPoints(Record(records, findings), id)
         == if FirstPoints(records, id).Some? then FirstPoints(records, id) else FirstPoints(findings, id)
  {
    if findings == [] {
    } else {
      var n := |findings| - 1;
      RecordKeepsFirst(records, findings[..n], id);
      var earlier := Record(records, findings[..n]);
      FirstPointsKnown(earlier, id);
      assert (earlier + [findings[n]])[..|earlier|] == earlier;
    }
  }

  lemma {:induction false} UniqueFirst(records: seq<Finding>, id: string)
    requires UniqueKeys(records)
    ensures LaterLogin(records, id) <==> FirstPoints(records, id) == Some(30)
  {
    if records == [] {
    } else {
      var n := |records| - 1;
      UniqueFirst(records[..n], id);
      FirstPointsKnown(records[..n], id);
      assert records == records[..n] + [records[n]];
      if KeyOf(records[n]) == TravelKey(id) {
        forall r | r in records[..n] ensures KeyOf(r) != TravelKey(id) {
          var i :| 0 <= i < n && records[i] == r;
        }
      }
    }
  }

  lemma OthersHaveNoTravel(rest: seq<Finding>, events: seq<RawEvent>, id: string)
    requires Others(rest, events)
    ensures FirstPoints(rest, id) == None && !LaterLogin(rest, id)
  {
  }

  // ---- Who is flagged, without any window -----------------------------------------------------

  /** The login `id` conflicts with some login before it in the sequence. */
  ghost predicate Flagged(window: int, logins: seq<RawEvent>, id: string) {
    exists j, i :: 0 <= j < i < |logins| && logins[i].id == id && Conflict(window, logins[j], logins[i])
  }

  lemma FlaggedSnoc(window: int, logins: seq<RawEvent>, current: RawEvent, id: string)
    requires UniqueIds(logins + [current])
    ensures Flagged(window, logins + [current], id) <==>
            if id == current.id then LatestConflict(window, logins, current).Some?
            else Flagged(window, logins, id)
  {
    var all := logins + [current];
    LatestConflictMeaning(window, logins, current);
    if Flagged(window, all, id) {
      var j, i :| 0 <= j < i < |all| && all[i].id == id && Conflict(window, all[j], all[i]);
      if i < |logins| {
        assert all[i].id != all[|logins|].id;
        assert logins[i].id == id && Conflict(window, logins[j], logins[i]);
      } else {
        assert Conflict(window, logins[j], current);
      }
    }
    if Flagged(window, logins, id) {
      var j, i :| 0 <= j < i < |logins| && logins[i].id == id && Conflict(window, logins[j], logins[i]);
      assert all[i].id == id && all[i].id != all[|logins|].id && Conflict(window, all[j], all[i]);
    }
    if LatestConflict(window, logins, current).Some? {
      var j :| 0 <= j < |logins| && Conflict(window, logins[j], current);
      assert all[|logins|] == current && Conflict(window, all[j], all[|logins|]);
    }
  }

  /**
   An event is treated as the current login before it can be anyone's partner, so its first travel
   finding is the 30-point one exactly when it is flagged.
   */
  lemma {:induction false} TravelFirst(window: int, logins: seq<RawEvent>, id: string)
    requires UniqueIds(logins)
    ensures FirstPoints(TravelFindings(window, logins), id) == Some(30) <==> Flagged(window, logins, id)
    ensures LaterLogin(TravelFindings(window, logins), id) <==> Flagged(window, logins, id)
    ensures FirstPoints(TravelFindings(window, logins), id).Some? ==> HasId(logins, id)
  {
    if logins == [] {
    } else {
      var n := |logins| - 1;
      var prior, current := logins[..n], logins[n];
      assert logins == prior + [current];
      TravelFirst(window, prior, id);
      FlaggedSnoc(window, prior, current, id);
      PairFirst(window, prior, current, id);
      FirstPointsAppend(TravelFindings(window, prior), TravelPair(window, prior, current), id);
      LaterLoginAppend(TravelFindings(window, prior), TravelPair(window, prior, current), id);
      HasIdSnoc(prior, current, id);
    }
  }

  lemma HasIdSnoc(events: seq<RawEvent>, e: RawEvent, id: string)
    ensures HasId(events + [e], id) <==> HasId(events, id) || id == e.id
  {
  }

  lemma LaterLoginAppend(a: seq<Finding>, b: seq<Finding>, id: string)
    ensures LaterLogin(a + b, id) <==> LaterLogin(a, id) || LaterLogin(b, id)
  {
  }

  lemma PairFirst(window: int, prior: seq<RawEvent>, current: RawEvent, id: string)
    requires UniqueIds(prior + [current])
    ensures LaterLogin(TravelPair(window, prior, current), id)
       <==> id == current.id && LatestConflict(window, prior, current).Some?
    ensures id == current.id ==> !HasId(prior, id)
    ensures FirstPoints(TravelPair(window, prior, current), id) == Some(30)
       <==> id == current.id && LatestConflict(window, prior, current).Some?
    ensures FirstPoints(TravelPair(window, prior, current), id).Some? ==> HasId(prior + [current], id)
  {
    var all := prior + [current];
    forall e | e in prior ensures e.id != current.id {
      var i :| 0 <= i < |prior| && prior[i] == e;
      assert all[i] == e && all[|prior|] == current;
    }
    LatestConflictMeaning(window, prior, current);
    var pair := TravelPair(window, prior, current);
    if pair != [] {
      var p := LatestConflict(window, prior, current).value;
      var j :| 0 <= j < |prior| && prior[j] == p;
      assert p in prior && p in all && current in all;
      assert pair == [pair[0]] + [pair[1]];
      assert pair[..1] == [pair[0]] && pair[..1][..0] == [];
      assert FirstPoints(pair[..1], id) == if id == p.id then Some(0) else None;
      assert pair[1] in pair;
    }
  }

  // ---- From the slice to the whole history ----------------------------------------------------

  /** Selecting some logins never flags more. */
  lemma SelectionFlagsLess(window: int, logins: seq<RawEvent>, keep: RawEvent -> bool, id: string)
    requires Flagged(window, Filter(logins, keep), id)
    ensures Flagged(window, logins, id)
  {
    var f := Filter(logins, keep);
    var j, i :| 0 <= j < i < |f| && f[i].id == id && Conflict(window, f[j], f[i]);
    var x, y := FilterPositions(logins, keep, j, i);
    assert Conflict(window, logins[x], logins[y]);
  }

  /** A selection that keeps a login and everything it conflicts with flags it as before. */
  lemma SelectionFlagsSame(window: int, logins: seq<RawEvent>, keep: RawEvent -> bool, id: string)
    requires Flagged(window, logins, id)
    requires forall j, i :: 0 <= j < i < |logins| && logins[i].id == id && Conflict(window, logins[j], logins[i])
               ==> keep(logins[j]) && keep(logins[i])
    ensures Flagged(window, Filter(logins, keep), id)
  {
    var j, i :| 0 <= j < i < |logins| && logins[i].id == id && Conflict(window, logins[j], logins[i]);
    var x, y := FilterKeeps(logins, keep, j, i);
    var f := Filter(logins, keep);
    assert f[y].id == id && Conflict(window, f[x], f[y]);
  }

  /** Later logins do not change whether an earlier one is flagged. */
  lemma {:induction false} LaterLoginsIrrelevant(window: int, logins: seq<RawEvent>, later: seq<RawEvent>, id: string)
    requires UniqueIds(logins + later) && !HasId(later, id)
    ensures Flagged(window, logins + later, id) <==> Flagged(window, logins, id)
  {
    if later == [] {
      assert logins + later == logins;
    } else {
      var n := |later| - 1;
      assert logins + later == (logins + later[..n]) + [later[n]];
      assert later == later[..n] + [later[n]];
      HasIdSnoc(later[..n], later[n], id);
      UniquePrefix(logins + later[..n], later[n]);
      LaterLoginsIrrelevant(window, logins, later[..n], id);
      FlaggedSnoc(window, logins + later[..n], later[n], id);
    }
  }

  lemma UniquePrefix(events: seq<RawEvent>, e: RawEvent)
    requires UniqueIds(events + [e])
    ensures UniqueIds(events)
  {
    var all := events + [e];
    forall i, j | 0 <= i < j < |events| ensures events[i].id != events[j].id {
      assert all[i].id != all[j].id;
    }
  }

  lemma {:induction false} FilterTwice(s: seq<RawEvent>, p: RawEvent -> bool, q: RawEvent -> bool)
    ensures Filter(Filter(s, p), q) == Filter(Filter(s, q), p)
  {
    if s == [] {
    } else {
      var n := |s| - 1;
      assert s == s[..n] + [s[n]];
      FilterTwice(s[..n], p, q);
      FilterTwiceSnoc(s[..n], s[n], p, q);
    }
  }

  lemma FilterTwiceSnoc(t: seq<RawEvent>, x: RawEvent, p: RawEvent -> bool, q: RawEvent -> bool)
    requires Filter(Filter(t, p), q) == Filter(Filter(t, q), p)
    ensures Filter(Filter(t + [x], p), q) == Filter(Filter(t + [x], q), p)
  {
    var tp, tq := Filter(t, p), Filter(t, q);
    FilterSnoc(t, x, p);
    FilterSnoc(t, x, q);
    FilterSnoc(tp, x, q);
    FilterSnoc(tq, x, p);
  }

  lemma {:induction false} PlaceAgain(values: seq<RawEvent>, e: RawEvent)
    requires UniqueIds(values) && e in values
    ensures Place(values, e) == values
  {
    if values[0].id == e.id {
      var i :| 0 <= i < |values| && values[i] == e;
      assert i == 0;
    } else {
      var rest := values[1..];
      forall i, j | 0 <= i < j < |rest| ensures rest[i].id != rest[j].id {
        assert values[i + 1].id != values[j + 1].id;
      }
      PlaceAgain(rest, e);
    }
  }

  lemma {:induction false} TypedAgain(context: seq<RawEvent>, batch: seq<RawEvent>)
    requires UniqueIds(context) && forall e :: e in batch ==> e in context
    ensures Typed(context, batch) == context
  {
    if batch == [] {
    } else {
      var n := |batch| - 1;
      assert forall e :: e in batch[..n] ==> e in batch;
      TypedAgain(context, batch[..n]);
      assert batch[n] in batch;
      PlaceAgain(context, batch[n]);
    }
  }

  lemma UniquePermuted(s: seq<RawEvent>, t: seq<RawEvent>)
    requires UniqueIds(s) && multiset(s) == multiset(t)
    ensures UniqueIds(t)
  {
    forall i, j | 0 <= i < j < |t| ensures t[i].id != t[j].id {
      assert t[i] in multiset(s) && t[j] in multiset(s);
      var k :| 0 <= k < |s| && s[k] == t[i];
      UniqueOnce(s, k);
      CountedTwice(t, i, j);
      SameId(s, t[i], t[j]);
    }
  }

  lemma UniqueOnce(s: seq<RawEvent>, k: nat)
    requires UniqueIds(s) && k < |s|
    ensures multiset(s)[s[k]] == 1
  {
    assert s == s[..k] + [s[k]] + s[k + 1..];
    assert s[k] !in s[..k] && s[k] !in s[k + 1..];
  }

  lemma {:induction false} UniqueFilter(s: seq<RawEvent>, keep: RawEvent -> bool)
    requires UniqueIds(s)
    ensures UniqueIds(Filter(s, keep))
  {
    var f := Filter(s, keep);
    forall i, j | 0 <= i < j < |f| ensures f[i].id != f[j].id {
      var x, y := FilterPositions(s, keep, i, j);
    }
  }

  ghost function Selected(cfg: Settings, mentions: Mentions, batch: seq<RawEvent>): RawEvent -> bool {
    row => InContext(cfg, mentions, batch, row)
  }

  lemma BatchInContext(cfg: Settings, mentions: Mentions, batch: seq<RawEvent>, e: RawEvent)
    requires e in batch && 0 <= cfg.impossibleTravelWindowMinutes
    ensures InContext(cfg, mentions, batch, e)
  {
  }

  /** Every incoming event is already in its own context, so the two merge into the context. */
  lemma BatchIsContext(cfg: Settings, mentions: Mentions, earlier: seq<RawEvent>, batch: seq<RawEvent>)
    requires UniqueIds(earlier + batch) && 0 <= cfg.impossibleTravelWindowMinutes
    ensures var context := HistoricalContext(cfg, mentions, earlier + batch, batch);
            Typed(context, batch) == context
  {
    var rows := earlier + batch;
    var kept := Filter(rows, Selected(cfg, mentions, batch));
    var context := SortBy(kept, TimeOf);
    forall e | e in batch ensures e in context {
      assert e in rows;
      BatchInContext(cfg, mentions, batch, e);
      SortByMembers(kept, TimeOf);
    }
    UniqueFilter(rows, Selected(cfg, mentions, batch));
    UniquePermuted(kept, context);
    TypedAgain(context, batch);
  }

  /** The events detection looks at: those of the context, the batch included. */
  lemma SliceMembers(cfg: Settings, mentions: Mentions, earlier: seq<RawEvent>, batch: seq<RawEvent>)
    requires UniqueIds(earlier + batch) && 0 <= cfg.impossibleTravelWindowMinutes
    ensures forall e :: e in Slice(cfg, mentions, earlier + batch, batch)
                        <==> e in earlier + batch && InContext(cfg, mentions, batch, e)
  {
    var rows := earlier + batch;
    BatchIsContext(cfg, mentions, earlier, batch);
    SortByMembers(Filter(rows, Selected(cfg, mentions, batch)), TimeOf);
    SortByMembers(HistoricalContext(cfg, mentions, rows, batch), TimeOf);
  }

  /** The logins a batch is judged on: those of the whole table that the context query selects. */
  lemma SliceLogins(cfg: Settings, mentions: Mentions, earlier: seq<RawEvent>, batch: seq<RawEvent>)
    requires UniqueIds(earlier + batch) && 0 <= cfg.impossibleTravelWindowMinutes
    ensures Logins(Slice(cfg, mentions, earlier + batch, batch))
         == Filter(Logins(earlier + batch), Selected(cfg, mentions, batch))
  {
    var rows := earlier + batch;
    BatchIsContext(cfg, mentions, earlier, batch);
    var sel := Selected(cfg, mentions, batch);
    var kept := Filter(rows, sel);
    var context := HistoricalContext(cfg, mentions, rows, batch);
    SortByIsSorted(kept, TimeOf);
    SortBySorted(context, TimeOf);
    LoginsOfSorted(kept);
    FilterTwice(rows, sel, IsLogin);
    SortByCommutesWithFilter(Filter(rows, IsLogin), TimeOf, sel);
  }

  lemma LoginsOfSorted(events: seq<RawEvent>)
    ensures Logins(SortBy(events, TimeOf)) == Logins(events)
  {
    SortByCommutesWithFilter(events, TimeOf, IsLogin);
    SortByIsSorted(Filter(events, IsLogin), TimeOf);
    SortBySorted(Logins(events), TimeOf);
  }

  lemma LoginsAppendLater(earlier: seq<RawEvent>, batch: seq<RawEvent>)
    requires forall x, y :: x in earlier && y in batch ==> TimeOf(x) < TimeOf(y)
    ensures Logins(earlier + batch) == Logins(earlier) + Logins(batch)
  {
    FilterAppend(earlier, batch, IsLogin);
    SortByAppendLater(Filter(earlier, IsLogin), Filter(batch, IsLogin), TimeOf);
  }

  lemma LoginsUnique(events: seq<RawEvent>)
    requires UniqueIds(events)
    ensures UniqueIds(Logins(events))
    ensures forall id :: HasId(Logins(events), id) ==> HasId(events, id)
  {
    UniqueFilter(events, IsLogin);
    UniquePermuted(Filter(events, IsLogin), Logins(events));
    LoginsAreLogins(events);
  }

  /** What a new login conflicts with is in its batch's context: same user, inside the lookback. */
  lemma PartnersSelected(cfg: Settings, mentions: Mentions, logins: seq<RawEvent>, batch: seq<RawEvent>, id: string)
    requires 0 <= cfg.impossibleTravelWindowMinutes
    requires forall e :: e in logins && e.id == id ==> e in batch
    ensures forall j, i :: 0 <= j < i < |logins| && logins[i].id == id
              && Conflict(cfg.impossibleTravelWindowMinutes * MINUTE, logins[j], logins[i])
              ==> Selected(cfg, mentions, batch)(logins[j]) && Selected(cfg, mentions, batch)(logins[i])
  {
  }

  /** The table's first travel record is the 30-point one exactly for the flagged logins of `rows`. */
  ghost predicate Agrees(cfg: Settings, st: State) {
    forall id :: FirstPoints(st.records, id) == Some(30)
            <==> Flagged(cfg.impossibleTravelWindowMinutes * MINUTE, Logins(st.rows), id)
  }

  lemma AddRowsFresh(rows: seq<RawEvent>, batch: seq<RawEvent>)
    requires UniqueIds(rows + batch)
    ensures AddRows(rows, batch) == rows + batch && !RepeatsNewId(rows, batch)
  {
    var all := rows + batch;
    forall e | e in batch ensures !HasId(rows, e.id) {
      var k :| 0 <= k < |batch| && batch[k] == e;
      assert all[|rows| + k] == e;
      forall x | x in rows ensures x.id != e.id {
        var i :| 0 <= i < |rows| && rows[i] == x;
        assert all[i].id != all[|rows| + k].id;
      }
    }
    FilterAll(batch, Unstored(rows));
    forall i, j | 0 <= i < j < |batch| ensures batch[i].id != batch[j].id {
      assert all[|rows| + i].id != all[|rows| + j].id;
    }
  }

  lemma BatchKeepsAgreement(cfg: Settings, baseline: Baseline, mentions: Mentions, st: State, batch: seq<RawEvent>)
    requires 1 <= cfg.mfaFatigueThreshold && 0 <= cfg.impossibleTravelWindowMinutes
    requires UniqueIds(st.rows + batch)
    requires forall x, y :: x in st.rows && y in batch ==> TimeOf(x) < TimeOf(y)
    requires About(st.records, st.rows) && Agrees(cfg, st)
    ensures var next := ProcessTelemetry(cfg, baseline, mentions, st, batch);
            next.rows == st.rows + batch && Agrees(cfg, next)
  {
    if batch == [] {
      assert st.rows + batch == st.rows;
    } else {
      var next := ProcessTelemetry(cfg, baseline, mentions, st, batch);
      AddRowsFresh(st.rows, batch);
      forall id
        ensures FirstPoints(next.records, id) == Some(30)
           <==> Flagged(cfg.impossibleTravelWindowMinutes * MINUTE, Logins(next.rows), id)
      {
        RunFirst(cfg, baseline, mentions, st, batch, id);
        SliceFlags(cfg, mentions, st, batch, id);
      }
    }
  }

  /** The travel points the detector first gives an event of the batch's context. */
  ghost function SlicePoints(cfg: Settings, mentions: Mentions, rows: seq<RawEvent>, batch: seq<RawEvent>,
                             id: string): Option<int>
  {
    FirstPoints(TravelFindings(cfg.impossibleTravelWindowMinutes * MINUTE,
                               Filter(Logins(rows), Selected(cfg, mentions, batch))), id)
  }

  /** After a batch an event keeps its stored travel points, or else gets those of the slice. */
  lemma RunFirst(cfg: Settings, baseline: Baseline, mentions: Mentions, st: State, batch: seq<RawEvent>, id: string)
    requires 1 <= cfg.mfaFatigueThreshold && 0 <= cfg.impossibleTravelWindowMinutes
    requires batch != [] && UniqueIds(st.rows + batch)
    ensures FirstPoints(ProcessTelemetry(cfg, baseline, mentions, st, batch).records, id)
         == if FirstPoints(st.records, id).Some? then FirstPoints(st.records, id)
            else SlicePoints(cfg, mentions, st.rows + batch, batch, id)
  {
    var rows := st.rows + batch;
    AddRowsFresh(st.rows, batch);
    var slice := Slice(cfg, mentions, rows, batch);
    SliceLogins(cfg, mentions, st.rows, batch);
    var findings := Detected(cfg, baseline, slice);
    var rest := RestAreOthers(cfg, baseline, slice);
    RecordKeepsFirst(st.records, findings, id);
    FirstPointsAppend(TravelFindings(cfg.impossibleTravelWindowMinutes * MINUTE, Logins(slice)), rest, id);
    OthersHaveNoTravel(rest, slice, id);
  }

  /** For one id: the first stored record wins, and the slice decides like the whole table. */
  lemma SliceFlags(cfg: Settings, mentions: Mentions, st: State, batch: seq<RawEvent>, id: string)
    requires 0 <= cfg.impossibleTravelWindowMinutes
    requires UniqueIds(st.rows + batch)
    requires forall x, y :: x in st.rows && y in batch ==> TimeOf(x) < TimeOf(y)
    requires About(st.records, st.rows) && Agrees(cfg, st)
    ensures (if FirstPoints(st.records, id).Some? then FirstPoints(st.records, id)
             else SlicePoints(cfg, mentions, st.rows + batch, batch, id)) == Some(30)
       <==> Flagged(cfg.impossibleTravelWindowMinutes * MINUTE, Logins(st.rows + batch), id)
  {
    var window := cfg.impossibleTravelWindowMinutes * MINUTE;
    var logins := Logins(st.rows + batch);
    var sel := Selected(cfg, mentions, batch);
    LoginsUnique(st.rows + batch);
    UniqueFilter(logins, sel);
    TravelFirst(window, Filter(logins, sel), id);
    if Flagged(window, Filter(logins, sel), id) {
      SelectionFlagsLess(window, logins, sel, id);
    }
    FirstPointsKnown(st.records, id);
    if HasId(batch, id) {
      NewIdIsFresh(st.rows, batch, id);
      PartnersSelected(cfg, mentions, logins, batch, id);
      if Flagged(window, logins, id) {
        SelectionFlagsSame(window, logins, sel, id);
      }
    } else {
      LoginsAppendLater(st.rows, batch);
      LoginsAreLogins(batch);
      assert !HasId(Logins(batch), id);
      LaterLoginsIrrelevant(window, Logins(st.rows), Logins(batch), id);
    }
  }

  lemma NewIdIsFresh(rows: seq<RawEvent>, batch: seq<RawEvent>, id: string)
    requires UniqueIds(rows + batch) && HasId(batch, id)
    ensures !HasId(rows, id)
    ensures forall e :: e in Logins(rows + batch) && e.id == id ==> e in batch
  {
    var all := rows + batch;
    var b :| b in batch && b.id == id;
    var k :| 0 <= k < |batch| && batch[k] == b;
    assert all[|rows| + k] == b;
    forall e | e in rows ensures e.id != id {
      var i :| 0 <= i < |rows| && rows[i] == e;
      assert all[i] == e;
    }
    LoginsAreLogins(all);
  }

  lemma {:induction false} RunAgrees(cfg: Settings, baseline: Baseline, mentions: Mentions, batches: seq<seq<RawEvent>>)
    requires 1 <= cfg.mfaFatigueThreshold && 0 <= cfg.impossibleTravelWindowMinutes
    requires InOrder(batches)
    ensures var st := ProcessAll(cfg, baseline, mentions, batches);
            && st.rows == Flatten(batches) && Agrees(cfg, st)
            && Consistent(st) && UniqueKeys(st.records)
  {
    if batches == [] {
    } else {
      var n := |batches| - 1;
      RunAgrees(cfg, baseline, mentions, batches[..n]);
      var st := ProcessAll(cfg, baseline, mentions, batches[..n]);
      BatchKeepsAgreement(cfg, baseline, mentions, st, batches[n]);
      ProcessKeepsConsistent(cfg, baseline, mentions, st, batches[n]);
      ProcessKeepsKeysUnique(cfg, baseline, mentions, st, batches[n]);
    }
  }

  /**
   However a history is split into batches delivered in time order, the events that end up with
   the 30-point impossible-travel record are exactly those that a single detection run over the
   whole history reports as the later login.
   */
  lemma IncrementalEqualsBatch(cfg: Settings, baseline: Baseline, mentions: Mentions,
                               batches: seq<seq<RawEvent>>, id: string)
    requires 1 <= cfg.mfaFatigueThreshold && 0 <= cfg.impossibleTravelWindowMinutes
    requires InOrder(batches)
    ensures LaterLogin(ProcessAll(cfg, baseline, mentions, batches).records, id)
       <==> LaterLogin(Detected(cfg, baseline, SortBy(Flatten(batches), TimeOf)), id)
  {
    var window := cfg.impossibleTravelWindowMinutes * MINUTE;
    var history := Flatten(batches);
    var sorted := SortBy(history, TimeOf);
    RunAgrees(cfg, baseline, mentions, batches);
    UniqueFirst(ProcessAll(cfg, baseline, mentions, batches).records, id);
    var rest := RestAreOthers(cfg, baseline, sorted);
    LoginsOfSorted(history);
    LoginsUnique(history);
    TravelFirst(window, Logins(history), id);
    OthersHaveNoTravel(rest, sorted, id);
    LaterLoginAppend(TravelFindings(window, Logins(sorted)), rest, id);
  }

  // ---- Delivery out of order ------------------------------------------------------------------

  /**
   Whatever the delivery order, no event is flagged without reason: a stored 30-point record is
   about a login that conflicts with an earlier one in the table.
   */
  lemma {:induction false} StoredFlagsAreGenuine(cfg: Settings, baseline: Baseline, mentions: Mentions,
                                                 batches: seq<seq<RawEvent>>, id: string)
    requires 1 <= cfg.mfaFatigueThreshold && 0 <= cfg.impossibleTravelWindowMinutes
    requires UniqueIds(Flatten(batches))
    ensures ProcessAll(cfg, baseline, mentions, batches).rows == Flatten(batches)
    ensures UniqueKeys(ProcessAll(cfg, baseline, mentions, batches).records)
    ensures LaterLogin(ProcessAll(cfg, baseline, mentions, batches).records, id) ==>
              Flagged(cfg.impossibleTravelWindowMinutes * MINUTE, Logins(Flatten(batches)), id)
  {
    if batches == [] {
    } else {
      var n := |batches| - 1;
      var earlier, batch := Flatten(batches[..n]), batches[n];
      UniqueTake(earlier, batch);
      StoredFlagsAreGenuine(cfg, baseline, mentions, batches[..n], id);
      var st := ProcessAll(cfg, baseline, mentions, batches[..n]);
      if batch == [] {
        assert earlier + batch == earlier;
      } else {
        AddRowsFresh(earlier, batch);
        ProcessKeepsKeysUnique(cfg, baseline, mentions, st, batch);
        GenuineStep(cfg, baseline, mentions, st, batch, id);
      }
    }
  }

  lemma GenuineStep(cfg: Settings, baseline: Baseline, mentions: Mentions, st: State, batch: seq<RawEvent>, id: string)
    requires 1 <= cfg.mfaFatigueThreshold && 0 <= cfg.impossibleTravelWindowMinutes
    requires batch != [] && UniqueIds(st.rows + batch) && UniqueKeys(st.records)
    requires UniqueKeys(ProcessTelemetry(cfg, baseline, mentions, st, batch).records)
    requires LaterLogin(st.records, id) ==>
               Flagged(cfg.impossibleTravelWindowMinutes * MINUTE, Logins(st.rows), id)
    ensures LaterLogin(ProcessTelemetry(cfg, baseline, mentions, st, batch).records, id) ==>
              Flagged(cfg.impossibleTravelWindowMinutes * MINUTE, Logins(st.rows + batch), id)
  {
    var window := cfg.impossibleTravelWindowMinutes * MINUTE;
    RunFirst(cfg, baseline, mentions, st, batch, id);
    UniqueFirst(ProcessTelemetry(cfg, baseline, mentions, st, batch).records, id);
    UniqueFirst(st.records, id);
    SliceFlagsGenuine(cfg, mentions, st.rows, batch, id);
    if Flagged(window, Logins(st.rows), id) {
      MoreRowsFlagMore(window, st.rows, batch, id);
    }
  }

  lemma SliceFlagsGenuine(cfg: Settings, mentions: Mentions, rows: seq<RawEvent>, batch: seq<RawEvent>, id: string)
    requires UniqueIds(rows + batch)
    ensures SlicePoints(cfg, mentions, rows + batch, batch, id) == Some(30) ==>
              Flagged(cfg.impossibleTravelWindowMinutes * MINUTE, Logins(rows + batch), id)
  {
    var window := cfg.impossibleTravelWindowMinutes * MINUTE;
    var logins := Logins(rows + batch);
    var sel := Selected(cfg, mentions, batch);
    LoginsUnique(rows + batch);
    UniqueFilter(logins, sel);
    TravelFirst(window, Filter(logins, sel), id);
    if Flagged(window, Filter(logins, sel), id) {
      SelectionFlagsLess(window, logins, sel, id);
    }
  }

  lemma UniqueTake(earlier: seq<RawEvent>, batch: seq<RawEvent>)
    requires UniqueIds(earlier + batch)
    ensures UniqueIds(earlier)
  {
    var all := earlier + batch;
    forall i, j | 0 <= i < j < |earlier| ensures earlier[i].id != earlier[j].id {
      assert all[i].id != all[j].id;
    }
  }

  ghost function StoredIn(rows: seq<RawEvent>): RawEvent -> bool {
    e => e in rows
  }

  lemma MoreRowsFlagMore(window: int, rows: seq<RawEvent>, batch: seq<RawEvent>, id: string)
    requires UniqueIds(rows + batch) && Flagged(window, Logins(rows), id)
    ensures Flagged(window, Logins(rows + batch), id)
  {
    var stored := StoredIn(rows);
    OnlyOldRows(rows, batch);
    FilterTwice(rows + batch, stored, IsLogin);
    SortByCommutesWithFilter(Filter(rows + batch, IsLogin), TimeOf, stored);
    SelectionFlagsLess(window, Logins(rows + batch), stored, id);
  }

  lemma OnlyOldRows(rows: seq<RawEvent>, batch: seq<RawEvent>)
    requires UniqueIds(rows + batch)
    ensures Filter(rows + batch, StoredIn(rows)) == rows
  {
    var all, stored := rows + batch, StoredIn(rows);
    FilterAppend(rows, batch, stored);
    FilterAll(rows, stored);
    forall e | e in batch ensures e !in rows {
      var k :| 0 <= k < |batch| && batch[k] == e;
      assert all[|rows| + k] == e;
      forall i | 0 <= i < |rows| ensures rows[i] != e {
        assert all[i].id != all[|rows| + k].id;
      }
    }
    FilterNone(batch, stored);
  }

  /**
   What one batch does to an event's flag, in any delivery order: a stored record is final, and an
   event without one is flagged exactly when it conflicts with an earlier login of the context.
   */
  lemma StepExactly(cfg: Settings, baseline: Baseline, mentions: Mentions, st: State, batch: seq<RawEvent>, id: string)
    requires 1 <= cfg.mfaFatigueThreshold && 0 <= cfg.impossibleTravelWindowMinutes
    requires batch != [] && UniqueIds(st.rows + batch) && UniqueKeys(st.records)
    ensures LaterLogin(ProcessTelemetry(cfg, baseline, mentions, st, batch).records, id) <==>
            || LaterLogin(st.records, id)
            || (!Recorded(st.records, TravelKey(id))
                && Flagged(cfg.impossibleTravelWindowMinutes * MINUTE,
                           Filter(Logins(st.rows + batch), Selected(cfg, mentions, batch)), id))
  {
    var logins := Logins(st.rows + batch);
    RunFirst(cfg, baseline, mentions, st, batch, id);
    ProcessKeepsKeysUnique(cfg, baseline, mentions, st, batch);
    UniqueFirst(ProcessTelemetry(cfg, baseline, mentions, st, batch).records, id);
    UniqueFirst(st.records, id);
    FirstPointsKnown(st.records, id);
    LoginsUnique(st.rows + batch);
    UniqueFilter(logins, Selected(cfg, mentions, batch));
    TravelFirst(cfg.impossibleTravelWindowMinutes * MINUTE, Filter(logins, Selected(cfg, mentions, batch)), id);
  }

  lemma ProcessKeepsKeysUnique(cfg: Settings, baseline: Baseline, mentions: Mentions, st: State, batch: seq<RawEvent>)
    requires 1 <= cfg.mfaFatigueThreshold && UniqueKeys(st.records)
    ensures UniqueKeys(ProcessTelemetry(cfg, baseline, mentions, st, batch).records)
    ensures st.records <= ProcessTelemetry(cfg, baseline, mentions, st, batch).records
  {
    if batch != [] && !RepeatsNewId(st.rows, batch) {
      var rows := AddRows(st.rows, batch);
      RecordAppends(st.records, Detected(cfg, baseline, Slice(cfg, mentions, rows, batch)));
    }
  }

  /** A batch never flags an event newer than all of its own: that event is not in its context. */
  lemma OlderBatchFlagsNothingNewer(cfg: Settings, mentions: Mentions, rows: seq<RawEvent>, batch: seq<RawEvent>,
                                    b: RawEvent)
    requires UniqueIds(rows) && b in rows && forall e :: e in batch ==> e.timestamp < b.timestamp
    ensures !Flagged(cfg.impossibleTravelWindowMinutes * MINUTE,
                     Filter(Logins(rows), Selected(cfg, mentions, batch)), b.id)
  {
    var f := Filter(Logins(rows), Selected(cfg, mentions, batch));
    LoginsAreLogins(rows);
    assert !InContext(cfg, mentions, batch, b);
    forall i | 0 <= i < |f| ensures f[i].id != b.id {
      assert f[i] in f;
      SameId(rows, f[i], b);
    }
  }

  lemma SameId(events: seq<RawEvent>, x: RawEvent, y: RawEvent)
    requires UniqueIds(events) && x in events && y in events
    ensures x.id == y.id ==> x == y
  {
  }

  /** A single run over events that contain a conflicting pair flags the later one. */
  lemma WholeRunFlags(cfg: Settings, baseline: Baseline, history: seq<RawEvent>, a: RawEvent, b: RawEvent)
    requires 1 <= cfg.mfaFatigueThreshold
    requires UniqueIds(history) && a in history && b in history && a.timestamp < b.timestamp
    requires IsLogin(a) && IsLogin(b) && Conflict(cfg.impossibleTravelWindowMinutes * MINUTE, a, b)
    ensures LaterLogin(Detected(cfg, baseline, SortBy(history, TimeOf)), b.id)
  {
    var window := cfg.impossibleTravelWindowMinutes * MINUTE;
    var sorted, logins := SortBy(history, TimeOf), Logins(history);
    LoginsAreLogins(history);
    LoginsUnique(history);
    var j :| 0 <= j < |logins| && logins[j] == a;
    var i :| 0 <= i < |logins| && logins[i] == b;
    SortedAt(logins, TimeOf, i, j);
    assert j < i;
    assert Flagged(window, logins, b.id);
    TravelFirst(window, logins, b.id);
    LoginsOfSorted(history);
    var rest := RestAreOthers(cfg, baseline, sorted);
    LaterLoginAppend(TravelFindings(window, Logins(sorted)), rest, b.id);
  }

  // ---- The whole run, in any order --------------------------------------------------------------

  /** Batch `k` finds no travel record about the event, and a conflict with an earlier login of its context. */
  ghost predicate FlaggedByBatch(cfg: Settings, baseline: Baseline, mentions: Mentions, batches: seq<seq<RawEvent>>,
                                 k: nat, id: string)
    requires 1 <= cfg.mfaFatigueThreshold
  {
    && k < |batches| && batches[k] != []
    && !Recorded(ProcessAll(cfg, baseline, mentions, batches[..k]).records, TravelKey(id))
    && Flagged(cfg.impossibleTravelWindowMinutes * MINUTE,
               Filter(Logins(Flatten(batches[..k + 1])), Selected(cfg, mentions, batches[k])), id)
  }

  lemma EarlierBatch(cfg: Settings, baseline: Baseline, mentions: Mentions, batches: seq<seq<RawEvent>>, k: nat,
                     id: string)
    requires 1 <= cfg.mfaFatigueThreshold && k < |batches| - 1
    ensures FlaggedByBatch(cfg, baseline, mentions, batches[..|batches| - 1], k, id)
       <==> FlaggedByBatch(cfg, baseline, mentions, batches, k, id)
  {
    var front := batches[..|batches| - 1];
    assert front[..k] == batches[..k] && front[..k + 1] == batches[..k + 1];
  }

  lemma LastBatch(cfg: Settings, baseline: Baseline, mentions: Mentions, batches: seq<seq<RawEvent>>, id: string)
    requires 1 <= cfg.mfaFatigueThreshold && 0 <= cfg.impossibleTravelWindowMinutes
    requires batches != [] && UniqueIds(Flatten(batches))
    ensures var n := |batches| - 1;
            LaterLogin(ProcessAll(cfg, baseline, mentions, batches).records, id) <==>
            || LaterLogin(ProcessAll(cfg, baseline, mentions, batches[..n]).records, id)
            || FlaggedByBatch(cfg, baseline, mentions, batches, n, id)
  {
    var n := |batches| - 1;
    UniqueTake(Flatten(batches[..n]), batches[n]);
    StoredFlagsAreGenuine(cfg, baseline, mentions, batches[..n], id);
    assert batches[..n + 1] == batches;
    if batches[n] != [] {
      StepExactly(cfg, baseline, mentions, ProcessAll(cfg, baseline, mentions, batches[..n]), batches[n], id);
    }
  }

  ghost predicate FlaggedBySome(cfg: Settings, baseline: Baseline, mentions: Mentions, batches: seq<seq<RawEvent>>,
                                id: string)
    requires 1 <= cfg.mfaFatigueThreshold
  {
    exists k :: FlaggedByBatch(cfg, baseline, mentions, batches, k, id)
  }

  lemma FlaggedEarlier(cfg: Settings, baseline: Baseline, mentions: Mentions, batches: seq<seq<RawEvent>>, id: string)
    requires 1 <= cfg.mfaFatigueThreshold && batches != []
    requires FlaggedBySome(cfg, baseline, mentions, batches[..|batches| - 1], id)
    ensures FlaggedBySome(cfg, baseline, mentions, batches, id)
  {
    var k: nat :| FlaggedByBatch(cfg, baseline, mentions, batches[..|batches| - 1], k, id);
    EarlierBatch(cfg, baseline, mentions, batches, k, id);
  }

  lemma FlaggingBatchExists(cfg: Settings, baseline: Baseline, mentions: Mentions, batches: seq<seq<RawEvent>>,
                            k: nat, id: string)
    requires 1 <= cfg.mfaFatigueThreshold && FlaggedByBatch(cfg, baseline, mentions, batches, k, id)
    ensures k < |batches|
  {
  }

  /** A batch that flags the event is the last one or an earlier one. */
  lemma FlaggedSplit(cfg: Settings, baseline: Baseline, mentions: Mentions, batches: seq<seq<RawEvent>>, id: string)
    returns (k: nat)
    requires 1 <= cfg.mfaFatigueThreshold && FlaggedBySome(cfg, baseline, mentions, batches, id)
    ensures k < |batches| && FlaggedByBatch(cfg, baseline, mentions, batches, k, id)
    ensures k < |batches| - 1 ==> FlaggedByBatch(cfg, baseline, mentions, batches[..|batches| - 1], k, id)
  {
    k :| FlaggedByBatch(cfg, baseline, mentions, batches, k, id);
    FlaggingBatchExists(cfg, baseline, mentions, batches, k, id);
    if k < |batches| - 1 {
      EarlierBatch(cfg, baseline, mentions, batches, k, id);
    }
  }

  /**
   Whatever the delivery order, an event ends up with the 30-point record exactly when some batch finds
   no travel record about it yet and a conflicting earlier login in its context.
   */
  lemma {:induction false} FlaggedIff(cfg: Settings, baseline: Baseline, mentions: Mentions,
                                      batches: seq<seq<RawEvent>>, id: string)
    requires 1 <= cfg.mfaFatigueThreshold && 0 <= cfg.impossibleTravelWindowMinutes
    requires UniqueIds(Flatten(batches))
    ensures LaterLogin(ProcessAll(cfg, baseline, mentions, batches).records, id)
       <==> FlaggedBySome(cfg, baseline, mentions, batches, id)
    decreases |batches|
  {
    if batches == [] {
    } else {
      var n := |batches| - 1;
      UniqueTake(Flatten(batches[..n]), batches[n]);
      FlaggedIff(cfg, baseline, mentions, batches[..n], id);
      LastBatch(cfg, baseline, mentions, batches, id);
      if FlaggedBySome(cfg, baseline, mentions, batches, id) {
        var k := FlaggedSplit(cfg, baseline, mentions, batches, id);
      }
      if FlaggedBySome(cfg, baseline, mentions, batches[..n], id) {
        FlaggedEarlier(cfg, baseline, mentions, batches, id);
      }
    }
  }

  /** A batch that has both logins in its context flags the later one, also if an earlier batch has missed the pair. */
  lemma LaterBatchFlags(cfg: Settings, baseline: Baseline, mentions: Mentions, st: State, batch: seq<RawEvent>,
                        a: RawEvent, b: RawEvent)
    requires 1 <= cfg.mfaFatigueThreshold && 0 <= cfg.impossibleTravelWindowMinutes
    requires batch != [] && UniqueIds(st.rows + batch) && UniqueKeys(st.records)
    requires a in st.rows + batch && b in st.rows + batch && a.timestamp < b.timestamp
    requires IsLogin(a) && IsLogin(b) && Conflict(cfg.impossibleTravelWindowMinutes * MINUTE, a, b)
    requires Selected(cfg, mentions, batch)(a) && Selected(cfg, mentions, batch)(b)
    requires !Recorded(st.records, TravelKey(b.id))
    ensures LaterLogin(ProcessTelemetry(cfg, baseline, mentions, st, batch).records, b.id)
  {
    var logins, sel := Logins(st.rows + batch), Selected(cfg, mentions, batch);
    LoginsAreLogins(st.rows + batch);
    var j :| 0 <= j < |logins| && logins[j] == a;
    var i :| 0 <= i < |logins| && logins[i] == b;
    SortedAt(logins, TimeOf, i, j);
    var x, y := FilterKeeps(logins, sel, j, i);
    assert Flagged(cfg.impossibleTravelWindowMinutes * MINUTE, Filter(logins, sel), b.id);
    StepExactly(cfg, baseline, mentions, st, batch, b.id);
  }

  /**
   In-order delivery is needed. If the earlier login `a` of a conflicting pair arrives in a batch
   that lies wholly before the later login `b`, that batch does not flag `b`, although a single run
   over the same events does. Whether a later batch still does is what `FlaggedIff` says.
   */
  lemma LateDeliveryMisses(cfg: Settings, baseline: Baseline, mentions: Mentions, st: State, late: seq<RawEvent>,
                           a: RawEvent, b: RawEvent)
    requires 1 <= cfg.mfaFatigueThreshold && 0 <= cfg.impossibleTravelWindowMinutes
    requires UniqueIds(st.rows + late) && UniqueKeys(st.records)
    requires b in st.rows && a in late && forall e :: e in late ==> e.timestamp < b.timestamp
    requires IsLogin(a) && IsLogin(b) && Conflict(cfg.impossibleTravelWindowMinutes * MINUTE, a, b)
    requires !LaterLogin(st.records, b.id)
    ensures !LaterLogin(ProcessTelemetry(cfg, baseline, mentions, st, late).records, b.id)
    ensures LaterLogin(Detected(cfg, baseline, SortBy(st.rows + late, TimeOf)), b.id)
  {
    StepExactly(cfg, baseline, mentions, st, late, b.id);
    OlderBatchFlagsNothingNewer(cfg, mentions, st.rows + late, late, b);
    WholeRunFlags(cfg, baseline, st.rows + late, a, b);
  }
}
