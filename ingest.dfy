/** The sequence planner and driver of the ingestion command
    (ingest_observations.py, `get_sequences_for_target` and `Command.handle`).
    The SNEx1 tables, the SNEx2 database, the observation portal and the clock
    are inputs; the objects the run builds (observation groups with their
    dynamic cadences, observation records) are collected in a `RunState`, as
    the writes the run makes when its `save()` calls are enabled. */
module Ingest {
  import opened Wrappers
  import opened PyText
  import opened Permissions
  import opened Snex2Params

  /** One row of the SNEx1 `obslog` table. */
  datatype LogEntry = LogEntry(id: int, requestsId: int, trackNumber: int, windowStart: real, windowEnd: real)

  /** The first request of a request group, as the observation portal reports it. */
  datatype ApiAnswer = ApiAnswer(id: int, state: string)

  /** One row of the SNEx1 `groups` table. */
  datatype GroupRow = GroupRow(name: string, idcode: int)

  /** The exceptions that end the run. */
  datatype IngestError =
    | ParamsFailed(cause: ParamError)  // raised by get_snex2_params
    | ApiFailed(trackNumber: int)      // the portal request or its JSON failed

  /** An `ObservationGroup` named after the SNEx1 row, with its `DynamicCadence`. */
  datatype NewGroup = NewGroup(
    name: string,
    created: DateTime,
    modified: DateTime,
    strategy: ParamValue,
    frequency: ParamValue,
    active: bool)

  /** An `ObservationRecord`. */
  datatype NewRecord = NewRecord(
    facility: string,
    observationId: string,
    status: string,
    created: DateTime,
    modified: DateTime,
    targetId: int,
    userId: int,
    parameters: Params,
    viewGroups: set<string>)

  /** The observation ids already in SNEx2 and the objects built so far. */
  datatype RunState = RunState(known: set<string>, groups: seq<NewGroup>, records: seq<NewRecord>)

  /** What one call of `get_sequences_for_target` reads besides the rows. */
  datatype Context = Context(
    target: int,
    snex1Groups: map<string, int>,
    log: seq<LogEntry>,        // the obslog table, in ascending id order
    api: map<int, ApiAnswer>,  // tracking number -> answer; a missing number is a failed request
    now: DateTime)

  /** The SNEx1 `supernova` user the records are attributed to. */
  const SupernovaUser := 67

  // ---------------------------------------------------------------------------
  // Queries and classification

  /** The one-time query: `autostop == 1`, `approved == 1`, the target. */
  function Onetime(rows: seq<LegacyRow>, target: int): seq<LegacyRow> {
    if rows == [] then []
    else
      var last := rows[|rows| - 1];
      Onetime(rows[..|rows| - 1], target) +
        (if last.autostop == 1 && last.approved == 1 && last.targetId == target then [last] else [])
  }

  /** The repeating query: `autostop == 0`, `approved == 1`, the target. */
  function Repeating(rows: seq<LegacyRow>, target: int): seq<LegacyRow> {
    if rows == [] then []
    else
      var last := rows[|rows| - 1];
      Repeating(rows[..|rows| - 1], target) +
        (if last.autostop == 0 && last.approved == 1 && last.targetId == target then [last] else [])
  }

  /** The rows whose id is not yet the name of an observation group. */
  function NewRows(rows: seq<LegacyRow>, existing: seq<int>): seq<LegacyRow> {
    if rows == [] then []
    else
      var last := rows[|rows| - 1];
      NewRows(rows[..|rows| - 1], existing) + (if last.id !in existing then [last] else [])
  }

  /** The rows already ingested. */
  function ExistingRows(rows: seq<LegacyRow>, existing: seq<int>): seq<LegacyRow> {
    if rows == [] then []
    else
      var last := rows[|rows| - 1];
      ExistingRows(rows[..|rows| - 1], existing) + (if last.id in existing then [last] else [])
  }

  /** The four lists in processing order: new one-time, existing one-time, new
      repeating, existing repeating. */
  function SequenceLists(rows: seq<LegacyRow>, target: int, existing: seq<int>): seq<seq<LegacyRow>> {
    var onetime, repeating := Onetime(rows, target), Repeating(rows, target);
    [NewRows(onetime, existing), ExistingRows(onetime, existing),
     NewRows(repeating, existing), ExistingRows(repeating, existing)]
  }

  /** The `active` flag of a row's cadence at time `now`. */
  predicate IsActive(row: LegacyRow, now: DateTime) {
    match row.sequenceEnd
    case ZeroDate => true
    case NullEnd => true
    case EndsAt(t) => Later(t, now)
  }

  /** The log entries of one request with a positive tracking number, in log order. */
  function TrackedEntries(log: seq<LogEntry>, requestsId: int): seq<LogEntry> {
    if log == [] then []
    else
      var last := log[|log| - 1];
      TrackedEntries(log[..|log| - 1], requestsId) +
        (if last.requestsId == requestsId && last.trackNumber > 0 then [last] else [])
  }

  // ---------------------------------------------------------------------------
  // What one row contributes

  /** The group and cadence built for a new row. */
  function GroupFor(row: LegacyRow, params: Params, now: DateTime): NewGroup
    requires "cadence_strategy" in params && "cadence_frequency" in params
  {
    NewGroup(IntToString(row.id), row.dateCreated, row.lastModified,
             params["cadence_strategy"], params["cadence_frequency"], IsActive(row, now))
  }

  /** The parameters after a log entry's window has been written over them. */
  function WithWindow(params: Params, e: LogEntry): Params {
    params["start" := PJulian(e.windowStart)]["end" := PJulian(e.windowEnd)]
  }

  function RecordFor(ctx: Context, row: LegacyRow, answer: ApiAnswer, params: Params): NewRecord {
    NewRecord("LCO", IntToString(answer.id), answer.state, row.dateCreated, row.lastModified,
              ctx.target, SupernovaUser, params, GrantedGroups(row.groupIdCode, ctx.snex1Groups))
  }

  /** One portal answer: a record when its id is positive and not yet in SNEx2. */
  function Resolve(ctx: Context, row: LegacyRow, answer: ApiAnswer, params: Params, st: RunState): RunState {
    var observationId := IntToString(answer.id);
    if answer.id > 0 && observationId !in st.known then
      st.(known := st.known + {observationId}, records := st.records + [RecordFor(ctx, row, answer, params)])
    else st
  }

  /** The loop over a row's log entries, each one's window written over the
      parameters carried from the previous one. */
  function TrackEntries(ctx: Context, row: LegacyRow, entries: seq<LogEntry>, params: Params, st: RunState): Result<RunState, IngestError>
    decreases |entries|
  {
    if entries == [] then Ok(st)
    else
      var e := entries[0];
      if e.trackNumber !in ctx.api then Err(ApiFailed(e.trackNumber))
      else
        var p := WithWindow(params, e);
        TrackEntries(ctx, row, entries[1..], p, Resolve(ctx, row, ctx.api[e.trackNumber], p, st))
  }

  /** One row of list number `count`. */
  function RowStep(ctx: Context, count: int, row: LegacyRow, st: RunState): Result<RunState, IngestError> {
    var repeating := !(count < 2);
    match Snex2Params.Snex2Params(row, repeating)
    case Err(e) => Err(ParamsFailed(e))
    case Ok(params) =>
      FixedKeysPresent(row, repeating);
      var st1 := if count == 0 || count == 2 then st.(groups := st.groups + [GroupFor(row, params, ctx.now)]) else st;
      var entries := TrackedEntries(ctx.log, row.id);
      if |entries| == 0 then Ok(st1) else TrackEntries(ctx, row, entries, params, st1)
  }

  function RowsStep(ctx: Context, count: int, rows: seq<LegacyRow>, st: RunState): Result<RunState, IngestError>
    decreases |rows|
  {
    if rows == [] then Ok(st)
    else
      var st1 :- RowStep(ctx, count, rows[0], st);
      RowsStep(ctx, count, rows[1..], st1)
  }

  function ListsStep(ctx: Context, lists: seq<seq<LegacyRow>>, count: int, st: RunState): Result<RunState, IngestError>
    decreases |lists|
  {
    if lists == [] then Ok(st)
    else
      var st1 :- RowsStep(ctx, count, lists[0], st);
      ListsStep(ctx, lists[1..], count + 1, st1)
  }

  /** `get_sequences_for_target(target, existing_obs, snex1_groups, ...)`. */
  function ForTarget(ctx: Context, existing: seq<int>, rows: seq<LegacyRow>, st: RunState): Result<RunState, IngestError> {
    ListsStep(ctx, SequenceLists(rows, ctx.target, existing), 0, st)
  }

  // ---------------------------------------------------------------------------
  // The driver

  /** `existing_obs`: the group names that `int()` accepts, as integers. */
  function ParsedNames(names: seq<string>): seq<int> {
    if names == [] then []
    else
      var last := ParseInt(names[|names| - 1]);
      ParsedNames(names[..|names| - 1]) + (if last.Some? then [last.value] else [])
  }

  /** `snex1_groups`: name -> idcode, a later row with the same name winning. */
  function GroupTable(rows: seq<GroupRow>): map<string, int> {
    if rows == [] then map[]
    else GroupTable(rows[..|rows| - 1])[rows[|rows| - 1].name := rows[|rows| - 1].idcode]
  }

  function TargetsStep(targets: seq<int>, existing: seq<int>, snex1Groups: map<string, int>, rows: seq<LegacyRow>,
                       log: seq<LogEntry>, api: map<int, ApiAnswer>, now: DateTime, st: RunState): Result<RunState, IngestError>
    decreases |targets|
  {
    if targets == [] then Ok(st)
    else
      var st1 :- ForTarget(Context(targets[0], snex1Groups, log, api, now), existing, rows, st);
      TargetsStep(targets[1..], existing, snex1Groups, rows, log, api, now, st1)
  }

  /** `Command.handle`: one target when the option is given, otherwise every
      SNEx2 target. `groupNames` are the names of the SNEx2 observation
      groups, `known` the observation ids of the SNEx2 records. */
  function HandleSpec(targetOption: Option<int>, groupNames: seq<string>, groupRows: seq<GroupRow>, allTargets: seq<int>,
                      rows: seq<LegacyRow>, log: seq<LogEntry>, api: map<int, ApiAnswer>, now: DateTime, known: set<string>)
    : Result<RunState, IngestError>
  {
    var targets := if targetOption.Some? then [targetOption.value] else allTargets;
    TargetsStep(targets, ParsedNames(groupNames), GroupTable(groupRows), rows, log, api, now, RunState(known, [], []))
  }

  // ---------------------------------------------------------------------------
  // The command as the source runs it

  /** The loop that splits a query result by `int(o.id) not in existing_obs`. */
  method SplitByExisting(rows: seq<LegacyRow>, existing: seq<int>) returns (toAdd: seq<LegacyRow>, already: seq<LegacyRow>)
    ensures toAdd == NewRows(rows, existing) && already == ExistingRows(rows, existing)
  {
    toAdd, already := [], [];
    for i := 0 to |rows|
      invariant toAdd == NewRows(rows[..i], existing) && already == ExistingRows(rows[..i], existing)
    {
      assert rows[..i + 1][..i] == rows[..i];
      if rows[i].id !in existing {
        toAdd := toAdd + [rows[i]];
      } else {
        already := already + [rows[i]];
      }
    }
    assert rows[..|rows|] == rows;
  }

  /** The loop over one row's log entries. */
  method ResolveTracking(ctx: Context, row: LegacyRow, entries: seq<LogEntry>, params0: Params, st0: RunState)
    returns (r: Result<RunState, IngestError>)
    ensures r == TrackEntries(ctx, row, entries, params0, st0)
  {
    var snex2Param := params0;
    var st := st0;
    var k := 0;
    while k < |entries|
      invariant 0 <= k <= |entries|
      invariant TrackEntries(ctx, row, entries[k..], snex2Param, st) == TrackEntries(ctx, row, entries, params0, st0)
    {
      var record := entries[k];
      assert entries[k..][0] == record && entries[k..][1..] == entries[k + 1..];
      if record.trackNumber !in ctx.api {
        return Err(ApiFailed(record.trackNumber));
      }
      var result := ctx.api[record.trackNumber];
      var observationId := result.id;
      var inSnex2 := IntToString(observationId) in st.known;
      snex2Param := snex2Param["start" := PJulian(record.windowStart)];
      snex2Param := snex2Param["end" := PJulian(record.windowEnd)];
      if observationId > 0 && !inSnex2 {
        st := st.(known := st.known + {IntToString(observationId)},
                  records := st.records + [RecordFor(ctx, row, result, snex2Param)]);
      }
      k := k + 1;
    }
    r := Ok(st);
  }

  /** The body of the inner loop of `get_sequences_for_target`. */
  method ProcessRow(ctx: Context, count: int, row: LegacyRow, st0: RunState) returns (r: Result<RunState, IngestError>)
    ensures r == RowStep(ctx, count, row, st0)
  {
    var active := IsActive(row, ctx.now);
    var params;
    if count < 2 {
      params := GetSnex2Params(row, false);
    } else {
      params := GetSnex2Params(row, true);
    }
    if params.Err? {
      return Err(ParamsFailed(params.error));
    }
    var snex2Param := params.value;
    FixedKeysPresent(row, !(count < 2));
    var st := st0;
    if count == 0 || count == 2 {
      var group := NewGroup(IntToString(row.id), row.dateCreated, row.lastModified,
                            snex2Param["cadence_strategy"], snex2Param["cadence_frequency"], active);
      st := st.(groups := st.groups + [group]);
    }
    var entries := TrackedEntries(ctx.log, row.id);
    if |entries| == 0 {
      return Ok(st);
    }
    r := ResolveTracking(ctx, row, entries, snex2Param, st);
  }

  /** The loop over one of the four lists. */
  method ProcessRows(ctx: Context, count: int, rows: seq<LegacyRow>, st0: RunState) returns (r: Result<RunState, IngestError>)
    ensures r == RowsStep(ctx, count, rows, st0)
  {
    var st := st0;
    var k := 0;
    while k < |rows|
      invariant 0 <= k <= |rows|
      invariant RowsStep(ctx, count, rows[k..], st) == RowsStep(ctx, count, rows, st0)
    {
      assert rows[k..][0] == rows[k] && rows[k..][1..] == rows[k + 1..];
      var next := ProcessRow(ctx, count, rows[k], st);
      if next.Err? {
        return Err(next.error);
      }
      st := next.value;
      k := k + 1;
    }
    r := Ok(st);
  }

  /** `get_sequences_for_target`: the two partitions, then the four lists in
      order with `count` numbering them. */
  method GetSequencesForTarget(ctx: Context, existing: seq<int>, rows: seq<LegacyRow>, st0: RunState)
    returns (r: Result<RunState, IngestError>)
    ensures r == ForTarget(ctx, existing, rows, st0)
  {
    var onetimeSequence := Onetime(rows, ctx.target);
    var repeatingSequence := Repeating(rows, ctx.target);
    var onetimeToAdd, existingOnetime := SplitByExisting(onetimeSequence, existing);
    var repeatingToAdd, existingRepeating := SplitByExisting(repeatingSequence, existing);
    var lists := [onetimeToAdd, existingOnetime, repeatingToAdd, existingRepeating];
    var st := st0;
    var count := 0;
    while count < |lists|
      invariant 0 <= count <= |lists|
      invariant ListsStep(ctx, lists[count..], count, st) == ListsStep(ctx, lists, 0, st0)
    {
      assert lists[count..][0] == lists[count] && lists[count..][1..] == lists[count + 1..];
      var next := ProcessRows(ctx, count, lists[count], st);
      if next.Err? {
        return Err(next.error);
      }
      st := next.value;
      count := count + 1;
    }
    r := Ok(st);
  }

  /** `existing_obs` as `Command.handle` builds it. */
  method ExistingObs(groupNames: seq<string>) returns (existingObs: seq<int>)
    ensures existingObs == ParsedNames(groupNames)
  {
    existingObs := [];
    for i := 0 to |groupNames|
      invariant existingObs == ParsedNames(groupNames[..i])
    {
      assert groupNames[..i + 1][..i] == groupNames[..i];
      var id := ParseInt(groupNames[i]);
      if id.Some? {
        existingObs := existingObs + [id.value];
      }
    }
    assert groupNames[..|groupNames|] == groupNames;
  }

  /** `snex1_groups` as `Command.handle` builds it. */
  method Snex1Groups(groupRows: seq<GroupRow>) returns (snex1Groups: map<string, int>)
    ensures snex1Groups == GroupTable(groupRows)
  {
    snex1Groups := map[];
    for i := 0 to |groupRows|
      invariant snex1Groups == GroupTable(groupRows[..i])
    {
      assert groupRows[..i + 1][..i] == groupRows[..i];
      snex1Groups := snex1Groups[groupRows[i].name := groupRows[i].idcode];
    }
    assert groupRows[..|groupRows|] == groupRows;
  }

  /** The loop of `Command.handle` over the targets. */
  method ProcessTargets(targets: seq<int>, existingObs: seq<int>, snex1Groups: map<string, int>, rows: seq<LegacyRow>,
                        log: seq<LogEntry>, api: map<int, ApiAnswer>, now: DateTime, st0: RunState)
    returns (r: Result<RunState, IngestError>)
    ensures r == TargetsStep(targets, existingObs, snex1Groups, rows, log, api, now, st0)
  {
    var st := st0;
    var k := 0;
    while k < |targets|
      invariant 0 <= k <= |targets|
      invariant TargetsStep(targets[k..], existingObs, snex1Groups, rows, log, api, now, st)
        == TargetsStep(targets, existingObs, snex1Groups, rows, log, api, now, st0)
    {
      assert targets[k..][0] == targets[k] && targets[k..][1..] == targets[k + 1..];
      var next := GetSequencesForTarget(Context(targets[k], snex1Groups, log, api, now), existingObs, rows, st);
      if next.Err? {
        return Err(next.error);
      }
      st := next.value;
      k := k + 1;
    }
    r := Ok(st);
  }

  /** `Command.handle`. */
  method Handle(targetOption: Option<int>, groupNames: seq<string>, groupRows: seq<GroupRow>, allTargets: seq<int>,
                rows: seq<LegacyRow>, log: seq<LogEntry>, api: map<int, ApiAnswer>, now: DateTime, known: set<string>)
    returns (r: Result<RunState, IngestError>)
    ensures r == HandleSpec(targetOption, groupNames, groupRows, allTargets, rows, log, api, now, known)
  {
    var existingObs := ExistingObs(groupNames);
    var snex1Groups := Snex1Groups(groupRows);
    var targets := if targetOption.Some? then [targetOption.value] else allTargets;
    r := ProcessTargets(targets, existingObs, snex1Groups, rows, log, api, now, RunState(known, [], []));
  }

  // ---------------------------------------------------------------------------
  // The queries and the partition

  lemma {:induction false} OnetimeContent(rows: seq<LegacyRow>, target: int)
    ensures forall o :: o in Onetime(rows, target) <==>
      o in rows && o.autostop == 1 && o.approved == 1 && o.targetId == target
  {
    if rows != [] {
      OnetimeContent(rows[..|rows| - 1], target);
      assert rows == rows[..|rows| - 1] + [rows[|rows| - 1]];
    }
  }

  lemma {:induction false} RepeatingContent(rows: seq<LegacyRow>, target: int)
    ensures forall o :: o in Repeating(rows, target) <==>
      o in rows && o.autostop == 0 && o.approved == 1 && o.targetId == target
  {
    if rows != [] {
      RepeatingContent(rows[..|rows| - 1], target);
      assert rows == rows[..|rows| - 1] + [rows[|rows| - 1]];
    }
  }

  /** The split is a partition of the query result: every row lands in exactly
      one list, new ones being those whose id names no observation group. */
  lemma {:induction false} SplitPartition(rows: seq<LegacyRow>, existing: seq<int>)
    ensures multiset(NewRows(rows, existing)) + multiset(ExistingRows(rows, existing)) == multiset(rows)
    ensures forall o :: o in NewRows(rows, existing) <==> o in rows && o.id !in existing
    ensures forall o :: o in ExistingRows(rows, existing) <==> o in rows && o.id in existing
  {
    SplitCounts(rows, existing);
    var a, b := NewRows(rows, existing), ExistingRows(rows, existing);
    forall o ensures o in a <==> o in rows && o.id !in existing {
      assert (o in a <==> o in multiset(a)) && (o in b <==> o in multiset(b)) && (o in rows <==> o in multiset(rows));
      SplitSides(rows, existing, o);
    }
    forall o ensures o in b <==> o in rows && o.id in existing {
      assert (o in a <==> o in multiset(a)) && (o in b <==> o in multiset(b)) && (o in rows <==> o in multiset(rows));
      SplitSides(rows, existing, o);
    }
  }

  lemma {:induction false} SplitCounts(rows: seq<LegacyRow>, existing: seq<int>)
    ensures multiset(NewRows(rows, existing)) + multiset(ExistingRows(rows, existing)) == multiset(rows)
  {
    if rows != [] {
      var init, last := rows[..|rows| - 1], rows[|rows| - 1];
      SplitCounts(init, existing);
      assert rows == init + [last];
      var a, b := NewRows(init, existing), ExistingRows(init, existing);
      if last.id in existing {
        assert NewRows(rows, existing) == a && ExistingRows(rows, existing) == b + [last];
        assert multiset(b + [last]) == multiset(b) + multiset{last};
      } else {
        assert NewRows(rows, existing) == a + [last] && ExistingRows(rows, existing) == b;
        assert multiset(a + [last]) == multiset(a) + multiset{last};
      }
      assert multiset(rows) == multiset(init) + multiset{last};
    }
  }

  lemma {:induction false} SplitSides(rows: seq<LegacyRow>, existing: seq<int>, o: LegacyRow)
    ensures o.id in existing ==> o !in NewRows(rows, existing)
    ensures o.id !in existing ==> o !in ExistingRows(rows, existing)
  {
    if rows != [] {
      SplitSides(rows[..|rows| - 1], existing, o);
    }
  }

  /** Once every id names a group, nothing is new. */
  lemma {:induction false} AllExisting(rows: seq<LegacyRow>, existing: seq<int>)
    requires forall o :: o in rows ==> o.id in existing
    ensures NewRows(rows, existing) == [] && ExistingRows(rows, existing) == rows
  {
    if rows != [] {
      AllExisting(rows[..|rows| - 1], existing);
      assert rows == rows[..|rows| - 1] + [rows[|rows| - 1]];
    }
  }

  lemma {:induction false} TrackedEntriesContent(log: seq<LogEntry>, requestsId: int)
    ensures forall e :: e in TrackedEntries(log, requestsId) <==>
      e in log && e.requestsId == requestsId && e.trackNumber > 0
  {
    if log != [] {
      TrackedEntriesContent(log[..|log| - 1], requestsId);
      assert log == log[..|log| - 1] + [log[|log| - 1]];
    }
  }

  /** A sequence's cadence is active while its end is unset, the zero date, or
      still ahead; once inactive it stays inactive. */
  lemma ActiveUntilEnd(row: LegacyRow, now: DateTime, later: DateTime)
    requires !Later(now, later)
    ensures IsActive(row, later) ==> IsActive(row, now)
    ensures row.sequenceEnd.EndsAt? ==> (IsActive(row, now) <==> Later(row.sequenceEnd.at, now))
  {
  }

  // ---------------------------------------------------------------------------
  // What a run writes

  /** The names of groups, in order. */
  function GroupNames(groups: seq<NewGroup>): seq<string> {
    if groups == [] then [] else [groups[0].name] + GroupNames(groups[1..])
  }

  /** The group names rows would get: their ids as decimal strings. */
  function RowIds(rows: seq<LegacyRow>): seq<string> {
    if rows == [] then [] else [IntToString(rows[0].id)] + RowIds(rows[1..])
  }

  function RecordIds(records: seq<NewRecord>): set<string> {
    set i | 0 <= i < |records| :: records[i].observationId
  }

  /** An observation id that `int()` reads as a positive number. */
  predicate PositiveId(id: string) {
    ParseInt(id).Some? && ParseInt(id).value > 0
  }

  /** The record bookkeeping of a run that started with the ids `known0`: no
      two records share an observation id, every id is a positive number,
      none repeats an id SNEx2 had, and `known` is `known0` plus the ids
      recorded. */
  predicate Bookkept(known0: set<string>, st: RunState) {
    (forall i, j :: 0 <= i < j < |st.records| ==> st.records[i].observationId != st.records[j].observationId)
    && (forall i :: 0 <= i < |st.records| ==> PositiveId(st.records[i].observationId))
    && (forall i :: 0 <= i < |st.records| ==> st.records[i].observationId !in known0)
    && st.known == known0 + RecordIds(st.records)
  }

  /** A later state only adds: ids, groups at the end, records at the end. */
  predicate Grows(st: RunState, st': RunState) {
    st.known <= st'.known && st.groups <= st'.groups && st.records <= st'.records
  }

  /** A row whose parameters convert and whose tracking numbers the portal answers. */
  predicate Resolvable(log: seq<LogEntry>, api: map<int, ApiAnswer>, row: LegacyRow, repeating: bool) {
    Snex2Params.Snex2Params(row, repeating).Ok?
    && forall e :: e in TrackedEntries(log, row.id) ==> e.trackNumber in api
  }

  /** A resolvable row every positive observation id of which is already known. */
  predicate Settled(log: seq<LogEntry>, api: map<int, ApiAnswer>, row: LegacyRow, repeating: bool, known: set<string>) {
    Resolvable(log, api, row, repeating)
    && forall e :: e in TrackedEntries(log, row.id) ==>
      (api[e.trackNumber].id > 0 ==> IntToString(api[e.trackNumber].id) in known)
  }

  lemma {:induction false} GroupNamesAppend(a: seq<NewGroup>, b: seq<NewGroup>)
    ensures GroupNames(a + b) == GroupNames(a) + GroupNames(b)
  {
    if a == [] {
      assert a + b == b;
    } else {
      assert (a + b)[0] == a[0] && (a + b)[1..] == a[1..] + b;
      GroupNamesAppend(a[1..], b);
    }
  }

  lemma {:induction false} RowIdsContent(rows: seq<LegacyRow>)
    ensures forall o :: o in rows ==> IntToString(o.id) in RowIds(rows)
  {
    if rows != [] {
      RowIdsContent(rows[1..]);
      assert forall o :: o in rows ==> o == rows[0] || o in rows[1..];
    }
  }

  lemma GrowsTrans(a: RunState, b: RunState, c: RunState)
    requires Grows(a, b) && Grows(b, c)
    ensures Grows(a, c)
  {
  }

  lemma SettledMono(log: seq<LogEntry>, api: map<int, ApiAnswer>, row: LegacyRow, repeating: bool, known: set<string>, known': set<string>)
    requires Settled(log, api, row, repeating, known) && known <= known'
    ensures Settled(log, api, row, repeating, known')
  {
  }

  /** A later window replaces an earlier one completely. */
  lemma WithWindowTwice(p: Params, a: LogEntry, b: LogEntry)
    ensures WithWindow(WithWindow(p, a), b) == WithWindow(p, b)
  {
  }

  /** The entries loop fails exactly when a tracking number gets no answer,
      with the first such number. */
  lemma {:induction false} TrackEntriesOkIff(ctx: Context, row: LegacyRow, entries: seq<LogEntry>, p: Params, st: RunState)
    ensures TrackEntries(ctx, row, entries, p, st).Ok? <==> forall e :: e in entries ==> e.trackNumber in ctx.api
    ensures TrackEntries(ctx, row, entries, p, st).Err? ==>
      exists k :: 0 <= k < |entries| && entries[k].trackNumber !in ctx.api
        && TrackEntries(ctx, row, entries, p, st).error == ApiFailed(entries[k].trackNumber)
        && forall j :: 0 <= j < k ==> entries[j].trackNumber in ctx.api
    decreases |entries|
  {
    if entries != [] && entries[0].trackNumber in ctx.api {
      var e := entries[0];
      var p' := WithWindow(p, e);
      var st' := Resolve(ctx, row, ctx.api[e.trackNumber], p', st);
      TrackEntriesOkIff(ctx, row, entries[1..], p', st');
      assert forall x :: x in entries ==> x == e || x in entries[1..];
      if TrackEntries(ctx, row, entries, p, st).Err? {
        var k :| 0 <= k < |entries[1..]| && entries[1..][k].trackNumber !in ctx.api
          && TrackEntries(ctx, row, entries[1..], p', st').error == ApiFailed(entries[1..][k].trackNumber)
          && forall j :: 0 <= j < k ==> entries[1..][j].trackNumber in ctx.api;
        assert entries[k + 1].trackNumber !in ctx.api;
      }
    }
  }

  lemma RecordIdsAppend(records: seq<NewRecord>, r: NewRecord)
    ensures RecordIds(records + [r]) == RecordIds(records) + {r.observationId}
  {
    var all := records + [r];
    forall x | x in RecordIds(records) ensures x in RecordIds(all) {
      var i :| 0 <= i < |records| && records[i].observationId == x;
      assert all[i] == records[i];
    }
    assert all[|records|] == r;
  }

  /** One portal answer keeps the bookkeeping. */
  lemma ResolveBookkept(ctx: Context, row: LegacyRow, answer: ApiAnswer, p: Params, st: RunState, known0: set<string>)
    requires Bookkept(known0, st)
    ensures Bookkept(known0, Resolve(ctx, row, answer, p, st))
  {
    var st1 := Resolve(ctx, row, answer, p, st);
    if st1 != st {
      var r := RecordFor(ctx, row, answer, p);
      ParseIntOfIntToString(answer.id);
      assert st1.records == st.records + [r];
      RecordIdsAppend(st.records, r);
      forall i | 0 <= i < |st.records| ensures st.records[i].observationId != r.observationId {
        assert st.records[i].observationId in RecordIds(st.records);
      }
    }
  }

  /** What the entries loop writes: only records, at the end, one per
      positive observation id not yet known, each carrying the row's
      parameters with that entry's window and the SNEx1 groups its mask
      selects; afterwards every entry's id is known. */
  lemma {:induction false} TrackEntriesEffect(ctx: Context, row: LegacyRow, entries: seq<LogEntry>, p: Params, st: RunState)
    requires TrackEntries(ctx, row, entries, p, st).Ok?
    ensures var st' := TrackEntries(ctx, row, entries, p, st).value;
      Grows(st, st') && st'.groups == st.groups
      && (forall e :: e in entries ==>
            (e.trackNumber in ctx.api
             && (ctx.api[e.trackNumber].id > 0 ==> IntToString(ctx.api[e.trackNumber].id) in st'.known)))
      && (forall i :: |st.records| <= i < |st'.records| ==> FromEntry(ctx, row, entries, p, st.known, st'.records[i]))
    decreases |entries|
  {
    if entries != [] {
      var e := entries[0];
      var p' := WithWindow(p, e);
      var st1 := Resolve(ctx, row, ctx.api[e.trackNumber], p', st);
      TrackEntriesEffect(ctx, row, entries[1..], p', st1);
      assert forall x :: x in entries ==> x == e || x in entries[1..];
      forall x | x in entries[1..]
        ensures WithWindow(p', x) == WithWindow(p, x)
      {
        WithWindowTwice(p, e, x);
      }
      var st' := TrackEntries(ctx, row, entries, p, st).value;
      forall i | |st.records| <= i < |st'.records|
        ensures FromEntry(ctx, row, entries, p, st.known, st'.records[i])
      {
        if i < |st1.records| {
          assert st'.records[i] == st1.records[i];
          assert e in entries;
        } else {
          FromEntryWiden(ctx, row, entries, p, st.known, st1.known, st'.records[i]);
        }
      }
    }
  }

  /** Record `r` is the one built for some entry whose answer has a positive
      id outside `known`, from the parameters with that entry's window. */
  predicate FromEntry(ctx: Context, row: LegacyRow, entries: seq<LogEntry>, p: Params, known: set<string>, r: NewRecord) {
    exists e :: e in entries && e.trackNumber in ctx.api
      && ctx.api[e.trackNumber].id > 0 && IntToString(ctx.api[e.trackNumber].id) !in known
      && r == RecordFor(ctx, row, ctx.api[e.trackNumber], WithWindow(p, e))
  }

  /** A record built for a later entry, over the first entry's window and with
      more ids known, is built for an entry of the whole list. */
  lemma FromEntryWiden(ctx: Context, row: LegacyRow, entries: seq<LogEntry>, p: Params, known: set<string>, known1: set<string>, r: NewRecord)
    requires entries != [] && known <= known1
    requires FromEntry(ctx, row, entries[1..], WithWindow(p, entries[0]), known1, r)
    ensures FromEntry(ctx, row, entries, p, known, r)
  {
    var x :| x in entries[1..] && x.trackNumber in ctx.api
      && ctx.api[x.trackNumber].id > 0 && IntToString(ctx.api[x.trackNumber].id) !in known1
      && r == RecordFor(ctx, row, ctx.api[x.trackNumber], WithWindow(WithWindow(p, entries[0]), x));
    WithWindowTwice(p, entries[0], x);
    assert x in entries;
  }

  lemma {:induction false} TrackEntriesBookkept(ctx: Context, row: LegacyRow, entries: seq<LogEntry>, p: Params, st: RunState, known0: set<string>)
    requires TrackEntries(ctx, row, entries, p, st).Ok? && Bookkept(known0, st)
    ensures Bookkept(known0, TrackEntries(ctx, row, entries, p, st).value)
    decreases |entries|
  {
    if entries != [] {
      var p' := WithWindow(p, entries[0]);
      ResolveBookkept(ctx, row, ctx.api[entries[0].trackNumber], p', st, known0);
      TrackEntriesBookkept(ctx, row, entries[1..], p', Resolve(ctx, row, ctx.api[entries[0].trackNumber], p', st), known0);
    }
  }

  /** Entries whose ids are all known write nothing. */
  lemma {:induction false} TrackEntriesSettled(ctx: Context, row: LegacyRow, entries: seq<LogEntry>, p: Params, st: RunState)
    requires forall e :: e in entries ==>
      (e.trackNumber in ctx.api && (ctx.api[e.trackNumber].id > 0 ==> IntToString(ctx.api[e.trackNumber].id) in st.known))
    ensures TrackEntries(ctx, row, entries, p, st) == Ok(st)
    decreases |entries|
  {
    if entries != [] {
      assert entries[0] in entries;
      assert forall x :: x in entries[1..] ==> x in entries;
      TrackEntriesSettled(ctx, row, entries[1..], WithWindow(p, entries[0]), st);
    }
  }

  // ---------------------------------------------------------------------------
  // One row, one list

  /** A row fails exactly when its parameters do not convert (that error) or a
      tracking number gets no answer. */
  lemma RowStepOkIff(ctx: Context, count: int, row: LegacyRow, st: RunState)
    ensures RowStep(ctx, count, row, st).Ok? <==> Resolvable(ctx.log, ctx.api, row, count >= 2)
    ensures Snex2Params.Snex2Params(row, count >= 2).Err? ==>
      RowStep(ctx, count, row, st) == Err(ParamsFailed(Snex2Params.Snex2Params(row, count >= 2).error))
  {
    var params := Snex2Params.Snex2Params(row, count >= 2);
    if params.Ok? {
      FixedKeysPresent(row, count >= 2);
      var st1 := if count == 0 || count == 2 then st.(groups := st.groups + [GroupFor(row, params.value, ctx.now)]) else st;
      TrackEntriesOkIff(ctx, row, TrackedEntries(ctx.log, row.id), params.value, st1);
    }
  }

  /** A row of a new list (`count` 0 or 2) adds one group named after its id,
      active as its end date says, with the strategy its list calls for unless
      a filter of that name overwrote it; a row of an existing list adds none.
      Afterwards the row is settled. */
  lemma RowStepEffect(ctx: Context, count: int, row: LegacyRow, st: RunState)
    requires RowStep(ctx, count, row, st).Ok?
    ensures var st' := RowStep(ctx, count, row, st).value;
      Grows(st, st') && Settled(ctx.log, ctx.api, row, count >= 2, st'.known)
      && |st'.groups| == |st.groups| + (if count == 0 || count == 2 then 1 else 0)
      && GroupNames(st'.groups) == GroupNames(st.groups) + (if count == 0 || count == 2 then [IntToString(row.id)] else [])
      && ((count == 0 || count == 2) ==>
            (st'.groups[|st.groups|].active == IsActive(row, ctx.now)
             && ("cadence_strategy" !in FilterKeys(row) ==>
                   st'.groups[|st.groups|].strategy == PStr(if count >= 2 then ResumeStrategy else RetryStrategy))))
  {
    var params := Snex2Params.Snex2Params(row, count >= 2).value;
    FixedKeysPresent(row, count >= 2);
    var g := GroupFor(row, params, ctx.now);
    var st1 := if count == 0 || count == 2 then st.(groups := st.groups + [g]) else st;
    var entries := TrackedEntries(ctx.log, row.id);
    TrackedEntriesContent(ctx.log, row.id);
    var st' := RowStep(ctx, count, row, st).value;
    if |entries| > 0 {
      TrackEntriesEffect(ctx, row, entries, params, st1);
    }
    assert st'.groups == st1.groups;
    if count == 0 || count == 2 {
      GroupNamesAppend(st.groups, [g]);
      assert GroupNames([g]) == [g.name];
      Defaults(row, count >= 2);
    }
  }

  lemma RowStepGroups(ctx: Context, count: int, row: LegacyRow, st: RunState)
    requires RowStep(ctx, count, row, st).Ok?
    ensures GroupNames(RowStep(ctx, count, row, st).value.groups)
      == GroupNames(st.groups) + (if count == 0 || count == 2 then [IntToString(row.id)] else [])
  {
    RowStepEffect(ctx, count, row, st);
  }

  lemma RowStepBookkept(ctx: Context, count: int, row: LegacyRow, st: RunState, known0: set<string>)
    requires RowStep(ctx, count, row, st).Ok? && Bookkept(known0, st)
    ensures Bookkept(known0, RowStep(ctx, count, row, st).value)
  {
    var params := Snex2Params.Snex2Params(row, count >= 2).value;
    FixedKeysPresent(row, count >= 2);
    var st1 := if count == 0 || count == 2 then st.(groups := st.groups + [GroupFor(row, params, ctx.now)]) else st;
    var entries := TrackedEntries(ctx.log, row.id);
    if |entries| > 0 {
      TrackEntriesBookkept(ctx, row, entries, params, st1, known0);
    }
  }

  /** A settled row of an existing list changes nothing. */
  lemma RowStepSettled(ctx: Context, count: int, row: LegacyRow, st: RunState)
    requires count != 0 && count != 2 && Settled(ctx.log, ctx.api, row, count >= 2, st.known)
    ensures RowStep(ctx, count, row, st) == Ok(st)
  {
    var params := Snex2Params.Snex2Params(row, count >= 2).value;
    FixedKeysPresent(row, count >= 2);
    TrackEntriesSettled(ctx, row, TrackedEntries(ctx.log, row.id), params, st);
  }

  lemma {:induction false} RowsStepOkIff(ctx: Context, count: int, rows: seq<LegacyRow>, st: RunState)
    ensures RowsStep(ctx, count, rows, st).Ok? <==> forall o :: o in rows ==> Resolvable(ctx.log, ctx.api, o, count >= 2)
    decreases |rows|
  {
    if rows != [] {
      RowStepOkIff(ctx, count, rows[0], st);
      assert forall o :: o in rows ==> o == rows[0] || o in rows[1..];
      var r := RowStep(ctx, count, rows[0], st);
      assert rows[0] in rows && forall o :: o in rows[1..] ==> o in rows;
      if r.Ok? {
        RowsStepOkIff(ctx, count, rows[1..], r.value);
        assert RowsStep(ctx, count, rows, st) == RowsStep(ctx, count, rows[1..], r.value);
      }
    }
  }

  /** After a list every row of it is settled. */
  lemma {:induction false} RowsStepSettles(ctx: Context, count: int, rows: seq<LegacyRow>, st: RunState)
    requires RowsStep(ctx, count, rows, st).Ok?
    ensures var st' := RowsStep(ctx, count, rows, st).value;
      Grows(st, st') && forall o :: o in rows ==> Settled(ctx.log, ctx.api, o, count >= 2, st'.known)
    decreases |rows|
  {
    if rows != [] {
      var st1 := RowStep(ctx, count, rows[0], st).value;
      RowStepEffect(ctx, count, rows[0], st);
      RowsStepSettles(ctx, count, rows[1..], st1);
      var st' := RowsStep(ctx, count, rows, st).value;
      assert st' == RowsStep(ctx, count, rows[1..], st1).value;
      GrowsTrans(st, st1, st');
      SettledMono(ctx.log, ctx.api, rows[0], count >= 2, st1.known, st'.known);
      assert forall o :: o in rows ==> o == rows[0] || o in rows[1..];
    }
  }

  /** A list adds a group per row when it is a new list (named by the rows'
      ids, in order) and none otherwise. */
  lemma {:induction false} RowsStepGroups(ctx: Context, count: int, rows: seq<LegacyRow>, st: RunState)
    requires RowsStep(ctx, count, rows, st).Ok?
    ensures GroupNames(RowsStep(ctx, count, rows, st).value.groups)
      == GroupNames(st.groups) + (if count == 0 || count == 2 then RowIds(rows) else [])
    decreases |rows|
  {
    if rows != [] {
      var st1 := RowStep(ctx, count, rows[0], st).value;
      RowStepGroups(ctx, count, rows[0], st);
      RowsStepGroups(ctx, count, rows[1..], st1);
      assert RowsStep(ctx, count, rows, st).value == RowsStep(ctx, count, rows[1..], st1).value;
      if count == 0 || count == 2 {
        assert RowIds(rows) == [IntToString(rows[0].id)] + RowIds(rows[1..]);
        assert GroupNames(st.groups) + [IntToString(rows[0].id)] + RowIds(rows[1..])
          == GroupNames(st.groups) + RowIds(rows);
      }
    }
  }

  lemma {:induction false} RowsStepBookkept(ctx: Context, count: int, rows: seq<LegacyRow>, st: RunState, known0: set<string>)
    requires RowsStep(ctx, count, rows, st).Ok? && Bookkept(known0, st)
    ensures Bookkept(known0, RowsStep(ctx, count, rows, st).value)
    decreases |rows|
  {
    if rows != [] {
      RowStepBookkept(ctx, count, rows[0], st, known0);
      RowsStepBookkept(ctx, count, rows[1..], RowStep(ctx, count, rows[0], st).value, known0);
    }
  }

  lemma {:induction false} RowsStepSettled(ctx: Context, count: int, rows: seq<LegacyRow>, st: RunState)
    requires count != 0 && count != 2
    requires forall o :: o in rows ==> Settled(ctx.log, ctx.api, o, count >= 2, st.known)
    ensures RowsStep(ctx, count, rows, st) == Ok(st)
    decreases |rows|
  {
    if rows != [] {
      assert rows[0] in rows;
      RowStepSettled(ctx, count, rows[0], st);
      assert forall o :: o in rows[1..] ==> o in rows;
      RowsStepSettled(ctx, count, rows[1..], st);
    }
  }

  // ---------------------------------------------------------------------------
  // One target

  /** The four lists run one after the other, numbered 0 to 3. */
  lemma ListsStepFour(ctx: Context, a: seq<LegacyRow>, b: seq<LegacyRow>, c: seq<LegacyRow>, d: seq<LegacyRow>, st: RunState)
    ensures ListsStep(ctx, [a, b, c, d], 0, st) ==
      (var s1 :- RowsStep(ctx, 0, a, st);
       var s2 :- RowsStep(ctx, 1, b, s1);
       var s3 :- RowsStep(ctx, 2, c, s2);
       RowsStep(ctx, 3, d, s3))
  {
    var lists := [a, b, c, d];
    assert lists[1..] == [b, c, d] && lists[1..][1..] == [c, d] && lists[1..][1..][1..] == [d];
    var r1 := RowsStep(ctx, 0, a, st);
    if r1.Ok? {
      assert ListsStep(ctx, lists, 0, st) == ListsStep(ctx, [b, c, d], 1, r1.value);
      var r2 := RowsStep(ctx, 1, b, r1.value);
      if r2.Ok? {
        assert ListsStep(ctx, [b, c, d], 1, r1.value) == ListsStep(ctx, [c, d], 2, r2.value);
        var r3 := RowsStep(ctx, 2, c, r2.value);
        if r3.Ok? {
          assert ListsStep(ctx, [c, d], 2, r2.value) == ListsStep(ctx, [d], 3, r3.value);
          var r4 := RowsStep(ctx, 3, d, r3.value);
          assert [d][1..] == [];
          if r4.Ok? {
            assert ListsStep(ctx, [d], 3, r3.value) == ListsStep(ctx, [], 4, r4.value);
          }
        }
      }
    }
  }

  /** A target fails exactly when one of its approved sequences cannot be
      converted or resolved, whatever was ingested before. */
  lemma ForTargetOkIff(ctx: Context, existing: seq<int>, rows: seq<LegacyRow>, st: RunState)
    ensures ForTarget(ctx, existing, rows, st).Ok? <==>
      (forall o :: o in Onetime(rows, ctx.target) ==> Resolvable(ctx.log, ctx.api, o, false))
      && (forall o :: o in Repeating(rows, ctx.target) ==> Resolvable(ctx.log, ctx.api, o, true))
  {
    var onetime, repeating := Onetime(rows, ctx.target), Repeating(rows, ctx.target);
    var a, b := NewRows(onetime, existing), ExistingRows(onetime, existing);
    var c, d := NewRows(repeating, existing), ExistingRows(repeating, existing);
    SplitPartition(onetime, existing);
    SplitPartition(repeating, existing);
    ListsStepFour(ctx, a, b, c, d, st);
    RowsStepOkIff(ctx, 0, a, st);
    var r1 := RowsStep(ctx, 0, a, st);
    if r1.Ok? {
      RowsStepOkIff(ctx, 1, b, r1.value);
      var r2 := RowsStep(ctx, 1, b, r1.value);
      if r2.Ok? {
        RowsStepOkIff(ctx, 2, c, r2.value);
        var r3 := RowsStep(ctx, 2, c, r2.value);
        if r3.Ok? {
          RowsStepOkIff(ctx, 3, d, r3.value);
        }
      }
    }
  }

  /** After a target every approved sequence of it is settled. */
  lemma ForTargetSettles(ctx: Context, existing: seq<int>, rows: seq<LegacyRow>, st: RunState)
    requires ForTarget(ctx, existing, rows, st).Ok?
    ensures var st' := ForTarget(ctx, existing, rows, st).value;
      Grows(st, st')
      && (forall o :: o in Onetime(rows, ctx.target) ==> Settled(ctx.log, ctx.api, o, false, st'.known))
      && (forall o :: o in Repeating(rows, ctx.target) ==> Settled(ctx.log, ctx.api, o, true, st'.known))
  {
    var onetime, repeating := Onetime(rows, ctx.target), Repeating(rows, ctx.target);
    var a, b := NewRows(onetime, existing), ExistingRows(onetime, existing);
    var c, d := NewRows(repeating, existing), ExistingRows(repeating, existing);
    SplitPartition(onetime, existing);
    SplitPartition(repeating, existing);
    ListsStepFour(ctx, a, b, c, d, st);
    var s1 := RowsStep(ctx, 0, a, st).value;
    var s2 := RowsStep(ctx, 1, b, s1).value;
    var s3 := RowsStep(ctx, 2, c, s2).value;
    var s4 := RowsStep(ctx, 3, d, s3).value;
    RowsStepSettles(ctx, 0, a, st);
    RowsStepSettles(ctx, 1, b, s1);
    RowsStepSettles(ctx, 2, c, s2);
    RowsStepSettles(ctx, 3, d, s3);
    forall o | o in onetime ensures Settled(ctx.log, ctx.api, o, false, s4.known) {
      if o in a {
        SettledMono(ctx.log, ctx.api, o, false, s1.known, s4.known);
      } else {
        SettledMono(ctx.log, ctx.api, o, false, s2.known, s4.known);
      }
    }
    forall o | o in c ensures Settled(ctx.log, ctx.api, o, true, s4.known) {
      SettledMono(ctx.log, ctx.api, o, true, s3.known, s4.known);
    }
  }

  /** The groups a target adds are exactly its new one-time sequences and
      then its new repeating ones, each named by its id. */
  lemma ForTargetGroups(ctx: Context, existing: seq<int>, rows: seq<LegacyRow>, st: RunState)
    requires ForTarget(ctx, existing, rows, st).Ok?
    ensures GroupNames(ForTarget(ctx, existing, rows, st).value.groups) ==
      GroupNames(st.groups) + RowIds(NewRows(Onetime(rows, ctx.target), existing))
        + RowIds(NewRows(Repeating(rows, ctx.target), existing))
  {
    var onetime, repeating := Onetime(rows, ctx.target), Repeating(rows, ctx.target);
    var a, b := NewRows(onetime, existing), ExistingRows(onetime, existing);
    var c, d := NewRows(repeating, existing), ExistingRows(repeating, existing);
    ListsStepFour(ctx, a, b, c, d, st);
    var s1 := RowsStep(ctx, 0, a, st).value;
    var s2 := RowsStep(ctx, 1, b, s1).value;
    var s3 := RowsStep(ctx, 2, c, s2).value;
    var s4 := RowsStep(ctx, 3, d, s3).value;
    assert ForTarget(ctx, existing, rows, st).value == s4;
    RowsStepGroups(ctx, 0, a, st);
    RowsStepGroups(ctx, 1, b, s1);
    RowsStepGroups(ctx, 2, c, s2);
    RowsStepGroups(ctx, 3, d, s3);
    assert GroupNames(s2.groups) == GroupNames(st.groups) + RowIds(a);
    assert GroupNames(s4.groups) == GroupNames(s2.groups) + RowIds(c);
  }

  lemma ForTargetBookkept(ctx: Context, existing: seq<int>, rows: seq<LegacyRow>, st: RunState, known0: set<string>)
    requires ForTarget(ctx, existing, rows, st).Ok? && Bookkept(known0, st)
    ensures Bookkept(known0, ForTarget(ctx, existing, rows, st).value)
  {
    var onetime, repeating := Onetime(rows, ctx.target), Repeating(rows, ctx.target);
    var a, b := NewRows(onetime, existing), ExistingRows(onetime, existing);
    var c, d := NewRows(repeating, existing), ExistingRows(repeating, existing);
    ListsStepFour(ctx, a, b, c, d, st);
    var s1 := RowsStep(ctx, 0, a, st).value;
    var s2 := RowsStep(ctx, 1, b, s1).value;
    var s3 := RowsStep(ctx, 2, c, s2).value;
    RowsStepBookkept(ctx, 0, a, st, known0);
    RowsStepBookkept(ctx, 1, b, s1, known0);
    RowsStepBookkept(ctx, 2, c, s2, known0);
    RowsStepBookkept(ctx, 3, d, s3, known0);
  }

  /** A target whose sequences all have groups and are all settled writes
      nothing. */
  lemma ForTargetSettled(ctx: Context, existing: seq<int>, rows: seq<LegacyRow>, st: RunState)
    requires forall o :: o in Onetime(rows, ctx.target) ==> o.id in existing && Settled(ctx.log, ctx.api, o, false, st.known)
    requires forall o :: o in Repeating(rows, ctx.target) ==> o.id in existing && Settled(ctx.log, ctx.api, o, true, st.known)
    ensures ForTarget(ctx, existing, rows, st) == Ok(st)
  {
    var onetime, repeating := Onetime(rows, ctx.target), Repeating(rows, ctx.target);
    AllExisting(onetime, existing);
    AllExisting(repeating, existing);
    ListsStepFour(ctx, [], onetime, [], repeating, st);
    RowsStepSettled(ctx, 1, onetime, st);
    RowsStepSettled(ctx, 3, repeating, st);
  }

  // ---------------------------------------------------------------------------
  // The whole run

  /** Every approved sequence of target `t` has a group and is settled. */
  predicate Done(log: seq<LogEntry>, api: map<int, ApiAnswer>, rows: seq<LegacyRow>, t: int, existing: seq<int>, st: RunState) {
    (forall o :: o in Onetime(rows, t) ==>
       (o.id in existing || IntToString(o.id) in GroupNames(st.groups)) && Settled(log, api, o, false, st.known))
    && (forall o :: o in Repeating(rows, t) ==>
       (o.id in existing || IntToString(o.id) in GroupNames(st.groups)) && Settled(log, api, o, true, st.known))
  }

  /** Every approved sequence of target `t` names an existing group and is settled. */
  predicate Quiet(log: seq<LogEntry>, api: map<int, ApiAnswer>, rows: seq<LegacyRow>, t: int, existing: seq<int>, known: set<string>) {
    (forall o :: o in Onetime(rows, t) ==> o.id in existing && Settled(log, api, o, false, known))
    && (forall o :: o in Repeating(rows, t) ==> o.id in existing && Settled(log, api, o, true, known))
  }

  lemma ForTargetDone(ctx: Context, existing: seq<int>, rows: seq<LegacyRow>, st: RunState)
    requires ForTarget(ctx, existing, rows, st).Ok?
    ensures Done(ctx.log, ctx.api, rows, ctx.target, existing, ForTarget(ctx, existing, rows, st).value)
  {
    var onetime, repeating := Onetime(rows, ctx.target), Repeating(rows, ctx.target);
    var a, c := NewRows(onetime, existing), NewRows(repeating, existing);
    ForTargetSettles(ctx, existing, rows, st);
    ForTargetGroups(ctx, existing, rows, st);
    SplitPartition(onetime, existing);
    SplitPartition(repeating, existing);
    RowIdsContent(a);
    RowIdsContent(c);
  }

  lemma DoneMono(log: seq<LogEntry>, api: map<int, ApiAnswer>, rows: seq<LegacyRow>, t: int, existing: seq<int>, st: RunState, st': RunState)
    requires Done(log, api, rows, t, existing, st) && Grows(st, st')
    ensures Done(log, api, rows, t, existing, st')
  {
    assert st'.groups == st.groups + st'.groups[|st.groups|..];
    GroupNamesAppend(st.groups, st'.groups[|st.groups|..]);
    forall o | o in Onetime(rows, t) ensures Settled(log, api, o, false, st'.known) {
      SettledMono(log, api, o, false, st.known, st'.known);
    }
    forall o | o in Repeating(rows, t) ensures Settled(log, api, o, true, st'.known) {
      SettledMono(log, api, o, true, st.known, st'.known);
    }
  }

  lemma {:induction false} TargetsStepDone(targets: seq<int>, existing: seq<int>, snex1Groups: map<string, int>, rows: seq<LegacyRow>,
                                           log: seq<LogEntry>, api: map<int, ApiAnswer>, now: DateTime, st: RunState)
    requires TargetsStep(targets, existing, snex1Groups, rows, log, api, now, st).Ok?
    ensures var st' := TargetsStep(targets, existing, snex1Groups, rows, log, api, now, st).value;
      Grows(st, st') && forall t :: t in targets ==> Done(log, api, rows, t, existing, st')
    decreases |targets|
  {
    if targets != [] {
      var ctx := Context(targets[0], snex1Groups, log, api, now);
      var st1 := ForTarget(ctx, existing, rows, st).value;
      ForTargetDone(ctx, existing, rows, st);
      ForTargetSettles(ctx, existing, rows, st);
      TargetsStepDone(targets[1..], existing, snex1Groups, rows, log, api, now, st1);
      var st' := TargetsStep(targets, existing, snex1Groups, rows, log, api, now, st).value;
      assert st' == TargetsStep(targets[1..], existing, snex1Groups, rows, log, api, now, st1).value;
      GrowsTrans(st, st1, st');
      DoneMono(log, api, rows, targets[0], existing, st1, st');
      assert forall t :: t in targets ==> t == targets[0] || t in targets[1..];
    }
  }

  lemma {:induction false} TargetsStepSettled(targets: seq<int>, existing: seq<int>, snex1Groups: map<string, int>, rows: seq<LegacyRow>,
                                              log: seq<LogEntry>, api: map<int, ApiAnswer>, now: DateTime, st: RunState)
    requires forall t :: t in targets ==> Quiet(log, api, rows, t, existing, st.known)
    ensures TargetsStep(targets, existing, snex1Groups, rows, log, api, now, st) == Ok(st)
    decreases |targets|
  {
    if targets != [] {
      assert targets[0] in targets && forall t :: t in targets[1..] ==> t in targets;
      ForTargetSettled(Context(targets[0], snex1Groups, log, api, now), existing, rows, st);
      TargetsStepSettled(targets[1..], existing, snex1Groups, rows, log, api, now, st);
    }
  }

  lemma {:induction false} TargetsStepBookkept(targets: seq<int>, existing: seq<int>, snex1Groups: map<string, int>, rows: seq<LegacyRow>,
                                               log: seq<LogEntry>, api: map<int, ApiAnswer>, now: DateTime, st: RunState, known0: set<string>)
    requires TargetsStep(targets, existing, snex1Groups, rows, log, api, now, st).Ok? && Bookkept(known0, st)
    ensures Bookkept(known0, TargetsStep(targets, existing, snex1Groups, rows, log, api, now, st).value)
    decreases |targets|
  {
    if targets != [] {
      var ctx := Context(targets[0], snex1Groups, log, api, now);
      ForTargetBookkept(ctx, existing, rows, st, known0);
      TargetsStepBookkept(targets[1..], existing, snex1Groups, rows, log, api, now, ForTarget(ctx, existing, rows, st).value, known0);
    }
  }

  lemma {:induction false} TargetsStepOkIff(targets: seq<int>, existing: seq<int>, snex1Groups: map<string, int>, rows: seq<LegacyRow>,
                                            log: seq<LogEntry>, api: map<int, ApiAnswer>, now: DateTime, st: RunState)
    ensures TargetsStep(targets, existing, snex1Groups, rows, log, api, now, st).Ok? <==>
      forall t :: t in targets ==>
        (forall o :: o in Onetime(rows, t) ==> Resolvable(log, api, o, false))
        && (forall o :: o in Repeating(rows, t) ==> Resolvable(log, api, o, true))
    decreases |targets|
  {
    if targets != [] {
      var ctx := Context(targets[0], snex1Groups, log, api, now);
      ForTargetOkIff(ctx, existing, rows, st);
      assert targets[0] in targets && forall t :: t in targets[1..] ==> t in targets;
      assert forall t :: t in targets ==> t == targets[0] || t in targets[1..];
      var r := ForTarget(ctx, existing, rows, st);
      if r.Ok? {
        TargetsStepOkIff(targets[1..], existing, snex1Groups, rows, log, api, now, r.value);
        assert TargetsStep(targets, existing, snex1Groups, rows, log, api, now, st)
          == TargetsStep(targets[1..], existing, snex1Groups, rows, log, api, now, r.value);
      }
    }
  }

  /** `existing_obs` holds exactly the values of the names `int()` accepts. */
  lemma {:induction false} ParsedNamesContent(names: seq<string>)
    ensures forall s :: s in names && ParseInt(s).Some? ==> ParseInt(s).value in ParsedNames(names)
    ensures forall n :: n in ParsedNames(names) ==> exists s :: s in names && ParseInt(s) == Some(n)
  {
    if names != [] {
      ParsedNamesContent(names[..|names| - 1]);
      assert names == names[..|names| - 1] + [names[|names| - 1]];
    }
  }

  /** `snex1_groups` has a key per group name, holding the idcode of the last
      row with that name. */
  lemma GroupTableContent(rows: seq<GroupRow>)
    ensures forall n :: n in GroupTable(rows) <==> exists i :: 0 <= i < |rows| && rows[i].name == n
    ensures forall i :: 0 <= i < |rows| && (forall j :: i < j < |rows| ==> rows[j].name != rows[i].name) ==>
      rows[i].name in GroupTable(rows) && GroupTable(rows)[rows[i].name] == rows[i].idcode
  {
    GroupTableKeys(rows);
    GroupTableLast(rows);
  }

  predicate HasName(rows: seq<GroupRow>, n: string) {
    exists i :: 0 <= i < |rows| && rows[i].name == n
  }

  /** The table's keys are the group names. */
  lemma {:induction false} GroupTableKeys(rows: seq<GroupRow>)
    ensures forall n :: n in GroupTable(rows) <==> HasName(rows, n)
  {
    if rows != [] {
      var init, last := rows[..|rows| - 1], rows[|rows| - 1];
      GroupTableKeys(init);
      assert GroupTable(rows) == GroupTable(init)[last.name := last.idcode];
      forall n ensures n in GroupTable(rows) <==> HasName(rows, n) {
        if n == last.name {
          assert rows[|rows| - 1].name == n;
        } else {
          if HasName(init, n) {
            var i :| 0 <= i < |init| && init[i].name == n;
            assert rows[i].name == n;
          }
          if HasName(rows, n) {
            var i :| 0 <= i < |rows| && rows[i].name == n;
            assert init[i].name == n;
          }
        }
      }
    }
  }

  /** Row `i` is the last row with its name. */
  predicate LastOfName(rows: seq<GroupRow>, i: int) {
    0 <= i < |rows| && forall j :: i < j < |rows| ==> rows[j].name != rows[i].name
  }

  /** A name's entry holds the idcode of the last row with that name. */
  lemma {:induction false} GroupTableLast(rows: seq<GroupRow>)
    ensures forall i :: LastOfName(rows, i) ==> rows[i].name in GroupTable(rows) && GroupTable(rows)[rows[i].name] == rows[i].idcode
  {
    if rows != [] {
      var init, last := rows[..|rows| - 1], rows[|rows| - 1];
      GroupTableLast(init);
      assert GroupTable(rows) == GroupTable(init)[last.name := last.idcode];
      forall i | LastOfName(rows, i)
        ensures rows[i].name in GroupTable(rows) && GroupTable(rows)[rows[i].name] == rows[i].idcode
      {
        if i < |rows| - 1 {
          assert rows[i].name != last.name;
          assert LastOfName(init, i) by {
            assert forall j :: i < j < |init| ==> init[j] == rows[j];
          }
        }
      }
    }
  }

  /** The run fails exactly when some approved sequence of some target cannot
      be converted or resolved. */
  lemma HandleOkIff(targetOption: Option<int>, groupNames: seq<string>, groupRows: seq<GroupRow>, allTargets: seq<int>,
                    rows: seq<LegacyRow>, log: seq<LogEntry>, api: map<int, ApiAnswer>, now: DateTime, known: set<string>)
    ensures HandleSpec(targetOption, groupNames, groupRows, allTargets, rows, log, api, now, known).Ok? <==>
      forall t :: t in (if targetOption.Some? then [targetOption.value] else allTargets) ==>
        (forall o :: o in Onetime(rows, t) ==> Resolvable(log, api, o, false))
        && (forall o :: o in Repeating(rows, t) ==> Resolvable(log, api, o, true))
  {
    var targets := if targetOption.Some? then [targetOption.value] else allTargets;
    TargetsStepOkIff(targets, ParsedNames(groupNames), GroupTable(groupRows), rows, log, api, now, RunState(known, [], []));
  }

  /** No observation id gets two records in a run, every recorded id is
      positive, none that SNEx2 already had gets one, and the ids known at the
      end are those plus the ones recorded. */
  lemma HandleBookkept(targetOption: Option<int>, groupNames: seq<string>, groupRows: seq<GroupRow>, allTargets: seq<int>,
                       rows: seq<LegacyRow>, log: seq<LogEntry>, api: map<int, ApiAnswer>, now: DateTime, known: set<string>)
    requires HandleSpec(targetOption, groupNames, groupRows, allTargets, rows, log, api, now, known).Ok?
    ensures Bookkept(known, HandleSpec(targetOption, groupNames, groupRows, allTargets, rows, log, api, now, known).value)
  {
    var targets := if targetOption.Some? then [targetOption.value] else allTargets;
    assert RecordIds([]) == {};
    TargetsStepBookkept(targets, ParsedNames(groupNames), GroupTable(groupRows), rows, log, api, now, RunState(known, [], []), known);
  }

  /** Running the command again, once the first run's groups and records are
      in SNEx2, succeeds and writes nothing: every sequence then names an
      existing group and every observation id is known. */
  lemma HandleIdempotent(targetOption: Option<int>, groupNames: seq<string>, groupRows: seq<GroupRow>, allTargets: seq<int>,
                         rows: seq<LegacyRow>, log: seq<LogEntry>, api: map<int, ApiAnswer>, now: DateTime, known: set<string>)
    requires HandleSpec(targetOption, groupNames, groupRows, allTargets, rows, log, api, now, known).Ok?
    ensures var st1 := HandleSpec(targetOption, groupNames, groupRows, allTargets, rows, log, api, now, known).value;
      HandleSpec(targetOption, groupNames + GroupNames(st1.groups), groupRows, allTargets, rows, log, api, now, st1.known)
        == Ok(RunState(st1.known, [], []))
  {
    var targets := if targetOption.Some? then [targetOption.value] else allTargets;
    var existing, table := ParsedNames(groupNames), GroupTable(groupRows);
    var st1 := HandleSpec(targetOption, groupNames, groupRows, allTargets, rows, log, api, now, known).value;
    var names2 := groupNames + GroupNames(st1.groups);
    var existing2 := ParsedNames(names2);
    TargetsStepDone(targets, existing, table, rows, log, api, now, RunState(known, [], []));
    ParsedNamesContent(groupNames);
    ParsedNamesContent(names2);
    forall t | t in targets ensures Quiet(log, api, rows, t, existing2, st1.known) {
      assert Done(log, api, rows, t, existing, st1);
      forall o | o in Onetime(rows, t) || o in Repeating(rows, t) ensures o.id in existing2 {
        if o.id in existing {
          var s :| s in groupNames && ParseInt(s) == Some(o.id);
          assert s in names2;
        } else {
          ParseIntOfIntToString(o.id);
          assert IntToString(o.id) in names2;
        }
      }
    }
    TargetsStepSettled(targets, existing2, table, rows, log, api, now, RunState(st1.known, [], []));
  }
}
