/** The parameter normaliser of the ingestion command
    (ingest_observations.py, `get_snex2_params`): one SNEx1 `obsrequests` row
    becomes the parameter dictionary of a SNEx2 observation. */
module Snex2Params {
  import opened Wrappers
  import opened PyText

  /** A `datetime` column value. */
  datatype DateTime = DateTime(year: int, month: int, day: int, hour: int, minute: int, second: int)

  /** `a > b` on datetimes. */
  predicate Later(a: DateTime, b: DateTime) {
    if a.year != b.year then a.year > b.year
    else if a.month != b.month then a.month > b.month
    else if a.day != b.day then a.day > b.day
    else if a.hour != b.hour then a.hour > b.hour
    else if a.minute != b.minute then a.minute > b.minute
    else a.second > b.second
  }

  /** The `sequenceend` column: NULL, MySQL's zero date handed back as the
      string '0000-00-00 00:00:00', or a datetime. */
  datatype SequenceEnd = NullEnd | ZeroDate | EndsAt(at: DateTime)

  /** One row of the SNEx1 `obsrequests` table. `cadence`, `moondistlimit` and
      `priority` are read with `dict.get` and a default, so their absence is
      modelled (`None`); every other column is read with `[...]`. A NULL
      column is read as an absent one, and the other columns as non-NULL. */
  datatype LegacyRow = LegacyRow(
    id: int,
    targetId: int,
    autostop: int,
    approved: int,
    instrument: string,
    cadence: Option<real>,
    ipp: real,
    airmass: real,
    moonDistLimit: Option<real>,
    priority: Option<string>,
    nextReminder: DateTime,
    proposalId: string,
    site: string,
    filters: string,
    exptimes: string,
    expnums: string,
    blocknums: string,
    acqRadius: real,
    guiderMode: string,
    guiderExpTime: real,
    sequenceStart: DateTime,
    sequenceEnd: SequenceEnd,
    dateCreated: DateTime,
    lastModified: DateTime,
    groupIdCode: int)

  /** A value of the parameter dictionary. `PTime(t)` is
      `t.strftime('%Y-%m-%dT%H:%M:%S')`; `PJulian(jd)` is
      `Time(jd, format='jd').to_value('isot')`. */
  datatype ParamValue =
    | PStr(s: string)
    | PReal(r: real)
    | PInt(i: int)
    | PTriple(exptime: real, expnum: int, blocknum: int)
    | PTime(t: DateTime)
    | PJulian(jd: real)

  type Params = map<string, ParamValue>

  /** The exceptions `get_snex2_params` can raise. */
  datatype ParamError =
    | UnknownInstrument(name: string)  // KeyError from the instrument tables
    | BadNumber(text: string)          // ValueError from int() or float()
    | ShortList                        // IndexError: a list shorter than `filters`
    | EndNotADate                      // AttributeError: strftime on the zero-date string

  const ResumeStrategy := "SnexResumeCadenceAfterFailureStrategy"
  const RetryStrategy := "SnexRetryFailedObservationsStrategy"

  const InstrumentTypes: map<string, string> := map[
    "floyds" := "2M0-FLOYDS-SCICAM",
    "sinistro" := "1M0-SCICAM-SINISTRO",
    "muscat" := "2M0-SCICAM-MUSCAT",
    "spectral" := "2M0-SPECTRAL-AG",
    "sbig" := "0M4-SCICAM-SBIG",
    "sbig0m4" := "0M4-SCICAM-SBIG"]

  const ObservationTypes: map<string, string> := map[
    "floyds" := "SPECTRA",
    "sinistro" := "IMAGING",
    "muscat" := "IMAGING",
    "spectral" := "IMAGING",
    "sbig" := "IMAGING",
    "sbig0m4" := "IMAGING"]

  const FilterNames: map<string, string> := map["g" := "gp", "r" := "rp", "i" := "ip", "z" := "zs"]

  /** `filt_dict.get(f, f)`. */
  function TranslateFilter(f: string): string {
    if f in FilterNames then FilterNames[f] else f
  }

  function StrategyFor(repeating: bool): string {
    if repeating then ResumeStrategy else RetryStrategy
  }

  function IntOf(s: string): Result<int, ParamError> {
    match ParseInt(s)
    case Some(n) => Ok(n)
    case None => Err(BadNumber(s))
  }

  function RealOf(s: string): Result<real, ParamError> {
    match ParseFloat(s)
    case Some(x) => Ok(x)
    case None => Err(BadNumber(s))
  }

  /** The fields set before the instrument is looked up. */
  function BaseParams(row: LegacyRow, repeating: bool): Params {
    map[
      "facility" := PStr("LCO"),
      "cadence_strategy" := PStr(StrategyFor(repeating)),
      "cadence_frequency" := PReal(if row.cadence.Some? then row.cadence.value else 0.0),
      "ipp_value" := PReal(row.ipp),
      "max_airmass" := PReal(row.airmass),
      "target_id" := PInt(row.targetId),
      "name" := PInt(row.id),
      "min_lunar_distance" := PReal(if row.moonDistLimit.Some? then row.moonDistLimit.value else 20.0),
      "observation_mode" := PStr(Upper(if row.priority.Some? then row.priority.value else "normal")),
      "reminder" := PTime(row.nextReminder),
      "proposal" := PStr(row.proposalId)]
  }

  /** The keys `BaseParams` and the instrument routing always set. */
  const FixedKeys: set<string> := {
    "facility", "cadence_strategy", "cadence_frequency", "ipp_value", "max_airmass",
    "target_id", "name", "min_lunar_distance", "observation_mode", "reminder",
    "proposal", "instrument_type", "observation_type", "site"}

  /** Base fields plus instrument type, observation type and site. */
  function RoutedParams(row: LegacyRow, repeating: bool): Params
    requires row.instrument in InstrumentTypes && row.instrument in ObservationTypes
  {
    BaseParams(row, repeating)[
      "instrument_type" := PStr(InstrumentTypes[row.instrument])][
      "observation_type" := PStr(ObservationTypes[row.instrument])][
      "site" := PStr(row.site)]
  }

  /** The FLOYDS spectrograph's exposure and guiding fields, written over `p`. */
  function FloydsFields(row: LegacyRow, p: Params): Result<Params, ParamError> {
    var count :- IntOf(row.expnums);
    var time :- RealOf(row.exptimes);
    Ok(p["exposure_count" := PInt(count)]["exposure_time" := PReal(time)][
      "acquisition_radius" := PReal(row.acqRadius)]["guider_mode" := PStr(Lower(row.guiderMode))][
      "guider_exposure_time" := PReal(row.guiderExpTime)]["filter" := PStr("slit_2.0as")])
  }

  /** `[float(x) for x in parts]`, each conversion kept with its outcome. */
  function RealsOf(parts: seq<string>): (r: seq<Result<real, ParamError>>)
    ensures |r| == |parts|
  {
    if parts == [] then [] else RealsOf(parts[..|parts| - 1]) + [RealOf(parts[|parts| - 1])]
  }

  /** `[int(x) for x in parts]`, each conversion kept with its outcome. */
  function IntsOf(parts: seq<string>): (r: seq<Result<int, ParamError>>)
    ensures |r| == |parts|
  {
    if parts == [] then [] else IntsOf(parts[..|parts| - 1]) + [IntOf(parts[|parts| - 1])]
  }

  lemma {:induction false} RealsOfAt(parts: seq<string>, i: nat)
    requires i < |parts|
    ensures RealsOf(parts)[i] == RealOf(parts[i])
    decreases |parts|
  {
    if i < |parts| - 1 {
      RealsOfAt(parts[..|parts| - 1], i);
    }
  }

  lemma {:induction false} IntsOfAt(parts: seq<string>, i: nat)
    requires i < |parts|
    ensures IntsOf(parts)[i] == IntOf(parts[i])
    decreases |parts|
  {
    if i < |parts| - 1 {
      IntsOfAt(parts[..|parts| - 1], i);
    }
  }

  /** `[float(exptimes[i]), int(expnums[i]), int(blocknums[i])]`, from the
      converted columns, evaluated left to right: an index past the end of a
      list is the `IndexError`, a bad number the `ValueError`. */
  function TripleAt(exps: seq<Result<real, ParamError>>, nums: seq<Result<int, ParamError>>, blocks: seq<Result<int, ParamError>>, i: nat): Result<ParamValue, ParamError> {
    if i >= |exps| then Err(ShortList)
    else
      var t :- exps[i];
      if i >= |nums| then Err(ShortList)
      else
        var n :- nums[i];
        if i >= |blocks| then Err(ShortList)
        else
          var b :- blocks[i];
          Ok(PTriple(t, n, b))
  }

  /** The entries the filter loop writes for its first `n` positions, each
      under the translated filter name; a later position overwrites an earlier
      one with the same name. */
  function FilterTriples(filts: seq<string>, exps: seq<Result<real, ParamError>>, nums: seq<Result<int, ParamError>>, blocks: seq<Result<int, ParamError>>, n: nat): Result<Params, ParamError>
    requires n <= |filts|
  {
    if n == 0 then Ok(map[])
    else
      var earlier :- FilterTriples(filts, exps, nums, blocks, n - 1);
      var triple :- TripleAt(exps, nums, blocks, n - 1);
      Ok(earlier[TranslateFilter(filts[n - 1]) := triple])
  }

  function DiffuserKey(f: string): string {
    "diffuser_" + f + "_position"
  }

  /** MuSCAT's `diffuser_<f>_position = 'out'` for the first `n` raw filters. */
  function DiffuserFlags(filts: seq<string>, n: nat): Params
    requires n <= |filts|
  {
    if n == 0 then map[] else DiffuserFlags(filts, n - 1)[DiffuserKey(filts[n - 1]) := PStr("out")]
  }

  function ExptimeColumn(row: LegacyRow): seq<Result<real, ParamError>> {
    RealsOf(Split(row.exptimes, ','))
  }

  function ExpnumColumn(row: LegacyRow): seq<Result<int, ParamError>> {
    IntsOf(Split(row.expnums, ','))
  }

  function BlocknumColumn(row: LegacyRow): seq<Result<int, ParamError>> {
    IntsOf(Split(row.blocknums, ','))
  }

  /** The imaging instruments' per-filter triples, and MuSCAT's extra
      fields, written over `p`. */
  function ImagingFields(row: LegacyRow, p: Params): Result<Params, ParamError> {
    var filts := Split(row.filters, ',');
    var triples :- FilterTriples(filts, ExptimeColumn(row), ExpnumColumn(row), BlocknumColumn(row), |filts|);
    if row.instrument == "muscat" then
      Ok((p + triples)["guider_mode" := PStr("ON")]["exposure_mode" := PStr("ASYNCHRONOUS")] + DiffuserFlags(filts, |filts|))
    else Ok(p + triples)
  }

  /** `start` and `end`, set last, over `p`. */
  function WindowFields(row: LegacyRow, p: Params): Result<Params, ParamError> {
    match row.sequenceEnd
    case NullEnd => Ok(p["start" := PTime(row.sequenceStart)]["end" := PStr("")])
    case ZeroDate => Err(EndNotADate)
    case EndsAt(t) => Ok(p["start" := PTime(row.sequenceStart)]["end" := PTime(t)])
  }

  /** The instrument branch: FLOYDS or imaging. */
  function Exposures(row: LegacyRow, p: Params): Result<Params, ParamError> {
    if row.instrument == "floyds" then FloydsFields(row, p) else ImagingFields(row, p)
  }

  /** `get_snex2_params(obs, repeating)`: every assignment of the source, in
      order, over one dictionary. */
  function Snex2Params(row: LegacyRow, repeating: bool): Result<Params, ParamError> {
    if row.instrument !in InstrumentTypes || row.instrument !in ObservationTypes then
      Err(UnknownInstrument(row.instrument))
    else
      var routed := RoutedParams(row, repeating);
      var exposed :- Exposures(row, routed);
      WindowFields(row, exposed)
  }

  /** The translated names of the row's filters. */
  function TranslatedFilters(row: LegacyRow): set<string> {
    set f | f in Split(row.filters, ',') :: TranslateFilter(f)
  }

  /** The keys the filter loop of an imaging row writes. */
  function FilterKeys(row: LegacyRow): set<string> {
    if row.instrument == "floyds" then {} else TranslatedFilters(row)
  }

  // ---------------------------------------------------------------------------
  // The normaliser as the source runs it: key by key, with the filter loop.

  /** The assignments before the instrument lookup. */
  method SetBaseFields(row: LegacyRow, repeating: bool) returns (param: Params)
    ensures param == BaseParams(row, repeating)
  {
    param := map["facility" := PStr("LCO")];
    var cadence := if row.cadence.Some? then row.cadence.value else 0.0;
    if repeating {
      param := param["cadence_strategy" := PStr(ResumeStrategy)];
    } else {
      param := param["cadence_strategy" := PStr(RetryStrategy)];
    }
    param := param["cadence_frequency" := PReal(cadence)];
    param := param["ipp_value" := PReal(row.ipp)];
    param := param["max_airmass" := PReal(row.airmass)];
    param := param["target_id" := PInt(row.targetId)];
    param := param["name" := PInt(row.id)];
    param := param["min_lunar_distance" := PReal(if row.moonDistLimit.Some? then row.moonDistLimit.value else 20.0)];
    param := param["observation_mode" := PStr(Upper(if row.priority.Some? then row.priority.value else "normal"))];
    param := param["reminder" := PTime(row.nextReminder)];
    param := param["proposal" := PStr(row.proposalId)];
  }

  /** One position of the filter loop: the three conversions of `i`. */
  method ParseTriple(exps: seq<string>, nums: seq<string>, blocks: seq<string>, i: nat)
    returns (triple: Result<ParamValue, ParamError>)
    ensures triple == TripleAt(RealsOf(exps), IntsOf(nums), IntsOf(blocks), i)
  {
    if i >= |exps| { return Err(ShortList); }
    RealsOfAt(exps, i);
    var t := RealOf(exps[i]);
    if t.Err? { return Err(t.error); }
    if i >= |nums| { return Err(ShortList); }
    IntsOfAt(nums, i);
    var n := IntOf(nums[i]);
    if n.Err? { return Err(n.error); }
    if i >= |blocks| { return Err(ShortList); }
    IntsOfAt(blocks, i);
    var b := IntOf(blocks[i]);
    if b.Err? { return Err(b.error); }
    triple := Ok(PTriple(t.value, n.value, b.value));
  }

  /** The loop's renaming of one filter through the filter dictionary. */
  method TranslateName(filt: string) returns (currentFilt: string)
    ensures currentFilt == TranslateFilter(filt)
    ensures currentFilt != filt ==> filt in FilterNames && currentFilt == FilterNames[filt]
  {
    currentFilt := filt;
    if currentFilt in FilterNames {
      currentFilt := FilterNames[currentFilt];
    }
  }

  /** The filter loop: one triple per position, under the translated name. */
  method AddFilterTriples(param0: Params, filts: seq<string>, exps: seq<string>, nums: seq<string>, blocks: seq<string>)
    returns (r: Result<Params, ParamError>)
    ensures FilterTriples(filts, RealsOf(exps), IntsOf(nums), IntsOf(blocks), |filts|).Ok? <==> r.Ok?
    ensures r.Ok? ==> r.value == param0 + FilterTriples(filts, RealsOf(exps), IntsOf(nums), IntsOf(blocks), |filts|).value
    ensures r.Err? ==> r.error == FilterTriples(filts, RealsOf(exps), IntsOf(nums), IntsOf(blocks), |filts|).error
  {
    var param := param0;
    ghost var written: Params := map[];
    for i := 0 to |filts|
      invariant FilterTriples(filts, RealsOf(exps), IntsOf(nums), IntsOf(blocks), i) == Ok(written)
      invariant param == param0 + written
    {
      var currentFilt := TranslateName(filts[i]);
      var triple := ParseTriple(exps, nums, blocks, i);
      if triple.Err? {
        FilterTriplesStopAt(filts, RealsOf(exps), IntsOf(nums), IntsOf(blocks), i, |filts|);
        return Err(triple.error);
      }
      FilterTriplesNext(filts, RealsOf(exps), IntsOf(nums), IntsOf(blocks), i, written);
      UnionUpdate(param0, written, currentFilt, triple.value);
      param := param[currentFilt := triple.value];
      written := written[currentFilt := triple.value];
    }
    r := Ok(param);
  }

  /** A prefix that converted, followed by a position that converts, extends
      the dictionary by that position's triple. */
  lemma FilterTriplesNext(filts: seq<string>, exps: seq<Result<real, ParamError>>, nums: seq<Result<int, ParamError>>, blocks: seq<Result<int, ParamError>>, i: nat, written: Params)
    requires i < |filts| && FilterTriples(filts, exps, nums, blocks, i) == Ok(written)
    requires TripleAt(exps, nums, blocks, i).Ok?
    ensures FilterTriples(filts, exps, nums, blocks, i + 1) == Ok(written[TranslateFilter(filts[i]) := TripleAt(exps, nums, blocks, i).value])
  {
  }

  lemma UnionUpdate(m: Params, t: Params, k: string, v: ParamValue)
    ensures (m + t)[k := v] == m + t[k := v]
  {
  }

  /** Once position `i` fails, every longer prefix fails with its error. */
  lemma {:induction false} FilterTriplesStopAt(filts: seq<string>, exps: seq<Result<real, ParamError>>, nums: seq<Result<int, ParamError>>, blocks: seq<Result<int, ParamError>>, i: nat, n: nat)
    requires i < n <= |filts|
    requires FilterTriples(filts, exps, nums, blocks, i).Ok?
    requires TripleAt(exps, nums, blocks, i).Err?
    ensures FilterTriples(filts, exps, nums, blocks, n) == Err(TripleAt(exps, nums, blocks, i).error)
    decreases n
  {
    if n > i + 1 {
      FilterTriplesStopAt(filts, exps, nums, blocks, i, n - 1);
    }
  }

  /** MuSCAT's loop over the raw filters. */
  method AddDiffusers(param0: Params, filts: seq<string>) returns (param: Params)
    ensures param == param0 + DiffuserFlags(filts, |filts|)
  {
    param := param0;
    var k := 0;
    while k < |filts|
      invariant 0 <= k <= |filts|
      invariant param == param0 + DiffuserFlags(filts, k)
    {
      param := param[DiffuserKey(filts[k]) := PStr("out")];
      k := k + 1;
    }
  }

  /** The FLOYDS branch. */
  method AddFloydsFields(param0: Params, row: LegacyRow) returns (r: Result<Params, ParamError>)
    ensures r == FloydsFields(row, param0)
  {
    var count := IntOf(row.expnums);
    if count.Err? { return Err(count.error); }
    var time := RealOf(row.exptimes);
    if time.Err? { return Err(time.error); }
    var param := param0;
    param := param["exposure_count" := PInt(count.value)];
    param := param["exposure_time" := PReal(time.value)];
    param := param["acquisition_radius" := PReal(row.acqRadius)];
    param := param["guider_mode" := PStr(Lower(row.guiderMode))];
    param := param["guider_exposure_time" := PReal(row.guiderExpTime)];
    param := param["filter" := PStr("slit_2.0as")];
    r := Ok(param);
  }

  /** The imaging branch: the filter loop, then MuSCAT's extra fields. */
  method AddImagingFields(param0: Params, row: LegacyRow) returns (r: Result<Params, ParamError>)
    ensures r == ImagingFields(row, param0)
  {
    var filts := Split(row.filters, ',');
    var withTriples := AddFilterTriples(param0, filts, Split(row.exptimes, ','), Split(row.expnums, ','), Split(row.blocknums, ','));
    if withTriples.Err? { return Err(withTriples.error); }
    var param := withTriples.value;
    if row.instrument == "muscat" {
      param := param["guider_mode" := PStr("ON")]["exposure_mode" := PStr("ASYNCHRONOUS")];
      param := AddDiffusers(param, filts);
    }
    r := Ok(param);
  }

  /** `start` and `end`. */
  method AddWindow(param0: Params, row: LegacyRow) returns (r: Result<Params, ParamError>)
    ensures r == WindowFields(row, param0)
  {
    var param := param0;
    match row.sequenceEnd {
      case NullEnd =>
        param := param["start" := PTime(row.sequenceStart)];
        param := param["end" := PStr("")];
      case ZeroDate =>
        return Err(EndNotADate);
      case EndsAt(t) =>
        param := param["start" := PTime(row.sequenceStart)];
        param := param["end" := PTime(t)];
    }
    r := Ok(param);
  }

  /** `get_snex2_params`, building the dictionary step by step. */
  method GetSnex2Params(row: LegacyRow, repeating: bool) returns (r: Result<Params, ParamError>)
    ensures r == Snex2Params(row, repeating)
  {
    var param := SetBaseFields(row, repeating);
    if row.instrument !in InstrumentTypes || row.instrument !in ObservationTypes {
      return Err(UnknownInstrument(row.instrument));
    }
    param := param["instrument_type" := PStr(InstrumentTypes[row.instrument])];
    param := param["observation_type" := PStr(ObservationTypes[row.instrument])];
    param := param["site" := PStr(row.site)];
    var withExposures;
    if row.instrument == "floyds" {
      withExposures := AddFloydsFields(param, row);
    } else {
      withExposures := AddImagingFields(param, row);
    }
    if withExposures.Err? { return Err(withExposures.error); }
    r := AddWindow(withExposures.value, row);
  }

  // ---------------------------------------------------------------------------
  // What the normaliser promises

  /** Every position of the filter loop must parse, and then the loop succeeds. */
  lemma {:induction false} FilterTriplesOkIff(filts: seq<string>, exps: seq<Result<real, ParamError>>, nums: seq<Result<int, ParamError>>, blocks: seq<Result<int, ParamError>>, n: nat)
    requires n <= |filts|
    ensures FilterTriples(filts, exps, nums, blocks, n).Ok? <==>
      forall i :: 0 <= i < n ==> TripleAt(exps, nums, blocks, i).Ok?
    decreases n
  {
    if n > 0 {
      FilterTriplesOkIff(filts, exps, nums, blocks, n - 1);
    }
  }

  /** The loop writes exactly the translated names of the first `n` filters. */
  lemma {:induction false} FilterTriplesKeys(filts: seq<string>, exps: seq<Result<real, ParamError>>, nums: seq<Result<int, ParamError>>, blocks: seq<Result<int, ParamError>>, n: nat)
    requires n <= |filts|
    requires FilterTriples(filts, exps, nums, blocks, n).Ok?
    ensures forall k :: k in FilterTriples(filts, exps, nums, blocks, n).value <==>
      exists i :: 0 <= i < n && TranslateFilter(filts[i]) == k
    decreases n
  {
    if n > 0 {
      FilterTriplesKeys(filts, exps, nums, blocks, n - 1);
      var earlier := FilterTriples(filts, exps, nums, blocks, n - 1).value;
      var last := TranslateFilter(filts[n - 1]);
      assert FilterTriples(filts, exps, nums, blocks, n).value.Keys == earlier.Keys + {last};
      forall k ensures (exists i :: 0 <= i < n && TranslateFilter(filts[i]) == k) <==> k == last || k in earlier {
        if k != last && (exists i :: 0 <= i < n && TranslateFilter(filts[i]) == k) {
          var i :| 0 <= i < n && TranslateFilter(filts[i]) == k;
          assert i < n - 1;
        }
      }
    }
  }

  /** Under each name written, the triple of the last position carrying that
      name: a later filter with the same translated name overwrites. */
  lemma {:induction false} FilterTriplesLastWins(filts: seq<string>, exps: seq<Result<real, ParamError>>, nums: seq<Result<int, ParamError>>, blocks: seq<Result<int, ParamError>>, n: nat, i: nat)
    requires i < n <= |filts|
    requires FilterTriples(filts, exps, nums, blocks, n).Ok?
    requires forall j :: i < j < n ==> TranslateFilter(filts[j]) != TranslateFilter(filts[i])
    ensures TripleAt(exps, nums, blocks, i).Ok?
    ensures TranslateFilter(filts[i]) in FilterTriples(filts, exps, nums, blocks, n).value
    ensures FilterTriples(filts, exps, nums, blocks, n).value[TranslateFilter(filts[i])] == TripleAt(exps, nums, blocks, i).value
    decreases n
  {
    if i < n - 1 {
      FilterTriplesLastWins(filts, exps, nums, blocks, n - 1, i);
    }
  }

  /** The diffuser keys MuSCAT's loop writes. */
  lemma {:induction false} DiffuserFlagsContent(filts: seq<string>, n: nat)
    requires n <= |filts|
    ensures forall k :: k in DiffuserFlags(filts, n) <==> exists i :: 0 <= i < n && DiffuserKey(filts[i]) == k
    ensures forall k :: k in DiffuserFlags(filts, n) ==> DiffuserFlags(filts, n)[k] == PStr("out")
    decreases n
  {
    if n > 0 {
      DiffuserFlagsContent(filts, n - 1);
      forall k ensures k in DiffuserFlags(filts, n) <==> exists i :: 0 <= i < n && DiffuserKey(filts[i]) == k {
        if k == DiffuserKey(filts[n - 1]) {
          assert 0 <= n - 1 < n && DiffuserKey(filts[n - 1]) == k;
        } else if k in DiffuserFlags(filts, n - 1) {
          var i :| 0 <= i < n - 1 && DiffuserKey(filts[i]) == k;
          assert 0 <= i < n && DiffuserKey(filts[i]) == k;
        }
      }
    }
  }

  /** The row converts exactly when the instrument is known, the numbers the
      branch reads all parse, and `sequenceend` is not the zero date. The
      `repeating` flag plays no part. */
  lemma Snex2ParamsOkIff(row: LegacyRow, repeating: bool)
    ensures Snex2Params(row, repeating).Ok? <==>
      row.instrument in InstrumentTypes &&
      (if row.instrument == "floyds" then ParseInt(row.expnums).Some? && ParseFloat(row.exptimes).Some?
       else forall i :: 0 <= i < |Split(row.filters, ',')| ==>
         TripleAt(ExptimeColumn(row), ExpnumColumn(row), BlocknumColumn(row), i).Ok?) &&
      row.sequenceEnd != ZeroDate
  {
    if row.instrument in InstrumentTypes {
      var routed := RoutedParams(row, repeating);
      ExposuresOkIff(row, routed);
      if Exposures(row, routed).Ok? {
        assert WindowFields(row, Exposures(row, routed).value).Ok? <==> row.sequenceEnd != ZeroDate;
      }
    }
  }

  /** The instrument branch succeeds exactly when the numbers it reads all
      parse, whatever the dictionary held before. */
  lemma ExposuresOkIff(row: LegacyRow, p: Params)
    ensures Exposures(row, p).Ok? <==>
      (if row.instrument == "floyds" then ParseInt(row.expnums).Some? && ParseFloat(row.exptimes).Some?
       else forall i :: 0 <= i < |Split(row.filters, ',')| ==>
         TripleAt(ExptimeColumn(row), ExpnumColumn(row), BlocknumColumn(row), i).Ok?)
  {
    var filts := Split(row.filters, ',');
    FilterTriplesOkIff(filts, ExptimeColumn(row), ExpnumColumn(row), BlocknumColumn(row), |filts|);
  }

  /** An unknown instrument raises the `KeyError` of the instrument lookup
      before anything else is read; a zero `sequenceend` fails any known one. */
  lemma EarlyFailures(row: LegacyRow, repeating: bool)
    ensures row.instrument !in InstrumentTypes ==> Snex2Params(row, repeating) == Err(UnknownInstrument(row.instrument))
    ensures row.sequenceEnd == ZeroDate ==> Snex2Params(row, repeating).Err?
  {
  }

  /** The keys the FLOYDS branch writes. */
  const FloydsKeys: set<string> := {
    "exposure_count", "exposure_time", "acquisition_radius", "guider_mode", "guider_exposure_time", "filter"}

  /** The keys MuSCAT writes besides its filters and diffusers. */
  const MuscatKeys: set<string> := {"guider_mode", "exposure_mode"}

  const WindowKeys: set<string> := {"start", "end"}

  lemma KeySetsApart()
    ensures FixedKeys !! FloydsKeys && FixedKeys !! MuscatKeys && FixedKeys !! WindowKeys
    ensures forall k :: k in FixedKeys ==> k[0] != 'd'
  {
  }

  /** The FLOYDS branch touches only its own keys. */
  lemma FloydsFieldsKeep(row: LegacyRow, p: Params, k: string)
    requires FloydsFields(row, p).Ok? && k !in FloydsKeys
    ensures k in FloydsFields(row, p).value <==> k in p
    ensures k in p ==> FloydsFields(row, p).value[k] == p[k]
  {
  }

  /** The imaging branch touches only the translated filter names and, for
      MuSCAT, its two fields and the diffuser keys. */
  lemma ImagingFieldsKeep(row: LegacyRow, p: Params, k: string)
    requires ImagingFields(row, p).Ok? && k !in TranslatedFilters(row) && k !in MuscatKeys && (|k| == 0 || k[0] != 'd')
    ensures k in ImagingFields(row, p).value <==> k in p
    ensures k in p ==> ImagingFields(row, p).value[k] == p[k]
  {
    var filts := Split(row.filters, ',');
    var triples := FilterTriples(filts, ExptimeColumn(row), ExpnumColumn(row), BlocknumColumn(row), |filts|).value;
    forall i | 0 <= i < |filts|
      ensures TranslateFilter(filts[i]) != k && DiffuserKey(filts[i]) != k
    {
      assert filts[i] in filts;
      assert DiffuserKey(filts[i])[0] == 'd';
    }
    FilterTriplesKeys(filts, ExptimeColumn(row), ExpnumColumn(row), BlocknumColumn(row), |filts|);
    assert k !in triples;
    DiffuserFlagsContent(filts, |filts|);
    assert k !in DiffuserFlags(filts, |filts|);
  }

  /** `start` and `end` are the only keys the window writes. */
  lemma WindowFieldsKeep(row: LegacyRow, p: Params, k: string)
    requires WindowFields(row, p).Ok? && k !in WindowKeys
    ensures k in WindowFields(row, p).value <==> k in p
    ensures k in p ==> WindowFields(row, p).value[k] == p[k]
  {
  }

  /** A key the instrument branch and the window do not write keeps the value
      it got before the instrument branch. */
  lemma RoutedFieldKept(row: LegacyRow, repeating: bool, k: string)
    requires Snex2Params(row, repeating).Ok?
    requires k in FixedKeys && k !in FilterKeys(row)
    ensures row.instrument in InstrumentTypes && row.instrument in ObservationTypes
    ensures k in Snex2Params(row, repeating).value
    ensures Snex2Params(row, repeating).value[k] == RoutedParams(row, repeating)[k]
  {
    KeySetsApart();
    var routed := RoutedParams(row, repeating);
    assert k in routed;
    var exposed := Exposures(row, routed);
    assert exposed.Ok?;
    if row.instrument == "floyds" {
      FloydsFieldsKeep(row, routed, k);
    } else {
      ImagingFieldsKeep(row, routed, k);
    }
    assert k in exposed.value && exposed.value[k] == routed[k];
    assert Snex2Params(row, repeating) == WindowFields(row, exposed.value);
    WindowFieldsKeep(row, exposed.value, k);
  }

  /** The defaults of the source: facility LCO, the cadence strategy chosen by
      `repeating`, a lunar distance of 20 and mode NORMAL when the columns are
      absent, unless a filter of the same name overwrote them. */
  lemma Defaults(row: LegacyRow, repeating: bool)
    requires Snex2Params(row, repeating).Ok?
    ensures "facility" !in FilterKeys(row) ==>
      "facility" in Snex2Params(row, repeating).value &&
      Snex2Params(row, repeating).value["facility"] == PStr("LCO")
    ensures "cadence_strategy" !in FilterKeys(row) ==>
      "cadence_strategy" in Snex2Params(row, repeating).value &&
      Snex2Params(row, repeating).value["cadence_strategy"] == PStr(if repeating then ResumeStrategy else RetryStrategy)
    ensures "min_lunar_distance" !in FilterKeys(row) && row.moonDistLimit.None? ==>
      "min_lunar_distance" in Snex2Params(row, repeating).value &&
      Snex2Params(row, repeating).value["min_lunar_distance"] == PReal(20.0)
    ensures "observation_mode" !in FilterKeys(row) && row.priority.None? ==>
      "observation_mode" in Snex2Params(row, repeating).value &&
      Snex2Params(row, repeating).value["observation_mode"] == PStr("NORMAL")
  {
    RoutedValues(row, repeating);
    if "facility" !in FilterKeys(row) { RoutedFieldKept(row, repeating, "facility"); }
    if "cadence_strategy" !in FilterKeys(row) { RoutedFieldKept(row, repeating, "cadence_strategy"); }
    if "min_lunar_distance" !in FilterKeys(row) { RoutedFieldKept(row, repeating, "min_lunar_distance"); }
    if "observation_mode" !in FilterKeys(row) { RoutedFieldKept(row, repeating, "observation_mode"); }
  }

  lemma RoutedValues(row: LegacyRow, repeating: bool)
    requires row.instrument in InstrumentTypes && row.instrument in ObservationTypes
    ensures RoutedParams(row, repeating)["facility"] == PStr("LCO")
    ensures RoutedParams(row, repeating)["cadence_strategy"] == PStr(if repeating then ResumeStrategy else RetryStrategy)
    ensures row.moonDistLimit.None? ==> RoutedParams(row, repeating)["min_lunar_distance"] == PReal(20.0)
    ensures row.priority.None? ==> RoutedParams(row, repeating)["observation_mode"] == PStr("NORMAL")
  {
    BaseValues(row, repeating);
  }

  /** The defaults the base fields fall back to. */
  lemma BaseValues(row: LegacyRow, repeating: bool)
    ensures BaseParams(row, repeating)["facility"] == PStr("LCO")
    ensures BaseParams(row, repeating)["cadence_strategy"] == PStr(if repeating then ResumeStrategy else RetryStrategy)
    ensures row.moonDistLimit.None? ==> BaseParams(row, repeating)["min_lunar_distance"] == PReal(20.0)
    ensures row.priority.None? ==> BaseParams(row, repeating)["observation_mode"] == PStr("NORMAL")
  {
    assert Upper("normal") == "NORMAL";
  }

  /** `start` is always the sequence start; `end` is '' exactly for a NULL
      `sequenceend`, and its time otherwise. */
  lemma WindowLast(row: LegacyRow, repeating: bool)
    requires Snex2Params(row, repeating).Ok?
    ensures "start" in Snex2Params(row, repeating).value && "end" in Snex2Params(row, repeating).value
    ensures Snex2Params(row, repeating).value["start"] == PTime(row.sequenceStart)
    ensures row.sequenceEnd.EndsAt? <==> Snex2Params(row, repeating).value["end"] != PStr("")
    ensures row.sequenceEnd.EndsAt? ==> Snex2Params(row, repeating).value["end"] == PTime(row.sequenceEnd.at)
  {
    var routed := RoutedParams(row, repeating);
    var exposed := Exposures(row, routed);
    assert Snex2Params(row, repeating) == WindowFields(row, exposed.value);
    WindowFieldsValues(row, exposed.value);
  }

  lemma WindowFieldsValues(row: LegacyRow, p: Params)
    requires WindowFields(row, p).Ok?
    ensures "start" in WindowFields(row, p).value && "end" in WindowFields(row, p).value
    ensures WindowFields(row, p).value["start"] == PTime(row.sequenceStart)
    ensures row.sequenceEnd.EndsAt? <==> WindowFields(row, p).value["end"] != PStr("")
    ensures row.sequenceEnd.EndsAt? ==> WindowFields(row, p).value["end"] == PTime(row.sequenceEnd.at)
  {
  }

  /** A FLOYDS row: one exposure count and time read from the whole columns,
      the acquisition radius, the lower-cased guider mode and the guider
      exposure time copied over, the fixed slit, and no per-filter triples. */
  lemma FloydsShape(row: LegacyRow, repeating: bool)
    requires Snex2Params(row, repeating).Ok? && row.instrument == "floyds"
    ensures ParseInt(row.expnums).Some? && ParseFloat(row.exptimes).Some?
    ensures "filter" in Snex2Params(row, repeating).value &&
      Snex2Params(row, repeating).value["filter"] == PStr("slit_2.0as")
    ensures "exposure_count" in Snex2Params(row, repeating).value &&
      Snex2Params(row, repeating).value["exposure_count"] == PInt(ParseInt(row.expnums).value)
    ensures "exposure_time" in Snex2Params(row, repeating).value &&
      Snex2Params(row, repeating).value["exposure_time"] == PReal(ParseFloat(row.exptimes).value)
    ensures "acquisition_radius" in Snex2Params(row, repeating).value &&
      Snex2Params(row, repeating).value["acquisition_radius"] == PReal(row.acqRadius)
    ensures "guider_mode" in Snex2Params(row, repeating).value &&
      Snex2Params(row, repeating).value["guider_mode"] == PStr(Lower(row.guiderMode))
    ensures "guider_exposure_time" in Snex2Params(row, repeating).value &&
      Snex2Params(row, repeating).value["guider_exposure_time"] == PReal(row.guiderExpTime)
    ensures forall k :: k in Snex2Params(row, repeating).value ==> !Snex2Params(row, repeating).value[k].PTriple?
  {
    var routed := RoutedParams(row, repeating);
    var exposed := FloydsFields(row, routed);
    assert Snex2Params(row, repeating) == WindowFields(row, exposed.value);
    RoutedNoTriple(row, repeating);
    FloydsFieldsValues(row, routed);
    KeySetsApart();
    WindowFieldsKeep(row, exposed.value, "filter");
    WindowFieldsKeep(row, exposed.value, "exposure_count");
    WindowFieldsKeep(row, exposed.value, "exposure_time");
    WindowFieldsKeep(row, exposed.value, "acquisition_radius");
    WindowFieldsKeep(row, exposed.value, "guider_mode");
    WindowFieldsKeep(row, exposed.value, "guider_exposure_time");
    WindowFieldsNoTriple(row, exposed.value);
  }

  lemma FloydsFieldsValues(row: LegacyRow, p: Params)
    requires FloydsFields(row, p).Ok?
    requires forall k :: k in p ==> !p[k].PTriple?
    ensures ParseInt(row.expnums).Some? && ParseFloat(row.exptimes).Some?
    ensures "filter" in FloydsFields(row, p).value && FloydsFields(row, p).value["filter"] == PStr("slit_2.0as")
    ensures "exposure_count" in FloydsFields(row, p).value &&
      FloydsFields(row, p).value["exposure_count"] == PInt(ParseInt(row.expnums).value)
    ensures "exposure_time" in FloydsFields(row, p).value &&
      FloydsFields(row, p).value["exposure_time"] == PReal(ParseFloat(row.exptimes).value)
    ensures "acquisition_radius" in FloydsFields(row, p).value &&
      FloydsFields(row, p).value["acquisition_radius"] == PReal(row.acqRadius)
    ensures "guider_mode" in FloydsFields(row, p).value &&
      FloydsFields(row, p).value["guider_mode"] == PStr(Lower(row.guiderMode))
    ensures "guider_exposure_time" in FloydsFields(row, p).value &&
      FloydsFields(row, p).value["guider_exposure_time"] == PReal(row.guiderExpTime)
    ensures forall k :: k in FloydsFields(row, p).value ==> !FloydsFields(row, p).value[k].PTriple?
  {
    var count, time := IntOf(row.expnums).value, RealOf(row.exptimes).value;
    FloydsWrites(p, count, time, row.acqRadius, Lower(row.guiderMode), row.guiderExpTime);
    assert FloydsFields(row, p).value == p["exposure_count" := PInt(count)]["exposure_time" := PReal(time)][
      "acquisition_radius" := PReal(row.acqRadius)]["guider_mode" := PStr(Lower(row.guiderMode))][
      "guider_exposure_time" := PReal(row.guiderExpTime)]["filter" := PStr("slit_2.0as")];
  }

  /** The six FLOYDS assignments, over any dictionary: each key holds what was
      written to it, and no triple appears that was not there before. */
  lemma FloydsWrites(p: Params, count: int, time: real, radius: real, mode: string, guiderTime: real)
    ensures var q := p["exposure_count" := PInt(count)]["exposure_time" := PReal(time)][
        "acquisition_radius" := PReal(radius)]["guider_mode" := PStr(mode)][
        "guider_exposure_time" := PReal(guiderTime)]["filter" := PStr("slit_2.0as")];
      q.Keys == p.Keys + FloydsKeys
      && q["exposure_count"] == PInt(count) && q["exposure_time"] == PReal(time)
      && q["acquisition_radius"] == PReal(radius) && q["guider_mode"] == PStr(mode)
      && q["guider_exposure_time"] == PReal(guiderTime) && q["filter"] == PStr("slit_2.0as")
      && ((forall k :: k in p ==> !p[k].PTriple?) ==> forall k :: k in q ==> !q[k].PTriple?)
  {
  }

  lemma RoutedNoTriple(row: LegacyRow, repeating: bool)
    requires row.instrument in InstrumentTypes && row.instrument in ObservationTypes
    ensures forall k :: k in RoutedParams(row, repeating) ==> !RoutedParams(row, repeating)[k].PTriple?
  {
  }

  lemma WindowFieldsNoTriple(row: LegacyRow, p: Params)
    requires WindowFields(row, p).Ok?
    requires forall k :: k in p ==> !p[k].PTriple?
    ensures forall k :: k in WindowFields(row, p).value ==> !WindowFields(row, p).value[k].PTriple?
  {
  }

  /** On an imaging row, the translated name of position `i` holds
      `[float(exptimes[i]), int(expnums[i]), int(blocknums[i])]` when no later
      filter has the same name and no later assignment reuses the key. */
  lemma ImagingTriple(row: LegacyRow, repeating: bool, i: nat)
    requires Snex2Params(row, repeating).Ok? && row.instrument != "floyds"
    requires i < |Split(row.filters, ',')|
    requires forall j :: i < j < |Split(row.filters, ',')| ==>
      TranslateFilter(Split(row.filters, ',')[j]) != TranslateFilter(Split(row.filters, ',')[i])
    requires TranslateFilter(Split(row.filters, ',')[i]) !in WindowKeys
    requires row.instrument == "muscat" ==>
      TranslateFilter(Split(row.filters, ',')[i]) !in MuscatKeys &&
      TranslateFilter(Split(row.filters, ',')[i]) !in DiffuserFlags(Split(row.filters, ','), |Split(row.filters, ',')|)
    ensures i < |Split(row.exptimes, ',')| && i < |Split(row.expnums, ',')| && i < |Split(row.blocknums, ',')|
    ensures ParseFloat(Split(row.exptimes, ',')[i]).Some?
    ensures ParseInt(Split(row.expnums, ',')[i]).Some? && ParseInt(Split(row.blocknums, ',')[i]).Some?
    ensures TranslateFilter(Split(row.filters, ',')[i]) in Snex2Params(row, repeating).value
    ensures Snex2Params(row, repeating).value[TranslateFilter(Split(row.filters, ',')[i])] ==
      PTriple(ParseFloat(Split(row.exptimes, ',')[i]).value,
              ParseInt(Split(row.expnums, ',')[i]).value,
              ParseInt(Split(row.blocknums, ',')[i]).value)
  {
    var filts := Split(row.filters, ',');
    var k := TranslateFilter(filts[i]);
    var exps, nums, blocks := Split(row.exptimes, ','), Split(row.expnums, ','), Split(row.blocknums, ',');
    var routed := RoutedParams(row, repeating);
    var imaging := ImagingFields(row, routed);
    assert imaging.Ok?;
    FilterTriplesLastWins(filts, ExptimeColumn(row), ExpnumColumn(row), BlocknumColumn(row), |filts|, i);
    var triples := FilterTriples(filts, ExptimeColumn(row), ExpnumColumn(row), BlocknumColumn(row), |filts|).value;
    var triple := TripleAt(ExptimeColumn(row), ExpnumColumn(row), BlocknumColumn(row), i);
    RealsOfAt(exps, i);
    IntsOfAt(nums, i);
    IntsOfAt(blocks, i);
    assert triple.value == PTriple(ParseFloat(exps[i]).value, ParseInt(nums[i]).value, ParseInt(blocks[i]).value);
    assert k in imaging.value && imaging.value[k] == triple.value;
    assert Snex2Params(row, repeating) == WindowFields(row, imaging.value);
    WindowFieldsKeep(row, imaging.value, k);
  }

  /** A MuSCAT row: guiding on, asynchronous exposures, and every raw filter's
      diffuser out. */
  lemma MuscatShape(row: LegacyRow, repeating: bool)
    requires Snex2Params(row, repeating).Ok? && row.instrument == "muscat"
    ensures "guider_mode" in Snex2Params(row, repeating).value &&
      Snex2Params(row, repeating).value["guider_mode"] == PStr("ON")
    ensures "exposure_mode" in Snex2Params(row, repeating).value &&
      Snex2Params(row, repeating).value["exposure_mode"] == PStr("ASYNCHRONOUS")
    ensures forall f :: f in Split(row.filters, ',') ==>
      DiffuserKey(f) in Snex2Params(row, repeating).value &&
      Snex2Params(row, repeating).value[DiffuserKey(f)] == PStr("out")
  {
    var filts := Split(row.filters, ',');
    var routed := RoutedParams(row, repeating);
    var imaging := ImagingFields(row, routed);
    assert imaging.Ok?;
    MuscatFieldsValues(row, routed);
    assert Snex2Params(row, repeating) == WindowFields(row, imaging.value);
    KeySetsApart();
    WindowFieldsKeep(row, imaging.value, "guider_mode");
    WindowFieldsKeep(row, imaging.value, "exposure_mode");
    forall f | f in filts
      ensures DiffuserKey(f) in Snex2Params(row, repeating).value
      ensures Snex2Params(row, repeating).value[DiffuserKey(f)] == PStr("out")
    {
      assert DiffuserKey(f)[0] == 'd';
      WindowFieldsKeep(row, imaging.value, DiffuserKey(f));
    }
  }

  lemma MuscatFieldsValues(row: LegacyRow, p: Params)
    requires ImagingFields(row, p).Ok? && row.instrument == "muscat"
    ensures "guider_mode" in ImagingFields(row, p).value &&
      ImagingFields(row, p).value["guider_mode"] == PStr("ON")
    ensures "exposure_mode" in ImagingFields(row, p).value &&
      ImagingFields(row, p).value["exposure_mode"] == PStr("ASYNCHRONOUS")
    ensures forall f :: f in Split(row.filters, ',') ==>
      DiffuserKey(f) in ImagingFields(row, p).value && ImagingFields(row, p).value[DiffuserKey(f)] == PStr("out")
  {
    var filts := Split(row.filters, ',');
    DiffuserFlagsContent(filts, |filts|);
    var flags := DiffuserFlags(filts, |filts|);
    assert "guider_mode" !in flags && "exposure_mode" !in flags by {
      forall k | k in flags ensures k[0] == 'd' {
        var i :| 0 <= i < |filts| && DiffuserKey(filts[i]) == k;
      }
    }
    forall f | f in filts ensures DiffuserKey(f) in flags {
      var i :| 0 <= i < |filts| && filts[i] == f;
    }
  }

  /** `p` and `q` hold the same keys and differ at most under `c`. */
  predicate AgreeExcept(p: Params, q: Params, c: string) {
    p.Keys == q.Keys && forall k :: k in p && k != c ==> p[k] == q[k]
  }

  /** Two outcomes both succeed or both fail; failures carry the same error
      and successes agree except under `c`. */
  predicate OutcomesAgree(r: Result<Params, ParamError>, s: Result<Params, ParamError>, c: string) {
    r.Ok? == s.Ok?
    && (r.Err? ==> r.error == s.error)
    && (r.Ok? ==> AgreeExcept(r.value, s.value, c))
  }

  lemma RoutedAgree(row: LegacyRow)
    requires row.instrument in InstrumentTypes && row.instrument in ObservationTypes
    ensures AgreeExcept(RoutedParams(row, true), RoutedParams(row, false), "cadence_strategy")
  {
  }

  lemma UpdateAgree(p: Params, q: Params, c: string, k: string, v: ParamValue)
    requires AgreeExcept(p, q, c)
    ensures AgreeExcept(p[k := v], q[k := v], c)
  {
    assert p[k := v].Keys == p.Keys + {k};
    assert q[k := v].Keys == q.Keys + {k};
  }

  lemma UnionAgree(p: Params, q: Params, c: string, m: Params)
    requires AgreeExcept(p, q, c)
    ensures AgreeExcept(p + m, q + m, c)
  {
    assert (p + m).Keys == p.Keys + m.Keys;
    assert (q + m).Keys == q.Keys + m.Keys;
  }

  /** Each later step writes the same keys and values over two dictionaries
      whatever they held before, so it keeps them agreeing. */
  lemma ExposuresAgree(row: LegacyRow, p: Params, q: Params, c: string)
    requires AgreeExcept(p, q, c)
    ensures Exposures(row, p).Ok? == Exposures(row, q).Ok?
    ensures Exposures(row, p).Err? ==> Exposures(row, p).error == Exposures(row, q).error
    ensures Exposures(row, p).Ok? ==> AgreeExcept(Exposures(row, p).value, Exposures(row, q).value, c)
  {
    if row.instrument == "floyds" {
      var count, time := IntOf(row.expnums), RealOf(row.exptimes);
      if count.Ok? && time.Ok? {
        var p1, q1 := p["exposure_count" := PInt(count.value)], q["exposure_count" := PInt(count.value)];
        UpdateAgree(p, q, c, "exposure_count", PInt(count.value));
        var p2, q2 := p1["exposure_time" := PReal(time.value)], q1["exposure_time" := PReal(time.value)];
        UpdateAgree(p1, q1, c, "exposure_time", PReal(time.value));
        var p3, q3 := p2["acquisition_radius" := PReal(row.acqRadius)], q2["acquisition_radius" := PReal(row.acqRadius)];
        UpdateAgree(p2, q2, c, "acquisition_radius", PReal(row.acqRadius));
        var p4, q4 := p3["guider_mode" := PStr(Lower(row.guiderMode))], q3["guider_mode" := PStr(Lower(row.guiderMode))];
        UpdateAgree(p3, q3, c, "guider_mode", PStr(Lower(row.guiderMode)));
        var p5, q5 := p4["guider_exposure_time" := PReal(row.guiderExpTime)], q4["guider_exposure_time" := PReal(row.guiderExpTime)];
        UpdateAgree(p4, q4, c, "guider_exposure_time", PReal(row.guiderExpTime));
        UpdateAgree(p5, q5, c, "filter", PStr("slit_2.0as"));
      }
    } else {
      var filts := Split(row.filters, ',');
      var triples := FilterTriples(filts, ExptimeColumn(row), ExpnumColumn(row), BlocknumColumn(row), |filts|);
      if triples.Ok? {
        UnionAgree(p, q, c, triples.value);
        if row.instrument == "muscat" {
          var p1, q1 := (p + triples.value)["guider_mode" := PStr("ON")], (q + triples.value)["guider_mode" := PStr("ON")];
          UpdateAgree(p + triples.value, q + triples.value, c, "guider_mode", PStr("ON"));
          UpdateAgree(p1, q1, c, "exposure_mode", PStr("ASYNCHRONOUS"));
          UnionAgree(p1["exposure_mode" := PStr("ASYNCHRONOUS")], q1["exposure_mode" := PStr("ASYNCHRONOUS")], c, DiffuserFlags(filts, |filts|));
        }
      }
    }
  }

  lemma WindowAgree(row: LegacyRow, p: Params, q: Params, c: string)
    requires AgreeExcept(p, q, c)
    ensures WindowFields(row, p).Ok? == WindowFields(row, q).Ok?
    ensures WindowFields(row, p).Ok? ==> AgreeExcept(WindowFields(row, p).value, WindowFields(row, q).value, c)
  {
    var start := PTime(row.sequenceStart);
    UpdateAgree(p, q, c, "start", start);
    match row.sequenceEnd {
      case NullEnd => UpdateAgree(p["start" := start], q["start" := start], c, "end", PStr(""));
      case ZeroDate =>
      case EndsAt(t) => UpdateAgree(p["start" := start], q["start" := start], c, "end", PTime(t));
    }
  }

  /** `repeating` decides `cadence_strategy` and nothing else: both calls
      succeed or fail together, with the same error, and agree on every other
      key. */
  lemma RepeatingOnlyStrategy(row: LegacyRow)
    ensures OutcomesAgree(Snex2Params(row, true), Snex2Params(row, false), "cadence_strategy")
  {
    if row.instrument in InstrumentTypes && row.instrument in ObservationTypes {
      var p, q := RoutedParams(row, true), RoutedParams(row, false);
      RoutedAgree(row);
      ExposuresAgree(row, p, q, "cadence_strategy");
      WindowAfter(row, Exposures(row, p), Exposures(row, q), "cadence_strategy");
    }
  }

  /** The window step after two agreeing outcomes keeps them agreeing. */
  lemma WindowAfter(row: LegacyRow, e: Result<Params, ParamError>, f: Result<Params, ParamError>, c: string)
    requires e.Ok? == f.Ok? && (e.Err? ==> e.error == f.error) && (e.Ok? ==> AgreeExcept(e.value, f.value, c))
    ensures OutcomesAgree(
      if e.Ok? then WindowFields(row, e.value) else Err(e.error),
      if f.Ok? then WindowFields(row, f.value) else Err(f.error), c)
  {
    if e.Ok? {
      WindowAgree(row, e.value, f.value, c);
    }
  }

  /** A row with filters `g,r,i`, exposure times `30,30,45`, counts `1,1,2`
      and blocks `10,10,11`: its split columns and their conversions. */
  lemma ExampleSplits()
    ensures Split("g,r,i", ',') == ["g", "r", "i"]
    ensures Split("30,30,45", ',') == ["30", "30", "45"]
    ensures Split("1,1,2", ',') == ["1", "1", "2"]
    ensures Split("10,10,11", ',') == ["10", "10", "11"]
  {
    assert "g,r,i" == "g" + "," + "r" + "," + "i";
    SplitThree("g", "r", "i");
    assert "30,30,45" == "30" + "," + "30" + "," + "45";
    SplitThree("30", "30", "45");
    assert "1,1,2" == "1" + "," + "1" + "," + "2";
    SplitThree("1", "1", "2");
    assert "10,10,11" == "10" + "," + "10" + "," + "11";
    SplitThree("10", "10", "11");
  }

  /** Three comma-free parts joined by commas split back into them. */
  lemma SplitThree(a: string, b: string, c: string)
    requires ',' !in a && ',' !in b && ',' !in c
    ensures Split(a + "," + b + "," + c, ',') == [a, b, c]
  {
    SplitNoSep(c, ',');
    SplitCons(b, c, ',');
    assert b + "," + c == b + [','] + c;
    SplitCons(a, b + "," + c, ',');
    assert a + "," + b + "," + c == a + [','] + (b + "," + c);
  }

  /** Three digit runs convert to their decimal values. */
  lemma RealsOfDigits(x: string, y: string, z: string)
    requires |x| > 0 && forall i :: 0 <= i < |x| ==> IsDigit(x[i])
    requires |y| > 0 && forall i :: 0 <= i < |y| ==> IsDigit(y[i])
    requires |z| > 0 && forall i :: 0 <= i < |z| ==> IsDigit(z[i])
    ensures RealsOf([x, y, z]) == [Ok(DigitsValue(x) as real), Ok(DigitsValue(y) as real), Ok(DigitsValue(z) as real)]
  {
    ParseFloatOfDigits(x);
    ParseFloatOfDigits(y);
    ParseFloatOfDigits(z);
    var e := [x, y, z];
    RealsOfAt(e, 0); RealsOfAt(e, 1); RealsOfAt(e, 2);
    var r := RealsOf(e);
    assert r[0] == Ok(DigitsValue(x) as real) && r[1] == Ok(DigitsValue(y) as real) && r[2] == Ok(DigitsValue(z) as real);
  }

  lemma ExampleReals()
    ensures RealsOf(["30", "30", "45"]) == [Ok(30.0), Ok(30.0), Ok(45.0)]
  {
    assert DigitsValue("30") == 30 by { assert "30"[..1] == "3"; }
    assert DigitsValue("45") == 45 by { assert "45"[..1] == "4"; }
    RealsOfDigits("30", "30", "45");
  }

  lemma ExampleCounts()
    ensures IntsOf(["1", "1", "2"]) == [Ok(1), Ok(1), Ok(2)]
  {
    ParseIntOfDigits("1");
    ParseIntOfDigits("2");
    var n := ["1", "1", "2"];
    IntsOfAt(n, 0); IntsOfAt(n, 1); IntsOfAt(n, 2);
  }

  lemma ExampleBlocks()
    ensures IntsOf(["10", "10", "11"]) == [Ok(10), Ok(10), Ok(11)]
  {
    ParseIntOfDigits("10");
    ParseIntOfDigits("11");
    assert DigitsValue("10") == 10 by { assert "10"[..1] == "1"; }
    assert DigitsValue("11") == 11 by { assert "11"[..1] == "1"; }
    var b := ["10", "10", "11"];
    IntsOfAt(b, 0); IntsOfAt(b, 1); IntsOfAt(b, 2);
  }

  /** The filter loop on those columns writes the triples under `gp`, `rp`
      and `ip`; with filters `g,gp` both positions write `gp` and the second
      one wins; a missing third exposure time is the `IndexError`. */
  lemma ExampleTriples()
    ensures FilterTriples(["g", "r", "i"], [Ok(30.0), Ok(30.0), Ok(45.0)], [Ok(1), Ok(1), Ok(2)], [Ok(10), Ok(10), Ok(11)], 3)
      == Ok(map["gp" := PTriple(30.0, 1, 10), "rp" := PTriple(30.0, 1, 10), "ip" := PTriple(45.0, 2, 11)])
    ensures FilterTriples(["g", "gp"], [Ok(30.0), Ok(45.0)], [Ok(1), Ok(2)], [Ok(10), Ok(11)], 2)
      == Ok(map["gp" := PTriple(45.0, 2, 11)])
    ensures FilterTriples(["g", "r", "i"], [Ok(30.0), Ok(30.0)], [Ok(1), Ok(1), Ok(2)], [Ok(10), Ok(10), Ok(11)], 3)
      == Err(ShortList)
  {
    assert TranslateFilter("gp") == "gp";
    var once: Params := map["gp" := PTriple(30.0, 1, 10)];
    assert once["gp" := PTriple(45.0, 2, 11)] == map["gp" := PTriple(45.0, 2, 11)];
  }

  /** Later steps only add keys. */
  lemma LaterStepsKeepKeys(row: LegacyRow, p: Params)
    ensures Exposures(row, p).Ok? ==> p.Keys <= Exposures(row, p).value.Keys
    ensures WindowFields(row, p).Ok? ==> p.Keys <= WindowFields(row, p).value.Keys
  {
  }

  /** Every fixed key is present in a successful result (a filter of the same
      name may have replaced its value, never removed it). */
  lemma FixedKeysPresent(row: LegacyRow, repeating: bool)
    requires Snex2Params(row, repeating).Ok?
    ensures FixedKeys <= Snex2Params(row, repeating).value.Keys
  {
    var routed := RoutedParams(row, repeating);
    assert FixedKeys <= routed.Keys;
    LaterStepsKeepKeys(row, routed);
    LaterStepsKeepKeys(row, Exposures(row, routed).value);
  }
}
