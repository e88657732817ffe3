/** The photometry upload processor
    (custom_code/processors/photometry_processor.py): a plain-text table of
    `time filter magnitude error` rows becomes one record per row, the
    table's header comments fill the still-empty reduced-datum extras, and
    each record is handed on as its timestamp and the remaining fields. The
    file read (storage and the astropy table parser), the MJD-to-datetime
    conversion and the JSON serialisation are not part of this model: rows
    arrive parsed, a timestamp is the MJD it was converted from, and the
    serialised fields are the field map itself. */
module Photometry {
  import opened Wrappers
  import opened PyText

  /** One parsed table row. */
  datatype Row = Row(time: real, filter: string, magnitude: real, error: real)

  /** A field value of a photometry record. */
  datatype Cell = Timestamp(mjd: real) | Number(x: real) | Text(s: string)

  type Record = map<string, Cell>

  /** The exceptions the processor raises. */
  datatype PhotometryError =
    | UnsupportedType          // `InvalidFileFormatException('Unsupported file type')`
    | EmptyTable               // `InvalidFileFormatException('Empty table or invalid file type')`
    | NoDelimiter(comment: string) // `IndexError` of `comment.split(delim)[1]`

  // ---------------------------------------------------------------------------
  // Header comments

  /** A comment holding `=` is split on `=`, any other on `:`. */
  function Delimiter(comment: string): char {
    if '=' in comment then '=' else ':'
  }

  /** The keyword: the text before the first delimiter, lower-cased. */
  function Keyword(comment: string): string {
    Lower(Split(comment, Delimiter(comment))[0])
  }

  /** The value: the text between the first and second delimiter, stripped;
      `None` when the comment has no delimiter at all. */
  function CommentValue(comment: string): Option<string> {
    var parts := Split(comment, Delimiter(comment));
    if |parts| >= 2 then Some(Strip(parts[1])) else None
  }

  /** One comment applied to the extras: a keyword that is already a key
      with an empty value takes the comment's value; anything else is
      ignored. */
  function MergeStep(rdExtras: map<string, string>, comment: string): Result<map<string, string>, PhotometryError> {
    var keyword := Keyword(comment);
    if keyword in rdExtras && rdExtras[keyword] == "" then
      match CommentValue(comment)
      case None => Err(NoDelimiter(comment))
      case Some(v) => Ok(rdExtras[keyword := v])
    else Ok(rdExtras)
  }

  /** The comment loop: the comments applied in order. */
  function MergeSpec(comments: seq<string>, rdExtras: map<string, string>): Result<map<string, string>, PhotometryError>
    decreases |comments|
  {
    if comments == [] then Ok(rdExtras)
    else
      var next :- MergeStep(rdExtras, comments[0]);
      MergeSpec(comments[1..], next)
  }

  /** The comment loop of `_process_photometry_from_plaintext`, updating
      `rd_extras`. */
  method MergeComments(comments: seq<string>, rdExtras: map<string, string>) returns (r: Result<map<string, string>, PhotometryError>)
    ensures r == MergeSpec(comments, rdExtras)
  {
    var extras := rdExtras;
    for i := 0 to |comments|
      invariant MergeSpec(comments[i..], extras) == MergeSpec(comments, rdExtras)
    {
      var comment := comments[i];
      assert comments[i..][0] == comment && comments[i..][1..] == comments[i + 1..];
      var delim := if '=' in comment then '=' else ':';
      var keyword := Lower(Split(comment, delim)[0]);
      if keyword in extras && extras[keyword] == "" {
        var parts := Split(comment, delim);
        if |parts| < 2 {
          return Err(NoDelimiter(comment));
        }
        extras := extras[keyword := Strip(parts[1])];
      }
    }
    r := Ok(extras);
  }

  // ---------------------------------------------------------------------------
  // Records

  /** The fields a row contributes before the extras. */
  function BaseRecord(row: Row): Record {
    map["timestamp" := Timestamp(row.time), "magnitude" := Number(row.magnitude),
        "filter" := Text(row.filter), "error" := Number(row.error)]
  }

  /** `value.update(extras)`: the extras are added and win over the row's
      own fields. */
  function RecordOf(row: Row, extras: Record): Record {
    BaseRecord(row) + extras
  }

  /** The record loop of `_process_photometry_from_plaintext`. */
  method BuildRecords(rows: seq<Row>, extras: Record) returns (photometry: seq<Record>)
    ensures |photometry| == |rows|
    ensures forall i :: 0 <= i < |rows| ==> photometry[i] == RecordOf(rows[i], extras)
  {
    photometry := [];
    for i := 0 to |rows|
      invariant |photometry| == i
      invariant forall j :: 0 <= j < i ==> photometry[j] == RecordOf(rows[j], extras)
    {
      var value := BaseRecord(rows[i]);
      value := value + extras;
      photometry := photometry + [value];
    }
  }

  /** What `_process_photometry_from_plaintext` returns or raises. */
  function PlaintextSpec(rows: seq<Row>, comments: seq<string>, extras: Record, rdExtras: map<string, string>)
    : Result<(seq<Record>, map<string, string>), PhotometryError>
  {
    if |rows| < 1 then Err(EmptyTable)
    else
      var rd :- MergeSpec(comments, rdExtras);
      Ok((seq(|rows|, i requires 0 <= i < |rows| => RecordOf(rows[i], extras)), rd))
  }

  /** `datum.pop('timestamp')` and the fields left. */
  function PopTimestamp(record: Record): (Cell, Record)
    requires "timestamp" in record
  {
    (record["timestamp"], record - {"timestamp"})
  }

  /** What `process_data` returns or raises; `plaintext` is the processor's
      list of plain-text mimetypes and `mimetype` the guess for the file
      name (`None` when there is none). */
  function ProcessDataSpec(mimetype: Option<string>, plaintext: set<string>, rows: seq<Row>, comments: seq<string>,
                           extras: Record, rdExtras: map<string, string>)
    : Result<(seq<(Cell, Record)>, map<string, string>), PhotometryError>
  {
    if mimetype.None? || mimetype.value !in plaintext then Err(UnsupportedType)
    else
      var (photometry, rd) :- PlaintextSpec(rows, comments, extras, rdExtras);
      Ok((seq(|photometry|, i requires 0 <= i < |photometry| =>
             PopTimestamp(photometry[i])), rd))
  }

  /** `process_data(data_product, extras, rd_extras)`. */
  method ProcessData(mimetype: Option<string>, plaintext: set<string>, rows: seq<Row>, comments: seq<string>,
                     extras: Record, rdExtras: map<string, string>)
    returns (r: Result<(seq<(Cell, Record)>, map<string, string>), PhotometryError>)
    ensures r == ProcessDataSpec(mimetype, plaintext, rows, comments, extras, rdExtras)
  {
    if mimetype.None? || mimetype.value !in plaintext {
      return Err(UnsupportedType);
    }
    if |rows| < 1 {
      return Err(EmptyTable);
    }
    var rd := MergeComments(comments, rdExtras);
    if rd.Err? {
      return Err(rd.error);
    }
    var photometry := BuildRecords(rows, extras);
    var out: seq<(Cell, Record)> := [];
    for i := 0 to |photometry|
      invariant |out| == i
      invariant forall j :: 0 <= j < i ==> out[j] == PopTimestamp(photometry[j])
    {
      out := out + [PopTimestamp(photometry[i])];
    }
    ghost var records := seq(|rows|, i requires 0 <= i < |rows| => RecordOf(rows[i], extras));
    assert photometry == records;
    assert PlaintextSpec(rows, comments, extras, rdExtras) == Ok((photometry, rd.value));
    assert out == seq(|photometry|, i requires 0 <= i < |photometry| => PopTimestamp(photometry[i]));
    r := Ok((out, rd.value));
  }

  // ---------------------------------------------------------------------------
  // Properties

  /** A comment `key=value` (or `key:value` when neither part holds `=`)
      fills the keyword `key`, lower-cased, with `value` stripped. */
  lemma CommentRoundTrip(key: string, delim: char, value: string)
    requires delim == '=' || delim == ':'
    requires '=' !in key && '=' !in value && delim !in key && delim !in value
    ensures Delimiter(key + [delim] + value) == delim
    ensures Keyword(key + [delim] + value) == Lower(key)
    ensures CommentValue(key + [delim] + value) == Some(Strip(value))
  {
    var comment := key + [delim] + value;
    assert comment[|key|] == delim;
    if delim == ':' {
      assert forall k :: 0 <= k < |comment| ==> comment[k] != '=' by {
        forall k | 0 <= k < |comment| ensures comment[k] != '=' {
          if k < |key| { assert comment[k] == key[k]; }
          else if k > |key| { assert comment[k] == value[k - |key| - 1]; }
        }
      }
    }
    SplitCons(key, value, delim);
    SplitNoSep(value, delim);
  }

  /** A comment without `=` and `:` has no value. */
  lemma NoDelimiterNoValue(comment: string)
    requires '=' !in comment && ':' !in comment
    ensures CommentValue(comment).None?
  {
    SplitNoSep(comment, ':');
  }

  /** The comments never add a key, never overwrite a non-empty value, and
      every value they change comes from a comment with that keyword. */
  lemma {:induction false} MergeEffect(comments: seq<string>, rdExtras: map<string, string>)
    requires MergeSpec(comments, rdExtras).Ok?
    ensures var rd := MergeSpec(comments, rdExtras).value;
      rd.Keys == rdExtras.Keys
      && (forall k :: k in rdExtras && rdExtras[k] != "" ==> rd[k] == rdExtras[k])
      && (forall k :: k in rd && rd[k] != rdExtras[k] ==>
            rdExtras[k] == "" && exists c :: c in comments && Keyword(c) == k && CommentValue(c) == Some(rd[k]))
    decreases |comments|
  {
    if comments != [] {
      var next := MergeStep(rdExtras, comments[0]).value;
      MergeEffect(comments[1..], next);
      var rd := MergeSpec(comments, rdExtras).value;
      forall k | k in rd && rd[k] != rdExtras[k]
        ensures rdExtras[k] == "" && exists c :: c in comments && Keyword(c) == k && CommentValue(c) == Some(rd[k])
      {
        if rd[k] != next[k] {
          var c :| c in comments[1..] && Keyword(c) == k && CommentValue(c) == Some(rd[k]);
          assert c in comments;
        } else {
          assert comments[0] in comments;
        }
      }
    }
  }

  /** The comment loop raises only on a comment with neither `=` nor `:`
      whose lower-cased text is a key whose value is empty. */
  lemma {:induction false} MergeErrorCause(comments: seq<string>, rdExtras: map<string, string>)
    requires MergeSpec(comments, rdExtras).Err?
    ensures exists c :: c in comments && '=' !in c && ':' !in c && Lower(c) in rdExtras && rdExtras[Lower(c)] == ""
    decreases |comments|
  {
    var c := comments[0];
    var step := MergeStep(rdExtras, c);
    if step.Err? {
      var d := Delimiter(c);
      SplitHasSecond(c, d);
      SplitNoSep(c, d);
      assert c in comments;
    } else {
      MergeErrorCause(comments[1..], step.value);
      var c' :| c' in comments[1..] && '=' !in c' && ':' !in c' && Lower(c') in step.value && step.value[Lower(c')] == "";
      assert c' in comments;
      assert Lower(c') in rdExtras && rdExtras[Lower(c')] == "" by {
        var k := Keyword(c);
        if k in rdExtras && rdExtras[k] == "" {
          assert step.value == rdExtras[k := CommentValue(c).value];
        } else {
          assert step.value == rdExtras;
        }
      }
    }
  }

  /** A record holds the row's four fields and the extras, and each extra
      wins over the row's field of the same name. */
  lemma RecordFields(row: Row, extras: Record)
    ensures RecordOf(row, extras).Keys == {"timestamp", "magnitude", "filter", "error"} + extras.Keys
    ensures forall k :: k in extras ==> RecordOf(row, extras)[k] == extras[k]
    ensures forall k :: k in BaseRecord(row) && k !in extras ==> RecordOf(row, extras)[k] == BaseRecord(row)[k]
  {
  }

  /** `process_data` yields one pair per row; its timestamp is the row's
      unless the extras carry one, and the fields it hands on are the rest. */
  lemma ProcessDataPairs(mimetype: Option<string>, plaintext: set<string>, rows: seq<Row>, comments: seq<string>,
                         extras: Record, rdExtras: map<string, string>)
    requires ProcessDataSpec(mimetype, plaintext, rows, comments, extras, rdExtras).Ok?
    ensures var (pairs, rd) := ProcessDataSpec(mimetype, plaintext, rows, comments, extras, rdExtras).value;
      mimetype.Some? && mimetype.value in plaintext && |rows| >= 1
      && MergeSpec(comments, rdExtras) == Ok(rd)
      && |pairs| == |rows|
      && forall i :: 0 <= i < |rows| ==>
           pairs[i].0 == (if "timestamp" in extras then extras["timestamp"] else Timestamp(rows[i].time))
           && "timestamp" !in pairs[i].1
           && pairs[i].1.Keys == ({"magnitude", "filter", "error"} + extras.Keys) - {"timestamp"}
  {
  }
}
