/**
  `MainApplication.flatten_parameters`: turns the stimulation-parameter
  snapshots a neurostimulator returns, each a nested JSON payload with its
  timestamp, into flat records with one column per displayed parameter.

  The Python code reads the payload with `dict.get`, `[0]` and `len`, so a
  payload of an unexpected shape raises. Those operations are modelled on a
  JSON value with the exception they raise; the payload's expected shape is
  stated separately by `WellFormed`, and what a record holds by `Expected`.
 */
module Parameters {
  import opened Wrappers

  datatype Json =
    | JNull
    | JBool(b: bool)
    | JNum(n: real)
    | JStr(s: string)
    | JArr(items: seq<Json>)
    | JObj(fields: map<string, Json>)

  /** The Python exceptions the flattening can raise. */
  datatype PyError = AttributeError | KeyError | IndexError | TypeError

  /** Python truthiness. */
  predicate Truthy(v: Json) {
    match v
    case JNull => false
    case JBool(b) => b
    case JNum(n) => n != 0.0
    case JStr(s) => s != []
    case JArr(items) => items != []
    case JObj(fields) => fields != map[]
  }

  /** `v.get(key, default)`: only a dictionary has `get`. */
  function Get(v: Json, key: string, default: Json): Result<Json, PyError> {
    match v
    case JObj(fields) => Ok(if key in fields then fields[key] else default)
    case _ => Err(AttributeError)
  }

  /** `v[key]`. */
  function Index(v: Json, key: string): Result<Json, PyError> {
    match v
    case JObj(fields) => if key in fields then Ok(fields[key]) else Err(KeyError)
    case _ => Err(TypeError)
  }

  /** `v[0]`: a dictionary with string keys has no key `0`. */
  function First(v: Json): Result<Json, PyError> {
    match v
    case JArr(items) => if items == [] then Err(IndexError) else Ok(items[0])
    case JStr(s) => if s == [] then Err(IndexError) else Ok(JStr([s[0]]))
    case JObj(_) => Err(KeyError)
    case _ => Err(TypeError)
  }

  /** `len(v)`. */
  function Len(v: Json): Result<nat, PyError> {
    match v
    case JStr(s) => Ok(|s|)
    case JArr(items) => Ok(|items|)
    case JObj(fields) => Ok(|fields|)
    case _ => Err(TypeError)
  }

  /** The `[{}]` default of the `get` calls that are indexed right away. */
  const OneEmptyObject: Json := JArr([JObj(map[])])

  /** Field `key` of the first stimulation column; absent when the columns
      are missing or falsy. Raises when the columns are truthy but not a list
      whose first entry is a dictionary. */
  function ColumnField(parameters: Json, key: string): Result<Json, PyError> {
    var columns :- Get(parameters, "StimColumns", JNull);
    if Truthy(columns) then
      var columns' :- Get(parameters, "StimColumns", OneEmptyObject);
      var column :- First(columns');
      Get(column, key, JNull)
    else
      Ok(JNull)
  }

  /** The name of the first waveform; absent when the waveforms are missing,
      falsy or of length zero. The length is taken only of truthy waveforms. */
  function WaveformName(parameters: Json): Result<Json, PyError> {
    var waveforms :- Get(parameters, "Waveforms", JNull);
    var present :-
      if Truthy(waveforms) then
        var w :- Index(parameters, "Waveforms");
        var n :- Len(w);
        Ok(n > 0)
      else
        Ok(false);
    if present then
      var waveforms' :- Get(parameters, "Waveforms", OneEmptyObject);
      var waveform :- First(waveforms');
      Get(waveform, "Name", JNull)
    else
      Ok(JNull)
  }

  /** Whether the first stimulation column has rows: the columns must be
      truthy and of non-zero length, and the first column's rows (none when
      the key is missing) of non-zero length. Each test is evaluated only
      when the previous one passed. */
  function HasRows(parameters: Json): Result<bool, PyError> {
    var columns :- Get(parameters, "StimColumns", JNull);
    if !Truthy(columns) then
      Ok(false)
    else
      var c :- Index(parameters, "StimColumns");
      var n :- Len(c);
      if n == 0 then
        Ok(false)
      else
        var column :- First(c);
        var rows :- Get(column, "StimRows", JArr([]));
        var m :- Len(rows);
        Ok(m > 0)
  }

  /** Field `key` of the first row of the first stimulation column; absent
      when that column has no rows. */
  function RowField(parameters: Json, key: string): Result<Json, PyError> {
    var present :- HasRows(parameters);
    if present then
      var columns :- Get(parameters, "StimColumns", OneEmptyObject);
      var column :- First(columns);
      var rows :- Get(column, "StimRows", OneEmptyObject);
      var row :- First(rows);
      Get(row, key, JNull)
    else
      Ok(JNull)
  }

  /** A flat record: `None` is an absent value. */
  datatype FlatRecord = FlatRecord(
    timestamp: Json,
    state: Option<Json>,
    loopMode: Option<Json>,
    stimColumnDuration: Option<Json>,
    stimColumnRampingDuration: Option<Json>,
    waveformName: Option<Json>,
    frequency: Option<Json>,
    amplitude: Option<Json>)

  /** A Python value as an optional one: JSON `null` is `None`. */
  function AsOption(v: Json): Option<Json> {
    if v.JNull? then None else Some(v)
  }

  /** The record of one payload, evaluated as the dictionary display is:
      field by field, in order, the first exception ending it. */
  function FlattenOne(timestamp: Json, parameters: Json): Result<FlatRecord, PyError> {
    var state :- Get(parameters, "State", JNull);
    var loopMode :- Get(parameters, "LoopMode", JNull);
    var duration :- ColumnField(parameters, "Duration");
    var ramping :- ColumnField(parameters, "RampingDuration");
    var waveform :- WaveformName(parameters);
    var frequency :- RowField(parameters, "FrequencyPeriod");
    var amplitude :- RowField(parameters, "Amplitude");
    Ok(FlatRecord(timestamp, AsOption(state), AsOption(loopMode), AsOption(duration), AsOption(ramping),
                  AsOption(waveform), AsOption(frequency), AsOption(amplitude)))
  }

  // The payload's expected shape and the record it gives, without Python's
  // evaluation rules.

  /** The value stored under `key`, `null` when there is none. */
  function Lookup(v: Json, key: string): Json
    requires v.JObj?
  {
    if key in v.fields then v.fields[key] else JNull
  }

  /** A non-empty list whose first entry is an object. */
  predicate ObjectList(v: Json) {
    v.JArr? && v.items != [] && v.items[0].JObj?
  }

  /** A value `len` accepts. */
  predicate Sized(v: Json) {
    v.JStr? || v.JArr? || v.JObj?
  }

  /** The stimulation rows of a column, when it has any, are a list of
      objects; an explicit `null` has no length. */
  predicate RowsWellFormed(column: Json)
    requires column.JObj?
  {
    "StimRows" in column.fields ==>
      var rows := column.fields["StimRows"];
      Sized(rows) && (Truthy(rows) ==> ObjectList(rows))
  }

  /** The shape `flatten_parameters` reads without raising: an object whose
      stimulation columns and waveforms, when non-empty, are lists of
      objects, and whose first column's rows are well formed. */
  predicate WellFormed(parameters: Json) {
    && parameters.JObj?
    && (var columns := Lookup(parameters, "StimColumns");
        Truthy(columns) ==> ObjectList(columns) && RowsWellFormed(columns.items[0]))
    && (var waveforms := Lookup(parameters, "Waveforms");
        Truthy(waveforms) ==> ObjectList(waveforms))
  }

  /** The first stimulation column, if the payload has any. */
  function FirstColumn(parameters: Json): Option<Json>
    requires WellFormed(parameters)
  {
    var columns := Lookup(parameters, "StimColumns");
    if Truthy(columns) then Some(columns.items[0]) else None
  }

  /** The first row of the first column, if there is one. */
  function FirstRow(parameters: Json): Option<Json>
    requires WellFormed(parameters)
  {
    match FirstColumn(parameters)
    case None => None
    case Some(column) =>
      var rows := Lookup(column, "StimRows");
      if Truthy(rows) then Some(rows.items[0]) else None
  }

  /** `key` of an optional object. */
  function FieldOf(v: Option<Json>, key: string): Option<Json>
    requires v.Some? ==> v.value.JObj?
  {
    if v.Some? then AsOption(Lookup(v.value, key)) else None
  }

  /** The record of a well-formed payload: the state and loop mode, the
      durations of the first stimulation column, the name of the first
      waveform, and the frequency and amplitude of the first column's first
      row, each absent when its list is empty or missing. */
  function Expected(timestamp: Json, parameters: Json): FlatRecord
    requires WellFormed(parameters)
  {
    var waveforms := Lookup(parameters, "Waveforms");
    FlatRecord(
      timestamp,
      AsOption(Lookup(parameters, "State")),
      AsOption(Lookup(parameters, "LoopMode")),
      FieldOf(FirstColumn(parameters), "Duration"),
      FieldOf(FirstColumn(parameters), "RampingDuration"),
      FieldOf(if Truthy(waveforms) then Some(waveforms.items[0]) else None, "Name"),
      FieldOf(FirstRow(parameters), "FrequencyPeriod"),
      FieldOf(FirstRow(parameters), "Amplitude"))
  }

  /** The column fields raise exactly when the stimulation columns are
      non-empty but not a list of objects; otherwise they are read from the
      first column, or absent. */
  lemma ColumnFieldSpec(parameters: Json, key: string)
    requires parameters.JObj?
    ensures var columns := Lookup(parameters, "StimColumns");
      ColumnField(parameters, key).Ok? <==> (Truthy(columns) ==> ObjectList(columns))
    ensures WellFormed(parameters) ==>
      ColumnField(parameters, key).Ok? && AsOption(ColumnField(parameters, key).value) == FieldOf(FirstColumn(parameters), key)
  {
  }

  /** The waveform name raises exactly when the waveforms are non-empty but
      not a list of objects; otherwise it is the first waveform's name, or
      absent. */
  lemma WaveformNameSpec(parameters: Json)
    requires parameters.JObj?
    ensures var waveforms := Lookup(parameters, "Waveforms");
      WaveformName(parameters).Ok? <==> (Truthy(waveforms) ==> ObjectList(waveforms))
    ensures var waveforms := Lookup(parameters, "Waveforms");
      WaveformName(parameters).Ok? ==>
        AsOption(WaveformName(parameters).value)
        == FieldOf(if Truthy(waveforms) then Some(waveforms.items[0]) else None, "Name")
  {
  }

  /** Once the columns are a list of objects, the row fields raise exactly
      when the first column's rows are malformed; otherwise they are read from
      the first row, or absent. */
  lemma RowFieldSpec(parameters: Json, key: string)
    requires parameters.JObj?
    requires var columns := Lookup(parameters, "StimColumns"); Truthy(columns) ==> ObjectList(columns)
    ensures var columns := Lookup(parameters, "StimColumns");
      RowField(parameters, key).Ok? <==> (Truthy(columns) ==> RowsWellFormed(columns.items[0]))
    ensures WellFormed(parameters) ==>
      RowField(parameters, key).Ok? && AsOption(RowField(parameters, key).value) == FieldOf(FirstRow(parameters), key)
  {
  }

  /** Flattening a payload raises exactly when it is not well formed, and
      otherwise gives its expected record. */
  lemma FlattenOneSpec(timestamp: Json, parameters: Json)
    ensures FlattenOne(timestamp, parameters).Ok? <==> WellFormed(parameters)
    ensures FlattenOne(timestamp, parameters).Ok? ==> FlattenOne(timestamp, parameters).value == Expected(timestamp, parameters)
  {
    if parameters.JObj? {
      ColumnFieldSpec(parameters, "Duration");
      ColumnFieldSpec(parameters, "RampingDuration");
      WaveformNameSpec(parameters);
      var columns := Lookup(parameters, "StimColumns");
      if Truthy(columns) ==> ObjectList(columns) {
        RowFieldSpec(parameters, "FrequencyPeriod");
        RowFieldSpec(parameters, "Amplitude");
      }
    }
  }

  /** `time.localtime(timestamp)` accepts a number, or `None` for the current
      time; the formatted date itself is not modelled. */
  function LocalTime(timestamp: Json): Result<Json, PyError> {
    if timestamp.JNull? || timestamp.JBool? || timestamp.JNum? then Ok(timestamp) else Err(TypeError)
  }

  /** What the loop reads of every item, whether or not it has parameters:
      its timestamp, then its parameters (each a required key), then the
      local time of the timestamp. */
  function ReadItem(item: Json): Result<(Json, Json), PyError> {
    var timestamp :- Index(item, "timestamp");
    var parameters :- Index(item, "parameters");
    var time :- LocalTime(timestamp);
    Ok((time, parameters))
  }

  /** An item the loop reads without raising: an object with a timestamp
      and a parameter payload that is `null` or well formed. */
  predicate ItemWellFormed(item: Json) {
    && item.JObj? && "timestamp" in item.fields && "parameters" in item.fields
    && (var timestamp := item.fields["timestamp"]; timestamp.JNull? || timestamp.JBool? || timestamp.JNum?)
    && (item.fields["parameters"] != JNull ==> WellFormed(item.fields["parameters"]))
  }

  /** An item whose parameters are not `None`. */
  predicate HasParameters(item: Json) {
    item.JObj? && "parameters" in item.fields && item.fields["parameters"] != JNull
  }

  /** The records of well-formed items: one per item with parameters, in
      item order. */
  function ExpectedAll(items: seq<Json>): seq<FlatRecord>
    requires forall i | 0 <= i < |items| :: ItemWellFormed(items[i])
  {
    if items == [] then []
    else
      var item := items[|items| - 1];
      assert ItemWellFormed(item);
      ExpectedAll(items[..|items| - 1])
      + (if HasParameters(item) then [Expected(item.fields["timestamp"], item.fields["parameters"])] else [])
  }

  /** The number of items whose parameters are not `None`. */
  function CountWithParameters(items: seq<Json>): nat {
    if items == [] then 0
    else CountWithParameters(items[..|items| - 1]) + (if HasParameters(items[|items| - 1]) then 1 else 0)
  }

  /** There is one record per item with parameters. */
  lemma {:induction false} ExpectedAllCount(items: seq<Json>)
    requires forall i | 0 <= i < |items| :: ItemWellFormed(items[i])
    ensures |ExpectedAll(items)| == CountWithParameters(items)
    decreases |items|
  {
    if items != [] {
      ExpectedAllCount(items[..|items| - 1]);
    }
  }

  /** Records keep the order of items: flattening a concatenation flattens
      each part. */
  lemma {:induction false} ExpectedAllAppend(a: seq<Json>, b: seq<Json>)
    requires forall i | 0 <= i < |a| :: ItemWellFormed(a[i])
    requires forall i | 0 <= i < |b| :: ItemWellFormed(b[i])
    ensures forall i | 0 <= i < |a + b| :: ItemWellFormed((a + b)[i])
    ensures ExpectedAll(a + b) == ExpectedAll(a) + ExpectedAll(b)
    decreases |b|
  {
    if b == [] {
      assert a + b == a;
    } else {
      var c := b[..|b| - 1];
      assert (a + b)[..|a + b| - 1] == a + c;
      ExpectedAllAppend(a, c);
    }
  }

  /** `flatten_parameters`: the records of the items with parameters, or the
      exception of the first item that cannot be read. */
  method FlattenParameters(items: seq<Json>) returns (result: Result<seq<FlatRecord>, PyError>)
    ensures result.Ok? <==> forall i | 0 <= i < |items| :: ItemWellFormed(items[i])
    ensures result.Ok? ==> result.value == ExpectedAll(items)
  {
    var flattened: seq<FlatRecord> := [];
    var i := 0;
    while i < |items|
      invariant 0 <= i <= |items|
      invariant forall j | 0 <= j < i :: ItemWellFormed(items[j])
      invariant flattened == ExpectedAll(items[..i])
    {
      var item := items[i];
      assert items[..i + 1][..i] == items[..i];
      var read := ReadItem(item);
      if read.Err? {
        return Err(read.error);
      }
      var (timestamp, parameters) := read.value;
      if parameters != JNull {
        FlattenOneSpec(timestamp, parameters);
        var record := FlattenOne(timestamp, parameters);
        if record.Err? {
          return Err(record.error);
        }
        flattened := flattened + [record.value];
      }
      i := i + 1;
    }
    assert items[..i] == items;
    return Ok(flattened);
  }
}
