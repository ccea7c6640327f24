/**
 * The SQLite storage layer: analyses with their scorecard, data-quality,
 * chart and telemetry rows, and the processing-job records.
 *
 * Each table is a map from the analysis (or job) id to its rows; a row is a
 * record with one field per column.  A statement that raises inside the
 * connection's `with` block rolls the whole transaction back, so every
 * operation either applies completely or leaves the tables as they were.
 */
module Storage {
  import opened Values
  import opened Seqs

  // ---------------------------------------------------------------------
  // Binding values to SQL parameters

  /** What sqlite3 keeps for a bound Python value: booleans are integers. */
  function Sql(v: Value): (r: Value)
    ensures !r.Bool?
    ensures v.Bool? ==> r == Num(if v.b then 1.0 else 0.0)
    ensures !v.Bool? ==> r == v
  {
    if v.Bool? then Num(if v.b then 1.0 else 0.0) else v
  }

  /** Lists and dicts cannot be bound (nor hashed). */
  predicate Bindable(v: Value) {
    !v.Arr? && !v.Obj?
  }

  /** `1 if v else 0`. */
  function Flag(v: Value): Value {
    Num(if PyTruthy(v) then 1.0 else 0.0)
  }

  // ---------------------------------------------------------------------
  // Rows of the tables

  datatype AnalysisRecord = AnalysisRecord(
    filename: Value, originalFilename: Value, processedAt: Value, totalDevices: Value,
    totalRecords: Value, totalDistanceKm: Value, averageQualityScore: Value)

  /** A row of a per-analysis table: its values in the order of the
      INSERT statement's columns (after `analysis_id`). */
  type Columns = seq<Value>

  datatype ChartRecord = ChartRecord(eventType: string, count: Value)

  datatype JobRecord = JobRecord(
    filename: string, status: string, progress: Value, analysisId: Option<string>,
    errorMessage: Option<string>, createdAt: string, completedAt: Option<string>)

  datatype Tables = Tables(
    analyses: map<string, AnalysisRecord>,
    scorecard: map<string, seq<Columns>>,
    dataQuality: map<string, Columns>,
    chartData: map<string, seq<ChartRecord>>,
    telemetry: map<string, seq<Columns>>,
    jobs: map<string, JobRecord>)

  const NoTables := Tables(map[], map[], map[], map[], map[], map[])

  /** Every analysis owns exactly one entry in each dependent table (the
      foreign keys, with cascading delete), and every stored row has one
      value per column. */
  ghost predicate Consistent(t: Tables) {
    SameKeys(t.scorecard, t.analyses)
    && SameKeys(t.dataQuality, t.analyses)
    && SameKeys(t.chartData, t.analyses)
    && SameKeys(t.telemetry, t.analyses)
    && RowsShaped(t)
  }

  ghost predicate RowsShaped(t: Tables) {
    (forall id :: id in t.scorecard ==> Width(t.scorecard[id], 28))
    && (forall id :: id in t.dataQuality ==> |t.dataQuality[id]| == 8)
    && (forall id :: id in t.telemetry ==> Width(t.telemetry[id], 26))
  }

  ghost predicate SameKeys<V, W>(m: map<string, V>, n: map<string, W>) {
    forall k :: k in m <==> k in n
  }

  predicate Width(rows: seq<Columns>, w: nat) {
    forall r :: r in rows ==> |r| == w
  }

  // ---------------------------------------------------------------------
  // Writing rows (save_analysis) and reading them back (get_analysis)
  //
  // Each table's layout is given column by column: the column's name, the
  // key `save_analysis` reads from the entry for it, and the (key, column)
  // pair `get_analysis` uses to rebuild the entry.

  /** Column `j` of the scorecard table, in INSERT order. */
  function ScorecardColumn(j: nat): string
    requires j < 28
  {
    [
      "imei", "puntaje_calidad", "total_reportes", "delay_avg", "odo_quality_score",
      "canbus_completeness", "gps_integrity", "ignition_balance", "ignition_on", "ignition_off",
      "harsh_events", "sos_count", "harsh_breaking", "harsh_acceleration", "harsh_turn",
      "rpm_anormal_count", "lat_lng_correct_variation", "driver_id", "frozen_sensors",
      "distancia_recorrida_km", "km_inicial", "km_final", "primer_reporte", "ultimo_reporte",
      "velocidad_promedio_kph", "velocidad_maxima_kph", "rpm_promedio",
      "nivel_combustible_promedio"][j]
  }

  /** The key `save_analysis` reads from a scorecard entry for column `j`. */
  function ScorecardKey(j: nat): string
    requires j < 28
  {
    [
      "imei", "Puntaje_Calidad", "Total_Reportes", "Delay_Avg", "Odo_Quality_Score",
      "Canbus_Completeness", "GPS_Integrity", "Ignition_Balance", "Ignition_On", "Ignition_Off",
      "Harsh_Events", "SOS_Count", "Harsh_Breaking", "Harsh_Acceleration", "Harsh_Turn",
      "RPM_Anormal_Count", "Lat_Lng_Correct_Variation", "Driver_ID", "Frozen_Sensors",
      "Distancia_Recorrida_(KM)", "KM_Inicial", "KM_Final", "Primer_Reporte", "Ultimo_Reporte",
      "Velocidad_Promedio_(KPH)", "Velocidad_Maxima_(KPH)", "RPM_Promedio",
      "Nivel_Combustible_Promedio_%"][j]
  }

  /** The key `get_analysis` gives a scorecard column, and the column. */
  function ScorecardRead(j: nat): (string, string)
    requires j < 28
  {
    [
      ("imei", "imei"), ("Puntaje_Calidad", "puntaje_calidad"),
      ("Total_Reportes", "total_reportes"), ("Delay_Avg", "delay_avg"),
      ("Odo_Quality_Score", "odo_quality_score"), ("Canbus_Completeness", "canbus_completeness"),
      ("GPS_Integrity", "gps_integrity"), ("Ignition_Balance", "ignition_balance"),
      ("Ignition_On", "ignition_on"), ("Ignition_Off", "ignition_off"),
      ("Harsh_Events", "harsh_events"), ("SOS_Count", "sos_count"),
      ("Harsh_Breaking", "harsh_breaking"), ("Harsh_Acceleration", "harsh_acceleration"),
      ("Harsh_Turn", "harsh_turn"), ("RPM_Anormal_Count", "rpm_anormal_count"),
      ("Lat_Lng_Correct_Variation", "lat_lng_correct_variation"), ("Driver_ID", "driver_id"),
      ("Frozen_Sensors", "frozen_sensors"), ("Distancia_Recorrida_(KM)", "distancia_recorrida_km"),
      ("KM_Inicial", "km_inicial"), ("KM_Final", "km_final"), ("Primer_Reporte", "primer_reporte"),
      ("Ultimo_Reporte", "ultimo_reporte"), ("Velocidad_Promedio_(KPH)", "velocidad_promedio_kph"),
      ("Velocidad_Maxima_(KPH)", "velocidad_maxima_kph"), ("RPM_Promedio", "rpm_promedio"),
      ("Nivel_Combustible_Promedio_%", "nivel_combustible_promedio")][j]
  }

  /** The reader gives every scorecard column the key it was written from. */
  lemma ScorecardAligned()
    ensures forall j :: 0 <= j < 28 ==> ScorecardRead(j) == (ScorecardKey(j), ScorecardColumn(j))
  {
  }

  /** The scorecard INSERT's parameters: `row.get(key)` for each column. */
  function WriteScorecard(row: Row): (vals: Columns)
    ensures |vals| == 28
  {
    seq(28, j requires 0 <= j < 28 => Sql(PyGet(row, ScorecardKey(j))))
  }

  function ReadScorecard(vals: Columns): Row
    requires |vals| == 28
  {
    seq(28, j requires 0 <= j < 28 => (ScorecardRead(j).0, vals[j]))
  }

  /** A scorecard entry read back has every key it was written from, in
      column order, each holding the value stored for it. */
  lemma ScorecardRoundTrip(row: Row)
    ensures |ReadScorecard(WriteScorecard(row))| == 28
    ensures forall j :: 0 <= j < 28 ==>
      ReadScorecard(WriteScorecard(row))[j] == (ScorecardKey(j), Sql(PyGet(row, ScorecardKey(j))))
  {
    ScorecardAligned();
  }

  /** The data-quality columns; the keys read and written are the column
      names themselves. */
  function DataQualityColumn(j: nat): string
    requires j < 8
  {
    [
      "gps_validity", "ignition", "delay", "rpm", "speed", "temp", "dist", "fuel"][j]
  }

  /** The (key, column) pairs `get_analysis` rebuilds the data-quality dict from. */
  function DataQualityRead(j: nat): (string, string)
    requires j < 8
  {
    [
      ("gps_validity", "gps_validity"), ("ignition", "ignition"), ("delay", "delay"),
      ("rpm", "rpm"), ("speed", "speed"), ("temp", "temp"), ("dist", "dist"), ("fuel", "fuel")][j]
  }

  lemma DataQualityAligned()
    ensures forall j :: 0 <= j < 8 ==> DataQualityRead(j) == (DataQualityColumn(j), DataQualityColumn(j))
  {
  }

  function WriteDataQuality(dq: Row): (vals: Columns)
    ensures |vals| == 8
  {
    seq(8, j requires 0 <= j < 8 => Sql(PyGet(dq, DataQualityColumn(j))))
  }

  function ReadDataQuality(vals: Columns): Row
    requires |vals| == 8
  {
    seq(8, j requires 0 <= j < 8 => (DataQualityRead(j).0, vals[j]))
  }

  lemma DataQualityRoundTrip(dq: Row)
    ensures |ReadDataQuality(WriteDataQuality(dq))| == 8
    ensures forall j :: 0 <= j < 8 ==>
      ReadDataQuality(WriteDataQuality(dq))[j] == (DataQualityColumn(j), Sql(PyGet(dq, DataQualityColumn(j))))
  {
    DataQualityAligned();
  }

  /** Column `j` of the telemetry table, in INSERT order. */
  function TelemetryColumn(j: nat): string
    requires j < 26
  {
    [
      "imei", "time", "receive_timestamp", "lat", "lng", "altitude", "speed", "heading",
      "last_fix_time", "is_moving", "battery_level_percentage", "report_mode", "quality",
      "mileage", "ignition_on", "external_power_vcc", "digital_input", "driver_id", "engine_rpm",
      "vehicle_speed", "engine_coolant_temperature", "total_distance", "total_fuel_used",
      "fuel_level_input", "event_type", "delay_seconds"][j]
  }

  /** The key `save_analysis` reads from a telemetry row for column `j`. */
  function TelemetryKey(j: nat): string
    requires j < 26
  {
    [
      "imei", "time", "receiveTimestamp", "lat", "lng", "altitude", "speed", "heading",
      "lastFixTime", "isMoving", "batteryLevelPercentage", "reportMode", "quality", "mileage",
      "ignitionOn", "externalPowerVcc", "digitalInput", "driverId", "engineRPM", "vehicleSpeed",
      "engineCoolantTemperature", "totalDistance", "totalFuelUsed", "fuelLevelInput", "event_type",
      "delay_seconds"][j]
  }

  /** The key `get_analysis` gives a telemetry column, and the column. */
  function TelemetryRead(j: nat): (string, string)
    requires j < 26
  {
    [
      ("imei", "imei"), ("time", "time"), ("receiveTimestamp", "receive_timestamp"),
      ("lat", "lat"), ("lng", "lng"), ("altitude", "altitude"), ("speed", "speed"),
      ("heading", "heading"), ("lastFixTime", "last_fix_time"), ("isMoving", "is_moving"),
      ("batteryLevelPercentage", "battery_level_percentage"), ("reportMode", "report_mode"),
      ("quality", "quality"), ("mileage", "mileage"), ("ignitionOn", "ignition_on"),
      ("externalPowerVcc", "external_power_vcc"), ("digitalInput", "digital_input"),
      ("driverId", "driver_id"), ("engineRPM", "engine_rpm"), ("vehicleSpeed", "vehicle_speed"),
      ("engineCoolantTemperature", "engine_coolant_temperature"),
      ("totalDistance", "total_distance"), ("totalFuelUsed", "total_fuel_used"),
      ("fuelLevelInput", "fuel_level_input"), ("event_type", "event_type"),
      ("delay_seconds", "delay_seconds")][j]
  }

  lemma TelemetryAligned()
    ensures forall j :: 0 <= j < 26 ==> TelemetryRead(j) == (TelemetryKey(j), TelemetryColumn(j))
  {
  }

  /** The two flag columns, stored as `1 if value else 0` and read back
      through `bool(...)`. */
  predicate IsFlagColumn(column: string) {
    column == "is_moving" || column == "ignition_on"
  }

  function WriteTelemetry(row: Row): (vals: Columns)
    ensures |vals| == 26
  {
    seq(26, j requires 0 <= j < 26 =>
      if IsFlagColumn(TelemetryColumn(j)) then Flag(PyGet(row, TelemetryKey(j)))
      else Sql(PyGet(row, TelemetryKey(j))))
  }

  function ReadTelemetry(vals: Columns): (r: Row)
    requires |vals| == 26
  {
    seq(26, j requires 0 <= j < 26 =>
      (TelemetryRead(j).0, if IsFlagColumn(TelemetryRead(j).1) then Bool(PyTruthy(vals[j])) else vals[j]))
  }

  /** A telemetry row read back has every written key in column order; the
      two flags come back as booleans of the original's truthiness, every
      other field as the value stored for it. */
  lemma TelemetryRoundTrip(row: Row)
    ensures |ReadTelemetry(WriteTelemetry(row))| == 26
    ensures forall j :: 0 <= j < 26 ==>
      ReadTelemetry(WriteTelemetry(row))[j] == (TelemetryKey(j),
        if IsFlagColumn(TelemetryColumn(j)) then Bool(PyTruthy(PyGet(row, TelemetryKey(j))))
        else Sql(PyGet(row, TelemetryKey(j))))
  {
    TelemetryAligned();
  }

  /** The flags sit under `isMoving` and `ignitionOn`. */
  lemma FlagColumns()
    ensures forall j :: 0 <= j < 26 && IsFlagColumn(TelemetryColumn(j)) ==>
      TelemetryKey(j) == "isMoving" || TelemetryKey(j) == "ignitionOn"
    ensures TelemetryKey(9) == "isMoving" && IsFlagColumn(TelemetryColumn(9))
    ensures TelemetryKey(14) == "ignitionOn" && IsFlagColumn(TelemetryColumn(14))
  {
  }

  // ---------------------------------------------------------------------
  // The stratified telemetry sample

  const SampleCap: nat := 2000

  function Device(row: Row): Value {
    PyGet(row, "imei")
  }

  /** The distinct truthy IMEIs of the rows. */
  function TruthyImeis(raw: seq<Row>): set<Value> {
    set r | r in raw && PyTruthy(Device(r)) :: Device(r)
  }

  /** How many rows carry device `k`. */
  function CountKey(rows: seq<Row>, k: Value): nat {
    if rows == [] then 0
    else CountKey(rows[..|rows| - 1], k) + (if Device(rows[|rows| - 1]) == k then 1 else 0)
  }

  /** Each row is kept when fewer than `limit` earlier rows share its device. */
  function Stratify(raw: seq<Row>, limit: nat): seq<Row> {
    if raw == [] then []
    else
      var front := raw[..|raw| - 1];
      var r := raw[|raw| - 1];
      Stratify(front, limit) + (if CountKey(front, Device(r)) < limit then [r] else [])
  }

  /** Python's `s[:n]`. */
  function Take<T>(s: seq<T>, n: nat): (r: seq<T>)
    ensures |r| <= n && |r| <= |s|
    ensures r == s[..|r|]
    ensures |s| <= n ==> r == s
  {
    if |s| <= n then s else s[..n]
  }

  /** `max(1, 2000 // len(imeis))` (only used when there are IMEIs). */
  function DeviceLimit(raw: seq<Row>): nat {
    var n := |TruthyImeis(raw)|;
    if n == 0 then SampleCap
    else if SampleCap / n < 1 then 1 else SampleCap / n
  }

  /** The telemetry rows `save_analysis` stores. */
  function Sample(raw: seq<Row>): seq<Row> {
    if |TruthyImeis(raw)| > 0 then Take(Stratify(raw, DeviceLimit(raw)), SampleCap)
    else Take(raw, SampleCap)
  }

  lemma CountKeyAppend(rows: seq<Row>, r: Row, k: Value)
    ensures CountKey(rows + [r], k) == CountKey(rows, k) + (if Device(r) == k then 1 else 0)
  {
    assert (rows + [r])[..|rows|] == rows;
  }

  /** Before truncation each device keeps its first `limit` rows, or all of
      them when it has fewer. */
  lemma {:induction false} StratifyCount(raw: seq<Row>, limit: nat, k: Value)
    ensures CountKey(Stratify(raw, limit), k) == if CountKey(raw, k) < limit then CountKey(raw, k) else limit
  {
    if raw != [] {
      var front := raw[..|raw| - 1];
      var r := raw[|raw| - 1];
      StratifyCount(front, limit, k);
      assert CountKey(raw, k) == CountKey(front, k) + (if Device(r) == k then 1 else 0);
      if CountKey(front, Device(r)) < limit {
        assert Stratify(raw, limit) == Stratify(front, limit) + [r];
        CountKeyAppend(Stratify(front, limit), r, k);
      } else {
        assert Stratify(raw, limit) == Stratify(front, limit);
      }
    }
  }

  lemma {:induction false} StratifySubseq(raw: seq<Row>, limit: nat)
    ensures Subseq(Stratify(raw, limit), raw)
  {
    if raw != [] {
      var front := raw[..|raw| - 1];
      var r := raw[|raw| - 1];
      StratifySubseq(front, limit);
      assert raw == front + [r];
      if CountKey(front, Device(r)) < limit {
        SubseqExtend(Stratify(front, limit), front, r);
      } else {
        assert Stratify(raw, limit) == Stratify(front, limit);
        SubseqSkipLast(Stratify(front, limit), front, r);
      }
    }
  }

  lemma {:induction false} CountKeyPrefix(rows: seq<Row>, n: nat, k: Value)
    requires n <= |rows|
    ensures CountKey(rows[..n], k) <= CountKey(rows, k)
    decreases |rows|
  {
    if n < |rows| {
      var front := rows[..|rows| - 1];
      assert rows[..n] == front[..n];
      CountKeyPrefix(front, n, k);
    } else {
      assert rows[..n] == rows;
    }
  }

  /** The sample is an order-preserving subsequence of at most 2000 rows;
      with no IMEI it is the first 2000 rows, otherwise no device has more
      than `max(1, 2000 // devices)` rows in it. */
  lemma SampleProperties(raw: seq<Row>)
    ensures Subseq(Sample(raw), raw)
    ensures |Sample(raw)| <= SampleCap
    ensures |TruthyImeis(raw)| == 0 ==> Sample(raw) == Take(raw, SampleCap)
    ensures |TruthyImeis(raw)| > 0 ==> forall k :: CountKey(Sample(raw), k) <= DeviceLimit(raw)
  {
    if |TruthyImeis(raw)| > 0 {
      var s := Stratify(raw, DeviceLimit(raw));
      StratifySubseq(raw, DeviceLimit(raw));
      SubseqPrefix(s, raw, |Sample(raw)|);
      forall k
        ensures CountKey(Sample(raw), k) <= DeviceLimit(raw)
      {
        StratifyCount(raw, DeviceLimit(raw), k);
        CountKeyPrefix(s, |Sample(raw)|, k);
      }
    } else {
      SubseqPrefix(raw, raw, |Sample(raw)|) by {
        SubseqRefl(raw);
      }
    }
  }

  /** The loop of `save_analysis`: count rows per device in a dict and keep
      the ones within the per-device limit, then truncate. */
  method StratifiedSample(raw: seq<Row>) returns (sample: seq<Row>)
    ensures sample == Sample(raw)
  {
    var imeis := TruthyImeis(raw);
    if |imeis| > 0 {
      var limit := if SampleCap / |imeis| < 1 then 1 else SampleCap / |imeis|;
      var deviceCounts: map<Value, nat> := map[];
      var stratified: seq<Row> := [];
      for i := 0 to |raw|
        invariant stratified == Stratify(raw[..i], limit)
        invariant forall k :: (if k in deviceCounts then deviceCounts[k] else 0) == CountKey(raw[..i], k)
      {
        var device := Device(raw[i]);
        var seen := if device in deviceCounts then deviceCounts[device] else 0;
        deviceCounts := deviceCounts[device := seen + 1];
        assert raw[..i + 1][..i] == raw[..i];
        if seen + 1 <= limit {
          stratified := stratified + [raw[i]];
        }
      }
      assert raw[..|raw|] == raw;
      sample := Take(stratified, SampleCap);
    } else {
      sample := Take(raw, SampleCap);
    }
  }

  // ---------------------------------------------------------------------
  // The event summary

  /** The `chart_data` rows: one per event type with a non-empty name and a
      truthy count, in the summary's order. */
  function StoredEvents(events: Row): seq<ChartRecord> {
    if events == [] then []
    else
      var front := events[..|events| - 1];
      var e := events[|events| - 1];
      StoredEvents(front) + (if e.0 != "" && PyTruthy(e.1) then [ChartRecord(e.0, Sql(e.1))] else [])
  }

  /** Python's `d[k] = v`: a present key keeps its place and takes the new
      value, a new key goes last. */
  function DictSet(d: Row, k: string, v: Value): (r: Row)
    ensures Get(r, k) == Some(v)
    ensures forall k' :: k' != k ==> Get(r, k') == Get(d, k')
  {
    if d == [] then [(k, v)]
    else if d[0].0 == k then [(k, v)] + d[1..]
    else
      var rest := DictSet(d[1..], k, v);
      assert ([d[0]] + rest)[1..] == rest;
      [d[0]] + rest
  }

  /** `{r['event_type']: r['count'] for r in chart_rows if r['event_type']}`. */
  function ReadEvents(rows: seq<ChartRecord>): Row {
    if rows == [] then []
    else
      var d := ReadEvents(rows[..|rows| - 1]);
      var r := rows[|rows| - 1];
      if r.eventType != "" then DictSet(d, r.eventType, r.count) else d
  }

  lemma {:induction false} GetAppend(row: Row, p: (string, Value), k: string)
    ensures Get(row + [p], k) == if Get(row, k).Some? then Get(row, k) else if p.0 == k then Some(p.1) else None
  {
    if row != [] {
      assert (row + [p])[1..] == row[1..] + [p];
      GetAppend(row[1..], p, k);
    }
  }

  /** Reading the stored events back gives exactly the event types with a
      non-empty name and a truthy count, each with its stored count. */
  lemma {:induction false} EventsRoundTrip(events: Row)
    requires Distinct(Keys(events))
    ensures forall k ::
      Get(ReadEvents(StoredEvents(events)), k) ==
      if k != "" && Get(events, k).Some? && PyTruthy(Get(events, k).value) then Some(Sql(Get(events, k).value)) else None
  {
    if events != [] {
      var front := events[..|events| - 1];
      var e := events[|events| - 1];
      assert events == front + [e];
      assert Keys(front) == Keys(events)[..|front|];
      EventsRoundTrip(front);
      var stored := StoredEvents(front);
      forall k
        ensures Get(ReadEvents(StoredEvents(events)), k) ==
          if k != "" && Get(events, k).Some? && PyTruthy(Get(events, k).value) then Some(Sql(Get(events, k).value)) else None
      {
        GetAppend(front, e, k);
        if e.0 == k {
          assert Get(front, k).None? by {
            assert forall i :: 0 <= i < |front| ==> front[i].0 == Keys(events)[i];
            assert Keys(events)[|front|] == k;
          }
        }
        if e.0 != "" && PyTruthy(e.1) {
          var rec := ChartRecord(e.0, Sql(e.1));
          assert StoredEvents(events) == stored + [rec];
          assert (stored + [rec])[..|stored|] == stored;
        } else {
          assert StoredEvents(events) == stored;
        }
      }
    }
  }

  // ---------------------------------------------------------------------
  // save_analysis

  /** The parts of the result dict `save_analysis` stores. */
  datatype Document = Document(summary: Row, scorecard: seq<Row>, dataQuality: Row, eventsSummary: Row, raw: seq<Row>)

  const SummaryKeys: seq<string> := [
    "filename", "processed_at", "total_devices", "total_records", "total_distance_km", "average_quality_score"]

  /** `d.get(key, {})`, used as a dict: None when the value is not one. */
  function DictField(d: Row, key: string): Option<Row> {
    var v := Get(d, key);
    if v.None? then Some([]) else if v.value.Obj? then Some(v.value.fields) else None
  }

  /** `d.get(key, [])`, iterated as dicts: None when it is not a list of
      dicts. */
  function ListField(d: Row, key: string): Option<seq<Row>> {
    var v := Get(d, key);
    if v.None? then Some([]) else if v.value.Arr? then ObjectRows(v.value.items) else None
  }

  /** The result dict read as `save_analysis` reads it; None where the
      reading raises (`result['summary']` missing or not a dict, a part of
      the wrong type). */
  function ReadDocument(result: Row): (doc: Option<Document>)
    ensures doc.Some? ==> Get(result, "summary") == Some(Obj(doc.value.summary))
  {
    var summary := Get(result, "summary");
    var scorecard := ListField(result, "scorecard");
    var quality := DictField(result, "data_quality");
    var chart := DictField(result, "chart_data");
    var events := if chart.Some? then DictField(chart.value, "events_summary") else None;
    var raw := ListField(result, "raw_data_sample");
    if summary.Some? && summary.value.Obj? && scorecard.Some? && quality.Some? && events.Some? && raw.Some? then
      Some(Document(summary.value.fields, scorecard.value, quality.value, events.value, raw.value))
    else None
  }

  /** No statement of `save_analysis` raises: every summary key is present,
      every bound value can be bound, and every IMEI that is hashed can be
      hashed. The row checks are stated by recursion over the rows. */
  predicate Storable(doc: Document) {
    SummaryBindable(doc.summary, SummaryKeys)
    && ScorecardBindable(doc.scorecard)
    && (forall j :: 0 <= j < 8 ==> Bindable(PyGet(doc.dataQuality, DataQualityColumn(j))))
    && EventsBindable(doc.eventsSummary)
    && DevicesBindable(doc.raw, HasDevice(doc.raw))
    && TelemetryBindable(Sample(doc.raw))
  }

  /** `summary[k]` exists and can be bound for each of `keys`. */
  predicate SummaryBindable(summary: Row, keys: seq<string>) {
    keys == [] || (Get(summary, keys[0]).Some? && Bindable(Get(summary, keys[0]).value) && SummaryBindable(summary, keys[1..]))
  }

  predicate ScorecardBindable(rows: seq<Row>) {
    rows == []
    || ((forall j :: 0 <= j < 28 ==> Bindable(PyGet(rows[0], ScorecardKey(j)))) && ScorecardBindable(rows[1..]))
  }

  /** Only the events with a non-empty type and a truthy count are bound. */
  predicate EventsBindable(events: Row) {
    events == []
    || ((events[0].0 != "" && PyTruthy(events[0].1) ==> Bindable(events[0].1)) && EventsBindable(events[1..]))
  }

  /** Some row has a truthy IMEI. */
  predicate HasDevice(raw: seq<Row>) {
    raw != [] && (PyTruthy(Device(raw[0])) || HasDevice(raw[1..]))
  }

  /** `if imeis:` over the rows. */
  lemma {:induction false} HasDeviceImeis(raw: seq<Row>)
    ensures HasDevice(raw) <==> |TruthyImeis(raw)| > 0
  {
    if raw != [] {
      HasDeviceImeis(raw[1..]);
      if PyTruthy(Device(raw[0])) {
        assert Device(raw[0]) in TruthyImeis(raw);
      } else {
        assert TruthyImeis(raw) == TruthyImeis(raw[1..]);
      }
    }
  }

  /** The truthy IMEIs are hashed into the set of devices; when there are
      any, every row's IMEI is then looked up in the per-device counts. */
  predicate DevicesBindable(raw: seq<Row>, all: bool) {
    raw == []
    || ((all || PyTruthy(Device(raw[0])) ==> Bindable(Device(raw[0]))) && DevicesBindable(raw[1..], all))
  }

  /** The non-flag columns of the stored telemetry rows are bound. */
  predicate TelemetryBindable(rows: seq<Row>) {
    rows == []
    || ((forall j :: 0 <= j < 26 && !IsFlagColumn(TelemetryColumn(j)) ==> Bindable(PyGet(rows[0], TelemetryKey(j))))
        && TelemetryBindable(rows[1..]))
  }

  function SummaryRecord(summary: Row): AnalysisRecord {
    AnalysisRecord(
      Sql(PyGet(summary, "filename")), Sql(PyGet(summary, "filename")), Sql(PyGet(summary, "processed_at")),
      Sql(PyGet(summary, "total_devices")), Sql(PyGet(summary, "total_records")),
      Sql(PyGet(summary, "total_distance_km")), Sql(PyGet(summary, "average_quality_score")))
  }

  /** The rows one analysis owns, table by table. */
  datatype Entry = Entry(
    record: AnalysisRecord, scorecard: seq<Columns>, dataQuality: Columns,
    chartData: seq<ChartRecord>, telemetry: seq<Columns>)

  predicate Shaped(e: Entry) {
    Width(e.scorecard, 28) && |e.dataQuality| == 8 && Width(e.telemetry, 26)
  }

  /** The rows the INSERT statements write for a document, given the
      telemetry rows chosen for it. */
  function Written(doc: Document, sample: seq<Row>): (e: Entry)
    ensures Shaped(e)
  {
    Entry(SummaryRecord(doc.summary), WriteScorecards(doc.scorecard), WriteDataQuality(doc.dataQuality),
      StoredEvents(doc.eventsSummary), WriteTelemetryRows(sample))
  }

  function Insert(t: Tables, id: string, e: Entry): Tables {
    t.(analyses := t.analyses[id := e.record],
       scorecard := t.scorecard[id := e.scorecard],
       dataQuality := t.dataQuality[id := e.dataQuality],
       chartData := t.chartData[id := e.chartData],
       telemetry := t.telemetry[id := e.telemetry])
  }

  /** Inserting well-shaped rows for one analysis keeps the tables consistent. */
  lemma InsertConsistent(t: Tables, id: string, e: Entry)
    requires Consistent(t) && Shaped(e)
    ensures Consistent(Insert(t, id, e))
  {
    InsertShaped(t, id, e);
  }

  lemma InsertShaped(t: Tables, id: string, e: Entry)
    requires RowsShaped(t) && Shaped(e)
    ensures RowsShaped(Insert(t, id, e))
  {
    var t' := Insert(t, id, e);
    forall k | k in t'.scorecard
      ensures Width(t'.scorecard[k], 28)
    {
      if k != id {
        assert t'.scorecard[k] == t.scorecard[k];
      }
    }
    forall k | k in t'.telemetry
      ensures Width(t'.telemetry[k], 26)
    {
      if k != id {
        assert t'.telemetry[k] == t.telemetry[k];
      }
    }
  }

  /** The tables with the document stored under `id`. */
  function Store(t: Tables, id: string, doc: Document, sample: seq<Row>): Tables {
    Insert(t, id, Written(doc, sample))
  }

  /** `save_analysis(id, result)`: None when it raises (the id is already
      an analysis, or a statement fails), which rolls everything back. */
  function Save(t: Tables, id: string, result: Row): (r: Option<Tables>)
    ensures Consistent(t) && r.Some? ==> Consistent(r.value)
  {
    var doc := ReadDocument(result);
    if id in t.analyses || doc.None? || !Storable(doc.value) then None
    else
      StoreConsistent(t, id, doc.value, Sample(doc.value.raw));
      Some(Store(t, id, doc.value, Sample(doc.value.raw)))
  }

  lemma StoreConsistent(t: Tables, id: string, doc: Document, sample: seq<Row>)
    ensures Consistent(t) ==> Consistent(Store(t, id, doc, sample))
  {
    if Consistent(t) {
      InsertConsistent(t, id, Written(doc, sample));
    }
  }

  lemma SaveConsistent(t: Tables, id: string, result: Row)
    requires Save(t, id, result).Some?
    ensures Save(t, id, result).value.analyses.Keys == t.analyses.Keys + {id}
    ensures Save(t, id, result).value.jobs == t.jobs
  {
    var doc := ReadDocument(result).value;
    assert Save(t, id, result).value == Store(t, id, doc, Sample(doc.raw));
    StoreKeys(t, id, doc, Sample(doc.raw));
  }

  lemma StoreKeys(t: Tables, id: string, doc: Document, sample: seq<Row>)
    ensures Store(t, id, doc, sample).analyses.Keys == t.analyses.Keys + {id}
    ensures Store(t, id, doc, sample).jobs == t.jobs
  {
    assert Store(t, id, doc, sample).analyses == t.analyses[id := SummaryRecord(doc.summary)];
  }

  /** Saving needs a new id: a second save under the same id fails and
      changes nothing. */
  lemma SaveTwiceFails(t: Tables, id: string, result: Row, other: Row)
    requires Save(t, id, result).Some?
    ensures Save(Save(t, id, result).value, id, other).None?
  {
  }

  // ---------------------------------------------------------------------
  // get_analysis

  /** The dict `get_analysis` returns, part by part. */
  datatype Fetched = Fetched(
    summary: Row, scorecard: seq<Row>, dataQuality: Row,
    scoreDistribution: seq<Value>, eventsSummary: Row, rawDataSample: seq<Row>)

  function FetchedValue(f: Fetched): Value {
    Obj([("summary", Obj(f.summary)),
         ("scorecard", RowsValue(f.scorecard)),
         ("data_quality", Obj(f.dataQuality)),
         ("chart_data", Obj(ChartData(f))),
         ("raw_data_sample", RowsValue(f.rawDataSample))])
  }

  function ReadSummary(a: AnalysisRecord): Row {
    [("filename", a.filename), ("processed_at", a.processedAt), ("total_devices", a.totalDevices),
     ("total_records", a.totalRecords), ("total_distance_km", a.totalDistanceKm),
     ("average_quality_score", a.averageQualityScore)]
  }

  /** `get_analysis(id)`. `window` stands for the rows the sampling query
      returns; it picks among the stored telemetry rows. */
  function GetAnalysis(t: Tables, id: string, window: seq<Columns>): (r: Option<Fetched>)
    requires Consistent(t)
    requires id in t.telemetry ==> forall w :: w in window ==> w in t.telemetry[id]
    ensures r.None? <==> id !in t.analyses
  {
    if id !in t.analyses then None
    else
      assert Width(window, 26);
      var scorecard := ReadScorecards(t.scorecard[id]);
      var quality := if id in t.dataQuality then ReadDataQuality(t.dataQuality[id]) else [];
      Some(Fetched(ReadSummary(t.analyses[id]), scorecard, quality, Scores(scorecard),
        ReadEvents(t.chartData[id]), ReadTelemetryRows(window)))
  }

  function ReadScorecards(rows: seq<Columns>): (r: seq<Row>)
    requires Width(rows, 28)
    ensures |r| == |rows|
    ensures forall i :: 0 <= i < |rows| ==> r[i] == ReadScorecard(rows[i])
  {
    if rows == [] then [] else [ReadScorecard(rows[0])] + ReadScorecards(rows[1..])
  }

  function ReadTelemetryRows(rows: seq<Columns>): (r: seq<Row>)
    requires Width(rows, 26)
    ensures |r| == |rows|
    ensures forall i :: 0 <= i < |rows| ==> r[i] == ReadTelemetry(rows[i])
  {
    if rows == [] then [] else [ReadTelemetry(rows[0])] + ReadTelemetryRows(rows[1..])
  }

  /** `s['Puntaje_Calidad']`. */
  function ScoreOf(row: Row): Value {
    OrNull(Get(row, "Puntaje_Calidad"))
  }

  /** `[s['Puntaje_Calidad'] for s in scorecard]`. */
  function Scores(scorecard: seq<Row>): (r: seq<Value>)
    ensures |r| == |scorecard|
  {
    seq(|scorecard|, i requires 0 <= i < |scorecard| => ScoreOf(scorecard[i]))
  }

  /** The `Puntaje_Calidad` of a scorecard row read back is its second
      column. */
  lemma ScoreColumn(vals: Columns)
    requires |vals| == 28
    ensures ScoreOf(ReadScorecard(vals)) == vals[1]
  {
    var r := ReadScorecard(vals);
    assert r[0].0 == ScorecardRead(0).0 == "imei";
    assert r[1] == (ScorecardRead(1).0, vals[1]) && ScorecardRead(1).0 == "Puntaje_Calidad";
    assert r[1..][0] == r[1];
  }

  /** What a saved analysis reads back as: the summary's six fields, each
      scorecard entry with every key it was written from, the data-quality
      fields, the scores in scorecard order and exactly the stored events. */
  lemma SaveThenGet(t: Tables, id: string, result: Row, window: seq<Columns>)
    requires Consistent(t) && Save(t, id, result).Some?
    requires forall w :: w in window ==> w in Save(t, id, result).value.telemetry[id]
    ensures var doc := ReadDocument(result).value;
      var f := GetAnalysis(Save(t, id, result).value, id, window).value;
      && |f.summary| == |SummaryKeys|
      && (forall j :: 0 <= j < |SummaryKeys| ==> f.summary[j] == (SummaryKeys[j], Sql(PyGet(doc.summary, SummaryKeys[j]))))
      && |f.scorecard| == |doc.scorecard|
      && (forall i :: 0 <= i < |doc.scorecard| ==> f.scorecard[i] == ReadScorecard(WriteScorecard(doc.scorecard[i])))
      && f.dataQuality == ReadDataQuality(WriteDataQuality(doc.dataQuality))
      && |f.scoreDistribution| == |doc.scorecard|
      && (forall i :: 0 <= i < |doc.scorecard| ==> f.scoreDistribution[i] == Sql(PyGet(doc.scorecard[i], "Puntaje_Calidad")))
      && f.eventsSummary == ReadEvents(StoredEvents(doc.eventsSummary))
  {
    var doc := ReadDocument(result).value;
    assert Save(t, id, result) == Some(Store(t, id, doc, Sample(doc.raw)));
    StoredFields(t, id, doc, Sample(doc.raw), window);
    ReadBackParts(GetAnalysis(Save(t, id, result).value, id, window).value, doc);
  }

  /** The parts read back, stated against the document that was saved. */
  lemma ReadBackParts(f: Fetched, doc: Document)
    requires f.summary == ReadSummary(SummaryRecord(doc.summary))
    requires f.scorecard == ReadScorecards(WriteScorecards(doc.scorecard))
    requires f.dataQuality == ReadDataQuality(WriteDataQuality(doc.dataQuality))
    requires f.scoreDistribution == Scores(ReadScorecards(WriteScorecards(doc.scorecard)))
    requires f.eventsSummary == ReadEvents(StoredEvents(doc.eventsSummary))
    ensures |f.summary| == |SummaryKeys|
    ensures forall j :: 0 <= j < |SummaryKeys| ==> f.summary[j] == (SummaryKeys[j], Sql(PyGet(doc.summary, SummaryKeys[j])))
    ensures |f.scorecard| == |doc.scorecard|
    ensures forall i :: 0 <= i < |doc.scorecard| ==> f.scorecard[i] == ReadScorecard(WriteScorecard(doc.scorecard[i]))
    ensures |f.scoreDistribution| == |doc.scorecard|
    ensures forall i :: 0 <= i < |doc.scorecard| ==> f.scoreDistribution[i] == Sql(PyGet(doc.scorecard[i], "Puntaje_Calidad"))
  {
    SummaryRoundTrip(doc.summary);
    ScorecardsReadBack(doc.scorecard);
  }

  /** Scorecard entries read back, and their scores, one per entry saved. */
  lemma ScorecardsReadBack(rows: seq<Row>)
    ensures |ReadScorecards(WriteScorecards(rows))| == |rows|
    ensures forall i :: 0 <= i < |rows| ==> ReadScorecards(WriteScorecards(rows))[i] == ReadScorecard(WriteScorecard(rows[i]))
    ensures |Scores(ReadScorecards(WriteScorecards(rows)))| == |rows|
    ensures forall i :: 0 <= i < |rows| ==>
      Scores(ReadScorecards(WriteScorecards(rows)))[i] == Sql(PyGet(rows[i], "Puntaje_Calidad"))
  {
    forall i | 0 <= i < |rows|
      ensures Scores(ReadScorecards(WriteScorecards(rows)))[i] == Sql(PyGet(rows[i], "Puntaje_Calidad"))
    {
      ScoreAt(rows, i);
    }
  }

  /** Each part `get_analysis` returns is read from what was stored. */
  lemma StoredFields(t: Tables, id: string, doc: Document, sample: seq<Row>, window: seq<Columns>)
    requires Consistent(t)
    requires forall w :: w in window ==> w in Store(t, id, doc, sample).telemetry[id]
    ensures Consistent(Store(t, id, doc, sample))
    ensures var f := GetAnalysis(Store(t, id, doc, sample), id, window).value;
      && f.summary == ReadSummary(SummaryRecord(doc.summary))
      && f.scorecard == ReadScorecards(WriteScorecards(doc.scorecard))
      && f.dataQuality == ReadDataQuality(WriteDataQuality(doc.dataQuality))
      && f.scoreDistribution == Scores(ReadScorecards(WriteScorecards(doc.scorecard)))
      && f.eventsSummary == ReadEvents(StoredEvents(doc.eventsSummary))
  {
    StoreConsistent(t, id, doc, sample);
  }

  function WriteScorecards(rows: seq<Row>): (r: seq<Columns>)
    ensures |r| == |rows| && Width(r, 28)
    ensures forall i :: 0 <= i < |rows| ==> r[i] == WriteScorecard(rows[i])
  {
    if rows == [] then [] else [WriteScorecard(rows[0])] + WriteScorecards(rows[1..])
  }

  function WriteTelemetryRows(rows: seq<Row>): (r: seq<Columns>)
    ensures |r| == |rows| && Width(r, 26)
    ensures forall i :: 0 <= i < |rows| ==> r[i] == WriteTelemetry(rows[i])
  {
    if rows == [] then [] else [WriteTelemetry(rows[0])] + WriteTelemetryRows(rows[1..])
  }

  lemma ScoreAt(rows: seq<Row>, i: nat)
    requires i < |rows|
    ensures Scores(ReadScorecards(WriteScorecards(rows)))[i] == Sql(PyGet(rows[i], "Puntaje_Calidad"))
  {
    var written := WriteScorecards(rows);
    var read := ReadScorecards(written);
    assert Scores(read)[i] == ScoreOf(read[i]);
    assert read[i] == ReadScorecard(written[i]);
    assert written[i] == WriteScorecard(rows[i]);
    ScoreWritten(rows[i]);
  }

  lemma ScoreWritten(row: Row)
    ensures ScoreOf(ReadScorecard(WriteScorecard(row))) == Sql(PyGet(row, "Puntaje_Calidad"))
  {
    var vals := WriteScorecard(row);
    ScoreColumn(vals);
    ScoreKey();
    assert vals[1] == Sql(PyGet(row, ScorecardKey(1)));
  }

  lemma ScoreKey()
    ensures ScorecardKey(1) == "Puntaje_Calidad"
  {
  }

  lemma SummaryRoundTrip(summary: Row)
    ensures |ReadSummary(SummaryRecord(summary))| == |SummaryKeys|
    ensures forall j :: 0 <= j < |SummaryKeys| ==>
      ReadSummary(SummaryRecord(summary))[j] == (SummaryKeys[j], Sql(PyGet(summary, SummaryKeys[j])))
  {
    var e := seq(|SummaryKeys|, j requires 0 <= j < |SummaryKeys| => (SummaryKeys[j], Sql(PyGet(summary, SummaryKeys[j]))));
    assert ReadSummary(SummaryRecord(summary)) == e;
  }

  lemma GetCons2(p: (string, Value), q: (string, Value), key: string)
    requires p.0 != key && q.0 == key
    ensures Get([p, q], key) == Some(q.1)
  {
    assert [p, q][1..] == [q];
  }

  /** The browser reads whatever `get_analysis` returns as an analysis. */
  lemma ClientReadsFetched(f: Fetched)
    ensures AnalysisOf(FetchedValue(f)) == Some(Analysis(f.summary, f.scorecard, f.eventsSummary, Some(f.dataQuality), f.rawDataSample))
  {
    FetchedParts(f);
  }

  lemma FetchedParts(f: Fetched)
    ensures var fields := FetchedValue(f).fields;
      ObjectField(fields, "summary") == Some(f.summary)
      && ArrayField(fields, "scorecard") == Some(f.scorecard)
      && ObjectField(fields, "chart_data") == Some(ChartData(f))
      && ObjectField(ChartData(f), "events_summary") == Some(f.eventsSummary)
      && QualityField(fields) == Some(f.dataQuality)
      && ArrayField(fields, "raw_data_sample") == Some(f.rawDataSample)
  {
    FetchedFields(f);
    FetchedRead(FetchedValue(f).fields, f);
    ChartEvents(f);
  }

  lemma ChartEvents(f: Fetched)
    ensures ObjectField(ChartData(f), "events_summary") == Some(f.eventsSummary)
  {
    GetCons2(ChartData(f)[0], ChartData(f)[1], "events_summary");
    assert ChartData(f) == [ChartData(f)[0], ChartData(f)[1]];
  }

  /** A dict holding the fetched parts under their keys reads each part
      back. */
  lemma FetchedRead(fields: Row, f: Fetched)
    requires Get(fields, "summary") == Some(Obj(f.summary))
    requires Get(fields, "scorecard") == Some(RowsValue(f.scorecard))
    requires Get(fields, "data_quality") == Some(Obj(f.dataQuality))
    requires Get(fields, "chart_data") == Some(Obj(ChartData(f)))
    requires Get(fields, "raw_data_sample") == Some(RowsValue(f.rawDataSample))
    ensures ObjectField(fields, "summary") == Some(f.summary)
    ensures ArrayField(fields, "scorecard") == Some(f.scorecard)
    ensures ObjectField(fields, "chart_data") == Some(ChartData(f))
    ensures QualityField(fields) == Some(f.dataQuality)
    ensures ArrayField(fields, "raw_data_sample") == Some(f.rawDataSample)
  {
    ObjectRowsOfRows(f.scorecard);
    ObjectRowsOfRows(f.rawDataSample);
  }

  function ChartData(f: Fetched): Row {
    [("score_distribution", Arr(f.scoreDistribution)), ("events_summary", Obj(f.eventsSummary))]
  }

  /** The fields the browser looks up, in the dict `get_analysis` returns. */
  lemma FetchedFields(f: Fetched)
    ensures var fields := FetchedValue(f).fields;
      Get(fields, "summary") == Some(Obj(f.summary))
      && Get(fields, "scorecard") == Some(RowsValue(f.scorecard))
      && Get(fields, "data_quality") == Some(Obj(f.dataQuality))
      && Get(fields, "chart_data") == Some(Obj(ChartData(f)))
      && Get(fields, "raw_data_sample") == Some(RowsValue(f.rawDataSample))
  {
    var f5: Row := [("raw_data_sample", RowsValue(f.rawDataSample))];
    var f4 := [("chart_data", Obj(ChartData(f)))] + f5;
    var f3 := [("data_quality", Obj(f.dataQuality))] + f4;
    var f2 := [("scorecard", RowsValue(f.scorecard))] + f3;
    var f1 := [("summary", Obj(f.summary))] + f2;
    assert FetchedValue(f).fields == f1;
    GetCons("summary", Obj(f.summary), f2, "summary");
    GetCons("summary", Obj(f.summary), f2, "scorecard");
    GetCons("scorecard", RowsValue(f.scorecard), f3, "scorecard");
    GetCons("summary", Obj(f.summary), f2, "data_quality");
    GetCons("scorecard", RowsValue(f.scorecard), f3, "data_quality");
    GetCons("data_quality", Obj(f.dataQuality), f4, "data_quality");
    GetCons("summary", Obj(f.summary), f2, "chart_data");
    GetCons("scorecard", RowsValue(f.scorecard), f3, "chart_data");
    GetCons("data_quality", Obj(f.dataQuality), f4, "chart_data");
    GetCons("chart_data", Obj(ChartData(f)), f5, "chart_data");
    GetCons("summary", Obj(f.summary), f2, "raw_data_sample");
    GetCons("scorecard", RowsValue(f.scorecard), f3, "raw_data_sample");
    GetCons("data_quality", Obj(f.dataQuality), f4, "raw_data_sample");
    GetCons("chart_data", Obj(ChartData(f)), f5, "raw_data_sample");
  }

  // ---------------------------------------------------------------------
  // Renaming and deleting

  /** `update_filename`: the new tables and whether a row matched. */
  function Rename(t: Tables, id: string, name: string): (Tables, bool) {
    if id in t.analyses then (t.(analyses := t.analyses[id := t.analyses[id].(filename := Str(name))]), true)
    else (t, false)
  }

  /** `delete_analysis`: the analysis and its dependent rows go; the
      original filename comes back, or None when there was no such id. */
  function Remove(t: Tables, id: string): (Tables, Option<Value>) {
    if id !in t.analyses then (t, None)
    else
      (t.(analyses := t.analyses - {id}, scorecard := t.scorecard - {id}, dataQuality := t.dataQuality - {id},
          chartData := t.chartData - {id}, telemetry := t.telemetry - {id}),
       Some(t.analyses[id].originalFilename))
  }

  /** A rename changes only the display name of that one analysis and
      reports whether the id exists. */
  lemma RenameEffect(t: Tables, id: string, name: string)
    ensures Rename(t, id, name).1 <==> id in t.analyses
    ensures var t' := Rename(t, id, name).0;
      t'.analyses.Keys == t.analyses.Keys
      && t'.scorecard == t.scorecard && t'.dataQuality == t.dataQuality && t'.chartData == t.chartData
      && t'.telemetry == t.telemetry && t'.jobs == t.jobs
      && (forall other :: other in t.analyses && other != id ==> t'.analyses[other] == t.analyses[other])
      && (id in t.analyses ==> t'.analyses[id] == t.analyses[id].(filename := Str(name)))
  {
  }

  /** Renames never reach the original filename that deletion reports. */
  lemma {:induction false} RenamesKeepOriginal(t: Tables, id: string, names: seq<(string, string)>)
    ensures Remove(Renames(t, names), id).1 == Remove(t, id).1
    decreases |names|
  {
    if names != [] {
      RenamesKeepOriginal(Rename(t, names[0].0, names[0].1).0, id, names[1..]);
    }
  }

  /** A sequence of (id, new name) renames. */
  function Renames(t: Tables, names: seq<(string, string)>): Tables
    decreases |names|
  {
    if names == [] then t else Renames(Rename(t, names[0].0, names[0].1).0, names[1..])
  }

  /** After a delete the id is gone from every analysis table, nothing else
      changes, and a second delete reports None. */
  lemma RemoveEffect(t: Tables, id: string)
    requires Consistent(t)
    ensures var t' := Remove(t, id).0;
      Consistent(t') && (forall k :: k in t'.analyses <==> k in t.analyses && k != id)
      && t'.jobs == t.jobs
      && Remove(t', id).1.None?
  {
    RemoveConsistent(t, id);
  }

  lemma RemoveConsistent(t: Tables, id: string)
    requires Consistent(t)
    ensures Consistent(Remove(t, id).0)
  {
    var t' := Remove(t, id).0;
    if id in t.analyses {
      forall k | k in t'.scorecard
        ensures Width(t'.scorecard[k], 28)
      {
        assert t'.scorecard[k] == t.scorecard[k];
      }
      forall k | k in t'.telemetry
        ensures Width(t'.telemetry[k], 26)
      {
        assert t'.telemetry[k] == t.telemetry[k];
      }
    }
  }

  // ---------------------------------------------------------------------
  // Processing jobs

  /** The job table's column defaults (`schema.sql` is not part of this
      model): progress 0. */
  const JobProgressDefault: Value := Num(0.0)

  /** `create_job`: a new "pending" record; None when the id is taken. */
  function CreateJob(t: Tables, id: string, filename: string, now: string): Option<Tables> {
    if id in t.jobs then None
    else Some(t.(jobs := t.jobs[id := JobRecord(filename, "pending", JobProgressDefault, None, None, now, None)]))
  }

  /** `update_job_progress`: sets progress and status; no row, no change. */
  function UpdateJobProgress(t: Tables, id: string, progress: int, status: string): Tables {
    if id in t.jobs then t.(jobs := t.jobs[id := t.jobs[id].(progress := Num(progress as real), status := status)])
    else t
  }

  function CompleteJob(t: Tables, id: string, analysisId: string, now: string): Tables {
    if id in t.jobs then
      t.(jobs := t.jobs[id := t.jobs[id].(status := "completed", analysisId := Some(analysisId), completedAt := Some(now))])
    else t
  }

  function FailJob(t: Tables, id: string, message: string, now: string): Tables {
    if id in t.jobs then
      t.(jobs := t.jobs[id := t.jobs[id].(status := "failed", errorMessage := Some(message), completedAt := Some(now))])
    else t
  }

  function OptStr(s: Option<string>): Value {
    if s.Some? then Str(s.value) else Null
  }

  /** `get_job`: the record as a dict, or None. */
  function GetJob(t: Tables, id: string): (r: Option<Row>)
    ensures r.None? <==> id !in t.jobs
  {
    if id !in t.jobs then None
    else
      var j := t.jobs[id];
      Some([("id", Str(id)), ("analysis_id", OptStr(j.analysisId)), ("filename", Str(j.filename)),
            ("status", Str(j.status)), ("progress", j.progress), ("error_message", OptStr(j.errorMessage)),
            ("created_at", Str(j.createdAt)), ("completed_at", OptStr(j.completedAt))])
  }

  /** The status and progress a job record reports. */
  function JobStatus(t: Tables, id: string): Option<(string, Value)> {
    if id in t.jobs then Some((t.jobs[id].status, t.jobs[id].progress)) else None
  }

  /** The record's state machine: created pending at progress 0; progress
      updates move it; completing or failing sets the status and what goes
      with it and keeps the progress; none of them touches other jobs or
      the analyses. */
  lemma JobTransitions(t: Tables, id: string, filename: string, now: string, p: int, status: string, aid: string, msg: string)
    ensures id !in t.jobs ==>
      (CreateJob(t, id, filename, now).Some?
       && JobStatus(CreateJob(t, id, filename, now).value, id) == Some(("pending", Num(0.0))))
    ensures id in t.jobs ==> CreateJob(t, id, filename, now).None?
    ensures id in t.jobs ==> JobStatus(UpdateJobProgress(t, id, p, status), id) == Some((status, Num(p as real)))
    ensures id in t.jobs ==> var j := CompleteJob(t, id, aid, now).jobs[id];
      j.status == "completed" && j.analysisId == Some(aid) && j.progress == t.jobs[id].progress
      && j.errorMessage == t.jobs[id].errorMessage
    ensures id in t.jobs ==> var j := FailJob(t, id, msg, now).jobs[id];
      j.status == "failed" && j.errorMessage == Some(msg) && j.progress == t.jobs[id].progress
      && j.analysisId == t.jobs[id].analysisId
    ensures id !in t.jobs ==>
      (UpdateJobProgress(t, id, p, status) == t && CompleteJob(t, id, aid, now) == t
       && FailJob(t, id, msg, now) == t && GetJob(t, id).None?)
    ensures forall other :: other != id && other in t.jobs ==>
      UpdateJobProgress(t, id, p, status).jobs[other] == t.jobs[other]
      && CompleteJob(t, id, aid, now).jobs[other] == t.jobs[other]
      && FailJob(t, id, msg, now).jobs[other] == t.jobs[other]
  {
  }

  // ---------------------------------------------------------------------
  // Migration from the JSON files

  datatype Migration = Migrated(count: nat) | Raised

  /** One history entry: a non-dict raises; no id, an id already stored, a
      missing or unreadable result file, or a failing save are skipped;
      a successful save counts one. */
  function MigrateEntry(t: Tables, entry: Value, files: map<string, Option<Value>>): Option<(Tables, nat)> {
    if !entry.Obj? then None
    else
      var id := Get(entry.fields, "id");
      if id.None? || !PyTruthy(id.value) || !id.value.Str? then Some((t, 0))
      else if id.value.s in t.analyses then Some((t, 0))
      else if id.value.s !in files || files[id.value.s].None? || !files[id.value.s].value.Obj? then Some((t, 0))
      else
        var saved := Save(t, id.value.s, files[id.value.s].value.fields);
        if saved.None? then Some((t, 0)) else Some((saved.value, 1))
  }

  /** The loop over the history entries, one entry after the other; the
      saves made before a raising entry stay. */
  function MigrateRun(t: Tables, entries: seq<Value>, files: map<string, Option<Value>>): (Tables, Migration)
    decreases |entries|, 1
  {
    if entries == [] then (t, Migrated(0)) else Continue(t, entries, files)
  }

  /** The run over entries left to do: the first entry's step, then the
      run over the rest unless the step raised. */
  function Continue(t: Tables, entries: seq<Value>, files: map<string, Option<Value>>): (Tables, Migration)
    requires entries != []
    decreases |entries|, 0
  {
    var step := MigrateEntry(t, entries[0], files);
    if step.None? then (t, Raised)
    else Resume(step.value.1, MigrateRun(step.value.0, entries[1..], files))
  }

  /** The rest of a run, after `count` entries already migrated. */
  function Resume(count: nat, rest: (Tables, Migration)): (Tables, Migration) {
    (rest.0, if rest.1.Raised? then Raised else Migrated(count + rest.1.count))
  }

  /** The history file as `json.load` finds it: absent, not JSON, or a
      parsed document. */
  datatype HistoryFile = NoHistory | Unparseable | History(doc: Value)

  /** What `for entry in history` walks over: a list's items, a dict's keys,
      a string's characters; None for a value Python cannot iterate. */
  function HistoryItems(doc: Value): (e: Option<seq<Value>>)
    ensures e.None? <==> !(doc.Arr? || doc.Obj? || doc.Str?)
    ensures doc.Arr? ==> e == Some(doc.items)
    ensures doc.Obj? ==> e.Some? && |e.value| == |doc.fields|
    ensures doc.Str? ==> e.Some? && |e.value| == |doc.s|
    ensures !doc.Arr? && e.Some? ==> forall i :: 0 <= i < |e.value| ==> e.value[i].Str?
  {
    match doc
    case Arr(items) => Some(items)
    case Obj(fields) => Some(seq(|fields|, i requires 0 <= i < |fields| => Str(fields[i].0)))
    case Str(text) => Some(seq(|text|, i requires 0 <= i < |text| => Str([text[i]])))
    case _ => None
  }

  /** `migrate_json_to_sqlite`: no history file migrates nothing; a file
      that does not parse, or a document that cannot be iterated, raises
      before any entry. */
  function Migrate(t: Tables, history: HistoryFile, files: map<string, Option<Value>>): (Tables, Migration) {
    match history
    case NoHistory => (t, Migrated(0))
    case Unparseable => (t, Raised)
    case History(doc) =>
      var entries := HistoryItems(doc);
      if entries.None? then (t, Raised) else MigrateRun(t, entries.value, files)
  }

  /** Only a list of records can migrate anything: any other document
      raises unchanged at its first entry, or migrates nothing when it is
      empty. */
  lemma OnlyListsMigrate(t: Tables, doc: Value, files: map<string, Option<Value>>)
    requires !doc.Arr?
    ensures Migrate(t, History(doc), files) == (t, if HistoryItems(doc) == Some([]) then Migrated(0) else Raised)
  {
    var entries := HistoryItems(doc);
    if entries.Some? && entries.value != [] {
      assert !entries.value[0].Obj?;
      assert MigrateEntry(t, entries.value[0], files).None?;
      assert MigrateRun(t, entries.value, files) == Continue(t, entries.value, files) == (t, Raised);
    }
  }

  /** One entry adds nothing, or exactly one new analysis. */
  lemma EntryStep(t: Tables, entry: Value, files: map<string, Option<Value>>)
    requires MigrateEntry(t, entry, files).Some?
    ensures var (u, count) := MigrateEntry(t, entry, files).value;
      t.analyses.Keys <= u.analyses.Keys && |u.analyses.Keys| == |t.analyses.Keys| + count
  {
    var (u, count) := MigrateEntry(t, entry, files).value;
    if count == 1 {
      var id := Get(entry.fields, "id").value.s;
      SaveConsistent(t, id, files[id].value.fields);
    }
  }

  lemma {:induction false} MigrateRunGrows(t: Tables, entries: seq<Value>, files: map<string, Option<Value>>)
    ensures t.analyses.Keys <= MigrateRun(t, entries, files).0.analyses.Keys
    decreases |entries|
  {
    if entries != [] && MigrateEntry(t, entries[0], files).Some? {
      EntryStep(t, entries[0], files);
      MigrateRunGrows(MigrateEntry(t, entries[0], files).value.0, entries[1..], files);
    }
  }

  /** Every entry of a run that did not raise is skipped by any later state
      holding at least the analyses the run ended with. */
  lemma {:induction false} MigratedEntriesSettle(t: Tables, entries: seq<Value>, files: map<string, Option<Value>>, u: Tables)
    requires MigrateRun(t, entries, files).1.Migrated?
    requires MigrateRun(t, entries, files).0.analyses.Keys <= u.analyses.Keys
    ensures forall i :: 0 <= i < |entries| ==> MigrateEntry(u, entries[i], files) == Some((u, 0))
    decreases |entries|
  {
    if entries != [] {
      var e, rest := entries[0], entries[1..];
      var next := MigrateEntry(t, e, files).value.0;
      MigratedEntriesSettle(next, rest, files, u);
      MigrateRunGrows(next, rest, files);
      var id := Get(e.fields, "id");
      if id.Some? && PyTruthy(id.value) && id.value.Str? && id.value.s !in u.analyses {
        assert id.value.s !in next.analyses;
      }
      forall i | 0 <= i < |entries|
        ensures MigrateEntry(u, entries[i], files) == Some((u, 0))
      {
        if 0 < i {
          assert entries[i] == rest[i - 1];
        }
      }
    }
  }

  lemma {:induction false} SettledRun(u: Tables, entries: seq<Value>, files: map<string, Option<Value>>)
    requires forall i :: 0 <= i < |entries| ==> MigrateEntry(u, entries[i], files) == Some((u, 0))
    ensures MigrateRun(u, entries, files) == (u, Migrated(0))
    decreases |entries|
  {
    if entries != [] {
      var rest := entries[1..];
      assert forall i :: 0 <= i < |rest| ==> rest[i] == entries[i + 1];
      assert MigrateEntry(u, entries[0], files) == Some((u, 0));
      SettledRun(u, rest, files);
    }
  }

  /** Migration is idempotent: rerunning it over the same files after a run
      that did not raise migrates nothing and changes nothing. */
  lemma MigrateTwice(t: Tables, history: HistoryFile, files: map<string, Option<Value>>)
    requires Migrate(t, history, files).1.Migrated?
    ensures var t' := Migrate(t, history, files).0;
      Migrate(t', history, files) == (t', Migrated(0))
  {
    if history.History? {
      var entries := HistoryItems(history.doc).value;
      var t' := Migrate(t, history, files).0;
      MigratedEntriesSettle(t, entries, files, t');
      SettledRun(t', entries, files);
    }
  }

  /** Without a history file nothing is migrated; the count is the number
      of analyses added. */
  lemma {:induction false} MigrateCount(t: Tables, entries: seq<Value>, files: map<string, Option<Value>>)
    requires MigrateRun(t, entries, files).1.Migrated?
    ensures |MigrateRun(t, entries, files).0.analyses.Keys| == |t.analyses.Keys| + MigrateRun(t, entries, files).1.count
    decreases |entries|
  {
    if entries != [] {
      EntryStep(t, entries[0], files);
      MigrateCount(MigrateEntry(t, entries[0], files).value.0, entries[1..], files);
    }
  }

  // ---------------------------------------------------------------------
  // The database object

  class Database {
    var tables: Tables

    ghost predicate Valid()
      reads this
    {
      Consistent(tables)
    }

    /** A fresh database file. */
    constructor ()
      ensures tables == NoTables && Valid()
    {
      tables := NoTables;
    }

    /** Stores the analysis, or raises (`ok` false) and leaves every table
        as it was. */
    method SaveAnalysis(id: string, result: Row) returns (ok: bool)
      requires Valid()
      modifies this
      ensures Valid()
      ensures ok <==> Save(old(tables), id, result).Some?
      ensures tables == if ok then Save(old(tables), id, result).value else old(tables)
    {
      var doc := ReadDocument(result);
      if id in tables.analyses || doc.None? || !Storable(doc.value) {
        return false;
      }
      var sample := StratifiedSample(doc.value.raw);
      SaveConsistent(tables, id, result);
      tables := Store(tables, id, doc.value, sample);
      return true;
    }

    /** `analysis_exists(id)`. */
    method AnalysisExists(id: string) returns (found: bool)
      ensures found <==> id in tables.analyses
    {
      found := id in tables.analyses;
    }

    method UpdateFilename(id: string, name: string) returns (matched: bool)
      modifies this
      ensures (tables, matched) == Rename(old(tables), id, name)
    {
      if id in tables.analyses {
        tables := tables.(analyses := tables.analyses[id := tables.analyses[id].(filename := Str(name))]);
        return true;
      }
      return false;
    }

    method DeleteAnalysis(id: string) returns (original: Option<Value>)
      requires Valid()
      modifies this
      ensures Valid()
      ensures (tables, original) == Remove(old(tables), id)
    {
      if id !in tables.analyses {
        return None;
      }
      original := Some(tables.analyses[id].originalFilename);
      RemoveEffect(tables, id);
      tables := Remove(tables, id).0;
    }

    /** `create_job`; `ok` is false when it raises on a taken id. */
    method CreateJobRecord(id: string, filename: string, now: string) returns (ok: bool)
      requires Valid()
      modifies this
      ensures Valid()
      ensures ok <==> id !in old(tables).jobs
      ensures tables == if ok then CreateJob(old(tables), id, filename, now).value else old(tables)
    {
      if id in tables.jobs {
        return false;
      }
      tables := tables.(jobs := tables.jobs[id := JobRecord(filename, "pending", JobProgressDefault, None, None, now, None)]);
      return true;
    }

    method UpdateJobRecord(id: string, progress: int, status: string)
      requires Valid()
      modifies this
      ensures Valid()
      ensures tables == UpdateJobProgress(old(tables), id, progress, status)
    {
      tables := UpdateJobProgress(tables, id, progress, status);
    }

    method CompleteJobRecord(id: string, analysisId: string, now: string)
      requires Valid()
      modifies this
      ensures Valid()
      ensures tables == CompleteJob(old(tables), id, analysisId, now)
    {
      tables := CompleteJob(tables, id, analysisId, now);
    }

    method FailJobRecord(id: string, message: string, now: string)
      requires Valid()
      modifies this
      ensures Valid()
      ensures tables == FailJob(old(tables), id, message, now)
    {
      tables := FailJob(tables, id, message, now);
    }
  }

  /** The migration loop: one entry at a time, stopping at a raising one. */
  method MigrateJsonToSqlite(db: Database, history: HistoryFile, files: map<string, Option<Value>>)
    returns (result: Migration)
    requires db.Valid()
    modifies db
    ensures db.Valid()
    ensures (db.tables, result) == Migrate(old(db.tables), history, files)
  {
    match history
    case NoHistory =>
      return Migrated(0);
    case Unparseable =>
      return Raised;
    case History(doc) =>
      var entries := HistoryItems(doc);
      if entries.None? {
        return Raised;
      }
      result := MigrateEntries(db, entries.value, files);
  }

  /** The loop over the history entries. */
  method MigrateEntries(db: Database, entries: seq<Value>, files: map<string, Option<Value>>)
    returns (result: Migration)
    requires db.Valid()
    modifies db
    ensures db.Valid()
    ensures (db.tables, result) == MigrateRun(old(db.tables), entries, files)
  {
    ghost var goal := MigrateRun(db.tables, entries, files);
    var migrated := 0;
    RunStarts(db.tables, entries, files);
    for i := 0 to |entries|
      invariant db.Valid()
      invariant RunRemains(goal, migrated, db.tables, entries, i, files)
    {
      var raised, count := MigrateStep(db, goal, entries, i, files, migrated);
      if raised {
        return Raised;
      }
      migrated := migrated + count;
    }
    RunEnds(goal, migrated, db.tables, entries, files);
    return Migrated(migrated);
  }

  /** The loop invariant: the whole run is the `migrated` entries counted
      so far followed by the run over the entries from `i` on. */
  ghost predicate RunRemains(goal: (Tables, Migration), migrated: nat, t: Tables, entries: seq<Value>, i: nat,
                             files: map<string, Option<Value>>)
    requires i <= |entries|
  {
    goal == Resume(migrated, MigrateRun(t, entries[i..], files))
  }

  /** Before the first entry, the whole run remains. */
  lemma RunStarts(t: Tables, entries: seq<Value>, files: map<string, Option<Value>>)
    ensures RunRemains(MigrateRun(t, entries, files), 0, t, entries, 0, files)
  {
    assert entries[0..] == entries;
  }

  /** After the last entry, nothing remains but the count. */
  lemma RunEnds(goal: (Tables, Migration), migrated: nat, t: Tables, entries: seq<Value>, files: map<string, Option<Value>>)
    requires RunRemains(goal, migrated, t, entries, |entries|, files)
    ensures goal == (t, Migrated(migrated))
  {
    assert entries[|entries|..] == [];
  }

  /** One turn of the loop, with what it leaves of the run. */
  method MigrateStep(db: Database, ghost goal: (Tables, Migration), entries: seq<Value>, i: nat,
                     files: map<string, Option<Value>>, ghost migrated: nat)
    returns (raised: bool, count: nat)
    requires db.Valid() && i < |entries|
    requires RunRemains(goal, migrated, db.tables, entries, i, files)
    modifies db
    ensures db.Valid()
    ensures raised ==> goal == (db.tables, Raised)
    ensures !raised ==> RunRemains(goal, migrated + count, db.tables, entries, i + 1, files)
  {
    ghost var before := db.tables;
    raised, count := MigrateOne(db, entries[i], files);
    RunAdvances(goal, migrated, before, entries, i, files, raised, db.tables, count);
  }

  /** One turn of the loop: the run from entry `i` is entry `i`'s step
      followed by the run from entry `i + 1`, or ends at a raising entry. */
  lemma RunAdvances(goal: (Tables, Migration), migrated: nat, before: Tables, entries: seq<Value>, i: nat,
                    files: map<string, Option<Value>>, raised: bool, after: Tables, count: nat)
    requires i < |entries|
    requires goal == Resume(migrated, MigrateRun(before, entries[i..], files))
    requires MigrateEntry(before, entries[i], files) == if raised then None else Some((after, count))
    ensures raised ==> goal == (before, Raised)
    ensures !raised ==> goal == Resume(migrated + count, MigrateRun(after, entries[i + 1..], files))
  {
    assert entries[i..][0] == entries[i];
    assert entries[i..][1..] == entries[i + 1..];
  }

  /** The loop body for one history entry. */
  method MigrateOne(db: Database, entry: Value, files: map<string, Option<Value>>) returns (raised: bool, count: nat)
    requires db.Valid()
    modifies db
    ensures db.Valid()
    ensures MigrateEntry(old(db.tables), entry, files) == if raised then None else Some((db.tables, count))
    ensures raised ==> db.tables == old(db.tables)
  {
    if !entry.Obj? {
      return true, 0;
    }
    var id := Get(entry.fields, "id");
    if id.None? || !PyTruthy(id.value) || !id.value.Str? {
      return false, 0;
    }
    var name := id.value.s;
    var known := db.AnalysisExists(name);
    if known {
      return false, 0;
    }
    if name !in files || files[name].None? || !files[name].value.Obj? {
      return false, 0;
    }
    var ok := db.SaveAnalysis(name, files[name].value.fields);
    return false, if ok then 1 else 0;
  }
}
