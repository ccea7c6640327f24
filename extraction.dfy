/**
 * The server's log extraction (`process_log_data` in app.py): every log
 * entry carries, three JSON documents deep, a message holding one telemetry
 * point or a list of them; each point with an IMEI becomes one flat record
 * of 25 columns.  Then the records are de-duplicated and each device gets
 * its ignition-coherence verdict.
 *
 * `json.loads` is the parameter `decode` (None: the text is not JSON), and
 * the unicode-escape fallback parser is the parameter `fallback` (None: it
 * found nothing or raised).  Python exceptions are modelled where they
 * decide what survives: an exception inside an entry skips the rest of that
 * entry, and the records it already appended stay.
 */
module Extraction {
  import opened Values
  import opened Seqs

  type Decoder = string -> Option<Value>

  /** `d.get(key, default)`: the default only when the key is absent. */
  function GetOr(row: Row, key: string, default: Value): (v: Value)
    ensures Get(row, key).Some? ==> v == Get(row, key).value
    ensures Get(row, key).None? ==> v == default
  {
    match Get(row, key)
    case Some(x) => x
    case None => default
  }

  // ---------------------------------------------------------------------
  // Finding the telemetry points of one entry

  /** How an attempt to read the points ended. */
  datatype Attempt =
    | Done(points: seq<Value>)   // the try block finished
    | Failed                     // JSONDecodeError or TypeError: use the fallback
    | Crashed                    // any other exception: the entry is skipped

  /** What a parsed message contributes: a dict is one point, a list is its
      elements, anything else nothing. */
  function Points(parsed: Value): (ps: seq<Value>)
    ensures parsed.Obj? ==> ps == [parsed]
    ensures parsed.Arr? ==> ps == parsed.items
    ensures !parsed.Obj? && !parsed.Arr? ==> ps == []
  {
    match parsed
    case Obj(_) => [parsed]
    case Arr(items) => items
    case _ => []
  }

  /** The main path: AdditionalInformation, then its Arguments, then their
      message, each a JSON text.  `json.loads` of a non-string raises
      TypeError; `.get` on a parsed value that is not a dict raises
      AttributeError, which the inner handler does not catch. */
  function Primary(info: Value, decode: Decoder): Attempt {
    if !info.Str? then Failed
    else match decode(info.s)
      case None => Failed
      case Some(outer) =>
        if !outer.Obj? then Crashed
        else
          var arguments := PyGet(outer.fields, "Arguments");
          if !PyTruthy(arguments) then Done([])
          else if !arguments.Str? then Failed
          else match decode(arguments.s)
            case None => Failed
            case Some(args) =>
              if !args.Obj? then Crashed
              else
                var message := PyGet(args.fields, "message");
                if !PyTruthy(message) then Done([])
                else if message.Str? then
                  match decode(message.s)
                  case None => Failed
                  case Some(parsed) => Done(Points(parsed))
                else Done(Points(message))
  }

  /** The telemetry list of an entry, or None when an exception escapes the
      inner handler.  The fallback calls `str.find`, which raises on a
      non-string; its own failures are swallowed and leave the list empty. */
  function TelemetryList(info: Value, decode: Decoder, fallback: Decoder): Option<seq<Value>> {
    match Primary(info, decode)
    case Done(points) => Some(points)
    case Crashed => None
    case Failed =>
      if !info.Str? then None
      else match fallback(info.s)
        case None => Some([])
        case Some(parsed) => Some(Points(parsed))
  }

  /** `jsonPayload.data.AdditionalInformation`, where a missing payload or
      data reads as `{}`; None when reading it raises (a non-dict entry or a
      non-dict `data`). */
  function AdditionalInformation(entry: Value): Option<Value> {
    if !entry.Obj? then None
    else
      var payload := GetOr(entry.fields, "jsonPayload", Obj([]));
      var data := if payload.Obj? then GetOr(payload.fields, "data", Obj([])) else Obj([]);
      if !data.Obj? then None else Some(PyGet(data.fields, "AdditionalInformation"))
  }

  /** The points of an entry and its `receiveTimestamp`, or None when the
      entry is skipped before its point loop. */
  function EntryPoints(entry: Value, decode: Decoder, fallback: Decoder): Option<(seq<Value>, Value)> {
    match AdditionalInformation(entry)
    case None => None
    case Some(info) =>
      if !PyTruthy(info) then None
      else match TelemetryList(info, decode, fallback)
        case None => None
        case Some(points) => Some((points, PyGet(entry.fields, "receiveTimestamp")))
  }

  // ---------------------------------------------------------------------
  // Normalising points into records

  /** The record's columns, in the order the dict literal lists them. */
  const Columns: seq<string> := [
    "imei", "time", "receiveTimestamp", "lat", "lng", "altitude", "speed",
    "heading", "lastFixTime", "isMoving", "batteryLevelPercentage",
    "reportMode", "quality", "mileage", "ignitionOn", "externalPowerVcc",
    "digitalInput", "driverId", "engineRPM", "vehicleSpeed",
    "engineCoolantTemperature", "totalDistance", "totalFuelUsed",
    "fuelLevelInput", "event_type"]

  /** A point is kept when it is a dict with an "imei" key. */
  predicate Accepts(point: Value) {
    point.Obj? && Get(point.fields, "imei").Some?
  }

  function Record(point: Row, receiveTs: Value, addOns: Row, canbus: Row, event: Row): Row {
    RecordOf([PyGet(point, "imei"), PyGet(point, "time"), receiveTs,
              PyGet(point, "lat"), PyGet(point, "lng"), PyGet(point, "altitude"), PyGet(point, "speed"),
              PyGet(point, "heading"), PyGet(point, "lastFixTime"), PyGet(point, "isMoving"),
              PyGet(point, "batteryLevelPercentage"), PyGet(point, "reportMode"), PyGet(point, "quality"),
              PyGet(addOns, "mileage"), PyGet(addOns, "ignitionOn"), PyGet(addOns, "externalPowerVcc"),
              PyGet(addOns, "digitalInput"), PyGet(addOns, "driverId"),
              PyGet(canbus, "engineRPM"), PyGet(canbus, "vehicleSpeed"),
              PyGet(canbus, "engineCoolantTemperature"), PyGet(canbus, "totalDistance"),
              PyGet(canbus, "totalFuelUsed"), PyGet(canbus, "fuelLevelInput"),
              PyGet(event, "type")])
  }

  /** The record's dict literal over its values, given in column order. */
  function RecordOf(v: seq<Value>): Row
    requires |v| == |Columns|
  {
    [("imei", v[0]), ("time", v[1]), ("receiveTimestamp", v[2]),
     ("lat", v[3]), ("lng", v[4]), ("altitude", v[5]), ("speed", v[6]),
     ("heading", v[7]), ("lastFixTime", v[8]), ("isMoving", v[9]),
     ("batteryLevelPercentage", v[10]), ("reportMode", v[11]), ("quality", v[12]),
     ("mileage", v[13]), ("ignitionOn", v[14]), ("externalPowerVcc", v[15]),
     ("digitalInput", v[16]), ("driverId", v[17]),
     ("engineRPM", v[18]), ("vehicleSpeed", v[19]),
     ("engineCoolantTemperature", v[20]), ("totalDistance", v[21]),
     ("totalFuelUsed", v[22]), ("fuelLevelInput", v[23]),
     ("event_type", v[24])]
  }

  /** The record of a kept point, or None when building it raises: `addOns`,
      `addOns.canbus` or `event` present but not a dict (null included). */
  function Normalized(point: Row, receiveTs: Value): Option<Row> {
    var addOns := GetOr(point, "addOns", Obj([]));
    var event := GetOr(point, "event", Obj([]));
    if !addOns.Obj? then None
    else
      var canbus := GetOr(addOns.fields, "canbus", Obj([]));
      if !canbus.Obj? || !event.Obj? then None
      else Some(Record(point, receiveTs, addOns.fields, canbus.fields, event.fields))
  }

  /** The records the point loop appends: skipped points add nothing, and
      the first point whose normalisation raises ends the loop. */
  function Flattened(points: seq<Value>, receiveTs: Value): seq<Row> {
    if points == [] then []
    else if !Accepts(points[0]) then Flattened(points[1..], receiveTs)
    else match Normalized(points[0].fields, receiveTs)
      case None => []
      case Some(r) => [r] + Flattened(points[1..], receiveTs)
  }

  function EntryRecords(entry: Value, decode: Decoder, fallback: Decoder): seq<Row> {
    match EntryPoints(entry, decode, fallback)
    case None => []
    case Some(found) => Flattened(found.0, found.1)
  }

  /** The records of each element, concatenated in order. */
  function Concat<T>(s: seq<T>, f: T -> seq<Row>): seq<Row> {
    if s == [] then [] else Concat(s[..|s| - 1], f) + f(s[|s| - 1])
  }

  /** Every record the extraction collects, entry by entry. */
  function Extracted(logs: seq<Value>, decode: Decoder, fallback: Decoder): seq<Row> {
    Concat(logs, (entry: Value) => EntryRecords(entry, decode, fallback))
  }

  /** The point loop of one entry. */
  method AppendPoints(records: seq<Row>, points: seq<Value>, receiveTs: Value) returns (out: seq<Row>)
    ensures out == records + Flattened(points, receiveTs)
  {
    out := records;
    var i := 0;
    while i < |points|
      invariant 0 <= i <= |points|
      invariant out + Flattened(points[i..], receiveTs) == records + Flattened(points, receiveTs)
    {
      var point := points[i];
      assert points[i..][1..] == points[i + 1..];
      if Accepts(point) {
        var r := Normalized(point.fields, receiveTs);
        if r.None? {
          assert out == out + Flattened(points[i..], receiveTs);
          return;
        }
        out := out + [r.value];
      }
      i := i + 1;
    }
    assert points[i..] == [];
  }

  /** The entry loop: an entry that raises before its point loop adds
      nothing. */
  method ExtractTelemetry(logs: seq<Value>, decode: Decoder, fallback: Decoder) returns (records: seq<Row>)
    ensures records == Extracted(logs, decode, fallback)
  {
    records := [];
    for i := 0 to |logs|
      invariant records == Extracted(logs[..i], decode, fallback)
    {
      assert logs[..i + 1][..i] == logs[..i];
      match EntryPoints(logs[i], decode, fallback)
      case None =>
      case Some(found) =>
        records := AppendPoints(records, found.0, found.1);
    }
    assert logs[..|logs|] == logs;
  }

  // ---------------------------------------------------------------------
  // Properties of the extraction

  lemma {:induction false} ConcatAppend<T>(a: seq<T>, b: seq<T>, f: T -> seq<Row>)
    ensures Concat(a + b, f) == Concat(a, f) + Concat(b, f)
    decreases |b|
  {
    if b == [] {
      assert a + b == a;
    } else {
      assert (a + b)[..|a + b| - 1] == a + b[..|b| - 1];
      ConcatAppend(a, b[..|b| - 1], f);
    }
  }

  lemma ConcatOne<T>(x: T, f: T -> seq<Row>)
    ensures Concat([x], f) == f(x)
  {
    assert [x][..0] == [];
  }

  /** Entries are independent: what one entry yields does not depend on the
      entries around it, so a malformed entry costs only its own records. */
  lemma ExtractedAppend(a: seq<Value>, b: seq<Value>, e: Value, decode: Decoder, fallback: Decoder)
    ensures Extracted(a + b, decode, fallback) == Extracted(a, decode, fallback) + Extracted(b, decode, fallback)
    ensures Extracted([e], decode, fallback) == EntryRecords(e, decode, fallback)
  {
    ConcatAppend(a, b, (entry: Value) => EntryRecords(entry, decode, fallback));
    ConcatOne(e, (entry: Value) => EntryRecords(entry, decode, fallback));
  }

  /** An entry without a truthy `jsonPayload.data.AdditionalInformation`
      contributes no records. */
  lemma NoAdditionalInformation(entry: Value, decode: Decoder, fallback: Decoder)
    requires entry.Obj?
    ensures Get(entry.fields, "jsonPayload").None? ==> EntryRecords(entry, decode, fallback) == []
    ensures forall payload: Row :: Get(entry.fields, "jsonPayload") == Some(Obj(payload)) ==>
              var data := GetOr(payload, "data", Obj([]));
              data.Obj? && !PyTruthy(PyGet(data.fields, "AdditionalInformation")) ==>
              EntryRecords(entry, decode, fallback) == []
  {
  }

  /** A well-formed message: a dict is one point, a list its elements, and
      a message given as JSON text is decoded first. */
  lemma MessagePoints(info: string, decode: Decoder, fallback: Decoder, outer: Row, arguments: string, args: Row)
    requires decode(info) == Some(Obj(outer))
    requires PyGet(outer, "Arguments") == Str(arguments) && arguments != ""
    requires decode(arguments) == Some(Obj(args))
    requires PyTruthy(PyGet(args, "message"))
    ensures var message := PyGet(args, "message");
            message.Obj? ==> TelemetryList(Str(info), decode, fallback) == Some([message])
    ensures var message := PyGet(args, "message");
            message.Arr? ==> TelemetryList(Str(info), decode, fallback) == Some(message.items)
    ensures var message := PyGet(args, "message");
            message.Str? && decode(message.s).Some? ==>
              TelemetryList(Str(info), decode, fallback) == Some(Points(decode(message.s).value))
  {
  }

  /** A malformed AdditionalInformation text hands the entry to the
      fallback parser. */
  lemma UndecodableUsesFallback(info: string, decode: Decoder, fallback: Decoder)
    requires decode(info).None?
    ensures fallback(info).None? ==> TelemetryList(Str(info), decode, fallback) == Some([])
    ensures fallback(info).Some? ==> TelemetryList(Str(info), decode, fallback) == Some(Points(fallback(info).value))
  {
  }

  /** The point loop keeps at most one record per point, each the
      normalisation of an accepted point, in order. */
  lemma {:induction false} FlattenedOrigin(points: seq<Value>, receiveTs: Value)
    ensures |Flattened(points, receiveTs)| <= |points|
    ensures forall r :: r in Flattened(points, receiveTs) ==>
              exists i :: 0 <= i < |points| && Accepts(points[i]) && Normalized(points[i].fields, receiveTs) == Some(r)
  {
    if points != [] {
      FlattenedOrigin(points[1..], receiveTs);
      forall r | r in Flattened(points, receiveTs)
        ensures exists i :: 0 <= i < |points| && Accepts(points[i]) && Normalized(points[i].fields, receiveTs) == Some(r)
      {
        if r in Flattened(points[1..], receiveTs) {
          var j :| 0 <= j < |points[1..]| && Accepts(points[1..][j]) && Normalized(points[1..][j].fields, receiveTs) == Some(r);
          assert points[j + 1] == points[1..][j];
        } else {
          assert Accepts(points[0]) && Normalized(points[0].fields, receiveTs) == Some(r);
        }
      }
    }
  }

  /** Points that are not dicts or lack "imei" are skipped wherever they
      stand. */
  lemma SkippedPoint(point: Value, rest: seq<Value>, receiveTs: Value)
    requires !point.Obj? || "imei" !in Keys(point.fields)
    ensures Flattened([point] + rest, receiveTs) == Flattened(rest, receiveTs)
  {
    assert ([point] + rest)[1..] == rest;
    if point.Obj? {
      assert Get(point.fields, "imei").None?;
    }
  }

  /** When every point is a well-formed dict with an IMEI, each yields
      exactly one record, in order. */
  lemma {:induction false} AllPointsKept(points: seq<Value>, receiveTs: Value)
    requires forall i :: 0 <= i < |points| ==> Accepts(points[i]) && Normalized(points[i].fields, receiveTs).Some?
    ensures |Flattened(points, receiveTs)| == |points|
    ensures forall i :: 0 <= i < |points| && points[i].Obj? ==>
              Normalized(points[i].fields, receiveTs) == Some(Flattened(points, receiveTs)[i])
  {
    if points != [] {
      var rest := points[1..];
      AllPointsKept(rest, receiveTs);
      var r := Normalized(points[0].fields, receiveTs).value;
      assert Flattened(points, receiveTs) == [r] + Flattened(rest, receiveTs);
      forall i | 0 <= i < |points| && points[i].Obj?
        ensures Normalized(points[i].fields, receiveTs) == Some(Flattened(points, receiveTs)[i])
      {
        if 0 < i {
          assert points[i] == rest[i - 1];
        }
      }
    }
  }

  /** A point whose `addOns` is not a dict (a null included) stops its
      entry: the points after it are lost, the ones before it stay. */
  lemma {:induction false} BrokenPointStopsEntry(before: seq<Value>, point: Value, after: seq<Value>, receiveTs: Value)
    requires forall i :: 0 <= i < |before| ==> Accepts(before[i]) && Normalized(before[i].fields, receiveTs).Some?
    requires Accepts(point) && Get(point.fields, "addOns").Some? && !Get(point.fields, "addOns").value.Obj?
    ensures Flattened(before + [point] + after, receiveTs) == Flattened(before, receiveTs)
    decreases |before|
  {
    if before == [] {
      assert before + [point] + after == [point] + after;
      assert ([point] + after)[1..] == after;
    } else {
      assert (before + [point] + after)[1..] == before[1..] + [point] + after;
      BrokenPointStopsEntry(before[1..], point, after, receiveTs);
    }
  }

  /** Every record has the same 25 columns in the same order. */
  lemma RecordColumns(point: Row, receiveTs: Value, addOns: Row, canbus: Row, event: Row)
    ensures var r := Record(point, receiveTs, addOns, canbus, event);
            |r| == |Columns| && forall i :: 0 <= i < |r| ==> r[i].0 == Columns[i]
  {
    RecordOfColumns([PyGet(point, "imei"), PyGet(point, "time"), receiveTs,
              PyGet(point, "lat"), PyGet(point, "lng"), PyGet(point, "altitude"), PyGet(point, "speed"),
              PyGet(point, "heading"), PyGet(point, "lastFixTime"), PyGet(point, "isMoving"),
              PyGet(point, "batteryLevelPercentage"), PyGet(point, "reportMode"), PyGet(point, "quality"),
              PyGet(addOns, "mileage"), PyGet(addOns, "ignitionOn"), PyGet(addOns, "externalPowerVcc"),
              PyGet(addOns, "digitalInput"), PyGet(addOns, "driverId"),
              PyGet(canbus, "engineRPM"), PyGet(canbus, "vehicleSpeed"),
              PyGet(canbus, "engineCoolantTemperature"), PyGet(canbus, "totalDistance"),
              PyGet(canbus, "totalFuelUsed"), PyGet(canbus, "fuelLevelInput"),
              PyGet(event, "type")]);
  }

  lemma RecordOfColumns(v: seq<Value>)
    requires |v| == |Columns|
    ensures var r := RecordOf(v);
            |r| == |Columns| && forall i :: 0 <= i < |r| ==> r[i].0 == Columns[i]
  {
  }

  /** The IMEI and the time come from the point. */
  lemma RecordIdentityFromPoint(point: Row, receiveTs: Value, addOns: Row, canbus: Row, event: Row)
    ensures var r := Record(point, receiveTs, addOns, canbus, event);
            r[0].1 == PyGet(point, "imei") && r[1].1 == PyGet(point, "time")
  {
  }

  /** The position comes from the point. */
  lemma RecordPositionFromPoint(point: Row, receiveTs: Value, addOns: Row, canbus: Row, event: Row)
    ensures var r := Record(point, receiveTs, addOns, canbus, event);
            r[3].1 == PyGet(point, "lat") && r[4].1 == PyGet(point, "lng")
  {
  }

  /** The timestamp comes from the entry and the event type from
      `event.type`. */
  lemma RecordFromEntryAndEvent(point: Row, receiveTs: Value, addOns: Row, canbus: Row, event: Row)
    ensures var r := Record(point, receiveTs, addOns, canbus, event);
            r[2].1 == receiveTs && r[24].1 == PyGet(event, "type")
  {
  }

  /** The odometer comes from `addOns` and the RPM from `addOns.canbus`. */
  lemma RecordFromAddOns(point: Row, receiveTs: Value, addOns: Row, canbus: Row, event: Row)
    ensures var r := Record(point, receiveTs, addOns, canbus, event);
            r[13].1 == PyGet(addOns, "mileage") && r[18].1 == PyGet(canbus, "engineRPM")
  {
  }

  // ---------------------------------------------------------------------
  // De-duplication

  /** The text pandas' `astype(str)` gives a cell of the named column after
      the type conversions (timestamps floored to the second, coordinates
      as floats). */
  type CellText = (string, Value) -> string

  /** The identity of a record: IMEI, time, latitude and longitude. */
  function DedupKey(r: Row, cell: CellText): (string, string, string, string) {
    (cell("imei", PyGet(r, "imei")), cell("time", PyGet(r, "time")),
     cell("lat", PyGet(r, "lat")), cell("lng", PyGet(r, "lng")))
  }

  /** The `record_id` as written: the four texts glued without a separator. */
  function RecordId(r: Row, cell: CellText): string {
    cell("imei", PyGet(r, "imei")) + cell("time", PyGet(r, "time"))
    + cell("lat", PyGet(r, "lat")) + cell("lng", PyGet(r, "lng"))
  }

  /** The records kept by `drop_duplicates(subset=['record_id'])` as
      written. */
  function DeduplicatedAsWritten(records: seq<Row>, cell: CellText): (kept: seq<Row>)
    ensures |kept| <= |records|
  {
    var key := (r: Row) => RecordId(r, cell);
    DedupBySize(records, key);
    DedupBy(records, key)
  }

  /** The corrected de-duplication, not the one `process_log_data` runs:
      the identity is the four columns themselves, so two records are
      merged only when their IMEI, time, latitude and longitude all read
      the same. */
  function Deduplicated(records: seq<Row>, cell: CellText): seq<Row> {
    DedupBy(records, (r: Row) => DedupKey(r, cell))
  }

  /** The glued id merges every pair the four columns merge, so the
      de-duplication as written keeps a subsequence of what the corrected
      one keeps: it never keeps a record the corrected one drops. */
  lemma AsWrittenWithinCorrected(records: seq<Row>, cell: CellText)
    ensures Subseq(DeduplicatedAsWritten(records, cell), Deduplicated(records, cell))
    ensures |DeduplicatedAsWritten(records, cell)| <= |Deduplicated(records, cell)|
  {
    var fine := (r: Row) => DedupKey(r, cell);
    var coarse := (r: Row) => RecordId(r, cell);
    forall x, y | fine(x) == fine(y)
      ensures coarse(x) == coarse(y)
    {
      assert DedupKey(x, cell) == DedupKey(y, cell);
    }
    DedupByCoarser(records, fine, coarse);
    SubseqLength(DedupBy(records, coarse), DedupBy(records, fine));
  }

  /** A field read from a record whose earlier columns have other names. */
  lemma {:induction false} GetAt(row: Row, i: nat)
    requires i < |row|
    requires forall j :: 0 <= j < i ==> row[j].0 != row[i].0
    ensures Get(row, row[i].0) == Some(row[i].1)
  {
    if i > 0 {
      GetAt(row[1..], i - 1);
    }
  }

  /** The four identity columns of a record that lists them first. */
  lemma IdentityColumns(imei: Value, time: Value, lat: Value, lng: Value)
    ensures var r := [("imei", imei), ("time", time), ("lat", lat), ("lng", lng)];
            PyGet(r, "imei") == imei && PyGet(r, "time") == time
            && PyGet(r, "lat") == lat && PyGet(r, "lng") == lng
  {
    var r := [("imei", imei), ("time", time), ("lat", lat), ("lng", lng)];
    assert "imei"[0] != "time"[0] && "lat"[1] != "lng"[1];
    GetAt(r, 1);
    GetAt(r, 2);
    GetAt(r, 3);
  }

  /** De-duplicating two records keeps the second only when its key
      differs. */
  lemma DedupPair<T(!new), K(!new)>(x: T, y: T, key: T -> K)
    ensures DedupBy([x, y], key) == if key(x) == key(y) then [x] else [x, y]
  {
    assert [x, y][..1] == [x];
    assert [x][..0] == [];
    assert KeysOf([x], key) == [key(x)];
    assert DedupBy([x], key) == [x];
    assert DedupBy([x, y], key) == [x] + (if key(y) in [key(x)] then [] else [y]);
  }

  /** Gluing the texts merges distinct positions: records of one device at
      one time whose latitude and longitude read "1.5" and "23.0" in one and
      "1.52" and "3.0" in the other both get an id ending in "1.523.0", so
      the second is dropped although its position differs. */
  lemma GluedIdsCollide(r1: Row, r2: Row, cell: CellText)
    requires cell("imei", PyGet(r1, "imei")) == cell("imei", PyGet(r2, "imei"))
    requires cell("time", PyGet(r1, "time")) == cell("time", PyGet(r2, "time"))
    requires cell("lat", PyGet(r1, "lat")) == "1.5" && cell("lng", PyGet(r1, "lng")) == "23.0"
    requires cell("lat", PyGet(r2, "lat")) == "1.52" && cell("lng", PyGet(r2, "lng")) == "3.0"
    ensures DeduplicatedAsWritten([r1, r2], cell) == [r1]
    ensures DedupKey(r1, cell) != DedupKey(r2, cell)
  {
    var t := cell("imei", PyGet(r1, "imei")) + cell("time", PyGet(r1, "time"));
    assert "1.5" + "23.0" == "1.523.0";
    assert "1.52" + "3.0" == "1.523.0";
    assert RecordId(r1, cell) == t + ("1.5" + "23.0");
    assert RecordId(r2, cell) == t + ("1.52" + "3.0");
    assert "1.5" != "1.52";
    DedupPair(r1, r2, (r: Row) => RecordId(r, cell));
  }

  /** The same collision on two concrete records, with the coordinates
      written as Python writes these floats. */
  lemma RecordIdCollision(cell: CellText, imei: Value, time: Value)
    requires cell("lat", Num(1.5)) == "1.5" && cell("lng", Num(23.0)) == "23.0"
    requires cell("lat", Num(1.52)) == "1.52" && cell("lng", Num(3.0)) == "3.0"
    ensures var r1 := [("imei", imei), ("time", time), ("lat", Num(1.5)), ("lng", Num(23.0))];
            var r2 := [("imei", imei), ("time", time), ("lat", Num(1.52)), ("lng", Num(3.0))];
            DeduplicatedAsWritten([r1, r2], cell) == [r1]
  {
    var r1 := [("imei", imei), ("time", time), ("lat", Num(1.5)), ("lng", Num(23.0))];
    var r2 := [("imei", imei), ("time", time), ("lat", Num(1.52)), ("lng", Num(3.0))];
    IdentityColumns(imei, time, Num(1.5), Num(23.0));
    IdentityColumns(imei, time, Num(1.52), Num(3.0));
    GluedIdsCollide(r1, r2, cell);
  }

  /** With the four columns as the identity, the same two records are both
      kept. */
  lemma DistinctPositionsKept(cell: CellText, imei: Value, time: Value)
    requires cell("lat", Num(1.5)) == "1.5" && cell("lat", Num(1.52)) == "1.52"
    ensures var r1 := [("imei", imei), ("time", time), ("lat", Num(1.5)), ("lng", Num(23.0))];
            var r2 := [("imei", imei), ("time", time), ("lat", Num(1.52)), ("lng", Num(3.0))];
            Deduplicated([r1, r2], cell) == [r1, r2]
  {
    var r1 := [("imei", imei), ("time", time), ("lat", Num(1.5)), ("lng", Num(23.0))];
    var r2 := [("imei", imei), ("time", time), ("lat", Num(1.52)), ("lng", Num(3.0))];
    IdentityColumns(imei, time, Num(1.5), Num(23.0));
    IdentityColumns(imei, time, Num(1.52), Num(3.0));
    assert "1.5" != "1.52";
    assert DedupKey(r1, cell).2 != DedupKey(r2, cell).2;
    DedupPair(r1, r2, (r: Row) => DedupKey(r, cell));
  }

  /** The result of extraction and de-duplication: None when no record was
      extracted at all. */
  datatype Processed = Processed(records: seq<Row>, initial: nat, duplicatesRemoved: nat)

  function ProcessedLogs(logs: seq<Value>, decode: Decoder, fallback: Decoder, cell: CellText): Option<Processed> {
    Deduplicating(Extracted(logs, decode, fallback), cell)
  }

  /** De-duplication of the extracted records `all`, with the counts. */
  function Deduplicating(all: seq<Row>, cell: CellText): Option<Processed> {
    if all == [] then None
    else
      var kept := DeduplicatedAsWritten(all, cell);
      Some(Processed(kept, |all|, |all| - |kept|))
  }

  lemma {:induction false} DedupBySize<T(!new), K(!new)>(s: seq<T>, key: T -> K)
    ensures |DedupBy(s, key)| <= |s|
  {
    if s != [] {
      DedupBySize(s[..|s| - 1], key);
    }
  }

  /** `process_log_data` up to the aggregation: extraction, then
      de-duplication. */
  method ProcessLogData(logs: seq<Value>, decode: Decoder, fallback: Decoder, cell: CellText)
    returns (result: Option<Processed>)
    ensures result == ProcessedLogs(logs, decode, fallback, cell)
  {
    var all := ExtractTelemetry(logs, decode, fallback);
    result := DeduplicateRecords(all, cell);
  }

  /** The de-duplication step: nothing without records, otherwise the kept
      records with the initial and removed counts. */
  method DeduplicateRecords(all: seq<Row>, cell: CellText) returns (result: Option<Processed>)
    ensures result == Deduplicating(all, cell)
  {
    if all == [] {
      return None;
    }
    var kept := DeduplicatedAsWritten(all, cell);
    result := Some(Processed(kept, |all|, |all| - |kept|));
  }

  /** No extracted record means no result; otherwise the kept records are
      the first of each glued `record_id`, in order, and the removed count is the
      initial count minus the remaining count. */
  lemma ProcessedProperties(logs: seq<Value>, decode: Decoder, fallback: Decoder, cell: CellText)
    ensures ProcessedLogs(logs, decode, fallback, cell).None? <==> Extracted(logs, decode, fallback) == []
    ensures match ProcessedLogs(logs, decode, fallback, cell)
      case None => true
      case Some(p) =>
        var all := Extracted(logs, decode, fallback);
        var key := (r: Row) => RecordId(r, cell);
        p.initial == |all| && p.duplicatesRemoved == p.initial - |p.records|
        && Subseq(p.records, all)
        && Distinct(KeysOf(p.records, key))
        && (forall k :: k in KeysOf(all, key) <==> k in KeysOf(p.records, key))
        && (forall x :: x in p.records ==> exists i :: FirstWithKey(all, key, i) && all[i] == x)
  {
    var all := Extracted(logs, decode, fallback);
    var key := (r: Row) => RecordId(r, cell);
    DedupByProperties(all, key);
    DedupBySubseq(all, key);
  }

  /** Nothing is removed exactly when no two records share an identity. */
  lemma {:induction false} NothingRemoved<T(!new), K(!new)>(s: seq<T>, key: T -> K)
    ensures |DedupBy(s, key)| == |s| <==> Distinct(KeysOf(s, key))
  {
    if s != [] {
      var front := s[..|s| - 1];
      NothingRemoved(front, key);
      DedupBySize(front, key);
      assert KeysOf(s, key) == KeysOf(front, key) + [key(s[|s| - 1])];
      if Distinct(KeysOf(s, key)) {
        assert Distinct(KeysOf(front, key));
        assert key(s[|s| - 1]) !in KeysOf(front, key);
      }
    }
  }

  // ---------------------------------------------------------------------
  // Ignition coherence

  /** How many of a device's rows fall in the crosstab column `column`: the
      column of an event type is "Eventos_" followed by the type. */
  function ColumnCount(eventTypes: seq<Value>, column: string): (n: nat)
    ensures n <= |eventTypes|
  {
    if eventTypes == [] then 0
    else ColumnCount(eventTypes[..|eventTypes| - 1], column)
         + (var t := eventTypes[|eventTypes| - 1];
            if t.Str? && "Eventos_" + t.s == column then 1 else 0)
  }

  function Abs(x: int): nat {
    if x < 0 then -x else x
  }

  function Coherence(balance: nat): string {
    if balance > 10 then "Desbalance Alto" else "OK"
  }

  /** The balance as written: it reads the columns of the event types
      "Ignition_on" and "Ignition_off"; a missing column counts 0. */
  function BalanceAsWritten(eventTypes: seq<Value>): nat {
    Abs(ColumnCount(eventTypes, "Eventos_Ignition_on") - ColumnCount(eventTypes, "Eventos_Ignition_off"))
  }

  /** How many of a device's rows have the event type `t`. */
  function TypeCount(eventTypes: seq<Value>, t: Value): (n: nat)
    ensures n <= |eventTypes|
  {
    if eventTypes == [] then 0
    else TypeCount(eventTypes[..|eventTypes| - 1], t) + (if eventTypes[|eventTypes| - 1] == t then 1 else 0)
  }

  /** The corrected balance: the counts of the ignition-on type `on` and the
      ignition-off type `off`, whatever the log calls them. */
  function Balance(eventTypes: seq<Value>, on: Value, off: Value): nat {
    Abs(TypeCount(eventTypes, on) - TypeCount(eventTypes, off))
  }

  /** The crosstab column of a string type counts exactly the rows of that
      type. */
  lemma {:induction false} ColumnOfType(eventTypes: seq<Value>, name: string)
    ensures ColumnCount(eventTypes, "Eventos_" + name) == TypeCount(eventTypes, Str(name))
  {
    if eventTypes != [] {
      ColumnOfType(eventTypes[..|eventTypes| - 1], name);
      var t := eventTypes[|eventTypes| - 1];
      if t.Str? && "Eventos_" + t.s == "Eventos_" + name {
        assert t.s == ("Eventos_" + t.s)[8..] && name == ("Eventos_" + name)[8..];
      }
    }
  }

  /** A column no row's type names counts nothing. */
  lemma {:induction false} ColumnUnnamed(eventTypes: seq<Value>, column: string)
    requires forall i :: 0 <= i < |eventTypes| ==> !(eventTypes[i].Str? && "Eventos_" + eventTypes[i].s == column)
    ensures ColumnCount(eventTypes, column) == 0
  {
    if eventTypes != [] {
      ColumnUnnamed(eventTypes[..|eventTypes| - 1], column);
    }
  }

  /** Rows all of one type count once each under it and not under another. */
  lemma {:induction false} CountOnly(eventTypes: seq<Value>, t: Value, u: Value)
    requires forall i :: 0 <= i < |eventTypes| ==> eventTypes[i] == t
    ensures TypeCount(eventTypes, u) == (if t == u then |eventTypes| else 0)
  {
    if eventTypes != [] {
      CountOnly(eventTypes[..|eventTypes| - 1], t, u);
    }
  }

  lemma {:induction false} TypeCountAppend(a: seq<Value>, b: seq<Value>, t: Value)
    ensures TypeCount(a + b, t) == TypeCount(a, t) + TypeCount(b, t)
    decreases |b|
  {
    if b == [] {
      assert a + b == a;
    } else {
      assert (a + b)[..|a + b| - 1] == a + b[..|b| - 1];
      TypeCountAppend(a, b[..|b| - 1], t);
    }
  }

  /** As written, a device with twenty ignition-on events and no
      ignition-off is reported coherent whenever the ignition-on type is not
      literally "Ignition_on" or "Ignition_off" (the raw numeric type, or
      the label "Ignition On"), because the columns looked up never exist;
      the corrected balance flags it. */
  lemma UnbalancedReportedOk(eventTypes: seq<Value>, on: Value, off: Value)
    requires on != off && on != Str("Ignition_on") && on != Str("Ignition_off")
    requires |eventTypes| == 20 && forall i :: 0 <= i < 20 ==> eventTypes[i] == on
    ensures Coherence(BalanceAsWritten(eventTypes)) == "OK"
    ensures Coherence(Balance(eventTypes, on, off)) == "Desbalance Alto"
  {
    forall i | 0 <= i < |eventTypes|
      ensures !(eventTypes[i].Str? && "Eventos_" + eventTypes[i].s == "Eventos_Ignition_on")
      ensures !(eventTypes[i].Str? && "Eventos_" + eventTypes[i].s == "Eventos_Ignition_off")
    {
      if on.Str? {
        assert on.s == ("Eventos_" + on.s)[8..];
        assert "Ignition_on" == "Eventos_Ignition_on"[8..];
        assert "Ignition_off" == "Eventos_Ignition_off"[8..];
      }
    }
    ColumnUnnamed(eventTypes, "Eventos_Ignition_on");
    ColumnUnnamed(eventTypes, "Eventos_Ignition_off");
    CountOnly(eventTypes, on, on);
    CountOnly(eventTypes, on, off);
  }

  /** A device is flagged exactly when its ignition-on and ignition-off
      counts differ by more than ten, in either direction. */
  lemma CoherenceRule(eventTypes: seq<Value>, on: Value, off: Value)
    ensures var n := TypeCount(eventTypes, on);
            var f := TypeCount(eventTypes, off);
            (Coherence(Balance(eventTypes, on, off)) == "Desbalance Alto" <==> n > f + 10 || f > n + 10)
            && (Coherence(Balance(eventTypes, on, off)) == "OK" <==> n <= f + 10 && f <= n + 10)
  {
  }

  /** A matched ignition-on/ignition-off pair never changes the verdict. */
  lemma PairKeepsVerdict(eventTypes: seq<Value>, on: Value, off: Value)
    requires on != off
    ensures Coherence(Balance(eventTypes + [on, off], on, off)) == Coherence(Balance(eventTypes, on, off))
  {
    assert [on, off][..1] == [on];
    assert [on][..0] == [];
    TypeCountAppend(eventTypes, [on, off], on);
    TypeCountAppend(eventTypes, [on, off], off);
  }
}
