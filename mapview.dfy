/**
 * The map view: which telemetry rows are plotted, the per-device start
 * markers in "all" mode, and the path with start, end and event markers
 * for a single device.
 */
module MapView {
  import opened Values
  import opened Seqs

  datatype LatLng = LatLng(lat: Value, lng: Value)

  datatype Marker =
    | DeviceStart(at: LatLng, imei: Option<Value>)
    | Pin(at: LatLng, caption: string)
    | EventDot(at: LatLng, colour: string, icon: string)

  function Coord(r: Row): LatLng {
    LatLng(OrNull(Get(r, "lat")), OrNull(Get(r, "lng")))
  }

  /** `r.lat && r.lng && r.lat !== 0 && r.lng !== 0`. */
  predicate ValidPoint(r: Row) {
    Truthy(Get(r, "lat")) && Truthy(Get(r, "lng"))
    && Get(r, "lat") != Some(Num(0.0)) && Get(r, "lng") != Some(Num(0.0))
  }

  function Points(rows: seq<Row>): seq<Row> {
    Filter(rows, ValidPoint)
  }

  function ImeiKey(r: Row): Option<Value> {
    Get(r, "imei")
  }

  /** `[...new Set(points.map(p => p.imei))]`. */
  function UniqueImeis(points: seq<Row>): seq<Option<Value>> {
    KeysOf(DedupBy(points, ImeiKey), ImeiKey)
  }

  /** `points.find(p => p.imei === imei)`. */
  function FindFirst(points: seq<Row>, imei: Option<Value>): (r: Option<Row>)
    ensures r.Some? ==> ImeiKey(r.value) == imei
  {
    if points == [] then None
    else if ImeiKey(points[0]) == imei then Some(points[0])
    else FindFirst(points[1..], imei)
  }

  function StartMarkers(firsts: seq<Row>): (ms: seq<Marker>)
    ensures |ms| == |firsts|
    ensures forall i :: 0 <= i < |firsts| ==> ms[i] == DeviceStart(Coord(firsts[i]), ImeiKey(firsts[i]))
  {
    if firsts == [] then [] else StartMarkers(firsts[..|firsts| - 1]) + [DeviceStart(Coord(firsts[|firsts| - 1]), ImeiKey(firsts[|firsts| - 1]))]
  }

  /** `p.event_type && p.event_type !== 'null' && p.event_type !== null`. */
  predicate EventPoint(r: Row) {
    Truthy(Get(r, "event_type")) && Get(r, "event_type") != Some(Str("null")) && Get(r, "event_type") != Some(Null)
  }

  /** The colour and icon of an event marker. */
  function EventStyle(eventType: Option<Value>): (string, string) {
    if eventType == Some(Str("Ignition On")) then ("#10b981", "🟢")
    else if eventType == Some(Str("Ignition Off")) then ("#ef4444", "🔴")
    else if eventType == Some(Str("Harsh Breaking")) || eventType == Some(Str("Harsh Acceleration"))
         || eventType == Some(Str("Harsh Turn")) then ("#f59e0b", "⚠️")
    else if eventType == Some(Str("SOS")) then ("#dc2626", "🆘")
    else ("#94a3b8", "📍")
  }

  function EventMarker(r: Row): Marker {
    var style := EventStyle(Get(r, "event_type"));
    EventDot(Coord(r), style.0, style.1)
  }

  function EventMarkers(events: seq<Row>): (ms: seq<Marker>)
    ensures |ms| == |events|
    ensures forall i :: 0 <= i < |events| ==> ms[i] == EventMarker(events[i])
  {
    if events == [] then [] else EventMarkers(events[..|events| - 1]) + [EventMarker(events[|events| - 1])]
  }

  function Path(points: seq<Row>): (p: seq<LatLng>)
    ensures |p| == |points|
    ensures forall i :: 0 <= i < |points| ==> p[i] == Coord(points[i])
  {
    if points == [] then [] else Path(points[..|points| - 1]) + [Coord(points[|points| - 1])]
  }

  /** The markers drawn for the given rows and filter. */
  function MarkersFor(rows: seq<Row>, selectedImei: string): seq<Marker> {
    var points := Points(rows);
    if points == [] then []
    else if selectedImei == "all" then StartMarkers(DedupBy(points, ImeiKey))
    else [Pin(Coord(points[0]), "Start"), Pin(Coord(points[|points| - 1]), "End")]
         + EventMarkers(Filter(points, EventPoint))
  }

  /** A first point found by `find` is the one `Set` order lists. */
  lemma {:induction false} FindFirstIsFirst(points: seq<Row>, i: int)
    requires FirstWithKey(points, ImeiKey, i)
    ensures FindFirst(points, ImeiKey(points[i])) == Some(points[i])
  {
    if i > 0 {
      assert FirstWithKey(points[1..], ImeiKey, i - 1);
      FindFirstIsFirst(points[1..], i - 1);
    }
  }

  /** Looking up each unique IMEI's first point gives the de-duplicated
      points in order. */
  lemma FindFirstOfUnique(points: seq<Row>, j: int)
    requires 0 <= j < |DedupBy(points, ImeiKey)|
    ensures FindFirst(points, UniqueImeis(points)[j]) == Some(DedupBy(points, ImeiKey)[j])
  {
    var d := DedupBy(points, ImeiKey);
    DedupByProperties(points, ImeiKey);
    assert d[j] in d;
    var i :| FirstWithKey(points, ImeiKey, i) && points[i] == d[j];
    FindFirstIsFirst(points, i);
  }

  /** "all" mode: no two markers for the same IMEI. */
  lemma AllModeDistinct(rows: seq<Row>)
    ensures var ms := MarkersFor(rows, "all");
      forall i, j :: 0 <= i < j < |ms| ==> ms[i].imei != ms[j].imei
  {
    var points := Points(rows);
    var d := DedupBy(points, ImeiKey);
    DedupByProperties(points, ImeiKey);
    var ms := MarkersFor(rows, "all");
    if points != [] {
      assert ms == StartMarkers(d);
      forall i, j | 0 <= i < j < |ms|
        ensures ms[i].imei != ms[j].imei
      {
        assert KeysOf(d, ImeiKey)[i] == ImeiKey(d[i]);
        assert KeysOf(d, ImeiKey)[j] == ImeiKey(d[j]);
      }
    }
  }

  /** "all" mode: every device with a valid point has a marker. */
  lemma AllModeCovers(rows: seq<Row>)
    ensures var ms := MarkersFor(rows, "all");
      forall r :: r in Points(rows) ==> exists i :: 0 <= i < |ms| && ms[i].imei == ImeiKey(r)
  {
    var points := Points(rows);
    var d := DedupBy(points, ImeiKey);
    DedupByProperties(points, ImeiKey);
    var ms := MarkersFor(rows, "all");
    forall r | r in points
      ensures exists i :: 0 <= i < |ms| && ms[i].imei == ImeiKey(r)
    {
      assert ms == StartMarkers(d);
      var k :| 0 <= k < |points| && points[k] == r;
      assert KeysOf(points, ImeiKey)[k] == ImeiKey(r);
      var ks := KeysOf(d, ImeiKey);
      assert ImeiKey(r) in ks;
      var i :| 0 <= i < |ks| && ks[i] == ImeiKey(r);
      assert ms[i].imei == ImeiKey(r);
    }
  }

  /** "all" mode: each marker sits at the first valid point of its device. */
  lemma AllModeFirstPoints(rows: seq<Row>)
    ensures var ms := MarkersFor(rows, "all");
      forall i :: 0 <= i < |ms| ==>
        exists k :: FirstWithKey(Points(rows), ImeiKey, k)
          && ms[i] == DeviceStart(Coord(Points(rows)[k]), ImeiKey(Points(rows)[k]))
  {
    var points := Points(rows);
    var d := DedupBy(points, ImeiKey);
    DedupByProperties(points, ImeiKey);
    var ms := MarkersFor(rows, "all");
    forall i | 0 <= i < |ms|
      ensures exists k :: FirstWithKey(points, ImeiKey, k) && ms[i] == DeviceStart(Coord(points[k]), ImeiKey(points[k]))
    {
      assert ms == StartMarkers(d);
      assert d[i] in d;
      var k :| FirstWithKey(points, ImeiKey, k) && points[k] == d[i];
    }
  }

  /** Single mode: a Start pin at the first valid point, an End pin at the
      last, then one marker per event point; so 2 + events markers. */
  lemma SingleModeMarkers(rows: seq<Row>, selectedImei: string)
    requires selectedImei != "all" && Points(rows) != []
    ensures var ms := MarkersFor(rows, selectedImei);
      var points := Points(rows);
      |ms| == 2 + |Filter(points, EventPoint)|
      && ms[0] == Pin(Coord(points[0]), "Start")
      && ms[1] == Pin(Coord(points[|points| - 1]), "End")
      && forall i :: 0 <= i < |Filter(points, EventPoint)| ==>
           ms[2 + i] == EventMarker(Filter(points, EventPoint)[i])
  {
    var points := Points(rows);
    SingleModeShape(rows, selectedImei);
    PinsThenEvents(points, Filter(points, EventPoint));
  }

  lemma SingleModeShape(rows: seq<Row>, selectedImei: string)
    requires selectedImei != "all" && Points(rows) != []
    ensures var points := Points(rows);
      MarkersFor(rows, selectedImei)
        == [Pin(Coord(points[0]), "Start"), Pin(Coord(points[|points| - 1]), "End")] + EventMarkers(Filter(points, EventPoint))
  {
  }

  lemma PinsThenEvents(points: seq<Row>, events: seq<Row>)
    requires points != []
    ensures var ms := [Pin(Coord(points[0]), "Start"), Pin(Coord(points[|points| - 1]), "End")] + EventMarkers(events);
      |ms| == 2 + |events|
      && ms[0] == Pin(Coord(points[0]), "Start")
      && ms[1] == Pin(Coord(points[|points| - 1]), "End")
      && forall i :: 0 <= i < |events| ==> ms[2 + i] == EventMarker(events[i])
  {
    var pins := [Pin(Coord(points[0]), "Start"), Pin(Coord(points[|points| - 1]), "End")];
    var tail := EventMarkers(events);
    var ms := pins + tail;
    forall i | 0 <= i < |events|
      ensures ms[2 + i] == EventMarker(events[i])
    {
      assert ms[2 + i] == tail[i];
    }
  }

  /** Only rows with a truthy, non-zero latitude and longitude are plotted. */
  lemma PlottedPointsAreValid(rows: seq<Row>)
    ensures forall r :: r in Points(rows) <==> r in rows && ValidPoint(r)
    ensures Subseq(Points(rows), rows)
  {
    FilterSubseq(rows, ValidPoint);
  }

  /** Event marker styling: each named event type has its own colour and
      icon, the three harsh events share one, anything else is grey. */
  lemma EventStyles(t: string)
    ensures t == "Ignition On" ==> EventStyle(Some(Str(t))) == ("#10b981", "🟢")
    ensures t == "Ignition Off" ==> EventStyle(Some(Str(t))) == ("#ef4444", "🔴")
    ensures t in ["Harsh Breaking", "Harsh Acceleration", "Harsh Turn"] ==> EventStyle(Some(Str(t))) == ("#f59e0b", "⚠️")
    ensures t == "SOS" ==> EventStyle(Some(Str(t))) == ("#dc2626", "🆘")
    ensures t !in ["Ignition On", "Ignition Off", "Harsh Breaking", "Harsh Acceleration", "Harsh Turn", "SOS"]
      ==> EventStyle(Some(Str(t))) == ("#94a3b8", "📍")
  {
  }

  /** The "all" mode loop: for each unique IMEI, a circle marker at the
      first point that `find` returns for it. */
  method DeviceStartMarkers(points: seq<Row>) returns (ms: seq<Marker>)
    ensures ms == StartMarkers(DedupBy(points, ImeiKey))
  {
    var imeis := UniqueImeis(points);
    ghost var firsts := DedupBy(points, ImeiKey);
    ms := [];
    for j := 0 to |imeis|
      invariant ms == StartMarkers(firsts[..j])
    {
      FindFirstOfUnique(points, j);
      var first := FindFirst(points, imeis[j]);
      if first.Some? {
        ms := ms + [DeviceStart(Coord(first.value), imeis[j])];
      }
      assert firsts[..j + 1][..j] == firsts[..j];
    }
    assert firsts[..|imeis|] == firsts;
  }

  /** The single-device markers: Start, End, then one per event point. */
  method PathMarkers(points: seq<Row>) returns (ms: seq<Marker>)
    requires points != []
    ensures ms == [Pin(Coord(points[0]), "Start"), Pin(Coord(points[|points| - 1]), "End")]
                  + EventMarkers(Filter(points, EventPoint))
  {
    ms := [Pin(Coord(points[0]), "Start")];
    ms := ms + [Pin(Coord(points[|points| - 1]), "End")];
    var events := Filter(points, EventPoint);
    for i := 0 to |events|
      invariant ms == [Pin(Coord(points[0]), "Start"), Pin(Coord(points[|points| - 1]), "End")] + EventMarkers(events[..i])
    {
      assert events[..i + 1][..i] == events[..i];
      ms := ms + [EventMarker(events[i])];
    }
    assert events[..|events|] == events;
  }

  /** The Leaflet layers the module keeps: the marker list and the polyline
      reference (which survives a clear), and whether the polyline is on
      the map. */
  class MapState {
    var hasInstance: bool
    var markers: seq<Marker>
    var polyline: Option<seq<LatLng>>
    var polylineShown: bool

    constructor ()
      ensures !hasInstance && markers == [] && polyline.None? && !polylineShown
    {
      hasInstance := false;
      markers := [];
      polyline := None;
      polylineShown := false;
    }

    /** `mapModule.render(rows)` under the current IMEI filter. */
    method Render(rows: seq<Row>, selectedImei: string)
      modifies this
      ensures hasInstance
      ensures markers == MarkersFor(rows, selectedImei)
      ensures polylineShown <==> selectedImei != "all" && Points(rows) != []
      ensures polylineShown ==> polyline == Some(Path(Points(rows)))
      ensures !polylineShown ==> polyline == old(polyline)
    {
      hasInstance := true;
      // clear the previous layers
      polylineShown := false;
      markers := [];

      var points := Points(rows);
      if points == [] {
        return;
      }

      if selectedImei == "all" {
        markers := DeviceStartMarkers(points);
      } else {
        polyline := Some(Path(points));
        polylineShown := true;
        markers := PathMarkers(points);
      }
    }
  }
}
