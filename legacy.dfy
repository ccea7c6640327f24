/**
 * The single-file client that preceded the modular one (static/script.js):
 * its closure variables and the handlers that change them.  What it shares
 * with the modular client (the device selection, the single-device distance
 * KPI, the theme cycle, the score colour) is taken from the modules that
 * model that client; what only it has is the score histogram of the
 * all-devices view and the top-five event chart with its per-device count.
 */
module Legacy {
  import opened Values
  import opened Seqs
  import Sorting
  import Tables
  import Charts
  import Theme
  import Dashboard

  // ---------------------------------------------------------------------
  // The score histogram

  /** The bar a score falls in: <50, 50-70, 70-80, 80-90, 90 and above. */
  function Bucket(score: real): (k: nat)
    ensures k < 5
  {
    if score < 50.0 then 0
    else if score < 70.0 then 1
    else if score < 80.0 then 2
    else if score < 90.0 then 3
    else 4
  }

  /** The five counters after the `forEach` has seen `scores`. */
  function Histogram(scores: seq<real>): (h: seq<int>)
    ensures |h| == 5
  {
    if scores == [] then [0, 0, 0, 0, 0]
    else
      var h := Histogram(scores[..|scores| - 1]);
      var k := Bucket(scores[|scores| - 1]);
      h[k := h[k] + 1]
  }

  function IsBucket(k: nat): real -> bool {
    (s: real) => Bucket(s) == k
  }

  /** How many scores fall in bucket `k`, counted independently. */
  function InBucket(scores: seq<real>, k: nat): nat {
    |Filter(scores, IsBucket(k))|
  }

  /** The five bars added up. */
  function Total(h: seq<int>): int
    requires |h| == 5
  {
    h[0] + h[1] + h[2] + h[3] + h[4]
  }

  /** Each score is in exactly one bucket, given by the thresholds. */
  lemma BucketRanges(score: real)
    ensures Bucket(score) == 0 <==> score < 50.0
    ensures Bucket(score) == 1 <==> 50.0 <= score < 70.0
    ensures Bucket(score) == 2 <==> 70.0 <= score < 80.0
    ensures Bucket(score) == 3 <==> 80.0 <= score < 90.0
    ensures Bucket(score) == 4 <==> 90.0 <= score
  {
  }

  /** Each bar counts the scores of its bucket. */
  lemma {:induction false} HistogramBars(scores: seq<real>)
    ensures forall k :: 0 <= k < 5 ==> Histogram(scores)[k] == InBucket(scores, k)
  {
    if scores != [] {
      var front, s := scores[..|scores| - 1], scores[|scores| - 1];
      HistogramBars(front);
      forall k | 0 <= k < 5
        ensures Histogram(scores)[k] == InBucket(scores, k)
      {
        assert Filter(scores, IsBucket(k)) == Filter(front, IsBucket(k)) + (if Bucket(s) == k then [s] else []);
      }
    }
  }

  /** The bars add up to the number of scores. */
  lemma {:induction false} HistogramTotal(scores: seq<real>)
    ensures Total(Histogram(scores)) == |scores|
  {
    if scores != [] {
      HistogramTotal(scores[..|scores| - 1]);
    }
  }

  /** The histogram loop over a five-slot array. */
  method ScoreHistogram(scores: seq<real>) returns (hist: array<int>)
    ensures fresh(hist) && hist.Length == 5
    ensures hist[..] == Histogram(scores)
  {
    hist := new int[5](_ => 0);
    assert hist[..] == [0, 0, 0, 0, 0];
    for i := 0 to |scores|
      invariant hist[..] == Histogram(scores[..i])
    {
      assert scores[..i + 1][..i] == scores[..i];
      var k := Bucket(scores[i]);
      hist[k] := hist[k] + 1;
    }
    assert scores[..|scores|] == scores;
  }

  // ---------------------------------------------------------------------
  // Event counts and the top five

  /** An event object's entries in insertion order: type and count. */
  type Counts = seq<(string, int)>

  /** JavaScript's property key of an event type (strings are their own
      key). */
  type PropertyKey = Value -> string

  /** `events[k] = (events[k] || 0) + 1`. */
  function Bump(events: Counts, k: string): Counts {
    if events == [] then [(k, 1)]
    else if events[0].0 == k then [(k, events[0].1 + 1)] + events[1..]
    else [events[0]] + Bump(events[1..], k)
  }

  /** The count stored under `k`, 0 when absent. */
  function CountIn(events: Counts, k: string): int {
    if events == [] then 0
    else if events[0].0 == k then events[0].1
    else CountIn(events[1..], k)
  }

  /** The keys of the event object. */
  function Types(events: Counts): set<string> {
    if events == [] then {} else {events[0].0} + Types(events[1..])
  }

  /** Each type is listed once. */
  predicate DistinctTypes(events: Counts) {
    events == [] || (events[0].0 !in Types(events[1..]) && DistinctTypes(events[1..]))
  }

  function EventType(r: Row): Value {
    OrNull(Get(r, "event_type"))
  }

  /** The rows counted for one device: its rows with a truthy event type. */
  function DeviceEventRows(raw: seq<Row>, imei: string): seq<Row> {
    Filter(raw, (r: Row) => Get(r, "imei") == Some(Str(imei)) && Truthy(Get(r, "event_type")))
  }

  /** The event object after the `forEach` has seen `rows`. */
  function Tally(rows: seq<Row>, key: PropertyKey): Counts {
    if rows == [] then []
    else Bump(Tally(rows[..|rows| - 1], key), key(EventType(rows[|rows| - 1])))
  }

  /** How many of `rows` have an event type whose key is `k`. */
  function Occurrences(rows: seq<Row>, key: PropertyKey, k: string): nat {
    |Filter(rows, TypeIs(key, k))|
  }

  function TypeIs(key: PropertyKey, k: string): Row -> bool {
    (r: Row) => key(EventType(r)) == k
  }

  method CountEvents(raw: seq<Row>, imei: string, key: PropertyKey) returns (events: Counts)
    ensures events == Tally(DeviceEventRows(raw, imei), key)
  {
    var rows := DeviceEventRows(raw, imei);
    events := [];
    for i := 0 to |rows|
      invariant events == Tally(rows[..i], key)
    {
      TallyStep(rows, i, key);
      events := Bump(events, key(EventType(rows[i])));
    }
    assert rows[..|rows|] == rows;
  }

  /** One more row bumps its event type's key. */
  lemma TallyStep(rows: seq<Row>, i: nat, key: PropertyKey)
    requires i < |rows|
    ensures Tally(rows[..i + 1], key) == Bump(Tally(rows[..i], key), key(EventType(rows[i])))
  {
    assert rows[..i + 1][..i] == rows[..i];
  }

  /** Bumping adds one under `k` and leaves every other count alone. */
  lemma {:induction false} BumpCount(events: Counts, k: string, k': string)
    ensures CountIn(Bump(events, k), k') == CountIn(events, k') + (if k' == k then 1 else 0)
  {
    if events != [] && events[0].0 != k {
      BumpCount(events[1..], k, k');
    }
  }

  /** Bumping adds `k` to the keys, and nothing else. */
  lemma {:induction false} BumpTypes(events: Counts, k: string)
    ensures Types(Bump(events, k)) == Types(events) + {k}
  {
    if events != [] && events[0].0 != k {
      BumpTypes(events[1..], k);
    }
  }

  /** Bumping keeps each type listed once. */
  lemma BumpDistinct(events: Counts, k: string)
    requires DistinctTypes(events)
    ensures DistinctTypes(Bump(events, k))
  {
    if events != [] && events[0].0 != k {
      BumpTypes(events[1..], k);
      BumpDistinct(events[1..], k);
    }
  }

  lemma {:induction false} OccurrencesSnoc(rows: seq<Row>, key: PropertyKey, k: string)
    requires rows != []
    ensures Occurrences(rows, key, k)
         == Occurrences(rows[..|rows| - 1], key, k) + (if key(EventType(rows[|rows| - 1])) == k then 1 else 0)
  {
  }

  /** The single-device event object counts, under each type, exactly the
      device's rows with a truthy event type of that type. */
  lemma {:induction false} TallyCounts(rows: seq<Row>, key: PropertyKey, k: string)
    ensures CountIn(Tally(rows, key), k) == Occurrences(rows, key, k)
  {
    if rows != [] {
      var front := rows[..|rows| - 1];
      TallyCounts(front, key, k);
      BumpCount(Tally(front, key), key(EventType(rows[|rows| - 1])), k);
      OccurrencesSnoc(rows, key, k);
    }
  }

  /** The event object lists each type once, and exactly the types that
      occur among the rows. */
  lemma {:induction false} TallyTypes(rows: seq<Row>, key: PropertyKey)
    ensures DistinctTypes(Tally(rows, key))
    ensures forall k :: k in Types(Tally(rows, key)) <==> Occurrences(rows, key, k) > 0
  {
    if rows != [] {
      var front, t := rows[..|rows| - 1], key(EventType(rows[|rows| - 1]));
      TallyTypes(front, key);
      BumpTypes(Tally(front, key), t);
      BumpDistinct(Tally(front, key), t);
      forall k
        ensures k in Types(Tally(rows, key)) <==> Occurrences(rows, key, k) > 0
      {
        OccurrencesSnoc(rows, key, k);
      }
    }
  }

  /** `(a, b) => b[1] - a[1]`: larger counts first. */
  function ByCountDesc(a: (string, int), b: (string, int)): int {
    b.1 - a.1
  }

  function Min(a: int, b: int): int {
    if a < b then a else b
  }

  /** `Object.entries(events).sort(ByCountDesc).slice(0, 5)`. */
  function TopEvents(events: Counts): Counts {
    var sorted := Sorting.InsertionSort(events, ByCountDesc);
    Sorting.InsertionSortPermutation(events, ByCountDesc);
    assert |sorted| == |events| by {
      assert |multiset(sorted)| == |multiset(events)|;
    }
    sorted[..Min(5, |sorted|)]
  }

  lemma ByCountConsistent(events: Counts)
    ensures Sorting.Consistent(events, ByCountDesc)
  {
  }

  /** The chart shows the five largest counts, largest first: at most five
      entries, each an entry of the event object, in non-increasing order,
      and no entry left out has a larger count than one shown. */
  lemma TopFive(events: Counts)
    ensures |TopEvents(events)| == Min(5, |events|)
    ensures forall i, j :: 0 <= i < j < |TopEvents(events)| ==> TopEvents(events)[i].1 >= TopEvents(events)[j].1
    ensures multiset(TopEvents(events)) <= multiset(events)
    ensures var sorted := Sorting.InsertionSort(events, ByCountDesc);
            multiset(sorted) == multiset(events)
            && TopEvents(events) == sorted[..|TopEvents(events)|]
            && forall i, j :: 0 <= i < |TopEvents(events)| <= j < |sorted| ==> sorted[j].1 <= sorted[i].1
  {
    var sorted := Sorting.InsertionSort(events, ByCountDesc);
    Sorting.InsertionSortPermutation(events, ByCountDesc);
    ByCountConsistent(events);
    Sorting.InsertionSortSorted(events, ByCountDesc);
    assert |sorted| == |events| by {
      assert |multiset(sorted)| == |multiset(events)|;
    }
    var top := TopEvents(events);
    assert top == sorted[..Min(5, |sorted|)];
    assert sorted == top + sorted[|top|..];
    assert multiset(sorted) == multiset(top) + multiset(sorted[|top|..]);
  }

  /** The events the chart draws from: the server's summary for all
      devices, the device's own count otherwise. */
  function EventSource(eventsSummary: Counts, raw: seq<Row>, imei: string, key: PropertyKey): Counts {
    if imei == "all" then eventsSummary else Tally(DeviceEventRows(raw, imei), key)
  }

  // ---------------------------------------------------------------------
  // The view refresh

  /** The server's result as this client reads it. */
  datatype Result = Result(
    summary: Row,
    scorecard: seq<Row>,
    stats: seq<Row>,
    raw: seq<Row>,
    scores: seq<real>,
    eventsSummary: Counts)

  /** The score chart: the histogram bars, or the device's score. */
  datatype ScoreChart = Bars(counts: seq<int>) | ScoreBar(score: Value)

  /** What the handlers write into the page. */
  datatype View = View(
    kpiScore: Option<Value>,
    kpiDevices: Option<Value>,
    kpiRecords: Option<Value>,
    kpiDistance: Option<Dashboard.Distance>,
    scoreColour: Option<string>,
    scoreChart: Option<ScoreChart>,
    eventChart: Counts,
    scorecard: seq<Row>,
    stats: seq<Row>,
    raw: seq<Row>,
    filterOptions: seq<Option<Value>>,
    filterValue: string)

  const BlankView := View(None, None, None, None, None, None, [], [], [], [], [], "all")

  /** The single-device score and record KPIs: the device's first
      scorecard row, or `{}`; a missing or falsy value shows "--" for the
      score and 0 for the records. */
  function DeviceScore(scorecard: seq<Row>, imei: string): Value {
    OrElse(Get(Dashboard.FirstOrEmpty(Tables.SelectDevice(scorecard, imei)), "Puntaje_Calidad"), Str("--"))
  }

  function DeviceRecords(scorecard: seq<Row>, imei: string): Value {
    OrElse(Get(Dashboard.FirstOrEmpty(Tables.SelectDevice(scorecard, imei)), "Total_Reportes"), Num(0.0))
  }

  /** The single-device distance, from the device's first stats row; None
      when `toFixed` throws. */
  function DeviceDistance(stats: seq<Row>, imei: string): Option<Dashboard.Distance> {
    Dashboard.SingleDistance(Dashboard.FirstOrEmpty(Tables.SelectDevice(stats, imei)))
  }

  /** The cells `renderScorecardTable` formats with `toFixed`; the stats
      table formats the same cells as the modular client's. */
  const ScorecardFixed: seq<string> :=
    ["Odometro_Tasa_OK", "CANBUS_Tasa_Reporte", "LastFixTime_Tasa_OK",
     "Distancia_Recorrida_(KM)", "Ignition_On_Off_Balance"]

  /** The refresh throws: at the distance KPI, whose KPIs before it are
      written and nothing after it, or at a formatted cell of the scorecard
      or stats table, after the charts are drawn. */
  predicate Aborts(d: Result, imei: string) {
    (imei != "all" && DeviceDistance(d.stats, imei).None?)
    || Tables.RowsThrow(Tables.SelectDevice(d.scorecard, imei), ScorecardFixed)
    || Tables.RowsThrow(Tables.SelectDevice(d.stats, imei), Tables.StatsFixed)
  }

  /** The tables after the charts: the scorecard table, the stats table,
      then the raw table, each drawn only when the one before it did not
      throw; a table whose body throws keeps its rows.  `renderRawTable`
      returns early on no rows, so an empty sample selection leaves the raw
      table as it was. */
  function DrawTables(d: Result, imei: string, v: View): View {
    var scorecard, stats := Tables.SelectDevice(d.scorecard, imei), Tables.SelectDevice(d.stats, imei);
    var raw := Tables.SelectDevice(d.raw, imei);
    if Tables.RowsThrow(scorecard, ScorecardFixed) then v
    else if Tables.RowsThrow(stats, Tables.StatsFixed) then v.(scorecard := scorecard)
    else v.(scorecard := scorecard, stats := stats, raw := if raw == [] then v.raw else raw)
  }

  /** The page after `updateDashboardView()` with `d` loaded, as far as
      the refresh gets. */
  function Refreshed(d: Result, imei: string, key: PropertyKey, v: View): View {
    if imei == "all" then
      DrawTables(d, imei,
        v.(kpiScore := Get(d.summary, "average_quality_score"),
           kpiDevices := Get(d.summary, "total_devices"),
           kpiRecords := Get(d.summary, "total_records"),
           kpiDistance := Some(Dashboard.Localized(Get(d.summary, "total_distance_km"))),
           scoreChart := Some(Bars(Histogram(d.scores))),
           eventChart := TopEvents(d.eventsSummary)))
    else
      var partial := v.(kpiScore := Some(DeviceScore(d.scorecard, imei)),
                        kpiDevices := Some(Str("1")),
                        kpiRecords := Some(DeviceRecords(d.scorecard, imei)));
      match DeviceDistance(d.stats, imei)
      case None => partial
      case Some(distance) =>
        var sc := Charts.FindByImei(d.scorecard, imei);
        DrawTables(d, imei,
          partial.(kpiDistance := Some(distance),
                   scoreChart := Some(ScoreBar(OrElse(if sc.Some? then Get(sc.value, "Puntaje_Calidad") else None, Num(0.0)))),
                   eventChart := TopEvents(Tally(DeviceEventRows(d.raw, imei), key))))
  }

  /** Once the charts are drawn, the tables are drawn in order until one
      throws: a scorecard that throws leaves all three tables as they were,
      a stats table that throws leaves the stats and raw tables, and a
      refresh that does not abort shows the selection in all three, except
      that a raw table with no selected sample row keeps its earlier rows. */
  lemma TablesInOrder(d: Result, imei: string, key: PropertyKey, v: View)
    requires !(imei != "all" && DeviceDistance(d.stats, imei).None?)
    ensures var w, sc, st := Refreshed(d, imei, key, v), Tables.SelectDevice(d.scorecard, imei), Tables.SelectDevice(d.stats, imei);
      (Tables.RowsThrow(sc, ScorecardFixed) ==> w.scorecard == v.scorecard && w.stats == v.stats && w.raw == v.raw)
      && (!Tables.RowsThrow(sc, ScorecardFixed) && Tables.RowsThrow(st, Tables.StatsFixed) ==>
            w.scorecard == sc && w.stats == v.stats && w.raw == v.raw)
      && (!Aborts(d, imei) ==> w.scorecard == sc && w.stats == st)
      && (!Aborts(d, imei) && Tables.SelectDevice(d.raw, imei) != [] ==> w.raw == Tables.SelectDevice(d.raw, imei))
      && (!Aborts(d, imei) && Tables.SelectDevice(d.raw, imei) == [] ==> w.raw == v.raw)
  {
  }

  /** A device selection restricts the scorecard, the stats and the raw
      sample alike: each table shows, in order, exactly the rows whose IMEI
      is the selected string.  A device with no row in the sample leaves
      the raw table showing what it showed before. */
  lemma FilterRestricts(d: Result, imei: string, key: PropertyKey, v: View)
    requires imei != "all" && !Aborts(d, imei)
    ensures var w := Refreshed(d, imei, key, v);
            Subseq(w.scorecard, d.scorecard) && Subseq(w.stats, d.stats)
            && (forall r :: r in w.scorecard <==> r in d.scorecard && Get(r, "imei") == Some(Str(imei)))
            && (forall r :: r in w.stats <==> r in d.stats && Get(r, "imei") == Some(Str(imei)))
            && ((exists r :: r in d.raw && Get(r, "imei") == Some(Str(imei))) ==>
                  Subseq(w.raw, d.raw) && (forall r :: r in w.raw <==> r in d.raw && Get(r, "imei") == Some(Str(imei))))
            && ((forall r :: r in d.raw ==> Get(r, "imei") != Some(Str(imei))) ==> w.raw == v.raw)
  {
    Tables.SelectDeviceRows(d.scorecard, imei);
    Tables.SelectDeviceRows(d.stats, imei);
    Tables.SelectDeviceRows(d.raw, imei);
    TablesInOrder(d, imei, key, v);
    NoSampleRow(d.raw, imei);
  }

  /** The sample selection of a device is empty exactly when no sample
      row carries its IMEI. */
  lemma NoSampleRow(raw: seq<Row>, imei: string)
    requires imei != "all"
    ensures Tables.SelectDevice(raw, imei) == [] <==> forall r :: r in raw ==> Get(r, "imei") != Some(Str(imei))
  {
    Tables.SelectDeviceRows(raw, imei);
    var sel := Tables.SelectDevice(raw, imei);
    if sel != [] {
      assert sel[0] in raw && Get(sel[0], "imei") == Some(Str(imei));
    }
  }

  /** A device that has scorecard and stats rows but no row in the sample
      (its records all come after the first 1000): selecting it leaves the
      raw table showing another device's rows. */
  lemma DeviceOutsideSample(key: PropertyKey)
    ensures var a, b := [("imei", Str("A"))], [("imei", Str("B")), ("Distancia_Recorrida_(KM)", Num(1.0))];
            var d := Result([], [b], [b], [a], [], []);
            !Aborts(d, "B") && Refreshed(d, "B", key, BlankView.(raw := [a])).raw == [a]
  {
    var a, b := [("imei", Str("A"))], [("imei", Str("B")), ("Distancia_Recorrida_(KM)", Num(1.0))];
    var d := Result([], [b], [b], [a], [], []);
    OutsideSampleSelects(a, b);
    OutsideSampleFormats(b);
    TablesInOrder(d, "B", key, BlankView.(raw := [a]));
  }

  /** The selections behind `DeviceOutsideSample`: B has a scorecard and
      stats row and no sample row. */
  lemma OutsideSampleSelects(a: Row, b: Row)
    requires a == [("imei", Str("A"))] && b == [("imei", Str("B")), ("Distancia_Recorrida_(KM)", Num(1.0))]
    ensures Tables.SelectDevice([b], "B") == [b] && Tables.SelectDevice([a], "B") == []
  {
    assert Get(a, "imei") != Some(Str("B"));
    assert Get(b, "imei") == Some(Str("B"));
    FilterCons([b], Tables.ImeiIs("B"));
    FilterCons([a], Tables.ImeiIs("B"));
  }

  /** B's row has a distance, and every cell the two tables format is
      missing or a number. */
  lemma OutsideSampleFormats(b: Row)
    requires b == [("imei", Str("B")), ("Distancia_Recorrida_(KM)", Num(1.0))]
    ensures Dashboard.SingleDistance(b).Some?
    ensures !Tables.RowsThrow([b], ScorecardFixed) && !Tables.RowsThrow([b], Tables.StatsFixed)
  {
    assert Get(b, "Distancia_Recorrida_(KM)") == Some(Num(1.0));
    forall k | 0 <= k < |Tables.StatsFixed|
      ensures !Tables.FixedThrows(b, Tables.StatsFixed[k])
    {
    }
    forall k | 0 <= k < |ScorecardFixed|
      ensures !Tables.FixedThrows(b, ScorecardFixed[k])
    {
    }
  }

  /** A device without a scorecard row shows "--" as its score and 0
      records. */
  lemma NoScorecardRow(scorecard: seq<Row>, imei: string)
    requires imei != "all"
    requires forall i :: 0 <= i < |scorecard| ==> Get(scorecard[i], "imei") != Some(Str(imei))
    ensures DeviceScore(scorecard, imei) == Str("--") && DeviceRecords(scorecard, imei) == Num(0.0)
  {
    NoneSelected(scorecard, imei);
  }

  /** A device without a stats row shows a distance of 0. */
  lemma NoStatsRow(stats: seq<Row>, imei: string)
    requires imei != "all"
    requires forall i :: 0 <= i < |stats| ==> Get(stats[i], "imei") != Some(Str(imei))
    ensures DeviceDistance(stats, imei) == Some(Dashboard.ZeroDistance)
  {
    NoneSelected(stats, imei);
  }

  /** By the same `||`, a device whose score is exactly 0 shows "--". */
  lemma ZeroScoreShowsDashes(scorecard: seq<Row>, imei: string)
    requires Tables.SelectDevice(scorecard, imei) != []
    requires Get(Tables.SelectDevice(scorecard, imei)[0], "Puntaje_Calidad") == Some(Num(0.0))
    ensures DeviceScore(scorecard, imei) == Str("--")
  {
  }

  lemma {:induction false} NoneSelected(rows: seq<Row>, imei: string)
    requires imei != "all"
    requires forall i :: 0 <= i < |rows| ==> Get(rows[i], "imei") != Some(Str(imei))
    ensures Tables.SelectDevice(rows, imei) == []
  {
    if rows != [] {
      NoneSelected(rows[..|rows| - 1], imei);
    }
  }

  /** The per-device event chart counts the device's rows: the count under
      each type it shows is the number of the device's rows with a truthy
      event type of that type. */
  lemma DeviceEventChart(d: Result, imei: string, key: PropertyKey, v: View)
    requires imei != "all" && !Aborts(d, imei)
    ensures var rows := DeviceEventRows(d.raw, imei);
            var shown := Refreshed(d, imei, key, v).eventChart;
            |shown| <= 5
            && forall i :: 0 <= i < |shown| ==> shown[i].1 == Occurrences(rows, key, shown[i].0) > 0
  {
    var rows := DeviceEventRows(d.raw, imei);
    var events := Tally(rows, key);
    TallyTypes(rows, key);
    TopFive(events);
    var shown := TopEvents(events);
    forall i | 0 <= i < |shown|
      ensures shown[i].1 == Occurrences(rows, key, shown[i].0) > 0
    {
      assert shown[i] in multiset(events);
      var j :| 0 <= j < |events| && events[j] == shown[i];
      DistinctCount(events, j);
      TypesListed(events, j);
      TallyCounts(rows, key, events[j].0);
    }
  }

  /** In an object with distinct types, the count stored at an entry is
      the count under its type. */
  lemma {:induction false} DistinctCount(events: Counts, j: nat)
    requires DistinctTypes(events) && j < |events|
    ensures CountIn(events, events[j].0) == events[j].1
  {
    if j > 0 {
      TypesListed(events[1..], j - 1);
      DistinctCount(events[1..], j - 1);
    }
  }

  lemma {:induction false} TypesListed(events: Counts, j: nat)
    requires j < |events|
    ensures events[j].0 in Types(events)
  {
    if j > 0 {
      TypesListed(events[1..], j - 1);
    }
  }

  // ---------------------------------------------------------------------
  // The closure state

  class Monolith {
    var currentData: Option<Result>
    var selectedImei: string
    var currentTheme: string
    var storedTheme: Option<string>
    var view: View

    /** The page load: theme from storage (or "auto"), no data, every
        device. */
    constructor (stored: Option<string>)
      ensures currentData.None? && selectedImei == "all" && view == BlankView
      ensures currentTheme == Theme.InitialTheme(stored) && storedTheme == stored
    {
      currentData := None;
      selectedImei := "all";
      currentTheme := Theme.InitialTheme(stored);
      storedTheme := stored;
      view := BlankView;
    }

    /** The theme button: the next theme in the cycle, stored. */
    method ToggleTheme()
      modifies this
      ensures currentTheme == Theme.NextTheme(old(currentTheme)) && storedTheme == Some(currentTheme)
      ensures currentData == old(currentData) && selectedImei == old(selectedImei) && view == old(view)
    {
      var currentIndex := Theme.IndexOf(Theme.Themes, currentTheme);
      var nextIndex := (currentIndex + 1) % |Theme.Themes|;
      currentTheme := Theme.Themes[nextIndex];
      storedTheme := Some(currentTheme);
    }

    /** `updateDashboardView()`: nothing without data. */
    method UpdateDashboardView(key: PropertyKey)
      modifies this
      ensures currentData == old(currentData) && selectedImei == old(selectedImei)
      ensures currentTheme == old(currentTheme) && storedTheme == old(storedTheme)
      ensures view == if currentData.None? then old(view) else Refreshed(currentData.value, selectedImei, key, old(view))
    {
      if currentData.None? {
        return;
      }
      var d := currentData.value;
      if selectedImei == "all" {
        var hist := ScoreHistogram(d.scores);
        view := view.(kpiScore := Get(d.summary, "average_quality_score"),
                      kpiDevices := Get(d.summary, "total_devices"),
                      kpiRecords := Get(d.summary, "total_records"),
                      kpiDistance := Some(Dashboard.Localized(Get(d.summary, "total_distance_km"))),
                      scoreChart := Some(Bars(hist[..])),
                      eventChart := TopEvents(d.eventsSummary));
      } else {
        view := view.(kpiScore := Some(DeviceScore(d.scorecard, selectedImei)),
                      kpiDevices := Some(Str("1")),
                      kpiRecords := Some(DeviceRecords(d.scorecard, selectedImei)));
        var distance := DeviceDistance(d.stats, selectedImei);
        if distance.None? {
          return;
        }
        var sc := Charts.FindByImei(d.scorecard, selectedImei);
        var events := CountEvents(d.raw, selectedImei, key);
        view := view.(kpiDistance := distance,
                      scoreChart := Some(ScoreBar(OrElse(if sc.Some? then Get(sc.value, "Puntaje_Calidad") else None, Num(0.0)))),
                      eventChart := TopEvents(events));
      }
      var scorecard := Tables.SelectDevice(d.scorecard, selectedImei);
      var threw := Tables.FormatRows(scorecard, ScorecardFixed);
      if threw {
        return;
      }
      view := view.(scorecard := scorecard);
      var stats := Tables.SelectDevice(d.stats, selectedImei);
      threw := Tables.FormatRows(stats, Tables.StatsFixed);
      if threw {
        return;
      }
      view := view.(stats := stats);
      var raw := Tables.SelectDevice(d.raw, selectedImei);
      if raw != [] {
        view := view.(raw := raw);
      }
    }

    /** The filter's change handler: the chosen value is kept as is and the
        view refreshed. */
    method OnFilterChange(value: string, key: PropertyKey)
      modifies this
      ensures selectedImei == value && currentData == old(currentData)
      ensures view == if currentData.None? then old(view) else Refreshed(currentData.value, value, key, old(view))
    {
      selectedImei := value;
      UpdateDashboardView(key);
    }

    /** `renderDashboard(data)`: the summary KPIs and colour, one filter
        option per stats row, the filter shown as "all", the data kept, the
        view refreshed.  `selectedImei` itself is left as it was. */
    method RenderDashboard(data: Result, key: PropertyKey)
      modifies this
      ensures currentData == Some(data) && selectedImei == old(selectedImei)
      ensures var shown := old(view).(
                kpiScore := Get(data.summary, "average_quality_score"),
                kpiDevices := Get(data.summary, "total_devices"),
                kpiRecords := Get(data.summary, "total_records"),
                kpiDistance := Some(Dashboard.Localized(Get(data.summary, "total_distance_km"))),
                scoreColour := Some(Dashboard.ScoreColour(Get(data.summary, "average_quality_score"))),
                filterOptions := seq(|data.stats|, i requires 0 <= i < |data.stats| => Get(data.stats[i], "imei")),
                filterValue := "all");
              view == Refreshed(data, old(selectedImei), key, shown)
    {
      view := view.(kpiScore := Get(data.summary, "average_quality_score"),
                    kpiDevices := Get(data.summary, "total_devices"),
                    kpiRecords := Get(data.summary, "total_records"),
                    kpiDistance := Some(Dashboard.Localized(Get(data.summary, "total_distance_km"))),
                    scoreColour := Some(Dashboard.ScoreColour(Get(data.summary, "average_quality_score"))),
                    filterOptions := seq(|data.stats|, i requires 0 <= i < |data.stats| => Get(data.stats[i], "imei")),
                    filterValue := "all");
      currentData := Some(data);
      UpdateDashboardView(key);
    }
  }

  /** Loading a result while a device is selected: the filter reads "all"
      but the tables stay restricted to the earlier device.  When the new
      sample has no row of that device, the raw table still shows the rows
      it showed before, those of the earlier analysis. */
  lemma RenderKeepsSelection(data: Result, imei: string, key: PropertyKey, v: View)
    requires imei != "all" && !Aborts(data, imei)
    ensures Refreshed(data, imei, key, v.(filterValue := "all")).filterValue == "all"
    ensures Tables.SelectDevice(data.raw, imei) != [] ==>
      Refreshed(data, imei, key, v.(filterValue := "all")).raw == Tables.SelectDevice(data.raw, imei)
    ensures Tables.SelectDevice(data.raw, imei) == [] ==>
      Refreshed(data, imei, key, v.(filterValue := "all")).raw == v.raw
  {
  }
}
