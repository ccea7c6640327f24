/**
 * The browser client's view state (`app.state`) and the handlers that
 * change it: loading a result into the dashboard, the IMEI filter, the
 * view refresh that derives KPIs, charts and table rows from the loaded
 * analysis, telemetry paging, table sorting, CSV export, the upload and
 * the end of a tracked job.
 *
 * Network answers and the chosen file are parameters of the handlers; the
 * DOM is reduced to the values the handlers write into it (`Screen`).
 */
module Dashboard {
  import opened Values
  import opened Seqs
  import Tables
  import Charts
  import MapView
  import JobTracking

  datatype TableId = ScorecardTable | StatsTable

  /** `app.state`, less the theme and language (see module Theme). */
  datatype State = State(
    currentData: Option<Analysis>,
    currentAnalysisId: Option<Value>,
    selectedImei: string,
    rawPage: int,
    rawPerPage: int,
    rawPages: int,
    rawTotal: int,
    tableSorts: map<TableId, Tables.SortState>)

  const UnsortedTables: map<TableId, Tables.SortState> :=
    map[ScorecardTable := Tables.Unsorted, StatsTable := Tables.Unsorted]

  const InitialState := State(None, None, "all", 1, 100, 1, 0, UnsortedTables)

  /** What the distance KPI shows: the summary total (locale formatting is
      not modelled), a device's distance to two decimals, or 0. */
  datatype Distance = Localized(total: Option<Value>) | Fixed2(km: real) | ZeroDistance

  /** The values the handlers write into the page. A KPI is None until the
      first render writes it; `radar` and `eventBars` are the data of the
      drawn charts, [] while no chart is drawn (before the first render and
      once a refresh has destroyed them); `tables` holds the rows each table
      shows (its sort handlers sort exactly these). */
  datatype Screen = Screen(
    kpiScore: Option<Value>,
    kpiDevices: Option<Value>,
    kpiRecords: Option<Value>,
    kpiDistance: Option<Distance>,
    scoreColour: Option<string>,
    radar: seq<Value>,
    eventBars: seq<Value>,
    tables: map<TableId, seq<Row>>,
    filterOptions: seq<Option<Value>>,
    filterValue: string,
    dashboardShown: bool)

  const InitialScreen := Screen(None, None, None, None, None, [], [],
    map[ScorecardTable := [], StatsTable := []], [], "all", false)

  /** `loadTelemetryPage(id, page, perPage, imei)` as the request it sends. */
  datatype PageRequest = PageRequest(analysisId: Value, page: int, perPage: int, imei: Option<string>)

  /** What arrives for a telemetry page: the server's cursor and rows, or a
      failure (HTTP error, unreadable body). */
  datatype PageResponse = PageOk(page: int, pages: int, total: int, rows: Option<seq<Row>>) | PageFailed

  /** The alerts the handlers raise. */
  datatype Alert =
    | NotJsonFile                          // "Please upload a JSON file."
    | UploadError(reason: Value)           // "Error processing file: " + reason
    | UploadRenderError                    // the same, with the message of the TypeError the render threw
    | LoadError(message: string)           // "Error loading result: " + message
    | LoadRenderError                      // the same, with the message of the TypeError the render threw
    | JobAlert(outcome: JobTracking.Outcome)
    | NothingToExport                      // "No data to export"

  /** The upload answer: 202 with a job, an HTTP error with its JSON body's
      `error` field (None if absent or unreadable), a processed result with
      its id, or a fetch that threw. */
  datatype UploadResponse =
    | Accepted(jobId: Value)
    | HttpError(error: Option<Value>)
    | Processed(data: Value, id: Option<Value>)
    | Unreachable(reason: string)

  /** `GET /api/result/<id>`: the parsed document, or the error's message. */
  datatype LoadResponse = Loaded(data: Value) | LoadFailed(message: string)

  // ---------------------------------------------------------------------
  // The view refresh, as functions of the state

  /** The `imei` parameter: omitted when the filter is empty or "all". */
  function ImeiParam(imei: string): (p: Option<string>)
    ensures p.None? <==> imei == "" || imei == "all"
    ensures p.Some? ==> p.value == imei
  {
    if imei != "" && imei != "all" then Some(imei) else None
  }

  function FirstOrEmpty(rows: seq<Row>): Row {
    if rows == [] then [] else rows[0]
  }

  /** `stat['Distancia_Recorrida_(KM)']?.toFixed(2) || 0`; None where
      `toFixed` is not a function of the value, so the refresh throws. */
  function SingleDistance(stat: Row): (d: Option<Distance>)
    ensures d.None? <==> !Nullish(Get(stat, "Distancia_Recorrida_(KM)")) && !Get(stat, "Distancia_Recorrida_(KM)").value.Num?
  {
    var v := Get(stat, "Distancia_Recorrida_(KM)");
    if Nullish(v) then Some(ZeroDistance)
    else if v.value.Num? then Some(Fixed2(v.value.n))
    else None
  }

  /** Drawing the scorecard table, then the stats table, throws at a
      formatted cell of one of the rows. */
  predicate TablesThrow(rows: seq<Row>) {
    Tables.RowsThrow(rows, Tables.ScorecardFixed) || Tables.RowsThrow(rows, Tables.StatsFixed)
  }

  /** The view refresh throws: at the distance KPI's `toFixed`, when the
      charts read an axis of a missing data-quality part, or at a
      formatted cell of either table. */
  predicate Aborts(s: State)
    requires s.currentData.Some?
  {
    var rows := Tables.SelectDevice(s.currentData.value.scorecard, s.selectedImei);
    (s.selectedImei != "all" && SingleDistance(FirstOrEmpty(rows)).None?)
    || s.currentData.value.dataQuality.None?
    || TablesThrow(rows)
  }

  /** The score, device and record KPIs `updateDashboardView` writes first:
      from the summary under "all", from the device's first row otherwise. */
  function Kpis(s: State, screen: Screen): Screen
    requires s.currentData.Some?
  {
    var d := s.currentData.value;
    var sc := FirstOrEmpty(Tables.SelectDevice(d.scorecard, s.selectedImei));
    if s.selectedImei == "all" then
      screen.(kpiScore := Get(d.summary, "average_quality_score"),
              kpiDevices := Get(d.summary, "total_devices"),
              kpiRecords := Get(d.summary, "total_records"),
              kpiDistance := Some(Localized(Get(d.summary, "total_distance_km"))))
    else
      screen.(kpiScore := Some(OrElse(Get(sc, "Puntaje_Calidad"), Str("--"))),
              kpiDevices := Some(Str("1")),
              kpiRecords := Some(OrElse(Get(sc, "Total_Reportes"), Num(0.0))))
  }

  /** The page after `updateDashboardView` with data loaded: the KPIs, then
      the charts and both tables, as far as the refresh gets. The charts
      are destroyed before the data-quality part is read; a table whose
      body throws keeps its rows. */
  function Refresh(s: State, screen: Screen): Screen
    requires s.currentData.Some?
  {
    var d := s.currentData.value;
    var rows := Tables.SelectDevice(d.scorecard, s.selectedImei);
    var kpis := Kpis(s, screen);
    var distance := SingleDistance(FirstOrEmpty(rows));
    if s.selectedImei != "all" && distance.None? then kpis
    else
      var shown := if s.selectedImei == "all" then kpis else kpis.(kpiDistance := distance);
      if d.dataQuality.None? then shown.(radar := [], eventBars := [])
      else
        var charted := shown.(radar := Charts.RadarData(d.dataQuality.value),
                              eventBars := Charts.EventVector(d.eventsSummary, d.scorecard, s.selectedImei));
        if Tables.RowsThrow(rows, Tables.ScorecardFixed) then charted
        else if Tables.RowsThrow(rows, Tables.StatsFixed) then charted.(tables := charted.tables[ScorecardTable := rows])
        else charted.(tables := map[ScorecardTable := rows, StatsTable := rows])
  }

  /** The state, the page and the telemetry requests sent so far. */
  datatype View = View(state: State, screen: Screen, requests: seq<PageRequest>)

  /** `updateDashboardView`: nothing without data; otherwise the refreshed
      page, and, when the refresh does not throw and there is an analysis
      id, page 1 requested again. */
  function Updated(s: State, screen: Screen, reqs: seq<PageRequest>): View {
    if s.currentData.None? then View(s, screen, reqs)
    else if Aborts(s) || !Truthy(s.currentAnalysisId) then View(s, Refresh(s, screen), reqs)
    else View(s.(rawPage := 1), Refresh(s, screen),
              reqs + [PageRequest(s.currentAnalysisId.value, 1, s.rawPerPage, ImeiParam(s.selectedImei))])
  }

  /** `updateDashboardView` as a relation between the state, page and
      request log before (s, screen, reqs) and after (s', screen', reqs'). */
  predicate ViewUpdated(s: State, screen: Screen, reqs: seq<PageRequest>,
                        s': State, screen': Screen, reqs': seq<PageRequest>) {
    Updated(s, screen, reqs) == View(s', screen', reqs')
  }

  /** The first row of the filtered view is the row `find` returns, so the
      KPIs and the event chart describe the same scorecard row. */
  lemma {:induction false} FirstOfSelection(rows: seq<Row>, imei: string)
    ensures var v := Filter(rows, Tables.ImeiIs(imei));
      (v == [] <==> Charts.FindByImei(rows, imei).None?)
      && (v != [] ==> Charts.FindByImei(rows, imei) == Some(v[0]))
  {
    if rows != [] {
      FirstOfSelection(rows[1..], imei);
      FilterCons(rows, Tables.ImeiIs(imei));
    }
  }

  /** With "all" the KPIs come from the summary. The refresh completes
      exactly when the document has a data-quality part and no formatted
      cell of the scorecard throws, and then the tables show the whole
      scorecard in its own order. Without the part both charts are left
      destroyed and the tables keep their rows; with it the charts are
      drawn, and a table whose body throws keeps its rows, the stats table
      too when the scorecard table throws first. */
  lemma AllDevicesView(s: State, screen: Screen)
    requires s.currentData.Some? && s.selectedImei == "all"
    ensures var d := s.currentData.value;
      !Aborts(s) <==> d.dataQuality.Some? && !Tables.RowsThrow(d.scorecard, Tables.StatsFixed)
    ensures var r, d := Refresh(s, screen), s.currentData.value;
      (!Aborts(s) ==> r.tables == map[ScorecardTable := d.scorecard, StatsTable := d.scorecard])
      && (d.dataQuality.None? ==> r.tables == screen.tables && r.radar == [] && r.eventBars == [])
      && (d.dataQuality.Some? ==> r.radar == Charts.RadarData(d.dataQuality.value) && |r.eventBars| == 6)
      && (d.dataQuality.Some? && Tables.RowsThrow(d.scorecard, Tables.ScorecardFixed) ==> r.tables == screen.tables)
      && (d.dataQuality.Some? && !Tables.RowsThrow(d.scorecard, Tables.ScorecardFixed) && Tables.RowsThrow(d.scorecard, Tables.StatsFixed)
          ==> r.tables == screen.tables[ScorecardTable := d.scorecard])
      && r.kpiScore == Get(d.summary, "average_quality_score")
      && r.kpiDevices == Get(d.summary, "total_devices")
      && r.kpiRecords == Get(d.summary, "total_records")
  {
    Tables.ScorecardThrowInStats(s.currentData.value.scorecard);
  }

  /** A scorecard row whose distance is the text "5" makes the refresh
      under "all" throw in the scorecard table: the charts are drawn, but
      both tables keep their rows and no page is requested. */
  lemma TextDistanceThrows(s: State, screen: Screen, reqs: seq<PageRequest>, row: Row)
    requires s.currentData.Some? && s.selectedImei == "all" && s.currentData.value.dataQuality.Some?
    requires row in s.currentData.value.scorecard && Get(row, "Distancia_Recorrida_(KM)") == Some(Str("5"))
    ensures Aborts(s)
    ensures Updated(s, screen, reqs) == View(s, Refresh(s, screen), reqs)
    ensures Refresh(s, screen).tables == screen.tables
  {
    var sc := s.currentData.value.scorecard;
    var i :| 0 <= i < |sc| && sc[i] == row;
    assert Tables.FixedThrows(sc[i], Tables.ScorecardFixed[0]);
    AllDevicesView(s, screen);
  }

  /** For one device both tables hold exactly the rows with that IMEI, in
      scorecard order, and the two views are the same rows. */
  lemma SingleDeviceView(s: State, screen: Screen)
    requires s.currentData.Some? && s.selectedImei != "all" && !Aborts(s)
    ensures var r := Refresh(s, screen);
      var sc := s.currentData.value.scorecard;
      r.tables[ScorecardTable] == r.tables[StatsTable]
      && (forall row :: row in r.tables[ScorecardTable] <==> row in sc && Get(row, "imei") == Some(Str(s.selectedImei)))
      && Subseq(r.tables[ScorecardTable], sc)
  {
    Tables.SelectDeviceRows(s.currentData.value.scorecard, s.selectedImei);
  }

  /** Single-device KPIs: the score of the device's first scorecard row, or
      "--" when there is none or its score is falsy (0 included); devices
      "1"; records its `Total_Reportes` or 0. The row is the one the event
      chart reads. */
  lemma SingleDeviceKpis(s: State, screen: Screen)
    requires s.currentData.Some? && s.selectedImei != "all"
    ensures var r := Refresh(s, screen);
      var found := Charts.FindByImei(s.currentData.value.scorecard, s.selectedImei);
      var sc: Row := if found.Some? then found.value else [];
      r.kpiScore == Some(if found.Some? && Truthy(Get(sc, "Puntaje_Calidad")) then Get(sc, "Puntaje_Calidad").value else Str("--"))
      && r.kpiDevices == Some(Str("1"))
      && r.kpiRecords == Some(OrElse(Get(sc, "Total_Reportes"), Num(0.0)))
      && (found.None? ==> r.kpiScore == Some(Str("--")) && r.kpiRecords == Some(Num(0.0)))
  {
    FirstOfSelection(s.currentData.value.scorecard, s.selectedImei);
    RefreshKeepsKpis(s, screen);
  }

  /** Whatever else the refresh reaches, the score, device and record KPIs
      it leaves are those written first. */
  lemma RefreshKeepsKpis(s: State, screen: Screen)
    requires s.currentData.Some?
    ensures var r, k := Refresh(s, screen), Kpis(s, screen);
      r.kpiScore == k.kpiScore && r.kpiDevices == k.kpiDevices && r.kpiRecords == k.kpiRecords
  {
    var d := s.currentData.value;
    var rows := Tables.SelectDevice(d.scorecard, s.selectedImei);
    if !(s.selectedImei != "all" && SingleDistance(FirstOrEmpty(rows)).None?) && d.dataQuality.Some? {
      if Tables.RowsThrow(rows, Tables.ScorecardFixed) {
      } else if Tables.RowsThrow(rows, Tables.StatsFixed) {
      }
    }
  }

  /** A completed refresh with an analysis id re-requests page 1 of the
      selected device with the current page size; without an id, or when
      the refresh throws, nothing is requested and paging is untouched. */
  lemma RefreshRequestsFirstPage(s: State, screen: Screen, reqs: seq<PageRequest>,
                                 s': State, screen': Screen, reqs': seq<PageRequest>)
    requires ViewUpdated(s, screen, reqs, s', screen', reqs')
    ensures s'.selectedImei == s.selectedImei && s'.tableSorts == s.tableSorts && s'.currentData == s.currentData
    ensures |reqs'| == |reqs| || |reqs'| == |reqs| + 1
    ensures reqs'[..|reqs|] == reqs
    ensures |reqs'| == |reqs| + 1 <==> s.currentData.Some? && Truthy(s.currentAnalysisId) && !Aborts(s)
    ensures |reqs'| == |reqs| + 1 ==>
      s'.rawPage == 1 && reqs'[|reqs|] == PageRequest(s.currentAnalysisId.value, 1, s.rawPerPage, ImeiParam(s.selectedImei))
    ensures |reqs'| == |reqs| ==> s' == s
  {
  }

  /** The score colour: green above 90, amber above 70, red otherwise. */
  function ScoreColour(score: Option<Value>): (c: string)
    ensures c == "#10b981" <==> score.Some? && score.value.Num? && score.value.n > 90.0
    ensures c == "#f59e0b" <==> score.Some? && score.value.Num? && 70.0 < score.value.n <= 90.0
    ensures c == "#ef4444" <==> !(score.Some? && score.value.Num? && score.value.n > 70.0)
  {
    if score.Some? && score.value.Num? && score.value.n > 90.0 then "#10b981"
    else if score.Some? && score.value.Num? && score.value.n > 70.0 then "#f59e0b"
    else "#ef4444"
  }

  /** The state `renderDashboard(data, analysisId)` sets before it reads
      the document: the id only when one is given, the filter back to
      "all", both sorts cleared. */
  function Cleared(s: State, analysisId: Option<Value>): State {
    s.(currentAnalysisId := if Truthy(analysisId) then analysisId else s.currentAnalysisId,
       selectedImei := "all",
       tableSorts := UnsortedTables)
  }

  /** The state `renderDashboard` refreshes the view from: cleared, with
      the data stored. */
  function Reset(s: State, data: Analysis, analysisId: Option<Value>): State {
    Cleared(s, analysisId).(currentData := Some(data))
  }

  /** The page `renderDashboard` writes before the refresh: the summary
      KPIs and colour, the IMEI options in scorecard order, the filter at
      "all" and the dashboard shown. */
  function Shown(screen: Screen, data: Analysis): Screen {
    screen.(kpiScore := Get(data.summary, "average_quality_score"),
            kpiDevices := Get(data.summary, "total_devices"),
            kpiRecords := Get(data.summary, "total_records"),
            kpiDistance := Some(Localized(Get(data.summary, "total_distance_km"))),
            scoreColour := Some(ScoreColour(Get(data.summary, "average_quality_score"))),
            filterOptions := KeysOf(data.scorecard, MapView.ImeiKey),
            filterValue := "all",
            dashboardShown := true)
  }

  /** What `renderDashboard(data, analysisId)` leaves behind, and whether
      it threw. A document that does not read as an analysis throws right
      after the dashboard is shown; one that does is stored and the view
      refreshed, which throws as `Aborts` says. */
  datatype Rendering = Rendering(view: View, threw: bool)

  function RenderValue(s: State, screen: Screen, reqs: seq<PageRequest>, data: Value, analysisId: Option<Value>): Rendering {
    var a := AnalysisOf(data);
    if a.Some? then
      Rendering(Updated(Reset(s, a.value, analysisId), Shown(screen, a.value), reqs), Aborts(Reset(s, a.value, analysisId)))
    else
      Rendering(View(Cleared(s, analysisId), screen.(dashboardShown := true), reqs), true)
  }

  /** A render completes exactly when the document reads as an analysis
      with a data-quality part whose scorecard has no cell the tables fail
      to format; a document without "data_quality" always throws. */
  lemma RenderThrows(s: State, screen: Screen, reqs: seq<PageRequest>, data: Value, analysisId: Option<Value>)
    ensures var a := AnalysisOf(data);
      (!RenderValue(s, screen, reqs, data, analysisId).threw
       <==> a.Some? && a.value.dataQuality.Some? && !Tables.RowsThrow(a.value.scorecard, Tables.StatsFixed))
    ensures data.Obj? && Nullish(Get(data.fields, "data_quality")) ==> RenderValue(s, screen, reqs, data, analysisId).threw
  {
    var a := AnalysisOf(data);
    if a.Some? {
      AllDevicesView(Reset(s, a.value, analysisId), Shown(screen, a.value));
    }
  }

  /** After a render that completes, the whole scorecard is shown unsorted
      under "all", the options list every scorecard IMEI in order, a given
      id replaces the old one and a missing one keeps it, and page 1 of the
      telemetry is requested when there is an id. */
  lemma RenderDashboardResets(s: State, screen: Screen, reqs: seq<PageRequest>, data: Value, analysisId: Option<Value>)
    requires !RenderValue(s, screen, reqs, data, analysisId).threw
    ensures var v := RenderValue(s, screen, reqs, data, analysisId).view;
      var a := AnalysisOf(data).value;
      v.state.selectedImei == "all" && v.state.tableSorts == UnsortedTables && v.state.currentData == Some(a)
      && v.state.currentAnalysisId == (if Truthy(analysisId) then analysisId else s.currentAnalysisId)
      && v.screen.tables == map[ScorecardTable := a.scorecard, StatsTable := a.scorecard]
      && |v.screen.filterOptions| == |a.scorecard|
      && (forall i :: 0 <= i < |a.scorecard| ==> v.screen.filterOptions[i] == Get(a.scorecard[i], "imei"))
      && (Truthy(v.state.currentAnalysisId) ==>
            v.state.rawPage == 1 && v.requests == reqs + [PageRequest(v.state.currentAnalysisId.value, 1, s.rawPerPage, None)])
      && (!Truthy(v.state.currentAnalysisId) ==> v.requests == reqs)
  {
    RenderThrows(s, screen, reqs, data, analysisId);
    var a := AnalysisOf(data).value;
    AllDevicesView(Reset(s, a, analysisId), Shown(screen, a));
  }

  /** A render that reads an analysis without a data-quality part stores it
      under "all" with the sorts cleared and shows its summary KPIs, but
      both charts are left destroyed, the tables keep what they showed and
      no page is requested. */
  lemma RenderWithoutQuality(s: State, screen: Screen, reqs: seq<PageRequest>, data: Value, analysisId: Option<Value>)
    requires AnalysisOf(data).Some? && AnalysisOf(data).value.dataQuality.None?
    ensures var r := RenderValue(s, screen, reqs, data, analysisId);
      var a := AnalysisOf(data).value;
      r.threw && r.view.state == Reset(s, a, analysisId) && r.view.requests == reqs
      && r.view.screen.dashboardShown && r.view.screen.kpiScore == Get(a.summary, "average_quality_score")
      && r.view.screen.radar == [] && r.view.screen.eventBars == []
      && r.view.screen.tables == screen.tables
  {
    var a := AnalysisOf(data).value;
    AllDevicesView(Reset(s, a, analysisId), Shown(screen, a));
  }

  /** The view and alerts after a render inside a `try` whose `catch`
      hides the dashboard, shows the empty state and raises `alert`: a
      render that throws keeps what it reset and wrote before the throw. */
  function Caught(r: Rendering, alerts: seq<Alert>, alert: Alert): (View, seq<Alert>) {
    if r.threw then (r.view.(screen := r.view.screen.(dashboardShown := false)), alerts + [alert])
    else (r.view, alerts)
  }

  predicate EndsWith(s: string, suffix: string) {
    |suffix| <= |s| && s[|s| - |suffix|..] == suffix
  }

  // ---------------------------------------------------------------------
  // The application object

  class App {
    var state: State
    var screen: Screen
    /** Telemetry page requests, in the order they were sent. */
    var requests: seq<PageRequest>
    /** Names of the files posted to the upload endpoint. */
    var uploads: seq<string>
    var alerts: seq<Alert>
    /** How often the history list was reloaded. */
    var historyRefreshes: nat
    const mapView: MapView.MapState
    const raw: Tables.RawTable

    /** Both tables have a sort entry and a row list; the page size never
        changes. */
    predicate Valid()
      reads this
    {
      state.tableSorts.Keys == {ScorecardTable, StatsTable}
      && screen.tables.Keys == {ScorecardTable, StatsTable}
      && state.rawPerPage == 100
    }

    constructor ()
      ensures Valid()
      ensures state == InitialState && screen == InitialScreen
      ensures requests == [] && uploads == [] && alerts == [] && historyRefreshes == 0
      ensures fresh(mapView) && fresh(raw)
      ensures !mapView.hasInstance && mapView.markers == [] && raw.header == [] && raw.body == []
    {
      state := InitialState;
      screen := InitialScreen;
      requests := [];
      uploads := [];
      alerts := [];
      historyRefreshes := 0;
      mapView := new MapView.MapState();
      raw := new Tables.RawTable();
    }

    /** `app.updateDashboardView()`; `threw` when the refresh throws. */
    method UpdateDashboardView() returns (threw: bool)
      requires Valid()
      modifies this
      ensures Valid()
      ensures ViewUpdated(old(state), old(screen), old(requests), state, screen, requests)
      ensures threw <==> old(state).currentData.Some? && Aborts(old(state))
      ensures uploads == old(uploads) && alerts == old(alerts) && historyRefreshes == old(historyRefreshes)
    {
      if state.currentData.None? {
        return false;
      }
      threw, screen := RefreshScreen(state, screen);
      if threw {
        return;
      }
      if Truthy(state.currentAnalysisId) {
        state := state.(rawPage := 1);
        requests := requests + [PageRequest(state.currentAnalysisId.value, state.rawPage, state.rawPerPage, ImeiParam(state.selectedImei))];
      }
    }

    /** The KPI, chart and table part of `updateDashboardView`; `aborted`
        when `toFixed` or the radar throws and the rest of the refresh does
        not run. */
    static method RefreshScreen(s: State, screen0: Screen) returns (aborted: bool, screen: Screen)
      requires s.currentData.Some?
      ensures aborted == Aborts(s) && screen == Refresh(s, screen0)
    {
      screen := screen0;
      var d := s.currentData.value;
      var rows := d.scorecard;
      if s.selectedImei != "all" {
        rows := Filter(rows, Tables.ImeiIs(s.selectedImei));
      }
      if s.selectedImei == "all" {
        screen := screen.(kpiScore := Get(d.summary, "average_quality_score"),
                          kpiDevices := Get(d.summary, "total_devices"),
                          kpiRecords := Get(d.summary, "total_records"),
                          kpiDistance := Some(Localized(Get(d.summary, "total_distance_km"))));
      } else {
        var sc := if rows == [] then [] else rows[0];
        screen := screen.(kpiScore := Some(OrElse(Get(sc, "Puntaje_Calidad"), Str("--"))),
                          kpiDevices := Some(Str("1")),
                          kpiRecords := Some(OrElse(Get(sc, "Total_Reportes"), Num(0.0))));
        var distance := SingleDistance(sc);
        if distance.None? {
          return true, screen;
        }
        screen := screen.(kpiDistance := distance);
      }
      screen := screen.(radar := [], eventBars := []);
      if d.dataQuality.None? {
        return true, screen;
      }
      screen := screen.(radar := Charts.RadarData(d.dataQuality.value),
                        eventBars := Charts.EventVector(d.eventsSummary, d.scorecard, s.selectedImei));
      aborted := Tables.FormatRows(rows, Tables.ScorecardFixed);
      if aborted {
        return;
      }
      screen := screen.(tables := screen.tables[ScorecardTable := rows]);
      aborted := Tables.FormatRows(rows, Tables.StatsFixed);
      if aborted {
        return;
      }
      screen := screen.(tables := map[ScorecardTable := rows, StatsTable := rows]);
    }

    /** The IMEI filter's `onchange`: the chosen value is stored as it is,
        whether or not a device has it, then the view is refreshed. */
    method OnFilterChange(value: string)
      requires Valid()
      modifies this
      ensures Valid()
      ensures state.selectedImei == value
      ensures ViewUpdated(old(state).(selectedImei := value), old(screen).(filterValue := value), old(requests),
                          state, screen, requests)
      ensures uploads == old(uploads) && alerts == old(alerts) && historyRefreshes == old(historyRefreshes)
    {
      screen := screen.(filterValue := value);
      state := state.(selectedImei := value);
      var _ := UpdateDashboardView();
    }

    /** A click on an IMEI link in either table: select that device in the
        filter and the state, then refresh. */
    method ImeiLinkClick(imei: string)
      requires Valid()
      modifies this
      ensures Valid()
      ensures state.selectedImei == imei
      ensures ViewUpdated(old(state).(selectedImei := imei), old(screen).(filterValue := imei), old(requests),
                          state, screen, requests)
      ensures uploads == old(uploads) && alerts == old(alerts) && historyRefreshes == old(historyRefreshes)
    {
      screen := screen.(filterValue := imei);
      state := state.(selectedImei := imei);
      var _ := UpdateDashboardView();
    }

    /** `renderDashboard(data, analysisId)` on the parsed document;
        `threw` when it throws part-way. */
    method RenderDashboard(data: Value, analysisId: Option<Value>) returns (threw: bool)
      requires Valid()
      modifies this
      ensures Valid()
      ensures var r := RenderValue(old(state), old(screen), old(requests), data, analysisId);
        View(state, screen, requests) == r.view && threw == r.threw
      ensures uploads == old(uploads) && alerts == old(alerts) && historyRefreshes == old(historyRefreshes)
    {
      if Truthy(analysisId) {
        state := state.(currentAnalysisId := analysisId);
      }
      state := state.(selectedImei := "all", tableSorts := UnsortedTables);
      screen := screen.(dashboardShown := true);
      var analysis := AnalysisOf(data);
      if analysis.None? {
        return true;
      }
      var a := analysis.value;
      var score := Get(a.summary, "average_quality_score");
      screen := screen.(kpiScore := score,
                        kpiDevices := Get(a.summary, "total_devices"),
                        kpiRecords := Get(a.summary, "total_records"),
                        kpiDistance := Some(Localized(Get(a.summary, "total_distance_km"))),
                        scoreColour := Some(ScoreColour(score)));
      screen := screen.(filterOptions := KeysOf(a.scorecard, MapView.ImeiKey), filterValue := "all");
      state := state.(currentData := Some(a));
      threw := UpdateDashboardView();
    }

    /** A render inside a `try`: when it throws, the `catch` hides the
        dashboard, shows the empty state and raises `alert`. */
    method RenderCaught(data: Value, analysisId: Option<Value>, alert: Alert) returns (threw: bool)
      requires Valid()
      modifies this
      ensures Valid()
      ensures var r := RenderValue(old(state), old(screen), old(requests), data, analysisId);
        threw == r.threw && (View(state, screen, requests), alerts) == Caught(r, old(alerts), alert)
      ensures uploads == old(uploads) && historyRefreshes == old(historyRefreshes)
    {
      threw := RenderDashboard(data, analysisId);
      if threw {
        screen := screen.(dashboardShown := false);
        alerts := alerts + [alert];
      }
    }

    /** The response to a telemetry page request, whichever request it
        answers: on success the server's cursor is adopted and the rows are
        shown, and plotted when there are any, under the filter selected
        now; on failure nothing changes. */
    method OnTelemetryPage(response: PageResponse)
      requires Valid()
      modifies this, mapView, raw
      ensures Valid()
      ensures response.PageFailed? ==> state == old(state) && unchanged(mapView) && unchanged(raw)
      ensures response.PageOk? ==>
        state == old(state).(rawPage := response.page, rawPages := response.pages, rawTotal := response.total)
      ensures response.PageOk? && (response.rows.None? || response.rows.value == []) ==> unchanged(mapView)
      ensures response.PageOk? && (response.rows.None? || response.rows.value == []) ==>
        raw.header == old(raw.header) && raw.body == old(raw.body)
      ensures response.PageOk? && response.rows.Some? && response.rows.value != [] ==>
        raw.header == Tables.RawColumns && raw.body == Tables.RawBody(response.rows.value)
        && mapView.hasInstance && mapView.markers == MapView.MarkersFor(response.rows.value, state.selectedImei)
      ensures screen == old(screen) && requests == old(requests)
      ensures uploads == old(uploads) && alerts == old(alerts) && historyRefreshes == old(historyRefreshes)
    {
      if response.PageFailed? {
        return;
      }
      state := state.(rawPage := response.page, rawPages := response.pages, rawTotal := response.total);
      raw.Render(response.rows);
      if response.rows.Some? && response.rows.value != [] {
        mapView.Render(response.rows.value, state.selectedImei);
      }
    }

    /** A click on a sortable header of `table`. Only a table showing rows
        has handlers. The click records the new sort for that table alone
        and re-renders it with a sorted copy of the rows it shows. */
    method SortClick(table: TableId, column: string, parse: string -> Option<real>)
      requires Valid()
      modifies this
      ensures Valid()
      ensures old(screen.tables[table]) == [] ==> state == old(state) && screen == old(screen)
      ensures old(screen.tables[table]) != [] ==>
        var sort := Tables.NextSort(old(state.tableSorts[table]), column);
        state == old(state).(tableSorts := old(state.tableSorts)[table := sort])
        && screen == old(screen).(tables := old(screen.tables)[table :=
             Tables.SortRows(old(screen.tables[table]), column, sort.dir.value, parse)])
      ensures requests == old(requests) && uploads == old(uploads) && alerts == old(alerts)
      ensures historyRefreshes == old(historyRefreshes)
    {
      var rows := screen.tables[table];
      if rows == [] {
        return;
      }
      var dir := if state.tableSorts[table].column == Some(column) && state.tableSorts[table].dir == Some(Tables.Asc)
        then Tables.Desc else Tables.Asc;
      state := state.(tableSorts := state.tableSorts[table := Tables.SortState(Some(column), Some(dir))]);
      var sorted := Tables.SortRows(rows, column, dir, parse);
      screen := screen.(tables := screen.tables[table := sorted]);
    }

    /** The export button: the CSV of the in-memory sample under the
        current filter (no page is fetched), or the "No data to export"
        alert. */
    method ExportClick(num: real -> string) returns (e: Tables.Export)
      modifies this
      ensures e == Tables.ExportCsv(state.currentData, state.selectedImei, num)
      ensures alerts == old(alerts) + (if e.NothingToExport? then [NothingToExport] else [])
      ensures state == old(state) && screen == old(screen) && requests == old(requests)
      ensures uploads == old(uploads) && historyRefreshes == old(historyRefreshes)
    {
      e := Tables.ExportCsv(state.currentData, state.selectedImei, num);
      if e.NothingToExport? {
        alerts := alerts + [NothingToExport];
      }
    }

    /** `loadResult(id)` with the answer to its request. */
    method LoadResult(id: Value, response: LoadResponse)
      requires Valid()
      modifies this
      ensures Valid()
      ensures response.Loaded? ==>
        var r := RenderValue(old(state), old(screen), old(requests), response.data, Some(id));
        (View(state, screen, requests), alerts) == Caught(r, old(alerts), LoadRenderError)
      ensures response.LoadFailed? ==>
        state == old(state) && screen == old(screen).(dashboardShown := false) && requests == old(requests)
        && alerts == old(alerts) + [LoadError(response.message)]
      ensures uploads == old(uploads) && historyRefreshes == old(historyRefreshes)
    {
      match response
      case Loaded(data) =>
        var _ := RenderCaught(data, Some(id), LoadRenderError);
      case LoadFailed(message) =>
        screen := screen.(dashboardShown := false);
        alerts := alerts + [LoadError(message)];
    }

    /** `handleFileUpload(file)` with the upload's answer. A name not ending
        in ".json" is refused before anything is sent; a 202 hands the job
        id to the tracker (returned) and renders nothing; a processed result
        is shown and the history reloaded; an error is reported. */
    method HandleFileUpload(name: string, response: UploadResponse) returns (job: Option<Value>)
      requires Valid()
      modifies this
      ensures Valid()
      ensures job.Some? <==> EndsWith(name, ".json") && response.Accepted?
      ensures job.Some? ==> job.value == response.jobId
      ensures !EndsWith(name, ".json") ==>
        state == old(state) && screen == old(screen) && requests == old(requests) && uploads == old(uploads)
        && alerts == old(alerts) + [NotJsonFile] && historyRefreshes == old(historyRefreshes)
      ensures EndsWith(name, ".json") ==> uploads == old(uploads) + [name]
      ensures EndsWith(name, ".json") && response.Accepted? ==>
        state == old(state) && screen == old(screen) && requests == old(requests)
        && alerts == old(alerts) && historyRefreshes == old(historyRefreshes)
      ensures EndsWith(name, ".json") && response.Processed? ==>
        var r := RenderValue(old(state), old(screen), old(requests), response.data, response.id);
        (View(state, screen, requests), alerts) == Caught(r, old(alerts), UploadRenderError)
        && historyRefreshes == old(historyRefreshes) + (if r.threw then 0 else 1)
      ensures EndsWith(name, ".json") && (response.HttpError? || response.Unreachable?) ==>
        state == old(state) && screen == old(screen).(dashboardShown := false) && requests == old(requests)
        && historyRefreshes == old(historyRefreshes)
        && alerts == old(alerts) + [UploadError(
             if response.HttpError? then OrElse(response.error, Str("Upload failed")) else Str(response.reason))]
    {
      if !EndsWith(name, ".json") {
        alerts := alerts + [NotJsonFile];
        return None;
      }
      uploads := uploads + [name];
      match response
      case Accepted(jobId) =>
        job := Some(jobId);
      case HttpError(error) =>
        screen := screen.(dashboardShown := false);
        alerts := alerts + [UploadError(OrElse(error, Str("Upload failed")))];
        job := None;
      case Unreachable(reason) =>
        screen := screen.(dashboardShown := false);
        alerts := alerts + [UploadError(Str(reason))];
        job := None;
      case Processed(data, id) =>
        var _ := ShowProcessed(data, id);
        job := None;
    }

    /** A processed upload: the render, then the history reload when the
        render did not throw. */
    method ShowProcessed(data: Value, id: Option<Value>) returns (threw: bool)
      requires Valid()
      modifies this
      ensures Valid()
      ensures var r := RenderValue(old(state), old(screen), old(requests), data, id);
        threw == r.threw && (View(state, screen, requests), alerts) == Caught(r, old(alerts), UploadRenderError)
        && historyRefreshes == old(historyRefreshes) + (if threw then 0 else 1)
      ensures uploads == old(uploads)
    {
      threw := RenderCaught(data, id, UploadRenderError);
      historyRefreshes := historyRefreshes + if threw then 0 else 1;
    }

    /** The end of a tracked job, as the event stream delivers it. Inline
        data is rendered with the job's analysis id, and the history reloaded
        unless the render throws (nothing catches it there); an id alone is
        loaded (its answer is `load`) and the history reloaded; errors,
        failures and the timeout hide the dashboard and alert. */
    method OnJobOutcome(outcome: JobTracking.Outcome, load: LoadResponse)
      requires Valid()
      modifies this
      ensures Valid()
      ensures outcome.Rendered? ==>
        var r := RenderValue(old(state), old(screen), old(requests), outcome.data, outcome.analysisId);
        View(state, screen, requests) == r.view && alerts == old(alerts)
        && historyRefreshes == old(historyRefreshes) + (if r.threw then 0 else 1)
      ensures outcome.LoadById? && load.Loaded? ==>
        var r := RenderValue(old(state), old(screen), old(requests), load.data, Some(outcome.id));
        (View(state, screen, requests), alerts) == Caught(r, old(alerts), LoadRenderError)
      ensures outcome.LoadById? && load.LoadFailed? ==>
        state == old(state) && screen == old(screen).(dashboardShown := false) && requests == old(requests)
        && alerts == old(alerts) + [LoadError(load.message)]
      ensures outcome.CompletedEmpty? ==>
        state == old(state) && screen == old(screen) && requests == old(requests) && alerts == old(alerts)
      ensures outcome.LoadById? || outcome.CompletedEmpty? ==>
        historyRefreshes == old(historyRefreshes) + 1
      ensures !(outcome.Rendered? || outcome.LoadById? || outcome.CompletedEmpty?) ==>
        state == old(state) && screen == old(screen).(dashboardShown := false) && requests == old(requests)
        && alerts == old(alerts) + [JobAlert(outcome)] && historyRefreshes == old(historyRefreshes)
      ensures uploads == old(uploads)
    {
      match outcome
      case Rendered(data, analysisId) =>
        var threw := RenderDashboard(data, analysisId);
        historyRefreshes := historyRefreshes + if threw then 0 else 1;
      case LoadById(id) =>
        LoadResult(id, load);
        historyRefreshes := historyRefreshes + 1;
      case CompletedEmpty =>
        historyRefreshes := historyRefreshes + 1;
      case _ =>
        screen := screen.(dashboardShown := false);
        alerts := alerts + [JobAlert(outcome)];
    }
  }
}
