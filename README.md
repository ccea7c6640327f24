# GPS telemetry analyzer: a verified model

The analyzer takes uploaded GPS tracker log exports, extracts the telemetry points, and computes per-device quality
scores and statistics. It stores the results in SQLite and shows them in a browser dashboard with KPIs, charts, tables and a map.
Large files are processed by a background worker that reports progress as a stream of status events.

This project models that core in Dafny and proves properties of the model.

- **Values**: the JSON values both sides exchange, and the reads the client makes of them.
  - Covers property reads with `undefined`, truthiness, `||`, `indexOf`, `split`/`join`, `JSON.stringify` of strings, and ASCII case mapping.
  - Proves the analysis document the server returns is read back by the client.
- **Dashboard** (`static/js/app.js`, `static/js/api.js`): the client's state object and its handlers, as class `App`.
  - Covers the IMEI filter, refreshing the view, rendering a loaded analysis, telemetry pages, sorting, CSV export, loading a result, uploading a file, and the job outcomes.
- **Tables** (`static/js/tables.js`):
  - the sort-state toggle;
  - the sort comparator: nulls last, dates, lower-cased text, stable;
  - search as an in-place update of a row-visibility array;
  - the raw telemetry table;
  - CSV export.
- **Charts** (`static/js/charts.js`): the radar data and the six-bar event vector.
- **MapView** (`static/js/map.js`): the valid points, one start marker per device in "all" mode, and the path with start, end and event markers for one device.
- **Theme** (`static/js/theme.js`): the auto/light/dark cycle, resolving "auto" against the system preference, and the map tiles.
- **JobTracking** (`static/js/api.js`): following a background job. It reads the progress stream first and falls back to polling at most 120 times.
- **Legacy** (`static/script.js`): the single-file client.
  - Covers the score histogram, the per-device event tally and the top five events, its view refresh, and its theme toggle.
- **Storage** (`database.py`): the SQLite tables as maps.
  - Covers saving an analysis (column by column, with the stratified telemetry sample) and reading it back.
  - Covers renames, deletes, the job table and the migration from the JSON files.
- **Worker** (`worker.py`):
  - the job record and the background worker as classes;
  - the course of `_process_job` through its progress stages;
  - status lookup;
  - the progress-event generator.
- **Extraction** (`app.py`): extracting telemetry from log entries, de-duplication, and the ignition-coherence rule.
- **History** (`app.py`): the JSON history file, the upload endpoint's parsing and replies, result lookup, and deletion.

Two further modules hold generic helpers:

- Seqs: filter, subsequence, first occurrence per key.
- Sorting: a stable insertion sort that stands for `Array.prototype.sort`.

Decoders (`json.loads`), clocks, uuids and the processing function are parameters of the model.

## Model

| member | source | states |
|---|---|---|
| Values.ObjectRows | static/js/api.js:384 | The rows of an array are returned exactly when every item is an object, one row per item in order. Otherwise some item is not an object. |
| Values.RowsValue | database.py:325-334 | A list of rows laid out as a JSON array has one object per row, in order. |
| Values.AnalysisRoundTrip | database.py:325-334 | Every analysis laid out as the server returns it reads back as the same analysis in the client. |
| Values.AnalysisValueFields | static/js/api.js:369-389 | The laid-out document holds summary, scorecard, chart_data.events_summary, data_quality and raw_data_sample under the keys the client reads. |
| Values.LaidOutParts | database.py:325-334 | Each part of the laid-out document is the corresponding part of the analysis. |
| Values.ReadBack | static/js/api.js:369-389 | A document with those parts in place reads as that analysis. |
| Values.Get | static/js/tables.js:48-49 | A property read is undefined exactly when no field has the key. Otherwise it returns a value stored under that key. |
| Values.Keys | static/js/tables.js:246 | `Object.keys` lists every field name in insertion order. |
| Values.Lower | static/js/tables.js:59-62 | Lower-casing keeps the length and maps each character. |
| Values.Upper | static/js/tables.js:15-20 | Upper-casing keeps the length and maps each character. |
| Values.ContainsWitness | static/js/tables.js:20 | `indexOf(sub) > -1` holds exactly when some index holds an occurrence of `sub`. |
| Values.JoinCount | static/js/tables.js:253 | Joining n parts puts exactly n-1 separators in the text. |
| Values.Split | app.py:359-364 | Splitting always yields at least one part. |
| Values.SplitNoSep | app.py:359-364 | A text without the separator splits to itself. |
| Values.SplitAtSep | app.py:359-364 | Splitting at a separator yields the part before it, then the split of the rest. |
| Values.SplitJoin | static/js/tables.js:247-253 | Splitting a join of separator-free parts gives back the parts. |
| Values.Quote | static/js/tables.js:251 | A stringified string is wrapped in double quotes. |
| Values.EscapeHasNoNewline | static/js/tables.js:251 | No escaped character is a raw line break. |
| Values.QuoteHasNoNewline | static/js/tables.js:251 | A quoted string never contains a raw line break. |
| Values.StringifyHasNoNewline | static/js/tables.js:251 | `JSON.stringify` of any JSON value contains no raw line break. |
| Charts.RadarData | static/js/charts.js:24-35 | Eight values, one per axis. No axis shows a falsy value: each is truthy or 0. |
| Charts.RadarAxes | static/js/charts.js:27-34 | An axis shows the row's value exactly when that value is truthy, and 0 otherwise. The radar is all zeros exactly when no axis value is truthy. |
| Charts.RadarReadsAxesOnly | static/js/charts.js:24-35 | Two data-quality rows that agree on the eight axis keys draw the same radar, whatever else they hold. |
| Charts.FindByImei | static/js/charts.js:73 | `find` returns a scorecard row with that IMEI. It returns nothing exactly when no row has that IMEI. |
| Charts.EventVector | static/js/charts.js:85-88 | The bar data has one value per target label. |
| Charts.EventVectorAll | static/js/charts.js:69-71 | Under "all" the bars depend only on the summary's six target labels. Other event types in the summary and the scorecard never change them. |
| Charts.EventVectorSingle | static/js/charts.js:72-80 | For one device each bar is read from the device's first scorecard row, from the field mapped to that label. All bars are 0 when the device has no row. |
| Charts.TargetEventsDistinct | static/js/charts.js:65 | The six target labels are pairwise distinct. |
| Charts.EventCounts | static/js/charts.js:66-80 | The counts object has exactly the target labels as keys. The value under each label is that label's bar in the vector. |
| Charts.ZeroCounts | static/js/charts.js:65-67 | Every target label is a key, each counting 0, and there is no other key. |
| Charts.Overwrite | static/js/charts.js:69-79 | Label i takes the source's field i when that is truthy and 0 otherwise; the keys stay exactly the target labels. |
| Dashboard.ImeiParam | static/js/api.js:304-305 | The imei parameter is omitted exactly when the filter is empty or "all". Otherwise it is the filter itself. |
| Dashboard.SingleDistance | static/js/app.js:174 | The distance KPI aborts the refresh exactly when the distance is neither nullish nor a number. A missing distance shows 0. |
| Dashboard.FirstOfSelection | static/js/app.js:169-170 | The first selected row is the first row with that IMEI. Rows before it have other IMEIs. |
| Dashboard.AllDevicesView | static/js/app.js:162-180 | Under "all" the refresh shows the summary KPIs. It completes exactly when there is a data-quality part and no scorecard cell that the tables format with `toFixed` is a non-number. It then shows the whole scorecard in both tables. Without the part both charts are left destroyed and the tables keep their rows. With it both charts are drawn; a scorecard-table throw keeps both tables, and a stats-table throw keeps the stats table. |
| Dashboard.TextDistanceThrows | static/js/tables.js:111 | Under "all", a scorecard row whose distance is the text "5" makes the refresh throw. Both tables keep their rows and no page is requested. |
| Dashboard.RefreshKeepsKpis | static/js/app.js:162-175 | However far the refresh gets, the score, device and record KPIs are the ones it wrote first. |
| Dashboard.SingleDeviceView | static/js/app.js:168-180 | For one device the KPIs come from its first row. The tables hold only its rows. |
| Dashboard.SingleDeviceKpis | static/js/app.js:171-174 | For one device the KPIs show the score or "--", the device count "1", and the records or 0. |
| Dashboard.RefreshRequestsFirstPage | static/js/app.js:182-190 | A refresh appends one request for page 1, with the selected IMEI, exactly when data is loaded, an id is known and the refresh did not throw. It throws at the distance KPI, at a missing data-quality part, or at a table cell `toFixed` cannot format. Otherwise the state is unchanged. |
| Dashboard.ScoreColour | static/js/api.js:379-381 | Green exactly above 90, amber exactly in (70, 90], red otherwise (including a missing or non-numeric score). |
| Dashboard.RenderThrows | static/js/api.js:347-391 | A render completes exactly when the document reads as an analysis with a data-quality part and its scorecard has no cell the tables fail to format. A document without "data_quality" always throws. |
| Dashboard.RenderDashboardResets | static/js/api.js:347-390 | After a completed render, the filter is "all", both sorts are cleared, and the data is stored. A given id replaces the old one. The options list every scorecard IMEI in order. The whole scorecard is shown, and page 1 is requested when there is an id. |
| Dashboard.RenderWithoutQuality | static/js/api.js:347-391 | An analysis without a data-quality part is stored under "all" with the sorts cleared and its KPIs shown. Both charts are left destroyed, the tables keep what they showed, and no page is requested. |
| Dashboard.App.constructor | static/js/app.js:11-25 | Initial state: no data, no id, filter "all", page 1 of 100 rows, sorts cleared, nothing requested. |
| Dashboard.App.UpdateDashboardView | static/js/app.js:151-193 | The state, page and request log change as the refresh relation says: the KPIs, then the charts (destroyed before the data-quality part is read), then each table until one throws. It reports whether the refresh threw. No upload, alert or history refresh. |
| Dashboard.App.OnFilterChange | static/js/app.js:121-124 | The selected IMEI becomes the chosen value, then the view refreshes. |
| Dashboard.App.ImeiLinkClick | static/js/tables.js:123-129 | Clicking an IMEI selects it and refreshes the view. |
| Dashboard.App.RenderDashboard | static/js/api.js:347-391 | The state is reset, the dashboard shown, the document read and the view refreshed, as far as the render gets. It reports whether it threw. |
| Dashboard.App.RenderCaught | static/js/api.js:330-338 | A render inside the `try` of a request: when it throws, the reset it made stays, the dashboard is hidden and the given alert raised. Otherwise the render's page stands and no alert is raised. |
| Dashboard.App.ShowProcessed | static/js/api.js:170-178 | A processed upload is rendered, and the history reloads exactly when the render does not throw. A throw alerts and shows the empty state. |
| Dashboard.App.OnTelemetryPage | static/js/api.js:302-320 | A failed page changes nothing. A loaded page adopts its page, pages and total and renders the raw table. It redraws the map only when rows arrived. |
| Dashboard.App.SortClick | static/js/tables.js:36-69 | A click on an empty table changes nothing. Otherwise it toggles that table's sort state and shows the sorted rows. |
| Dashboard.App.ExportClick | static/js/tables.js:233-264 | The export is the CSV of the current selection. The only alert is "No data to export" when the selection is empty. Nothing else changes. |
| Dashboard.App.LoadResult | static/js/api.js:321-340 | A loaded result is rendered. When the render throws, the reset it made stays, and the catch alerts and shows the empty state. A failure alerts with its message and shows the empty state. |
| Dashboard.App.HandleFileUpload | static/js/api.js:141-182 | A file not ending in ".json" is refused with an alert and nothing sent. An accepted upload returns the job id to track. A processed one is rendered and refreshes the history. When the render throws, the catch alerts and shows the empty state, and the history is not refreshed. An error alerts and shows the empty state. |
| Dashboard.App.OnJobOutcome | static/js/api.js:208-226 | Completed data is rendered, and the history refreshes unless the render throws, with no alert either way. An analysis id alone loads that result. Failures alert and show the empty state. |
| JobTracking.React | static/js/api.js:190-227 | An error field finishes with that error. Tracking continues exactly when there is no error and the status is neither completed nor failed. |
| JobTracking.StepConsistent | static/js/api.js:187-297 | Every event keeps the tracker consistent and uses at most one attempt. |
| JobTracking.RunConsistent | static/js/api.js:238-252 | Any run of events keeps the tracker consistent, with never more than 120 poll attempts. |
| JobTracking.FinishedIsFinal | static/js/api.js:194 | A finished tracking ignores every later event. |
| JobTracking.StreamNeverReopens | static/js/api.js:229-232 | Once the stream is closed it is never reopened. |
| JobTracking.StreamErrorStartsPolling | static/js/api.js:229-232 | A stream error closes the stream and starts polling with no attempts used. A poll result while streaming is ignored. |
| JobTracking.ReactOutcomes | static/js/api.js:219-226 | A failed status without an error reports the job's error, or "Unknown error". |
| JobTracking.FinalEntryOutcome | worker.py:121-153 | The last entry the worker writes for a job decides the client's reaction. A completed job's data is rendered with its analysis id, so the load by id is never reached. A failed job's message comes back as a processing error, or as "Unknown error" when the message is empty. |
| JobTracking.CompletedReaction | static/js/api.js:208-214 | The completed entry the worker writes, with truthy data, finishes by rendering that data with the analysis id. |
| JobTracking.FailedReaction | static/js/api.js:192-200 | The failed entry the worker writes finishes with its message as the error, or with "Unknown error" when the message is empty. |
| JobTracking.PollRuns | static/js/api.js:254-290 | One poll event per poll result, in order. |
| JobTracking.NonTerminalPolls | static/js/api.js:288-290 | Each non-terminal poll uses one attempt and polling goes on. |
| JobTracking.TimeoutAfterMaxAttempts | static/js/api.js:243-250 | After a stream error and 120 non-terminal polls, the next poll times out whatever it would return. |
| JobTracking.JobTracker.constructor | static/js/api.js:187-188 | Tracking starts on the stream for the given job. |
| JobTracking.JobTracker.OnStreamMessage | static/js/api.js:190-227 | A stream message advances the tracker as the step function says. |
| JobTracking.JobTracker.OnStreamError | static/js/api.js:229-232 | A stream error advances the tracker as the step function says. |
| JobTracking.JobTracker.Poll | static/js/api.js:242-294 | A poll advances the tracker as the step function says. |
| JobTracking.JobTracker.Track | static/js/api.js:187-297 | Feeding events in order gives the run of the step function. |
| Tables.NextSortToggle | static/js/tables.js:39-45 | The click sets the column, descends only from ascending on the same column, and a second click flips the direction. |
| Tables.Trunc | static/js/tables.js:55-56 | Truncation toward zero stays within one of the number, on the side of zero. |
| Tables.KeyLessOrder | static/js/tables.js:64-65 | `<` on converted cells is irreflexive and transitive, and total on keys of one kind. |
| Tables.NullsAfterEverything | static/js/tables.js:51-52 | The comparator puts rows with a null or missing cell after all others. |
| Tables.SortRowsNullsLast | static/js/tables.js:47-67 | The sorted copy is the present rows sorted, then the absent rows in input order. It is a permutation of the input. |
| Tables.ComparatorConsistent | static/js/tables.js:47-67 | On rows of one kind with a value, the comparator is a consistent comparison. |
| Tables.SortRowsOrder | static/js/tables.js:64-66 | The sorted rows are the rows with a value, in the direction's order, followed by the rows whose cell is null or missing. Nothing is lost. |
| Tables.SortedPresentPart | static/js/tables.js:47-67 | The sorted rows with a value hold no nullish cell, and every pair is in the direction's order. |
| Tables.CompareInOrder | static/js/tables.js:64-66 | The comparator returns at most 0 exactly when the first row may precede the second. |
| Tables.SortRowsStable | static/js/tables.js:47 | Rows that compare equal keep their input order. |
| Tables.SortedUnique | static/js/tables.js:47-67 | With distinct keys there is only one arrangement in key order. |
| Tables.SortDescReversesAsc | static/js/tables.js:64-65 | With distinct keys the descending sort of the present rows is the ascending one reversed. |
| Tables.DescReversesAsc | static/js/tables.js:64-65 | On two present cells the descending comparison is the ascending one negated. Nullish cells compare the same in both directions. |
| Tables.ApplySearch | static/js/tables.js:18-25 | The header row keeps its display. Every other row is shown exactly when its upper-cased text contains the upper-cased query. |
| Tables.SearchProperties | static/js/tables.js:15-20 | The empty query shows every row. Search ignores the case of the text and of the query. |
| Tables.UpperLower | static/js/tables.js:15-20 | Upper-casing after lower-casing is upper-casing. |
| Tables.FormatRows | static/js/tables.js:170-189 | The row loop over the formatted cells throws exactly when some row has a cell of those columns that is present and not a number. |
| Tables.ScorecardThrowInStats | static/js/tables.js:111 | The scorecard table formats only the distance, which the stats table formats too, so a scorecard that throws would also throw in the stats table. |
| Tables.RawRow | static/js/tables.js:226 | One cell per raw column, in the fixed column order. |
| Tables.RawBody | static/js/tables.js:225-227 | One rendered row per telemetry row, in order. |
| Tables.RawCellRule | static/js/tables.js:226 | A cell is blank exactly when the value is null or missing. Otherwise it shows the value, including 0, false and "". |
| Tables.RawTable.constructor | static/js/tables.js:207-211 | The raw table starts empty. |
| Tables.RawTable.Render | static/js/tables.js:207-228 | Missing or empty rows leave the table as it was. Otherwise the header is the 26 fixed columns and the body is the rendered rows. |
| Tables.CsvLine | static/js/tables.js:249-252 | One cell per header, each the stringified field (a null reads as ""). |
| Tables.CsvLines | static/js/tables.js:249-252 | One line per exported row, its cells joined by commas. |
| Tables.SelectDeviceRows | static/js/tables.js:236-239 | Under "all" every sample row is exported. Otherwise exactly the rows of that IMEI, in sample order. |
| Tables.CsvLineHasNoNewline | static/js/tables.js:249-252 | No line of the export contains a raw line break. |
| Tables.ExportLines | static/js/tables.js:241-253 | An empty selection gives nothing to export. Otherwise the text is the header line and one line per selected row, and it splits back into those lines. |
| Tables.CsvText | static/js/tables.js:247-253 | The export text of a non-empty selection splits back into its lines and holds one line break per row. |
| MapView.FindFirst | static/js/map.js:40 | A point found for an IMEI has that IMEI. |
| MapView.StartMarkers | static/js/map.js:39-48 | One start marker per first point, at its coordinates and labelled with its IMEI. |
| MapView.EventMarkers | static/js/map.js:65-104 | One marker per event point, in order. |
| MapView.Path | static/js/map.js:32 | The polyline has one vertex per valid point, in order. |
| MapView.FindFirstIsFirst | static/js/map.js:40 | `find` returns the first point with the IMEI. |
| MapView.FindFirstOfUnique | static/js/map.js:37-40 | For each IMEI in `Set` order, `find` returns that IMEI's first point. |
| MapView.AllModeDistinct | static/js/map.js:35-48 | In "all" mode no two markers are for the same IMEI. |
| MapView.AllModeCovers | static/js/map.js:35-48 | In "all" mode every device with a valid point has a marker. |
| MapView.AllModeFirstPoints | static/js/map.js:35-48 | In "all" mode each marker sits at the first valid point of its device. |
| MapView.SingleModeMarkers | static/js/map.js:51-104 | For one device the markers are Start, End, then one per event point. There are none without a valid point. |
| MapView.PlottedPointsAreValid | static/js/map.js:27 | Exactly the rows with a truthy, non-zero latitude and longitude are plotted, in order. |
| MapView.EventStyles | static/js/map.js:66-88 | Each event type's colour and icon are as listed. Any other type gets the default grey pin. |
| MapView.DeviceStartMarkers | static/js/map.js:37-48 | The loop builds one start marker per device, at its first point in first-seen order. |
| MapView.PathMarkers | static/js/map.js:56-104 | The loop builds Start, End and the event markers in order. |
| MapView.MapState.constructor | static/js/map.js:15-16 | The map starts without an instance, markers or polyline. |
| MapView.MapState.Render | static/js/map.js:15-107 | After rendering the map exists and holds the markers for the rows and filter. A polyline is drawn exactly for one device with valid points. |
| Theme.IndexOf | static/js/theme.js:18 | `indexOf` is -1 exactly when absent. Otherwise it is the first index holding the value. |
| Theme.InitialTheme | static/js/app.js:15 | The stored theme, or "auto" when none or empty is stored. |
| Theme.NextThemeCycle | static/js/theme.js:17-20 | auto goes to light, light to dark, dark to auto, and anything else to auto. The result is always a theme. |
| Theme.ThreePressesReturn | static/js/theme.js:17-20 | Three presses return to the start exactly for the three known themes. |
| Theme.EffectiveResolution | static/js/theme.js:44-47 | "auto" resolves to the system preference. A chosen theme ignores it. |
| Theme.TilesFollowTheme | static/js/theme.js:108-110 | The light tiles are used exactly when the effective theme is light. |
| Theme.ThemeControl.constructor | static/js/theme.js:13-14 | The stored or default theme is applied at start, without a map. |
| Theme.ThemeControl.Apply | static/js/theme.js:43-64 | The light attribute is set exactly for an effective light theme. The tiles follow when a map exists. |
| Theme.ThemeControl.UpdateMap | static/js/theme.js:98-110 | A no-op without a map. Otherwise it sets the tiles for the effective theme. |
| Theme.ThemeControl.Toggle | static/js/theme.js:17-23 | The theme advances in the cycle, is stored, and is applied. |
| Theme.ThemeControl.OnSystemChange | static/js/theme.js:26-30 | A change of the system preference re-applies only under "auto". |
| Theme.ThemeControl.CreateMap | static/js/map.js:15-19 | Creating the map applies the tiles of the current effective theme. |
| Legacy.Bucket | static/script.js:392-397 | Every score falls in one of the five bars. |
| Legacy.Histogram | static/script.js:391-398 | The histogram always has five bars. |
| Legacy.BucketRanges | static/script.js:392-397 | Each bar holds exactly the scores in its range: below 50, [50,70), [70,80), [80,90), 90 and above. |
| Legacy.HistogramBars | static/script.js:390-398 | Each bar counts the scores of its range. |
| Legacy.HistogramTotal | static/script.js:390-398 | The bars add up to the number of scores. |
| Legacy.ScoreHistogram | static/script.js:391-398 | The loop over a five-slot array yields the histogram. |
| Legacy.CountEvents | static/script.js:428-430 | The loop yields the tally of the device's rows with a truthy event type. |
| Legacy.BumpCount | static/script.js:429 | Counting an event adds one under its type and leaves the other counts alone. |
| Legacy.BumpTypes | static/script.js:429 | Counting an event adds its type to the keys and nothing else. |
| Legacy.BumpDistinct | static/script.js:429 | Counting keeps each type listed once. |
| Legacy.TallyCounts | static/script.js:428-430 | The count under each type is the number of rows of that type. |
| Legacy.TallyTypes | static/script.js:428-430 | The tally lists each type once, and lists exactly the types that occur. |
| Legacy.ByCountConsistent | static/script.js:433 | `b[1] - a[1]` is a consistent comparison on the entries. |
| Legacy.TopFive | static/script.js:433 | At most five entries, as many as exist up to five, with counts non-increasing. They are drawn from the entries and are a prefix of the sorted entries. No entry left out has a larger count than one shown. |
| Legacy.FilterRestricts | static/script.js:347-351 | The scorecard and stats tables hold, in order, exactly the rows of the selected IMEI. So does the raw table when the sample has a row of that IMEI; when it has none, the raw table keeps its earlier rows (`renderRawTable` returns early on no rows, script.js:610). |
| Legacy.DeviceOutsideSample | static/script.js:610 | A device with scorecard and stats rows but no sample row: selecting it does not throw, and the raw table goes on showing another device's rows. |
| Legacy.NoScorecardRow | static/script.js:362-365 | A device without a scorecard row shows "--" and 0 records. |
| Legacy.NoStatsRow | static/script.js:361-366 | A device without a stats row shows a distance of 0. |
| Legacy.ZeroScoreShowsDashes | static/script.js:363 | A device whose score is exactly 0 shows "--". |
| Legacy.NoneSelected | static/script.js:348-350 | An IMEI no row carries selects nothing. |
| Legacy.DeviceEventChart | static/script.js:421-433 | For one device the chart shows at most five types. Each count shown is the number of that device's rows of that type, and is positive. |
| Legacy.DistinctCount | static/script.js:433 | In a tally with distinct types, each entry's count is the count stored under its type. |
| Legacy.TypesListed | static/script.js:433 | Each listed entry's type is among the tally's keys. |
| Legacy.Monolith.constructor | static/script.js:18-33 | No data, filter "all", the stored or default theme, a blank view. |
| Legacy.Monolith.ToggleTheme | static/script.js:114-120 | The theme advances in the cycle and is stored. Nothing else changes. |
| Legacy.Monolith.UpdateDashboardView | static/script.js:339-374 | Without data nothing changes. Otherwise the view is the refreshed page, as far as the refresh gets: the distance KPI and the `toFixed` cells of the scorecard and stats tables can throw. The raw table is replaced only by a non-empty selection. |
| Legacy.TablesInOrder | static/script.js:448-525 | After the charts the tables are drawn in order until one throws. A scorecard throw keeps all three tables, and a stats throw keeps the stats and raw tables. A refresh that does not throw shows the selection in the scorecard and stats tables, and in the raw table when it is non-empty; an empty sample selection leaves the raw table as it was. |
| Legacy.Monolith.OnFilterChange | static/script.js:334-337 | The selection becomes the chosen value and the view refreshes, the raw table keeping its rows when the value has no sample row. |
| Legacy.Monolith.RenderDashboard | static/script.js:303-331 | The data is stored and the summary is shown. The options come from stats_per_imei and the filter shows "all". The selected IMEI is kept, then the view refreshes; a selected device with no sample row in the new data leaves the previous analysis's raw rows. |
| Legacy.RenderKeepsSelection | static/script.js:326-330 | After a render the filter reads "all" while the raw table stays restricted to the previously selected IMEI. When the new sample has no row of that IMEI, the raw table keeps the rows it showed before. |
| Storage.Sql | database.py:176 | sqlite keeps no booleans: true and false are stored as 1 and 0. Other values are kept. |
| Storage.ScorecardAligned | database.py:229-258 | The reader gives every one of the 28 scorecard columns the key it was written from. |
| Storage.ScorecardRoundTrip | database.py:74-114 | A saved scorecard entry reads back with 28 keys, each holding the stored value of that key. |
| Storage.DataQualityAligned | database.py:265-276 | The 8 data-quality columns read back under the keys they were written from. |
| Storage.DataQualityRoundTrip | database.py:117-131 | A saved data-quality dict reads back key by key. |
| Storage.TelemetryAligned | database.py:296-323 | The 26 telemetry columns read back under the keys they were written from. |
| Storage.TelemetryRoundTrip | database.py:156-193 | A saved telemetry row reads back key by key. The two flags read back as booleans of the stored 1 or 0. |
| Storage.FlagColumns | database.py:176-181 | The flag columns are exactly those of isMoving and ignitionOn. |
| Storage.Take | database.py:153-155 | `s[:n]` is the prefix of length min(n, \|s\|). |
| Storage.StratifyCount | database.py:145-152 | Each device keeps min(its row count, the per-device limit) rows. |
| Storage.StratifySubseq | database.py:146-152 | The stratified rows are a subsequence of the input. |
| Storage.SampleProperties | database.py:142-155 | The stored sample is a subsequence of at most 2000 rows. Without any IMEI it is the first 2000 rows. |
| Storage.StratifiedSample | database.py:142-155 | The sampling loop yields the stratified sample. |
| Storage.DictSet | database.py:283 | A dict assignment sets the key and leaves every other key. |
| Storage.EventsRoundTrip | database.py:134-140 | Each stored event type with a truthy count reads back with that count. Nothing else reads back. |
| Storage.ReadDocument | database.py:50-54 | A readable result yields the summary stored under "summary". |
| Storage.HasDeviceImeis | database.py:143-144 | `if imeis:` holds exactly when some row has a truthy IMEI. |
| Storage.InsertConsistent | database.py:56-193 | Inserting well-shaped rows for one analysis keeps the tables consistent. |
| Storage.SaveConsistent | database.py:43-193 | A successful save adds exactly the id to the analyses, leaves the jobs alone and keeps consistency. |
| Storage.SaveTwiceFails | database.py:58-60 | Saving under a taken id raises. |
| Storage.GetAnalysis | database.py:209-211 | The lookup is None exactly when the id is not stored. |
| Storage.ReadScorecards | database.py:228-258 | One scorecard entry per stored row, in order. |
| Storage.ReadTelemetryRows | database.py:295-323 | One telemetry row per stored row, in order. |
| Storage.Scores | database.py:330 | One score per scorecard entry. |
| Storage.ScoreColumn | database.py:232 | An entry's score is the stored score column. |
| Storage.SaveThenGet | database.py:195-334 | After a save, the lookup returns the summary, scorecard, data quality and events that were saved. |
| Storage.ReadBackParts | database.py:213-283 | Each part read back is the stored value of the saved part. |
| Storage.ScorecardsReadBack | database.py:228-258 | Scorecard entries read back one per entry saved, in order. |
| Storage.StoredFields | database.py:195-334 | Each part the lookup returns is read from what was stored. |
| Storage.WriteScorecards | database.py:74-114 | One 28-column row per scorecard entry. |
| Storage.WriteTelemetryRows | database.py:156-193 | One 26-column row per telemetry row. |
| Storage.ScoreAt | database.py:330 | The i-th score read back is the stored value of the i-th entry's score. |
| Storage.ScoreWritten | database.py:87 | A saved entry's score reads back as its stored value. |
| Storage.SummaryRoundTrip | database.py:213-220 | The summary reads back key by key as stored. |
| Storage.ClientReadsFetched | database.py:325-334 | The client reads whatever the lookup returns as an analysis with the same parts. |
| Storage.FetchedParts | database.py:325-334 | The returned dict holds each part under its key. |
| Storage.FetchedFields | database.py:325-334 | The fields the client looks up are present in the returned dict. |
| Storage.RenameEffect | database.py:374-379 | A rename matches exactly when the id is stored. It changes only that analysis's filename. |
| Storage.RenamesKeepOriginal | database.py:390-403 | Renames never change the original filename that deletion reports. |
| Storage.RemoveEffect | database.py:390-403 | Deletion keeps the tables consistent and removes exactly that id from the analyses. The jobs are untouched, and a second deletion of the id finds nothing. |
| Storage.RemoveConsistent | database.py:401 | Deletion keeps the tables consistent. |
| Storage.GetJob | database.py:455-474 | The job lookup is None exactly when the id is unknown. |
| Storage.JobTransitions | database.py:421-453 | Creation adds a pending job at progress 0 exactly for a new id. Progress, completion and failure set only their own fields of that job. An unknown id is left alone, and other jobs are untouched. |
| Storage.MigrateRunGrows | database.py:495-516 | Migration only adds analyses. |
| Storage.MigratedEntriesSettle | database.py:496-507 | After a run, every entry of the run is skipped by any tables that hold its analyses. |
| Storage.SettledRun | database.py:495-518 | A run over entries that are all skipped migrates nothing. |
| Storage.MigrateTwice | database.py:488-518 | Migration is idempotent: a second run over the same files migrates nothing and changes nothing. |
| Storage.HistoryItems | database.py:495 | Python iterates a list, a dict or a string, and nothing else. A dict or a string yields only strings. |
| Storage.OnlyListsMigrate | database.py:491-497 | A history document that is not a list migrates nothing: it raises at its first entry, or migrates 0 when empty. |
| Storage.MigrateCount | database.py:494-518 | The count returned is the number of analyses added. |
| Storage.Database.constructor | database.py:12-27 | A fresh database has empty tables. |
| Storage.Database.SaveAnalysis | database.py:43-193 | The save succeeds exactly when the result can be stored. Otherwise the tables are untouched. |
| Storage.Database.AnalysisExists | database.py:405-418 | True exactly when the id is stored. |
| Storage.Database.UpdateFilename | database.py:364-379 | The tables and result are those of a rename. |
| Storage.Database.DeleteAnalysis | database.py:381-403 | The tables and result are those of a deletion. |
| Storage.Database.CreateJobRecord | database.py:421-427 | Creation succeeds exactly when the id is new, adding a pending job. |
| Storage.Database.UpdateJobRecord | database.py:429-435 | Sets that job's progress and status. |
| Storage.Database.CompleteJobRecord | database.py:437-444 | Marks that job completed with its analysis id. |
| Storage.Database.FailJobRecord | database.py:446-453 | Marks that job failed with its message. |
| Storage.MigrateJsonToSqlite | database.py:477-518 | The tables and count are those of the migration. A missing history file migrates 0. One that does not parse raises. |
| Storage.MigrateEntries | database.py:495-518 | The loop over the entries gives the run of the migration. |
| Storage.MigrateStep | database.py:495-516 | One turn of the loop consumes one entry of what remains of the run, or ends the run with the tables as they stand when the entry raises. |
| Storage.MigrateOne | database.py:496-516 | The loop body migrates one entry as the entry rule says. A raising entry leaves the tables alone. |
| Worker.AsyncThreshold | worker.py:257-270 | Only files larger than 10 MiB are processed in the background. |
| Worker.SnapshotFields | worker.py:161-164 | A status entry holds its status and progress. |
| Worker.CompletedFields | worker.py:128-133 | A completed entry has status "completed" and progress 100. |
| Worker.FailedFields | worker.py:146-150 | A failed entry has status "failed" and progress 0. |
| Worker.EntriesShape | worker.py:85-153 | A job writes progress 10, 30, 70, 90 up to the stage it reached, then its final entry. Progress changes at each write. |
| Worker.ProgressedRecord | worker.py:166-167 | Each progress report sets the job's progress and status in the database. |
| Worker.SavedAnalysis | worker.py:115-116 | A successful save adds the analysis and leaves the jobs alone. |
| Worker.CompletedRecord | worker.py:119-136 | After completion the job record is completed with the analysis id and keeps progress 90. The analysis is stored. |
| Worker.FailedRecord | worker.py:152-153 | After a failure the job record is failed with the message and keeps the last progress reached. No analysis is added. |
| Worker.OtherJobsUntouched | worker.py:81-153 | Processing a job writes no other job's record. |
| Worker.ProgressedOthers | worker.py:166-167 | Progress reports write no other job's record. |
| Worker.FinishedOthers | worker.py:135-136 | Completion writes no other job's record. |
| Worker.LookupStatus | worker.py:202-221 | The in-memory status wins. Otherwise the database is consulted when there is one. |
| Worker.StatusAfterJob | worker.py:212-215 | After a job, its status is its final entry. |
| Worker.UnknownJobEvents | worker.py:239-241 | An unknown job yields the single "Job not found" event. |
| Worker.EventsStop | worker.py:250-252 | The generator stops at the first terminal status and ignores later lookups. |
| Worker.EventsChangeProgress | worker.py:243-248 | Every event is a looked-up status. Consecutive events differ in progress. |
| Worker.FollowingAllStages | worker.py:236-252 | Following a job's entries yields them all, then stops. |
| Worker.Looked | worker.py:237 | One lookup result per entry, in order. |
| Worker.FollowingAJob | worker.py:224-254 | A client that reads every write of a job sees all of them and the generator stops. |
| Worker.ProcessingJob.constructor | worker.py:22-30 | A new job is pending at progress 0, with no result, error or analysis id. |
| Worker.BackgroundWorker.constructor | worker.py:36-46 | The worker holds the processing function and database, with no jobs. |
| Worker.BackgroundWorker.SubmitJob | worker.py:170-199 | Submission happens exactly when there is no database or the id is new. It creates the job record, registers the pending status and queues a fresh pending job. Otherwise nothing in memory changes. |
| Worker.BackgroundWorker.GetJobStatus | worker.py:202-221 | The status is the lookup rule's answer. |
| Worker.BackgroundWorker.UpdateJobStatus | worker.py:155-167 | Sets the job's status and progress in the object, the results map and the database. |
| Worker.BackgroundWorker.Fail | worker.py:140-153 | The job is failed with the message in the object, the results map and the database. |
| Worker.BackgroundWorker.Complete | worker.py:121-136 | The job is completed with its result in the object, the results map and the database. |
| Worker.BackgroundWorker.ProcessJob | worker.py:81-153 | The job's writes and final state are those of the outcome of its stages. |
| Worker.BackgroundWorker.ReadFailure | worker.py:140-153 | When reading the file raises, the job fails after only the report at 10, with the read error as its message. |
| Worker.BackgroundWorker.ProcessRead | worker.py:103-109 | From the file's contents on, the course is that of the processing result. |
| Worker.BackgroundWorker.ProcessResult | worker.py:108-111 | From the processing result on, the writes and the job's state are those of the outcome that result leads to. |
| Worker.BackgroundWorker.SaveAndComplete | worker.py:113-136 | Succeeds exactly when the save does, then completes. Otherwise it fails with the save's error. |
| Worker.BackgroundWorker.SaveOrFail | worker.py:113-119 | The save either stores the analysis or fails the job. |
| Worker.BackgroundWorker.CompleteSaved | worker.py:119-136 | After a save, progress 90 then completion. |
| Worker.BackgroundWorker.TrySave | worker.py:115-116 | Saving succeeds exactly when there is no database or the save can store the result. |
| Worker.BackgroundWorker.Progress | worker.py:155-167 | One more progress write for the job. |
| Worker.BackgroundWorker.Failure | worker.py:140-153 | The failure write ends the job's record of writes. |
| Worker.BackgroundWorker.Completion | worker.py:121-136 | The completion write ends the job's record of writes. |
| Worker.Concluded | worker.py:81-153 | The writes `_process_job` made are exactly those of its outcome. |
| Worker.GenerateProgressEvents | worker.py:223-256 | The generator loop yields exactly the events `Events` gives for its successive lookups, and says whether it returned. |
| Worker.EventsAdvance | worker.py:235-254 | One lookup: a missing job ends the output with the not-found event. A terminal status ends it after the status, which is sent only when its progress changed. Any other status continues from the next lookup with the new last progress. |
| Extraction.GetOr | app.py:124-126 | The default is used only when the key is absent. |
| Extraction.Points | app.py:89-97 | A dict is one point, a list is its items, and anything else gives no points. |
| Extraction.AppendPoints | app.py:120-154 | The point loop appends the records of the accepted points. |
| Extraction.ExtractTelemetry | app.py:63-160 | The entry loop collects the records of every entry. |
| Extraction.ExtractedAppend | app.py:63 | Entries contribute independently and in order. |
| Extraction.NoAdditionalInformation | app.py:68-77 | An entry without a payload, or without AdditionalInformation, yields nothing. |
| Extraction.MessagePoints | app.py:82-97 | A decodable message yields its points: a string message is decoded again, and another value is used directly. |
| Extraction.UndecodableUsesFallback | app.py:98-114 | When the primary decode fails, the fallback decode's points are used, or nothing. |
| Extraction.FlattenedOrigin | app.py:120-154 | Every record comes from a dict point with an "imei" key. There are no more records than points. |
| Extraction.SkippedPoint | app.py:121-122 | A point that is not a dict with an "imei" is skipped. |
| Extraction.AllPointsKept | app.py:120-154 | When every point is well formed, each yields its record in order. |
| Extraction.BrokenPointStopsEntry | app.py:124-160 | A point whose addOns is present but not a dict ends its entry and drops the rest. The records before it stay. |
| Extraction.RecordColumns | app.py:128-154 | Every record has the same 25 columns in the same order. |
| Extraction.RecordIdentityFromPoint | app.py:129-131 | The record's IMEI and time are the point's. |
| Extraction.RecordPositionFromPoint | app.py:132-141 | The record's latitude and longitude are the point's. |
| Extraction.RecordFromEntryAndEvent | app.py:153 | The receive time comes from the log entry and the event type from the point's event. |
| Extraction.RecordFromAddOns | app.py:142-152 | The odometer comes from addOns and the RPM from addOns.canbus. |
| Extraction.AsWrittenWithinCorrected | app.py:212-214 | The records the as-written de-duplication keeps are a subsequence of those the four-column de-duplication keeps, so it never keeps more. |
| Extraction.GluedIdsCollide | app.py:212-214 | Two records of one device and time at (1.5, 23.0) and (1.52, 3.0) have different identities. The as-written de-duplication still drops the second. |
| Extraction.RecordIdCollision | app.py:212-214 | As written, two records at (1.5, 23.0) and (1.52, 3.0) get the same id and one is dropped. |
| Extraction.DistinctPositionsKept | app.py:212-214 | With the four columns as the identity, both of those records are kept. |
| Extraction.ProcessLogData | app.py:52-216 | Extraction, then de-duplication on the glued `record_id`, as written. The result is the processed logs. |
| Extraction.DeduplicateRecords | app.py:212-216 | No record gives no result. Otherwise the records kept on the glued `record_id`, the initial count and the removed count. |
| Extraction.ProcessedProperties | app.py:162-216 | No record means no result. Otherwise the first record of each glued `record_id` is kept, in order, and every id present is kept. The removed count is the initial count minus the kept count. |
| Extraction.NothingRemoved | app.py:213-215 | No duplicate is removed exactly when no two records share an identity. |
| Extraction.ColumnCount | app.py:244 | A crosstab column never counts more rows than the device has. |
| Extraction.UnbalancedReportedOk | app.py:283 | As written, twenty ignition-on events and no ignition-off are reported "OK" whenever the ignition-on type is not literally "Ignition_on" or "Ignition_off". The corrected balance flags them. |
| Extraction.TypeCount | app.py:244 | A type's count never exceeds the device's rows. |
| Extraction.ColumnOfType | app.py:244 | The crosstab column of a string type counts exactly the rows of that type. |
| Extraction.ColumnUnnamed | app.py:283 | A column that no row's type names counts 0, which is what `stats.get(..., 0)` reads. |
| Extraction.CountOnly | app.py:244 | Rows all of one type count once each under it and 0 under any other type. |
| Extraction.CoherenceRule | app.py:283-292 | A device is flagged exactly when its ignition-on and ignition-off counts differ by more than ten. |
| Extraction.PairKeepsVerdict | app.py:283-292 | A matched on/off pair never changes the verdict. |
| Extraction.TypeCountAppend | app.py:244 | Type counts add over concatenated rows. |
| History.WithoutDefined | app.py:401 | The comprehension fails exactly when some entry has no readable id. |
| History.WithoutSubseq | app.py:401 | The kept entries keep their order. |
| History.WithoutKeeps | app.py:401 | The kept entries are exactly the entries with another id. |
| History.WithoutShrinks | app.py:401-403 | Deletion removes something exactly when some entry has the id. |
| History.WithoutNoMatch | app.py:401-403 | Nothing is removed when every entry has another id. |
| History.WithoutConcat | app.py:401 | Filtering distributes over concatenation. |
| History.EntryId | app.py:377-381 | A history entry's id is the result id. |
| History.SaveThenDelete | app.py:377-401 | Deleting a just-saved entry restores the previous history. |
| History.SaveThenDeleteReply | app.py:382-414 | The delete that follows an upload succeeds. |
| History.DeleteTwice | app.py:398-404 | A second delete of the same id finds nothing. |
| History.ReadLines | app.py:359-364 | The line loop yields the decodable non-blank lines, in order. |
| History.LineLogsOrigin | app.py:359-364 | Each value comes from a non-blank line that decodes to it. There are no more values than lines. |
| History.NonObjectsYieldNothing | app.py:159-160 | Entries that are not dicts yield nothing. |
| History.UploadRefusals | app.py:341-368 | A missing file part, an empty filename or no records give a 400 with the message. A 200 is exactly a result. |
| History.NoRecordsNoResult | app.py:366-368 | A readable upload yields no result exactly when no record was extracted. |
| History.Newlines | app.py:355-360 | The text read in text mode holds no carriage return and is no longer than the file. |
| History.NewlinesPlain | app.py:355-360 | A text without carriage returns reads as it is. |
| History.LineBreaks | app.py:358-360 | A lone "\r", "\r\n" and "\n" each end a line in the same way. |
| History.NewlinesPrefix | app.py:355-360 | A prefix without carriage returns reads unchanged, whatever follows it. |
| History.ObjectOrStringYieldsNothing | app.py:353-366 | A file holding one JSON object or string yields no result. |
| History.Server.constructor | app.py:22-24 | The server starts with the given history and stored results. |
| History.Server.LoadHistory | app.py:26-31 | A missing or unreadable history gives the empty list. Otherwise it gives the stored list. |
| History.Server.SaveHistoryEntry | app.py:33-37 | A new entry goes first in the history. |
| History.Server.GetResult | app.py:390-396 | The stored document, or 404 "Result not found". |
| History.Server.DeleteHistoryItem | app.py:398-414 | The reply is the delete rule's. On success the entry and its result file are gone. Otherwise nothing changes. |
| History.Server.UploadFile | app.py:339-384 | The reply is the upload rule's, on the text as universal newlines read it. On success the result is stored and the history gains its entry. Otherwise nothing changes. |
| Sorting.InsertionSortPermutation | static/js/tables.js:47 | The sorted copy is a permutation of the input. |
| Sorting.InsertionSortStable | static/js/tables.js:47 | Equal elements keep their input order. |
| Sorting.InsertionSortSorted | static/js/tables.js:47 | The result is sorted under a consistent comparison. |

## Left out

- Threads, the job queue, the lock, `time.sleep`, and the worker's start, stop and loop are not modelled. Jobs are processed one call at a time, and `job_results` is a field of the worker rather than a module global.
- File I/O is out. The history file, result files and uploads are values: present, missing or unreadable.
- uuid generation and timestamps are parameters.
- Server-Sent Events framing (the `data:` lines of the HTML Living Standard, section 9.2) is out. The model works on the status dicts the events carry.
- The pandas stage after de-duplication is a parameter of the upload model: type coercions, aggregation, scoring, rounding and sorting the scorecard. Only the ignition-coherence rule is modelled from it.
- `json.loads` is the `decode` parameter. The `unicode_escape`/`raw_decode` fallback is the `fallback` parameter. UnicodeDecodeError and duplicate JSON keys are not modelled.
- Storage.GetAnalysis: the ranked window query that picks the telemetry rows is a parameter (`window`), not SQL. `created_at` ordering and `get_history` are not modelled.
- Storage.MigrateEntry: an id that is truthy but not a string is skipped rather than queried. The migration error message is not modelled.
- Storage.MigrateJsonToSqlite: why the history file fails to parse is not modelled. Any parse failure is the single Unparseable case, which raises before any entry.
- The database keeps progress 90 when a job completes (complete_job does not set progress). The model keeps this.
- Formatting is out: the text `toFixed`, `toLocaleString` and `new Date(...).toLocaleString()` produce. KPIs and table rows are the values shown before formatting. The `toFixed` throws are modelled: a cell that is present and not a number. A missing total, where `toLocaleString` would raise, is not modelled. Table headers are not modelled, so a header rewritten just before a row throws is not either.
- Dashboard.RenderThrows: a document reads as an analysis only when it has `summary`, a `scorecard` array of objects, `chart_data.events_summary` and a `raw_data_sample` array of objects. The JS render reads the scorecard as `data.scorecard || []` and never reads `raw_data_sample`, so it renders documents without them that the model counts as throwing. The server always sends both parts. The same reading underlies Dashboard.AllDevicesView, Dashboard.RefreshRequestsFirstPage, Dashboard.App.UpdateDashboardView and Dashboard.App.RenderDashboard.
- Chart.js, Leaflet and the DOM are out beyond the data they are given: colours, popups, bounds and `setTimeout` refits. The theme icons and chart colours are not modelled.
- localization.js and utils.js are out (translated strings, loaders, skeletons, history rendering and renaming in the browser).
- The legacy client's history, upload, export, search and map handlers are not modelled. They duplicate the modular client's, which are modelled in Tables, MapView and Dashboard.
- JavaScript orders integer-like property keys first in `Object.entries`. The model keeps insertion order.
- Numbers are reals. NaN and infinities do not occur.
- Strings are sequences of characters. Case mapping is ASCII only.
- The result app.py builds has `stats_per_imei` and `chart_data.score_distribution` but no `data_quality`. The one `get_analysis` returns has `data_quality`. The modular client reads `data_quality`; a render of a document without it destroys both charts and then throws, which the Dashboard model follows. The legacy client reads `stats_per_imei`.
- Dashboard.App.RenderDashboard: a document that does not read as an analysis is taken to throw right after the dashboard is shown. Where JS would get further before failing (writing a header or a KPI, or failing later on a malformed scorecard), those partial writes are not modelled. The text of the TypeError in the alert is engine-specific and not modelled.
- JobTracking.JobTracker.Poll: on the polling fallback a render that throws is caught by the poll's own catch, which polls again. JS then re-renders until the 120 attempts run out and alerts the timeout. Dashboard.App.OnJobOutcome models the stream's path, where nothing catches the throw, and not this loop.
- Dashboard.App.SortClick: a string cell compared with a non-string cell throws at `toLowerCase`, after the sort state is set and before the table is drawn again. A number compared with a numeric string is coerced by `<`. The model treats keys of different kinds as ties and draws the table again.
- Tables.KeyLessOrder: keys of different kinds are never less than one another. The JS coercion between numbers and numeric strings is not modelled. Array cells are keys of the other kind and tie with each other, where JS `<` compares their comma-joined texts ("1,2" before "1,3"); object cells tie in both.
- Worker.BackgroundWorker.ProcessJob: the file's contents are taken as a list of log values. `json.load` may return any top-level JSON value, a single object say, and hands it to the processing function as it is; a file whose whole text is not one JSON value is read line by line into a list, as the model has it.
- Dashboard.ScoreColour: only numbers are compared with 90 and 70. JS coerces a numeric string such as "95" and colours it green; the model colours every non-number red.
- Tables.SortRowsNullsLast: `Array.prototype.sort` is modelled by a stable insertion sort in which the element being placed moves left only while the comparator is negative. The source's comparator answers 1 in both orders for null cells, so with another engine's algorithm the null rows may land elsewhere. The model fixes them after the rows with values, in input order.
- Tables.SortDescReversesAsc: stated only for rows whose keys are pairwise distinct. With ties the stable sort does not reverse.
- Extraction.ColumnCount: counts one crosstab column for one device. The merge with `fillna(0)` across devices is not modelled.

## Findings

| source | as written | input that shows it | evidently intended | confidence | as-written member | corrected member |
|---|---|---|---|---|---|---|
| app.py:212 | `record_id` glues the IMEI, time, latitude and longitude texts with no separator, so distinct positions can produce the same id | two points of one device at one time at (1.5, 23.0) and (1.52, 3.0): both ids end in "1.523.0" and the second point is dropped | de-duplicate on the four columns themselves | high, not executed | Extraction.RecordIdCollision | Extraction.DistinctPositionsKept |
| app.py:283 | the balance reads the crosstab columns of the event types "Ignition_on" and "Ignition_off". app.py:153 stores the log's raw `event.type`: numbers such as 6 and 7, or labels such as "Ignition On" after the normalisation tests/test_normalization.py:24 expects. None of these names either column, so both read 0 and the balance is 0 | a device with twenty ignition-on events (type 6, or "Ignition On") and no ignition-off is reported "OK" | compare the counts of the ignition-on and ignition-off types, whatever they are called, and flag imbalances over ten | high, not executed | Extraction.UnbalancedReportedOk | Extraction.CoherenceRule |
