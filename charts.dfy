/**
 * The two dashboard charts, as the data vectors handed to the chart
 * library: the data-completeness radar and the six-event bar chart.
 */
module Charts {
  import opened Values

  /** Radar axes, in display order, and the `data_quality` key of each. */
  const RadarKeys: seq<string> := ["gps_validity", "ignition", "delay", "rpm", "speed", "temp", "dist", "fuel"]

  /** `dq.<key> || 0` for each axis. No axis ever shows a falsy value:
      each is a truthy value or 0. */
  function RadarData(dq: Row): (r: seq<Value>)
    ensures |r| == 8
    ensures forall i :: 0 <= i < 8 ==> JsTruthy(r[i]) || r[i] == Num(0.0)
  {
    seq(8, i requires 0 <= i < 8 => OrElse(Get(dq, RadarKeys[i]), Num(0.0)))
  }

  /** An axis shows the row's own value exactly when that value is truthy;
      a missing, null, false, empty or zero value shows as 0. */
  lemma RadarAxes(dq: Row)
    ensures forall i :: 0 <= i < 8 && Truthy(Get(dq, RadarKeys[i])) ==> RadarData(dq)[i] == Get(dq, RadarKeys[i]).value
    ensures forall i :: 0 <= i < 8 && !Truthy(Get(dq, RadarKeys[i])) ==> RadarData(dq)[i] == Num(0.0)
    ensures (forall i :: 0 <= i < 8 ==> !Truthy(Get(dq, RadarKeys[i]))) <==>
            RadarData(dq) == [Num(0.0), Num(0.0), Num(0.0), Num(0.0), Num(0.0), Num(0.0), Num(0.0), Num(0.0)]
  {
    var r := RadarData(dq);
    if forall i :: 0 <= i < 8 ==> !Truthy(Get(dq, RadarKeys[i])) {
      assert r == [Num(0.0), Num(0.0), Num(0.0), Num(0.0), Num(0.0), Num(0.0), Num(0.0), Num(0.0)];
    }
  }

  /** Only the eight axis keys matter: two rows that agree on them draw the
      same radar, whatever else they hold. */
  lemma RadarReadsAxesOnly(dq1: Row, dq2: Row)
    requires forall i :: 0 <= i < 8 ==> Get(dq1, RadarKeys[i]) == Get(dq2, RadarKeys[i])
    ensures RadarData(dq1) == RadarData(dq2)
  {
  }

  /** The fixed bar-chart labels. */
  const TargetEvents: seq<string> := ["Ignition On", "Ignition Off", "Harsh Breaking", "Harsh Acceleration", "Harsh Turn", "SOS"]

  /** For one device, the scorecard field that holds each label's count. */
  const ScorecardEventFields: seq<string> := ["Ignition_On", "Ignition_Off", "Harsh_Breaking", "Harsh_Acceleration", "Harsh_Turn", "SOS_Count"]

  /** `data.scorecard.find(r => r.imei === imei)`. */
  function FindByImei(scorecard: seq<Row>, imei: string): (r: Option<Row>)
    ensures r.Some? ==> r.value in scorecard && Get(r.value, "imei") == Some(Str(imei))
    ensures r.None? ==> forall i :: 0 <= i < |scorecard| ==> Get(scorecard[i], "imei") != Some(Str(imei))
  {
    if scorecard == [] then None
    else if Get(scorecard[0], "imei") == Some(Str(imei)) then Some(scorecard[0])
    else FindByImei(scorecard[1..], imei)
  }

  /** The count under each label, as the chart's data vector: from
      `events_summary` for all devices, from the device's scorecard row
      (or `{}`) otherwise; every missing or falsy count is 0. */
  function EventVector(eventsSummary: Row, scorecard: seq<Row>, imei: string): (r: seq<Value>)
    ensures |r| == |TargetEvents|
  {
    if imei == "all" then
      seq(6, i requires 0 <= i < 6 => OrElse(Get(eventsSummary, TargetEvents[i]), Num(0.0)))
    else
      var found := FindByImei(scorecard, imei);
      var sc := if found.Some? then found.value else [];
      seq(6, i requires 0 <= i < 6 => OrElse(Get(sc, ScorecardEventFields[i]), Num(0.0)))
  }

  /** In "all" mode the bars depend on the summary's six labels and on
      nothing else: other event types in the summary, the scorecard and
      its rows never change them. */
  lemma EventVectorAll(summary1: Row, summary2: Row, scorecard1: seq<Row>, scorecard2: seq<Row>)
    requires forall i :: 0 <= i < 6 ==> Get(summary1, TargetEvents[i]) == Get(summary2, TargetEvents[i])
    ensures EventVector(summary1, scorecard1, "all") == EventVector(summary2, scorecard2, "all")
  {
  }

  /** For one device the bars come from the first scorecard row with that
      IMEI, and are all 0 when no row matches. */
  lemma EventVectorSingle(eventsSummary: Row, scorecard: seq<Row>, imei: string)
    requires imei != "all"
    ensures forall k :: 0 <= k < |scorecard| && Get(scorecard[k], "imei") == Some(Str(imei))
              && (forall j :: 0 <= j < k ==> Get(scorecard[j], "imei") != Some(Str(imei)))
              ==> forall i :: 0 <= i < 6 ==>
                EventVector(eventsSummary, scorecard, imei)[i] == OrElse(Get(scorecard[k], ScorecardEventFields[i]), Num(0.0))
    ensures (forall k :: 0 <= k < |scorecard| ==> Get(scorecard[k], "imei") != Some(Str(imei))) ==>
              EventVector(eventsSummary, scorecard, imei) == [Num(0.0), Num(0.0), Num(0.0), Num(0.0), Num(0.0), Num(0.0)]
  {
    forall k | 0 <= k < |scorecard| && Get(scorecard[k], "imei") == Some(Str(imei))
        && (forall j :: 0 <= j < k ==> Get(scorecard[j], "imei") != Some(Str(imei)))
      ensures FindByImei(scorecard, imei) == Some(scorecard[k])
    {
      FindFirst(scorecard, imei, k);
    }
  }

  lemma {:induction false} FindFirst(scorecard: seq<Row>, imei: string, k: int)
    requires 0 <= k < |scorecard| && Get(scorecard[k], "imei") == Some(Str(imei))
    requires forall j :: 0 <= j < k ==> Get(scorecard[j], "imei") != Some(Str(imei))
    ensures FindByImei(scorecard, imei) == Some(scorecard[k])
  {
    if k > 0 {
      FindFirst(scorecard[1..], imei, k - 1);
    }
  }

  lemma TargetEventsDistinct()
    ensures forall i, j :: 0 <= i < j < 6 ==> TargetEvents[i] != TargetEvents[j]
  {
    assert TargetEvents[0][10] == 'n';
    assert TargetEvents[1][10] == 'f';
    assert TargetEvents[2][6] == 'B' && TargetEvents[3][6] == 'A' && TargetEvents[4][6] == 'T';
    assert TargetEvents[0][0] == 'I' && TargetEvents[1][0] == 'I';
    assert TargetEvents[2][0] == 'H' && TargetEvents[3][0] == 'H' && TargetEvents[4][0] == 'H';
    assert TargetEvents[5][0] == 'S';
  }

  /** The label-to-count object the chart code fills: every label starts at
      0, then each is overwritten from the summary or the device's row.
      Reading it back label by label gives the data vector. */
  method EventCounts(eventsSummary: Row, scorecard: seq<Row>, imei: string) returns (counts: map<string, Value>)
    ensures forall e :: e in counts <==> e in TargetEvents
    ensures forall i :: 0 <= i < 6 ==> counts[TargetEvents[i]] == EventVector(eventsSummary, scorecard, imei)[i]
  {
    counts := ZeroCounts();
    if imei == "all" {
      counts := Overwrite(counts, eventsSummary, TargetEvents);
    } else {
      var found := FindByImei(scorecard, imei);
      var sc := if found.Some? then found.value else [];
      counts := Overwrite(counts, sc, ScorecardEventFields);
    }
  }

  /** Every label set to 0. */
  method ZeroCounts() returns (counts: map<string, Value>)
    ensures forall e :: e in counts <==> e in TargetEvents
    ensures forall e :: e in counts ==> counts[e] == Num(0.0)
  {
    counts := map[];
    for i := 0 to 6
      invariant forall e :: e in counts <==> e in TargetEvents[..i]
      invariant forall e :: e in counts ==> counts[e] == Num(0.0)
    {
      counts := counts[TargetEvents[i] := Num(0.0)];
    }
    assert TargetEvents[..6] == TargetEvents;
  }

  /** Label `i` overwritten with `source[fields[i]] || 0`, for each label
      in turn. */
  method Overwrite(counts: map<string, Value>, source: Row, fields: seq<string>) returns (out: map<string, Value>)
    requires |fields| == 6
    requires forall e :: e in counts <==> e in TargetEvents
    ensures forall e :: e in out <==> e in TargetEvents
    ensures forall i :: 0 <= i < 6 ==> out[TargetEvents[i]] == OrElse(Get(source, fields[i]), Num(0.0))
  {
    TargetEventsDistinct();
    out := counts;
    for i := 0 to 6
      invariant forall e :: e in out <==> e in TargetEvents
      invariant forall j :: 0 <= j < i ==> out[TargetEvents[j]] == OrElse(Get(source, fields[j]), Num(0.0))
    {
      var name, value := TargetEvents[i], OrElse(Get(source, fields[i]), Num(0.0));
      forall j | 0 <= j < i
        ensures out[name := value][TargetEvents[j]] == out[TargetEvents[j]]
      {
        assert TargetEvents[j] != name;
      }
      out := out[name := value];
    }
  }

}
