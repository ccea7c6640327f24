/**
 * Dynamic values shared by the browser client (JavaScript) and the server
 * (Python): the JSON data model, records as ordered field lists, the two
 * languages' notions of truthiness, ASCII case mapping and JSON.stringify.
 */
module Values {

  datatype Option<T> = None | Some(value: T)

  /** A JSON value.  Numbers are mathematical reals (NaN and infinities do
      not occur in JSON documents). */
  datatype Value =
    | Null
    | Bool(b: bool)
    | Num(n: real)
    | Str(s: string)
    | Arr(items: seq<Value>)
    | Obj(fields: seq<(string, Value)>)

  /** A record (a JS object or a Python dict) as its fields in insertion
      order, which is the order Object.keys and dict iteration report. */
  type Row = seq<(string, Value)>

  /** The analysis document the server returns and the client keeps as
      `currentData`: the fields the client reads. `dataQuality` is None
      when the document has no `data_quality` or it is null, as in the
      result `process_log_data` builds; the charts then throw on it. */
  datatype Analysis = Analysis(
    summary: Row,
    scorecard: seq<Row>,
    eventsSummary: Row,
    dataQuality: Option<Row>,
    rawDataSample: seq<Row>)

  /** The items of a JSON array whose items are all objects, as rows. */
  function ObjectRows(items: seq<Value>): (r: Option<seq<Row>>)
    ensures r.Some? ==> |r.value| == |items| && forall i :: 0 <= i < |items| ==> items[i] == Obj(r.value[i])
    ensures r.None? ==> exists i :: 0 <= i < |items| && !items[i].Obj?
  {
    if items == [] then Some([])
    else if !items[|items| - 1].Obj? then None
    else
      var front := ObjectRows(items[..|items| - 1]);
      if front.None? then None else Some(front.value + [items[|items| - 1].fields])
  }

  function RowsValue(rows: seq<Row>): (v: Value)
    ensures v.Arr? && |v.items| == |rows|
    ensures forall i :: 0 <= i < |rows| ==> v.items[i] == Obj(rows[i])
  {
    Arr(seq(|rows|, i requires 0 <= i < |rows| => Obj(rows[i])))
  }

  function ObjectField(fields: Row, key: string): Option<Row> {
    var v := Get(fields, key);
    if v.Some? && v.value.Obj? then Some(v.value.fields) else None
  }

  function ArrayField(fields: Row, key: string): Option<seq<Row>> {
    var v := Get(fields, key);
    if v.Some? && v.value.Arr? then ObjectRows(v.value.items) else None
  }

  /** Reading a parsed JSON document as an analysis: `summary`, `scorecard`,
      `chart_data.events_summary`, `data_quality` and `raw_data_sample`,
      each of the shape the client reads; None for any other document. */
  function AnalysisOf(v: Value): Option<Analysis> {
    if !v.Obj? then None
    else
      var f := v.fields;
      var summary := ObjectField(f, "summary");
      var scorecard := ArrayField(f, "scorecard");
      var chart := ObjectField(f, "chart_data");
      var events := if chart.Some? then ObjectField(chart.value, "events_summary") else None;
      var sample := ArrayField(f, "raw_data_sample");
      if summary.Some? && scorecard.Some? && events.Some? && sample.Some? then
        Some(Analysis(summary.value, scorecard.value, events.value, QualityField(f), sample.value))
      else None
  }

  /** `data.data_quality` as the radar reads it: None when it is missing or
      null (reading an axis of it throws), an object's fields, and no fields
      for any other value (every axis of it reads `undefined`). */
  function QualityField(f: Row): (q: Option<Row>)
    ensures q.None? <==> Nullish(Get(f, "data_quality"))
    ensures q.Some? && Get(f, "data_quality").value.Obj? ==> q.value == Get(f, "data_quality").value.fields
  {
    var v := Get(f, "data_quality");
    if Nullish(v) then None else if v.value.Obj? then Some(v.value.fields) else Some([])
  }

  /** How a data-quality part is laid out: an object, or null when absent. */
  function QualityValue(q: Option<Row>): Value {
    if q.Some? then Obj(q.value) else Null
  }

  /** The analysis laid out as a JSON document (an absent data-quality
      part as null). */
  function AnalysisValue(a: Analysis): Value {
    Obj([("summary", Obj(a.summary)),
         ("scorecard", RowsValue(a.scorecard)),
         ("chart_data", Obj([("events_summary", Obj(a.eventsSummary))])),
         ("data_quality", QualityValue(a.dataQuality)),
         ("raw_data_sample", RowsValue(a.rawDataSample))])
  }

  lemma ObjectRowsOfRows(rows: seq<Row>)
    ensures ObjectRows(RowsValue(rows).items) == Some(rows)
  {
    var r := ObjectRows(RowsValue(rows).items);
    assert r.Some?;
    assert r.value == rows;
  }

  lemma GetCons(k: string, v: Value, rest: Row, key: string)
    ensures Get([(k, v)] + rest, key) == if k == key then Some(v) else Get(rest, key)
  {
    assert ([(k, v)] + rest)[1..] == rest;
  }

  /** The fields the reader looks up, in the laid-out document. */
  lemma AnalysisValueFields(a: Analysis)
    ensures var f := AnalysisValue(a).fields;
      Get(f, "summary") == Some(Obj(a.summary))
      && Get(f, "scorecard") == Some(RowsValue(a.scorecard))
      && Get(f, "chart_data") == Some(Obj([("events_summary", Obj(a.eventsSummary))]))
      && Get(f, "data_quality") == Some(QualityValue(a.dataQuality))
      && Get(f, "raw_data_sample") == Some(RowsValue(a.rawDataSample))
  {
    var f5: Row := [("raw_data_sample", RowsValue(a.rawDataSample))];
    var f4 := [("data_quality", QualityValue(a.dataQuality))] + f5;
    var f3 := [("chart_data", Obj([("events_summary", Obj(a.eventsSummary))]))] + f4;
    var f2 := [("scorecard", RowsValue(a.scorecard))] + f3;
    var f1 := [("summary", Obj(a.summary))] + f2;
    assert AnalysisValue(a).fields == f1;
    GetCons("summary", Obj(a.summary), f2, "summary");
    GetCons("summary", Obj(a.summary), f2, "scorecard");
    GetCons("scorecard", RowsValue(a.scorecard), f3, "scorecard");
    GetCons("summary", Obj(a.summary), f2, "chart_data");
    GetCons("scorecard", RowsValue(a.scorecard), f3, "chart_data");
    GetCons("chart_data", Obj([("events_summary", Obj(a.eventsSummary))]), f4, "chart_data");
    GetCons("summary", Obj(a.summary), f2, "data_quality");
    GetCons("scorecard", RowsValue(a.scorecard), f3, "data_quality");
    GetCons("chart_data", Obj([("events_summary", Obj(a.eventsSummary))]), f4, "data_quality");
    GetCons("data_quality", QualityValue(a.dataQuality), f5, "data_quality");
    GetCons("summary", Obj(a.summary), f2, "raw_data_sample");
    GetCons("scorecard", RowsValue(a.scorecard), f3, "raw_data_sample");
    GetCons("chart_data", Obj([("events_summary", Obj(a.eventsSummary))]), f4, "raw_data_sample");
    GetCons("data_quality", QualityValue(a.dataQuality), f5, "raw_data_sample");
  }

  lemma LaidOutParts(a: Analysis)
    ensures var f := AnalysisValue(a).fields;
      ObjectField(f, "summary") == Some(a.summary)
      && ArrayField(f, "scorecard") == Some(a.scorecard)
      && ObjectField(f, "chart_data") == Some([("events_summary", Obj(a.eventsSummary))])
      && QualityField(f) == a.dataQuality
      && ArrayField(f, "raw_data_sample") == Some(a.rawDataSample)
  {
    AnalysisValueFields(a);
    PartsOf(AnalysisValue(a).fields, a);
  }

  /** A document holding the laid-out parts under their keys reads each
      part back. */
  lemma PartsOf(f: Row, a: Analysis)
    requires Get(f, "summary") == Some(Obj(a.summary))
    requires Get(f, "scorecard") == Some(RowsValue(a.scorecard))
    requires Get(f, "chart_data") == Some(Obj([("events_summary", Obj(a.eventsSummary))]))
    requires Get(f, "data_quality") == Some(QualityValue(a.dataQuality))
    requires Get(f, "raw_data_sample") == Some(RowsValue(a.rawDataSample))
    ensures ObjectField(f, "summary") == Some(a.summary)
    ensures ArrayField(f, "scorecard") == Some(a.scorecard)
    ensures ObjectField(f, "chart_data") == Some([("events_summary", Obj(a.eventsSummary))])
    ensures QualityField(f) == a.dataQuality
    ensures ArrayField(f, "raw_data_sample") == Some(a.rawDataSample)
  {
    ObjectRowsOfRows(a.scorecard);
    ObjectRowsOfRows(a.rawDataSample);
  }

  lemma ReadBack(f: Row, a: Analysis)
    requires ObjectField(f, "summary") == Some(a.summary)
    requires ArrayField(f, "scorecard") == Some(a.scorecard)
    requires ObjectField(f, "chart_data") == Some([("events_summary", Obj(a.eventsSummary))])
    requires QualityField(f) == a.dataQuality
    requires ArrayField(f, "raw_data_sample") == Some(a.rawDataSample)
    ensures AnalysisOf(Obj(f)) == Some(a)
  {
    assert ObjectField([("events_summary", Obj(a.eventsSummary))], "events_summary") == Some(a.eventsSummary);
  }

  /** Every analysis survives being laid out and read back. */
  lemma AnalysisRoundTrip(a: Analysis)
    ensures AnalysisOf(AnalysisValue(a)) == Some(a)
  {
    LaidOutParts(a);
    ReadBack(AnalysisValue(a).fields, a);
  }

  /** Property read: None stands for JavaScript's `undefined` (key absent). */
  function Get(row: Row, key: string): (r: Option<Value>)
    ensures r.None? <==> forall i :: 0 <= i < |row| ==> row[i].0 != key
    ensures r.Some? ==> (key, r.value) in row
  {
    if row == [] then None
    else if row[0].0 == key then Some(row[0].1)
    else Get(row[1..], key)
  }

  /** The field names in insertion order (`Object.keys`). */
  function Keys(row: Row): (ks: seq<string>)
    ensures |ks| == |row|
    ensures forall i :: 0 <= i < |row| ==> ks[i] == row[i].0
  {
    if row == [] then [] else [row[0].0] + Keys(row[1..])
  }

  /** Python's `d.get(key)`: a missing key reads as None. */
  function OrNull(v: Option<Value>): Value {
    if v.Some? then v.value else Null
  }

  function PyGet(row: Row, key: string): Value {
    OrNull(Get(row, key))
  }

  /** JavaScript truthiness (no NaN among JSON numbers). */
  predicate JsTruthy(v: Value) {
    match v
    case Null => false
    case Bool(b) => b
    case Num(n) => n != 0.0
    case Str(s) => s != ""
    case Arr(_) => true
    case Obj(_) => true
  }

  /** Truthiness of a property read, where `undefined` is falsy. */
  predicate Truthy(v: Option<Value>) {
    v.Some? && JsTruthy(v.value)
  }

  /** Python truthiness: empty containers are falsy too. */
  predicate PyTruthy(v: Value) {
    match v
    case Null => false
    case Bool(b) => b
    case Num(n) => n != 0.0
    case Str(s) => s != ""
    case Arr(items) => items != []
    case Obj(fields) => fields != []
  }

  /** JavaScript `v == null`: undefined or null. */
  predicate Nullish(v: Option<Value>) {
    v.None? || v.value.Null?
  }

  /** JavaScript `v || fallback`. */
  function OrElse(v: Option<Value>, fallback: Value): Value {
    if Truthy(v) then v.value else fallback
  }

  // ---------------------------------------------------------------------
  // Case mapping (String.prototype.toUpperCase/toLowerCase on ASCII letters)

  function LowerChar(c: char): char {
    if 'A' <= c <= 'Z' then (c as int + 32) as char else c
  }

  function UpperChar(c: char): char {
    if 'a' <= c <= 'z' then (c as int - 32) as char else c
  }

  function Lower(s: string): (r: string)
    ensures |r| == |s|
    ensures forall i :: 0 <= i < |s| ==> r[i] == LowerChar(s[i])
  {
    if s == [] then [] else [LowerChar(s[0])] + Lower(s[1..])
  }

  function Upper(s: string): (r: string)
    ensures |r| == |s|
    ensures forall i :: 0 <= i < |s| ==> r[i] == UpperChar(s[i])
  {
    if s == [] then [] else [UpperChar(s[0])] + Upper(s[1..])
  }

  // ---------------------------------------------------------------------
  // Substrings (`String.prototype.includes`, `indexOf(..) > -1`)

  predicate IsPrefix(p: string, s: string) {
    |p| <= |s| && s[..|p|] == p
  }

  predicate Contains(s: string, sub: string)
    decreases |s|
  {
    IsPrefix(sub, s) || (s != [] && Contains(s[1..], sub))
  }

  /** `sub` occurs in `s` starting at index `i`. */
  predicate OccursAt(s: string, sub: string, i: int) {
    0 <= i && i + |sub| <= |s| && s[i..i + |sub|] == sub
  }

  /** `Contains` is `indexOf(sub) > -1`: some index holds an occurrence. */
  lemma {:induction false} ContainsWitness(s: string, sub: string)
    ensures Contains(s, sub) <==> exists i :: OccursAt(s, sub, i)
    decreases |s|
  {
    if IsPrefix(sub, s) {
      assert OccursAt(s, sub, 0);
    } else if s == [] {
    } else {
      ContainsWitness(s[1..], sub);
      if Contains(s[1..], sub) {
        var i :| OccursAt(s[1..], sub, i);
        assert s[i + 1..i + 1 + |sub|] == s[1..][i..i + |sub|];
        assert OccursAt(s, sub, i + 1);
      } else {
        forall i | OccursAt(s, sub, i) && i > 0
          ensures OccursAt(s[1..], sub, i - 1)
        {
          assert s[1..][i - 1..i - 1 + |sub|] == s[i..i + |sub|];
        }
      }
    }
  }

  // ---------------------------------------------------------------------
  // Joining and counting characters

  /** `parts.join(sep)` for a one-character separator. */
  function Join(parts: seq<string>, sep: char): string {
    if parts == [] then ""
    else if |parts| == 1 then parts[0]
    else parts[0] + [sep] + Join(parts[1..], sep)
  }

  function CountChar(s: string, c: char): nat {
    if s == [] then 0 else (if s[0] == c then 1 else 0) + CountChar(s[1..], c)
  }

  lemma {:induction false} CountCharAppend(a: string, b: string, c: char)
    ensures CountChar(a + b, c) == CountChar(a, c) + CountChar(b, c)
  {
    if a == [] {
      assert a + b == b;
    } else {
      assert (a + b)[1..] == a[1..] + b;
      CountCharAppend(a[1..], b, c);
    }
  }

  /** Splitting the joined text at the separator recovers the parts, so the
      separator occurs once between consecutive parts and nowhere else. */
  lemma {:induction false} JoinCount(parts: seq<string>, sep: char)
    requires forall i :: 0 <= i < |parts| ==> CountChar(parts[i], sep) == 0
    ensures |parts| > 0 ==> CountChar(Join(parts, sep), sep) == |parts| - 1
  {
    if |parts| > 1 {
      JoinCount(parts[1..], sep);
      CountCharAppend(parts[0] + [sep], Join(parts[1..], sep), sep);
      CountCharAppend(parts[0], [sep], sep);
    }
  }

  /** `s.split(sep)` for a one-character separator: "" splits to [""]. */
  function Split(s: string, sep: char): (parts: seq<string>)
    ensures |parts| >= 1
  {
    if s == [] then [""]
    else
      var rest := Split(s[1..], sep);
      if s[0] == sep then [""] + rest else [[s[0]] + rest[0]] + rest[1..]
  }

  lemma {:induction false} SplitNoSep(a: string, sep: char)
    requires CountChar(a, sep) == 0
    ensures Split(a, sep) == [a]
  {
    if a != [] {
      SplitNoSep(a[1..], sep);
      assert [a[0]] + a[1..] == a;
    }
  }

  lemma {:induction false} SplitAtSep(a: string, b: string, sep: char)
    requires CountChar(a, sep) == 0
    ensures Split(a + [sep] + b, sep) == [a] + Split(b, sep)
  {
    var s := a + [sep] + b;
    if a == [] {
      assert s[1..] == b;
    } else {
      assert s[1..] == a[1..] + [sep] + b;
      SplitAtSep(a[1..], b, sep);
      assert [a[0]] + a[1..] == a;
    }
  }

  /** Splitting joined parts at the separator gives the parts back, provided
      no part contains the separator. */
  lemma {:induction false} SplitJoin(parts: seq<string>, sep: char)
    requires |parts| >= 1
    requires forall i :: 0 <= i < |parts| ==> CountChar(parts[i], sep) == 0
    ensures Split(Join(parts, sep), sep) == parts
  {
    if |parts| == 1 {
      SplitNoSep(parts[0], sep);
    } else {
      SplitJoin(parts[1..], sep);
      SplitAtSep(parts[0], Join(parts[1..], sep), sep);
      assert [parts[0]] + parts[1..] == parts;
    }
  }

  // ---------------------------------------------------------------------
  // JSON.stringify

  /** The escape JSON.stringify uses for one character of a string. */
  function EscapeChar(c: char): string {
    if c == '"' then "\\\""
    else if c == '\\' then "\\\\"
    else if c == '\n' then "\\n"
    else if c == '\r' then "\\r"
    else if c == '\t' then "\\t"
    else if c == '\U{8}' then "\\b"
    else if c == '\U{C}' then "\\f"
    else if c < ' ' then "\\u00" + [HexDigit(c as int / 16), HexDigit(c as int % 16)]
    else [c]
  }

  function HexDigit(d: int): char
    requires 0 <= d < 16
  {
    if d < 10 then ('0' as int + d) as char else ('a' as int + d - 10) as char
  }

  function Escape(s: string): string {
    if s == [] then "" else EscapeChar(s[0]) + Escape(s[1..])
  }

  function Quote(s: string): (r: string)
    ensures |r| >= 2 && r[0] == '"' && r[|r| - 1] == '"'
  {
    "\"" + Escape(s) + "\""
  }

  /** JSON.stringify of a value.  Number formatting
      (Number.prototype.toString) is the parameter `num`. */
  function Stringify(v: Value, num: real -> string): string
    decreases v, 1
  {
    match v
    case Null => "null"
    case Bool(b) => if b then "true" else "false"
    case Num(n) => num(n)
    case Str(s) => Quote(s)
    case Arr(items) => "[" + StringifyItems(v, items, num) + "]"
    case Obj(fields) => "{" + StringifyFields(v, fields, num) + "}"
  }

  function StringifyItems(ghost parent: Value, items: seq<Value>, num: real -> string): string
    requires forall i :: 0 <= i < |items| ==> items[i] < parent
    decreases parent, 0, |items|
  {
    if items == [] then ""
    else if |items| == 1 then Stringify(items[0], num)
    else Stringify(items[0], num) + "," + StringifyItems(parent, items[1..], num)
  }

  function StringifyFields(ghost parent: Value, fields: seq<(string, Value)>, num: real -> string): string
    requires forall i :: 0 <= i < |fields| ==> fields[i].1 < parent
    decreases parent, 0, |fields|
  {
    if fields == [] then ""
    else
      var first := Quote(fields[0].0) + ":" + Stringify(fields[0].1, num);
      if |fields| == 1 then first
      else first + "," + StringifyFields(parent, fields[1..], num)
  }

  /** No escaped character is a raw line break. */
  lemma {:induction false} EscapeHasNoNewline(s: string)
    ensures CountChar(Escape(s), '\n') == 0
  {
    if s != [] {
      EscapeHasNoNewline(s[1..]);
      CountCharAppend(EscapeChar(s[0]), Escape(s[1..]), '\n');
      var e := EscapeChar(s[0]);
      if s[0] < ' ' && s[0] != '\n' && s[0] != '\r' && s[0] != '\t' && s[0] != '\U{8}' && s[0] != '\U{C}' {
        assert e == "\\u00" + [HexDigit(s[0] as int / 16), HexDigit(s[0] as int % 16)];
        assert forall k :: 0 <= k < |e| ==> e[k] != '\n';
        CountCharNone(e, '\n');
      } else {
        assert forall k :: 0 <= k < |e| ==> e[k] != '\n';
        CountCharNone(e, '\n');
      }
    }
  }

  lemma {:induction false} CountCharNone(s: string, c: char)
    requires forall k :: 0 <= k < |s| ==> s[k] != c
    ensures CountChar(s, c) == 0
  {
    if s != [] {
      CountCharNone(s[1..], c);
    }
  }

  lemma {:induction false} CountCharConcat3(a: string, b: string, c: string, ch: char)
    ensures CountChar(a + b + c, ch) == CountChar(a, ch) + CountChar(b, ch) + CountChar(c, ch)
  {
    CountCharAppend(a + b, c, ch);
    CountCharAppend(a, b, ch);
  }

  /** A quoted string never contains a raw line break, whatever it encodes. */
  lemma QuoteHasNoNewline(s: string)
    ensures CountChar(Quote(s), '\n') == 0
  {
    EscapeHasNoNewline(s);
    CountCharConcat3("\"", Escape(s), "\"", '\n');
  }

  /** JSON.stringify never emits a raw line break, provided number formatting
      does not. */
  lemma {:induction false} StringifyHasNoNewline(v: Value, num: real -> string)
    requires forall x :: CountChar(num(x), '\n') == 0
    ensures CountChar(Stringify(v, num), '\n') == 0
    decreases v, 1
  {
    match v
    case Null => CountCharNone("null", '\n');
    case Bool(b) => CountCharNone("true", '\n'); CountCharNone("false", '\n');
    case Num(n) =>
    case Str(s) => QuoteHasNoNewline(s);
    case Arr(items) =>
      StringifyItemsHasNoNewline(v, items, num);
      CountCharConcat3("[", StringifyItems(v, items, num), "]", '\n');
    case Obj(fields) =>
      StringifyFieldsHasNoNewline(v, fields, num);
      CountCharConcat3("{", StringifyFields(v, fields, num), "}", '\n');
  }

  lemma {:induction false} StringifyItemsHasNoNewline(parent: Value, items: seq<Value>, num: real -> string)
    requires forall x :: CountChar(num(x), '\n') == 0
    requires forall i :: 0 <= i < |items| ==> items[i] < parent
    ensures CountChar(StringifyItems(parent, items, num), '\n') == 0
    decreases parent, 0, |items|
  {
    if items != [] {
      StringifyHasNoNewline(items[0], num);
      if |items| > 1 {
        StringifyItemsHasNoNewline(parent, items[1..], num);
        CountCharConcat3(Stringify(items[0], num), ",", StringifyItems(parent, items[1..], num), '\n');
      }
    }
  }

  lemma {:induction false} StringifyFieldsHasNoNewline(parent: Value, fields: seq<(string, Value)>, num: real -> string)
    requires forall x :: CountChar(num(x), '\n') == 0
    requires forall i :: 0 <= i < |fields| ==> fields[i].1 < parent
    ensures CountChar(StringifyFields(parent, fields, num), '\n') == 0
    decreases parent, 0, |fields|
  {
    if fields != [] {
      QuoteHasNoNewline(fields[0].0);
      StringifyHasNoNewline(fields[0].1, num);
      var first := Quote(fields[0].0) + ":" + Stringify(fields[0].1, num);
      CountCharConcat3(Quote(fields[0].0), ":", Stringify(fields[0].1, num), '\n');
      if |fields| > 1 {
        StringifyFieldsHasNoNewline(parent, fields[1..], num);
        CountCharConcat3(first, ",", StringifyFields(parent, fields[1..], num), '\n');
      }
    }
  }
}
