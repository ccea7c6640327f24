/**
 * The server's upload route and its history list (app.py): an upload is
 * read as one JSON document or, failing that, line by line; the extracted
 * analysis is stored under a fresh id, and an entry naming it is put at the
 * front of the history list.  Deleting an id drops every history entry with
 * that id and the stored analysis.
 *
 * The history file and the folder of stored analyses are the fields of
 * `Server`; a history file that is missing or does not parse reads as an
 * empty list.  Replies are the status code and the JSON body, with `Null`
 * for the error page of an uncaught exception.
 */
module History {
  import opened Values
  import opened Seqs
  import opened Extraction

  datatype Reply = Reply(status: nat, body: Value)

  function Error(status: nat, message: string): Reply {
    Reply(status, Obj([("error", Str(message))]))
  }

  const ServerError: Reply := Reply(500, Null)

  // ---------------------------------------------------------------------
  // The history list

  /** `item['id']`, or None when it raises (not a dict, or no "id"). */
  function IdOf(item: Value): Option<Value> {
    if item.Obj? then Get(item.fields, "id") else None
  }

  /** What the comprehension keeps of one item: nothing when its id is
      `id`, the item otherwise, None when reading the id raises. */
  function Kept(item: Value, id: string): Option<seq<Value>> {
    match IdOf(item)
    case None => None
    case Some(v) => Some(if v == Str(id) then [] else [item])
  }

  /** Concatenation that fails when either part failed. */
  function Join(a: Option<seq<Value>>, b: Option<seq<Value>>): Option<seq<Value>> {
    if a.Some? && b.Some? then Some(a.value + b.value) else None
  }

  /** `[item for item in history if item['id'] != id]`, or None when
      reading some item's id raises. */
  function Without(history: seq<Value>, id: string): Option<seq<Value>> {
    if history == [] then Some([])
    else Join(Without(history[..|history| - 1], id), Kept(history[|history| - 1], id))
  }

  function HistoryEntry(id: string, filename: string, summary: Value): Value {
    Obj([("id", Str(id)), ("filename", Str(filename)), ("summary", summary)])
  }

  /** The reply of `delete_history_item` for a history list. */
  function DeleteReply(history: seq<Value>, id: string): Reply {
    match Without(history, id)
    case None => ServerError
    case Some(kept) =>
      if |kept| == |history| then Error(404, "Item not found")
      else Reply(200, Obj([("success", Bool(true))]))
  }

  /** The comprehension fails exactly when some entry has no readable id. */
  lemma {:induction false} WithoutDefined(history: seq<Value>, id: string)
    ensures Without(history, id).Some? <==> forall i :: 0 <= i < |history| ==> IdOf(history[i]).Some?
  {
    if history != [] {
      var front := history[..|history| - 1];
      WithoutDefined(front, id);
      if Without(front, id).None? {
        var i :| 0 <= i < |front| && IdOf(front[i]).None?;
        assert history[i] == front[i];
      }
    }
  }

  /** Otherwise it keeps entries in their order... */
  lemma {:induction false} WithoutSubseq(history: seq<Value>, id: string)
    requires Without(history, id).Some?
    ensures Subseq(Without(history, id).value, history)
  {
    if history != [] {
      var front := history[..|history| - 1];
      var item := history[|history| - 1];
      assert Without(front, id).Some?;
      WithoutSubseq(front, id);
      var kept := Without(front, id).value;
      assert Without(history, id).value == kept + Kept(item, id).value;
      assert history == front + [item];
      if IdOf(item).value == Str(id) {
        assert kept + Kept(item, id).value == kept;
        SubseqSkipLast(kept, front, item);
      } else {
        SubseqExtend(kept, front, item);
      }
    }
  }

  /** ...and they are exactly the entries with another id. */
  lemma {:induction false} WithoutKeeps(history: seq<Value>, id: string)
    requires Without(history, id).Some?
    ensures forall x :: x in Without(history, id).value <==> x in history && IdOf(x) != Some(Str(id))
  {
    if history != [] {
      var front := history[..|history| - 1];
      var item := history[|history| - 1];
      assert Without(front, id).Some?;
      WithoutKeeps(front, id);
      var kept := Without(front, id).value;
      var k := Without(history, id).value;
      assert k == kept + Kept(item, id).value;
      assert history == front + [item];
      forall x
        ensures x in k <==> x in history && IdOf(x) != Some(Str(id))
      {
        assert x in history <==> x in front || x == item;
        assert x in k <==> x in kept || x in Kept(item, id).value;
      }
    }
  }

  /** And it removes something exactly when some entry has the id. */
  lemma {:induction false} WithoutShrinks(history: seq<Value>, id: string)
    requires Without(history, id).Some?
    ensures |Without(history, id).value| <= |history|
    ensures |Without(history, id).value| == |history| <==>
              forall i :: 0 <= i < |history| ==> IdOf(history[i]) != Some(Str(id))
  {
    if history != [] {
      var front := history[..|history| - 1];
      var item := history[|history| - 1];
      assert Without(front, id).Some?;
      WithoutShrinks(front, id);
      if |Without(front, id).value| != |front| {
        var i :| 0 <= i < |front| && IdOf(front[i]) == Some(Str(id));
        assert history[i] == front[i];
      }
    }
  }

  /** Nothing is removed when every entry has another id. */
  lemma {:induction false} WithoutNoMatch(history: seq<Value>, id: string)
    requires forall i :: 0 <= i < |history| ==> IdOf(history[i]).Some? && IdOf(history[i]) != Some(Str(id))
    ensures Without(history, id) == Some(history)
  {
    if history != [] {
      WithoutNoMatch(history[..|history| - 1], id);
      assert history[..|history| - 1] + [history[|history| - 1]] == history;
    }
  }

  lemma {:induction false} WithoutConcat(a: seq<Value>, b: seq<Value>, id: string)
    requires Without(a, id).Some? && Without(b, id).Some?
    ensures Without(a + b, id) == Some(Without(a, id).value + Without(b, id).value)
    decreases |b|
  {
    if b == [] {
      assert a + b == a;
      assert Without(a, id).value + [] == Without(a, id).value;
    } else {
      var front, x := b[..|b| - 1], b[|b| - 1];
      assert (a + b)[..|a + b| - 1] == a + front;
      assert (a + b)[|a + b| - 1] == x;
      WithoutConcat(a, front, id);
      var wa, wf, k := Without(a, id).value, Without(front, id).value, Kept(x, id).value;
      assert (wa + wf) + k == wa + (wf + k);
    }
  }

  lemma WithoutOne(item: Value, id: string)
    ensures Without([item], id) == Join(Some([]), Kept(item, id))
  {
    assert [item][..0] == [];
  }

  lemma EntryId(id: string, filename: string, summary: Value)
    ensures IdOf(HistoryEntry(id, filename, summary)) == Some(Str(id))
  {
  }

  /** Deleting the id of a freshly saved entry gives the history back as it
      was, provided no older entry shares that id. */
  lemma SaveThenDelete(history: seq<Value>, id: string, filename: string, summary: Value)
    requires forall i :: 0 <= i < |history| ==> IdOf(history[i]).Some? && IdOf(history[i]) != Some(Str(id))
    ensures Without([HistoryEntry(id, filename, summary)] + history, id) == Some(history)
  {
    var entry := HistoryEntry(id, filename, summary);
    EntryId(id, filename, summary);
    WithoutOne(entry, id);
    WithoutNoMatch(history, id);
    WithoutConcat([entry], history, id);
    assert Without([entry], id).value + Without(history, id).value == [] + history == history;
  }

  /** The delete that follows an upload succeeds. */
  lemma SaveThenDeleteReply(history: seq<Value>, id: string, filename: string, summary: Value)
    requires forall i :: 0 <= i < |history| ==> IdOf(history[i]).Some? && IdOf(history[i]) != Some(Str(id))
    ensures DeleteReply([HistoryEntry(id, filename, summary)] + history, id).status == 200
  {
    SaveThenDelete(history, id, filename, summary);
  }

  /** A second delete of the same id finds nothing. */
  lemma DeleteTwice(history: seq<Value>, id: string)
    requires Without(history, id).Some?
    ensures var kept := Without(history, id).value;
            Without(kept, id) == Some(kept) && DeleteReply(kept, id) == Error(404, "Item not found")
  {
    WithoutKeeps(history, id);
    WithoutDefined(history, id);
    var kept := Without(history, id).value;
    forall i | 0 <= i < |kept|
      ensures IdOf(kept[i]).Some? && IdOf(kept[i]) != Some(Str(id))
    {
      assert kept[i] in kept;
      var j :| 0 <= j < |history| && history[j] == kept[i];
    }
    WithoutNoMatch(kept, id);
  }

  // ---------------------------------------------------------------------
  // Reading an upload

  predicate IsSpace(c: char) {
    c == ' ' || c == '\t' || c == '\n' || c == '\r' || c == '\U{000B}' || c == '\U{000C}'
  }

  /** `line.strip()` is empty. */
  predicate Blank(line: string) {
    forall i :: 0 <= i < |line| ==> IsSpace(line[i])
  }

  /** The text a file opened in text mode reads as: universal newlines turn
      "\r\n" and a lone "\r" into "\n". */
  function Newlines(s: string): (t: string)
    ensures '\r' !in t
    ensures |t| <= |s|
  {
    if s == [] then []
    else if s[0] == '\r' then
      if |s| > 1 && s[1] == '\n' then "\n" + Newlines(s[2..]) else "\n" + Newlines(s[1..])
    else [s[0]] + Newlines(s[1..])
  }

  /** A text without carriage returns reads as it is. */
  lemma {:induction false} NewlinesPlain(s: string)
    requires '\r' !in s
    ensures Newlines(s) == s
  {
    if s != [] {
      assert '\r' !in s[1..];
      NewlinesPlain(s[1..]);
      assert [s[0]] + s[1..] == s;
    }
  }

  /** A lone carriage return ends a line just as "\r\n" and "\n" do. */
  lemma LineBreaks(a: string, b: string)
    requires '\r' !in a && '\r' !in b && (b == [] || b[0] != '\n')
    ensures Newlines(a + "\r" + b) == a + "\n" + b
    ensures Newlines(a + "\r\n" + b) == a + "\n" + b
    ensures Newlines(a + "\n" + b) == a + "\n" + b
  {
    LineBreak(a, "\r", b);
    LineBreak(a, "\r\n", b);
    LineBreak(a, "\n", b);
  }

  lemma LineBreak(a: string, brk: string, b: string)
    requires brk == "\r" || brk == "\r\n" || brk == "\n"
    requires '\r' !in a && '\r' !in b && (b == [] || b[0] != '\n')
    ensures Newlines(a + brk + b) == a + "\n" + b
  {
    var tail := brk + b;
    assert a + brk + b == a + tail;
    NewlinesPrefix(a, tail);
    NewlinesPlain(b);
    assert tail[|brk|..] == b;
    if brk == "\r" {
      assert |tail| > 1 ==> tail[1] != '\n';
    }
    assert Newlines(tail) == "\n" + Newlines(b);
    assert a + ("\n" + b) == a + "\n" + b;
  }

  /** A prefix without carriage returns is read unchanged, whatever
      follows it. */
  lemma {:induction false} NewlinesPrefix(a: string, b: string)
    requires '\r' !in a
    ensures Newlines(a + b) == a + Newlines(b)
  {
    if a != [] {
      assert (a + b)[0] == a[0] && (a + b)[1..] == a[1..] + b;
      assert '\r' !in a[1..];
      NewlinesPrefix(a[1..], b);
      assert [a[0]] + (a[1..] + Newlines(b)) == a + Newlines(b);
    } else {
      assert a + b == b;
    }
  }

  /** The line-by-line reading: blank lines and lines that are not JSON are
      skipped. */
  function LineLogs(lines: seq<string>, decode: Decoder): seq<Value> {
    if lines == [] then []
    else
      var line := lines[|lines| - 1];
      LineLogs(lines[..|lines| - 1], decode)
      + (if !Blank(line) && decode(line).Some? then [decode(line).value] else [])
  }

  method ReadLines(lines: seq<string>, decode: Decoder) returns (logs: seq<Value>)
    ensures logs == LineLogs(lines, decode)
  {
    logs := [];
    for i := 0 to |lines|
      invariant logs == LineLogs(lines[..i], decode)
    {
      assert lines[..i + 1][..i] == lines[..i];
      if !Blank(lines[i]) {
        var parsed := decode(lines[i]);
        if parsed.Some? {
          logs := logs + [parsed.value];
        }
      }
    }
    assert lines[..|lines|] == lines;
  }

  /** Every entry read line by line is the decoding of a non-blank line, in
      order. */
  lemma {:induction false} LineLogsOrigin(lines: seq<string>, decode: Decoder)
    ensures |LineLogs(lines, decode)| <= |lines|
    ensures forall v :: v in LineLogs(lines, decode) ==>
              exists i :: 0 <= i < |lines| && !Blank(lines[i]) && decode(lines[i]) == Some(v)
  {
    if lines != [] {
      var front := lines[..|lines| - 1];
      LineLogsOrigin(front, decode);
      forall v | v in LineLogs(lines, decode)
        ensures exists i :: 0 <= i < |lines| && !Blank(lines[i]) && decode(lines[i]) == Some(v)
      {
        if v in LineLogs(front, decode) {
          var i :| 0 <= i < |front| && !Blank(front[i]) && decode(front[i]) == Some(v);
          assert lines[i] == front[i];
        }
      }
    }
  }

  /** What iterating the parsed document yields: a list its items, a dict
      its keys, a string its characters; None when `len` raises (a number,
      a boolean or null). */
  function Iterated(doc: Value): Option<seq<Value>> {
    match doc
    case Arr(items) => Some(items)
    case Obj(fields) => Some(seq(|fields|, i requires 0 <= i < |fields| => Str(fields[i].0)))
    case Str(s) => Some(seq(|s|, i requires 0 <= i < |s| => Str([s[i]])))
    case _ => None
  }

  /** The log entries of an uploaded file, or None when reading them
      raises. */
  function UploadedLogs(content: string, decode: Decoder): Option<seq<Value>> {
    var text := Newlines(content);
    match decode(text)
    case Some(doc) => Iterated(doc)
    case None => Some(LineLogs(Split(text, '\n'), decode))
  }

  // ---------------------------------------------------------------------
  // The upload reply

  /** The multipart request: the file name of its "file" part, None when
      there is no such part. */
  datatype UploadRequest = UploadRequest(file: Option<string>)

  /** The aggregation of the de-duplicated records into the result
      document, as a function of the file name. */
  type Analyse = (string, Processed) -> Row

  /** What reading and extracting the upload gives: None when reading it
      raises, otherwise the result of the extraction. */
  function Outcome(content: string, decode: Decoder, fallback: Decoder, cell: CellText): Option<Option<Processed>> {
    match UploadedLogs(content, decode)
    case None => None
    case Some(logs) => Some(ProcessedLogs(logs, decode, fallback, cell))
  }

  /** The reply of `upload_file` given what the file yielded. */
  function Answer(request: UploadRequest, outcome: Option<Option<Processed>>, analyse: Analyse, resultId: string): Reply {
    if request.file.None? then Error(400, "No file part")
    else if request.file.value == "" then Error(400, "No selected file")
    else match outcome
      case None => ServerError
      case Some(None) => Error(400, "No valid telemetry data found")
      case Some(Some(p)) =>
        Reply(200, Obj([("id", Str(resultId)), ("data", Obj(analyse(request.file.value, p)))]))
  }

  function UploadReply(request: UploadRequest, content: string, decode: Decoder, fallback: Decoder,
                       cell: CellText, analyse: Analyse, resultId: string): Reply
  {
    Answer(request, Outcome(content, decode, fallback, cell), analyse, resultId)
  }

  /** Entries that are not dicts yield nothing. */
  lemma {:induction false} NonObjectsYieldNothing(logs: seq<Value>, decode: Decoder, fallback: Decoder)
    requires forall i :: 0 <= i < |logs| ==> !logs[i].Obj?
    ensures Extracted(logs, decode, fallback) == []
  {
    if logs != [] {
      var front := logs[..|logs| - 1];
      NonObjectsYieldNothing(front, decode, fallback);
      assert front + [logs[|logs| - 1]] == logs;
      ExtractedAppend(front, [logs[|logs| - 1]], logs[|logs| - 1], decode, fallback);
    }
  }

  /** The upload is accepted only with a named file from which some
      record is extracted; a missing part, an empty name and a file without
      records are each answered 400 with their own message. */
  lemma UploadRefusals(request: UploadRequest, outcome: Option<Option<Processed>>, analyse: Analyse, resultId: string)
    ensures request.file.None? ==> Answer(request, outcome, analyse, resultId) == Error(400, "No file part")
    ensures request.file == Some("") ==> Answer(request, outcome, analyse, resultId) == Error(400, "No selected file")
    ensures request.file.Some? && request.file.value != "" && outcome == Some(None) ==>
      Answer(request, outcome, analyse, resultId) == Error(400, "No valid telemetry data found")
    ensures Answer(request, outcome, analyse, resultId).status == 200 <==>
      request.file.Some? && request.file.value != "" && outcome.Some? && outcome.value.Some?
  {
  }

  /** A readable file yields no result exactly when no record is extracted
      from it. */
  lemma NoRecordsNoResult(content: string, decode: Decoder, fallback: Decoder, cell: CellText)
    requires UploadedLogs(content, decode).Some?
    ensures Outcome(content, decode, fallback, cell) == Some(None) <==>
              Extracted(UploadedLogs(content, decode).value, decode, fallback) == []
  {
    ProcessedProperties(UploadedLogs(content, decode).value, decode, fallback, cell);
  }

  /** A file holding one JSON object or one JSON string yields no record:
      iterating it gives strings, which are not log entries. */
  lemma ObjectOrStringYieldsNothing(content: string, decode: Decoder, fallback: Decoder, cell: CellText)
    requires var doc := decode(Newlines(content)); doc.Some? && (doc.value.Obj? || doc.value.Str?)
    ensures Outcome(content, decode, fallback, cell) == Some(None)
  {
    var logs := UploadedLogs(content, decode).value;
    assert forall i :: 0 <= i < |logs| ==> logs[i].Str?;
    NonObjectsYieldNothing(logs, decode, fallback);
    NoRecordsNoResult(content, decode, fallback, cell);
  }

  // ---------------------------------------------------------------------
  // The server's files

  class Server {
    /** history.json when it holds a readable list; None when it is missing
        or does not parse. */
    var stored: Option<seq<Value>>
    /** The processed folder: the result document stored under each id. */
    var results: map<string, Value>

    constructor (stored: Option<seq<Value>>, results: map<string, Value>)
      ensures this.stored == stored && this.results == results
    {
      this.stored := stored;
      this.results := results;
    }

    /** `load_history`: any failure to read gives the empty list. */
    function LoadHistory(): (h: seq<Value>)
      reads this
      ensures stored.None? ==> h == []
      ensures stored.Some? ==> h == stored.value
    {
      if stored.Some? then stored.value else []
    }

    /** `save_history_entry`: the entry goes first, the rest keep their
        order; a history that could not be read is replaced. */
    method SaveHistoryEntry(entry: Value)
      modifies this
      ensures stored == Some([entry] + old(LoadHistory()))
      ensures results == old(results)
    {
      var history := LoadHistory();
      stored := Some([entry] + history);
    }

    /** `get_result`: the stored document, or 404. */
    function GetResult(id: string): (r: Reply)
      reads this
      ensures id in results ==> r == Reply(200, results[id])
      ensures id !in results ==> r == Error(404, "Result not found")
    {
      if id in results then Reply(200, results[id]) else Error(404, "Result not found")
    }

    /** `delete_history_item`: the file is rewritten, and the stored result
        removed, only when some entry was dropped. */
    method DeleteHistoryItem(id: string) returns (reply: Reply)
      modifies this
      ensures reply == DeleteReply(old(LoadHistory()), id)
      ensures reply.status == 200 ==>
        stored == Without(old(LoadHistory()), id) && results == old(results) - {id}
      ensures reply.status != 200 ==> stored == old(stored) && results == old(results)
    {
      var history := LoadHistory();
      var kept := Without(history, id);
      if kept.None? {
        return ServerError;
      }
      if |history| == |kept.value| {
        return Error(404, "Item not found");
      }
      stored := kept;
      results := results - {id};
      return Reply(200, Obj([("success", Bool(true))]));
    }

    /** `upload_file`: on success the result document is stored under the
        new id and its entry heads the history; every refusal leaves both
        files as they were. */
    method UploadFile(request: UploadRequest, content: string, decode: Decoder, fallback: Decoder,
                      cell: CellText, analyse: Analyse, resultId: string)
      returns (reply: Reply)
      modifies this
      ensures reply == UploadReply(request, content, decode, fallback, cell, analyse, resultId)
      ensures reply.status == 200 ==>
        var data := Obj(analyse(request.file.value, ProcessedLogs(UploadedLogs(content, decode).value, decode, fallback, cell).value));
        results == old(results)[resultId := data]
        && stored == Some([HistoryEntry(resultId, request.file.value, OrNull(Get(data.fields, "summary")))] + old(LoadHistory()))
      ensures reply.status != 200 ==> stored == old(stored) && results == old(results)
    {
      if request.file.None? {
        return Error(400, "No file part");
      }
      var filename := request.file.value;
      if filename == "" {
        return Error(400, "No selected file");
      }
      var text := Newlines(content);
      var logs: seq<Value>;
      match decode(text) {
        case Some(doc) =>
          var iterated := Iterated(doc);
          if iterated.None? {
            return ServerError;
          }
          logs := iterated.value;
        case None =>
          logs := ReadLines(Split(text, '\n'), decode);
      }
      var result := ProcessLogData(logs, decode, fallback, cell);
      if result.None? {
        return Error(400, "No valid telemetry data found");
      }
      var data := analyse(filename, result.value);
      results := results[resultId := Obj(data)];
      SaveHistoryEntry(HistoryEntry(resultId, filename, OrNull(Get(data, "summary"))));
      reply := Reply(200, Obj([("id", Str(resultId)), ("data", Obj(data))]));
    }
  }
}
