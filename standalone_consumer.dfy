/** The debugging consumer standalone_for_debugging/run-consumer.py.

    It uses a protocol of its own: a message whose `type` is "finish" ends
    the loop; every other message is a result, written as a CSV file named
    by the output prefix and a running count. `process_message` keeps that
    count as an attribute of the function object, modelled as the field of
    a `MessageProcessor`. Any exception while receiving or processing is
    swallowed and the loop receives again. */
module StandaloneConsumer {
  import opened Common
  import opened Files

  /** One element of a result's `data`: its `results`, `origSpec` and
      `outputIds` (missing keys are the `.get` defaults). */
  datatype Section = Section(results: seq<Entry>, origSpec: string, outputIds: seq<string>)

  /** A received message: its `type` (absent raises KeyError), its
      `errors` and its `data`. */
  datatype Msg = Msg(msgType: Option<string>, errors: seq<string>, data: seq<Section>)

  /** The rows written to a result file. The header and the result rows
      come from `monica_io.write_output_header_rows` and
      `monica_io.write_output_obj`; they are kept as what they are made
      from. */
  datatype CsvRow =
    | SpecRow(spec: string)
    | HeaderRows(outputIds: seq<string>)
    | ResultRows(outputIds: seq<string>, results: seq<Entry>)
    | BlankRow

  // ---------------------------------------------------------------------------
  // The file name

  /** `config["out"] + str(n) + ".csv"` */
  function ResultPath(out: string, n: nat): string
  {
    out + NatToString(n) + ".csv"
  }

  lemma {:induction false} ResultPathsDiffer(out: string, a: nat, b: nat)
    requires a != b
    ensures ResultPath(out, a) != ResultPath(out, b)
  {
    var sa := NatToString(a);
    var sb := NatToString(b);
    if |sa| == |sb| && ResultPath(out, a) == ResultPath(out, b) {
      assert ResultPath(out, a)[|out|..|out| + |sa|] == sa;
      assert ResultPath(out, b)[|out|..|out| + |sb|] == sb;
      NatToStringInjective(a, b);
    }
  }

  // ---------------------------------------------------------------------------
  // The file content

  /** `orig_spec.replace("\"", "")` */
  function RemoveQuotes(s: string): (r: string)
    ensures forall i :: 0 <= i < |r| ==> r[i] != '"'
    ensures |r| <= |s|
  {
    if s == [] then []
    else (if s[0] == '"' then [] else [s[0]]) + RemoveQuotes(s[1..])
  }

  /** Removing quotes works piece by piece, leaves a text without quotes
      as it is, and so is idempotent. */
  lemma {:induction false} RemoveQuotesAppend(a: string, b: string)
    ensures RemoveQuotes(a + b) == RemoveQuotes(a) + RemoveQuotes(b)
  {
    if a != [] {
      var head: string := if a[0] == '"' then [] else [a[0]];
      ConcatTail(a, b);
      RemoveQuotesHead(a + b);
      RemoveQuotesHead(a);
      RemoveQuotesAppend(a[1..], b);
      AppendAssociative(head, RemoveQuotes(a[1..]), RemoveQuotes(b));
    } else {
      assert a + b == b;
    }
  }

  lemma {:induction false} RemoveQuotesHead(s: string)
    requires s != []
    ensures RemoveQuotes(s) == (if s[0] == '"' then [] else [s[0]]) + RemoveQuotes(s[1..])
  {
  }

  lemma {:induction false} RemoveQuotesKeeps(s: string)
    requires forall i :: 0 <= i < |s| ==> s[i] != '"'
    ensures RemoveQuotes(s) == s
  {
    if s != [] {
      RemoveQuotesKeeps(s[1..]);
    }
  }

  lemma {:induction false} RemoveQuotesIdempotent(s: string)
    ensures RemoveQuotes(RemoveQuotes(s)) == RemoveQuotes(s)
  {
    RemoveQuotesKeeps(RemoveQuotes(s));
  }

  /** The rows of one element of `data`: a section with results gives its
      spec, header and result rows; every section ends with a blank row. */
  function SectionRows(sec: Section): seq<CsvRow>
  {
    (if |sec.results| > 0 then [SpecRow(RemoveQuotes(sec.origSpec)), HeaderRows(sec.outputIds),
                                ResultRows(sec.outputIds, sec.results)] else [])
    + [BlankRow]
  }

  function FileContent(data: seq<Section>): seq<CsvRow>
  {
    if data == [] then [] else FileContent(data[..|data| - 1]) + SectionRows(data[|data| - 1])
  }

  function Blanks(rows: seq<CsvRow>): nat
  {
    if rows == [] then 0 else Blanks(rows[..|rows| - 1]) + if rows[|rows| - 1].BlankRow? then 1 else 0
  }

  function Specs(rows: seq<CsvRow>): nat
  {
    if rows == [] then 0 else Specs(rows[..|rows| - 1]) + if rows[|rows| - 1].SpecRow? then 1 else 0
  }

  function WithResults(data: seq<Section>): nat
  {
    if data == [] then 0 else WithResults(data[..|data| - 1]) + if |data[|data| - 1].results| > 0 then 1 else 0
  }

  lemma {:induction false} BlanksAppend(a: seq<CsvRow>, b: seq<CsvRow>)
    ensures Blanks(a + b) == Blanks(a) + Blanks(b)
    ensures Specs(a + b) == Specs(a) + Specs(b)
  {
    if b != [] {
      assert (a + b)[..|a + b| - 1] == a + b[..|b| - 1];
      BlanksAppend(a, b[..|b| - 1]);
    } else {
      assert a + b == a;
    }
  }

  lemma {:induction false} RowCounts(row: CsvRow)
    ensures Blanks([row]) == if row.BlankRow? then 1 else 0
    ensures Specs([row]) == if row.SpecRow? then 1 else 0
  {
    assert [row][..0] == [];
  }

  lemma {:induction false} SectionRowsCounts(sec: Section)
    ensures Blanks(SectionRows(sec)) == 1
    ensures Specs(SectionRows(sec)) == if |sec.results| > 0 then 1 else 0
  {
    RowCounts(BlankRow);
    if |sec.results| > 0 {
      var spec, header, results := SpecRow(RemoveQuotes(sec.origSpec)), HeaderRows(sec.outputIds),
                                   ResultRows(sec.outputIds, sec.results);
      RowCounts(spec);
      RowCounts(header);
      RowCounts(results);
      BlanksAppend([spec], [header]);
      assert [spec] + [header] == [spec, header];
      BlanksAppend([spec, header], [results]);
      assert [spec, header] + [results] == [spec, header, results];
      BlanksAppend([spec, header, results], [BlankRow]);
      assert SectionRows(sec) == [spec, header, results] + [BlankRow];
    } else {
      assert SectionRows(sec) == [BlankRow];
    }
  }

  /** A result file has one blank separator per element of `data`, and one
      spec row per element that has results: an element without results
      contributes only its separator. */
  lemma {:induction false} FileContentSections(data: seq<Section>)
    ensures Blanks(FileContent(data)) == |data|
    ensures Specs(FileContent(data)) == WithResults(data)
  {
    if data != [] {
      var init := data[..|data| - 1];
      var sec := data[|data| - 1];
      FileContentSections(init);
      BlanksAppend(FileContent(init), SectionRows(sec));
      SectionRowsCounts(sec);
    }
  }

  /** The `for data_ in msg.get("data", [])` loop. */
  method WriteResultFile(data: seq<Section>) returns (rows: seq<CsvRow>)
    ensures rows == FileContent(data)
  {
    rows := [];
    var i := 0;
    while i < |data|
      invariant i <= |data|
      invariant rows == FileContent(data[..i])
    {
      assert data[..i + 1][..i] == data[..i];
      var sec := data[i];
      if |sec.results| > 0 {
        rows := rows + [SpecRow(RemoveQuotes(sec.origSpec))];
        rows := rows + [HeaderRows(sec.outputIds)];
        rows := rows + [ResultRows(sec.outputIds, sec.results)];
      }
      rows := rows + [BlankRow];
      i := i + 1;
    }
    assert data[..i] == data;
  }

  // ---------------------------------------------------------------------------
  // process_message

  /** What one call of `process_message` does: whether the loop leaves,
      the count afterwards and the file it writes, if any. */
  datatype Processed = Processed(leave: bool, count: nat, write: Option<FileWrite<CsvRow>>)

  /** `process_message` with the count it starts from. */
  function ProcessMessage(count: nat, msg: Msg, out: string, leaveAfterFinishedRun: bool): Result<Processed>
  {
    match msg.msgType
    case None => Err(MissingKey)
    case Some(t) =>
      if t == "finish" then Ok(Processed(true, count, None))
      else Ok(Processed(leaveAfterFinishedRun, count + 1,
                        Some(FileWrite(ResultPath(out, count + 1), FileContent(msg.data)))))
  }

  /** The function as written: the guard asks for an attribute that is
      never set, so the count is reset to 0 at every call. */
  function ProcessMessageAsWritten(msg: Msg, out: string, leaveAfterFinishedRun: bool): Result<Processed>
  {
    ProcessMessage(0, msg, out, leaveAfterFinishedRun)
  }

  /** A finish message leaves and writes nothing; a result is written to
      the file of the next count, whatever errors it reports, and leaves
      exactly when `leave_after_finished_run` is set. */
  lemma {:induction false} ProcessMessageCases(count: nat, msg: Msg, out: string, leaveAfterFinishedRun: bool)
    ensures ProcessMessage(count, msg, out, leaveAfterFinishedRun).Err? <==> msg.msgType.None?
    ensures msg.msgType == Some("finish") ==>
      ProcessMessage(count, msg, out, leaveAfterFinishedRun) == Ok(Processed(true, count, None))
    ensures msg.msgType.Some? && msg.msgType != Some("finish") ==>
      var p := ProcessMessage(count, msg, out, leaveAfterFinishedRun).value;
      && p.leave == leaveAfterFinishedRun && p.count == count + 1
      && p.write.Some? && p.write.value.path == ResultPath(out, count + 1)
      && Blanks(p.write.value.rows) == |msg.data|
    ensures ProcessMessage(count, msg, out, leaveAfterFinishedRun) ==
      ProcessMessage(count, msg.(errors := []), out, leaveAfterFinishedRun)
  {
    FileContentSections(msg.data);
  }

  /** As written, every result goes to the file `out + "1.csv"`. */
  lemma {:induction false} EveryResultToFileOne(msg: Msg, out: string, leaveAfterFinishedRun: bool)
    requires msg.msgType.Some? && msg.msgType != Some("finish")
    ensures ProcessMessageAsWritten(msg, out, leaveAfterFinishedRun).value.write.value.path == out + "1.csv"
  {
    assert NatToString(1) == "1";
  }

  /** The function object with its attribute `received_env_count`. */
  class MessageProcessor {
    var receivedEnvCount: nat
    const out: string
    const leaveAfterFinishedRun: bool

    constructor(out: string, leaveAfterFinishedRun: bool)
      ensures receivedEnvCount == 0 && this.out == out && this.leaveAfterFinishedRun == leaveAfterFinishedRun
    {
      this.receivedEnvCount := 0;
      this.out := out;
      this.leaveAfterFinishedRun := leaveAfterFinishedRun;
    }

    /** `process_message` as written (standalone_for_debugging/run-consumer.py:39-81). */
    method ProcessAsWritten(msg: Msg) returns (r: Result<Processed>)
      modifies this
      ensures r == ProcessMessageAsWritten(msg, out, leaveAfterFinishedRun)
      ensures receivedEnvCount == if r.Ok? then r.value.count else 0
    {
      receivedEnvCount := 0;
      if msg.msgType.None? {
        return Err(MissingKey);
      }
      if msg.msgType.value == "finish" {
        return Ok(Processed(true, receivedEnvCount, None));
      }
      receivedEnvCount := receivedEnvCount + 1;
      var rows := WriteResultFile(msg.data);
      r := Ok(Processed(leaveAfterFinishedRun, receivedEnvCount, Some(FileWrite(ResultPath(out, receivedEnvCount), rows))));
    }

    /** `process_message` with the count set up once, as the guard
      intends. */
    method Process(msg: Msg) returns (r: Result<Processed>)
      modifies this
      ensures r == ProcessMessage(old(receivedEnvCount), msg, out, leaveAfterFinishedRun)
      ensures receivedEnvCount == if r.Ok? then r.value.count else old(receivedEnvCount)
    {
      if msg.msgType.None? {
        return Err(MissingKey);
      }
      if msg.msgType.value == "finish" {
        return Ok(Processed(true, receivedEnvCount, None));
      }
      receivedEnvCount := receivedEnvCount + 1;
      var rows := WriteResultFile(msg.data);
      r := Ok(Processed(leaveAfterFinishedRun, receivedEnvCount, Some(FileWrite(ResultPath(out, receivedEnvCount), rows))));
    }
  }

  // ---------------------------------------------------------------------------
  // The receive loop

  /** What one `socket.recv_json()` yields. */
  datatype Received = Received(msg: Msg) | ReceiveFailure

  /** The count and the files written so far, and whether the loop left. */
  datatype Ran = Ran(count: nat, writes: seq<FileWrite<CsvRow>>, left: bool)

  /** The `while not leave` loop from count `count` on the remaining
      events; an exception is swallowed and the loop receives again. When
      the events run out the loop is still waiting. */
  function RunFrom(count: nat, writes: seq<FileWrite<CsvRow>>, stream: seq<Received>, out: string,
                   leaveAfterFinishedRun: bool): Ran
    decreases |stream|
  {
    if stream == [] then Ran(count, writes, false)
    else
      match stream[0]
      case ReceiveFailure => RunFrom(count, writes, stream[1..], out, leaveAfterFinishedRun)
      case Received(msg) =>
        match ProcessMessage(count, msg, out, leaveAfterFinishedRun)
        case Err(_) => RunFrom(count, writes, stream[1..], out, leaveAfterFinishedRun)
        case Ok(p) =>
          var writes' := writes + (if p.write.Some? then [p.write.value] else []);
          if p.leave then Ran(p.count, writes', true)
          else RunFrom(p.count, writes', stream[1..], out, leaveAfterFinishedRun)
  }

  /** The loop of run_consumer (standalone_for_debugging/run-consumer.py:83-89). */
  method RunStandaloneConsumer(stream: seq<Received>, out: string, leaveAfterFinishedRun: bool) returns (r: Ran)
    ensures r == RunFrom(0, [], stream, out, leaveAfterFinishedRun)
  {
    var processor := new MessageProcessor(out, leaveAfterFinishedRun);
    var writes: seq<FileWrite<CsvRow>> := [];
    var leave := false;
    var i := 0;
    assert stream[0..] == stream;
    while !leave && i < |stream|
      invariant i <= |stream|
      invariant processor.out == out && processor.leaveAfterFinishedRun == leaveAfterFinishedRun
      invariant !leave ==>
        RunFrom(processor.receivedEnvCount, writes, stream[i..], out, leaveAfterFinishedRun) ==
        RunFrom(0, [], stream, out, leaveAfterFinishedRun)
      invariant leave ==> Ran(processor.receivedEnvCount, writes, true) == RunFrom(0, [], stream, out, leaveAfterFinishedRun)
      decreases |stream| - i
    {
      assert stream[i..][1..] == stream[i + 1..];
      if stream[i].Received? {
        var p := processor.Process(stream[i].msg);
        if p.Ok? {
          if p.value.write.Some? {
            writes := writes + [p.value.write.value];
          } else {
            assert writes + [] == writes;
          }
          leave := p.value.leave;
        }
      }
      i := i + 1;
    }
    if !leave {
      assert stream[i..] == [];
    }
    r := Ran(processor.receivedEnvCount, writes, leave);
  }

  // ---------------------------------------------------------------------------
  // Properties of the loop

  /** The stream holds only results, each received whole. */
  predicate OnlyResults(stream: seq<Received>)
  {
    forall i :: 0 <= i < |stream| ==>
      stream[i].Received? && stream[i].msg.msgType.Some? && stream[i].msg.msgType != Some("finish")
  }

  /** The files a run of results writes from count `count` on: the i-th
      result to the file of count `count + i + 1`. */
  function ResultWrites(count: nat, stream: seq<Received>, out: string): (ws: seq<FileWrite<CsvRow>>)
    requires OnlyResults(stream)
    ensures |ws| == |stream|
    ensures forall i :: 0 <= i < |stream| ==>
      ws[i] == FileWrite(ResultPath(out, count + i + 1), FileContent(stream[i].msg.data))
    decreases |stream|
  {
    if stream == [] then []
    else
      assert forall i :: 0 <= i < |stream[1..]| ==> stream[1..][i] == stream[i + 1];
      [FileWrite(ResultPath(out, count + 1), FileContent(stream[0].msg.data))] + ResultWrites(count + 1, stream[1..], out)
  }

  /** On a stream of results the loop never leaves: it counts every result
      and writes each to the next count's file. */
  lemma {:induction false} ResultsRun(count: nat, writes: seq<FileWrite<CsvRow>>, stream: seq<Received>, out: string)
    requires OnlyResults(stream)
    ensures RunFrom(count, writes, stream, out, false) == Ran(count + |stream|, writes + ResultWrites(count, stream, out), false)
    decreases |stream|
  {
    if stream == [] {
      assert writes + [] == writes;
    } else {
      var w := FileWrite(ResultPath(out, count + 1), FileContent(stream[0].msg.data));
      ResultStep(count, writes, stream, out);
      ResultsRun(count + 1, writes + [w], stream[1..], out);
      assert writes + [w] + ResultWrites(count + 1, stream[1..], out) == writes + ResultWrites(count, stream, out);
    }
  }

  /** With the count kept across calls, the k-th result goes to the file
      of count k, so no result file is overwritten. */
  lemma {:induction false} ResultsGetOwnFiles(count: nat, writes: seq<FileWrite<CsvRow>>, stream: seq<Received>, out: string)
    requires OnlyResults(stream)
    ensures var r := RunFrom(count, writes, stream, out, false);
      && r.count == count + |stream| && !r.left
      && |r.writes| == |writes| + |stream|
      && r.writes[..|writes|] == writes
      && forall i :: |writes| <= i < |r.writes| ==>
           r.writes[i] == FileWrite(ResultPath(out, count + (i - |writes|) + 1), FileContent(stream[i - |writes|].msg.data))
  {
    ResultsRun(count, writes, stream, out);
    var rw := ResultWrites(count, stream, out);
    assert (writes + rw)[..|writes|] == writes;
    assert forall i :: |writes| <= i < |writes| + |rw| ==> (writes + rw)[i] == rw[i - |writes|];
  }

  /** A result at the head of the stream is written to the next count's
      file, and the loop goes on with the rest. */
  lemma {:induction false} ResultStep(count: nat, writes: seq<FileWrite<CsvRow>>, stream: seq<Received>, out: string)
    requires stream != [] && OnlyResults(stream)
    ensures OnlyResults(stream[1..])
    ensures RunFrom(count, writes, stream, out, false) ==
      RunFrom(count + 1, writes + [FileWrite(ResultPath(out, count + 1), FileContent(stream[0].msg.data))], stream[1..], out, false)
  {
    assert stream[0].Received?;
    forall i | 0 <= i < |stream[1..]|
      ensures stream[1..][i] == stream[i + 1]
    {
    }
  }

  /** From the start of a run, the i-th write is the i-th result's, to the
      file of count i + 1. */
  lemma {:induction false} ResultsFromStart(stream: seq<Received>, out: string)
    requires OnlyResults(stream)
    ensures var ws := RunFrom(0, [], stream, out, false).writes;
      && |ws| == |stream|
      && forall i :: 0 <= i < |ws| ==> ws[i] == FileWrite(ResultPath(out, i + 1), FileContent(stream[i].msg.data))
  {
    var none: seq<FileWrite<CsvRow>> := [];
    ResultsGetOwnFiles(0, none, stream, out);
  }

  /** Every result of a run that never leaves survives: the n-th in the
      file of count n. */
  lemma {:induction false} ResultsAllSurvive(stream: seq<Received>, out: string)
    requires OnlyResults(stream)
    ensures var ws := RunFrom(0, [], stream, out, false).writes;
      forall n :: 1 <= n <= |stream| ==>
        ResultPath(out, n) in Written(ws) && Written(ws)[ResultPath(out, n)] == FileContent(stream[n - 1].msg.data)
  {
    ResultsFromStart(stream, out);
    NumberedFiles(RunFrom(0, [], stream, out, false).writes, stream, out);
  }

  lemma {:induction false} NumberedFiles(ws: seq<FileWrite<CsvRow>>, stream: seq<Received>, out: string)
    requires OnlyResults(stream) && |ws| == |stream|
    requires forall i :: 0 <= i < |ws| ==> ws[i] == FileWrite(ResultPath(out, i + 1), FileContent(stream[i].msg.data))
    ensures forall n :: 1 <= n <= |stream| ==>
      ResultPath(out, n) in Written(ws) && Written(ws)[ResultPath(out, n)] == FileContent(stream[n - 1].msg.data)
  {
    forall n | 1 <= n <= |stream|
      ensures ResultPath(out, n) in Written(ws) && Written(ws)[ResultPath(out, n)] == FileContent(stream[n - 1].msg.data)
    {
      NumberedFile(ws, out, n);
    }
  }

  lemma {:induction false} NumberedFile(ws: seq<FileWrite<CsvRow>>, out: string, n: nat)
    requires forall i :: 0 <= i < |ws| ==> ws[i].path == ResultPath(out, i + 1)
    requires 1 <= n <= |ws|
    ensures ResultPath(out, n) in Written(ws) && Written(ws)[ResultPath(out, n)] == ws[n - 1].rows
  {
    forall j | n - 1 < j < |ws|
      ensures ws[j].path != ws[n - 1].path
    {
      ResultPathsDiffer(out, j + 1, n);
    }
    LastWriteWins(ws, n - 1);
  }

  /** With the count reset at every call, two results written one after
      the other go to the same file, and only the second survives. */
  lemma {:induction false} SecondResultOverwritesFirst(m1: Msg, m2: Msg, out: string)
    requires m1.msgType == Some("result") && m2.msgType == Some("result")
    requires FileContent(m1.data) != FileContent(m2.data)
    ensures var w1 := ProcessMessageAsWritten(m1, out, false).value.write.value;
      var w2 := ProcessMessageAsWritten(m2, out, false).value.write.value;
      && w1.path == w2.path
      && Written([w1, w2]) == map[out + "1.csv" := FileContent(m2.data)]
  {
    EveryResultToFileOne(m1, out, false);
    EveryResultToFileOne(m2, out, false);
    var w1 := ProcessMessageAsWritten(m1, out, false).value.write.value;
    var w2 := ProcessMessageAsWritten(m2, out, false).value.write.value;
    assert [w1, w2][..1] == [w1];
    assert [w1][..0] == [];
  }
}
