/** The consumer of the AMEI Ames bare-soil exercise
    (ames_bare_soil/run-consumer.py).

    Every result message carries the tags `model_code` and `year` of its
    job and a list `data` of output sections, each a list of day records.
    For every section the consumer reopens two files with mode "w": the
    layer report (nine selected 5 cm layers per day) and the daily report
    (one row per day). Both stop at the first day dated 1 November. */
module AmesReports {
  import opened Common
  import opened Dispatch
  import opened Collector
  import opened Files

  /** A result message: the tags of its `customId` and `data`, each
      section given as its `results` list. */
  datatype Envelope = Envelope(modelCode: string, year: string, data: seq<seq<Entry>>)

  /** The rows of the two reports; the columns that are always "na" are
      not kept. */
  datatype Line =
    | LayerLine(modelCode: string, date: string, top: int, bottom: int, tsav: real, swld: real)
    | DailyLine(modelCode: string, date: string, esad: real, eoad: real, etad: real, rhfd: real)

  /** The simulation layers the layer report keeps, in report order. */
  const ReportedLayers: seq<nat> := [0, 1, 2, 3, 4, 9, 10, 18, 20]

  /** `vals["Date"][5:] == "11-01"` */
  predicate IsCutoff(date: string)
  {
    Drop(date, 5) == "11-01"
  }

  // ---------------------------------------------------------------------------
  // The loop over the days of a section, which stops at 1 November

  /** `for vals in results: if vals["Date"][5:] == "11-01": break` followed
      by the rows of the day: the rows written before the loop ended, and the
      exception that ended it, if any. */
  function UntilCutoff<R>(days: seq<Entry>, rows: (string, Entry) -> Outcome<R>): Outcome<R>
    decreases |days|
  {
    if days == [] then Done([])
    else if "Date" !in days[0].texts then Outcome([], Some(MissingKey))
    else
      var date := days[0].texts["Date"];
      if IsCutoff(date) then Done([])
      else Then(rows(date, days[0]), UntilCutoff(days[1..], rows))
  }

  /** The loop at day `i`: a day without a date raises KeyError, a cutoff
      day ends the loop, any other day writes its rows and the loop goes on
      unless the day raised. */
  lemma {:induction false} UntilCutoffAt<R>(days: seq<Entry>, rows: (string, Entry) -> Outcome<R>, i: nat)
    requires i < |days|
    ensures "Date" !in days[i].texts ==> UntilCutoff(days[i..], rows) == Outcome([], Some(MissingKey))
    ensures "Date" in days[i].texts && IsCutoff(days[i].texts["Date"]) ==> UntilCutoff(days[i..], rows) == Done([])
    ensures "Date" in days[i].texts && !IsCutoff(days[i].texts["Date"]) ==>
      UntilCutoff(days[i..], rows) == Then(rows(days[i].texts["Date"], days[i]), UntilCutoff(days[i + 1..], rows))
  {
    assert days[i..][0] == days[i];
    assert days[i..][1..] == days[i + 1..];
  }

  /** No day from a cutoff day on is written: the report is the report of
      the days before it. */
  lemma {:induction false} CutoffEndsReport<R>(days: seq<Entry>, rows: (string, Entry) -> Outcome<R>, c: nat)
    requires c < |days| && "Date" in days[c].texts && IsCutoff(days[c].texts["Date"])
    ensures UntilCutoff(days, rows) == UntilCutoff(days[..c], rows)
    decreases c
  {
    if c > 0 {
      assert days[..c][0] == days[0];
      assert days[..c][1..] == days[1..][..c - 1];
      CutoffEndsReport(days[1..], rows, c - 1);
    }
  }

  /** Without a cutoff day, every day is written, in order. */
  lemma {:induction false} NoCutoffWritesAll<R>(days: seq<Entry>, rows: (string, Entry) -> Outcome<R>)
    requires forall d :: 0 <= d < |days| ==> "Date" in days[d].texts && !IsCutoff(days[d].texts["Date"])
    requires forall d :: 0 <= d < |days| ==> rows(days[d].texts["Date"], days[d]).crash.None?
    ensures UntilCutoff(days, rows).crash.None?
    ensures |days| > 0 ==>
      UntilCutoff(days, rows).jobs ==
        rows(days[0].texts["Date"], days[0]).jobs + UntilCutoff(days[1..], rows).jobs
  {
    if days != [] {
      NoCutoffWritesAll(days[1..], rows);
    }
  }

  /** Before the first cutoff day the report runs day by day: it is the
      report of the days before day d followed by the report from day d
      on. */
  lemma {:induction false} UntilCutoffSplit<R>(days: seq<Entry>, rows: (string, Entry) -> Outcome<R>, d: nat)
    requires d <= |days| && forall k :: 0 <= k < d ==> "Date" in days[k].texts && !IsCutoff(days[k].texts["Date"])
    ensures UntilCutoff(days, rows) == Then(UntilCutoff(days[..d], rows), UntilCutoff(days[d..], rows))
    decreases d
  {
    if d == 0 {
      assert days[..0] == [] && days[0..] == days;
      ThenNothing(UntilCutoff(days, rows));
    } else {
      var tail := days[1..];
      var first := rows(days[0].texts["Date"], days[0]);
      assert UntilCutoff(tail, rows) == Then(UntilCutoff(tail[..d - 1], rows), UntilCutoff(tail[d - 1..], rows)) by {
        UntilCutoffSplit(tail, rows, d - 1);
      }
      assert days[..d][0] == days[0] && days[..d][1..] == tail[..d - 1];
      assert tail[d - 1..] == days[d..];
      ThenAssociative(first, UntilCutoff(tail[..d - 1], rows), UntilCutoff(days[d..], rows));
    }
  }

  /** A day before any cutoff that raises ends the report, which keeps the
      rows of the days before it and the rows the day wrote before the
      exception. */
  lemma {:induction false} DayFailureEndsReport<R>(days: seq<Entry>, rows: (string, Entry) -> Outcome<R>, d: nat)
    requires d < |days| && forall k :: 0 <= k <= d ==> "Date" in days[k].texts && !IsCutoff(days[k].texts["Date"])
    requires forall k :: 0 <= k < d ==> rows(days[k].texts["Date"], days[k]).crash.None?
    requires rows(days[d].texts["Date"], days[d]).crash.Some?
    ensures UntilCutoff(days, rows) ==
      Outcome(UntilCutoff(days[..d], rows).jobs + rows(days[d].texts["Date"], days[d]).jobs,
              rows(days[d].texts["Date"], days[d]).crash)
  {
    UntilCutoffSplit(days, rows, d);
    UntilCutoffAt(days, rows, d);
    assert UntilCutoff(days[..d], rows).crash.None? by {
      NoCutoffWritesAll(days[..d], rows);
    }
  }

  // ---------------------------------------------------------------------------
  // The two reports

  function LayerRow(env: Envelope, date: string, e: Entry, idx: nat): Result<Line>
  {
    var tsav :- Lookup(e.series, "TSAV");
    var t :- At(tsav, idx);
    var swld :- Lookup(e.series, "SWLD");
    var w :- At(swld, idx);
    Ok(LayerLine(env.modelCode, date, idx * 5, (idx + 1) * 5, t, w))
  }

  function LayerRowOf(env: Envelope, date: string, e: Entry): nat -> Result<Line>
  {
    (idx: nat) => LayerRow(env, date, e, idx)
  }

  /** `for layer_index in [0, 1, 2, 3, 4, 9, 10, 18, 20]`, one row written
      per layer. */
  function DayLayerRows(env: Envelope, date: string, e: Entry): Outcome<Line>
  {
    Sequenced(ReportedLayers, Emit(LayerRowOf(env, date, e)))
  }

  function DayLayerRowsOf(env: Envelope): (string, Entry) -> Outcome<Line>
  {
    (date: string, e: Entry) => DayLayerRows(env, date, e)
  }

  /** A day writes all nine layer rows exactly when both per-layer lists
      reach layer 20. */
  lemma {:induction false} DayLayerRowsOk(env: Envelope, date: string, e: Entry)
    ensures DayLayerRows(env, date, e).crash.None? <==>
      "TSAV" in e.series && |e.series["TSAV"]| > 20 && "SWLD" in e.series && |e.series["SWLD"]| > 20
  {
    SequencedEmit(ReportedLayers, LayerRowOf(env, date, e));
  }

  /** The rows written for a day cover the selected layers from the top
      down, 5 cm each, without overlap, and carry the values of their layer;
      a day that raises has written the rows of the selected layers before
      the first one that a list does not reach. */
  lemma {:induction false} DayLayerRowsSelected(env: Envelope, date: string, e: Entry)
    ensures var o := DayLayerRows(env, date, e);
      && |o.jobs| <= |ReportedLayers|
      && (forall j :: 0 <= j < |o.jobs| ==>
            "TSAV" in e.series && "SWLD" in e.series &&
            ReportedLayers[j] < |e.series["TSAV"]| && ReportedLayers[j] < |e.series["SWLD"]| &&
            o.jobs[j] == LayerLine(env.modelCode, date, 5 * ReportedLayers[j], 5 * ReportedLayers[j] + 5,
                                   e.series["TSAV"][ReportedLayers[j]], e.series["SWLD"][ReportedLayers[j]]))
      && (forall j :: 0 <= j < |o.jobs| - 1 ==> o.jobs[j].bottom <= o.jobs[j + 1].top)
      && (o.crash.Some? ==> |o.jobs| < |ReportedLayers| && LayerRow(env, date, e, ReportedLayers[|o.jobs|]).Err?)
  {
    SequencedEmit(ReportedLayers, LayerRowOf(env, date, e));
    assert forall j :: 0 <= j < |ReportedLayers| - 1 ==> ReportedLayers[j] < ReportedLayers[j + 1];
  }

  function DailyRow(env: Envelope, date: string, e: Entry): Result<Line>
  {
    var rhfd :- Lookup(e.numbers, "RHFD");
    var esad :- Lookup(e.numbers, "ESAD");
    var eoad :- Lookup(e.numbers, "EOAD");
    var etad :- Lookup(e.numbers, "ETAD");
    Ok(DailyLine(env.modelCode, date, esad, eoad, etad, rhfd * (1000000.0 / 86400.0)))
  }

  /** The daily row of a day is one write: all of it, or nothing. */
  function DailyRowsOf(env: Envelope): (string, Entry) -> Outcome<Line>
  {
    (date: string, e: Entry) =>
      match DailyRow(env, date, e)
      case Ok(row) => Done([row])
      case Err(err) => Outcome([], Some(err))
  }

  /** A day yields its daily row exactly when it has the four numbers; the
      net radiation is converted from MJ per square metre and day to watts
      per square metre. */
  lemma {:induction false} DailyRowFields(env: Envelope, date: string, e: Entry)
    ensures DailyRow(env, date, e).Ok? <==> "RHFD" in e.numbers && "ESAD" in e.numbers && "EOAD" in e.numbers && "ETAD" in e.numbers
    ensures DailyRow(env, date, e).Ok? ==>
      var row := DailyRow(env, date, e).value;
      && row.date == date
      && row.esad == e.numbers["ESAD"] && row.eoad == e.numbers["EOAD"] && row.etad == e.numbers["ETAD"]
      && row.rhfd * 86400.0 == e.numbers["RHFD"] * 1000000.0
  {
  }

  /** The inner loop over the selected layers of one day: the rows it
      wrote, and the exception that ended it, if any. */
  method WriteDayLayers(env: Envelope, date: string, e: Entry) returns (rows: seq<Line>, failure: Option<Error>)
    ensures Outcome(rows, failure) == DayLayerRows(env, date, e)
  {
    rows := [];
    var j := 0;
    while j < |ReportedLayers|
      invariant j <= |ReportedLayers|
      invariant Sequenced(ReportedLayers[..j], Emit(LayerRowOf(env, date, e))) == Done(rows)
    {
      var row := LayerRow(env, date, e, ReportedLayers[j]);
      if row.Err? {
        CrashEndsLoop(ReportedLayers, Emit(LayerRowOf(env, date, e)), j, rows);
        assert rows + [] == rows;
        return rows, Some(row.error);
      }
      SequencedStep(ReportedLayers, Emit(LayerRowOf(env, date, e)), j, rows);
      rows := rows + [row.value];
      j := j + 1;
    }
    assert ReportedLayers[..j] == ReportedLayers;
    failure := None;
  }

  /** The loop over the days of a section that writes the layer report. */
  method WriteLayersReport(env: Envelope, days: seq<Entry>) returns (rows: seq<Line>, failure: Option<Error>)
    ensures Outcome(rows, failure) == UntilCutoff(days, DayLayerRowsOf(env))
  {
    rows := [];
    var i := 0;
    assert days[0..] == days;
    ThenNothing(UntilCutoff(days, DayLayerRowsOf(env)));
    while i < |days|
      invariant i <= |days|
      invariant Then(Done(rows), UntilCutoff(days[i..], DayLayerRowsOf(env))) == UntilCutoff(days, DayLayerRowsOf(env))
    {
      UntilCutoffAt(days, DayLayerRowsOf(env), i);
      var e := days[i];
      if "Date" !in e.texts {
        assert rows + [] == rows;
        return rows, Some(MissingKey);
      }
      var date := e.texts["Date"];
      if IsCutoff(date) {
        break;
      }
      var dayRows, dayFailure := WriteDayLayers(env, date, e);
      ThenAfterRows(rows, Outcome(dayRows, dayFailure), UntilCutoff(days[i + 1..], DayLayerRowsOf(env)));
      if dayFailure.Some? {
        return rows + dayRows, dayFailure;
      }
      rows := rows + dayRows;
      i := i + 1;
    }
    if i < |days| {
      UntilCutoffAt(days, DayLayerRowsOf(env), i);
    }
    assert rows + [] == rows;
    failure := None;
  }

  /** The loop over the days of a section that writes the daily report. */
  method WriteDailyReport(env: Envelope, days: seq<Entry>) returns (rows: seq<Line>, failure: Option<Error>)
    ensures Outcome(rows, failure) == UntilCutoff(days, DailyRowsOf(env))
  {
    rows := [];
    var i := 0;
    assert days[0..] == days;
    ThenNothing(UntilCutoff(days, DailyRowsOf(env)));
    while i < |days|
      invariant i <= |days|
      invariant Then(Done(rows), UntilCutoff(days[i..], DailyRowsOf(env))) == UntilCutoff(days, DailyRowsOf(env))
    {
      UntilCutoffAt(days, DailyRowsOf(env), i);
      var e := days[i];
      if "Date" !in e.texts {
        assert rows + [] == rows;
        return rows, Some(MissingKey);
      }
      var date := e.texts["Date"];
      if IsCutoff(date) {
        break;
      }
      var row := DailyRow(env, date, e);
      var dayRows := if row.Ok? then [row.value] else [];
      var dayFailure := if row.Ok? then None else Some(row.error);
      ThenAfterRows(rows, Outcome(dayRows, dayFailure), UntilCutoff(days[i + 1..], DailyRowsOf(env)));
      if dayFailure.Some? {
        return rows + dayRows, dayFailure;
      }
      rows := rows + dayRows;
      i := i + 1;
    }
    if i < |days| {
      UntilCutoffAt(days, DailyRowsOf(env), i);
    }
    assert rows + [] == rows;
    failure := None;
  }

  // ---------------------------------------------------------------------------
  // One result message

  function LayersPath(env: Envelope): string
  {
    env.modelCode + "MOLayersAimes" + env.year + ".txt"
  }

  function DailyPath(env: Envelope): string
  {
    env.modelCode + "MOAimes" + env.year + ".txt"
  }

  /** The two report files of a message are different files. */
  lemma {:induction false} ReportPathsDiffer(env: Envelope)
    ensures LayersPath(env) != DailyPath(env)
  {
    var k := |env.modelCode| + 2;
    assert LayersPath(env)[k] == 'L';
    assert DailyPath(env)[k] == 'A';
  }

  /** Both reports of one section, each written with mode "w" and holding
      the rows written before any exception; the daily report is only
      opened once the layer report has run to its end. */
  function BlockOutcome(env: Envelope, days: seq<Entry>): Outcome<FileWrite<Line>>
  {
    Then(WriteFile(LayersPath(env), UntilCutoff(days, DayLayerRowsOf(env))),
         WriteFile(DailyPath(env), UntilCutoff(days, DailyRowsOf(env))))
  }

  function BlockStep(env: Envelope): seq<Entry> -> Outcome<FileWrite<Line>>
  {
    days => BlockOutcome(env, days)
  }

  /** What one result message leaves: the files written, in order, and the
      exception that ended it, if any. */
  function Handle(env: Envelope): Handled<FileWrite<Line>>
  {
    var o := Sequenced(env.data, BlockStep(env));
    Handled(o.jobs, o.crash)
  }

  function HandleFn(): Envelope -> Handled<FileWrite<Line>>
  {
    (env: Envelope) => Handle(env)
  }

  method WriteBlock(env: Envelope, days: seq<Entry>) returns (writes: seq<FileWrite<Line>>, failure: Option<Error>)
    ensures Outcome(writes, failure) == BlockOutcome(env, days)
  {
    var layers, layersFailure := WriteLayersReport(env, days);
    writes := [FileWrite(LayersPath(env), layers)];
    if layersFailure.Some? {
      return writes, layersFailure;
    }
    var daily, dailyFailure := WriteDailyReport(env, days);
    writes, failure := writes + [FileWrite(DailyPath(env), daily)], dailyFailure;
  }

  /** The handling of one result message (ames_bare_soil/run-consumer.py:68-114). */
  method HandleEnvelope(env: Envelope) returns (h: Handled<FileWrite<Line>>)
    ensures h == Handle(env)
  {
    var writes: seq<FileWrite<Line>> := [];
    var k := 0;
    while k < |env.data|
      invariant k <= |env.data|
      invariant Sequenced(env.data[..k], BlockStep(env)) == Done(writes)
    {
      var blockWrites, failure := WriteBlock(env, env.data[k]);
      if failure.Some? {
        CrashEndsLoop(env.data, BlockStep(env), k, writes);
        return Handled(writes + blockWrites, failure);
      }
      SequencedStep(env.data, BlockStep(env), k, writes);
      writes := writes + blockWrites;
      k := k + 1;
    }
    assert env.data[..k] == env.data;
    h := Handled(writes, None);
  }

  /** After a message whose every section was written, the two files hold
      the reports of the LAST section: each section reopens them with mode
      "w". */
  lemma {:induction false} EnvelopeLeavesLastSection(env: Envelope)
    requires Handle(env).failure.None? && env.data != []
    ensures var last := env.data[|env.data| - 1];
      var files := Written(Handle(env).writes);
      && UntilCutoff(last, DayLayerRowsOf(env)).crash.None? && UntilCutoff(last, DailyRowsOf(env)).crash.None?
      && LayersPath(env) in files && DailyPath(env) in files
      && files[LayersPath(env)] == UntilCutoff(last, DayLayerRowsOf(env)).jobs
      && files[DailyPath(env)] == UntilCutoff(last, DailyRowsOf(env)).jobs
  {
    var data := env.data;
    var init := data[..|data| - 1];
    var last := data[|data| - 1];
    assert data == init + [last];
    SequencedSnoc(init, last, BlockStep(env));
    var before := Sequenced(init, BlockStep(env));
    var block := BlockOutcome(env, last);
    assert before.crash.None? && block.crash.None?;
    var layers := UntilCutoff(last, DayLayerRowsOf(env)).jobs;
    var daily := UntilCutoff(last, DailyRowsOf(env)).jobs;
    assert Handle(env).writes == before.jobs + [FileWrite(LayersPath(env), layers), FileWrite(DailyPath(env), daily)];
    ReportPathsDiffer(env);
    LastTwoWrites(before.jobs, LayersPath(env), layers, DailyPath(env), daily);
  }

  /** A message that fails in section b ends with that section's exception.
      If the layer report raised, its file holds the layer rows written
      before the exception and the daily report of that section is never
      opened; if the daily report raised, both files hold what that
      section wrote to them. */
  lemma {:induction false} FailedSectionKeepsRows(env: Envelope, b: nat)
    requires b < |env.data| && Sequenced(env.data[..b], BlockStep(env)).crash.None?
    requires BlockOutcome(env, env.data[b]).crash.Some?
    ensures var layers := UntilCutoff(env.data[b], DayLayerRowsOf(env));
      var daily := UntilCutoff(env.data[b], DailyRowsOf(env));
      var files := Written(Handle(env).writes);
      && Handle(env).failure == (if layers.crash.Some? then layers.crash else daily.crash)
      && LayersPath(env) in files && files[LayersPath(env)] == layers.jobs
      && (layers.crash.None? ==> DailyPath(env) in files && files[DailyPath(env)] == daily.jobs)
      && |Handle(env).writes| == |Sequenced(env.data[..b], BlockStep(env)).jobs| + (if layers.crash.Some? then 1 else 2)
  {
    var layers := UntilCutoff(env.data[b], DayLayerRowsOf(env));
    var daily := UntilCutoff(env.data[b], DailyRowsOf(env));
    var earlier := Sequenced(env.data[..b], BlockStep(env)).jobs;
    CrashEndsLoop(env.data, BlockStep(env), b, earlier);
    var writes := Handle(env).writes;
    if layers.crash.Some? {
      assert writes == earlier + [FileWrite(LayersPath(env), layers.jobs)];
      LastWriteWins(writes, |writes| - 1);
    } else {
      assert writes == earlier + [FileWrite(LayersPath(env), layers.jobs), FileWrite(DailyPath(env), daily.jobs)];
      ReportPathsDiffer(env);
      LastTwoWrites(earlier, LayersPath(env), layers.jobs, DailyPath(env), daily.jobs);
    }
  }

  /** A message writes no other files than its two reports, whether or not
      it fails. */
  lemma {:induction false} EnvelopeWritesTwoFiles(env: Envelope)
    ensures forall p :: p in Written(Handle(env).writes) ==> p == LayersPath(env) || p == DailyPath(env)
  {
    var ws := Sequenced(env.data, BlockStep(env)).jobs;
    SectionWrites(env, env.data);
    assert Handle(env).writes == ws;
    forall p | p in Written(ws)
      ensures p == LayersPath(env) || p == DailyPath(env)
    {
      var i :| 0 <= i < |ws| && ws[i].path == p;
      assert ws[i].path in {LayersPath(env), DailyPath(env)};
    }
  }

  /** Every section writes to the same two files. */
  lemma {:induction false} SectionWrites(env: Envelope, sections: seq<seq<Entry>>)
    ensures forall i :: 0 <= i < |Sequenced(sections, BlockStep(env)).jobs| ==>
      Sequenced(sections, BlockStep(env)).jobs[i].path in {LayersPath(env), DailyPath(env)}
  {
    if sections != [] {
      var init := sections[..|sections| - 1];
      var last := sections[|sections| - 1];
      assert sections == init + [last];
      SequencedSnoc(init, last, BlockStep(env));
      SectionWrites(env, init);
    }
  }

  /** ames_bare_soil/run-consumer.py: a receive timeout is reported and the
      loop waits again. The loop itself is
      `Collector.RunCollector`; this script and
      maricopa_wheat_face/run-consumer.py differ only in the result
      message and its handler, so each keeps its own entry point. */
  method RunAmesConsumer(stream: seq<Incoming<Envelope>>) returns (r: Collected<FileWrite<Line>>)
    ensures r == Collect(stream, KeepWaiting, HandleFn())
  {
    r := RunCollector(stream, KeepWaiting, HandleFn());
  }
}
