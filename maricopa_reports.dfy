/** The consumer of the Maricopa wheat FACE exercise
    (maricopa_wheat_face/run-consumer.py).

    Every result message carries the tags `model_code`, `year` and
    `treatment_id` of its job and a list `data` of output sections: section
    0 holds one record per simulated day, sections 1 to 5 hold the season
    summary and the records of sowing, emergence, anthesis and maturity.
    From one message the consumer writes three files: the layer report (42
    rows of 5 cm per day), the daily report (one row per day) and the
    summary report (one row per season). */
module MaricopaReports {
  import opened Common
  import opened Collector
  import opened Dispatch
  import opened Files

  /** A result message: the tags of its `customId` and `data`, each section
      given as its `results` list (a missing `results` is an empty list). */
  datatype Envelope = Envelope(modelCode: string, year: string, treatmentId: string, data: seq<seq<Entry>>)

  /** The GSTZD column: a Zadoks growth stage, or "na". */
  datatype Zadoks = Code(n: nat) | NotAvailable

  /** The rows of the three reports. Columns that are always "na" are not
      kept. A daily row without a GSTZD field has `gstzd == None`. */
  datatype Line =
    | LayerLine(modelCode: string, treatmentId: string, date: string, top: int, bottom: int,
                tsav: real, swld: real, snld: real)
    | DailyLine(modelCode: string, treatmentId: string, gstzd: Option<Zadoks>, values: seq<real>)
    | SummaryLine(modelCode: string, treatmentId: string, dates: seq<string>, values: seq<real>)

  // ---------------------------------------------------------------------------
  // Layer report: 42 layers of 5 cm for every day of section 0

  /** The row of layer `k` of one day. */
  function LayerRow(env: Envelope, e: Entry, k: nat): Result<Line>
  {
    var date :- Lookup(e.texts, "Date");
    var tsav :- Lookup(e.series, "TSAV");
    var t :- At(tsav, k);
    var swld :- Lookup(e.series, "SWLD");
    var w :- At(swld, k);
    var snld :- Lookup(e.series, "SNLD");
    var n :- At(snld, k);
    Ok(LayerLine(env.modelCode, env.treatmentId, date, k * 5, (k + 1) * 5, t, w, n))
  }

  function LayerRowOf(env: Envelope, e: Entry): nat -> Result<Line>
  {
    (k: nat) => LayerRow(env, e, k)
  }

  /** The `for layer_index in range(42)` loop of one day: each row is one
      write, and a row whose lookups raise is not written. */
  function DayLayerRows(env: Envelope, e: Entry): Outcome<Line>
  {
    Sequenced(Range(42), Emit(LayerRowOf(env, e)))
  }

  predicate HasLayers(e: Entry)
  {
    && "Date" in e.texts
    && "TSAV" in e.series && |e.series["TSAV"]| >= 42
    && "SWLD" in e.series && |e.series["SWLD"]| >= 42
    && "SNLD" in e.series && |e.series["SNLD"]| >= 42
  }

  /** Layer k of a day has all its values: a date and entry k of each of
      the three per-layer lists. */
  predicate LayerPresent(e: Entry, k: nat)
  {
    && "Date" in e.texts && "TSAV" in e.series && "SWLD" in e.series && "SNLD" in e.series
    && k < |e.series["TSAV"]| && k < |e.series["SWLD"]| && k < |e.series["SNLD"]|
  }

  /** The row of layer k is written exactly when the layer has all its
      values, and carries them. */
  lemma {:induction false} LayerRowPresent(env: Envelope, e: Entry, k: nat)
    ensures LayerRow(env, e, k).Ok? <==> LayerPresent(e, k)
    ensures LayerPresent(e, k) ==>
      LayerRow(env, e, k).value == LayerLine(env.modelCode, env.treatmentId, e.texts["Date"], 5 * k, 5 * k + 5,
                                             e.series["TSAV"][k], e.series["SWLD"][k], e.series["SNLD"][k])
  {
  }

  /** The number of the 42 layers of a day that have all their values. */
  function LayersReached(e: Entry): nat
  {
    if "Date" in e.texts && "TSAV" in e.series && "SWLD" in e.series && "SNLD" in e.series then
      var n := |e.series["TSAV"]|;
      var n := if |e.series["SWLD"]| < n then |e.series["SWLD"]| else n;
      var n := if |e.series["SNLD"]| < n then |e.series["SNLD"]| else n;
      if n < 42 then n else 42
    else 0
  }

  /** Layers are present from the top down: the first layer missing a
      value, or 42, is the number of layers reached. */
  lemma {:induction false} LayersReachedFirstMissing(e: Entry, m: nat)
    requires m <= 42
    requires m > 0 ==> LayerPresent(e, m - 1)
    requires m < 42 ==> !LayerPresent(e, m)
    ensures m == LayersReached(e)
    ensures m == 42 <==> HasLayers(e)
  {
  }

  /** A day writes its 42 layer rows exactly when it has a date and all
      three per-layer lists reach layer 41; otherwise it writes the rows of
      the layers before the first one a list does not reach, and raises.
      The rows tile the profile from 0 cm down in steps of 5 cm and carry
      the day's values of their layer. */
  lemma {:induction false} DayLayersTile(env: Envelope, e: Entry)
    ensures var o := DayLayerRows(env, e);
      && (o.crash.None? <==> HasLayers(e))
      && |o.jobs| == LayersReached(e)
      && (forall k :: 0 <= k < |o.jobs| ==>
            && LayerPresent(e, k)
            && o.jobs[k] == LayerLine(env.modelCode, env.treatmentId, e.texts["Date"], 5 * k, 5 * k + 5,
                                      e.series["TSAV"][k], e.series["SWLD"][k], e.series["SNLD"][k]))
      && (forall k :: 0 <= k < |o.jobs| - 1 ==> o.jobs[k].bottom == o.jobs[k + 1].top)
      && (o.crash.None? ==> |o.jobs| == 42 && o.jobs[0].top == 0 && o.jobs[41].bottom == 210)
  {
    var f := LayerRowOf(env, e);
    var xs := Range(42);
    SequencedEmit(xs, f);
    var o := DayLayerRows(env, e);
    forall k | 0 <= k < |o.jobs|
      ensures LayerPresent(e, k)
      ensures o.jobs[k] == LayerLine(env.modelCode, env.treatmentId, e.texts["Date"], 5 * k, 5 * k + 5,
                                     e.series["TSAV"][k], e.series["SWLD"][k], e.series["SNLD"][k])
    {
      assert xs[k] == k;
      LayerRowPresent(env, e, k);
    }
    var m := |o.jobs|;
    if o.crash.Some? {
      assert xs[m] == m;
      LayerRowPresent(env, e, m);
    }
    LayersReachedFirstMissing(e, m);
  }

  function DayLayerRowsOf(env: Envelope): Entry -> Outcome<Line>
  {
    e => DayLayerRows(env, e)
  }

  /** The layer report: every day of section 0, in order, until a day
      raises. */
  function LayersReport(env: Envelope, days: seq<Entry>): Outcome<Line>
  {
    Sequenced(days, DayLayerRowsOf(env))
  }

  /** The layer report is written in full exactly when every day has its
      42 layers; it then holds, day after day, the 42 rows of each day. */
  lemma {:induction false} LayersReportRows(env: Envelope, days: seq<Entry>)
    ensures LayersReport(env, days).crash.None? <==> forall d :: 0 <= d < |days| ==> HasLayers(days[d])
    ensures LayersReport(env, days).crash.None? ==>
      && |LayersReport(env, days).jobs| == 42 * |days|
      && forall d :: 0 <= d < |days| ==>
        LayersReport(env, days).jobs[42 * d..42 * d + 42] == DayLayerRows(env, days[d]).jobs
  {
    var f := DayLayerRowsOf(env);
    SequencedCompletes(days, f);
    forall d | 0 <= d < |days|
      ensures f(days[d]).crash.None? <==> HasLayers(days[d])
      ensures f(days[d]).crash.None? ==> |f(days[d]).jobs| == 42
    {
      DayLayersTile(env, days[d]);
    }
    if LayersReport(env, days).crash.None? {
      SequencedUniform(days, f, 42);
    }
  }

  /** A day without all its layers ends the layer report: the file keeps
      the 42 rows of every day before it and the rows of that day's layers
      before the first one missing a value. */
  lemma {:induction false} LayersReportFailsAtDay(env: Envelope, days: seq<Entry>, d: nat)
    requires d < |days| && forall k :: 0 <= k < d ==> HasLayers(days[k])
    requires !HasLayers(days[d])
    ensures var o := LayersReport(env, days);
      && o.crash == DayLayerRows(env, days[d]).crash && o.crash.Some?
      && |o.jobs| == 42 * d + LayersReached(days[d])
      && o.jobs[..42 * d] == LayersReport(env, days[..d]).jobs
      && o.jobs[42 * d..] == DayLayerRows(env, days[d]).jobs
  {
    var before := days[..d];
    forall k | 0 <= k < |before|
      ensures HasLayers(before[k])
    {
      assert before[k] == days[k];
    }
    LayersReportRows(env, before);
    DayLayersTile(env, days[d]);
    CrashEndsLoop(days, DayLayerRowsOf(env), d, LayersReport(env, before).jobs);
  }

  /** The inner loop over the 42 layers of one day: the rows it wrote, and
      the exception that ended it, if any. */
  method WriteDayLayers(env: Envelope, e: Entry) returns (rows: seq<Line>, failure: Option<Error>)
    ensures Outcome(rows, failure) == DayLayerRows(env, e)
  {
    var xs := Range(42);
    rows := [];
    for k := 0 to 42
      invariant Sequenced(xs[..k], Emit(LayerRowOf(env, e))) == Done(rows)
    {
      var row := LayerRow(env, e, k);
      if row.Err? {
        CrashEndsLoop(xs, Emit(LayerRowOf(env, e)), k, rows);
        assert rows + [] == rows;
        return rows, Some(row.error);
      }
      SequencedStep(xs, Emit(LayerRowOf(env, e)), k, rows);
      rows := rows + [row.value];
    }
    assert xs[..42] == xs;
    failure := None;
  }

  /** The loop over the days of section 0 that writes the layer report. */
  method WriteLayersReport(env: Envelope, days: seq<Entry>) returns (rows: seq<Line>, failure: Option<Error>)
    ensures Outcome(rows, failure) == LayersReport(env, days)
  {
    rows := [];
    for i := 0 to |days|
      invariant LayersReport(env, days[..i]) == Done(rows)
    {
      var dayRows, dayFailure := WriteDayLayers(env, days[i]);
      if dayFailure.Some? {
        CrashEndsLoop(days, DayLayerRowsOf(env), i, rows);
        return rows + dayRows, dayFailure;
      }
      SequencedStep(days, DayLayerRowsOf(env), i, rows);
      rows := rows + dayRows;
    }
    assert days[..|days|] == days;
    failure := None;
  }

  // ---------------------------------------------------------------------------
  // Daily report: one row per day of section 0

  /** `Stage` mapped to the Zadoks scale; a stage outside 1..6 writes no
      GSTZD field at all. */
  function ZadoksOf(stage: real): Option<Zadoks>
  {
    if stage == 1.0 then Some(Code(0))
    else if stage == 2.0 then Some(Code(9))
    else if stage == 3.0 then Some(NotAvailable)
    else if stage == 4.0 then Some(Code(51))
    else if stage == 5.0 then Some(Code(65))
    else if stage == 6.0 then Some(Code(89))
    else None
  }

  /** The GSTZD field is written exactly for the MONICA stages 1 to 6, and
      a later stage never maps to an earlier Zadoks code. */
  lemma {:induction false} ZadoksScale(s: real, t: real)
    ensures ZadoksOf(s).Some? <==> s == s.Floor as real && 1 <= s.Floor <= 6
    ensures ZadoksOf(s).Some? && ZadoksOf(s).value.Code? && ZadoksOf(t).Some? && ZadoksOf(t).value.Code? && s < t ==>
      ZadoksOf(s).value.n < ZadoksOf(t).value.n
  {
    if s == s.Floor as real && 1 <= s.Floor <= 6 {
      var n := s.Floor;
      assert n == 1 || n == 2 || n == 3 || n == 4 || n == 5 || n == 6;
    }
  }

  /** The numbers of a daily row, in column order. */
  const DailyKeys: seq<string> := ["CNAD", "GNAD", "RDPD", "SWWPD", "DRND", "ROFD", "NLCD", "NMND", "N2OED", "NDND",
                                   "TSSAV", "EOAD", "ETAD", "ESAD", "EPAD"]

  function NumberOf(e: Entry): string -> Result<real>
  {
    k => Lookup(e.numbers, k)
  }

  function DailyRow(env: Envelope, e: Entry): Result<Line>
  {
    var stage :- Lookup(e.numbers, "Stage");
    var values :- MapOk(DailyKeys, NumberOf(e));
    Ok(DailyLine(env.modelCode, env.treatmentId, ZadoksOf(stage), values))
  }

  function DailyRowOf(env: Envelope): Entry -> Result<Line>
  {
    e => DailyRow(env, e)
  }

  predicate HasDailyFields(e: Entry)
  {
    "Stage" in e.numbers && forall j :: 0 <= j < |DailyKeys| ==> DailyKeys[j] in e.numbers
  }

  /** A day yields its daily row exactly when it has the stage and every
      number of the row; the row carries those numbers in column order. */
  lemma {:induction false} DailyRowFields(env: Envelope, e: Entry)
    ensures DailyRow(env, e).Ok? <==> HasDailyFields(e)
    ensures DailyRow(env, e).Ok? ==>
      && DailyRow(env, e).value.gstzd == ZadoksOf(e.numbers["Stage"])
      && |DailyRow(env, e).value.values| == |DailyKeys|
      && forall j :: 0 <= j < |DailyKeys| ==> DailyRow(env, e).value.values[j] == e.numbers[DailyKeys[j]]
  {
    if "Stage" in e.numbers && !forall j :: 0 <= j < |DailyKeys| ==> DailyKeys[j] in e.numbers {
      var j :| 0 <= j < |DailyKeys| && DailyKeys[j] !in e.numbers;
      assert NumberOf(e)(DailyKeys[j]).Err?;
    }
  }

  /** The daily report: one row per day of section 0, each one write,
      until a day raises. */
  function DailyReport(env: Envelope, days: seq<Entry>): Outcome<Line>
  {
    Sequenced(days, Emit(DailyRowOf(env)))
  }

  /** Row d of the daily report is the row of day d. The report is written
      in full exactly when every day has its fields; otherwise it stops at
      the first day that lacks one, which writes nothing. */
  lemma {:induction false} DailyReportRows(env: Envelope, days: seq<Entry>)
    ensures var o := DailyReport(env, days);
      && |o.jobs| <= |days|
      && (o.crash.None? <==> forall d :: 0 <= d < |days| ==> HasDailyFields(days[d]))
      && (forall d :: 0 <= d < |o.jobs| ==> HasDailyFields(days[d]) && DailyRow(env, days[d]) == Ok(o.jobs[d]))
      && (o.crash.Some? ==> |o.jobs| < |days| && !HasDailyFields(days[|o.jobs|]))
  {
    SequencedEmit(days, DailyRowOf(env));
    forall d | 0 <= d < |days|
      ensures DailyRow(env, days[d]).Ok? <==> HasDailyFields(days[d])
    {
      DailyRowFields(env, days[d]);
    }
  }

  /** The loop over the days of section 0 that writes the daily report. */
  method WriteDailyReport(env: Envelope, days: seq<Entry>) returns (rows: seq<Line>, failure: Option<Error>)
    ensures Outcome(rows, failure) == DailyReport(env, days)
  {
    rows := [];
    for i := 0 to |days|
      invariant Sequenced(days[..i], Emit(DailyRowOf(env))) == Done(rows)
    {
      var row := DailyRow(env, days[i]);
      if row.Err? {
        CrashEndsLoop(days, Emit(DailyRowOf(env)), i, rows);
        assert rows + [] == rows;
        return rows, Some(row.error);
      }
      SequencedStep(days, Emit(DailyRowOf(env)), i, rows);
      rows := rows + [row.value];
    }
    assert days[..|days|] == days;
    failure := None;
  }

  // ---------------------------------------------------------------------------
  // Summary report: row i joins entry i of sections 1 to 5

  /** Sections 1 to 5 of `data`. */
  datatype Section = Season | Sowing | Emergence | Anthesis | Maturity

  datatype Sections = Sections(season: seq<Entry>, sowing: seq<Entry>, emergence: seq<Entry>,
                               anthesis: seq<Entry>, maturity: seq<Entry>)

  /** Entry i of each section. */
  datatype Aligned = Aligned(season: Entry, sowing: Entry, emergence: Entry, anthesis: Entry, maturity: Entry)
  {
    function Of(s: Section): Entry
    {
      match s
      case Season => season
      case Sowing => sowing
      case Emergence => emergence
      case Anthesis => anthesis
      case Maturity => maturity
    }
  }

  /** The dates of a summary row and the section each comes from. */
  const SummaryDates: seq<(Section, string)> := [(Sowing, "PDATE"), (Emergence, "PLDAE"), (Anthesis, "ADAT"), (Maturity, "MDAT")]

  /** The numbers of a summary row and the section each comes from. */
  const SummaryValues: seq<(Section, string)> := [
    (Season, "LAIX"), (Anthesis, "CWAA"), (Maturity, "CWAM"), (Maturity, "GWAM"), (Maturity, "HnoAM"),
    (Anthesis, "CNAA"), (Maturity, "CNAM"), (Maturity, "GNAM"), (Season, "RDPM"), (Season, "WAVSSM"),
    (Season, "DRCM"), (Season, "ROCM"), (Season, "NLCM"), (Season, "NMNCM"), (Season, "N2OECM"),
    (Season, "NDNCM"), (Season, "EOCM"), (Season, "ETCM"), (Season, "ESCM"), (Season, "EPCM")]

  /** `msg["data"][1]` to `msg["data"][5]`. */
  function SectionsOf(data: seq<seq<Entry>>): Result<Sections>
  {
    var season :- At(data, 1);
    var sowing :- At(data, 2);
    var emergence :- At(data, 3);
    var anthesis :- At(data, 4);
    var maturity :- At(data, 5);
    Ok(Sections(season, sowing, emergence, anthesis, maturity))
  }

  function DateOf(a: Aligned): ((Section, string)) -> Result<string>
  {
    (c: (Section, string)) => Lookup(a.Of(c.0).texts, c.1)
  }

  function ValueOf(a: Aligned): ((Section, string)) -> Result<real>
  {
    (c: (Section, string)) => Lookup(a.Of(c.0).numbers, c.1)
  }

  /** The dates and numbers of one summary row, in column order. */
  function SummaryFields(a: Aligned): Result<(seq<string>, seq<real>)>
  {
    var dates :- MapOk(SummaryDates, DateOf(a));
    var values :- MapOk(SummaryValues, ValueOf(a));
    Ok((dates, values))
  }

  function SummaryRow(env: Envelope, s: Sections, i: nat): Result<Line>
  {
    var vals :- At(s.season, i);
    var sowing :- At(s.sowing, i);
    var emergence :- At(s.emergence, i);
    var anthesis :- At(s.anthesis, i);
    var maturity :- At(s.maturity, i);
    var fields :- SummaryFields(Aligned(vals, sowing, emergence, anthesis, maturity));
    Ok(SummaryLine(env.modelCode, env.treatmentId, fields.0, fields.1))
  }

  function SummaryRowOf(env: Envelope, s: Sections): nat -> Result<Line>
  {
    (i: nat) => SummaryRow(env, s, i)
  }

  /** `for i, vals in enumerate(results_summary)`: each row is one write,
      until a row raises. */
  function SummaryRows(env: Envelope, s: Sections): Outcome<Line>
  {
    Sequenced(Range(|s.season|), Emit(SummaryRowOf(env, s)))
  }

  /** The summary file is opened before sections 1 to 5 are looked up, so
      a message without them leaves it empty. */
  function SummaryReport(env: Envelope): Outcome<Line>
  {
    match SectionsOf(env.data)
    case Err(e) => Outcome([], Some(e))
    case Ok(s) => SummaryRows(env, s)
  }

  predicate HasSummaryFields(a: Aligned)
  {
    HasSummaryDates(a) && HasSummaryValues(a)
  }

  predicate HasSummaryDates(a: Aligned)
  {
    forall j :: 0 <= j < |SummaryDates| ==> SummaryDates[j].1 in a.Of(SummaryDates[j].0).texts
  }

  predicate HasSummaryValues(a: Aligned)
  {
    forall j :: 0 <= j < |SummaryValues| ==> SummaryValues[j].1 in a.Of(SummaryValues[j].0).numbers
  }

  predicate Covers(s: Sections)
  {
    && |s.sowing| >= |s.season| && |s.emergence| >= |s.season|
    && |s.anthesis| >= |s.season| && |s.maturity| >= |s.season|
  }

  function AlignedAt(s: Sections, i: nat): Aligned
    requires Covers(s) && i < |s.season|
  {
    Aligned(s.season[i], s.sowing[i], s.emergence[i], s.anthesis[i], s.maturity[i])
  }

  /** The dates of a row are there exactly when every section has the
      date keys the row takes from it; each date column holds its key's
      value in its section's entry. */
  lemma {:induction false} SummaryDatesOk(a: Aligned)
    ensures MapOk(SummaryDates, DateOf(a)).Ok? <==> HasSummaryDates(a)
    ensures MapOk(SummaryDates, DateOf(a)).Ok? ==>
      var dates := MapOk(SummaryDates, DateOf(a)).value;
      && |dates| == |SummaryDates|
      && forall j :: 0 <= j < |SummaryDates| ==> dates[j] == a.Of(SummaryDates[j].0).texts[SummaryDates[j].1]
  {
    if !HasSummaryDates(a) {
      var j :| 0 <= j < |SummaryDates| && SummaryDates[j].1 !in a.Of(SummaryDates[j].0).texts;
      assert DateOf(a)(SummaryDates[j]).Err?;
    }
  }

  /** The same for the numbers of a row. */
  lemma {:induction false} SummaryValuesOk(a: Aligned)
    ensures MapOk(SummaryValues, ValueOf(a)).Ok? <==> HasSummaryValues(a)
    ensures MapOk(SummaryValues, ValueOf(a)).Ok? ==>
      var values := MapOk(SummaryValues, ValueOf(a)).value;
      && |values| == |SummaryValues|
      && forall j :: 0 <= j < |SummaryValues| ==> values[j] == a.Of(SummaryValues[j].0).numbers[SummaryValues[j].1]
  {
    if !HasSummaryValues(a) {
      var j :| 0 <= j < |SummaryValues| && SummaryValues[j].1 !in a.Of(SummaryValues[j].0).numbers;
      assert ValueOf(a)(SummaryValues[j]).Err?;
    }
  }

  lemma {:induction false} SummaryFieldsOk(a: Aligned)
    ensures SummaryFields(a).Ok? <==> HasSummaryFields(a)
    ensures SummaryFields(a).Ok? ==>
      SummaryFields(a).value == (MapOk(SummaryDates, DateOf(a)).value, MapOk(SummaryValues, ValueOf(a)).value)
  {
    SummaryDatesOk(a);
    SummaryValuesOk(a);
  }

  /** Summary row i joins entry i of the season section with entry i of
      each of the four stage sections: it is written only when every one of
      them has an entry i and the fields of the row. */
  lemma {:induction false} SummaryRowJoins(env: Envelope, s: Sections, i: nat)
    requires i < |s.season|
    ensures SummaryRow(env, s, i).Ok? <==>
      && i < |s.sowing| && i < |s.emergence| && i < |s.anthesis| && i < |s.maturity|
      && SummaryFields(Aligned(s.season[i], s.sowing[i], s.emergence[i], s.anthesis[i], s.maturity[i])).Ok?
    ensures SummaryRow(env, s, i).Ok? ==>
      var fields := SummaryFields(Aligned(s.season[i], s.sowing[i], s.emergence[i], s.anthesis[i], s.maturity[i])).value;
      SummaryRow(env, s, i).value == SummaryLine(env.modelCode, env.treatmentId, fields.0, fields.1)
  {
  }

  /** Row i of the summary is the row that joins entry i of the sections;
      the report stops at the first row that raises, which writes nothing. */
  lemma {:induction false} SummaryRowsInOrder(env: Envelope, s: Sections)
    ensures var o := SummaryRows(env, s);
      && |o.jobs| <= |s.season|
      && (forall i :: 0 <= i < |o.jobs| ==> SummaryRow(env, s, i) == Ok(o.jobs[i]))
      && (o.crash.None? <==> |o.jobs| == |s.season|)
      && (o.crash.Some? ==> SummaryRow(env, s, |o.jobs|) == Err(o.crash.value))
  {
    var xs := Range(|s.season|);
    SequencedEmit(xs, SummaryRowOf(env, s));
    forall i | 0 <= i < |SummaryRows(env, s).jobs|
      ensures SummaryRow(env, s, i) == Ok(SummaryRows(env, s).jobs[i])
    {
      assert xs[i] == i;
    }
    if SummaryRows(env, s).crash.Some? {
      assert xs[|SummaryRows(env, s).jobs|] == |SummaryRows(env, s).jobs|;
    }
  }

  /** Sections 2 to 5 need at least as many entries as the season section:
      a shorter one makes the summary fail. */
  lemma {:induction false} SummaryNeedsCover(env: Envelope, s: Sections)
    ensures SummaryRows(env, s).crash.None? ==> Covers(s)
  {
    if SummaryRows(env, s).crash.None? && !Covers(s) {
      var i := |s.season| - 1;
      SummaryRowsInOrder(env, s);
      SummaryRowJoins(env, s, i);
    }
  }

  /** With the stage sections covering the season section, the summary is
      written in full exactly when every row has its fields. */
  lemma {:induction false} SummaryRowsOk(env: Envelope, s: Sections)
    requires Covers(s)
    ensures SummaryRows(env, s).crash.None? <==> forall i :: 0 <= i < |s.season| ==> HasSummaryFields(AlignedAt(s, i))
  {
    SummaryRowsInOrder(env, s);
    var o := SummaryRows(env, s);
    if o.crash.None? {
      forall i | 0 <= i < |s.season|
        ensures HasSummaryFields(AlignedAt(s, i))
      {
        SummaryRowJoins(env, s, i);
        SummaryFieldsOk(AlignedAt(s, i));
      }
    } else {
      var i := |o.jobs|;
      SummaryRowJoins(env, s, i);
      SummaryFieldsOk(AlignedAt(s, i));
    }
  }

  /** The loop over the season entries that writes the summary report. */
  method WriteSummaryReport(env: Envelope, s: Sections) returns (rows: seq<Line>, failure: Option<Error>)
    ensures Outcome(rows, failure) == SummaryRows(env, s)
  {
    var xs := Range(|s.season|);
    rows := [];
    for i := 0 to |s.season|
      invariant Sequenced(xs[..i], Emit(SummaryRowOf(env, s))) == Done(rows)
    {
      var row := SummaryRow(env, s, i);
      if row.Err? {
        CrashEndsLoop(xs, Emit(SummaryRowOf(env, s)), i, rows);
        assert rows + [] == rows;
        return rows, Some(row.error);
      }
      SequencedStep(xs, Emit(SummaryRowOf(env, s)), i, rows);
      rows := rows + [row.value];
    }
    assert xs[..|s.season|] == xs;
    failure := None;
  }

  // ---------------------------------------------------------------------------
  // One result message

  function LayersPath(env: Envelope): string
  {
    env.modelCode + "MOLayersMaricopa" + env.treatmentId + ".txt"
  }

  function DailyPath(env: Envelope): string
  {
    env.modelCode + "MODailyMaricopa" + env.treatmentId + ".txt"
  }

  function SummaryPath(env: Envelope): string
  {
    env.modelCode + "MOSummaryMaricopa" + env.treatmentId + ".txt"
  }

  /** The three reports of a message in order, each file opened with mode
      "w" and holding the rows written before any exception. The layer
      file is opened before section 0 is looked up; a report that raises
      ends the message before the next file is opened. */
  function MessageOutcome(env: Envelope): Outcome<FileWrite<Line>>
  {
    match At(env.data, 0)
    case Err(e) => WriteFile(LayersPath(env), Outcome([], Some(e)))
    case Ok(days) =>
      Then(WriteFile(LayersPath(env), LayersReport(env, days)),
           Then(WriteFile(DailyPath(env), DailyReport(env, days)),
                WriteFile(SummaryPath(env), SummaryReport(env))))
  }

  /** What one result message leaves: the files written, in order, and the
      exception that ended it, if any. */
  function Handle(env: Envelope): Handled<FileWrite<Line>>
  {
    var o := MessageOutcome(env);
    Handled(o.jobs, o.crash)
  }

  function HandleFn(): Envelope -> Handled<FileWrite<Line>>
  {
    (env: Envelope) => Handle(env)
  }

  /** The handling of one result message (maricopa_wheat_face/run-consumer.py:68-217). */
  method HandleEnvelope(env: Envelope) returns (h: Handled<FileWrite<Line>>)
    ensures h == Handle(env)
  {
    if |env.data| == 0 {
      return Handled([FileWrite(LayersPath(env), [])], Some(IndexOutOfRange));
    }
    MessageWrites(env);
    var layers, layersFailure := WriteLayersReport(env, env.data[0]);
    var writes := [FileWrite(LayersPath(env), layers)];
    if layersFailure.Some? {
      return Handled(writes, layersFailure);
    }
    var daily, dailyFailure := WriteDailyReport(env, env.data[0]);
    writes := writes + [FileWrite(DailyPath(env), daily)];
    if dailyFailure.Some? {
      return Handled(writes, dailyFailure);
    }
    var sections := SectionsOf(env.data);
    if sections.Err? {
      return Handled(writes + [FileWrite(SummaryPath(env), [])], Some(sections.error));
    }
    var summary, summaryFailure := WriteSummaryReport(env, sections.value);
    h := Handled(writes + [FileWrite(SummaryPath(env), summary)], summaryFailure);
  }

  /** The three report files of a message are different files. */
  lemma {:induction false} ReportPathsDiffer(env: Envelope)
    ensures LayersPath(env) != DailyPath(env) && DailyPath(env) != SummaryPath(env) && LayersPath(env) != SummaryPath(env)
  {
    var k := |env.modelCode| + 2;
    assert LayersPath(env)[k] == 'L';
    assert DailyPath(env)[k] == 'D';
    assert SummaryPath(env)[k] == 'S';
  }

  /** A message is handled in full exactly when it has the six sections
      and all three reports run to their end; the layer and daily reports
      come from section 0 alone. */
  lemma {:induction false} HandleWritesThreeReports(env: Envelope)
    ensures Handle(env).failure.None? <==>
      && |env.data| >= 6
      && LayersReport(env, env.data[0]).crash.None?
      && DailyReport(env, env.data[0]).crash.None?
      && SummaryRows(env, Sections(env.data[1], env.data[2], env.data[3], env.data[4], env.data[5])).crash.None?
    ensures Handle(env).failure.None? ==>
      Handle(env).writes == [
        FileWrite(LayersPath(env), LayersReport(env, env.data[0]).jobs),
        FileWrite(DailyPath(env), DailyReport(env, env.data[0]).jobs),
        FileWrite(SummaryPath(env), SummaryRows(env, Sections(env.data[1], env.data[2], env.data[3],
                                                              env.data[4], env.data[5])).jobs)]
  {
  }

  /** A message that raises leaves every file it opened holding the rows
      written to it before the exception: the layer file is always opened,
      the daily file once the layer report ran to its end, the summary
      file once the daily report did, and a message without sections 1 to
      5 leaves an empty summary file. */
  lemma {:induction false} FailedMessageKeepsRows(env: Envelope)
    requires Handle(env).failure.Some?
    ensures env.data == [] ==>
      Handle(env).failure == Some(IndexOutOfRange) && Written(Handle(env).writes) == map[LayersPath(env) := []]
    ensures env.data != [] ==>
      var layers := LayersReport(env, env.data[0]);
      var daily := DailyReport(env, env.data[0]);
      var summary := SummaryReport(env);
      var files := Written(Handle(env).writes);
      && Handle(env).failure == (if layers.crash.Some? then layers.crash
                                 else if daily.crash.Some? then daily.crash
                                 else summary.crash)
      && LayersPath(env) in files && files[LayersPath(env)] == layers.jobs
      && (layers.crash.None? ==> DailyPath(env) in files && files[DailyPath(env)] == daily.jobs)
      && (layers.crash.None? && daily.crash.None? ==> SummaryPath(env) in files && files[SummaryPath(env)] == summary.jobs)
      && (layers.crash.None? && daily.crash.None? && |env.data| < 6 ==>
            files[SummaryPath(env)] == [] && Handle(env).failure == Some(IndexOutOfRange))
  {
    var ws := Handle(env).writes;
    ReportPathsDiffer(env);
    if env.data == [] {
      assert ws == [FileWrite(LayersPath(env), [])];
      LastWriteWins(ws, 0);
      assert Written(ws).Keys == {LayersPath(env)};
    } else {
      MessageWrites(env);
      var layers := LayersReport(env, env.data[0]);
      var daily := DailyReport(env, env.data[0]);
      if layers.crash.Some? {
        LastWriteWins(ws, 0);
      } else if daily.crash.Some? {
        assert ws == [] + [FileWrite(LayersPath(env), layers.jobs), FileWrite(DailyPath(env), daily.jobs)];
        LastTwoWrites([], LayersPath(env), layers.jobs, DailyPath(env), daily.jobs);
      } else {
        ThreeFiles(ws, LayersPath(env), DailyPath(env), SummaryPath(env));
        SummaryWithoutSections(env);
      }
    }
  }

  /** Without sections 1 to 5 the summary file is left empty and the
      message raises IndexError. */
  lemma {:induction false} SummaryWithoutSections(env: Envelope)
    ensures |env.data| < 6 ==> SummaryReport(env) == Outcome([], Some(IndexOutOfRange))
  {
  }

  /** The files a message with a section 0 writes: the layer file, then
      the daily file if the layer report ran to its end, then the summary
      file if the daily report did too. */
  lemma {:induction false} MessageWrites(env: Envelope)
    requires env.data != []
    ensures var layers := LayersReport(env, env.data[0]);
      var daily := DailyReport(env, env.data[0]);
      var summary := SummaryReport(env);
      && Handle(env).writes ==
        [FileWrite(LayersPath(env), layers.jobs)] +
        (if layers.crash.Some? then []
         else [FileWrite(DailyPath(env), daily.jobs)] +
              (if daily.crash.Some? then [] else [FileWrite(SummaryPath(env), summary.jobs)]))
      && Handle(env).failure == (if layers.crash.Some? then layers.crash
                                 else if daily.crash.Some? then daily.crash
                                 else summary.crash)
  {
    var layers := LayersReport(env, env.data[0]);
    var daily := DailyReport(env, env.data[0]);
    assert MessageOutcome(env) == Then(WriteFile(LayersPath(env), layers),
                                       Then(WriteFile(DailyPath(env), daily),
                                            WriteFile(SummaryPath(env), SummaryReport(env))));
  }

  /** Each of the three reports survives in its own file. */
  lemma {:induction false} HandleLeavesThreeFiles(env: Envelope)
    requires Handle(env).failure.None?
    ensures var files := Written(Handle(env).writes);
      && files.Keys == {LayersPath(env), DailyPath(env), SummaryPath(env)}
      && files[LayersPath(env)] == Handle(env).writes[0].rows
      && files[DailyPath(env)] == Handle(env).writes[1].rows
      && files[SummaryPath(env)] == Handle(env).writes[2].rows
  {
    HandleWritesThreeReports(env);
    ReportPathsDiffer(env);
    ThreeFiles(Handle(env).writes, LayersPath(env), DailyPath(env), SummaryPath(env));
  }

  /** Three writes to three different files: each file holds its write. */
  lemma {:induction false} ThreeFiles<R>(ws: seq<FileWrite<R>>, a: string, b: string, c: string)
    requires a != b && b != c && a != c
    requires |ws| == 3 && ws[0].path == a && ws[1].path == b && ws[2].path == c
    ensures var files := Written(ws);
      && files.Keys == {a, b, c}
      && files[a] == ws[0].rows && files[b] == ws[1].rows && files[c] == ws[2].rows
  {
    assert ws[..2][..1] == ws[..1] && ws[..1][..0] == [];
    var one := map[a := ws[0].rows];
    assert Written(ws[..1]) == one;
    assert Written(ws[..2]) == one[b := ws[1].rows];
    assert Written(ws) == one[b := ws[1].rows][c := ws[2].rows];
  }

  /** maricopa_wheat_face/run-consumer.py: a receive timeout is reported
      and the loop waits again. The loop itself is
      `Collector.RunCollector`; this script and
      ames_bare_soil/run-consumer.py differ only in the result
      message and its handler, so each keeps its own entry point. */
  method RunMaricopaConsumer(stream: seq<Incoming<Envelope>>) returns (r: Collected<FileWrite<Line>>)
    ensures r == Collect(stream, KeepWaiting, HandleFn())
  {
    r := RunCollector(stream, KeepWaiting, HandleFn());
  }
}
