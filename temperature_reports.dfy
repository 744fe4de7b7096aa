/** The soil-temperature consumers: run-consumer.py (for the producer in
    run-producer.py) and soil_temperature_sensitivity_analysis/run-consumer.py.

    Every result envelope carries the tags of its job (location, soil, LAI,
    available water), the fine layer thickness, the profile thicknesses and
    a list of data blocks, each a list of day records. For every data block
    the consumer (re)writes one report file per model code; a day record
    gives one surface row and the rows of the model's layers. */
module TemperatureReports {
  import opened Common
  import opened DepthBands
  import opened Dispatch
  import opened Collector
  import opened Files

  /** One day of MONICA output: its date, the scalar outputs and the
      per-layer outputs by name. */
  datatype Day = Day(date: string, values: map<string, real>, series: map<string, seq<real>>)

  /** A result message: the tags copied from the job's `customId`, the
      layer thicknesses in m, and `data` (a missing `data` or `results` is an
      empty list). */
  datatype Envelope = Envelope(
    location: string, soil: string, lai: string, aw: string,
    layerThickness: real, profileLTs: seq<real>,
    data: seq<seq<Day>>)

  /** The surface row of a report: the surface temperature alone, or with
      its maximum and minimum (PSC, APC). */
  datatype Surface = SurfaceValue(key: string) | SurfaceRange(key: string, maxKey: string, minKey: string)

  /** How a report file turns a day into rows. */
  datatype Report =
      /** MOO, MOC: fine layers added up into profile bands. */
    | Banded(surfKey: string, soilKey: string)
      /** DSC, DEC, SAC, PSC, SWC, STC: one row per profile layer. */
    | Layered(surface: Surface, soilKey: string)
      /** APC: one row per profile layer with its maximum and minimum. */
    | LayeredRange(surface: Surface, soilKey: string, maxKey: string, minKey: string)
      /** SQC: the surface band and nine fixed deep bands. */
    | SurfaceAndDeep(minKey: string, maxKey: string, deepKey: string)

  const RunConsumerReports: seq<(string, Report)> := [
    ("MOO", Banded("SurfTemp", "SoilTemp")),
    ("MOC", Banded("AMEI_Monica_SurfTemp", "AMEI_Monica_SoilTemp")),
    ("DSC", Layered(SurfaceValue("AMEI_DSSAT_ST_standalone_SurfTemp"), "AMEI_DSSAT_ST_standalone_SoilTemp")),
    ("DEC", Layered(SurfaceValue("AMEI_DSSAT_EPICST_standalone_SurfTemp"), "AMEI_DSSAT_EPICST_standalone_SoilTemp")),
    ("SAC", Layered(SurfaceValue("AMEI_Simplace_Soil_Temperature_SurfTemp"), "AMEI_Simplace_Soil_Temperature_SoilTemp")),
    ("SQC", SurfaceAndDeep("AMEI_SQ_Soil_Temperature_SoilTemp_min", "AMEI_SQ_Soil_Temperature_SoilTemp_max",
                           "AMEI_SQ_Soil_Temperature_SoilTemp_deep"))
  ]

  const SensitivityReports: seq<(string, Report)> := RunConsumerReports + [
    ("PSC", Layered(SurfaceRange("AMEI_BiomaSurfacePartonSoilSWATC_SurfTemp", "AMEI_BiomaSurfacePartonSoilSWATC_SurfTemp_max",
                                 "AMEI_BiomaSurfacePartonSoilSWATC_SurfTemp_min"), "AMEI_BiomaSurfacePartonSoilSWATC_SoilTemp")),
    ("SWC", Layered(SurfaceValue("AMEI_BiomaSurfaceSWATSoilSWATC_SurfTemp"), "AMEI_BiomaSurfaceSWATSoilSWATC_SoilTemp")),
    ("STC", Layered(SurfaceValue("AMEI_Stics_soil_temperature_SurfTemp"), "AMEI_Stics_soil_temperature_SoilTemp")),
    ("APC", LayeredRange(SurfaceRange("AMEI_ApsimCampbell_SurfTemp", "AMEI_ApsimCampbell_SurfTemp_max", "AMEI_ApsimCampbell_SurfTemp_min"),
                         "AMEI_ApsimCampbell_SoilTemp", "AMEI_ApsimCampbell_SoilTemp_max", "AMEI_ApsimCampbell_SoilTemp_min"))
  ]

  /** The sensitivity consumer writes the reports of run-consumer.py first,
      then four more; all report codes are three letters and pairwise
      different. */
  lemma {:induction false} ReportTables()
    ensures RunConsumerReports <= SensitivityReports
    ensures |RunConsumerReports| == 6 && |SensitivityReports| == 10
    ensures CodesDistinct(SensitivityReports) && CodesDistinct(RunConsumerReports)
  {
  }

  predicate CodesDistinct(reports: seq<(string, Report)>)
  {
    (forall k :: 0 <= k < |reports| ==> |reports[k].0| == 3) &&
    forall k, l :: 0 <= k < l < |reports| ==> reports[k].0 != reports[l].0
  }

  // ---------------------------------------------------------------------------
  // One day

  function SurfaceRow(date: string, surface: Surface, values: map<string, real>): Result<Row>
  {
    match surface
    case SurfaceValue(key) =>
      var v :- Lookup(values, key);
      Ok(Row(date, 0, 0, Num(v), NA, NA))
    case SurfaceRange(key, maxKey, minKey) =>
      var v :- Lookup(values, key);
      var hi :- Lookup(values, maxKey);
      var lo :- Lookup(values, minKey);
      Ok(Row(date, 0, 0, Num(v), Num(hi), Num(lo)))
  }

  function BandRows(date: string, bands: seq<Band>): (rows: seq<Row>)
    ensures |rows| == |bands|
  {
    seq(|bands|, i requires 0 <= i < |bands| => Row(date, bands[i].upper, bands[i].lower, Num(bands[i].value), NA, NA))
  }

  /** The rows one day writes to a report, and the exception that ends the
      message, if any (run-consumer.py:94-188). Every row is written as soon
      as it is formed, so a day that fails leaves the rows formed before the
      raise; a row whose own lookups fail is not written. */
  function DayRows(report: Report, day: Day, ltCm: int, plts: seq<int>): Outcome<Row>
  {
    match report
    case Banded(surfKey, soilKey) =>
      if surfKey !in day.values then Outcome([], Some(MissingKey))
      else
        var head := Row(day.date, 0, 0, Num(day.values[surfKey]), NA, NA);
        if plts == [] then Outcome([head], Some(Exhausted))
        else if soilKey !in day.series then Outcome([head], Some(MissingKey))
        else
          // The band loop fails only on its first fine layer (AggregateFails).
          (match Aggregate(day.series[soilKey], ltCm, plts)
           case Err(e) => Outcome([head], Some(e))
           case Ok(bands) => Done([head] + BandRows(day.date, bands)))
    case Layered(surface, soilKey) =>
      (match SurfaceRow(day.date, surface, day.values)
       case Err(e) => Outcome([], Some(e))
       case Ok(head) =>
         if soilKey !in day.series then Outcome([head], Some(MissingKey))
         else
           var layers := LayerRows(day.series[soilKey], plts);
           Outcome([head] + BandRows(day.date, layers.jobs), layers.crash))
    case LayeredRange(surface, soilKey, maxKey, minKey) =>
      (match SurfaceRow(day.date, surface, day.values)
       case Err(e) => Outcome([], Some(e))
       case Ok(head) =>
         if soilKey !in day.series then Outcome([head], Some(MissingKey))
         else
           // The first layer row indexes `plts_cm`, then the maxima, then the minima.
           var temps := day.series[soilKey];
           if temps == [] then Done([head])
           else if plts == [] then Outcome([head], Some(IndexOutOfRange))
           else if maxKey !in day.series then Outcome([head], Some(MissingKey))
           else if day.series[maxKey] == [] then Outcome([head], Some(IndexOutOfRange))
           else if minKey !in day.series then Outcome([head], Some(MissingKey))
           else
             var rows := ApsimRows(day.date, temps, day.series[maxKey], day.series[minKey], plts);
             Outcome([head] + rows.jobs, rows.crash))
    case SurfaceAndDeep(minKey, maxKey, deepKey) =>
      if minKey !in day.values || maxKey !in day.values then Outcome([NaRow(day.date)], Some(MissingKey))
      else
        var stMin, stMax := day.values[minKey], day.values[maxKey];
        if deepKey !in day.values then Outcome(SqcSurfaceRows(day.date, stMin, stMax), Some(MissingKey))
        else Done(SqcRows(day.date, stMin, stMax, day.values[deepKey]))
  }

  /** One day of a report, with the loops of the layer rows: the rows it
      wrote, and the exception that ended it, if any. */
  method WriteDay(report: Report, day: Day, ltCm: int, pltsCm: seq<int>) returns (rows: seq<Row>, failure: Option<Error>)
    ensures Outcome(rows, failure) == DayRows(report, day, ltCm, pltsCm)
  {
    rows, failure := [], None;
    match report {
      case Banded(surfKey, soilKey) =>
        if surfKey !in day.values {
          return [], Some(MissingKey);
        }
        rows := [Row(day.date, 0, 0, Num(day.values[surfKey]), NA, NA)];
        if |pltsCm| == 0 {
          return rows, Some(Exhausted);
        }
        if soilKey !in day.series {
          return rows, Some(MissingKey);
        }
        var bands := AggregateBands(day.series[soilKey], ltCm, pltsCm);
        if bands.Err? {
          return rows, Some(bands.error);
        }
        rows := rows + BandRows(day.date, bands.value);
      case Layered(surface, soilKey) =>
        var head := SurfaceRow(day.date, surface, day.values);
        if head.Err? {
          return [], Some(head.error);
        }
        rows := [head.value];
        if soilKey !in day.series {
          return rows, Some(MissingKey);
        }
        var bands, layerFailure := WriteLayerRows(day.series[soilKey], pltsCm);
        rows, failure := rows + BandRows(day.date, bands), layerFailure;
      case LayeredRange(surface, soilKey, maxKey, minKey) =>
        var head := SurfaceRow(day.date, surface, day.values);
        if head.Err? {
          return [], Some(head.error);
        }
        rows := [head.value];
        if soilKey !in day.series {
          return rows, Some(MissingKey);
        }
        var temps := day.series[soilKey];
        if |temps| == 0 {
          return rows, None;
        }
        if |pltsCm| == 0 {
          return rows, Some(IndexOutOfRange);
        }
        if maxKey !in day.series {
          return rows, Some(MissingKey);
        }
        if |day.series[maxKey]| == 0 {
          return rows, Some(IndexOutOfRange);
        }
        if minKey !in day.series {
          return rows, Some(MissingKey);
        }
        var layerRows, layerFailure := WriteApsimRows(day.date, temps, day.series[maxKey], day.series[minKey], pltsCm);
        rows, failure := rows + layerRows, layerFailure;
      case SurfaceAndDeep(minKey, maxKey, deepKey) =>
        rows := [NaRow(day.date)];
        if minKey !in day.values || maxKey !in day.values {
          return rows, Some(MissingKey);
        }
        rows := SqcSurfaceRows(day.date, day.values[minKey], day.values[maxKey]);
        if deepKey !in day.values {
          return rows, Some(MissingKey);
        }
        rows := SqcRows(day.date, day.values[minKey], day.values[maxKey], day.values[deepKey]);
    }
  }

  /** A banded day fails exactly on a missing key, an empty profile, or a
      zero fine-layer thickness with a first profile thickness of at most 0
      and at least one fine layer; a failing day has written its surface
      row, if that was found, and no band. For lt_cm > 0 its rows are the
      surface row followed by non-empty bands that start at 0 cm and are
      contiguous and carry no maximum or minimum. */
  lemma {:induction false} BandedDayRows(surfKey: string, soilKey: string, day: Day, ltCm: int, plts: seq<int>)
    ensures DayRows(Banded(surfKey, soilKey), day, ltCm, plts).crash.None? <==>
      surfKey in day.values && plts != [] && soilKey in day.series &&
      !(ltCm == 0 && day.series[soilKey] != [] && plts[0] <= 0)
    ensures var o := DayRows(Banded(surfKey, soilKey), day, ltCm, plts);
      o.crash.Some? ==>
        o.jobs == if surfKey in day.values then [Row(day.date, 0, 0, Num(day.values[surfKey]), NA, NA)] else []
    ensures ltCm > 0 && DayRows(Banded(surfKey, soilKey), day, ltCm, plts).crash.None? ==>
      var rows := DayRows(Banded(surfKey, soilKey), day, ltCm, plts).jobs;
      && rows[0] == Row(day.date, 0, 0, Num(day.values[surfKey]), NA, NA)
      && (|rows| > 1 ==> rows[1].upper == 0)
      && (forall k :: 1 < k < |rows| ==> rows[k].upper == rows[k - 1].lower)
      && (forall k :: 1 <= k < |rows| ==>
            (rows[k].date == day.date && rows[k].tslx == NA && rows[k].tsln == NA &&
             rows[k].upper < rows[k].lower))
  {
    if surfKey in day.values && plts != [] && soilKey in day.series {
      var temps := day.series[soilKey];
      AggregateFails(temps, ltCm, plts);
      if ltCm > 0 {
        AggregateBandsTile(temps, ltCm, plts);
        var bands := Aggregate(temps, ltCm, plts).value;
        var ends := ScanLayers(temps, ltCm, plts).value.ends;
        var rows := DayRows(Banded(surfKey, soilKey), day, ltCm, plts).jobs;
        assert rows == [Row(day.date, 0, 0, Num(day.values[surfKey]), NA, NA)] + BandRows(day.date, bands);
        forall k | 1 <= k < |rows|
          ensures rows[k].upper < rows[k].lower
        {
          assert Begin(ends, k - 1) < ends[k - 1];
          assert rows[k].lower == ends[k - 1] * ltCm;
          assert rows[k].upper == Begin(ends, k - 1) * ltCm by {
            if k == 1 {
              assert Begin(ends, 0) == 0;
            } else {
              assert Begin(ends, k - 2) < ends[k - 2];
              assert Begin(ends, k - 1) == ends[k - 2];
            }
          }
          MultiplyMonotone(Begin(ends, k - 1), ends[k - 1], ltCm);
        }
      }
    }
  }

  lemma {:induction false} MultiplyMonotone(a: int, b: int, c: int)
    requires a < b && c > 0
    ensures a * c < b * c
  {
  }

  /** A per-layer day fails exactly when a key is missing or there are more
      layer values than profile layers. Once its surface row and series are
      found, it writes the surface row and then one row per layer value up
      to the last profile layer, row i + 1 spanning the sums of the first i
      and i + 1 profile thicknesses; with more values than profile layers
      it then raises IndexError. */
  lemma {:induction false} LayeredDayRows(surfKey: string, soilKey: string, day: Day, ltCm: int, plts: seq<int>)
    ensures DayRows(Layered(SurfaceValue(surfKey), soilKey), day, ltCm, plts).crash.None? <==>
      surfKey in day.values && soilKey in day.series && |day.series[soilKey]| <= |plts|
    ensures surfKey !in day.values ==>
      DayRows(Layered(SurfaceValue(surfKey), soilKey), day, ltCm, plts) == Outcome([], Some(MissingKey))
    ensures surfKey in day.values && soilKey !in day.series ==>
      DayRows(Layered(SurfaceValue(surfKey), soilKey), day, ltCm, plts) ==
        Outcome([Row(day.date, 0, 0, Num(day.values[surfKey]), NA, NA)], Some(MissingKey))
    ensures surfKey in day.values && soilKey in day.series ==>
      var o := DayRows(Layered(SurfaceValue(surfKey), soilKey), day, ltCm, plts);
      var temps := day.series[soilKey];
      var n := if |temps| <= |plts| then |temps| else |plts|;
      && o.crash == (if |temps| <= |plts| then None else Some(IndexOutOfRange))
      && |o.jobs| == n + 1
      && o.jobs[0] == Row(day.date, 0, 0, Num(day.values[surfKey]), NA, NA)
      && forall i :: 0 <= i < n ==>
           o.jobs[i + 1] == Row(day.date, SumInts(plts[..i]), SumInts(plts[..i + 1]), Num(temps[i]), NA, NA)
  {
    if surfKey in day.values && soilKey in day.series {
      LayerRowsPrefixSums(day.series[soilKey], plts);
    }
  }

  /** An SQ day fails exactly when one of its three values is missing. The
      "na" row is always written; a failing day's rows are a prefix of the
      rows it would have written with any deep value: the "na" row alone
      when the minimum or maximum is missing, the two surface rows when the
      deep value is. */
  lemma {:induction false} SqcDayRows(minKey: string, maxKey: string, deepKey: string, day: Day, ltCm: int, plts: seq<int>)
    ensures DayRows(SurfaceAndDeep(minKey, maxKey, deepKey), day, ltCm, plts).crash.None? <==>
      minKey in day.values && maxKey in day.values && deepKey in day.values
    ensures var o := DayRows(SurfaceAndDeep(minKey, maxKey, deepKey), day, ltCm, plts);
      0 < |o.jobs| && o.jobs[0] == NaRow(day.date)
    ensures var o := DayRows(SurfaceAndDeep(minKey, maxKey, deepKey), day, ltCm, plts);
      o.crash.Some? && minKey in day.values && maxKey in day.values ==>
        forall deep: real :: o.jobs <= SqcRows(day.date, day.values[minKey], day.values[maxKey], deep)
    ensures var o := DayRows(SurfaceAndDeep(minKey, maxKey, deepKey), day, ltCm, plts);
      o.crash.Some? ==> o.crash == Some(MissingKey) && |o.jobs| == if minKey in day.values && maxKey in day.values then 2 else 1
  {
    if minKey in day.values && maxKey in day.values && deepKey !in day.values {
      var o := DayRows(SurfaceAndDeep(minKey, maxKey, deepKey), day, ltCm, plts);
      forall deep: real
        ensures o.jobs <= SqcRows(day.date, day.values[minKey], day.values[maxKey], deep)
      {
        var full := SqcRows(day.date, day.values[minKey], day.values[maxKey], deep);
        assert full[..2] == SqcSurfaceRows(day.date, day.values[minKey], day.values[maxKey]);
      }
    }
  }

  // ---------------------------------------------------------------------------
  // One report file

  function DayStep(report: Report, ltCm: int, plts: seq<int>): Day -> Outcome<Row>
  {
    day => DayRows(report, day, ltCm, plts)
  }

  /** The rows one report writes over the days of a data block, and the
      exception of the first day that fails, which ends the message. */
  function ReportRows(report: Report, days: seq<Day>, ltCm: int, plts: seq<int>): Outcome<Row>
  {
    Sequenced(days, DayStep(report, ltCm, plts))
  }

  /** A report runs to its end exactly when every day does. */
  lemma {:induction false} ReportRowsOk(report: Report, days: seq<Day>, ltCm: int, plts: seq<int>)
    ensures ReportRows(report, days, ltCm, plts).crash.None? <==>
      forall k :: 0 <= k < |days| ==> DayRows(report, days[k], ltCm, plts).crash.None?
  {
    SequencedCompletes(days, DayStep(report, ltCm, plts));
  }

  /** A report whose day d is the first to fail holds the rows of the days
      before d followed by the rows day d wrote before its exception, and
      ends with that exception. */
  lemma {:induction false} ReportFailsAtDay(report: Report, days: seq<Day>, ltCm: int, plts: seq<int>, d: nat)
    requires d < |days| && ReportRows(report, days[..d], ltCm, plts).crash.None?
    requires DayRows(report, days[d], ltCm, plts).crash.Some?
    ensures ReportRows(report, days, ltCm, plts) ==
      Outcome(ReportRows(report, days[..d], ltCm, plts).jobs + DayRows(report, days[d], ltCm, plts).jobs,
              DayRows(report, days[d], ltCm, plts).crash)
  {
    CrashEndsLoop(days, DayStep(report, ltCm, plts), d, ReportRows(report, days[..d], ltCm, plts).jobs);
  }

  /** The loop over the days of a data block for one report file: the rows
      it wrote, and the exception that ended it, if any. */
  method WriteReport(report: Report, days: seq<Day>, ltCm: int, pltsCm: seq<int>) returns (rows: seq<Row>, failure: Option<Error>)
    ensures Outcome(rows, failure) == ReportRows(report, days, ltCm, pltsCm)
  {
    rows := [];
    for i := 0 to |days|
      invariant ReportRows(report, days[..i], ltCm, pltsCm) == Done(rows)
    {
      var dayRows, dayFailure := WriteDay(report, days[i], ltCm, pltsCm);
      if dayFailure.Some? {
        CrashEndsLoop(days, DayStep(report, ltCm, pltsCm), i, rows);
        return rows + dayRows, dayFailure;
      }
      SequencedStep(days, DayStep(report, ltCm, pltsCm), i, rows);
      rows := rows + dayRows;
    }
    assert days[..|days|] == days;
    failure := None;
  }

  // ---------------------------------------------------------------------------
  // One message

  function ReportPath(code: string, env: Envelope): string
  {
    "SoilTemperature_MO_" + code + "_" + env.location + "_" + env.soil + "_" + env.lai + "_" + env.aw + ".txt"
  }

  /** Two report codes of the same length name two different files of an
      envelope. */
  lemma {:induction false} ReportPathsDiffer(c1: string, c2: string, env: Envelope)
    requires |c1| == |c2| && c1 != c2
    ensures ReportPath(c1, env) != ReportPath(c2, env)
  {
    var rest := "_" + env.location + "_" + env.soil + "_" + env.lai + "_" + env.aw + ".txt";
    assert ReportPath(c1, env) == "SoilTemperature_MO_" + c1 + rest;
    assert ReportPath(c2, env) == "SoilTemperature_MO_" + c2 + rest;
    var k :| 0 <= k < |c1| && c1[k] != c2[k];
    assert ReportPath(c1, env)[19 + k] == c1[k];
    assert ReportPath(c2, env)[19 + k] == c2[k];
  }

  /** `int(lt * 100)` for the fine layer thickness and every profile
      thickness. */
  function LtCm(env: Envelope): int
  {
    TruncateToInt(env.layerThickness * 100.0)
  }

  function PltsCm(env: Envelope): (plts: seq<int>)
    ensures |plts| == |env.profileLTs|
  {
    seq(|env.profileLTs|, i requires 0 <= i < |env.profileLTs| => TruncateToInt(env.profileLTs[i] * 100.0))
  }

  /** One report file of a data block: the rows written to it, and the
      exception that ended its day loop, if any. */
  function ReportOf(entry: (string, Report), env: Envelope, days: seq<Day>): Outcome<Row>
  {
    ReportRows(entry.1, days, LtCm(env), PltsCm(env))
  }

  /** Writing one report file of a data block. The file is opened with "w"
      before its day loop, so it is written whether or not the loop fails,
      and holds the rows written before the exception. */
  function ReportStep(env: Envelope, days: seq<Day>): ((string, Report)) -> Outcome<FileWrite<Row>>
  {
    (entry: (string, Report)) => WriteFile(ReportPath(entry.0, env), ReportOf(entry, env, days))
  }

  /** All report files of one data block, in table order. */
  function BlockOutcome(reports: seq<(string, Report)>, env: Envelope, days: seq<Day>): Outcome<FileWrite<Row>>
  {
    Sequenced(reports, ReportStep(env, days))
  }

  function BlockStep(reports: seq<(string, Report)>, env: Envelope): seq<Day> -> Outcome<FileWrite<Row>>
  {
    days => BlockOutcome(reports, env, days)
  }

  /** What one result message leaves: the files written, in order, and the
      exception that ended it, if any. */
  function Handle(reports: seq<(string, Report)>): Envelope -> Handled<FileWrite<Row>>
  {
    (env: Envelope) =>
      var o := Sequenced(env.data, BlockStep(reports, env));
      Handled(o.jobs, o.crash)
  }

  /** The report loop of one data block. */
  method WriteBlock(reports: seq<(string, Report)>, env: Envelope, days: seq<Day>, ltCm: int, pltsCm: seq<int>)
    returns (writes: seq<FileWrite<Row>>, failure: Option<Error>)
    requires ltCm == LtCm(env) && pltsCm == PltsCm(env)
    ensures Outcome(writes, failure) == BlockOutcome(reports, env, days)
  {
    writes := [];
    var i := 0;
    while i < |reports|
      invariant i <= |reports|
      invariant Sequenced(reports[..i], ReportStep(env, days)) == Done(writes)
    {
      var (code, report) := reports[i];
      var rows, reportFailure := WriteReport(report, days, ltCm, pltsCm);
      if reportFailure.Some? {
        CrashEndsLoop(reports, ReportStep(env, days), i, writes);
        return writes + [FileWrite(ReportPath(code, env), rows)], reportFailure;
      }
      SequencedStep(reports, ReportStep(env, days), i, writes);
      writes := writes + [FileWrite(ReportPath(code, env), rows)];
      i := i + 1;
    }
    assert reports[..i] == reports;
    failure := None;
  }

  /** The handling of one result message (run-consumer.py:80-188). */
  method HandleEnvelope(reports: seq<(string, Report)>, env: Envelope) returns (h: Handled<FileWrite<Row>>)
    ensures h == Handle(reports)(env)
  {
    var ltCm := TruncateToInt(env.layerThickness * 100.0);
    var pltsCm := seq(|env.profileLTs|, i requires 0 <= i < |env.profileLTs| => TruncateToInt(env.profileLTs[i] * 100.0));
    var writes: seq<FileWrite<Row>> := [];
    var k := 0;
    while k < |env.data|
      invariant k <= |env.data|
      invariant Sequenced(env.data[..k], BlockStep(reports, env)) == Done(writes)
    {
      var blockWrites, failure := WriteBlock(reports, env, env.data[k], ltCm, pltsCm);
      if failure.Some? {
        CrashEndsLoop(env.data, BlockStep(reports, env), k, writes);
        return Handled(writes + blockWrites, failure);
      }
      SequencedStep(env.data, BlockStep(reports, env), k, writes);
      writes := writes + blockWrites;
      k := k + 1;
    }
    assert env.data[..k] == env.data;
    h := Handled(writes, None);
  }

  /** A data block writes one file per report, in table order, up to and
      including the first report that fails; each file holds the rows its
      report wrote. The block fails exactly when its last file's report
      does, and otherwise writes every report. */
  lemma {:induction false} BlockWrites(reports: seq<(string, Report)>, env: Envelope, days: seq<Day>)
    ensures var o := BlockOutcome(reports, env, days);
      && |o.jobs| <= |reports|
      && (forall k :: 0 <= k < |o.jobs| ==> o.jobs[k] == FileWrite(ReportPath(reports[k].0, env), ReportOf(reports[k], env, days).jobs))
      && (forall k :: 0 <= k < |o.jobs| - 1 ==> ReportOf(reports[k], env, days).crash.None?)
      && (o.crash.None? ==> |o.jobs| == |reports| && forall k :: 0 <= k < |reports| ==> ReportOf(reports[k], env, days).crash.None?)
      && (o.crash.Some? ==> 0 < |o.jobs| && o.crash == ReportOf(reports[|o.jobs| - 1], env, days).crash)
  {
    SequencedOneEach(reports, ReportStep(env, days));
  }

  /** After a message whose every block was written, the file of each report
      holds the report's rows for the LAST data block: each block reopens
      the files with mode "w". */
  lemma {:induction false} EnvelopeLeavesLastBlock(reports: seq<(string, Report)>, env: Envelope, k: nat)
    requires CodesDistinct(reports) && k < |reports|
    requires Handle(reports)(env).failure.None? && env.data != []
    ensures var last := env.data[|env.data| - 1];
      var files := Written(Handle(reports)(env).writes);
      && ReportOf(reports[k], env, last).crash.None?
      && ReportPath(reports[k].0, env) in files
      && files[ReportPath(reports[k].0, env)] == ReportOf(reports[k], env, last).jobs
  {
    var data := env.data;
    var init := data[..|data| - 1];
    var last := data[|data| - 1];
    assert data == init + [last];
    SequencedSnoc(init, last, BlockStep(reports, env));
    var before := Sequenced(init, BlockStep(reports, env));
    var block := BlockOutcome(reports, env, last);
    assert Handle(reports)(env).writes == before.jobs + block.jobs;
    BlockWrites(reports, env, last);
    forall j | k < j < |block.jobs|
      ensures block.jobs[j].path != block.jobs[k].path
    {
      ReportPathsDiffer(reports[k].0, reports[j].0, env);
    }
    LastWriteWins(block.jobs, k);
    WrittenAppend(before.jobs, block.jobs, ReportPath(reports[k].0, env));
  }

  /** A message that fails in report k of data block b ends with that
      report's exception and leaves report k's file holding the rows written
      before it: the file was opened with "w" and written row by row. */
  lemma {:induction false} FailedReportKeepsRows(reports: seq<(string, Report)>, env: Envelope, b: nat, k: nat)
    requires b < |env.data| && Sequenced(env.data[..b], BlockStep(reports, env)).crash.None?
    requires k < |reports| && Sequenced(reports[..k], ReportStep(env, env.data[b])).crash.None?
    requires ReportOf(reports[k], env, env.data[b]).crash.Some?
    ensures Handle(reports)(env).failure == ReportOf(reports[k], env, env.data[b]).crash
    ensures var files := Written(Handle(reports)(env).writes);
      && ReportPath(reports[k].0, env) in files
      && files[ReportPath(reports[k].0, env)] == ReportOf(reports[k], env, env.data[b]).jobs
  {
    var days := env.data[b];
    var path := ReportPath(reports[k].0, env);
    var report := ReportOf(reports[k], env, days);
    var before := Sequenced(reports[..k], ReportStep(env, days)).jobs;
    CrashEndsLoop(reports, ReportStep(env, days), k, before);
    var block := BlockOutcome(reports, env, days);
    assert block == Outcome(before + [FileWrite(path, report.jobs)], report.crash);
    var earlier := Sequenced(env.data[..b], BlockStep(reports, env)).jobs;
    CrashEndsLoop(env.data, BlockStep(reports, env), b, earlier);
    var writes := Handle(reports)(env).writes;
    assert writes == (earlier + before) + [FileWrite(path, report.jobs)];
    LastWriteWins(writes, |writes| - 1);
  }

  // ---------------------------------------------------------------------------
  // The two consumers

  /** run-consumer.py: a receive timeout is reported and the loop waits
      again. */
  method RunConsumer(stream: seq<Incoming<Envelope>>) returns (r: Collected<FileWrite<Row>>)
    ensures r == Collect(stream, KeepWaiting, Handle(RunConsumerReports))
  {
    r := RunCollector(stream, KeepWaiting, Handle(RunConsumerReports));
  }

  /** soil_temperature_sensitivity_analysis/run-consumer.py: a receive
      timeout ends the loop. */
  method RunSensitivityConsumer(stream: seq<Incoming<Envelope>>) returns (r: Collected<FileWrite<Row>>)
    ensures r == Collect(stream, Leave, Handle(SensitivityReports))
  {
    r := RunCollector(stream, Leave, Handle(SensitivityReports));
  }

  // ---------------------------------------------------------------------------
  // The fine layer thickness as the scripts carry it

  /** `lt_cm` after the per-layer loops of one report over the days: both
      scripts reuse the name `lt_cm` for `plts_cm[i]` in those loops, so it
      ends up as the thickness of the last layer visited. */
  function ThicknessAfterDays(ltCm: int, plts: seq<int>, soilKey: string, days: seq<Day>): (r: int)
    ensures r == ltCm || r in plts
  {
    if days == [] then ltCm
    else
      var t := ThicknessAfterDays(ltCm, plts, soilKey, days[..|days| - 1]);
      var day := days[|days| - 1];
      if soilKey in day.series && 0 < |day.series[soilKey]| <= |plts| then plts[|day.series[soilKey]| - 1] else t
  }

  /** `lt_cm` after all reports of one data block, as the scripts are
      written: what the banded reports of the NEXT data block divide by. */
  function ThicknessAfterBlock(ltCm: int, plts: seq<int>, reports: seq<(string, Report)>, days: seq<Day>): (r: int)
    ensures r == ltCm || r in plts
  {
    if reports == [] then ltCm
    else
      var t := ThicknessAfterBlock(ltCm, plts, reports[..|reports| - 1], days);
      match reports[|reports| - 1].1
      case Layered(_, soilKey) => ThicknessAfterDays(t, plts, soilKey, days)
      case LayeredRange(_, soilKey, _, _) => ThicknessAfterDays(t, plts, soilKey, days)
      case _ => t
  }

  /** With 2 cm fine layers and a single 5 cm profile layer, one day whose
      DSSAT series has one value leaves `lt_cm` at 5 after the first data
      block (ThicknessCarriedOver), and three 1-degree fine layers then give
      three 5 cm bands instead of one 6 cm band (BandsWithCarriedThickness):
      as written, the second block's MOO report divides by the wrong
      thickness. The model writes every block with the envelope's own
      thickness. */
  lemma {:induction false} ThicknessCarriedOver()
    ensures var day := Day("2000-01-01", map[], map["AMEI_DSSAT_ST_standalone_SoilTemp" := [1.0]]);
      ThicknessAfterBlock(2, [5], RunConsumerReports, [day]) == 5
  {
    var day := Day("2000-01-01", map[], map["AMEI_DSSAT_ST_standalone_SoilTemp" := [1.0]]);
    var key := "AMEI_DSSAT_ST_standalone_SoilTemp";
    assert [day][..0] == [];
    assert ThicknessAfterDays(2, [5], key, [day]) == 5;
    var reports := RunConsumerReports;
    assert reports[..1][..0] == [];
    assert ThicknessAfterBlock(2, [5], reports[..1], [day]) == 2;
    assert reports[..2][..1] == reports[..1];
    assert ThicknessAfterBlock(2, [5], reports[..2], [day]) == 2;
    assert reports[..3][..2] == reports[..2];
    assert reports[..3][2].1 == Layered(SurfaceValue("AMEI_DSSAT_ST_standalone_SurfTemp"), key);
    assert ThicknessAfterBlock(2, [5], reports[..3], [day]) == 5;
    assert reports[..4][..3] == reports[..3];
    assert ThicknessAfterBlock(2, [5], reports[..4], [day]) == 5;
    assert reports[..5][..4] == reports[..4];
    assert ThicknessAfterBlock(2, [5], reports[..5], [day]) == 5;
    assert reports[..6][..5] == reports[..5];
    assert reports[..6] == reports;
  }

  lemma {:induction false} BandsWithCarriedThickness()
    ensures Aggregate([1.0, 1.0, 1.0], 5, [5]) == Ok([Band(0, 5, 1.0), Band(5, 10, 1.0), Band(10, 15, 1.0)])
    ensures Aggregate([1.0, 1.0, 1.0], 2, [5]) == Ok([Band(0, 6, 1.0)])
  {
    BandsOfFiveCm();
    BandsOfTwoCm();
  }

  /** lt_cm = 5: every fine layer closes a band. */
  lemma {:induction false} BandsOfFiveCm()
    ensures ScanLayers([1.0, 1.0, 1.0], 5, [5]) ==
      Ok(Scan([Band(0, 5, 1.0), Band(5, 10, 1.0), Band(10, 15, 1.0)], [1, 2, 3], 0, 0.0, 1))
  {
    var t1, t2, t3 := [1.0], [1.0, 1.0], [1.0, 1.0, 1.0];
    assert t1[..0] == [] && t2[..1] == t1 && t3[..2] == t2;
    assert ScanLayers(t1[..0], 5, [5]) == Ok(Scan([], [], 0, 0.0, 1));
    FiveCmStep(Scan([], [], 0, 0.0, 1), 0);
    assert [] + [Band(0, 5, 1.0)] == [Band(0, 5, 1.0)] && [] + [1] == [1];
    assert ScanLayers(t1, 5, [5]) == Ok(Scan([Band(0, 5, 1.0)], [1], 0, 0.0, 1));
    assert ScanLayers(t2[..1], 5, [5]) == Ok(Scan([Band(0, 5, 1.0)], [1], 0, 0.0, 1));
    FiveCmStep(Scan([Band(0, 5, 1.0)], [1], 0, 0.0, 1), 1);
    assert [Band(0, 5, 1.0)] + [Band(5, 10, 1.0)] == [Band(0, 5, 1.0), Band(5, 10, 1.0)] && [1] + [2] == [1, 2];
    assert ScanLayers(t2, 5, [5]) == Ok(Scan([Band(0, 5, 1.0), Band(5, 10, 1.0)], [1, 2], 0, 0.0, 1));
    assert ScanLayers(t3[..2], 5, [5]) == Ok(Scan([Band(0, 5, 1.0), Band(5, 10, 1.0)], [1, 2], 0, 0.0, 1));
    FiveCmStep(Scan([Band(0, 5, 1.0), Band(5, 10, 1.0)], [1, 2], 0, 0.0, 1), 2);
    assert [Band(0, 5, 1.0), Band(5, 10, 1.0)] + [Band(10, 15, 1.0)] == [Band(0, 5, 1.0), Band(5, 10, 1.0), Band(10, 15, 1.0)];
    assert [1, 2] + [3] == [1, 2, 3];
  }

  /** lt_cm = 2: the third fine layer closes the only band. */
  lemma {:induction false} BandsOfTwoCm()
    ensures ScanLayers([1.0, 1.0, 1.0], 2, [5]) == Ok(Scan([Band(0, 6, 1.0)], [3], 0, 0.0, 1))
  {
    var t1, t2, t3 := [1.0], [1.0, 1.0], [1.0, 1.0, 1.0];
    assert t1[..0] == [] && t2[..1] == t1 && t3[..2] == t2;
    assert ScanLayers(t1, 2, [5]) == Ok(Scan([], [], 2, 1.0, 1));
    assert ScanLayers(t2, 2, [5]) == Ok(Scan([], [], 4, 2.0, 1));
    var r := LayerStep(Scan([], [], 4, 2.0, 1), 2, 1.0, 2, [5]);
    assert r.Ok? && r.value.bands == [] + [Band(0, 6, (2.0 + 1.0) / (6 as real / 2 as real))];
    assert (2.0 + 1.0) / (6 as real / 2 as real) == 1.0;
    assert [] + [Band(0, 6, 1.0)] == [Band(0, 6, 1.0)] && [] + [3] == [3];
  }

  lemma {:induction false} FiveCmStep(s: Scan, i: nat)
    requires s.iPlt == 1 && |s.ends| == |s.bands| && s.sumLtCm == 0 && s.sumTemp == 0.0
    ensures LayerStep(s, i, 1.0, 5, [5]) == Ok(Scan(s.bands + [Band(i * 5, (i + 1) * 5, 1.0)], s.ends + [i + 1], 0, 0.0, 1))
  {
    var r := LayerStep(s, i, 1.0, 5, [5]);
    assert r.Ok? && r.value.bands == s.bands + [Band((i + 1) * 5 - 5, (i + 1) * 5, (0.0 + 1.0) / (5 as real / 5 as real))];
    assert (0.0 + 1.0) / (5 as real / 5 as real) == 1.0;
  }
}
