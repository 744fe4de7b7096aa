/** The send loop of the Maricopa wheat FACE producer: for every plot of every
    treatment of every experiment it assembles the management schedule and
    sends one job per soil-temperature model variant, then the closing count
    message. The schedule is assembled per plot from the two-element list
    [sowing, harvest]. */
module MaricopaProducer {
  import opened Common
  import opened Schedule
  import opened Dispatch
  import ScheduleFacts

  /** A plot: only its soil profile id reaches the job. Its `soil` dict is
      `soils[SOIL_ID]` of a `defaultdict(dict)`, which holds "layers" and
      "SALB" exactly when the soil has a Soil_metadata row. */
  datatype Plot = Plot(plotId: string, soilProfileId: string)

  /** The `weather_stations` entry of a treatment's station. */
  datatype Station = Station(co2y: real, tamp: real, tav: real)

  /** The `weather_daily` entry of a treatment's dataset; a loaded dataset
      has at least one row, so `start_date` is set. */
  datatype WeatherData = WeatherData(startDate: string, data: map<nat, seq<real>>)

  /** A treatment with what the send loop reads: SDAT, the station and the
      weather dataset found for it (`.get(..., None)`), PDATE and HADAT
      (absent while the `planting_events` / `harvest_events` dict is still
      `{}`), and its events and plots. */
  datatype Treatment = Treatment(treatmentId: string, wstDataset: string, sdat: string,
                                 station: Option<Station>, weather: Option<WeatherData>,
                                 pdate: Option<string>, hadat: Option<string>,
                                 ferts: seq<FertilizerEvent>, irrs: seq<IrrigationEvent>,
                                 plots: seq<Plot>)

  datatype Experiment = Experiment(treatments: seq<Treatment>)

  /** The parts of the environment and its customId that a job sets. */
  datatype Job = Job(stModel: string, modelCode: string, treatmentId: string, year: string,
                     wstDataset: string, soilProfileId: string, worksteps: seq<Workstep>,
                     climateStart: string, climateEnd: string, climate: map<nat, seq<real>>,
                     co2: real, tamp: real, tav: real)

  function VariantJob(t: Treatment, p: Plot, w: WeatherData, st: Station, hadat: string, ws: seq<Workstep>,
                      variant: (string, string)): Job
  {
    Job(variant.0, variant.1, t.treatmentId, Take(w.startDate, 4), t.wstDataset,
        p.soilProfileId, ws, t.sdat, Take(hadat, 4) + "-12-31", w.data, st.co2y, st.tamp, st.tav)
  }

  /** The ten jobs of one plot, in model-variant order. */
  function PlotJobs(t: Treatment, p: Plot, w: WeatherData, st: Station, hadat: string, ws: seq<Workstep>,
                    variants: seq<(string, string)>): seq<Job>
  {
    seq(|variants|, k requires 0 <= k < |variants| => VariantJob(t, p, w, st, hadat, ws, variants[k]))
  }

  /** One plot, in the order the loop body reads its inputs: a soil without
      metadata raises KeyError on `p["soil"]["layers"]`, a missing station
      TypeError on `["CO2Y"]`, a missing planting or harvest row KeyError on
      PDATE / HADAT, a missing weather dataset TypeError on `["data"]`, and
      the schedule's assembly may raise; all of these happen before any send.
      Otherwise the plot sends one job per model variant. `soils` are the
      SOIL_IDs of Soil_metadata. */
  function PlotOutcome(t: Treatment, p: Plot, soils: set<string>, layerThicknessM: real,
                       variants: seq<(string, string)>): Outcome<Job>
  {
    if p.soilProfileId !in soils then Outcome([], Some(MissingKey))
    else if t.station.None? then Outcome([], Some(NotSubscriptable))
    else if t.pdate.None? || t.hadat.None? then Outcome([], Some(MissingKey))
    else if t.weather.None? then Outcome([], Some(NotSubscriptable))
    else ScheduledJobs(t, p, t.weather.value, t.station.value, t.hadat.value,
                       AssembledSchedule(t.ferts, t.irrs, t.pdate.value, t.hadat.value, layerThicknessM), variants)
  }

  /** The rest of the plot body once its entries are read: the schedule's
      exception, or the plot's jobs with its schedule. */
  function ScheduledJobs(t: Treatment, p: Plot, w: WeatherData, st: Station, hadat: string,
                         schedule: Result<seq<Workstep>>, variants: seq<(string, string)>): Outcome<Job>
  {
    match schedule
    case Err(e) => Outcome([], Some(e))
    case Ok(ws) => Done(PlotJobs(t, p, w, st, hadat, ws, variants))
  }

  function PlotStep(t: Treatment, soils: set<string>, layerThicknessM: real, variants: seq<(string, string)>): Plot -> Outcome<Job>
  {
    (p: Plot) => PlotOutcome(t, p, soils, layerThicknessM, variants)
  }

  function TreatmentStep(soils: set<string>, layerThicknessM: real, variants: seq<(string, string)>): Treatment -> Outcome<Job>
  {
    (t: Treatment) => Sequenced(t.plots, PlotStep(t, soils, layerThicknessM, variants))
  }

  function ExperimentStep(soils: set<string>, layerThicknessM: real, variants: seq<(string, string)>): Experiment -> Outcome<Job>
  {
    (e: Experiment) => Sequenced(e.treatments, TreatmentStep(soils, layerThicknessM, variants))
  }

  /** Everything the producer sends. */
  function ProducerRun(exps: seq<Experiment>, soils: set<string>, layerThicknessM: real): Outcome<Job>
  {
    Sequenced(exps, ExperimentStep(soils, layerThicknessM, ModelVariants))
  }

  /** The innermost loop: one job per model variant for plot `p`, each sent
      with env_id = sent_env_count + 1. `done` are the jobs sent before. */
  method SendPlotJobs(sent0: seq<Message<Job>>, count0: nat, ghost done: seq<Job>, t: Treatment, p: Plot,
                      w: WeatherData, st: Station, hadat: string, worksteps: seq<Workstep>,
                      variants: seq<(string, string)>)
    returns (sent: seq<Message<Job>>, sentEnvCount: nat)
    requires sent0 == Numbered(done) && count0 == |done|
    ensures sent == Numbered(done + PlotJobs(t, p, w, st, hadat, worksteps, variants))
    ensures sentEnvCount == |done + PlotJobs(t, p, w, st, hadat, worksteps, variants)|
  {
    sent, sentEnvCount := sent0, count0;
    ghost var jobsP: seq<Job> := [];
    assert done + jobsP == done;
    var v := 0;
    while v < |variants|
      invariant 0 <= v <= |variants|
      invariant jobsP == PlotJobs(t, p, w, st, hadat, worksteps, variants)[..v]
      invariant sent == Numbered(done + jobsP) && sentEnvCount == |done + jobsP|
    {
      var (stModel, modelCode) := variants[v];
      var job := Job(stModel, modelCode, t.treatmentId, Take(w.startDate, 4), t.wstDataset,
                     p.soilProfileId, worksteps, t.sdat, Take(hadat, 4) + "-12-31", w.data,
                     st.co2y, st.tamp, st.tav);
      assert job == PlotJobs(t, p, w, st, hadat, worksteps, variants)[v];
      assert PlotJobs(t, p, w, st, hadat, worksteps, variants)[..v + 1] == jobsP + [job];
      sent, sentEnvCount := Send(sent, sentEnvCount, done + jobsP, job);
      AppendAssociative(done, jobsP, [job]);
      jobsP := jobsP + [job];
      v := v + 1;
    }
    assert jobsP == PlotJobs(t, p, w, st, hadat, worksteps, variants);
  }

  /** The body of the plot loop: read the soil, station, planting, harvest
      and weather entries, assemble the schedule (an exception leaves the
      loop) and send one job per model variant. */
  method RunPlot(sent0: seq<Message<Job>>, count0: nat, ghost done: seq<Job>, t: Treatment, p: Plot,
                 soils: set<string>, layerThicknessM: real, variants: seq<(string, string)>)
    returns (sent: seq<Message<Job>>, sentEnvCount: nat, crash: Option<Error>)
    requires sent0 == Numbered(done) && count0 == |done|
    ensures crash == PlotStep(t, soils, layerThicknessM, variants)(p).crash
    ensures sent == Numbered(done + PlotStep(t, soils, layerThicknessM, variants)(p).jobs)
    ensures sentEnvCount == |done + PlotStep(t, soils, layerThicknessM, variants)(p).jobs|
  {
    assert done + [] == done;
    if p.soilProfileId !in soils {
      return sent0, count0, Some(MissingKey);
    }
    if t.station.None? {
      return sent0, count0, Some(NotSubscriptable);
    }
    if t.pdate.None? || t.hadat.None? {
      return sent0, count0, Some(MissingKey);
    }
    if t.weather.None? {
      return sent0, count0, Some(NotSubscriptable);
    }
    var worksteps := AssembleWorksteps(t.ferts, t.irrs, t.pdate.value, t.hadat.value, layerThicknessM);
    if worksteps.Err? {
      return sent0, count0, Some(worksteps.error);
    }
    sent, sentEnvCount := SendPlotJobs(sent0, count0, done, t, p, t.weather.value, t.station.value, t.hadat.value,
                                       worksteps.value, variants);
    crash := None;
  }

  /** The loop over the plots of one treatment. An exception raised in a
      plot leaves the loop and is handed to the caller. */
  method RunTreatment(sent0: seq<Message<Job>>, count0: nat, ghost done: seq<Job>, t: Treatment,
                      soils: set<string>, layerThicknessM: real, variants: seq<(string, string)>)
    returns (sent: seq<Message<Job>>, sentEnvCount: nat, crash: Option<Error>)
    requires sent0 == Numbered(done) && count0 == |done|
    ensures crash == TreatmentStep(soils, layerThicknessM, variants)(t).crash
    ensures sent == Numbered(done + TreatmentStep(soils, layerThicknessM, variants)(t).jobs)
    ensures sentEnvCount == |done + TreatmentStep(soils, layerThicknessM, variants)(t).jobs|
  {
    sent, sentEnvCount, crash := sent0, count0, None;
    ghost var jobsT: seq<Job> := [];
    assert done + jobsT == done;
    var k := 0;
    while k < |t.plots|
      invariant 0 <= k <= |t.plots|
      invariant Sequenced(t.plots[..k], PlotStep(t, soils, layerThicknessM, variants)) == Done(jobsT)
      invariant sent == Numbered(done + jobsT) && sentEnvCount == |done + jobsT|
      invariant crash.None?
    {
      var p := t.plots[k];
      ghost var o := PlotStep(t, soils, layerThicknessM, variants)(p);
      sent, sentEnvCount, crash := RunPlot(sent, sentEnvCount, done + jobsT, t, p, soils, layerThicknessM, variants);
      AppendAssociative(done, jobsT, o.jobs);
      if crash.Some? {
        CrashEndsLoop(t.plots, PlotStep(t, soils, layerThicknessM, variants), k, jobsT);
        return;
      }
      SequencedStep(t.plots, PlotStep(t, soils, layerThicknessM, variants), k, jobsT);
      jobsT := jobsT + o.jobs;
      k := k + 1;
    }
    assert t.plots[..k] == t.plots;
  }

  /** The loop over the treatments of one experiment. */
  method RunExperiment(sent0: seq<Message<Job>>, count0: nat, ghost done: seq<Job>, e: Experiment,
                       soils: set<string>, layerThicknessM: real, variants: seq<(string, string)>)
    returns (sent: seq<Message<Job>>, sentEnvCount: nat, crash: Option<Error>)
    requires sent0 == Numbered(done) && count0 == |done|
    ensures crash == ExperimentStep(soils, layerThicknessM, variants)(e).crash
    ensures sent == Numbered(done + ExperimentStep(soils, layerThicknessM, variants)(e).jobs)
    ensures sentEnvCount == |done + ExperimentStep(soils, layerThicknessM, variants)(e).jobs|
  {
    sent, sentEnvCount, crash := sent0, count0, None;
    ghost var jobsE: seq<Job> := [];
    assert done + jobsE == done;
    var j := 0;
    while j < |e.treatments|
      invariant 0 <= j <= |e.treatments|
      invariant Sequenced(e.treatments[..j], TreatmentStep(soils, layerThicknessM, variants)) == Done(jobsE)
      invariant sent == Numbered(done + jobsE) && sentEnvCount == |done + jobsE|
      invariant crash.None?
    {
      var t := e.treatments[j];
      ghost var o := TreatmentStep(soils, layerThicknessM, variants)(t);
      sent, sentEnvCount, crash := RunTreatment(sent, sentEnvCount, done + jobsE, t, soils, layerThicknessM, variants);
      AppendAssociative(done, jobsE, o.jobs);
      if crash.Some? {
        CrashEndsLoop(e.treatments, TreatmentStep(soils, layerThicknessM, variants), j, jobsE);
        return;
      }
      SequencedStep(e.treatments, TreatmentStep(soils, layerThicknessM, variants), j, jobsE);
      jobsE := jobsE + o.jobs;
      j := j + 1;
    }
    assert e.treatments[..j] == e.treatments;
  }

  /** The producer's send loop over all experiments, followed by the closing
      message when no exception escaped; `sent` is what goes out on the
      socket, in order. */
  method RunProducer(exps: seq<Experiment>, soils: set<string>, layerThicknessM: real) returns (sent: seq<Message<Job>>)
    ensures sent == Sent(ProducerRun(exps, soils, layerThicknessM))
  {
    var variants := ModelVariants;
    var sentEnvCount := 0;
    sent := [];
    ghost var jobs: seq<Job> := [];
    var i := 0;
    while i < |exps|
      invariant 0 <= i <= |exps|
      invariant Sequenced(exps[..i], ExperimentStep(soils, layerThicknessM, variants)) == Done(jobs)
      invariant sent == Numbered(jobs) && sentEnvCount == |jobs|
    {
      var e := exps[i];
      ghost var o := ExperimentStep(soils, layerThicknessM, variants)(e);
      var crash;
      sent, sentEnvCount, crash := RunExperiment(sent, sentEnvCount, jobs, e, soils, layerThicknessM, variants);
      if crash.Some? {
        CrashEndsLoop(exps, ExperimentStep(soils, layerThicknessM, variants), i, jobs);
        return;
      }
      SequencedStep(exps, ExperimentStep(soils, layerThicknessM, variants), i, jobs);
      jobs := jobs + o.jobs;
      i := i + 1;
    }
    assert exps[..i] == exps;
    sent := sent + [SentCount(sentEnvCount)];
  }

  // ---------------------------------------------------------------------------
  // Properties

  /** Each plot yields one job per model variant, in the order of the variant
      list, all carrying the plot's schedule, the treatment id, the year of the
      weather dataset's first date, a climate window from SDAT to the end of
      the harvest year with the dataset's daily values, and the station's
      CO2, TAMP and TAV. */
  lemma {:induction false} PlotJobsFollowVariants(t: Treatment, p: Plot, w: WeatherData, st: Station, hadat: string,
                                                  ws: seq<Workstep>, variants: seq<(string, string)>)
    ensures |PlotJobs(t, p, w, st, hadat, ws, variants)| == |variants|
    ensures forall k :: 0 <= k < |variants| ==>
      var job := PlotJobs(t, p, w, st, hadat, ws, variants)[k];
      (job.stModel, job.modelCode) == variants[k] && job.worksteps == ws &&
      job.treatmentId == t.treatmentId && job.soilProfileId == p.soilProfileId &&
      job.year == Take(w.startDate, 4) && job.climateStart == t.sdat &&
      job.climateEnd == Take(hadat, 4) + "-12-31" && job.climate == w.data &&
      job.co2 == st.co2y && job.tamp == st.tamp && job.tav == st.tav
  {
  }

  /** The entries the loop body reads for a plot all exist. */
  predicate PlotInputs(t: Treatment, p: Plot, soils: set<string>)
  {
    p.soilProfileId in soils && t.station.Some? && t.pdate.Some? && t.hadat.Some? && t.weather.Some?
  }

  /** A plot goes through: its inputs exist and its schedule can be
      assembled. */
  predicate PlotReady(t: Treatment, p: Plot, soils: set<string>, layerThicknessM: real)
  {
    PlotInputs(t, p, soils) &&
    forall i :: 0 <= i < |t.irrs| ==> ScheduleFacts.IrrigationFeasible(t.ferts, t.irrs[i], layerThicknessM)
  }

  /** A plot raises exactly when one of the entries it reads is missing or its
      schedule cannot be assembled (a zero layer thickness, or an irrigation
      of zero water on a date that carries nitrate). A raising plot sends
      nothing; otherwise it sends one job per variant. */
  lemma {:induction false} PlotCrashes(t: Treatment, p: Plot, soils: set<string>, layerThicknessM: real,
                                       variants: seq<(string, string)>)
    ensures PlotOutcome(t, p, soils, layerThicknessM, variants).crash.None? <==> PlotReady(t, p, soils, layerThicknessM)
    ensures PlotOutcome(t, p, soils, layerThicknessM, variants).crash.Some? ==>
      PlotOutcome(t, p, soils, layerThicknessM, variants).jobs == []
    ensures PlotOutcome(t, p, soils, layerThicknessM, variants).crash.None? ==>
      |PlotOutcome(t, p, soils, layerThicknessM, variants).jobs| == |variants|
  {
    if PlotInputs(t, p, soils) {
      var r := PlotSchedule(t, layerThicknessM);
      PlotOutcomeScheduled(t, p, soils, layerThicknessM, variants);
      ScheduledJobsCases(t, p, t.weather.value, t.station.value, t.hadat.value, r, variants);
      ScheduleFacts.AssembledScheduleOk(t.ferts, t.irrs, t.pdate.value, t.hadat.value, layerThicknessM);
    } else {
      PlotOutcomeMissing(t, p, soils, layerThicknessM, variants);
    }
  }

  /** The schedule of a treatment whose planting and harvest dates are read. */
  function PlotSchedule(t: Treatment, layerThicknessM: real): Result<seq<Workstep>>
    requires t.pdate.Some? && t.hadat.Some?
  {
    AssembledSchedule(t.ferts, t.irrs, t.pdate.value, t.hadat.value, layerThicknessM)
  }

  /** With every entry present, the plot is its scheduled jobs. */
  lemma {:induction false} PlotOutcomeScheduled(t: Treatment, p: Plot, soils: set<string>, layerThicknessM: real,
                                                variants: seq<(string, string)>)
    requires PlotInputs(t, p, soils)
    ensures PlotOutcome(t, p, soils, layerThicknessM, variants) ==
      ScheduledJobs(t, p, t.weather.value, t.station.value, t.hadat.value, PlotSchedule(t, layerThicknessM), variants)
  {
  }

  /** With an entry missing, the plot raises before it sends. */
  lemma {:induction false} PlotOutcomeMissing(t: Treatment, p: Plot, soils: set<string>, layerThicknessM: real,
                                              variants: seq<(string, string)>)
    requires !PlotInputs(t, p, soils)
    ensures PlotOutcome(t, p, soils, layerThicknessM, variants).crash.Some?
    ensures PlotOutcome(t, p, soils, layerThicknessM, variants).jobs == []
  {
  }

  /** Once the entries are read, the plot raises exactly the schedule's
      exception, sending nothing, or sends one job per variant. */
  lemma {:induction false} ScheduledJobsCases(t: Treatment, p: Plot, w: WeatherData, st: Station, hadat: string,
                                              schedule: Result<seq<Workstep>>, variants: seq<(string, string)>)
    ensures ScheduledJobs(t, p, w, st, hadat, schedule, variants).crash.None? <==> schedule.Ok?
    ensures schedule.Err? ==> ScheduledJobs(t, p, w, st, hadat, schedule, variants) == Outcome([], Some(schedule.error))
    ensures schedule.Ok? ==> |ScheduledJobs(t, p, w, st, hadat, schedule, variants).jobs| == |variants|
  {
  }

  /** Which exception a plot raises: the first missing entry in the order the
      loop body reads them decides it, and with every entry present only the
      schedule's ZeroDivisionError remains. */
  lemma {:induction false} PlotCrashCause(t: Treatment, p: Plot, soils: set<string>, layerThicknessM: real,
                                          variants: seq<(string, string)>)
    ensures p.soilProfileId !in soils ==>
      PlotOutcome(t, p, soils, layerThicknessM, variants).crash == Some(MissingKey)
    ensures p.soilProfileId in soils && t.station.None? ==>
      PlotOutcome(t, p, soils, layerThicknessM, variants).crash == Some(NotSubscriptable)
    ensures p.soilProfileId in soils && t.station.Some? && (t.pdate.None? || t.hadat.None?) ==>
      PlotOutcome(t, p, soils, layerThicknessM, variants).crash == Some(MissingKey)
    ensures p.soilProfileId in soils && t.station.Some? && t.pdate.Some? && t.hadat.Some? && t.weather.None? ==>
      PlotOutcome(t, p, soils, layerThicknessM, variants).crash == Some(NotSubscriptable)
    ensures PlotInputs(t, p, soils) && PlotOutcome(t, p, soils, layerThicknessM, variants).crash.Some? ==>
      PlotOutcome(t, p, soils, layerThicknessM, variants).crash == Some(ZeroDivision)
  {
    if PlotInputs(t, p, soils) {
      ScheduleFacts.AssembledScheduleOk(t.ferts, t.irrs, t.pdate.value, t.hadat.value, layerThicknessM);
    }
  }

  /** n jobs per plot, summed over treatments and experiments. */
  function TreatmentJobCount(n: nat): Treatment -> nat
  {
    (t: Treatment) => n * |t.plots|
  }

  function ExperimentJobCount(n: nat): Experiment -> nat
  {
    (e: Experiment) => SumOver(e.treatments, TreatmentJobCount(n))
  }

  lemma {:induction false} TreatmentCompletes(t: Treatment, soils: set<string>, layerThicknessM: real,
                                              variants: seq<(string, string)>)
    requires forall p :: p in t.plots ==> PlotReady(t, p, soils, layerThicknessM)
    ensures TreatmentStep(soils, layerThicknessM, variants)(t).crash.None?
    ensures |TreatmentStep(soils, layerThicknessM, variants)(t).jobs| == TreatmentJobCount(|variants|)(t)
  {
    forall p | p in t.plots
      ensures PlotStep(t, soils, layerThicknessM, variants)(p).crash.None?
      ensures |PlotStep(t, soils, layerThicknessM, variants)(p).jobs| == |variants|
    {
      PlotCrashes(t, p, soils, layerThicknessM, variants);
    }
    SequencedJobCount(t.plots, PlotStep(t, soils, layerThicknessM, variants), (p: Plot) => |variants|);
    SumOverConstant(t.plots, |variants|);
  }

  lemma {:induction false} ExperimentCompletes(e: Experiment, soils: set<string>, layerThicknessM: real,
                                               variants: seq<(string, string)>)
    requires forall t, p :: t in e.treatments && p in t.plots ==> PlotReady(t, p, soils, layerThicknessM)
    ensures ExperimentStep(soils, layerThicknessM, variants)(e).crash.None?
    ensures |ExperimentStep(soils, layerThicknessM, variants)(e).jobs| == ExperimentJobCount(|variants|)(e)
  {
    forall t | t in e.treatments
      ensures TreatmentStep(soils, layerThicknessM, variants)(t).crash.None?
      ensures |TreatmentStep(soils, layerThicknessM, variants)(t).jobs| == TreatmentJobCount(|variants|)(t)
    {
      TreatmentCompletes(t, soils, layerThicknessM, variants);
    }
    SequencedJobCount(e.treatments, TreatmentStep(soils, layerThicknessM, variants), TreatmentJobCount(|variants|));
  }

  /** When every plot has its soil, station, planting, harvest and weather
      entries and its schedule assembles, the producer completes, and its
      closing message, sent last, counts ten jobs per plot. */
  lemma {:induction false} CompletedRunCountsTenPerPlot(exps: seq<Experiment>, soils: set<string>, layerThicknessM: real)
    requires forall e, t, p :: e in exps && t in e.treatments && p in t.plots ==> PlotReady(t, p, soils, layerThicknessM)
    ensures ProducerRun(exps, soils, layerThicknessM).crash.None?
    ensures Sent(ProducerRun(exps, soils, layerThicknessM)) ==
      Numbered(ProducerRun(exps, soils, layerThicknessM).jobs) + [SentCount(SumOver(exps, ExperimentJobCount(10)))]
  {
    ModelVariantsCount();
    forall e | e in exps
      ensures ExperimentStep(soils, layerThicknessM, ModelVariants)(e).crash.None?
      ensures |ExperimentStep(soils, layerThicknessM, ModelVariants)(e).jobs| == ExperimentJobCount(10)(e)
    {
      ExperimentCompletes(e, soils, layerThicknessM, ModelVariants);
    }
    SequencedJobCount(exps, ExperimentStep(soils, layerThicknessM, ModelVariants), ExperimentJobCount(10));
  }

  /** Conversely, one plot anywhere that lacks an entry or cannot assemble its
      schedule makes the producer raise: no closing message is sent. */
  lemma {:induction false} PlotCrashStopsRun(exps: seq<Experiment>, soils: set<string>, layerThicknessM: real,
                                             i: nat, j: nat, k: nat)
    requires i < |exps| && j < |exps[i].treatments| && k < |exps[i].treatments[j].plots|
    requires !PlotReady(exps[i].treatments[j], exps[i].treatments[j].plots[k], soils, layerThicknessM)
    ensures ProducerRun(exps, soils, layerThicknessM).crash.Some?
    ensures forall n :: 0 <= n < |Sent(ProducerRun(exps, soils, layerThicknessM))| ==>
      !Sent(ProducerRun(exps, soils, layerThicknessM))[n].SentCount?
  {
    var e := exps[i];
    var t := e.treatments[j];
    PlotCrashes(t, t.plots[k], soils, layerThicknessM, ModelVariants);
    SequencedCompletes(t.plots, PlotStep(t, soils, layerThicknessM, ModelVariants));
    SequencedCompletes(e.treatments, TreatmentStep(soils, layerThicknessM, ModelVariants));
    SequencedCompletes(exps, ExperimentStep(soils, layerThicknessM, ModelVariants));
    SentCountIffCompleted(ProducerRun(exps, soils, layerThicknessM));
  }
}
