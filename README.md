# MONICA soil-temperature exercise scripts in Dafny

The repository drives the MONICA crop model for the AgMIP soil-temperature
exercises (AMEI). Each experiment has a **producer** script and a
**consumer** script. They talk over a ZeroMQ push/pull pipeline.

- A producer reads the experiment's tables. It builds one simulation
  environment per treatment, plot or model variant and sends each one with
  `env_id = sent_env_count + 1`. It ends with a closing message whose
  `customId` holds only `no_of_sent_envs`.
- A consumer receives the results. The closing message sets the expected
  count and every other message counts as one result. The consumer leaves
  when the two counts are equal. It writes each result into report files:
  banded soil temperatures, per-layer rows, fixed 5 cm layers, a Zadoks
  stage column, summaries, and a cutoff at 1 November.
- `monica_run_lib.py` reads the CSV tables into keyed dicts.

This project models those mechanisms and proves what they guarantee. One
Dafny module per file:

| file | module | models |
|---|---|---|
| common.dfy | Common | Option/Result, the Python exceptions that matter (`KeyError`, `IndexError`, `ZeroDivisionError`, `StopIteration`, `ValueError`), Python's string order and `sorted()`, insertion-ordered dicts, `int()` truncation, failing loops |
| dispatch.dfy | Dispatch | the `sent_env_count` loop, the closing message, loops that an exception leaves early |
| collector.dfy | Collector | the `while not leave` receive loop of the consumers |
| files.dfy | Files | files opened with mode `"w"`: the last write to a path wins |
| schedule.dfy, schedule_facts.dfy | Schedule, ScheduleFacts | the Maricopa management schedule (fertilizer and irrigation worksteps) |
| maricopa_producer.dfy | MaricopaProducer | the Maricopa send loop |
| ames_producer.dfy | AmesProducer | the Ames weather series, soil layers, initial soil moisture and send loop |
| run_lib.dfy | RunLib | `read_csv`, `read_sim_setups`, `get_value` |
| profile_producer.dfy | ProfileProducer | run-producer.py and its sensitivity-analysis copy |
| depth_bands.dfy | DepthBands | the band aggregation, per-layer depths and SQ rows of the temperature reports |
| temperature_reports.dfy | TemperatureReports | the two soil-temperature consumers |
| maricopa_reports.dfy | MaricopaReports | the Maricopa consumer |
| ames_reports.dfy | AmesReports | the Ames consumer |
| standalone_consumer.dfy | StandaloneConsumer | the debugging consumer and its `"finish"` protocol |

How loops are modelled:

- A loop is a `method` with a `while` loop.
- Each method is proved equal to a function that states the loop's result.
  Where the source raises, that function returns a `Result`; a loop that
  writes rows or sends jobs as it goes returns an `Outcome`, the rows or
  jobs of the iterations before the exception together with the
  exception, so that what an exception leaves behind is stated too.
- Lemmas then prove what the source promises about those functions.
- A receive is an element of a finite input stream: a closing message, a
  result, a timeout or a failure.

## Model

| member | source | states |
|---|---|---|
| Common.StrLessTotal | maricopa_wheat_face/run-producer.py:388-389 | Python's `<` on strings orders any two different strings one way or the other |
| Common.StrLessTransitive | maricopa_wheat_face/run-producer.py:388-389 | Python's `<` on strings is transitive, so sorting by it is well defined |
| Common.SortStringsAscending | maricopa_wheat_face/run-producer.py:388-389 | `list.sort()` on distinct date strings returns them strictly ascending and is a permutation of its input |
| Common.SortIntsAscending | run-producer.py:123 | `sorted()` on distinct layer ids returns them strictly ascending and is a permutation of its input |
| Common.Put | monica_run_lib.py:66 | `d[k] = v` keeps a dict well formed. It replaces the value of an existing key in place and appends a new key at the end |
| Common.AppendAt | maricopa_wheat_face/run-producer.py:382-386 | `d[k].append(x)` on a `defaultdict(list)` adds `x` at the end of `k`'s list, or creates the list and the key |
| Common.Take | maricopa_wheat_face/run-producer.py:447 | the slice `s[:n]` is a prefix of `s`, clipped to its length |
| Common.Drop | ames_bare_soil/run-consumer.py:86 | the slice `s[n:]` is what follows `s[:n]`, and is empty past the end |
| Common.TruncateToInt | run-consumer.py:86-87 | `int(x)` on a float truncates toward zero: the result is within 1 of `x`, on the side of zero |
| Common.MapOk | maricopa_wheat_face/run-consumer.py:114-157 | the fields of one row, gathered in order before the row is written: all of them exactly when every lookup succeeds, each the value its lookup gave; otherwise the exception of the first lookup that fails |
| Common.NatToStringInjective | standalone_for_debugging/run-consumer.py:59 | `str(n)` gives different numbers different texts |
| Dispatch.NumberedIds | maricopa_wheat_face/run-producer.py:442-453 | the i-th job sent (from 0) carries `env_id` i + 1 |
| Dispatch.NumberedSnoc | maricopa_wheat_face/run-producer.py:443-453 | sending one more job after n jobs uses `env_id` n + 1 |
| Dispatch.DispatchedProtocol | maricopa_wheat_face/run-producer.py:458-461 | the closing message comes last and only once. It carries the number of jobs, and the `env_id`s before it run 1..n |
| Dispatch.ThenAssociative | maricopa_wheat_face/run-producer.py:354-356 | how the run is split into nested loops (experiments, treatments, plots) changes neither what is sent nor where it stops |
| Dispatch.ThenNothing | maricopa_wheat_face/run-producer.py:354-356 | a part of the run that sends nothing and raises nothing leaves the rest of the run unchanged |
| Dispatch.SequencedCrashSticks | maricopa_wheat_face/run-producer.py:354-356 | once an iteration raised, no later iteration runs |
| Dispatch.SequencedCompletes | maricopa_wheat_face/run-producer.py:354-356 | a loop runs to the end exactly when no iteration raises |
| Dispatch.CrashEndsLoop | maricopa_wheat_face/run-producer.py:354-356 | an iteration that raises ends the loop, keeping the jobs sent before and during it |
| Dispatch.SequencedEmit | maricopa_wheat_face/run-consumer.py:113-157 | a loop that writes one row per element, each row one write, holds the rows of the elements before the first one that raises, in order, and then raises that element's exception; it runs to the end exactly when no element raises |
| Dispatch.SequencedUniform | maricopa_wheat_face/run-consumer.py:85-100 | when every iteration completes with n rows, the loop writes n per iteration and iteration d's rows sit at `n*d .. n*d+n` |
| Dispatch.SequencedJobCount | maricopa_wheat_face/run-producer.py:354-356 | when every iteration completes with size(x) jobs, the loop sends the sum of the sizes |
| Dispatch.SumOverConstant | maricopa_wheat_face/run-producer.py:425-436 | iterations of c jobs each send c per iteration |
| Dispatch.SentCountIffCompleted | maricopa_wheat_face/run-producer.py:458-461 | the closing message is sent exactly when no exception escaped the send loop. Jobs sent before an exception keep their `env_id`s |
| Dispatch.ModelVariantsCount | maricopa_wheat_face/run-producer.py:425-436 | there are ten soil-temperature model variants, and their model codes are pairwise different |
| Collector.CollectFrom | run-consumer.py:67-199 | the receive loop leaves with `AllReceived` only when the expected count equals the received count. Counts and writes only grow |
| Collector.RunCollector | run-consumer.py:67-199 | the `while not leave` loop with its counters gives what `Collect` specifies |
| Collector.LeavesAtLastResult | run-consumer.py:190-192 | once the expected count is known, the loop leaves right after the result that makes the counts equal |
| Collector.ClosingAnywhere | run-consumer.py:74-79 | the closing message may arrive before, between or after the results. The loop still leaves with every result counted and written |
| Collector.NoExitWithoutMatchingCount | run-consumer.py:67-70 | without a closing message, an unknown or overshot expected count never lets the loop leave by count |
| Collector.KeepWaitingIgnoresTimeouts | run-consumer.py:194-196 | with `continue` on a timeout, timeouts make no difference to the outcome |
| Collector.LeaveStopsAtFirstTimeout | soil_temperature_sensitivity_analysis/run-consumer.py:233-235 | with `break` on a timeout, the loop sees only the events before the first timeout. If still waiting there, it leaves with `TimedOut` |
| Collector.DeliveredNumbered | run-producer.py:171-183 | the numbered jobs a producer sends reach the consumer as one result each, in order |
| Collector.ProducerConsumerHandshake | run-producer.py:188-191 | a producer that completes lets the consumer leave with every result counted and written. A producer that raised never does |
| Files.Written | run-consumer.py:90 | a file exists exactly when some write went to its path |
| Files.LastWriteWins | run-consumer.py:90 | a file opened with `"w"` holds the rows of the last write to it |
| Files.WrittenAppend | run-consumer.py:90 | later writes replace earlier content on the same paths, and other paths keep theirs |
| Files.WrittenDistinct | maricopa_wheat_face/run-consumer.py:74-159 | when every write has a path of its own, each file holds the rows of its write |
| Schedule.InsertBeforeLast | maricopa_wheat_face/run-producer.py:414 | `insert(-1, w)` puts `w` just before the current last element and leaves everything else in place |
| Schedule.FertilizerStep | maricopa_wheat_face/run-producer.py:400-408 | a fertilizer workstep has the event's date and amount, and the partition Carbamid 100 / NH4 0 / NO3 0 named after FECD |
| Schedule.IrrigationStep | maricopa_wheat_face/run-producer.py:415-422 | an irrigation step is built exactly when the layer size is non-zero and, if a nitrate amount is pending, IRVAL is non-zero; otherwise ZeroDivisionError. It carries the date and the amount IRVAL. Its layer is IRADP over the layer size, truncated. Its nitrate concentration is pending * 100 / IRVAL when an amount is pending, else none |
| Schedule.DepthWithinLayer | maricopa_wheat_face/run-producer.py:418-419 | the layer index chosen for an irrigation depth is the layer that contains that depth |
| Schedule.GroupByDate | maricopa_wheat_face/run-producer.py:382-386 | the event grouping is a well-formed dict |
| Schedule.SortedDates | maricopa_wheat_face/run-producer.py:388-389 | the visited dates are the grouped dates, each once, ascending |
| Schedule.AddFertilizerEvents | maricopa_wheat_face/run-producer.py:383-384 | the fertilizer loop files each event under its FEDATE |
| Schedule.AddIrrigationEvents | maricopa_wheat_face/run-producer.py:385-386 | the irrigation loop files each event under its IDATE |
| Schedule.GroupEvents | maricopa_wheat_face/run-producer.py:382-386 | the `defaultdict(list)` of events equals the grouping of the fertilizers followed by the irrigations |
| Schedule.PlaceFertilizer | maricopa_wheat_face/run-producer.py:400-414 | the fertilization workstep is inserted where its placement puts it: at the front before sowing, at the end after harvest, else before the last workstep |
| Schedule.PlaceIrrigation | maricopa_wheat_face/run-producer.py:415-423 | the irrigation workstep is inserted before the last workstep exactly when it can be built; otherwise the same ZeroDivisionError |
| Schedule.InsertDateEvents | maricopa_wheat_face/run-producer.py:394-423 | one date's events make the insertions the date's specification gives, or the first ZeroDivisionError. The pending nitrate starts empty for the date |
| Schedule.InsertAllDates | maricopa_wheat_face/run-producer.py:393-423 | the date loop applies each date's insertions in date order |
| Schedule.AssembleWorksteps | maricopa_wheat_face/run-producer.py:382-423 | the worksteps list of a plot, starting from `[sowing, harvest]`, is the assembled schedule |
| ScheduleFacts.GroupByDateSpec | maricopa_wheat_face/run-producer.py:382-386 | the grouping has a key for exactly the dates that occur. Under each key are that date's events in input order |
| ScheduleFacts.DayGroupOf | maricopa_wheat_face/run-producer.py:382-386 | a date's group is that date's fertilizers in order, then its irrigations in order |
| ScheduleFacts.VisitedDates | maricopa_wheat_face/run-producer.py:388-393 | every date that has an event is visited |
| ScheduleFacts.DatedGroupsOnDate | maricopa_wheat_face/run-producer.py:388-395 | the k-th visited group is the events of the k-th smallest date |
| ScheduleFacts.DateInsertionsSplit | maricopa_wheat_face/run-producer.py:394-399 | marker fertilizers ("Applied in irrigation water") make no workstep. Every irrigation of the date sees the FEAMN of the date's last marker, wherever it stands among the fertilizers |
| ScheduleFacts.IrrInsertionsOk | maricopa_wheat_face/run-producer.py:415-423 | a date's irrigations are all inserted exactly when each is feasible. A failure is always ZeroDivisionError |
| ScheduleFacts.DateInsertionsErr | maricopa_wheat_face/run-producer.py:419-422 | the only exception a date can raise is ZeroDivisionError |
| ScheduleFacts.ScheduleInsertionsOk | maricopa_wheat_face/run-producer.py:393-423 | the date loop completes exactly when every date does, and then holds the dates' insertions in order |
| ScheduleFacts.DayOk | maricopa_wheat_face/run-producer.py:394-423 | a date's events insert without failure exactly when each of its irrigations is feasible, given the date's nitrate |
| ScheduleFacts.IrrigationDateVisited | maricopa_wheat_face/run-producer.py:393-395 | every irrigation's date is visited, with that date's events |
| ScheduleFacts.AssembledScheduleOk | maricopa_wheat_face/run-producer.py:415-422 | a plot's schedule assembles exactly when every irrigation has a non-zero layer size and, where its date carries a non-zero nitrate amount, a non-zero IRVAL. Otherwise it raises ZeroDivisionError |
| ScheduleFacts.ApplyAllBeforeLast | maricopa_wheat_face/run-producer.py:414-423 | `insert(-1, ...)` insertions keep the first and last element in place and line up between them in the order made |
| ScheduleFacts.ApplyAllAtFront | maricopa_wheat_face/run-producer.py:409-410 | `insert(0, ...)` insertions end up at the front, in the reverse of the order made |
| ScheduleFacts.AssembledScheduleInSeason | maricopa_wheat_face/run-producer.py:382-423 | when every fertilization lies between sowing and harvest, the schedule starts with the sowing and ends with the harvest, and the worksteps between them are in date order. They are exactly the steps of the per-date insertions, made date by date in ascending order, where each date's event list is that date's fertilizers in input order followed by its irrigations in input order |
| ScheduleFacts.AssembledSchedulePreSowing | maricopa_wheat_face/run-producer.py:409-410 | fertilizations dated before sowing, without irrigations, come before the sowing in reverse chronological order. The assembly cannot fail then |
| ScheduleFacts.IrrigationNitrateExample | maricopa_wheat_face/run-producer.py:417-422 | 15 mm of water on a date with 12 kg N/ha in the water gets concentration 80. A 30 cm depth with a 5 cm top layer is layer 6 |
| MaricopaProducer.SendPlotJobs | maricopa_wheat_face/run-producer.py:425-453 | the variant loop sends the plot's jobs numbered on from the jobs sent before |
| MaricopaProducer.RunPlot | maricopa_wheat_face/run-producer.py:356-453 | one plot sends exactly what its outcome specifies. Before any send it stops with KeyError for a soil without metadata or a missing planting or harvest row, with TypeError for a missing station or weather dataset, or with the schedule's exception |
| MaricopaProducer.RunTreatment | maricopa_wheat_face/run-producer.py:355-453 | the plot loop of a treatment sends what the sequenced plot outcomes specify |
| MaricopaProducer.RunExperiment | maricopa_wheat_face/run-producer.py:354-453 | the treatment loop of an experiment sends what the sequenced treatment outcomes specify |
| MaricopaProducer.RunProducer | maricopa_wheat_face/run-producer.py:350-461 | everything sent on the socket, in order, is the numbered jobs of the run, followed by the closing message only if no plot raised on a missing entry or in its schedule |
| MaricopaProducer.PlotJobsFollowVariants | maricopa_wheat_face/run-producer.py:365-450 | each plot yields one job per model variant in variant order. Each job carries the plot's schedule, the treatment id, the year of the weather's first date, a climate window from SDAT to 31 December of the harvest year with the dataset's daily values, and the station's CO2Y, TAMP and TAV |
| MaricopaProducer.PlotCrashes | maricopa_wheat_face/run-producer.py:360-423 | a plot raises exactly when its soil has no metadata, its treatment lacks a station, a planting row, a harvest row or weather rows, or its schedule cannot be assembled. It then sends nothing; otherwise it sends one job per variant |
| MaricopaProducer.PlotCrashCause | maricopa_wheat_face/run-producer.py:360-423 | the first missing entry in reading order decides the exception: KeyError for the soil (`p["soil"]["layers"]`), TypeError for the station (`["CO2Y"]`), KeyError for PDATE or HADAT, TypeError for the weather (`["data"]`). With every entry present only ZeroDivisionError remains |
| MaricopaProducer.ScheduledJobsCases | maricopa_wheat_face/run-producer.py:381-453 | once the entries are read, the plot raises exactly the schedule's exception, sending nothing, or sends one job per variant |
| MaricopaProducer.TreatmentCompletes | maricopa_wheat_face/run-producer.py:356-453 | a treatment whose plots all have their soil, station, planting, harvest and weather entries and assemble their schedules completes, sending one job per variant per plot |
| MaricopaProducer.ExperimentCompletes | maricopa_wheat_face/run-producer.py:355-453 | an experiment whose plots all have their entries and assemble their schedules completes, sending one job per variant per plot |
| MaricopaProducer.CompletedRunCountsTenPerPlot | maricopa_wheat_face/run-producer.py:355-461 | when every plot has its soil, station, planting, harvest and weather entries and its schedule assembles, the run completes and the closing message, sent last, counts ten jobs per plot |
| MaricopaProducer.PlotCrashStopsRun | maricopa_wheat_face/run-producer.py:355-461 | conversely, a single plot anywhere that lacks an entry or cannot assemble its schedule makes the run raise, and no closing message is sent |
| AmesProducer.AppendedRowAt | ames_bare_soil/run-producer.py:115-122 | a weather row appends its value to each of the seven element series and leaves other series alone |
| AmesProducer.AppendRowValues | ames_bare_soil/run-producer.py:116-122 | the seven appends of one row give what `AppendedRow` specifies |
| AmesProducer.AppendWeatherRows | ames_bare_soil/run-producer.py:113-122 | the Weather_daily loop builds what `WeatherOf` specifies |
| AmesProducer.LoadWeather | ames_bare_soil/run-producer.py:106-125 | both weather loops build what `LoadedWeather` specifies |
| AmesProducer.WeatherDatasets | ames_bare_soil/run-producer.py:113-114 | a dataset appears exactly when some row belongs to it |
| AmesProducer.WeatherDates | ames_bare_soil/run-producer.py:113-115 | a dataset holds its rows' dates in row order and a series for exactly the seven elements, and no date range yet |
| AmesProducer.WeatherSeries | ames_bare_soil/run-producer.py:116-122 | an element's series holds its rows' values in row order |
| AmesProducer.SeriesAlongDates | ames_bare_soil/run-producer.py:113-122 | every element series is as long as the date list |
| AmesProducer.WeatherLockstep | ames_bare_soil/run-producer.py:113-122 | the seven series run in lockstep with the dates: one value per date, from that date's row |
| AmesProducer.LoadedWeatherRange | ames_bare_soil/run-producer.py:123-125 | a dataset's start and end date are its first and last appended dates |
| AmesProducer.MetadataSoils | ames_bare_soil/run-producer.py:128-138 | each soil of the metadata starts with an empty layer table |
| AmesProducer.MetadataSoilIds | ames_bare_soil/run-producer.py:130-132 | there is a soil for exactly the SOIL_IDs of the metadata rows |
| AmesProducer.LoadLayers | ames_bare_soil/run-producer.py:140-157 | loading layers adds no soil and removes none |
| AmesProducer.LoadLayersOk | ames_bare_soil/run-producer.py:141-145 | loading succeeds exactly when every profile row's soil has a metadata row; otherwise KeyError |
| AmesProducer.LoadLayersStep | ames_bare_soil/run-producer.py:145 | one more profile row replaces or adds only its own layer |
| AmesProducer.LayerOfRows | ames_bare_soil/run-producer.py:143-146 | a soil has a layer for exactly the (SLLT, SLLB) pairs of its rows. The layer comes from the last such row, is (SLLB - SLLT) / 100 m thick and has no moisture yet |
| AmesProducer.LoadLayersValid | ames_bare_soil/run-producer.py:145 | every soil's layer table stays a well-formed dict |
| AmesProducer.LoadSoils | ames_bare_soil/run-producer.py:127-157 | both soil loops build what `LoadLayers(MetadataSoils(...))` specifies |
| AmesProducer.AttachToSoil | ames_bare_soil/run-producer.py:245-249 | attaching moisture adds no soil and removes none |
| AmesProducer.AttachToPlots | ames_bare_soil/run-producer.py:244-249 | the plot loop adds no soil and removes none |
| AmesProducer.AttachStep | ames_bare_soil/run-producer.py:244-249 | one more plot changes at most the one layer of its own soil |
| AmesProducer.AttachedLayer | ames_bare_soil/run-producer.py:244-249 | only the (ICTL, ICBL) layer of the treatment's plots' soils gets a moisture, ICH2O / FieldCapacity * 100, and only if the layer exists. No layer is added or removed, and the albedo stays |
| AmesProducer.AttachToPlotsOk | ames_bare_soil/run-producer.py:247-249 | the plot loop completes exactly when every plot's soil exists and no layer it updates has a zero field capacity |
| AmesProducer.AttachToPlotsValid | ames_bare_soil/run-producer.py:244-249 | the plot loop keeps every layer table well formed |
| AmesProducer.InitialRowStep | ames_bare_soil/run-producer.py:227-249 | one initial-condition row adds no soil and removes none |
| AmesProducer.InitialConditions | ames_bare_soil/run-producer.py:226-249 | the initial-condition loop adds no soil and removes none |
| AmesProducer.InitialRowMoisture | ames_bare_soil/run-producer.py:233-249 | a row succeeds exactly when its treatment exists and the plot loop completes. Its moisture lands on exactly the (ICTL, ICBL) layer of the soils of the treatment's plots. Every other layer is unchanged |
| AmesProducer.InitialConditionsValid | ames_bare_soil/run-producer.py:226-249 | the initial-condition loop keeps every layer table well formed |
| AmesProducer.AttachToPlotSoils | ames_bare_soil/run-producer.py:244-249 | the plot loop gives what `AttachToPlots` specifies |
| AmesProducer.AttachInitialConditions | ames_bare_soil/run-producer.py:226-249 | the loop over initial_condition_layers gives what `InitialConditions` specifies |
| AmesProducer.AttachInitialRow | ames_bare_soil/run-producer.py:227-249 | one pass of that loop extends the specified state by row `i`, or fails exactly as the specification does for the rows up to `i` |
| AmesProducer.ProfileListsEachLayer | ames_bare_soil/run-producer.py:320 | `list(map(lambda k_v: k_v[1], layers.items()))` has one entry per layer of the soil's table, and every layer appears in it, at its key's insertion position |
| AmesProducer.SendPlotJobs | ames_bare_soil/run-producer.py:332-356 | the variant loop sends the plot's jobs numbered on from the jobs sent before |
| AmesProducer.RunPlot | ames_bare_soil/run-producer.py:316-356 | one plot sends exactly what its outcome specifies, or stops before any send with KeyError for a soil without metadata or TypeError for a missing weather dataset, station or start date |
| AmesProducer.RunTreatment | ames_bare_soil/run-producer.py:315-356 | the plot loop sends what the sequenced plot outcomes specify |
| AmesProducer.RunExperiment | ames_bare_soil/run-producer.py:314-356 | the treatment loop sends what the sequenced treatment outcomes specify |
| AmesProducer.RunProducer | ames_bare_soil/run-producer.py:310-364 | everything sent, in order, is the numbered jobs of the run, followed by the closing message if nothing raised |
| AmesProducer.PlotJobsFollowVariants | ames_bare_soil/run-producer.py:320-353 | a plot that has its soil, weather and station yields one job per variant, in variant order. Each job has the soil profile in layer order, the dataset's date range and series, and the year of its start date |
| AmesProducer.PlotCrashes | ames_bare_soil/run-producer.py:320-350 | a plot raises exactly when its soil, weather dataset, station or start date is missing, and then sends nothing |
| AmesProducer.CompletedRunCountsTenPerPlot | ames_bare_soil/run-producer.py:332-364 | when every plot has what it needs, the run completes and its closing message counts ten jobs per plot |
| RunLib.Lower | monica_run_lib.py:52 | lowering the case keeps the length |
| RunLib.ReadCellCases | monica_run_lib.py:52-53 | a cell becomes a boolean exactly when its text is "true" or "false" in any case, and is true exactly for "true". Any other cell keeps its text |
| RunLib.ParseIntRoundTrip | monica_run_lib.py:57-60 | `int(str(n)) == n` for every integer |
| RunLib.Convert | monica_run_lib.py:54-60 | conversion with `str` gives a text and with `int` a number |
| RunLib.ConvertTwice | monica_run_lib.py:63 | converting an already converted value changes nothing |
| RunLib.RowData | monica_run_lib.py:50-61 | a row's data maps every header column. A row shorter than the header raises IndexError |
| RunLib.KeyCells | monica_run_lib.py:63 | a composite key has one component per key column |
| RunLib.KeyedRows | monica_run_lib.py:48-66 | the result is a well-formed dict with no more keys than rows |
| RunLib.DataStart | monica_run_lib.py:38-46 | the first data line comes after the header line |
| RunLib.ReadCsvExhausted | monica_run_lib.py:38-46 | reading raises StopIteration exactly when the file ends before the first data line |
| RunLib.ShortRowFails | monica_run_lib.py:50-51 | a data row shorter than the header makes `read_csv` fail |
| RunLib.KeyedRowsAllOk | monica_run_lib.py:48-66 | when reading succeeds, every row was converted |
| RunLib.KeyMatchesColumns | monica_run_lib.py:62-65 | a row's key is made of the row's own converted key columns |
| RunLib.ConvertedColumn | monica_run_lib.py:54-60 | a key column already holds a value of its key type |
| RunLib.LastRowWins | monica_run_lib.py:66 | every key belongs to some data row, and its data is that of the last row with that key |
| RunLib.LastWithKey | monica_run_lib.py:66 | the index found is the last row with the key, or -1 when none has it |
| RunLib.TextNumberKeys | monica_run_lib.py:63 | with key types (str, int), every key is a (text, number) pair |
| RunLib.SkipToData | monica_run_lib.py:38-46 | the skipping loops give the header line and the first data line, or StopIteration when the file is too short |
| RunLib.ReadCsvLines | monica_run_lib.py:25-67 | `read_csv` on a file's rows gives what `ReadCsv` specifies |
| RunLib.ReadRows | monica_run_lib.py:48-66 | the data-row loop gives what `KeyedRows` specifies |
| RunLib.ReadRow | monica_run_lib.py:49-65 | one row's column loop and key give what `KeyedRow` specifies |
| RunLib.ReadRowData | monica_run_lib.py:50-63 | the column loop gives what `RowData` specifies: each converted cell under its column, IndexError for a row shorter than the header |
| RunLib.SetupData | monica_run_lib.py:84-90 | a setup row's data maps every header column. A short row raises IndexError |
| RunLib.SetupRows | monica_run_lib.py:80-91 | the setups form a well-formed dict |
| RunLib.SetupRow | monica_run_lib.py:81-91 | one row keeps the setups well formed |
| RunLib.NonEmptyRows | monica_run_lib.py:82-83 | the rows kept are the non-empty ones |
| RunLib.EmptyRowsSkipped | monica_run_lib.py:82-83 | empty rows change nothing |
| RunLib.SetupsKeyedByRunId | monica_run_lib.py:88-91 | every stored setup has an int in its first column and is stored under its own `int(run-id)` |
| RunLib.SetupFirstColumn | monica_run_lib.py:88-89 | the first column of a setup row holds a number |
| RunLib.ReadSimSetupLines | monica_run_lib.py:70-92 | `read_sim_setups` on a file's rows gives what `ReadSimSetups` specifies |
| RunLib.AddSetupRow | monica_run_lib.py:81-91 | one iteration of the row loop gives what `SetupRow` specifies |
| RunLib.GetValueOfPair | monica_run_lib.py:119-120 | `get_value` of a [value, unit] pair is the value, and of a plain value the value itself. An empty list raises IndexError |
| ProfileProducer.ItemsAreEntries | run-producer.py:110 | `dict.items()` yields exactly the dict's (key, value) pairs, one per entry and no key twice |
| ProfileProducer.SoilKeysUnpack | run-producer.py:110 | every key read with key types (str, int) unpacks into a soil id and a layer id |
| ProfileProducer.ProfilesDictValid | run-producer.py:109-120 | every soil's layer table is a well-formed dict |
| ProfileProducer.AddLayerEffect | run-producer.py:111 | adding one row touches only the layer that row names |
| ProfileProducer.ProfilesDictLayers | run-producer.py:109-120 | a soil has a layer exactly when some row names that soil and layer. The layer is the one the last such row describes |
| ProfileProducer.LastItemFor | run-producer.py:110-111 | the index found is the last row for that soil and layer, or -1 |
| ProfileProducer.GatherAll | run-producer.py:123-124 | appending the layers of the sorted ids gives one layer per id, in id order |
| ProfileProducer.ProfileAscending | run-producer.py:121-124 | a profile holds every layer of its soil once, in strictly ascending layer-id order |
| ProfileProducer.ProfileFromRows | run-producer.py:109-124 | layer i of a soil's profile is the layer with the i-th smallest id among the soil's rows, built from the last row for that id. A soil without rows has an empty profile |
| ProfileProducer.Thicknesses | run-producer.py:179 | `profileLTs` has one entry per profile layer |
| ProfileProducer.ThicknessesAt | run-producer.py:179 | entry i of `profileLTs` is the thickness of profile layer i |
| ProfileProducer.CustomDataOf | run-producer.py:157-169 | every listed column is a key of `customData` |
| ProfileProducer.CustomDataKeys | run-producer.py:157-169 | the dict over the first n columns has those columns as keys and no other |
| ProfileProducer.CustomDataKeySet | run-producer.py:157-169 | `customData` has exactly the listed columns |
| ProfileProducer.ColumnsDistinct | soil_temperature_sensitivity_analysis/run-producer.py:149-162 | no `customData` column is written twice |
| ProfileProducer.CustomDataAt | run-producer.py:157-169 | each `customData` column holds its own source value |
| ProfileProducer.TreatmentJobFields | run-producer.py:145-180 | an environment carries the soil's sorted profile (empty for a soil without rows), XLAT as latitude, the climate path `dir + "/" + WST_DATASET + ".WTH"`, the tags "L" + LAID and "AW" + AWC, and `profileLTs` equal to the profile's thicknesses. In the sensitivity copy, one AWC value goes both to PlantAvailableWaterContentConst and to `customData.AWC` |
| ProfileProducer.TreatmentJobLookups | run-producer.py:148-152 | a treatment whose soil has no rows is still sent, with an empty profile. A station missing from the weather metadata raises KeyError |
| ProfileProducer.Rows | run-producer.py:145 | the treatment loop visits one row per treatment |
| ProfileProducer.SequencedSingles | run-producer.py:145-183 | a loop whose every iteration sends one job sends one job per item, in order |
| ProfileProducer.RunCompletes | run-producer.py:109-183 | a run completes exactly when the soil data parses and every treatment yields its environment |
| ProfileProducer.OneJobPerTreatment | run-producer.py:145-191 | a completed run sends one environment per treatment row: the i-th is built from row i with `env_id` i + 1. The closing message carries the number of treatments |
| ProfileProducer.BuildProfilesDict | run-producer.py:109-120 | the loop filling `soil_profiles_dict` gives what `ProfilesDict` specifies |
| ProfileProducer.AppendSorted | run-producer.py:123-124 | the `sorted` inner loop appends exactly the profile `Profile` specifies |
| ProfileProducer.BuildProfiles | run-producer.py:121-124 | the loop filling `soil_profiles` gives what `SoilProfiles` specifies |
| ProfileProducer.RunProducer | run-producer.py:109-191 | everything sent is the numbered environments of the run, followed by the closing message if nothing raised |
| ProfileProducer.SendTreatments | soil_temperature_sensitivity_analysis/run-producer.py:131-191 | the treatment loop and closing message send what the sequenced treatment outcomes specify |
| DepthBands.LayerStep | run-consumer.py:103-114 | one band-loop iteration keeps the target index within the profile. It fails only with ZeroDivisionError |
| DepthBands.ScanLayers | run-consumer.py:99-114 | the band loop fails only with ZeroDivisionError and keeps its state well formed |
| DepthBands.ScanLayersStep | run-consumer.py:102-114 | one more fine layer is one more iteration of the loop body |
| DepthBands.AggregateBands | run-consumer.py:96-114 | the band loop of one result day gives what `Aggregate` specifies |
| DepthBands.BandMean | run-consumer.py:106 | `sum_s_temp / (sum_lt_cm / lt_cm)` is the mean of the band's fine layers |
| DepthBands.ScanTiles | run-consumer.py:96-114 | for a positive fine-layer thickness the loop never fails and its state stays tiled |
| DepthBands.AggregateBandsTile | run-consumer.py:96-114 | for `lt_cm > 0` the bands start at 0 and are contiguous. Band k is the fewest fine layers that reach profile thickness k (the last thickness for all later bands), and its value is their mean. Trailing layers that never reach the target write no band |
| DepthBands.ScanPending | run-consumer.py:103-114 | for a non-zero fine-layer thickness, the loop runs to the end with `sum_lt_cm` equal to the thickness of the pending layers |
| DepthBands.ScanZeroThickness | run-consumer.py:106 | with `lt_cm = 0` no band is closed unless the first target is at most 0. Then the first layer divides by zero |
| DepthBands.AggregateFails | run-consumer.py:99-106 | the band writer raises StopIteration exactly for an empty profile, and ZeroDivisionError exactly when `lt_cm` is 0, there is a layer and the first thickness is at most 0 |
| DepthBands.LayerRows | run-consumer.py:146-151 | the per-layer loop writes one row per value while a profile layer remains: it runs to the end exactly when there are no more values than profile layers, and otherwise writes the first `len(plts)` rows and raises IndexError |
| DepthBands.LayerRowsPrefixSums | run-consumer.py:146-151 | every row written, including those before an IndexError, spans the sums of the first i and i + 1 profile thicknesses and carries value i |
| DepthBands.WriteLayerRows | run-consumer.py:146-151 | the per-layer loop gives what `LayerRows` specifies |
| DepthBands.ApsimRows | soil_temperature_sensitivity_analysis/run-consumer.py:222-227 | the ApsimCampbell loop runs to the end exactly when thicknesses, maxima and minima cover every layer value, writing one row per value; otherwise it raises IndexError after the rows of the layers that all three lists reach |
| DepthBands.ApsimRowsAligned | soil_temperature_sensitivity_analysis/run-consumer.py:223-226 | every row written, including those before an IndexError, spans the prefix sums and carries layer i's value, maximum and minimum, all at the same index |
| DepthBands.WriteApsimRows | soil_temperature_sensitivity_analysis/run-consumer.py:222-227 | the ApsimCampbell loop gives what `ApsimRows` specifies |
| DepthBands.DeepRows | run-consumer.py:185-188 | nine fixed bands run contiguously from 5 to 210 cm and carry the deep temperature |
| DepthBands.SqcRows | soil_temperature_sensitivity_analysis/run-consumer.py:167-175 | the SQ report is an "na" row, a 0-5 cm surface band with the maximum under TSLX and the minimum under TSLN, and nine contiguous bands down to 210 cm |
| DepthBands.SqcColumnsSwapped | run-consumer.py:184 | for minimum 1 and maximum 3, the as-written row reports TSLX 1 and TSLN 3 over 0-0 cm. The corrected row reports 3 and 1 over 0-5 cm |
| TemperatureReports.ReportTables | soil_temperature_sensitivity_analysis/run-consumer.py:77-227 | the sensitivity consumer writes run-consumer.py's six reports first, then four more. Every report code is distinct |
| TemperatureReports.BandRows | run-consumer.py:109 | one row per band |
| TemperatureReports.WriteDay | run-consumer.py:94-188 | one day of a report, with its layer loops, writes the rows and raises the exception that `DayRows` specifies. Blocks are handled as corrected under Findings: the SQ report uses `SqcRows`, and every data block bands with its own `lt_cm` |
| TemperatureReports.BandedDayRows | run-consumer.py:94-114 | a banded day runs to the end exactly when the surface value, a profile layer and the soil series are there and it does not divide by zero. A failing day has written only its surface row, or nothing when the surface value is missing. A complete day is the surface row, then non-empty contiguous bands from 0 cm with no maximum or minimum |
| TemperatureReports.LayeredDayRows | run-consumer.py:144-151 | a per-layer day runs to the end exactly when the keys are there and there are no more values than profile layers. A missing surface writes nothing, a missing series only the surface row; otherwise the surface row and one row per value while a profile layer remains, row i + 1 spanning the sums of the first i and i + 1 thicknesses |
| TemperatureReports.SqcDayRows | soil_temperature_sensitivity_analysis/run-consumer.py:167-175 | an SQ day runs to the end exactly when the minimum, maximum and deep values are there. It always writes the "na" row first; a missing key raises KeyError after the "na" row, or after the "na" row and the surface row when only the deep value is missing, which are then the start of the full SQ rows |
| TemperatureReports.ReportRowsOk | run-consumer.py:93-94 | a report runs to the end exactly when every day does |
| TemperatureReports.ReportFailsAtDay | run-consumer.py:93-114 | a day that raises ends the report, which keeps the rows of the days before it and the rows that day wrote before the exception |
| TemperatureReports.WriteReport | run-consumer.py:93-114 | the day loop of a report writes the rows and raises the exception that `ReportRows` specifies |
| TemperatureReports.ReportPathsDiffer | run-consumer.py:90-116 | two different report codes of the same length (all codes have three letters) name two different files |
| TemperatureReports.PltsCm | run-consumer.py:87 | one thickness in cm per profile layer |
| TemperatureReports.WriteBlock | run-consumer.py:89-188 | the report loop of one data block writes one file per report until a report raises, each file with the rows written to it, as `BlockOutcome` specifies. Blocks are handled as corrected under Findings: the SQ report uses `SqcRows`, and every data block bands with its own `lt_cm` |
| TemperatureReports.HandleEnvelope | run-consumer.py:80-188 | the handling of one result message writes the files and raises the exception that `Handle` specifies, a failing report's file keeping the rows written before the exception. Blocks are handled as corrected under Findings: the SQ report uses `SqcRows`, and every data block bands with its own `lt_cm` |
| TemperatureReports.BlockWrites | run-consumer.py:89-188 | a block writes one file per report, in table order, each with the rows that report wrote, and stops after the first report that raises, with that report's exception. It writes every report exactly when none raises |
| TemperatureReports.FailedReportKeepsRows | run-consumer.py:89-116 | when report k of data block b raises, the message ends with that exception and report k's file holds the rows written to it before the exception (mode `"w"` truncated it on opening) |
| TemperatureReports.EnvelopeLeavesLastBlock | run-consumer.py:89-90 | after a fully written message, each report's file holds that report's rows for the last data block |
| TemperatureReports.RunConsumer | run-consumer.py:67-199 | run-consumer.py's loop collects with `continue` on a timeout. Blocks are handled as corrected under Findings: the SQ report uses `SqcRows`, and every data block bands with its own `lt_cm` |
| TemperatureReports.RunSensitivityConsumer | soil_temperature_sensitivity_analysis/run-consumer.py:53-238 | the sensitivity consumer's loop collects with `break` on a timeout |
| TemperatureReports.ThicknessAfterDays | run-consumer.py:148 | after a per-layer report, `lt_cm` is either unchanged or one of the profile thicknesses |
| TemperatureReports.ThicknessAfterBlock | run-consumer.py:141-175 | as written, `lt_cm` after a data block is either unchanged or one of the profile thicknesses |
| TemperatureReports.ThicknessCarriedOver | run-consumer.py:148 | with 2 cm fine layers and one 5 cm profile layer, a one-value DSSAT series leaves `lt_cm` at 5 after the first data block |
| TemperatureReports.BandsWithCarriedThickness | run-consumer.py:103-109 | with `lt_cm` 5, three fine layers give three 5 cm bands, where `lt_cm` 2 gives one 6 cm band |
| TemperatureReports.BandsOfFiveCm | run-consumer.py:103-109 | three 1-degree fine layers banded with `lt_cm` 5 and a 5 cm profile give bands 0-5, 5-10 and 10-15 cm |
| TemperatureReports.BandsOfTwoCm | run-consumer.py:103-109 | the same layers banded with `lt_cm` 2 give one 0-6 cm band of mean 1 |
| MaricopaReports.DayLayersTile | maricopa_wheat_face/run-consumer.py:85-100 | a day writes its 42 layer rows exactly when it has a date and all three lists reach layer 41. Otherwise it writes one row per layer before the first layer missing a value, then raises. The rows written tile the profile from 0 cm in 5 cm steps and carry their layer's values |
| MaricopaReports.LayersReportRows | maricopa_wheat_face/run-consumer.py:84-100 | the layer report runs to the end exactly when every day has its 42 layers. It then holds each day's 42 rows in turn |
| MaricopaReports.LayersReportFailsAtDay | maricopa_wheat_face/run-consumer.py:84-100 | the first day without all its layers ends the layer report with its exception; the file keeps the 42 rows of every earlier day and then the rows of that day's layers before the first missing value |
| MaricopaReports.WriteDayLayers | maricopa_wheat_face/run-consumer.py:86-100 | the 42-layer loop of one day writes the rows and raises the exception that `DayLayerRows` specifies |
| MaricopaReports.WriteLayersReport | maricopa_wheat_face/run-consumer.py:84-100 | the day loop of the layer report writes the rows and raises the exception that `LayersReport` specifies |
| MaricopaReports.ZadoksScale | maricopa_wheat_face/run-consumer.py:119-124 | GSTZD is written exactly for stages 1 to 6, and a later stage never maps to an earlier Zadoks code |
| MaricopaReports.DailyRowFields | maricopa_wheat_face/run-consumer.py:113-157 | a day yields its daily row exactly when it has the stage and every number of the row, which it then carries in column order |
| MaricopaReports.DailyReportRows | maricopa_wheat_face/run-consumer.py:112-157 | row d of the daily report is the row of day d. The report runs to the end exactly when every day has its fields, and otherwise stops at the first day lacking one, which writes nothing |
| MaricopaReports.WriteDailyReport | maricopa_wheat_face/run-consumer.py:112-157 | the daily loop over data block 0 writes the rows and raises the exception that `DailyReport` specifies |
| MaricopaReports.SummaryDatesOk | maricopa_wheat_face/run-consumer.py:184-187 | the dates of a summary row exist exactly when each section has its date key. Each date is its key's value |
| MaricopaReports.SummaryValuesOk | maricopa_wheat_face/run-consumer.py:189-215 | the numbers of a summary row exist exactly when each section has its key. Each number is its key's value |
| MaricopaReports.SummaryFieldsOk | maricopa_wheat_face/run-consumer.py:180-215 | a summary row's fields exist exactly when all its date and number keys are present, and are then their values |
| MaricopaReports.SummaryRowJoins | maricopa_wheat_face/run-consumer.py:174-217 | summary row i joins entry i of block 1 with entry i of blocks 2-5, and is written only when all of them exist and have the row's fields |
| MaricopaReports.SummaryRowsInOrder | maricopa_wheat_face/run-consumer.py:174-217 | row i of the summary is the row that joins entry i of the sections, and the report stops at the first row that raises, which writes nothing |
| MaricopaReports.SummaryNeedsCover | maricopa_wheat_face/run-consumer.py:175-178 | blocks 2 to 5 need at least as many entries as block 1, or the summary raises |
| MaricopaReports.SummaryRowsOk | maricopa_wheat_face/run-consumer.py:169-217 | with blocks 2-5 covering block 1, the summary runs to the end exactly when every row has its fields |
| MaricopaReports.WriteSummaryReport | maricopa_wheat_face/run-consumer.py:174-217 | the summary loop writes the rows and raises the exception that `SummaryRows` specifies |
| MaricopaReports.HandleEnvelope | maricopa_wheat_face/run-consumer.py:68-217 | the handling of one result message writes the files and raises the exception that `Handle` specifies, each file opened keeping the rows written to it before an exception |
| MaricopaReports.ReportPathsDiffer | maricopa_wheat_face/run-consumer.py:74-159 | the three report files of a message are different files |
| MaricopaReports.HandleWritesThreeReports | maricopa_wheat_face/run-consumer.py:74-217 | a message is handled in full exactly when it has six sections and all three reports run to their end. It then writes the three reports in order; the layer and daily reports come from block 0 alone |
| MaricopaReports.FailedMessageKeepsRows | maricopa_wheat_face/run-consumer.py:74-173 | a message that raises ends with the first report's exception. The layer file is always opened and holds the layer rows written; the daily file, opened once the layer report ended, holds the daily rows written; the summary file, opened once the daily report ended, holds the summary rows written, and is empty when sections 1 to 5 are missing; without section 0 only an empty layer file is left |
| MaricopaReports.HandleLeavesThreeFiles | maricopa_wheat_face/run-consumer.py:74-159 | each of the three reports survives in its own file |
| MaricopaReports.ThreeFiles | maricopa_wheat_face/run-consumer.py:74-159 | the three writes of a message leave exactly three files, each with its own report |
| MaricopaReports.RunMaricopaConsumer | maricopa_wheat_face/run-consumer.py:56-228 | the Maricopa loop collects with `continue` on a timeout |
| AmesReports.UntilCutoffAt | ames_bare_soil/run-consumer.py:84-87 | at each day: no date raises KeyError, a cutoff day ends the loop, any other day writes its rows and the loop goes on unless the day raised |
| AmesReports.CutoffEndsReport | ames_bare_soil/run-consumer.py:86-87 | no day from a cutoff day ("11-01" from character 5) on is written |
| AmesReports.NoCutoffWritesAll | ames_bare_soil/run-consumer.py:84-93 | without a cutoff day, every day is written, in order |
| AmesReports.UntilCutoffSplit | ames_bare_soil/run-consumer.py:84-87 | before the first cutoff day, the report is the report of the days before day d followed by the report from day d on |
| AmesReports.DayFailureEndsReport | ames_bare_soil/run-consumer.py:84-93 | a day before any cutoff that raises ends the report, which keeps the rows of the days before it and the rows the day wrote before the exception |
| AmesReports.DayLayerRowsOk | ames_bare_soil/run-consumer.py:88-93 | a day writes all its layer rows exactly when TSAV and SWLD reach layer 20 |
| AmesReports.DayLayerRowsSelected | ames_bare_soil/run-consumer.py:88-93 | the rows written cover layers 0,1,2,3,4,9,10,18,20 in that order, from top 5*idx to bottom 5*idx+5, without overlap, each with its layer's values; a day that raises has written the rows of the layers before the first one a list does not reach |
| AmesReports.DailyRowFields | ames_bare_soil/run-consumer.py:109-114 | a day yields its daily row exactly when it has the four numbers. RHFD is converted by 1000000 / 86400 |
| AmesReports.WriteDayLayers | ames_bare_soil/run-consumer.py:88-93 | the layer loop of one day writes the rows and raises the exception that `DayLayerRows` specifies |
| AmesReports.WriteLayersReport | ames_bare_soil/run-consumer.py:83-93 | the layer report loop writes the rows up to the cutoff, or up to the exception, as `UntilCutoff` specifies |
| AmesReports.WriteDailyReport | ames_bare_soil/run-consumer.py:104-114 | the daily report loop writes the rows up to the cutoff, or up to the exception, as `UntilCutoff` specifies |
| AmesReports.ReportPathsDiffer | ames_bare_soil/run-consumer.py:74-95 | the two report files are different files |
| AmesReports.WriteBlock | ames_bare_soil/run-consumer.py:73-114 | one data block writes the layer file and, unless the layer report raised, the daily file, each with the rows written to it, as `BlockOutcome` specifies |
| AmesReports.HandleEnvelope | ames_bare_soil/run-consumer.py:68-114 | the handling of one result message writes the files and raises the exception that `Handle` specifies, a failing report's file keeping the rows written before the exception |
| AmesReports.EnvelopeLeavesLastSection | ames_bare_soil/run-consumer.py:73-74 | every block reopens the two files with `"w"`, so they hold the last block's reports |
| AmesReports.FailedSectionKeepsRows | ames_bare_soil/run-consumer.py:73-114 | a message that fails in block b ends with that block's exception. If the layer report raised, its file holds the layer rows written and the daily file is not opened; if the daily report raised, both files hold what that block wrote to them |
| AmesReports.EnvelopeWritesTwoFiles | ames_bare_soil/run-consumer.py:74-95 | a message writes no file other than its two reports |
| AmesReports.SectionWrites | ames_bare_soil/run-consumer.py:73-95 | every block writes to the same two files |
| AmesReports.RunAmesConsumer | ames_bare_soil/run-consumer.py:56-125 | the Ames loop collects with `continue` on a timeout |
| StandaloneConsumer.ResultPathsDiffer | standalone_for_debugging/run-consumer.py:59 | different counts give different result file names |
| StandaloneConsumer.RemoveQuotes | standalone_for_debugging/run-consumer.py:68 | the spec text keeps no double quote and does not grow |
| StandaloneConsumer.RemoveQuotesAppend | standalone_for_debugging/run-consumer.py:68 | removing quotes works piece by piece |
| StandaloneConsumer.RemoveQuotesKeeps | standalone_for_debugging/run-consumer.py:68 | a text without quotes is left as it is |
| StandaloneConsumer.RemoveQuotesIdempotent | standalone_for_debugging/run-consumer.py:68 | removing quotes twice is removing them once |
| StandaloneConsumer.SectionRowsCounts | standalone_for_debugging/run-consumer.py:67-77 | each data element writes one blank row, and one spec row exactly when it has results |
| StandaloneConsumer.FileContentSections | standalone_for_debugging/run-consumer.py:62-77 | a result file has one blank separator per data element and one spec row per element with results |
| StandaloneConsumer.WriteResultFile | standalone_for_debugging/run-consumer.py:62-77 | the `for data_ in msg.get("data", [])` loop writes what `FileContent` specifies |
| StandaloneConsumer.ProcessMessageCases | standalone_for_debugging/run-consumer.py:43-81 | a finish message leaves and writes nothing. A result is written to the file of the next count whatever errors it reports, and leaves exactly when `leave_after_finished_run` is set. A message without `type` raises KeyError |
| StandaloneConsumer.EveryResultToFileOne | standalone_for_debugging/run-consumer.py:40-41 | as written, every result goes to the file `out + "1.csv"` |
| StandaloneConsumer.MessageProcessor.constructor | standalone_for_debugging/run-consumer.py:39-41 | the processor starts with count 0 and the configured output prefix and leave flag |
| StandaloneConsumer.MessageProcessor.ProcessAsWritten | standalone_for_debugging/run-consumer.py:39-81 | as written, the call resets the count and then processes the message |
| StandaloneConsumer.MessageProcessor.Process | standalone_for_debugging/run-consumer.py:39-81 | with the count set up once, the call processes the message from the stored count and stores the new count |
| StandaloneConsumer.RunStandaloneConsumer | standalone_for_debugging/run-consumer.py:83-89 | the loop gives what `RunFrom` specifies: exceptions are swallowed and the loop receives again. `RunFrom` runs the corrected, count-kept `Process` of the Findings row, not the as-written reset of lines 40-41, under which every result would go to `1.csv` |
| StandaloneConsumer.ResultWrites | standalone_for_debugging/run-consumer.py:52-59 | the i-th of a run of results is written to the file of count `count + i + 1`, with that result's rows |
| StandaloneConsumer.ResultsRun | standalone_for_debugging/run-consumer.py:52-89 | on a stream of results the loop never leaves: it counts every result and writes them in order, each to the next count's file |
| StandaloneConsumer.ResultsGetOwnFiles | standalone_for_debugging/run-consumer.py:52-59 | with the count kept across calls, the k-th result goes to the file of count k |
| StandaloneConsumer.ResultsAllSurvive | standalone_for_debugging/run-consumer.py:52-59 | with the count kept, every result of a run survives: the n-th in the file of count n |
| StandaloneConsumer.NumberedFiles | standalone_for_debugging/run-consumer.py:52-59 | results written to files numbered 1..n each survive in their own file |
| StandaloneConsumer.SecondResultOverwritesFirst | standalone_for_debugging/run-consumer.py:40-41 | as written, two results go to the same file and only the second survives |

## Left out

- ZeroMQ sockets, `RCVTIMEO` and JSON encoding are not modelled. A receive is an element of a finite stream, and a stream that ends leaves the loop `StillWaiting`.
- File handles, report header blocks, column separators, `datetime.now()` stamps, `print` logging and `PATHS` tables are not modelled. A report is the sequence of its rows; a file write is a path and the rows written to it before its `with` block ended, at its end or by an exception. Each row is one write, so a row whose lookups raise is not in the file. Since the header is left out, a file opened and left without rows is an empty sequence.
- JSON templates and `monica_io.create_env_json_from_json_config` are not modelled: their code is not part of this model. A job records only the fields the scripts set.
- `monica_io.write_output_header_rows` and `write_output_obj` are not part of this model. The standalone consumer's rows keep what they are made from.
- pandas and Excel reading are not modelled. The Ames and Maricopa producers start from their tables as rows of typed values. The loading of the Maricopa experiment dicts (its lines before 350) is not modelled: the send loop starts from experiments, treatments and plots. What that loading can leave missing is kept: a plot's soil without metadata (the `defaultdict(dict)` gives `{}`), a station or weather dataset that `.get(..., None)` does not find, and a planting or harvest dict still `{}`. The KeyErrors the loading itself raises (an unknown FIELD_ID, experiment or treatment, a profile row of a soil without metadata) are not modelled.
- The loading of the Ames experiments, treatments, plots and fields (ames_bare_soil/run-producer.py:159-223) is not modelled either, including the KeyError of `fields[field_id]` for an unknown field. The Ames send loop starts from experiments, treatments and plots that carry the station and weather dataset found for them, or None.
- The Maricopa producer also writes each job to `env_{n}.json` before sending it (maricopa_wheat_face/run-producer.py:439-440). This file write, and any `OSError` it raises, is not modelled: the model sends the job directly.
- `csv.Sniffer` and `csv.reader` are not modelled. A file is its list of already split rows.
- `float()` on a CSV cell is a parameter `parseFloat`, because Python's float syntax is out of scope. `round(x, 1)` and `round(x, 6)` are not applied: bands carry the exact mean.
- DepthBands.AggregateBands: band values are exact means, not rounded to 1 or 6 decimals as the scripts print them.
- The loading of the Maricopa weather and soil tables is not modelled, with its `append_if` unit factors and `default_if_nan` (maricopa_wheat_face/run-producer.py:73-160). The Ames wind conversion from km/day to m/s (ames_bare_soil/run-producer.py:122) is modelled. NaN cells are not modelled, and reals stand for floats, without rounding or infinities.
- RunLib.Lower: lowers ASCII letters only; Python's `lower()` also folds other Unicode letters.
- RunLib.ParseIntRoundTrip: `int()` is modelled for an optional sign and decimal digits. Surrounding whitespace and digit-group underscores, which Python also accepts, give `ValueError` here.
- RunLib.KeyMatchesColumns: requires the names of a composite key to be distinct. With a repeated name, Python converts the column by the first position's type, and the key by each position's own type.
- RunLib.SetupsKeyedByRunId: requires the header's first column name to appear once. A later column of the same name would overwrite the `int` value.
- RunLib.ConvertedColumn: is stated for a column's first position in the key only.
- `read_header` in monica_run_lib.py is not modelled. It parses ESRI grid headers with `float()` and is used by none of the modelled scripts.
- The sensitivity producer calls `csv.read_csv` from another package. The model takes it to behave as monica_run_lib.py's `read_csv`, which this repository defines.
- `sim_json["climate.csv-options"]`, the template's other fields, and the site parameters that are copied straight from the field table (Latitude of the Maricopa field, HeightNN, Slope) are not modelled: they are copied without computation.
- The Maricopa producer reuses one `env_template` across treatments and rewrites only the dates of worksteps 0 and 1 (maricopa_wheat_face/run-producer.py:367-368). Insertions therefore pile up from one plot to the next, within a treatment as well as across treatments. The model assembles each plot's schedule from a fresh `[sowing, harvest]` list.
- aimes_bare_soil/run-producer.py is not modelled: it refers to undefined names and a sheet that is never loaded, so it cannot run. Its send loop is the Ames one.
- standalone_for_debugging/run-producer.py is not modelled: it reads one JSON file and sends it.
- Mutation in place is modelled on values. A dict that the source mutates is a `Dict` or `map` value that the loop method reassigns. In particular, the Ames soil objects shared by several plots are modelled as one soil per id in a map, which is the sharing the source has.
- The consumers' `except Exception` branches are modelled as a `Failure` event of the stream and as a `failure` of the message handler. The exception's type and message are not kept.

## Findings

| source | as written | input that shows it | evidently intended | confidence | as-written member | corrected member |
|---|---|---|---|---|---|---|
| run-consumer.py:184 | The SQC surface band is written with depths 0-0 and `st_min` under TSLX, `st_max` under TSLN | minimum 1.0, maximum 3.0: TSLX 1.0 below TSLN 3.0, and 0-5 cm covered by no band | a 0-5 cm band with the maximum under TSLX and the minimum under TSLN, as soil_temperature_sensitivity_analysis/run-consumer.py:171 writes it | not executed | DepthBands.SqcRowsAsWritten, DepthBands.SqcColumnsSwapped | DepthBands.SqcRows |
| run-consumer.py:148 | The per-layer reports reuse the name `lt_cm` as their loop variable. The MOO/MOC bands of the next data block then divide by the last profile thickness instead of the fine-layer thickness. soil_temperature_sensitivity_analysis/run-consumer.py:135-225 reassigns `lt_cm = plts_cm[i]` in the same way after its banded reports (`lt_cm` is set at :72) | `layerThickness` 0.02, `profileLTs` [0.05], two data blocks, a one-value DSSAT series: `lt_cm` is 5 in block 2, and three fine layers give three 5 cm bands instead of one 6 cm band | every data block bands with `int(layerThickness * 100)` | not executed | TemperatureReports.ThicknessAfterBlock, TemperatureReports.ThicknessCarriedOver, TemperatureReports.BandsWithCarriedThickness | TemperatureReports.BlockWrites, TemperatureReports.EnvelopeLeavesLastBlock |
| standalone_for_debugging/run-consumer.py:40-41 | The guard tests the attribute `wnof_count`, which is never set. So `received_env_count` is reset to 0 at every call, and every result goes to `out + "1.csv"`, overwriting the one before | two result messages with different data: only the second survives, in `out + "1.csv"` | the count set up once, so that results go to `1.csv`, `2.csv`, ... | not executed | StandaloneConsumer.ProcessMessageAsWritten, StandaloneConsumer.EveryResultToFileOne, StandaloneConsumer.SecondResultOverwritesFirst | StandaloneConsumer.ProcessMessage, StandaloneConsumer.ResultsAllSurvive |
