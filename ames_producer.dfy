/** The Ames bare-soil producer (ames_bare_soil/run-producer.py): it loads
    the daily weather per dataset, the soil profiles keyed by their layer
    depths and the initial soil moisture, then sends for every plot one job
    per soil-temperature model variant and finally the closing count
    message. */
module AmesProducer {
  import opened Common
  import opened Dispatch

  // ---------------------------------------------------------------------------
  // Daily weather (ames_bare_soil/run-producer.py:106-125)

  /** One row of the Weather_daily sheet. */
  datatype WeatherRow = WeatherRow(dataset: string, date: string, srad: real, tmax: real, tavd: real,
                                   tmin: real, rain: real, vprsd: real, wind: real)

  /** One dataset of `weather_daily`: its date range (None until set), its
      dates and one series per MONICA climate element id. */
  datatype WeatherData = WeatherData(startDate: Option<string>, endDate: Option<string>,
                                     dates: seq<string>, data: map<nat, seq<real>>)

  /** The climate element ids a row appends to: global radiation, maximum,
      average and minimum temperature, precipitation, vapour pressure and
      wind. */
  predicate IsElement(k: nat)
  {
    k == 8 || k == 5 || k == 4 || k == 3 || k == 6 || k == 14 || k == 9
  }

  /** The value a row contributes to element `k`; wind is converted from
      km/day to m/s. */
  function ElementValue(r: WeatherRow, k: nat): real
  {
    if k == 8 then r.srad
    else if k == 5 then r.tmax
    else if k == 4 then r.tavd
    else if k == 3 then r.tmin
    else if k == 6 then r.rain
    else if k == 14 then r.vprsd
    else if k == 9 then r.wind / 24.0 / 3.6
    else 0.0
  }

  /** The default of the `weather_daily` defaultdict. */
  const NoWeather: WeatherData := WeatherData(None, None, [], map[])

  function Appended(data: map<nat, seq<real>>, k: nat, x: real): map<nat, seq<real>>
  {
    data[k := (if k in data then data[k] else []) + [x]]
  }

  /** The seven appends of one row, in the order the loop does them. */
  function AppendedRow(data: map<nat, seq<real>>, r: WeatherRow): map<nat, seq<real>>
  {
    Appended(Appended(Appended(Appended(Appended(Appended(Appended(data, 8, r.srad), 5, r.tmax),
      4, r.tavd), 3, r.tmin), 6, r.rain), 14, r.vprsd), 9, r.wind / 24.0 / 3.6)
  }

  /** Each of the seven elements gets the row's value appended to its
      series; any other series is left alone. */
  lemma {:induction false} AppendedRowAt(data: map<nat, seq<real>>, r: WeatherRow, k: nat)
    ensures k in AppendedRow(data, r) <==> k in data || IsElement(k)
    ensures IsElement(k) ==> AppendedRow(data, r)[k] == (if k in data then data[k] else []) + [ElementValue(r, k)]
    ensures !IsElement(k) && k in data ==> AppendedRow(data, r)[k] == data[k]
  {
  }

  /** Appending one row: its date and one value to each element's series. */
  function AppendRow(w: WeatherData, r: WeatherRow): WeatherData
  {
    w.(dates := w.dates + [Take(r.date, 10)], data := AppendedRow(w.data, r))
  }

  function WeatherOf(rows: seq<WeatherRow>): map<string, WeatherData>
  {
    if rows == [] then map[]
    else
      var w := WeatherOf(rows[..|rows| - 1]);
      var r := rows[|rows| - 1];
      w[r.dataset := AppendRow(if r.dataset in w then w[r.dataset] else NoWeather, r)]
  }

  /** The dates of the rows of dataset `ds`, in row order. */
  function DatesOf(rows: seq<WeatherRow>, ds: string): seq<string>
  {
    if rows == [] then []
    else DatesOf(rows[..|rows| - 1], ds) + (if rows[|rows| - 1].dataset == ds then [Take(rows[|rows| - 1].date, 10)] else [])
  }

  /** The values of element `k` of the rows of dataset `ds`, in row order. */
  function SeriesOf(rows: seq<WeatherRow>, ds: string, k: nat): seq<real>
  {
    if rows == [] then []
    else SeriesOf(rows[..|rows| - 1], ds, k) + (if rows[|rows| - 1].dataset == ds then [ElementValue(rows[|rows| - 1], k)] else [])
  }

  lemma {:induction false} SeriesAlongDates(rows: seq<WeatherRow>, ds: string, k: nat)
    ensures |SeriesOf(rows, ds, k)| == |DatesOf(rows, ds)|
  {
    if rows != [] {
      SeriesAlongDates(rows[..|rows| - 1], ds, k);
    }
  }

  /** A dataset appears exactly when some row belongs to it. */
  lemma {:induction false} WeatherDatasets(rows: seq<WeatherRow>, ds: string)
    ensures ds in WeatherOf(rows) <==> exists i :: 0 <= i < |rows| && rows[i].dataset == ds
  {
    if rows != [] {
      var init := rows[..|rows| - 1];
      WeatherDatasets(init, ds);
      if ds in WeatherOf(init) {
        var i :| 0 <= i < |init| && init[i].dataset == ds;
        assert rows[i] == init[i];
      }
      if exists i :: 0 <= i < |rows| && rows[i].dataset == ds {
        var i :| 0 <= i < |rows| && rows[i].dataset == ds;
        if i < |init| {
          assert init[i] == rows[i];
        }
      }
    }
  }

  /** A dataset holds the dates of its rows in row order, no date range yet
      and a series for exactly the seven elements. */
  lemma {:induction false} WeatherDates(rows: seq<WeatherRow>, ds: string)
    ensures ds in WeatherOf(rows) ==>
      && WeatherOf(rows)[ds].startDate.None? && WeatherOf(rows)[ds].endDate.None?
      && WeatherOf(rows)[ds].dates == DatesOf(rows, ds) && |DatesOf(rows, ds)| > 0
      && forall k :: k in WeatherOf(rows)[ds].data <==> IsElement(k)
    ensures ds !in WeatherOf(rows) ==> DatesOf(rows, ds) == []
  {
    if rows != [] {
      var init := rows[..|rows| - 1];
      var r := rows[|rows| - 1];
      WeatherDates(init, ds);
      if r.dataset == ds {
        var prev := if ds in WeatherOf(init) then WeatherOf(init)[ds] else NoWeather;
        forall k
          ensures k in AppendedRow(prev.data, r) <==> IsElement(k)
        {
          AppendedRowAt(prev.data, r, k);
        }
      }
    }
  }

  /** The series of element `k` of a dataset holds the values of its rows,
      in row order. */
  lemma {:induction false} WeatherSeries(rows: seq<WeatherRow>, ds: string, k: nat)
    requires IsElement(k)
    ensures ds in WeatherOf(rows) ==> k in WeatherOf(rows)[ds].data && WeatherOf(rows)[ds].data[k] == SeriesOf(rows, ds, k)
    ensures ds !in WeatherOf(rows) ==> SeriesOf(rows, ds, k) == []
  {
    if rows != [] {
      var init := rows[..|rows| - 1];
      var r := rows[|rows| - 1];
      WeatherSeries(init, ds, k);
      if r.dataset == ds {
        var prev := if ds in WeatherOf(init) then WeatherOf(init)[ds] else NoWeather;
        AppendedRowAt(prev.data, r, k);
      }
    }
  }

  /** The seven series of a dataset run in lockstep with its dates: each
      holds one value per date, taken from the row of that date. */
  lemma {:induction false} WeatherLockstep(rows: seq<WeatherRow>, ds: string, k: nat)
    requires ds in WeatherOf(rows) && IsElement(k)
    ensures var w := WeatherOf(rows)[ds];
      && w.dates == DatesOf(rows, ds) && |w.dates| > 0
      && k in w.data && w.data[k] == SeriesOf(rows, ds, k) && |w.data[k]| == |w.dates|
  {
    WeatherDates(rows, ds);
    WeatherSeries(rows, ds, k);
    SeriesAlongDates(rows, ds, k);
  }

  /** `data["start_date"] = data["dates"][0]` and `data["end_date"] =
      data["dates"][-1]` */
  function DateRanged(w: WeatherData): (r: WeatherData)
    requires |w.dates| > 0
  {
    w.(startDate := Some(w.dates[0]), endDate := Some(w.dates[|w.dates| - 1]))
  }

  /** A dataset's date range once set. */
  function WithRange(w: WeatherData): WeatherData
  {
    if |w.dates| > 0 then DateRanged(w) else w
  }

  /** `weather_daily` after both loops. */
  function LoadedWeather(rows: seq<WeatherRow>): map<string, WeatherData>
  {
    var w := WeatherOf(rows);
    map ds | ds in w :: WithRange(w[ds])
  }

  /** Every dataset's date range runs from the date of its first row to the
      date of its last row, and its series are those of its rows. */
  lemma {:induction false} LoadedWeatherRange(rows: seq<WeatherRow>, ds: string, k: nat)
    requires ds in LoadedWeather(rows) && IsElement(k)
    ensures var w := LoadedWeather(rows)[ds];
      && w.dates == DatesOf(rows, ds) && |w.dates| > 0
      && w.startDate == Some(w.dates[0]) && w.endDate == Some(w.dates[|w.dates| - 1])
      && k in w.data && w.data[k] == SeriesOf(rows, ds, k)
  {
    assert ds in WeatherOf(rows);
    var w := WeatherOf(rows)[ds];
    WeatherDates(rows, ds);
    WeatherSeries(rows, ds, k);
    assert LoadedWeather(rows)[ds] == DateRanged(w);
  }

  /** The seven appends of the loop body (ames_bare_soil/run-producer.py:115-122). */
  method AppendRowValues(data0: map<nat, seq<real>>, r: WeatherRow) returns (data: map<nat, seq<real>>)
    ensures data == AppendedRow(data0, r)
  {
    data := data0;
    data := Appended(data, 8, r.srad);
    data := Appended(data, 5, r.tmax);
    data := Appended(data, 4, r.tavd);
    data := Appended(data, 3, r.tmin);
    data := Appended(data, 6, r.rain);
    data := Appended(data, 14, r.vprsd);
    data := Appended(data, 9, r.wind / 24.0 / 3.6);
  }

  /** The loop over the Weather_daily rows (ames_bare_soil/run-producer.py:113-122). */
  method AppendWeatherRows(rows: seq<WeatherRow>) returns (weather: map<string, WeatherData>)
    ensures weather == WeatherOf(rows)
  {
    weather := map[];
    var i := 0;
    while i < |rows|
      invariant i <= |rows|
      invariant weather == WeatherOf(rows[..i])
    {
      WeatherOfStep(rows, i);
      weather := AddWeatherRow(weather, rows[i]);
      i := i + 1;
    }
    assert rows[..i] == rows;
  }

  /** One iteration: the row's date and its seven values are appended to its
      dataset, which is created on its first row. */
  method AddWeatherRow(weather0: map<string, WeatherData>, r: WeatherRow) returns (weather: map<string, WeatherData>)
    ensures weather == weather0[r.dataset := AppendRow(if r.dataset in weather0 then weather0[r.dataset] else NoWeather, r)]
  {
    var w := if r.dataset in weather0 then weather0[r.dataset] else NoWeather;
    var data := AppendRowValues(w.data, r);
    weather := weather0[r.dataset := w.(dates := w.dates + [Take(r.date, 10)], data := data)];
  }

  lemma {:induction false} WeatherOfStep(rows: seq<WeatherRow>, i: nat)
    requires i < |rows|
    ensures var w := WeatherOf(rows[..i]);
      WeatherOf(rows[..i + 1]) == w[rows[i].dataset := AppendRow(if rows[i].dataset in w then w[rows[i].dataset] else NoWeather, rows[i])]
  {
    assert rows[..i + 1][..i] == rows[..i];
  }

  /** Both loops of the weather loading (ames_bare_soil/run-producer.py:113-125). */
  method LoadWeather(rows: seq<WeatherRow>) returns (weather: map<string, WeatherData>)
    ensures weather == LoadedWeather(rows)
  {
    var appended := AppendWeatherRows(rows);
    weather := appended;
    var todo := appended.Keys;
    while todo != {}
      invariant todo <= appended.Keys && weather.Keys == appended.Keys
      invariant forall ds :: ds in appended ==> weather[ds] == if ds in todo then appended[ds] else WithRange(appended[ds])
      decreases todo
    {
      var ds :| ds in todo;
      var data := SetDateRange(weather[ds]);
      weather := weather[ds := data];
      todo := todo - {ds};
    }
    AllRanged(rows, appended, weather);
  }

  lemma {:induction false} AllRanged(rows: seq<WeatherRow>, appended: map<string, WeatherData>, weather: map<string, WeatherData>)
    requires appended == WeatherOf(rows) && weather.Keys == appended.Keys
    requires forall ds :: ds in appended ==> weather[ds] == WithRange(appended[ds])
    ensures weather == LoadedWeather(rows)
  {
  }

  /** The second loop's body: a dataset with dates gets the first and the
      last as its range. */
  method SetDateRange(data0: WeatherData) returns (data: WeatherData)
    ensures data == WithRange(data0)
  {
    data := data0;
    if |data.dates| > 0 {
      data := data.(startDate := Some(data.dates[0]), endDate := Some(data.dates[|data.dates| - 1]));
    }
  }

  // ---------------------------------------------------------------------------
  // Soil profiles (ames_bare_soil/run-producer.py:127-157)

  type LayerKey = (int, int)

  /** A soil layer as the job's SoilProfileParameters carries it. */
  datatype SoilLayer = SoilLayer(thickness: real, fieldCapacity: real, moisturePercentFC: Option<real>)

  /** A soil: its layers keyed by (SLLT, SLLB) in first-insertion order, and
      its albedo SALB. */
  datatype Soil = Soil(layers: Dict<LayerKey, SoilLayer>, salb: real)

  datatype MetadataRow = MetadataRow(soilId: string, salb: real)

  /** One row of Soil_profile_layers: depths of top and bottom in cm and
      the field capacity SLDUL. */
  datatype ProfileRow = ProfileRow(soilId: string, sllt: int, sllb: int, sldul: real)

  ghost predicate SoilsValid(soils: map<string, Soil>)
  {
    forall sid :: sid in soils ==> soils[sid].layers.Valid()
  }

  /** The metadata loop: each soil starts with no layers. */
  function MetadataSoils(rows: seq<MetadataRow>): (soils: map<string, Soil>)
    ensures SoilsValid(soils)
    ensures forall sid :: sid in soils ==> soils[sid].layers == EmptyDict()
  {
    if rows == [] then map[]
    else MetadataSoils(rows[..|rows| - 1])[rows[|rows| - 1].soilId := Soil(EmptyDict(), rows[|rows| - 1].salb)]
  }

  lemma {:induction false} MetadataSoilIds(rows: seq<MetadataRow>)
    ensures forall sid :: sid in MetadataSoils(rows) <==> exists i :: 0 <= i < |rows| && rows[i].soilId == sid
  {
    if rows != [] {
      var init := rows[..|rows| - 1];
      MetadataSoilIds(init);
      assert forall i :: 0 <= i < |init| ==> init[i] == rows[i];
    }
  }

  function NewLayer(r: ProfileRow): SoilLayer
  {
    SoilLayer((r.sllb - r.sllt) as real / 100.0, r.sldul, None)
  }

  /** The profile-layer loop; a row whose soil has no metadata row raises
      KeyError. */
  function LoadLayers(soils: map<string, Soil>, rows: seq<ProfileRow>): (r: Result<map<string, Soil>>)
    ensures r.Ok? ==> r.value.Keys == soils.Keys
  {
    if rows == [] then Ok(soils)
    else
      var s :- LoadLayers(soils, rows[..|rows| - 1]);
      var row := rows[|rows| - 1];
      if row.soilId !in s then Err(MissingKey)
      else Ok(s[row.soilId := s[row.soilId].(layers := Put(s[row.soilId].layers, (row.sllt, row.sllb), NewLayer(row)))])
  }

  /** Loading succeeds exactly when every row's soil has a metadata row. */
  lemma {:induction false} LoadLayersOk(soils: map<string, Soil>, rows: seq<ProfileRow>)
    ensures LoadLayers(soils, rows).Ok? <==> forall i :: 0 <= i < |rows| ==> rows[i].soilId in soils
  {
    if rows != [] {
      var init := rows[..|rows| - 1];
      LoadLayersOk(soils, init);
      LoadLayersLast(soils, rows);
      AllKnownSnoc(soils, rows, init);
    }
  }

  lemma {:induction false} AllKnownSnoc(soils: map<string, Soil>, rows: seq<ProfileRow>, init: seq<ProfileRow>)
    requires rows != [] && init == rows[..|rows| - 1]
    ensures (forall i :: 0 <= i < |rows| ==> rows[i].soilId in soils) <==>
      (forall i :: 0 <= i < |init| ==> init[i].soilId in soils) && rows[|rows| - 1].soilId in soils
  {
    assert forall i :: 0 <= i < |init| ==> init[i] == rows[i];
  }

  lemma {:induction false} LoadLayersLast(soils: map<string, Soil>, rows: seq<ProfileRow>)
    requires rows != []
    ensures LoadLayers(soils, rows).Ok? <==>
      LoadLayers(soils, rows[..|rows| - 1]).Ok? && rows[|rows| - 1].soilId in soils
  {
    if LoadLayers(soils, rows[..|rows| - 1]).Ok? {
      assert LoadLayers(soils, rows[..|rows| - 1]).value.Keys == soils.Keys;
    }
  }

  /** Row `r` describes the layer `key` of soil `sid`. */
  predicate RowFor(r: ProfileRow, sid: string, key: LayerKey)
  {
    r.soilId == sid && (r.sllt, r.sllb) == key
  }

  /** One more profile row replaces or adds only its own layer. */
  lemma {:induction false} LoadLayersStep(soils: map<string, Soil>, rows: seq<ProfileRow>, sid: string, key: LayerKey)
    requires rows != []
    requires LoadLayers(soils, rows).Ok? && sid in soils
    ensures LoadLayers(soils, rows[..|rows| - 1]).Ok?
    ensures var before := LoadLayers(soils, rows[..|rows| - 1]).value[sid].layers.entries;
      var after := LoadLayers(soils, rows).value[sid].layers.entries;
      && (RowFor(rows[|rows| - 1], sid, key) ==> key in after && after[key] == NewLayer(rows[|rows| - 1]))
      && (!RowFor(rows[|rows| - 1], sid, key) ==> (key in after <==> key in before) && (key in before ==> after[key] == before[key]))
  {
    var s0 := LoadLayers(soils, rows[..|rows| - 1]).value;
    var row := rows[|rows| - 1];
    var layers := Put(s0[row.soilId].layers, (row.sllt, row.sllb), NewLayer(row));
    assert LoadLayers(soils, rows).value == s0[row.soilId := s0[row.soilId].(layers := layers)];
    assert layers.entries == s0[row.soilId].layers.entries[(row.sllt, row.sllb) := NewLayer(row)];
    if sid != row.soilId {
      assert LoadLayers(soils, rows).value[sid] == s0[sid];
    }
  }

  /** The index of the last row describing layer `key` of soil `sid`, or
      -1 when there is none. */
  function LastRowFor(rows: seq<ProfileRow>, sid: string, key: LayerKey): (i: int)
    ensures -1 <= i < |rows|
    ensures i >= 0 ==> RowFor(rows[i], sid, key)
    ensures forall j :: i < j < |rows| ==> !RowFor(rows[j], sid, key)
  {
    if rows == [] then -1
    else if RowFor(rows[|rows| - 1], sid, key) then |rows| - 1
    else LastRowFor(rows[..|rows| - 1], sid, key)
  }

  /** After loading, a soil holds a layer for exactly the (SLLT, SLLB) pairs
      of its rows, made from the last row with that pair: it is
      (SLLB - SLLT) / 100 m thick and has no moisture yet. */
  lemma {:induction false} LayerOfRows(soils: map<string, Soil>, rows: seq<ProfileRow>, sid: string, key: LayerKey)
    requires forall s :: s in soils ==> soils[s].layers == EmptyDict()
    requires LoadLayers(soils, rows).Ok? && sid in soils
    ensures var layers := LoadLayers(soils, rows).value[sid].layers.entries;
      && (key in layers <==> LastRowFor(rows, sid, key) >= 0)
      && (key in layers ==> && layers[key] == NewLayer(rows[LastRowFor(rows, sid, key)])
                            && layers[key].thickness == (key.1 - key.0) as real / 100.0
                            && layers[key].moisturePercentFC.None?)
  {
    if rows != [] {
      LoadLayersStep(soils, rows, sid, key);
      LayerOfRows(soils, rows[..|rows| - 1], sid, key);
    }
  }

  /** Every loaded soil's layer table is a well-formed dict. */
  lemma {:induction false} LoadLayersValid(soils: map<string, Soil>, rows: seq<ProfileRow>)
    requires SoilsValid(soils)
    ensures LoadLayers(soils, rows).Ok? ==> SoilsValid(LoadLayers(soils, rows).value)
  {
    if rows != [] {
      LoadLayersValid(soils, rows[..|rows| - 1]);
    }
  }

  /** Both soil loops (ames_bare_soil/run-producer.py:128-157). */
  method LoadSoils(meta: seq<MetadataRow>, profile: seq<ProfileRow>) returns (r: Result<map<string, Soil>>)
    ensures r == LoadLayers(MetadataSoils(meta), profile)
  {
    var soils: map<string, Soil> := map[];
    var i := 0;
    while i < |meta|
      invariant i <= |meta|
      invariant soils == MetadataSoils(meta[..i])
    {
      assert meta[..i + 1][..i] == meta[..i];
      soils := soils[meta[i].soilId := Soil(EmptyDict(), meta[i].salb)];
      i := i + 1;
    }
    assert meta[..i] == meta;
    ghost var soils0 := soils;
    var j := 0;
    while j < |profile|
      invariant j <= |profile|
      invariant LoadLayers(soils0, profile[..j]) == Ok(soils)
    {
      assert profile[..j + 1][..j] == profile[..j];
      var row := profile[j];
      if row.soilId !in soils {
        LoadLayersFailureSticks(soils0, profile, j + 1);
        return Err(MissingKey);
      }
      var soil := soils[row.soilId];
      soils := soils[row.soilId := soil.(layers := Put(soil.layers, (row.sllt, row.sllb), NewLayer(row)))];
      j := j + 1;
    }
    assert profile[..j] == profile;
    r := Ok(soils);
  }

  lemma {:induction false} LoadLayersFailureSticks(soils: map<string, Soil>, rows: seq<ProfileRow>, k: nat)
    requires k <= |rows| && LoadLayers(soils, rows[..k]) == Err(MissingKey)
    ensures LoadLayers(soils, rows) == Err(MissingKey)
    decreases |rows| - k
  {
    if k < |rows| {
      assert rows[..k + 1][..k] == rows[..k];
      LoadLayersFailureSticks(soils, rows, k + 1);
    } else {
      assert rows[..k] == rows;
    }
  }

  // ---------------------------------------------------------------------------
  // Initial soil moisture (ames_bare_soil/run-producer.py:226-249)

  datatype InitialRow = InitialRow(eid: string, tid: string, ictl: int, icbl: int, ich2o: real)

  /** The moisture of a layer as a percentage of its field capacity; a zero
      field capacity raises ZeroDivisionError. */
  function MoisturePercent(ich2o: real, fieldCapacity: real): Result<real>
  {
    if fieldCapacity == 0.0 then Err(ZeroDivision) else Ok(Percent(ich2o, fieldCapacity))
  }

  /** `ICH2O / FieldCapacity * 100` */
  function Percent(ich2o: real, fieldCapacity: real): real
    requires fieldCapacity != 0.0
  {
    ich2o / fieldCapacity * 100.0
  }

  /** The body of the plot loop for one plot whose soil is `sid`: the soil
      object is shared by every plot that names it, so the moisture lands on
      the soil itself. `icl` is the treatment's initial-condition table. */
  function AttachToSoil(soils: map<string, Soil>, sid: string, key: LayerKey, icl: map<LayerKey, real>): (r: Result<map<string, Soil>>)
    ensures r.Ok? ==> r.value.Keys == soils.Keys
  {
    if sid !in soils then Err(MissingKey)
    else
      var layers := soils[sid].layers;
      if key in layers.entries && key in icl then
        var pct :- MoisturePercent(icl[key], layers.entries[key].fieldCapacity);
        Ok(soils[sid := soils[sid].(layers := layers.(entries := layers.entries[key := layers.entries[key].(moisturePercentFC := Some(pct))]))])
      else Ok(soils)
  }

  /** The loop over the plots of the treatment, whose soils are `sids`. */
  function AttachToPlots(soils: map<string, Soil>, sids: seq<string>, key: LayerKey, icl: map<LayerKey, real>): (r: Result<map<string, Soil>>)
    ensures r.Ok? ==> r.value.Keys == soils.Keys
  {
    if sids == [] then Ok(soils)
    else
      var s :- AttachToPlots(soils, sids[..|sids| - 1], key, icl);
      AttachToSoil(s, sids[|sids| - 1], key, icl)
  }

  /** One more plot changes at most the layer `key` of its own soil. */
  lemma {:induction false} AttachStep(soils: map<string, Soil>, sids: seq<string>, key: LayerKey, icl: map<LayerKey, real>,
                   sid: string, k: LayerKey)
    requires key in icl && sids != []
    requires AttachToPlots(soils, sids, key, icl).Ok? && sid in soils
    ensures AttachToPlots(soils, sids[..|sids| - 1], key, icl).Ok?
    ensures var before := AttachToPlots(soils, sids[..|sids| - 1], key, icl).value[sid];
      var after := AttachToPlots(soils, sids, key, icl).value[sid];
      && after.salb == before.salb && after.layers.keys == before.layers.keys
      && (k in after.layers.entries <==> k in before.layers.entries)
      && (k in before.layers.entries && (k != key || sid != sids[|sids| - 1]) ==> after.layers.entries[k] == before.layers.entries[k])
      && (k in before.layers.entries && k == key && sid == sids[|sids| - 1] ==>
            && before.layers.entries[k].fieldCapacity != 0.0
            && after.layers.entries[k] == before.layers.entries[k].(moisturePercentFC := Some(Percent(icl[key], before.layers.entries[k].fieldCapacity))))
  {
    var s0 := AttachToPlots(soils, sids[..|sids| - 1], key, icl).value;
    var last := sids[|sids| - 1];
    assert AttachToPlots(soils, sids, key, icl) == AttachToSoil(s0, last, key, icl);
    if sid != last || key !in s0[sid].layers.entries {
      assert AttachToPlots(soils, sids, key, icl).value[sid] == s0[sid];
    }
  }

  /** What one pass of the plot loop does to one layer of one soil: only
      the layer `key` of the soils of the treatment's plots gets a moisture,
      computed from the table's entry and the layer's field capacity; no
      layer is added or removed and the albedo stays. */
  lemma {:induction false} AttachedLayer(soils: map<string, Soil>, sids: seq<string>, key: LayerKey,
                                         icl: map<LayerKey, real>, sid: string, k: LayerKey)
    requires key in icl
    requires AttachToPlots(soils, sids, key, icl).Ok? && sid in soils
    ensures var after := AttachToPlots(soils, sids, key, icl).value[sid];
      var layers := soils[sid].layers.entries;
      && after.salb == soils[sid].salb
      && after.layers.keys == soils[sid].layers.keys
      && (k in after.layers.entries <==> k in layers)
      && (k in layers && (k != key || sid !in sids) ==> after.layers.entries[k] == layers[k])
      && (k in layers && k == key && sid in sids ==>
            && layers[k].fieldCapacity != 0.0
            && after.layers.entries[k] == layers[k].(moisturePercentFC := Some(Percent(icl[key], layers[k].fieldCapacity))))
  {
    if sids != [] {
      var init := sids[..|sids| - 1];
      var last := sids[|sids| - 1];
      AttachedLayer(soils, init, key, icl, sid, k);
      AttachStep(soils, sids, key, icl, sid, k);
      assert sid in sids <==> sid in init || sid == last;
    }
  }

  /** A plot's soil exists and, if it has the layer `key`, that layer's
      field capacity is not zero. */
  predicate PlotSoilReady(soils: map<string, Soil>, sid: string, key: LayerKey)
  {
    sid in soils && (key in soils[sid].layers.entries ==> soils[sid].layers.entries[key].fieldCapacity != 0.0)
  }

  /** The plot loop completes exactly when every plot's soil exists and no
      layer it updates has a zero field capacity. */
  lemma {:induction false} AttachToPlotsOk(soils: map<string, Soil>, sids: seq<string>, key: LayerKey, icl: map<LayerKey, real>)
    requires key in icl
    ensures AttachToPlots(soils, sids, key, icl).Ok? <==>
      forall i :: 0 <= i < |sids| ==> PlotSoilReady(soils, sids[i], key)
  {
    if sids != [] {
      var init := sids[..|sids| - 1];
      var sid := sids[|sids| - 1];
      AttachToPlotsOk(soils, init, key, icl);
      assert forall i :: 0 <= i < |init| ==> init[i] == sids[i];
      if AttachToPlots(soils, init, key, icl).Ok? && sid in soils {
        AttachedLayer(soils, init, key, icl, sid, key);
      }
    }
  }

  /** The plot loop keeps every soil's layer table well formed. */
  lemma {:induction false} AttachToPlotsValid(soils: map<string, Soil>, sids: seq<string>, key: LayerKey, icl: map<LayerKey, real>)
    requires SoilsValid(soils)
    ensures AttachToPlots(soils, sids, key, icl).Ok? ==> SoilsValid(AttachToPlots(soils, sids, key, icl).value)
  {
    if sids != [] {
      AttachToPlotsValid(soils, sids[..|sids| - 1], key, icl);
    }
  }

  /** The state the initial-condition loop updates: the soils, shared by
      the plots naming them, and each treatment's table of initial
      condition layers. */
  datatype MoistureState = MoistureState(soils: map<string, Soil>, icls: map<TreatmentKey, map<LayerKey, real>>)

  /** (EID, TREAT_ID) */
  type TreatmentKey = (string, string)

  /** The body of the loop over initial_condition_layers for one row; the
      treatment's plots name the soils `plotSoils[(eid, tid)]`, in plot
      order, and an unknown treatment raises KeyError. */
  function InitialRowStep(st: MoistureState, plotSoils: map<TreatmentKey, seq<string>>, r: InitialRow): (res: Result<MoistureState>)
    ensures res.Ok? ==> res.value.soils.Keys == st.soils.Keys
  {
    var t := (r.eid, r.tid);
    if t !in plotSoils then Err(MissingKey)
    else
      var key := (r.ictl, r.icbl);
      var icl := (if t in st.icls then st.icls[t] else map[])[key := r.ich2o];
      var soils :- AttachToPlots(st.soils, plotSoils[t], key, icl);
      Ok(MoistureState(soils, st.icls[t := icl]))
  }

  function InitialConditions(st: MoistureState, plotSoils: map<TreatmentKey, seq<string>>, rows: seq<InitialRow>): (res: Result<MoistureState>)
    ensures res.Ok? ==> res.value.soils.Keys == st.soils.Keys
  {
    if rows == [] then Ok(st)
    else
      var s :- InitialConditions(st, plotSoils, rows[..|rows| - 1]);
      InitialRowStep(s, plotSoils, rows[|rows| - 1])
  }

  /** One row of initial_condition_layers: its treatment must exist, and the
      plot loop must complete; the row's moisture then lands on the
      (ICTL, ICBL) layer of exactly the soils of the treatment's plots, as
      ICH2O / FieldCapacity * 100, since the table always holds the key just
      stored; every other layer keeps its value. */
  lemma {:induction false} InitialRowMoisture(st: MoistureState, plotSoils: map<TreatmentKey, seq<string>>, r: InitialRow,
                           sid: string, k: LayerKey)
    requires sid in st.soils
    ensures var t := (r.eid, r.tid);
      var key := (r.ictl, r.icbl);
      var res := InitialRowStep(st, plotSoils, r);
      && (res.Ok? <==> t in plotSoils && forall i :: 0 <= i < |plotSoils[t]| ==> PlotSoilReady(st.soils, plotSoils[t][i], key))
      && (res.Ok? ==>
            && res.value.icls[t][key] == r.ich2o
            && (k in res.value.soils[sid].layers.entries <==> k in st.soils[sid].layers.entries)
            && (k in st.soils[sid].layers.entries ==>
                  var before := st.soils[sid].layers.entries[k];
                  res.value.soils[sid].layers.entries[k] ==
                    if k == key && sid in plotSoils[t] then before.(moisturePercentFC := Some(Percent(r.ich2o, before.fieldCapacity)))
                    else before))
  {
    var t := (r.eid, r.tid);
    var key := (r.ictl, r.icbl);
    if t in plotSoils {
      var icl := (if t in st.icls then st.icls[t] else map[])[key := r.ich2o];
      AttachToPlotsOk(st.soils, plotSoils[t], key, icl);
      if AttachToPlots(st.soils, plotSoils[t], key, icl).Ok? {
        AttachedLayer(st.soils, plotSoils[t], key, icl, sid, k);
      }
    }
  }

  /** The initial-condition loop keeps every soil's layer table well formed. */
  lemma {:induction false} InitialConditionsValid(st: MoistureState, plotSoils: map<TreatmentKey, seq<string>>, rows: seq<InitialRow>)
    requires SoilsValid(st.soils)
    ensures InitialConditions(st, plotSoils, rows).Ok? ==> SoilsValid(InitialConditions(st, plotSoils, rows).value.soils)
  {
    if rows != [] {
      InitialConditionsValid(st, plotSoils, rows[..|rows| - 1]);
      var r := rows[|rows| - 1];
      var t := (r.eid, r.tid);
      if InitialConditions(st, plotSoils, rows[..|rows| - 1]).Ok? && t in plotSoils {
        var s := InitialConditions(st, plotSoils, rows[..|rows| - 1]).value;
        var key := (r.ictl, r.icbl);
        AttachToPlotsValid(s.soils, plotSoils[t], key, (if t in s.icls then s.icls[t] else map[])[key := r.ich2o]);
      }
    }
  }

  /** The plot loop of one row (ames_bare_soil/run-producer.py:244-249). */
  method AttachToPlotSoils(soils0: map<string, Soil>, sids: seq<string>, key: LayerKey, icl: map<LayerKey, real>)
    returns (r: Result<map<string, Soil>>)
    ensures r == AttachToPlots(soils0, sids, key, icl)
  {
    var soils := soils0;
    var i := 0;
    while i < |sids|
      invariant i <= |sids|
      invariant AttachToPlots(soils0, sids[..i], key, icl) == Ok(soils)
    {
      assert sids[..i + 1][..i] == sids[..i];
      var sid := sids[i];
      if sid !in soils {
        AttachFailureSticks(soils0, sids, key, icl, i + 1, MissingKey);
        return Err(MissingKey);
      }
      var layers := soils[sid].layers;
      if key in layers.entries && key in icl {
        var fc := layers.entries[key].fieldCapacity;
        if fc == 0.0 {
          AttachFailureSticks(soils0, sids, key, icl, i + 1, ZeroDivision);
          return Err(ZeroDivision);
        }
        soils := soils[sid := soils[sid].(layers := layers.(entries := layers.entries[key := layers.entries[key].(moisturePercentFC := Some(Percent(icl[key], fc)))]))];
      }
      i := i + 1;
    }
    assert sids[..i] == sids;
    r := Ok(soils);
  }

  lemma {:induction false} AttachFailureSticks(soils: map<string, Soil>, sids: seq<string>, key: LayerKey,
                                               icl: map<LayerKey, real>, k: nat, e: Error)
    requires k <= |sids| && AttachToPlots(soils, sids[..k], key, icl) == Err(e)
    ensures AttachToPlots(soils, sids, key, icl) == Err(e)
    decreases |sids| - k
  {
    if k < |sids| {
      assert sids[..k + 1][..k] == sids[..k];
      AttachFailureSticks(soils, sids, key, icl, k + 1, e);
    } else {
      assert sids[..k] == sids;
    }
  }

  /** The loop over initial_condition_layers (ames_bare_soil/run-producer.py:226-249). */
  method AttachInitialConditions(st0: MoistureState, plotSoils: map<TreatmentKey, seq<string>>, rows: seq<InitialRow>)
    returns (r: Result<MoistureState>)
    ensures r == InitialConditions(st0, plotSoils, rows)
  {
    var st := st0;
    var i: nat := 0;
    while i < |rows|
      invariant i <= |rows|
      invariant InitialConditions(st0, plotSoils, rows[..i]) == Ok(st)
    {
      var next := AttachInitialRow(st0, plotSoils, rows, i, st);
      match next
      case Err(e) =>
        InitialFailureSticks(st0, plotSoils, rows, i + 1, e);
        return Err(e);
      case Ok(s) =>
        st, i := s, i + 1;
    }
    assert rows[..i] == rows;
    r := Ok(st);
  }

  /** The body of that loop for row `i`: an unknown treatment raises
      KeyError, otherwise the plot loop runs on the treatment's soils. */
  method AttachInitialRow(st0: MoistureState, plotSoils: map<TreatmentKey, seq<string>>, rows: seq<InitialRow>,
                          i: nat, st: MoistureState)
    returns (r: Result<MoistureState>)
    requires i < |rows| && InitialConditions(st0, plotSoils, rows[..i]) == Ok(st)
    ensures r == InitialConditions(st0, plotSoils, rows[..i + 1])
  {
    assert rows[..i + 1][..i] == rows[..i];
    var row := rows[i];
    var t := (row.eid, row.tid);
    if t !in plotSoils {
      return Err(MissingKey);
    }
    var key := (row.ictl, row.icbl);
    var icl := (if t in st.icls then st.icls[t] else map[])[key := row.ich2o];
    var attached := AttachToPlotSoils(st.soils, plotSoils[t], key, icl);
    if attached.Err? {
      return Err(attached.error);
    }
    r := Ok(MoistureState(attached.value, st.icls[t := icl]));
  }

  lemma {:induction false} InitialFailureSticks(st: MoistureState, plotSoils: map<TreatmentKey, seq<string>>,
                                                rows: seq<InitialRow>, k: nat, e: Error)
    requires k <= |rows| && InitialConditions(st, plotSoils, rows[..k]) == Err(e)
    ensures InitialConditions(st, plotSoils, rows) == Err(e)
    decreases |rows| - k
  {
    if k < |rows| {
      assert rows[..k + 1][..k] == rows[..k];
      InitialFailureSticks(st, plotSoils, rows, k + 1, e);
    } else {
      assert rows[..k] == rows;
    }
  }

  // ---------------------------------------------------------------------------
  // The send loop (ames_bare_soil/run-producer.py:310-364)

  datatype Station = Station(tamp: real, tav: real)

  datatype Plot = Plot(plotId: string, soilId: string)

  /** A treatment with what the send loop reads: its weather dataset and the
      `weather_daily` / `weather_stations` entries found for it (None when
      missing), its field's latitude and its plots. */
  datatype Treatment = Treatment(treatId: string, wstDataset: string, latitude: real,
                                 weather: Option<WeatherData>, station: Option<Station>, plots: seq<Plot>)

  datatype Experiment = Experiment(treatments: seq<Treatment>)

  /** The parts of the environment and its customId that a job sets. */
  datatype Job = Job(stModel: string, modelCode: string, year: string, wstDataset: string, soilProfileId: string,
                     profile: seq<SoilLayer>, latitude: real, albedo: real,
                     startDate: string, endDate: Option<string>, climate: map<nat, seq<real>>, tamp: real, tav: real)

  /** `list(map(lambda k_v: k_v[1], layers.items()))` */
  function ProfileOf(layers: Dict<LayerKey, SoilLayer>): (p: seq<SoilLayer>)
    requires layers.Valid()
    ensures |p| == |layers.keys|
    ensures forall i :: 0 <= i < |p| ==> p[i] == layers.entries[layers.keys[i]]
  {
    seq(|layers.keys|, i requires 0 <= i < |layers.keys| => layers.entries[layers.keys[i]])
  }

  /** The profile sent holds every layer of the soil's table exactly once: one
      entry per layer, and each layer at the position of its key. */
  lemma {:induction false} ProfileListsEachLayer(layers: Dict<LayerKey, SoilLayer>)
    requires layers.Valid()
    ensures |ProfileOf(layers)| == |layers.entries|
    ensures forall k :: k in layers.entries ==>
      exists i :: 0 <= i < |ProfileOf(layers)| && layers.keys[i] == k && ProfileOf(layers)[i] == layers.entries[k]
  {
    DictSize(layers);
  }

  function PlotJobs(t: Treatment, p: Plot, soil: Soil, w: WeatherData, start: string, st: Station,
                    variants: seq<(string, string)>): seq<Job>
    requires soil.layers.Valid()
  {
    seq(|variants|, k requires 0 <= k < |variants| =>
      Job(variants[k].0, variants[k].1, Take(start, 4), t.wstDataset, p.soilId, ProfileOf(soil.layers),
          t.latitude, soil.salb, start, w.endDate, w.data, st.tamp, st.tav))
  }

  /** One plot: a missing soil raises KeyError, a missing weather dataset
      or station or an unset start date raises TypeError, all before any
      send; otherwise one job per model variant. A dataset taken from
      `LoadedWeather` always has its start date set (`LoadedWeatherRange`),
      so the unset-start-date branch is reached only by weather that did
      not come through the producer's loading loops; it is kept because the
      treatment's weather is a parameter here. */
  function PlotOutcome(t: Treatment, p: Plot, soils: map<string, Soil>, variants: seq<(string, string)>): Outcome<Job>
    requires SoilsValid(soils)
  {
    if p.soilId !in soils then Outcome([], Some(MissingKey))
    else if t.weather.None? || t.station.None? then Outcome([], Some(NotSubscriptable))
    else if t.weather.value.startDate.None? then Outcome([], Some(NotSubscriptable))
    else Done(PlotJobs(t, p, soils[p.soilId], t.weather.value, t.weather.value.startDate.value, t.station.value, variants))
  }

  function PlotStep(t: Treatment, soils: map<string, Soil>, variants: seq<(string, string)>): Plot -> Outcome<Job>
    requires SoilsValid(soils)
  {
    (p: Plot) => PlotOutcome(t, p, soils, variants)
  }

  function TreatmentStep(soils: map<string, Soil>, variants: seq<(string, string)>): Treatment -> Outcome<Job>
    requires SoilsValid(soils)
  {
    (t: Treatment) => Sequenced(t.plots, PlotStep(t, soils, variants))
  }

  function ExperimentStep(soils: map<string, Soil>, variants: seq<(string, string)>): Experiment -> Outcome<Job>
    requires SoilsValid(soils)
  {
    (e: Experiment) => Sequenced(e.treatments, TreatmentStep(soils, variants))
  }

  function ProducerRun(exps: seq<Experiment>, soils: map<string, Soil>): Outcome<Job>
    requires SoilsValid(soils)
  {
    Sequenced(exps, ExperimentStep(soils, ModelVariants))
  }

  /** The model-variant loop of one plot. */
  method SendPlotJobs(sent0: seq<Message<Job>>, count0: nat, ghost done: seq<Job>, t: Treatment, p: Plot,
                      soil: Soil, w: WeatherData, start: string, st: Station, variants: seq<(string, string)>)
    returns (sent: seq<Message<Job>>, sentEnvCount: nat)
    requires soil.layers.Valid()
    requires sent0 == Numbered(done) && count0 == |done|
    ensures sent == Numbered(done + PlotJobs(t, p, soil, w, start, st, variants))
    ensures sentEnvCount == |done + PlotJobs(t, p, soil, w, start, st, variants)|
  {
    sent, sentEnvCount := sent0, count0;
    ghost var jobs := PlotJobs(t, p, soil, w, start, st, variants);
    assert done + jobs[..0] == done;
    var profile := ProfileOf(soil.layers);
    var v := 0;
    while v < |variants|
      invariant 0 <= v <= |variants|
      invariant sent == Numbered(done + jobs[..v]) && sentEnvCount == |done + jobs[..v]|
    {
      var (stModel, modelCode) := variants[v];
      var job := Job(stModel, modelCode, Take(start, 4), t.wstDataset, p.soilId, profile,
                     t.latitude, soil.salb, start, w.endDate, w.data, st.tamp, st.tav);
      assert job == jobs[v];
      PrefixSnoc(jobs, v);
      sent, sentEnvCount := Send(sent, sentEnvCount, done + jobs[..v], job);
      AppendAssociative(done, jobs[..v], [job]);
      v := v + 1;
    }
    assert jobs[..v] == jobs;
  }

  /** The body of the plot loop. */
  method RunPlot(sent0: seq<Message<Job>>, count0: nat, ghost done: seq<Job>, t: Treatment, p: Plot,
                 soils: map<string, Soil>, variants: seq<(string, string)>)
    returns (sent: seq<Message<Job>>, sentEnvCount: nat, crash: Option<Error>)
    requires SoilsValid(soils)
    requires sent0 == Numbered(done) && count0 == |done|
    ensures crash == PlotOutcome(t, p, soils, variants).crash
    ensures sent == Numbered(done + PlotOutcome(t, p, soils, variants).jobs)
    ensures sentEnvCount == |done + PlotOutcome(t, p, soils, variants).jobs|
  {
    assert done + [] == done;
    if p.soilId !in soils {
      return sent0, count0, Some(MissingKey);
    }
    if t.weather.None? || t.station.None? || t.weather.value.startDate.None? {
      return sent0, count0, Some(NotSubscriptable);
    }
    var w := t.weather.value;
    sent, sentEnvCount := SendPlotJobs(sent0, count0, done, t, p, soils[p.soilId], w, w.startDate.value,
                                       t.station.value, variants);
    crash := None;
  }

  /** The loop over the plots of one treatment. */
  method RunTreatment(sent0: seq<Message<Job>>, count0: nat, ghost done: seq<Job>, t: Treatment,
                      soils: map<string, Soil>, variants: seq<(string, string)>)
    returns (sent: seq<Message<Job>>, sentEnvCount: nat, crash: Option<Error>)
    requires SoilsValid(soils)
    requires sent0 == Numbered(done) && count0 == |done|
    ensures crash == TreatmentStep(soils, variants)(t).crash
    ensures sent == Numbered(done + TreatmentStep(soils, variants)(t).jobs)
    ensures sentEnvCount == |done + TreatmentStep(soils, variants)(t).jobs|
  {
    sent, sentEnvCount, crash := sent0, count0, None;
    ghost var jobsT: seq<Job> := [];
    assert done + jobsT == done;
    var k := 0;
    while k < |t.plots|
      invariant 0 <= k <= |t.plots|
      invariant Sequenced(t.plots[..k], PlotStep(t, soils, variants)) == Done(jobsT)
      invariant sent == Numbered(done + jobsT) && sentEnvCount == |done + jobsT|
      invariant crash.None?
    {
      var p := t.plots[k];
      ghost var o := PlotStep(t, soils, variants)(p);
      sent, sentEnvCount, crash := RunPlot(sent, sentEnvCount, done + jobsT, t, p, soils, variants);
      AppendAssociative(done, jobsT, o.jobs);
      if crash.Some? {
        CrashEndsLoop(t.plots, PlotStep(t, soils, variants), k, jobsT);
        return;
      }
      SequencedStep(t.plots, PlotStep(t, soils, variants), k, jobsT);
      jobsT := jobsT + o.jobs;
      k := k + 1;
    }
    assert t.plots[..k] == t.plots;
  }

  /** The loop over the treatments of one experiment. */
  method RunExperiment(sent0: seq<Message<Job>>, count0: nat, ghost done: seq<Job>, e: Experiment,
                       soils: map<string, Soil>, variants: seq<(string, string)>)
    returns (sent: seq<Message<Job>>, sentEnvCount: nat, crash: Option<Error>)
    requires SoilsValid(soils)
    requires sent0 == Numbered(done) && count0 == |done|
    ensures crash == ExperimentStep(soils, variants)(e).crash
    ensures sent == Numbered(done + ExperimentStep(soils, variants)(e).jobs)
    ensures sentEnvCount == |done + ExperimentStep(soils, variants)(e).jobs|
  {
    sent, sentEnvCount, crash := sent0, count0, None;
    ghost var jobsE: seq<Job> := [];
    assert done + jobsE == done;
    var j := 0;
    while j < |e.treatments|
      invariant 0 <= j <= |e.treatments|
      invariant Sequenced(e.treatments[..j], TreatmentStep(soils, variants)) == Done(jobsE)
      invariant sent == Numbered(done + jobsE) && sentEnvCount == |done + jobsE|
      invariant crash.None?
    {
      var t := e.treatments[j];
      ghost var o := TreatmentStep(soils, variants)(t);
      sent, sentEnvCount, crash := RunTreatment(sent, sentEnvCount, done + jobsE, t, soils, variants);
      AppendAssociative(done, jobsE, o.jobs);
      if crash.Some? {
        CrashEndsLoop(e.treatments, TreatmentStep(soils, variants), j, jobsE);
        return;
      }
      SequencedStep(e.treatments, TreatmentStep(soils, variants), j, jobsE);
      jobsE := jobsE + o.jobs;
      j := j + 1;
    }
    assert e.treatments[..j] == e.treatments;
  }

  /** The send loop over all experiments and the closing message. */
  method RunProducer(exps: seq<Experiment>, soils: map<string, Soil>) returns (sent: seq<Message<Job>>)
    requires SoilsValid(soils)
    ensures sent == Sent(ProducerRun(exps, soils))
  {
    var variants := ModelVariants;
    var sentEnvCount := 0;
    sent := [];
    ghost var jobs: seq<Job> := [];
    var i := 0;
    while i < |exps|
      invariant 0 <= i <= |exps|
      invariant Sequenced(exps[..i], ExperimentStep(soils, variants)) == Done(jobs)
      invariant sent == Numbered(jobs) && sentEnvCount == |jobs|
    {
      var e := exps[i];
      ghost var o := ExperimentStep(soils, variants)(e);
      var crash;
      sent, sentEnvCount, crash := RunExperiment(sent, sentEnvCount, jobs, e, soils, variants);
      if crash.Some? {
        CrashEndsLoop(exps, ExperimentStep(soils, variants), i, jobs);
        return;
      }
      SequencedStep(exps, ExperimentStep(soils, variants), i, jobs);
      jobs := jobs + o.jobs;
      i := i + 1;
    }
    assert exps[..i] == exps;
    sent := sent + [SentCount(sentEnvCount)];
  }

  // ---------------------------------------------------------------------------
  // Properties of the send loop

  /** A plot that has its soil, weather and station yields one job per
      variant, in variant order, each with the plot's soil profile in layer
      order, the dataset's date range and series, and the year of its start
      date. */
  lemma {:induction false} PlotJobsFollowVariants(t: Treatment, p: Plot, soils: map<string, Soil>, variants: seq<(string, string)>)
    requires SoilsValid(soils)
    requires p.soilId in soils && t.weather.Some? && t.station.Some? && t.weather.value.startDate.Some?
    ensures var o := PlotOutcome(t, p, soils, variants);
      var w := t.weather.value;
      && o.crash.None? && |o.jobs| == |variants|
      && forall k :: 0 <= k < |variants| ==>
           && (o.jobs[k].stModel, o.jobs[k].modelCode) == variants[k]
           && o.jobs[k].profile == ProfileOf(soils[p.soilId].layers)
           && o.jobs[k].albedo == soils[p.soilId].salb
           && o.jobs[k].startDate == w.startDate.value && o.jobs[k].endDate == w.endDate
           && o.jobs[k].year == Take(w.startDate.value, 4)
           && o.jobs[k].climate == w.data
           && o.jobs[k].soilProfileId == p.soilId
  {
  }

  /** A plot sends nothing exactly when its soil, weather dataset, station
      or start date is missing. */
  lemma {:induction false} PlotCrashes(t: Treatment, p: Plot, soils: map<string, Soil>, variants: seq<(string, string)>)
    requires SoilsValid(soils)
    ensures PlotOutcome(t, p, soils, variants).crash.Some? <==>
      p.soilId !in soils || t.weather.None? || t.station.None? || t.weather.value.startDate.None?
    ensures PlotOutcome(t, p, soils, variants).crash.Some? ==> PlotOutcome(t, p, soils, variants).jobs == []
  {
  }

  /** When every plot has what it needs the producer completes, and its
      closing message counts ten jobs per plot. */
  lemma {:induction false} CompletedRunCountsTenPerPlot(exps: seq<Experiment>, soils: map<string, Soil>)
    requires SoilsValid(soils)
    requires forall e, t, p :: e in exps && t in e.treatments && p in t.plots ==>
      PlotOutcome(t, p, soils, ModelVariants).crash.None?
    ensures ProducerRun(exps, soils).crash.None?
    ensures Sent(ProducerRun(exps, soils)) ==
      Numbered(ProducerRun(exps, soils).jobs) + [SentCount(SumOver(exps, ExperimentJobCount(10)))]
  {
    ModelVariantsCount();
    forall e | e in exps
      ensures ExperimentStep(soils, ModelVariants)(e).crash.None?
      ensures |ExperimentStep(soils, ModelVariants)(e).jobs| == ExperimentJobCount(10)(e)
    {
      forall t | t in e.treatments
        ensures TreatmentStep(soils, ModelVariants)(t).crash.None?
        ensures |TreatmentStep(soils, ModelVariants)(t).jobs| == TreatmentJobCount(10)(t)
      {
        SequencedJobCount(t.plots, PlotStep(t, soils, ModelVariants), (p: Plot) => 10);
        SumOverConstant(t.plots, 10);
      }
      SequencedJobCount(e.treatments, TreatmentStep(soils, ModelVariants), TreatmentJobCount(10));
    }
    SequencedJobCount(exps, ExperimentStep(soils, ModelVariants), ExperimentJobCount(10));
  }

  function TreatmentJobCount(n: nat): Treatment -> nat
  {
    (t: Treatment) => n * |t.plots|
  }

  function ExperimentJobCount(n: nat): Experiment -> nat
  {
    (e: Experiment) => SumOver(e.treatments, TreatmentJobCount(n))
  }
}
