/** The producer of run-producer.py and its copy in
    soil_temperature_sensitivity_analysis/run-producer.py: soil profiles are
    built from the soil-data table, one MONICA environment is sent per
    treatment row, and a closing message carries the number sent. */
module ProfileProducer {
  import opened Common
  import opened Dispatch
  import opened RunLib

  /** Which of the two scripts: they differ in the layer fields, in where
      AWC goes and in the customData columns. */
  datatype Variant = Baseline | Sensitivity

  /** A parsed layer of SoilProfileParameters. Sand and silt are only read
      by the sensitivity script. */
  datatype Layer = Layer(thickness: real, organicCarbon: real, bulkDensity: real, fieldCapacity: real,
                         poreVolume: real, wiltingPoint: real, clay: real, sandSilt: Option<(real, real)>)

  /** `float(row[col])` */
  function Float(row: Row, col: string, parseFloat: string -> Option<real>): Result<real>
  {
    var c :- Lookup(row, col);
    CellToFloat(c, parseFloat)
  }

  /** The layer dict written for one soil-data row (run-producer.py:111-120,
      soil_temperature_sensitivity_analysis/run-producer.py:97-108). */
  function LayerOf(v: Variant, row: Row, parseFloat: string -> Option<real>): Result<Layer>
  {
    var thick :- Float(row, "THICK", parseFloat);
    var sloc :- Float(row, "SLOC", parseFloat);
    var slbdm :- Float(row, "SLBDM", parseFloat);
    var sldul :- Float(row, "SLDUL", parseFloat);
    var slsat :- Float(row, "SLSAT", parseFloat);
    var slll :- Float(row, "SLLL", parseFloat);
    var slcly :- Float(row, "SLCLY", parseFloat);
    var sandSilt :- if v == Sensitivity then
        var sand :- Float(row, "SLSND", parseFloat);
        var silt :- Float(row, "SLSIL", parseFloat);
        Ok(Some((sand, silt)))
      else Ok(None);
    Ok(Layer(thick / 100.0, sloc, slbdm * 1000.0, sldul, slsat, slll, slcly, sandSilt))
  }

  /** `dict.items()` */
  function Items<K(!new), V>(d: Dict<K, V>): (r: seq<(K, V)>)
    requires d.Valid()
    ensures |r| == |d.keys| && forall i :: 0 <= i < |r| ==> r[i].0 == d.keys[i] && r[i].0 in d.entries && r[i].1 == d.entries[r[i].0]
  {
    seq(|d.keys|, i requires 0 <= i < |d.keys| => (d.keys[i], d.entries[d.keys[i]]))
  }

  /** `dict.items()` gives exactly the dict's pairs, one per entry, and no key
      twice. */
  lemma {:induction false} ItemsAreEntries<K(!new), V>(d: Dict<K, V>)
    requires d.Valid()
    ensures |Items(d)| == |d.entries|
    ensures forall k :: k in d.entries ==> (k, d.entries[k]) in Items(d)
    ensures forall p :: p in Items(d) ==> p.0 in d.entries && d.entries[p.0] == p.1
    ensures forall i, j :: 0 <= i < j < |Items(d)| ==> Items(d)[i].0 != Items(d)[j].0
  {
    DictSize(d);
    forall k | k in d.entries ensures (k, d.entries[k]) in Items(d) {
      var i :| 0 <= i < |d.keys| && d.keys[i] == k;
      assert Items(d)[i] == (k, d.entries[k]);
    }
  }

  /** `for (soil_id, layer_id), ... in soil_data_csv.items()`: the key of a
      soil-data row is a (soil id, integer layer id) pair. */
  function SoilKey(k: Key): Result<(Cell, int)>
  {
    if k.Composite? && |k.cs| == 2 && k.cs[1].Number? then Ok((k.cs[0], k.cs[1].n)) else Err(BadValue)
  }

  /** The keys read_csv produces with the key types (str, int) unpack. */
  lemma {:induction false} SoilKeysUnpack(header: seq<string>, rows: seq<seq<string>>, k: Key)
    requires KeyedRows(header, rows, KeyTuple(["SOIL_ID", "SLID"]), [StrType, IntType]).Ok?
    requires k in KeyedRows(header, rows, KeyTuple(["SOIL_ID", "SLID"]), [StrType, IntType]).value.entries
    ensures SoilKey(k).Ok? && SoilKey(k).value.0.Text?
  {
    TextNumberKeys(header, rows, ["SOIL_ID", "SLID"], k);
  }

  type Layers = Dict<int, Layer>

  /** `soil_profiles_dict[soil_id][layer_id] = {...}` for one row. */
  function AddLayer(v: Variant, pd: Dict<Cell, Layers>, item: (Key, Row), parseFloat: string -> Option<real>)
    : Result<Dict<Cell, Layers>>
  {
    var (sid, lid) :- SoilKey(item.0);
    var layer :- LayerOf(v, item.1, parseFloat);
    var layers := if sid in pd.entries then pd.entries[sid] else EmptyDict();
    Ok(Put(pd, sid, Put(layers, lid, layer)))
  }

  /** `soil_profiles_dict` after the loop over the soil-data items. */
  function ProfilesDict(v: Variant, items: seq<(Key, Row)>, parseFloat: string -> Option<real>): Result<Dict<Cell, Layers>>
  {
    if items == [] then Ok(EmptyDict())
    else
      var pd :- ProfilesDict(v, items[..|items| - 1], parseFloat);
      AddLayer(v, pd, items[|items| - 1], parseFloat)
  }

  /** Every soil's layer dict is a well-formed dict. */
  ghost predicate ProfilesValid(pd: Dict<Cell, Layers>)
  {
    pd.Valid() && forall sid :: sid in pd.entries ==> pd.entries[sid].Valid()
  }

  lemma {:induction false} ProfilesDictValid(v: Variant, items: seq<(Key, Row)>, parseFloat: string -> Option<real>)
    requires ProfilesDict(v, items, parseFloat).Ok?
    ensures ProfilesValid(ProfilesDict(v, items, parseFloat).value)
  {
    if items != [] {
      ProfilesDictValid(v, items[..|items| - 1], parseFloat);
    }
  }

  /** The index of the last item for soil `sid` and layer `lid`, or -1. */
  function LastItemFor(items: seq<(Key, Row)>, sid: Cell, lid: int): (i: int)
    ensures -1 <= i < |items|
    ensures i >= 0 ==> SoilKey(items[i].0) == Ok((sid, lid))
    ensures forall j :: i < j < |items| ==> SoilKey(items[j].0) != Ok((sid, lid))
  {
    if items == [] then -1
    else if SoilKey(items[|items| - 1].0) == Ok((sid, lid)) then |items| - 1
    else LastItemFor(items[..|items| - 1], sid, lid)
  }

  /** Adding one row touches only the layer that row names. */
  lemma {:induction false} AddLayerEffect(v: Variant, pd: Dict<Cell, Layers>, item: (Key, Row), parseFloat: string -> Option<real>,
                       sid: Cell, lid: int)
    requires AddLayer(v, pd, item, parseFloat).Ok?
    ensures var pd' := AddLayer(v, pd, item, parseFloat).value;
      && SoilKey(item.0).Ok?
      && (SoilKey(item.0).value == (sid, lid) ==>
            sid in pd'.entries && lid in pd'.entries[sid].entries
            && LayerOf(v, item.1, parseFloat) == Ok(pd'.entries[sid].entries[lid]))
      && (SoilKey(item.0).value != (sid, lid) ==>
            (sid in pd'.entries && lid in pd'.entries[sid].entries <==> sid in pd.entries && lid in pd.entries[sid].entries)
            && (sid in pd.entries && lid in pd.entries[sid].entries ==> pd'.entries[sid].entries[lid] == pd.entries[sid].entries[lid]))
  {
    var (s, l) := SoilKey(item.0).value;
    var pd' := AddLayer(v, pd, item, parseFloat).value;
    if s != sid {
      assert sid in pd'.entries <==> sid in pd.entries;
      if sid in pd.entries {
        assert pd'.entries[sid] == pd.entries[sid];
      }
    }
  }

  /** A soil has a layer exactly when some row names that soil and layer,
      and the layer is the one the last such row describes. */
  lemma {:induction false} ProfilesDictLayers(v: Variant, items: seq<(Key, Row)>, parseFloat: string -> Option<real>,
                                              sid: Cell, lid: int)
    requires ProfilesDict(v, items, parseFloat).Ok?
    ensures var pd := ProfilesDict(v, items, parseFloat).value;
      var i := LastItemFor(items, sid, lid);
      && (sid in pd.entries && lid in pd.entries[sid].entries <==> i >= 0)
      && (i >= 0 ==> LayerOf(v, items[i].1, parseFloat) == Ok(pd.entries[sid].entries[lid]))
  {
    if items != [] {
      var init := items[..|items| - 1];
      ProfilesDictStep(v, items, parseFloat, sid, lid);
      ProfilesDictLayers(v, init, parseFloat, sid, lid);
      AddLayerEffect(v, ProfilesDict(v, init, parseFloat).value, items[|items| - 1], parseFloat, sid, lid);
    }
  }

  /** The dict of all rows is the dict of all but the last with the last
      row added, and the last row for a layer is the final row or an
      earlier one. */
  lemma {:induction false} ProfilesDictStep(v: Variant, items: seq<(Key, Row)>, parseFloat: string -> Option<real>, sid: Cell, lid: int)
    requires items != [] && ProfilesDict(v, items, parseFloat).Ok?
    ensures var init := items[..|items| - 1];
      && ProfilesDict(v, init, parseFloat).Ok?
      && ProfilesDict(v, items, parseFloat) == AddLayer(v, ProfilesDict(v, init, parseFloat).value, items[|items| - 1], parseFloat)
      && LastItemFor(items, sid, lid) ==
           (if SoilKey(items[|items| - 1].0) == Ok((sid, lid)) then |items| - 1 else LastItemFor(init, sid, lid))
      && (LastItemFor(init, sid, lid) >= 0 ==> items[LastItemFor(init, sid, lid)] == init[LastItemFor(init, sid, lid)])
  {
  }

  /** `sorted(layers_dict.keys())` */
  function SortedIds(layers: Layers): seq<int>
  {
    SortInts(layers.keys)
  }

  /** The layers stored under `ids`, in the order of `ids`. */
  function Gather(ids: seq<int>, entries: map<int, Layer>): (p: seq<Layer>)
    ensures |p| <= |ids|
  {
    if ids == [] then []
    else Gather(ids[..|ids| - 1], entries) + (if ids[|ids| - 1] in entries then [entries[ids[|ids| - 1]]] else [])
  }

  lemma {:induction false} GatherAll(ids: seq<int>, entries: map<int, Layer>)
    requires forall i :: 0 <= i < |ids| ==> ids[i] in entries
    ensures |Gather(ids, entries)| == |ids|
    ensures forall i :: 0 <= i < |ids| ==> Gather(ids, entries)[i] == entries[ids[i]]
  {
    if ids != [] {
      GatherAll(ids[..|ids| - 1], entries);
    }
  }

  /** `soil_profiles[soil_id]` after the sorting loop. */
  function Profile(layers: Layers): seq<Layer>
  {
    Gather(SortedIds(layers), layers.entries)
  }

  /** A profile holds every layer of its soil once, in strictly ascending
      layer-id order. */
  lemma {:induction false} ProfileAscending(layers: Layers)
    requires layers.Valid()
    ensures var ids := SortedIds(layers);
      && IntAscending(ids)
      && multiset(ids) == multiset(layers.keys)
      && |ids| == |layers.keys| && |Profile(layers)| == |ids|
      && forall i :: 0 <= i < |ids| ==> ids[i] in layers.entries && Profile(layers)[i] == layers.entries[ids[i]]
  {
    SortIntsAscending(layers.keys);
    var ids := SortedIds(layers);
    assert |ids| == |multiset(ids)| == |multiset(layers.keys)| == |layers.keys|;
    assert forall i :: 0 <= i < |ids| ==> ids[i] in multiset(layers.keys);
    GatherAll(ids, layers.entries);
  }

  /** `soil_profiles`, a `defaultdict(list)` */
  function SoilProfiles(pd: Dict<Cell, Layers>): map<Cell, seq<Layer>>
  {
    map sid | sid in pd.entries :: Profile(pd.entries[sid])
  }

  /** `soil_profiles[soil_id]`: a soil without rows has the empty profile. */
  function ProfileFor(profiles: map<Cell, seq<Layer>>, sid: Cell): seq<Layer>
  {
    if sid in profiles then profiles[sid] else []
  }

  /** Layer i of a soil's profile is the layer with the i-th smallest id
      among that soil's rows, built from the last row for that id; a soil
      with no rows has an empty profile. */
  lemma {:induction false} ProfileFromRows(v: Variant, items: seq<(Key, Row)>, parseFloat: string -> Option<real>, sid: Cell, i: nat)
    requires ProfilesDict(v, items, parseFloat).Ok?
    ensures ProfilesValid(ProfilesDict(v, items, parseFloat).value)
    ensures var pd := ProfilesDict(v, items, parseFloat).value;
      var p := ProfileFor(SoilProfiles(pd), sid);
      && (sid !in pd.entries ==> p == [])
      && (sid in pd.entries && i < |p| ==>
            var lid := SortedIds(pd.entries[sid])[i];
            LastItemFor(items, sid, lid) >= 0 && LayerOf(v, items[LastItemFor(items, sid, lid)].1, parseFloat) == Ok(p[i]))
  {
    ProfilesDictValid(v, items, parseFloat);
    var pd := ProfilesDict(v, items, parseFloat).value;
    if sid in pd.entries && i < |ProfileFor(SoilProfiles(pd), sid)| {
      ProfileAscending(pd.entries[sid]);
      ProfilesDictLayers(v, items, parseFloat, sid, SortedIds(pd.entries[sid])[i]);
    }
  }

  // ---------------------------------------------------------------------------
  // The environments

  /** The customId of an environment, without its env_id. */
  datatype CustomId = CustomId(location: Cell, soil: Cell, lai: string, aw: string, layerThickness: real,
                               profileLTs: seq<real>)

  /** What the model run of one treatment is given: the soil profile,
      Latitude, pathToClimateCSV, PlantAvailableWaterContentConst (set only by
      the sensitivity script), customData and customId. */
  datatype Job = Job(profile: seq<Layer>, latitude: real, climatePath: string, awcConst: Option<real>,
                     customData: map<string, real>, customId: CustomId)

  /** The inputs that stay the same over all treatments. */
  datatype Setting = Setting(soilMeta: Dict<Key, Row>, weatherMeta: Dict<Key, Row>, climateDir: string,
                             layerThickness: real, parseFloat: string -> Option<real>)

  /** `csv[id][col]` on a table read with a single key, then `float()`. */
  function MetaFloat(table: Dict<Key, Row>, id: Cell, col: string, parseFloat: string -> Option<real>): Result<real>
  {
    if Single(id) in table.entries then Float(table.entries[Single(id)], col, parseFloat) else Err(MissingKey)
  }

  /** `"profileLTs": list(map(lambda layer: layer["Thickness"][0], soil_profile))` */
  function Thicknesses(profile: seq<Layer>): (lts: seq<real>)
    ensures |lts| == |profile|
  {
    if profile == [] then [] else Thicknesses(profile[..|profile| - 1]) + [profile[|profile| - 1].thickness]
  }

  lemma {:induction false} ThicknessesAt(profile: seq<Layer>, i: nat)
    requires i < |profile|
    ensures Thicknesses(profile)[i] == profile[i].thickness
  {
    if i < |profile| - 1 {
      ThicknessesAt(profile[..|profile| - 1], i);
    }
  }

  /** The customData columns of each script, in the order they are read. */
  function CustomDataColumns(v: Variant): seq<string>
  {
    match v
    case Baseline => ["LAI", "AWC", "CAWD", "IRVAL", "MLTHK", "SALB", "SABDM", "XLAT", "XLONG", "TAMP", "TAV"]
    case Sensitivity => ["LAI", "AWC", "CWAD", "IRVAL", "MLTHK", "SALB", "SLDP", "SABDM", "XLAT", "XLONG", "TAMP", "TAV"]
  }

  /** Where a customData column comes from: the treatment row, the soil
      metadata row or the weather-station row, and under which column. */
  function ColumnValue(v: Variant, col: string, t: Row, sid: Cell, wid: Cell, s: Setting, awc: Option<real>): Result<real>
  {
    if col == "LAI" then Float(t, "LAID", s.parseFloat)
    else if col == "AWC" && awc.Some? then Ok(awc.value)
    else if col in {"AWC", "CAWD", "CWAD", "IRVAL", "MLTHK"} then Float(t, col, s.parseFloat)
    else if col in {"SALB", "SABDM", "SLDP"} then MetaFloat(s.soilMeta, sid, col, s.parseFloat)
    else MetaFloat(s.weatherMeta, wid, col, s.parseFloat)
  }

  /** The customData dict over the first n of the given columns, read in order. */
  function CustomDataOf(v: Variant, cols: seq<string>, n: nat, t: Row, sid: Cell, wid: Cell, s: Setting, awc: Option<real>)
    : (r: Result<map<string, real>>)
    requires n <= |cols|
    ensures r.Ok? ==> forall i :: 0 <= i < n ==> cols[i] in r.value
  {
    if n == 0 then Ok(map[])
    else
      var cd :- CustomDataOf(v, cols, n - 1, t, sid, wid, s, awc);
      var x :- ColumnValue(v, cols[n - 1], t, sid, wid, s, awc);
      Ok(cd[cols[n - 1] := x])
  }

  /** The body of the treatment loop (run-producer.py:148-180,
      soil_temperature_sensitivity_analysis/run-producer.py:136-178). */
  function TreatmentJob(v: Variant, t: Row, profiles: map<Cell, seq<Layer>>, s: Setting): Result<Job>
  {
    var sid :- Lookup(t, "SOIL_ID");
    var wid :- Lookup(t, "WST_ID");
    var profile := ProfileFor(profiles, sid);
    var latitude :- MetaFloat(s.weatherMeta, wid, "XLAT", s.parseFloat);
    var dataset :- Lookup(t, "WST_DATASET");
    var path := s.climateDir + "/" + CellText(dataset) + ".WTH";
    var awc :- if v == Sensitivity then (var a :- Float(t, "AWC", s.parseFloat); Ok(Some(a))) else Ok(None);
    var cd :- CustomDataOf(v, CustomDataColumns(v), |CustomDataColumns(v)|, t, sid, wid, s, awc);
    var laid :- Lookup(t, "LAID");
    var aw :- Lookup(t, "AWC");
    Ok(Job(profile, latitude, path, awc, cd,
           CustomId(wid, sid, "L" + CellText(laid), "AW" + CellText(aw), s.layerThickness, Thicknesses(profile))))
  }

  /** No column is written twice. */
  lemma {:induction false} ColumnsDistinct(v: Variant)
    ensures Distinct(CustomDataColumns(v))
  {
  }

  /** One more column: the dict over n columns is the dict over n - 1 with
      the n-th column's value added. */
  lemma {:induction false} CustomDataStep(v: Variant, cols: seq<string>, n: nat, t: Row, sid: Cell, wid: Cell, s: Setting, awc: Option<real>)
    requires 0 < n <= |cols|
    requires CustomDataOf(v, cols, n, t, sid, wid, s, awc).Ok?
    ensures CustomDataOf(v, cols, n - 1, t, sid, wid, s, awc).Ok?
    ensures ColumnValue(v, cols[n - 1], t, sid, wid, s, awc).Ok?
    ensures CustomDataOf(v, cols, n, t, sid, wid, s, awc).value ==
      CustomDataOf(v, cols, n - 1, t, sid, wid, s, awc).value[cols[n - 1] := ColumnValue(v, cols[n - 1], t, sid, wid, s, awc).value]
  {
  }

  /** The dict over n columns has exactly those columns as keys. */
  lemma {:induction false} CustomDataKeys(v: Variant, cols: seq<string>, n: nat, t: Row, sid: Cell, wid: Cell, s: Setting,
                                          awc: Option<real>)
    requires n <= |cols| && CustomDataOf(v, cols, n, t, sid, wid, s, awc).Ok?
    ensures forall c :: c in CustomDataOf(v, cols, n, t, sid, wid, s, awc).value <==> c in cols[..n]
    decreases n
  {
    if n > 0 {
      CustomDataStep(v, cols, n, t, sid, wid, s, awc);
      CustomDataKeys(v, cols, n - 1, t, sid, wid, s, awc);
      TakeSnoc(cols, n);
    }
  }

  /** The finished dict has exactly the given columns as keys. */
  lemma {:induction false} CustomDataKeySet(v: Variant, cols: seq<string>, t: Row, sid: Cell, wid: Cell, s: Setting, awc: Option<real>)
    requires CustomDataOf(v, cols, |cols|, t, sid, wid, s, awc).Ok?
    ensures CustomDataOf(v, cols, |cols|, t, sid, wid, s, awc).value.Keys == set c | c in cols
  {
    CustomDataKeys(v, cols, |cols|, t, sid, wid, s, awc);
    assert cols[..|cols|] == cols;
  }

  /** The value of a column in the finished dict, when no column is read twice. */
  lemma {:induction false} CustomDataAt(v: Variant, cols: seq<string>, n: nat, t: Row, sid: Cell, wid: Cell, s: Setting,
                                        awc: Option<real>, k: nat)
    requires n <= |cols| && k < n && Distinct(cols)
    requires CustomDataOf(v, cols, n, t, sid, wid, s, awc).Ok?
    ensures ColumnValue(v, cols[k], t, sid, wid, s, awc) == Ok(CustomDataOf(v, cols, n, t, sid, wid, s, awc).value[cols[k]])
  {
    CustomDataStep(v, cols, n, t, sid, wid, s, awc);
    if k < n - 1 {
      CustomDataAt(v, cols, n - 1, t, sid, wid, s, awc, k);
      var before := CustomDataOf(v, cols, n - 1, t, sid, wid, s, awc).value;
      var x := ColumnValue(v, cols[n - 1], t, sid, wid, s, awc).value;
      assert cols[k] != cols[n - 1];
      assert before[cols[n - 1] := x][cols[k]] == before[cols[k]];
    }
  }

  /** The identity fields of an environment: soil, station, climate path,
      tags, profile and its thicknesses. */
  lemma {:induction false} TreatmentJobIds(v: Variant, t: Row, profiles: map<Cell, seq<Layer>>, s: Setting)
    requires TreatmentJob(v, t, profiles, s).Ok?
    ensures var job := TreatmentJob(v, t, profiles, s).value;
      && "SOIL_ID" in t && "WST_ID" in t && "WST_DATASET" in t && "LAID" in t && "AWC" in t
      && job.profile == ProfileFor(profiles, t["SOIL_ID"])
      && job.customId.soil == t["SOIL_ID"] && job.customId.location == t["WST_ID"]
      && job.climatePath == s.climateDir + "/" + CellText(t["WST_DATASET"]) + ".WTH"
      && job.customId.lai == "L" + CellText(t["LAID"])
      && job.customId.aw == "AW" + CellText(t["AWC"])
      && job.customId.layerThickness == s.layerThickness
      && job.customId.profileLTs == Thicknesses(job.profile)
      && MetaFloat(s.weatherMeta, t["WST_ID"], "XLAT", s.parseFloat) == Ok(job.latitude)
  {
  }

  /** The customData dict of an environment and its AWC value. */
  lemma {:induction false} TreatmentJobData(v: Variant, t: Row, profiles: map<Cell, seq<Layer>>, s: Setting)
    requires TreatmentJob(v, t, profiles, s).Ok?
    ensures "SOIL_ID" in t && "WST_ID" in t
    ensures var job := TreatmentJob(v, t, profiles, s).value;
      && CustomDataOf(v, CustomDataColumns(v), |CustomDataColumns(v)|, t, t["SOIL_ID"], t["WST_ID"], s, job.awcConst) == Ok(job.customData)
      && (v == Sensitivity <==> job.awcConst.Some?)
      && (v == Sensitivity ==> Float(t, "AWC", s.parseFloat) == Ok(job.awcConst.value))
  {
    var job := TreatmentJob(v, t, profiles, s).value;
    var sid, wid := Lookup(t, "SOIL_ID"), Lookup(t, "WST_ID");
    assert sid.Ok? && wid.Ok?;
    var awc := if v == Sensitivity then (var a :- Float(t, "AWC", s.parseFloat); Ok(Some(a))) else Ok(None);
    assert awc.Ok? && job.awcConst == awc.value;
    var cd := CustomDataOf(v, CustomDataColumns(v), |CustomDataColumns(v)|, t, sid.value, wid.value, s, awc.value);
    assert cd.Ok? && job.customData == cd.value;
  }

  /** What an environment carries: the soil's sorted profile (empty for a
      soil without rows), the climate file of the station's dataset, the
      "L"/"AW" tags, profileLTs equal to the profile's thicknesses, and the
      AWC value: in the sensitivity script one value in both
      PlantAvailableWaterContentConst and customData. */
  lemma {:induction false} TreatmentJobFields(v: Variant, t: Row, profiles: map<Cell, seq<Layer>>, s: Setting)
    requires TreatmentJob(v, t, profiles, s).Ok?
    ensures var job := TreatmentJob(v, t, profiles, s).value;
      && "SOIL_ID" in t && "WST_ID" in t && "WST_DATASET" in t && "LAID" in t && "AWC" in t
      && job.profile == ProfileFor(profiles, t["SOIL_ID"])
      && job.customId.soil == t["SOIL_ID"] && job.customId.location == t["WST_ID"]
      && job.climatePath == s.climateDir + "/" + CellText(t["WST_DATASET"]) + ".WTH"
      && job.customId.lai == "L" + CellText(t["LAID"])
      && job.customId.aw == "AW" + CellText(t["AWC"])
      && job.customId.layerThickness == s.layerThickness
      && |job.customId.profileLTs| == |job.profile|
      && (forall i :: 0 <= i < |job.profile| ==> job.customId.profileLTs[i] == job.profile[i].thickness)
      && MetaFloat(s.weatherMeta, t["WST_ID"], "XLAT", s.parseFloat) == Ok(job.latitude)
      && job.customData.Keys == set c | c in CustomDataColumns(v)
      && "AWC" in job.customData && Float(t, "AWC", s.parseFloat) == Ok(job.customData["AWC"])
      && (v == Sensitivity <==> job.awcConst.Some?)
      && (v == Sensitivity ==> job.awcConst == Some(job.customData["AWC"]))
  {
    TreatmentJobIds(v, t, profiles, s);
    TreatmentJobData(v, t, profiles, s);
    var job := TreatmentJob(v, t, profiles, s).value;
    forall i | 0 <= i < |job.profile|
      ensures job.customId.profileLTs[i] == job.profile[i].thickness
    {
      ThicknessesAt(job.profile, i);
    }
    CustomDataAwc(v, t, t["SOIL_ID"], t["WST_ID"], s, job.awcConst);
  }

  /** The finished customData dict has exactly the script's columns, and its
      AWC entry is the given constant or else the treatment's AWC. */
  lemma {:induction false} CustomDataAwc(v: Variant, t: Row, sid: Cell, wid: Cell, s: Setting, awc: Option<real>)
    requires CustomDataOf(v, CustomDataColumns(v), |CustomDataColumns(v)|, t, sid, wid, s, awc).Ok?
    ensures var cd := CustomDataOf(v, CustomDataColumns(v), |CustomDataColumns(v)|, t, sid, wid, s, awc).value;
      && cd.Keys == (set c | c in CustomDataColumns(v))
      && "AWC" in cd
      && (awc.Some? ==> cd["AWC"] == awc.value)
      && (awc.None? ==> Float(t, "AWC", s.parseFloat) == Ok(cd["AWC"]))
  {
    var cols := CustomDataColumns(v);
    assert cols[1] == "AWC";
    CustomDataKeySet(v, cols, t, sid, wid, s, awc);
    ColumnsDistinct(v);
    CustomDataAt(v, cols, |cols|, t, sid, wid, s, awc, 1);
  }

  /** A treatment whose soil id has no soil-data rows is still sent, with an
      empty profile; a treatment whose station is not in the weather
      metadata stops the run with KeyError. */
  lemma {:induction false} TreatmentJobLookups(v: Variant, t: Row, profiles: map<Cell, seq<Layer>>, s: Setting)
    requires "SOIL_ID" in t && "WST_ID" in t
    ensures Single(t["WST_ID"]) !in s.weatherMeta.entries ==> TreatmentJob(v, t, profiles, s) == Err(MissingKey)
    ensures TreatmentJob(v, t, profiles, s).Ok? && t["SOIL_ID"] !in profiles ==>
      TreatmentJob(v, t, profiles, s).value.profile == [] && TreatmentJob(v, t, profiles, s).value.customId.profileLTs == []
  {
  }

  // ---------------------------------------------------------------------------
  // The run

  function TreatmentStep(v: Variant, profiles: map<Cell, seq<Layer>>, s: Setting): Row -> Outcome<Job>
  {
    (t: Row) => match TreatmentJob(v, t, profiles, s)
      case Ok(job) => Done([job])
      case Err(e) => Outcome([], Some(e))
  }

  /** The treatment rows, in table order. */
  function Rows(treatments: Dict<Key, Row>): (rows: seq<Row>)
    requires treatments.Valid()
    ensures |rows| == |treatments.keys|
  {
    seq(|treatments.keys|, i requires 0 <= i < |treatments.keys| => treatments.entries[treatments.keys[i]])
  }

  /** A whole run: the profiles are built first, then every treatment is sent. */
  function ProducerRun(v: Variant, soilData: Dict<Key, Row>, treatments: Dict<Key, Row>, s: Setting): Outcome<Job>
    requires soilData.Valid() && treatments.Valid()
  {
    match ProfilesDict(v, Items(soilData), s.parseFloat)
    case Err(e) => Outcome([], Some(e))
    case Ok(pd) => Sequenced(Rows(treatments), TreatmentStep(v, SoilProfiles(pd), s))
  }

  /** A loop whose every iteration sends one job sends one job per item,
      in order. */
  lemma {:induction false} SequencedSingles<T, J>(xs: seq<T>, f: T -> Outcome<J>)
    requires forall x :: x in xs ==> f(x).crash.None? && |f(x).jobs| == 1
    ensures Sequenced(xs, f).crash.None? && |Sequenced(xs, f).jobs| == |xs|
    ensures forall i :: 0 <= i < |xs| ==> Sequenced(xs, f).jobs[i] == f(xs[i]).jobs[0]
  {
    if xs != [] {
      var init := xs[..|xs| - 1];
      assert forall x :: x in init ==> x in xs;
      assert xs[|xs| - 1] in xs;
      SequencedSingles(init, f);
      forall i | 0 <= i < |init|
        ensures Sequenced(xs, f).jobs[i] == f(xs[i]).jobs[0]
      {
        assert xs[i] == init[i];
      }
    }
  }

  /** A run completes exactly when the soil data parses and every treatment
      yields its environment. */
  lemma {:induction false} RunCompletes(v: Variant, soilData: Dict<Key, Row>, treatments: Dict<Key, Row>, s: Setting)
    requires soilData.Valid() && treatments.Valid()
    ensures ProducerRun(v, soilData, treatments, s).crash.None? <==>
      && ProfilesDict(v, Items(soilData), s.parseFloat).Ok?
      && forall i :: 0 <= i < |treatments.keys| ==>
           TreatmentJob(v, Rows(treatments)[i], SoilProfiles(ProfilesDict(v, Items(soilData), s.parseFloat).value), s).Ok?
  {
    var pdr := ProfilesDict(v, Items(soilData), s.parseFloat);
    if pdr.Ok? {
      SequencedCompletes(Rows(treatments), TreatmentStep(v, SoilProfiles(pdr.value), s));
    }
  }

  /** A completed run sends one environment per treatment row, the i-th
      built from row i with env_id i + 1, and closes with no_of_sent_envs
      equal to the number of treatments. */
  lemma {:induction false} OneJobPerTreatment(v: Variant, soilData: Dict<Key, Row>, treatments: Dict<Key, Row>, s: Setting)
    requires soilData.Valid() && treatments.Valid()
    requires ProducerRun(v, soilData, treatments, s).crash.None?
    ensures var o := ProducerRun(v, soilData, treatments, s);
      var profiles := SoilProfiles(ProfilesDict(v, Items(soilData), s.parseFloat).value);
      && |o.jobs| == |treatments.keys|
      && (forall i :: 0 <= i < |o.jobs| ==> TreatmentJob(v, Rows(treatments)[i], profiles, s) == Ok(o.jobs[i]))
      && Sent(o) == Numbered(o.jobs) + [SentCount(|treatments.keys|)]
  {
    var pd := ProfilesDict(v, Items(soilData), s.parseFloat).value;
    TreatmentsSent(v, Rows(treatments), SoilProfiles(pd), s);
  }

  /** A treatment loop that completes sends, for each row in order, the
      environment built from that row. */
  lemma {:induction false} TreatmentsSent(v: Variant, rows: seq<Row>, profiles: map<Cell, seq<Layer>>, s: Setting)
    requires Sequenced(rows, TreatmentStep(v, profiles, s)).crash.None?
    ensures var jobs := Sequenced(rows, TreatmentStep(v, profiles, s)).jobs;
      && |jobs| == |rows|
      && forall i :: 0 <= i < |rows| ==> TreatmentJob(v, rows[i], profiles, s) == Ok(jobs[i])
  {
    var f := TreatmentStep(v, profiles, s);
    SequencedCompletes(rows, f);
    forall x | x in rows
      ensures f(x).crash.None? && |f(x).jobs| == 1
    {
      var i :| 0 <= i < |rows| && rows[i] == x;
    }
    SequencedSingles(rows, f);
  }

  // ---------------------------------------------------------------------------
  // The producer's loops

  /** The loop filling `soil_profiles_dict` (run-producer.py:109-120). */
  method BuildProfilesDict(v: Variant, items: seq<(Key, Row)>, parseFloat: string -> Option<real>)
    returns (r: Result<Dict<Cell, Layers>>)
    ensures r == ProfilesDict(v, items, parseFloat)
  {
    var pd: Dict<Cell, Layers> := EmptyDict();
    var k := 0;
    while k < |items|
      invariant k <= |items|
      invariant ProfilesDict(v, items[..k], parseFloat) == Ok(pd)
    {
      var next := AddProfileLayer(v, items, parseFloat, k, pd);
      if next.Err? {
        ProfilesDictFailureSticks(v, items, parseFloat, k + 1, next.error);
        return Err(next.error);
      }
      pd := next.value;
      k := k + 1;
    }
    assert items[..k] == items;
    r := Ok(pd);
  }

  /** One iteration of the row loop: row k's layer added to its profile. */
  method AddProfileLayer(v: Variant, items: seq<(Key, Row)>, parseFloat: string -> Option<real>, k: nat,
                         pd: Dict<Cell, Layers>) returns (r: Result<Dict<Cell, Layers>>)
    requires k < |items| && ProfilesDict(v, items[..k], parseFloat) == Ok(pd)
    ensures r == ProfilesDict(v, items[..k + 1], parseFloat)
  {
    ProfilesDictSnoc(v, items, parseFloat, k);
    r := AddLayer(v, pd, items[k], parseFloat);
  }

  lemma {:induction false} ProfilesDictSnoc(v: Variant, items: seq<(Key, Row)>, parseFloat: string -> Option<real>, k: nat)
    requires k < |items| && ProfilesDict(v, items[..k], parseFloat).Ok?
    ensures ProfilesDict(v, items[..k + 1], parseFloat) == AddLayer(v, ProfilesDict(v, items[..k], parseFloat).value, items[k], parseFloat)
  {
    assert items[..k + 1][..k] == items[..k];
  }

  lemma {:induction false} ProfilesDictFailureSticks(v: Variant, items: seq<(Key, Row)>, parseFloat: string -> Option<real>,
                                                     k: nat, e: Error)
    requires k <= |items| && ProfilesDict(v, items[..k], parseFloat) == Err(e)
    ensures ProfilesDict(v, items, parseFloat) == Err(e)
    decreases |items| - k
  {
    if k < |items| {
      assert items[..k + 1][..k] == items[..k];
      ProfilesDictFailureSticks(v, items, parseFloat, k + 1, e);
    } else {
      assert items[..k] == items;
    }
  }

  /** The inner loop `for lid in sorted(...)`: appends the layers in order. */
  method AppendSorted(layers: Layers) returns (profile: seq<Layer>)
    requires layers.Valid()
    ensures profile == Profile(layers)
  {
    var ids := SortedIds(layers);
    SortedIdsStored(layers);
    profile := [];
    var i: nat := 0;
    while i < |ids|
      invariant i <= |ids| && profile == Gather(ids[..i], layers.entries)
    {
      var next := i + 1;
      GatherStep(ids, layers.entries, i, next);
      profile, i := profile + [layers.entries[ids[i]]], next;
    }
    assert ids[..i] == ids;
  }

  /** Every sorted id names a stored layer. */
  lemma {:induction false} SortedIdsStored(layers: Layers)
    requires layers.Valid()
    ensures forall i :: 0 <= i < |SortedIds(layers)| ==> SortedIds(layers)[i] in layers.entries
  {
    ProfileAscending(layers);
  }

  /** Gathering one more stored id appends its layer. */
  lemma {:induction false} GatherStep(ids: seq<int>, entries: map<int, Layer>, i: nat, next: nat)
    requires i < |ids| && next == i + 1 && ids[i] in entries
    ensures Gather(ids[..next], entries) == Gather(ids[..i], entries) + [entries[ids[i]]]
  {
    assert ids[..next][..i] == ids[..i];
  }

  /** The loop filling `soil_profiles` (run-producer.py:121-124). */
  method BuildProfiles(pd: Dict<Cell, Layers>) returns (profiles: map<Cell, seq<Layer>>)
    requires ProfilesValid(pd)
    ensures profiles == SoilProfiles(pd)
  {
    profiles := map[];
    var k := 0;
    while k < |pd.keys|
      invariant k <= |pd.keys|
      invariant forall j :: 0 <= j < k ==> pd.keys[j] in profiles
      invariant forall sid :: sid in profiles ==> sid in pd.entries && profiles[sid] == Profile(pd.entries[sid])
    {
      var sid := pd.keys[k];
      KeyedLayers(pd, k);
      var p := AppendSorted(pd.entries[sid]);
      profiles := profiles[sid := p];
      k := k + 1;
    }
    ProfilesComplete(pd, profiles);
  }

  lemma {:induction false} KeyedLayers(pd: Dict<Cell, Layers>, k: nat)
    requires ProfilesValid(pd) && k < |pd.keys|
    ensures pd.keys[k] in pd.entries && pd.entries[pd.keys[k]].Valid()
  {
  }

  /** A map holding every key of the dict, each with its sorted profile, is
      `SoilProfiles`. */
  lemma {:induction false} ProfilesComplete(pd: Dict<Cell, Layers>, profiles: map<Cell, seq<Layer>>)
    requires pd.Valid()
    requires forall j :: 0 <= j < |pd.keys| ==> pd.keys[j] in profiles
    requires forall sid :: sid in profiles ==> sid in pd.entries && profiles[sid] == Profile(pd.entries[sid])
    ensures profiles == SoilProfiles(pd)
  {
    forall sid | sid in pd.entries
      ensures sid in profiles
    {
      var j :| 0 <= j < |pd.keys| && pd.keys[j] == sid;
    }
  }

  /** `run_producer`: builds the profiles, sends one environment per
      treatment with env_id = sent_env_count + 1, then the closing message
      (run-producer.py:109-191,
      soil_temperature_sensitivity_analysis/run-producer.py:95-191). */
  method RunProducer(v: Variant, soilData: Dict<Key, Row>, treatments: Dict<Key, Row>, s: Setting)
    returns (sent: seq<Message<Job>>)
    requires soilData.Valid() && treatments.Valid()
    ensures sent == Sent(ProducerRun(v, soilData, treatments, s))
  {
    var pdr := BuildProfilesDict(v, Items(soilData), s.parseFloat);
    if pdr.Err? {
      return [];
    }
    ProfilesDictValid(v, Items(soilData), s.parseFloat);
    var profiles := BuildProfiles(pdr.value);
    sent := SendTreatments(v, Rows(treatments), profiles, s);
  }

  /** The treatment loop and the closing message (run-producer.py:143-191). */
  method SendTreatments(v: Variant, rows: seq<Row>, profiles: map<Cell, seq<Layer>>, s: Setting)
    returns (sent: seq<Message<Job>>)
    ensures sent == Sent(Sequenced(rows, TreatmentStep(v, profiles, s)))
  {
    ghost var f := TreatmentStep(v, profiles, s);
    ghost var jobs: seq<Job> := [];
    sent := [];
    var sentEnvCount := 0;
    var k := 0;
    while k < |rows|
      invariant k <= |rows|
      invariant Sequenced(rows[..k], f) == Done(jobs)
      invariant sent == Numbered(jobs) && sentEnvCount == |jobs|
    {
      var job := TreatmentJob(v, rows[k], profiles, s);
      if job.Err? {
        CrashEndsLoop(rows, f, k, jobs);
        assert jobs + [] == jobs;
        return sent;
      }
      SequencedStep(rows, f, k, jobs);
      sent, sentEnvCount := Send(sent, sentEnvCount, jobs, job.value);
      jobs := jobs + [job.value];
      k := k + 1;
    }
    assert rows[..k] == rows;
    sent := sent + [SentCount(sentEnvCount)];
  }
}
