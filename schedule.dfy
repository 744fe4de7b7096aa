/** Management-schedule assembly of the Maricopa wheat FACE producer
    (maricopa_wheat_face/run-producer.py, lines 382-423).

    For one plot, the fertilizer and irrigation events of its treatment are
    grouped by their ISO date string, the dates are visited in ascending
    order, and each event becomes a workstep that is inserted into a list that
    starts as [sowing, harvest]. A fertilizer "Applied in irrigation water"
    yields no workstep of its own: its amount becomes the nitrate load of the
    irrigations on the same date. */
module Schedule {
  import opened Common

  /** The FEACD value that marks nitrate carried by irrigation water. */
  const IrrigationWaterMarker := "Applied in irrigation water"

  /** A row of the Fertilizer_events sheet (FENO3 and FENH4 are read but
      never used by the assembly, so they are not carried). */
  datatype FertilizerEvent = FertilizerEvent(fedate: string, feacd: string, fedep: int, fecd: string, feamn: real)

  /** A row of the Irrigation_events sheet (IROP and IRNPC are not used). */
  datatype IrrigationEvent = IrrigationEvent(idate: string, iradp: int, irval: real)

  /** An entry of `irr_fert_evs`; the source tells the kinds apart by the
      presence of the key "FEDATE" or "IDATE". */
  datatype Event = Fert(f: FertilizerEvent) | Irr(i: IrrigationEvent)

  function DateOf(e: Event): string
  {
    match e
    case Fert(f) => f.fedate
    case Irr(i) => i.idate
  }

  predicate IsMarker(f: FertilizerEvent)
  {
    f.feacd == IrrigationWaterMarker
  }

  datatype Partition = Partition(carbamid: real, nh4: real, no3: real, name: string)

  /** A workstep of the crop rotation. For an irrigation, `nitrateConcentration`
      is None when the source leaves the template's parameter untouched. */
  datatype Workstep =
    | Sowing(date: string)
    | Harvest(date: string)
    | MineralFertilization(date: string, amount: real, partition: Partition)
    | Irrigation(date: string, amount: real, atLayer: int, nitrateConcentration: Option<real>)

  /** The three list operations used: `insert(0, w)`, `append(w)` and
      `insert(-1, w)`. */
  datatype Placement = AtFront | AtEnd | BeforeLast

  datatype Insertion = Insertion(step: Workstep, at: Placement)

  // ---------------------------------------------------------------------------
  // List operations

  /** Python's `s.insert(-1, w)`: just before the current last element (at
      index 0 when the list is empty). */
  function InsertBeforeLast(s: seq<Workstep>, w: Workstep): (r: seq<Workstep>)
    ensures |r| == |s| + 1
    ensures |s| > 0 ==> r[|r| - 1] == s[|s| - 1] && r[|r| - 2] == w && r[..|s| - 1] == s[..|s| - 1]
  {
    if |s| == 0 then [w] else s[..|s| - 1] + [w] + [s[|s| - 1]]
  }

  function Place(s: seq<Workstep>, ins: Insertion): seq<Workstep>
  {
    match ins.at
    case AtFront => [ins.step] + s
    case AtEnd => s + [ins.step]
    case BeforeLast => InsertBeforeLast(s, ins.step)
  }

  /** The list after performing the insertions in order. */
  function ApplyAll(s: seq<Workstep>, inss: seq<Insertion>): seq<Workstep>
  {
    if inss == [] then s else Place(ApplyAll(s, inss[..|inss| - 1]), inss[|inss| - 1])
  }

  // ---------------------------------------------------------------------------
  // One event -> one workstep

  /** Fertilizer placement against the sowing and harvest dates captured
      before the loop (lines 391-392, 409-414). */
  function FertilizerPlacement(date: string, sowing: string, harvest: string): Placement
  {
    if StrLess(date, sowing) then AtFront
    else if StrLess(harvest, date) then AtEnd
    else BeforeLast
  }

  /** Lines 400-408: urea ("Carbamid") partition, named after FECD. */
  function FertilizerStep(f: FertilizerEvent): (w: Workstep)
    ensures w.MineralFertilization? && w.date == f.fedate && w.amount == f.feamn
    ensures w.partition == Partition(100.0, 0.0, 0.0, f.fecd)
  {
    MineralFertilization(f.fedate, f.feamn, Partition(100.0, 0.0, 0.0, f.fecd))
  }

  /** `if kg_n_per_ha_nitrate_in_irr_water:` is false for None and for 0.0. */
  predicate Truthy(pending: Option<real>)
  {
    pending.Some? && pending.value != 0.0
  }

  /** Lines 416-422. The layer size in cm is the first layer thickness (m)
      times 100; a zero thickness or, with a pending nitrate amount, a zero
      IRVAL raises ZeroDivisionError. */
  function IrrigationStep(e: IrrigationEvent, layerThicknessM: real, pending: Option<real>): (r: Result<Workstep>)
    ensures r.Ok? <==> layerThicknessM != 0.0 && (Truthy(pending) ==> e.irval != 0.0)
    ensures r.Err? ==> r.error == ZeroDivision
    ensures r.Ok? ==> r.value.Irrigation? && r.value.date == e.idate && r.value.amount == e.irval
    ensures r.Ok? ==> (r.value.nitrateConcentration.Some? <==> Truthy(pending))
    ensures r.Ok? && Truthy(pending) ==> r.value.nitrateConcentration.value * e.irval == pending.value * 100.0
    ensures r.Ok? && layerThicknessM > 0.0 && e.iradp >= 0 ==>
      r.value.atLayer as real * (layerThicknessM * 100.0) <= e.iradp as real < (r.value.atLayer + 1) as real * (layerThicknessM * 100.0)
  {
    var layerSizeCm := layerThicknessM * 100.0;
    if layerSizeCm == 0.0 then Err(ZeroDivision)
    else
      var atLayer := TruncateToInt(e.iradp as real / layerSizeCm);
      assert layerSizeCm > 0.0 && e.iradp >= 0 ==>
        atLayer as real * layerSizeCm <= e.iradp as real < (atLayer + 1) as real * layerSizeCm by {
        if layerSizeCm > 0.0 && e.iradp >= 0 {
          DepthWithinLayer(e.iradp as real, layerSizeCm, atLayer);
        }
      }
      if Truthy(pending) then
        if e.irval == 0.0 then Err(ZeroDivision)
        else Ok(Irrigation(e.idate, e.irval, atLayer, Some(pending.value * 100.0 / e.irval)))
      else Ok(Irrigation(e.idate, e.irval, atLayer, None))
  }

  /** Layer `n` of size `size` holds the depth when n <= depth / size < n + 1. */
  lemma {:induction false} DepthWithinLayer(depth: real, size: real, n: int)
    requires size > 0.0 && depth >= 0.0
    requires n as real <= depth / size < n as real + 1.0
    ensures n as real * size <= depth < (n + 1) as real * size
  {
    var q := depth / size;
    assert q * size == depth;
    var below := q - n as real;
    var above := n as real + 1.0 - q;
    assert below * size >= 0.0;
    assert above * size > 0.0;
    assert n as real * size == q * size - below * size;
    var next := (n + 1) as real;
    assert next == q + above;
    assert next * size == (q + above) * size == q * size + above * size;
    assert depth < next * size;
    assert depth < (n + 1) as real * size;
  }

  // ---------------------------------------------------------------------------
  // Specification of the loops

  function Prepend(xs: seq<Insertion>, r: Result<seq<Insertion>>): Result<seq<Insertion>>
  {
    match r
    case Ok(v) => Ok(xs + v)
    case Err(e) => Err(e)
  }

  predicate InSeason(date: string, sowing: string, harvest: string)
  {
    !StrLess(date, sowing) && !StrLess(harvest, date)
  }

  /** The insertions produced by the events of one date (lines 394-423),
      with the pending nitrate amount carried from event to event. */
  function DateInsertions(evs: seq<Event>, pending: Option<real>, sowing: string, harvest: string, layerThicknessM: real)
    : Result<seq<Insertion>>
  {
    if evs == [] then Ok([])
    else
      var rest := DateInsertions(evs[1..], if evs[0].Fert? && IsMarker(evs[0].f) then Some(evs[0].f.feamn) else pending,
                                 sowing, harvest, layerThicknessM);
      match evs[0]
      case Fert(f) =>
        if IsMarker(f) then rest
        else Prepend([Insertion(FertilizerStep(f), FertilizerPlacement(f.fedate, sowing, harvest))], rest)
      case Irr(e) =>
        match IrrigationStep(e, layerThicknessM, pending)
        case Err(err) => Err(err)
        case Ok(w) => Prepend([Insertion(w, BeforeLast)], rest)
  }

  /** The insertions of all dates, one event list per date, visited in the
      given order. */
  function ScheduleInsertions(days: seq<seq<Event>>, sowing: string, harvest: string, layerThicknessM: real)
    : Result<seq<Insertion>>
  {
    if days == [] then Ok([])
    else
      match DateInsertions(days[0], None, sowing, harvest, layerThicknessM)
      case Err(e) => Err(e)
      case Ok(first) => Prepend(first, ScheduleInsertions(days[1..], sowing, harvest, layerThicknessM))
  }

  /** The event lists of the given dates, in the order of the dates. */
  function DayGroups(dates: seq<string>, groups: map<string, seq<Event>>): (days: seq<seq<Event>>)
    requires forall k :: 0 <= k < |dates| ==> dates[k] in groups
    ensures |days| == |dates| && forall k :: 0 <= k < |dates| ==> days[k] == groups[dates[k]]
  {
    seq(|dates|, k requires 0 <= k < |dates| => groups[dates[k]])
  }

  function FertEvents(fs: seq<FertilizerEvent>): (evs: seq<Event>)
    ensures |evs| == |fs| && forall i :: 0 <= i < |fs| ==> evs[i] == Fert(fs[i])
  {
    seq(|fs|, i requires 0 <= i < |fs| => Fert(fs[i]))
  }

  function IrrEvents(irrs: seq<IrrigationEvent>): (evs: seq<Event>)
    ensures |evs| == |irrs| && forall j :: 0 <= j < |irrs| ==> evs[j] == Irr(irrs[j])
  {
    seq(|irrs|, j requires 0 <= j < |irrs| => Irr(irrs[j]))
  }

  /** The order in which `irr_fert_evs` is filled: fertilizers first, then
      irrigations. */
  function AsEvents(ferts: seq<FertilizerEvent>, irrs: seq<IrrigationEvent>): (evs: seq<Event>)
    ensures |evs| == |ferts| + |irrs|
    ensures forall i :: 0 <= i < |ferts| ==> evs[i] == Fert(ferts[i])
    ensures forall j :: 0 <= j < |irrs| ==> evs[|ferts| + j] == Irr(irrs[j])
  {
    FertEvents(ferts) + IrrEvents(irrs)
  }

  function GroupByDate(evs: seq<Event>): (g: Dict<string, seq<Event>>)
    ensures g.Valid()
  {
    if evs == [] then EmptyDict()
    else AppendAt(GroupByDate(evs[..|evs| - 1]), DateOf(evs[|evs| - 1]), evs[|evs| - 1])
  }

  /** `sorted(irr_fert_evs.keys())`: every date once, ascending. */
  function SortedDates(g: Dict<string, seq<Event>>): (dates: seq<string>)
    requires g.Valid()
    ensures StrAscending(dates) && multiset(dates) == multiset(g.keys)
    ensures forall k :: 0 <= k < |dates| ==> dates[k] in g.entries
  {
    SortStringsAscending(g.keys);
    var dates := SortStrings(g.keys);
    assert forall k :: 0 <= k < |dates| ==> dates[k] in g.entries by {
      forall k | 0 <= k < |dates| ensures dates[k] in g.entries {
        assert dates[k] in multiset(g.keys);
      }
    }
    dates
  }

  /** The whole schedule of one plot, starting from [sowing, harvest]. */
  function AssembledSchedule(ferts: seq<FertilizerEvent>, irrs: seq<IrrigationEvent>, sowing: string, harvest: string,
                             layerThicknessM: real): Result<seq<Workstep>>
  {
    ApplyResult([Sowing(sowing), Harvest(harvest)],
                ScheduleInsertions(DatedGroups(GroupByDate(AsEvents(ferts, irrs))), sowing, harvest, layerThicknessM))
  }

  /** The event lists of a grouping, in ascending date order. */
  function DatedGroups(g: Dict<string, seq<Event>>): seq<seq<Event>>
    requires g.Valid()
  {
    DayGroups(SortedDates(g), g.entries)
  }

  lemma {:induction false} ApplyAllConcat(s: seq<Workstep>, a: seq<Insertion>, b: seq<Insertion>)
    ensures ApplyAll(ApplyAll(s, a), b) == ApplyAll(s, a + b)
  {
    if b != [] {
      assert (a + b)[..|a + b| - 1] == a + b[..|b| - 1];
      ApplyAllConcat(s, a, b[..|b| - 1]);
    } else {
      assert a + b == a;
    }
  }

  lemma {:induction false} ApplyAllSnoc(s: seq<Workstep>, done: seq<Insertion>, ins: Insertion)
    ensures ApplyAll(s, done + [ins]) == Place(ApplyAll(s, done), ins)
  {
    assert (done + [ins])[..|done|] == done;
  }

  lemma {:induction false} GroupByDateSnoc(evs: seq<Event>, i: int)
    requires 0 <= i < |evs|
    ensures GroupByDate(evs[..i + 1]) == AppendAt(GroupByDate(evs[..i]), DateOf(evs[i]), evs[i])
  {
    assert evs[..i + 1][..i] == evs[..i];
  }

  lemma {:induction false} PrependAssoc(a: seq<Insertion>, b: seq<Insertion>, r: Result<seq<Insertion>>)
    ensures Prepend(a, Prepend(b, r)) == Prepend(a + b, r)
  {
    if r.Ok? {
      assert a + (b + r.value) == (a + b) + r.value;
    }
  }

  /** `ApplyAll` lifted over a result. */
  function ApplyResult(s: seq<Workstep>, r: Result<seq<Insertion>>): Result<seq<Workstep>>
  {
    match r
    case Ok(inss) => Ok(ApplyAll(s, inss))
    case Err(e) => Err(e)
  }

  // ---------------------------------------------------------------------------
  // The source loops

  /** Lines 383-384: each fertilizer event appended under its FEDATE. */
  method AddFertilizerEvents(g0: Dict<string, seq<Event>>, ghost before: seq<Event>, ferts: seq<FertilizerEvent>)
    returns (g: Dict<string, seq<Event>>)
    requires g0 == GroupByDate(before)
    ensures g == GroupByDate(before + FertEvents(ferts))
  {
    g := g0;
    assert (before + FertEvents(ferts))[..|before|] == before;
    var i := 0;
    while i < |ferts|
      invariant 0 <= i <= |ferts|
      invariant g == GroupByDate((before + FertEvents(ferts))[..|before| + i])
    {
      g, i := AddFertilizerEvent(g, before, ferts, i);
    }
    assert (before + FertEvents(ferts))[..|before| + i] == before + FertEvents(ferts);
  }

  /** Lines 385-386: each irrigation event appended under its IDATE. */
  method AddIrrigationEvents(g0: Dict<string, seq<Event>>, ghost before: seq<Event>, irrs: seq<IrrigationEvent>)
    returns (g: Dict<string, seq<Event>>)
    requires g0 == GroupByDate(before)
    ensures g == GroupByDate(before + IrrEvents(irrs))
  {
    g := g0;
    assert (before + IrrEvents(irrs))[..|before|] == before;
    var j := 0;
    while j < |irrs|
      invariant 0 <= j <= |irrs|
      invariant g == GroupByDate((before + IrrEvents(irrs))[..|before| + j])
    {
      g, j := AddIrrigationEvent(g, before, irrs, j);
    }
    assert (before + IrrEvents(irrs))[..|before| + j] == before + IrrEvents(irrs);
  }

  /** Line 384 for the i-th fertilizer event: appended under its FEDATE;
      `next` is the index of the event after it. */
  method AddFertilizerEvent(g0: Dict<string, seq<Event>>, ghost before: seq<Event>, ferts: seq<FertilizerEvent>, i: nat)
    returns (g: Dict<string, seq<Event>>, next: nat)
    requires i < |ferts|
    requires g0 == GroupByDate((before + FertEvents(ferts))[..|before| + i])
    ensures next == i + 1 && g == GroupByDate((before + FertEvents(ferts))[..|before| + next])
  {
    next := i + 1;
    FertEventStep(before, ferts, i, next);
    g := AppendAt(g0, ferts[i].fedate, Fert(ferts[i]));
  }

  /** Line 386 for the j-th irrigation event: appended under its IDATE;
      `next` is the index of the event after it. */
  method AddIrrigationEvent(g0: Dict<string, seq<Event>>, ghost before: seq<Event>, irrs: seq<IrrigationEvent>, j: nat)
    returns (g: Dict<string, seq<Event>>, next: nat)
    requires j < |irrs|
    requires g0 == GroupByDate((before + IrrEvents(irrs))[..|before| + j])
    ensures next == j + 1 && g == GroupByDate((before + IrrEvents(irrs))[..|before| + next])
  {
    next := j + 1;
    IrrEventStep(before, irrs, j, next);
    g := AppendAt(g0, irrs[j].idate, Irr(irrs[j]));
  }

  lemma {:induction false} FertEventStep(before: seq<Event>, ferts: seq<FertilizerEvent>, i: nat, next: nat)
    requires i < |ferts| && next == i + 1
    ensures var evs := before + FertEvents(ferts);
      GroupByDate(evs[..|before| + next]) == AppendAt(GroupByDate(evs[..|before| + i]), ferts[i].fedate, Fert(ferts[i]))
  {
    var evs := before + FertEvents(ferts);
    GroupByDateSnoc(evs, |before| + i);
    assert evs[|before| + i] == Fert(ferts[i]);
  }

  lemma {:induction false} IrrEventStep(before: seq<Event>, irrs: seq<IrrigationEvent>, j: nat, next: nat)
    requires j < |irrs| && next == j + 1
    ensures var evs := before + IrrEvents(irrs);
      GroupByDate(evs[..|before| + next]) == AppendAt(GroupByDate(evs[..|before| + j]), irrs[j].idate, Irr(irrs[j]))
  {
    var evs := before + IrrEvents(irrs);
    GroupByDateSnoc(evs, |before| + j);
    assert evs[|before| + j] == Irr(irrs[j]);
  }

  /** Lines 382-386: the `defaultdict(list)` of events keyed by date,
      fertilizers first. */
  method GroupEvents(ferts: seq<FertilizerEvent>, irrs: seq<IrrigationEvent>) returns (irrFertEvs: Dict<string, seq<Event>>)
    ensures irrFertEvs == GroupByDate(AsEvents(ferts, irrs))
  {
    assert [] + FertEvents(ferts) == FertEvents(ferts);
    irrFertEvs := AddFertilizerEvents(EmptyDict(), [], ferts);
    irrFertEvs := AddIrrigationEvents(irrFertEvs, FertEvents(ferts), irrs);
  }

  /** Lines 394-423: the events of one date inserted into the list. */
  method InsertDateEvents(worksteps0: seq<Workstep>, dayEvs: seq<Event>, sowingDate: string, harvestDate: string,
                          layerThicknessM: real) returns (r: Result<seq<Workstep>>)
    ensures r == ApplyResult(worksteps0, DateInsertions(dayEvs, None, sowingDate, harvestDate, layerThicknessM))
  {
    var worksteps := worksteps0;
    ghost var day := DateInsertions(dayEvs, None, sowingDate, harvestDate, layerThicknessM);
    ghost var done: seq<Insertion> := [];
    var kgNPerHaNitrateInIrrWater: Option<real> := None;
    var m := 0;
    assert dayEvs[0..] == dayEvs;
    if day.Ok? {
      assert [] + day.value == day.value;
    }
    while m < |dayEvs|
      decreases |dayEvs| - m
      invariant 0 <= m <= |dayEvs|
      invariant day == Prepend(done, DateInsertions(dayEvs[m..], kgNPerHaNitrateInIrrWater, sowingDate, harvestDate, layerThicknessM))
      invariant worksteps == ApplyAll(worksteps0, done)
    {
      assert dayEvs[m..][1..] == dayEvs[m + 1..];
      ghost var pending := kgNPerHaNitrateInIrrWater;
      match dayEvs[m] {
      case Fert(f) =>
        if f.feacd == IrrigationWaterMarker {
          kgNPerHaNitrateInIrrWater := Some(f.feamn);
        } else {
          ghost var ins := Insertion(FertilizerStep(f), FertilizerPlacement(f.fedate, sowingDate, harvestDate));
          ApplyAllSnoc(worksteps0, done, ins);
          worksteps := PlaceFertilizer(worksteps, f, sowingDate, harvestDate);
          PrependAssoc(done, [ins], DateInsertions(dayEvs[m + 1..], pending, sowingDate, harvestDate, layerThicknessM));
          assert (done + [ins])[..|done|] == done;
          done := done + [ins];
        }
      case Irr(e) =>
        var placed := PlaceIrrigation(worksteps, e, layerThicknessM, kgNPerHaNitrateInIrrWater);
        if placed.Err? {
          return Err(placed.error);
        }
        ghost var ins := Insertion(IrrigationStep(e, layerThicknessM, pending).value, BeforeLast);
        ApplyAllSnoc(worksteps0, done, ins);
        worksteps := placed.value;
        PrependAssoc(done, [ins], DateInsertions(dayEvs[m + 1..], pending, sowingDate, harvestDate, layerThicknessM));
        assert (done + [ins])[..|done|] == done;
        done := done + [ins];
      }
      m := m + 1;
    }
    assert dayEvs[m..] == [];
    assert done + [] == done;
    r := Ok(worksteps);
  }

  /** Lines 400-414: a fertilization goes to the front before sowing, to
      the end after harvest, else before the last entry. */
  method PlaceFertilizer(worksteps: seq<Workstep>, f: FertilizerEvent, sowingDate: string, harvestDate: string)
    returns (ws: seq<Workstep>)
    ensures ws == Place(worksteps, Insertion(FertilizerStep(f), FertilizerPlacement(f.fedate, sowingDate, harvestDate)))
  {
    var mf := MineralFertilization(f.fedate, f.feamn, Partition(100.0, 0.0, 0.0, f.fecd));
    if StrLess(mf.date, sowingDate) {
      ws := [mf] + worksteps;
    } else if StrLess(harvestDate, mf.date) {
      ws := worksteps + [mf];
    } else {
      ws := InsertBeforeLast(worksteps, mf);
    }
  }

  /** Lines 416-423: an irrigation goes before the last entry, unless its
      layer or nitrate division is by zero. */
  method PlaceIrrigation(worksteps: seq<Workstep>, e: IrrigationEvent, layerThicknessM: real, pending: Option<real>)
    returns (r: Result<seq<Workstep>>)
    ensures r.Ok? <==> IrrigationStep(e, layerThicknessM, pending).Ok?
    ensures r.Err? ==> r.error == IrrigationStep(e, layerThicknessM, pending).error
    ensures r.Ok? ==> r.value == Place(worksteps, Insertion(IrrigationStep(e, layerThicknessM, pending).value, BeforeLast))
  {
    var layerSizeCm := layerThicknessM * 100.0;
    if layerSizeCm == 0.0 {
      return Err(ZeroDivision);
    }
    var atLayer := TruncateToInt(e.iradp as real / layerSizeCm);
    var nitrate: Option<real> := None;
    if Truthy(pending) {
      if e.irval == 0.0 {
        return Err(ZeroDivision);
      }
      nitrate := Some(pending.value * 100.0 / e.irval);
    }
    var irr := Irrigation(e.idate, e.irval, atLayer, nitrate);
    r := Ok(InsertBeforeLast(worksteps, irr));
  }

  /** Lines 393-423: the dates visited in order, each date's events inserted
      into the list. */
  method InsertAllDates(worksteps0: seq<Workstep>, groups: map<string, seq<Event>>, dates: seq<string>,
                        ghost days: seq<seq<Event>>, sowingDate: string, harvestDate: string,
                        layerThicknessM: real) returns (r: Result<seq<Workstep>>)
    requires |days| == |dates|
    requires forall k :: 0 <= k < |dates| ==> dates[k] in groups && groups[dates[k]] == days[k]
    ensures r == ApplyResult(worksteps0, ScheduleInsertions(days, sowingDate, harvestDate, layerThicknessM))
  {
    var worksteps := worksteps0;
    ghost var all := ScheduleInsertions(days, sowingDate, harvestDate, layerThicknessM);
    ghost var done: seq<Insertion> := [];
    assert days[0..] == days;
    if all.Ok? {
      assert [] + all.value == all.value;
    }
    var k := 0;
    while k < |dates|
      invariant 0 <= k <= |dates|
      invariant all == Prepend(done, ScheduleInsertions(days[k..], sowingDate, harvestDate, layerThicknessM))
      invariant worksteps == ApplyAll(worksteps0, done)
    {
      assert days[k..][1..] == days[k + 1..];
      ghost var day := DateInsertions(days[k], None, sowingDate, harvestDate, layerThicknessM);
      var dayResult := InsertDateEvents(worksteps, groups[dates[k]], sowingDate, harvestDate, layerThicknessM);
      if dayResult.Err? {
        return Err(dayResult.error);
      }
      PrependAssoc(done, day.value, ScheduleInsertions(days[k + 1..], sowingDate, harvestDate, layerThicknessM));
      ApplyAllConcat(worksteps0, done, day.value);
      done := done + day.value;
      worksteps := dayResult.value;
      k := k + 1;
    }
    assert days[k..] == [];
    assert done + [] == done;
    assert all == Ok(done);
    r := Ok(worksteps);
  }

  /** Lines 382-423 for one plot, on a fresh [sowing, harvest] list. */
  method AssembleWorksteps(ferts: seq<FertilizerEvent>, irrs: seq<IrrigationEvent>, sowing: string, harvest: string,
                           layerThicknessM: real) returns (r: Result<seq<Workstep>>)
    ensures r == AssembledSchedule(ferts, irrs, sowing, harvest, layerThicknessM)
  {
    var irrFertEvs := GroupEvents(ferts, irrs);
    var irrFertDates := SortedDates(irrFertEvs);
    var worksteps := [Sowing(sowing), Harvest(harvest)];
    var sowingDate := worksteps[0].date;
    var harvestDate := worksteps[|worksteps| - 1].date;
    ghost var days := DatedGroups(irrFertEvs);
    r := InsertAllDates(worksteps, irrFertEvs.entries, irrFertDates, days, sowingDate, harvestDate, layerThicknessM);
  }
}
