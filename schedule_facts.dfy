/** What the schedule assembly of maricopa_wheat_face/run-producer.py
    (lines 382-423) guarantees: when it fails and why, and what the list of
    worksteps looks like when every fertilization falls inside the season. */
module ScheduleFacts {
  import opened Common
  import opened Schedule

  // ---------------------------------------------------------------------------
  // Events of one date

  /** The events of `evs` dated `d`, in their order. */
  function OnDate(evs: seq<Event>, d: string): (r: seq<Event>)
    ensures forall e :: e in r <==> e in evs && DateOf(e) == d
  {
    if evs == [] then []
    else
      assert evs == evs[..|evs| - 1] + [evs[|evs| - 1]];
      OnDate(evs[..|evs| - 1], d) + (if DateOf(evs[|evs| - 1]) == d then [evs[|evs| - 1]] else [])
  }

  function FertsOn(fs: seq<FertilizerEvent>, d: string): (r: seq<FertilizerEvent>)
    ensures forall f :: f in r <==> f in fs && f.fedate == d
  {
    if fs == [] then []
    else
      assert fs == fs[..|fs| - 1] + [fs[|fs| - 1]];
      FertsOn(fs[..|fs| - 1], d) + (if fs[|fs| - 1].fedate == d then [fs[|fs| - 1]] else [])
  }

  function IrrsOn(irrs: seq<IrrigationEvent>, d: string): (r: seq<IrrigationEvent>)
    ensures forall e :: e in r <==> e in irrs && e.idate == d
  {
    if irrs == [] then []
    else
      assert irrs == irrs[..|irrs| - 1] + [irrs[|irrs| - 1]];
      IrrsOn(irrs[..|irrs| - 1], d) + (if irrs[|irrs| - 1].idate == d then [irrs[|irrs| - 1]] else [])
  }

  lemma {:induction false} OnDateConcat(a: seq<Event>, b: seq<Event>, d: string)
    ensures OnDate(a + b, d) == OnDate(a, d) + OnDate(b, d)
  {
    if b == [] {
      assert a + b == a;
    } else {
      var init := b[..|b| - 1];
      assert (a + b)[..|a + b| - 1] == a + init;
      assert (a + b)[|a + b| - 1] == b[|b| - 1];
      OnDateConcat(a, init, d);
    }
  }

  lemma {:induction false} OnDateFerts(fs: seq<FertilizerEvent>, d: string)
    ensures OnDate(FertEvents(fs), d) == FertEvents(FertsOn(fs, d))
  {
    if fs != [] {
      var init := fs[..|fs| - 1];
      var last := fs[|fs| - 1];
      assert FertEvents(fs)[..|fs| - 1] == FertEvents(init);
      OnDateFerts(init, d);
      if last.fedate == d {
        assert FertEvents(FertsOn(init, d) + [last]) == FertEvents(FertsOn(init, d)) + [Fert(last)];
      } else {
        assert FertsOn(fs, d) == FertsOn(init, d) + [];
      }
    }
  }

  lemma {:induction false} OnDateIrrs(irrs: seq<IrrigationEvent>, d: string)
    ensures OnDate(IrrEvents(irrs), d) == IrrEvents(IrrsOn(irrs, d))
  {
    if irrs != [] {
      var init := irrs[..|irrs| - 1];
      var last := irrs[|irrs| - 1];
      assert IrrEvents(irrs)[..|irrs| - 1] == IrrEvents(init);
      OnDateIrrs(init, d);
      if last.idate == d {
        assert IrrEvents(IrrsOn(init, d) + [last]) == IrrEvents(IrrsOn(init, d)) + [Irr(last)];
      } else {
        assert IrrsOn(irrs, d) == IrrsOn(init, d) + [];
      }
    }
  }

  /** The events grouped under one date: that date's fertilizers in their
      order, then that date's irrigations in their order. */
  lemma {:induction false} DayGroupOf(ferts: seq<FertilizerEvent>, irrs: seq<IrrigationEvent>, d: string)
    ensures OnDate(AsEvents(ferts, irrs), d) == FertEvents(FertsOn(ferts, d)) + IrrEvents(IrrsOn(irrs, d))
  {
    OnDateConcat(FertEvents(ferts), IrrEvents(irrs), d);
    OnDateFerts(ferts, d);
    OnDateIrrs(irrs, d);
  }

  /** The `defaultdict(list)` built at lines 382-386 has a key for exactly
      the dates that occur, and under each the events of that date in
      their order. */
  lemma {:induction false} GroupByDateSpec(evs: seq<Event>)
    ensures forall d :: d in GroupByDate(evs).entries <==> OnDate(evs, d) != []
    ensures forall d :: d in GroupByDate(evs).entries ==> GroupByDate(evs).entries[d] == OnDate(evs, d)
  {
    if evs != [] {
      var init := evs[..|evs| - 1];
      GroupByDateSpec(init);
    }
  }

  // ---------------------------------------------------------------------------
  // One date: fertilizers first, then irrigations

  /** The insertions made by the fertilizers of one date. */
  function FertInsertions(fs: seq<FertilizerEvent>, sowing: string, harvest: string): seq<Insertion>
  {
    if fs == [] then []
    else
      (if IsMarker(fs[0]) then [] else [Insertion(FertilizerStep(fs[0]), FertilizerPlacement(fs[0].fedate, sowing, harvest))])
      + FertInsertions(fs[1..], sowing, harvest)
  }

  /** The nitrate amount pending after the fertilizers of one date: the
      FEAMN of the last "Applied in irrigation water" row, if any. */
  function LastMarker(fs: seq<FertilizerEvent>, pending: Option<real>): Option<real>
  {
    if fs == [] then pending
    else LastMarker(fs[1..], if IsMarker(fs[0]) then Some(fs[0].feamn) else pending)
  }

  /** The insertions made by the irrigations of one date. */
  function IrrInsertions(irrs: seq<IrrigationEvent>, pending: Option<real>, layerThicknessM: real): Result<seq<Insertion>>
  {
    if irrs == [] then Ok([])
    else
      match IrrigationStep(irrs[0], layerThicknessM, pending)
      case Err(e) => Err(e)
      case Ok(w) => Prepend([Insertion(w, BeforeLast)], IrrInsertions(irrs[1..], pending, layerThicknessM))
  }

  lemma {:induction false} PrependNil(r: Result<seq<Insertion>>)
    ensures Prepend([], r) == r
  {
    if r.Ok? {
      assert [] + r.value == r.value;
    }
  }

  lemma {:induction false} DateInsertionsOfIrrs(irrs: seq<IrrigationEvent>, pending: Option<real>, sowing: string,
                                                harvest: string, layerThicknessM: real)
    ensures DateInsertions(IrrEvents(irrs), pending, sowing, harvest, layerThicknessM)
         == IrrInsertions(irrs, pending, layerThicknessM)
  {
    if irrs != [] {
      assert IrrEvents(irrs)[1..] == IrrEvents(irrs[1..]);
      DateInsertionsOfIrrs(irrs[1..], pending, sowing, harvest, layerThicknessM);
    }
  }

  /** Because the fertilizers of a date are grouped before its irrigations,
      every irrigation of the date sees the nitrate amount of the date's last
      "Applied in irrigation water" row, wherever that row stands among the
      fertilizers. */
  lemma {:induction false} DateInsertionsSplit(fs: seq<FertilizerEvent>, irrs: seq<IrrigationEvent>, pending: Option<real>,
                                               sowing: string, harvest: string, layerThicknessM: real)
    ensures DateInsertions(FertEvents(fs) + IrrEvents(irrs), pending, sowing, harvest, layerThicknessM)
         == Prepend(FertInsertions(fs, sowing, harvest), IrrInsertions(irrs, LastMarker(fs, pending), layerThicknessM))
  {
    var evs := FertEvents(fs) + IrrEvents(irrs);
    if fs == [] {
      assert evs == IrrEvents(irrs);
      DateInsertionsOfIrrs(irrs, pending, sowing, harvest, layerThicknessM);
      PrependNil(IrrInsertions(irrs, pending, layerThicknessM));
    } else {
      assert evs[0] == Fert(fs[0]);
      assert evs[1..] == FertEvents(fs[1..]) + IrrEvents(irrs);
      var next := if IsMarker(fs[0]) then Some(fs[0].feamn) else pending;
      DateInsertionsSplit(fs[1..], irrs, next, sowing, harvest, layerThicknessM);
      var rest := IrrInsertions(irrs, LastMarker(fs[1..], next), layerThicknessM);
      if IsMarker(fs[0]) {
        assert FertInsertions(fs, sowing, harvest) == FertInsertions(fs[1..], sowing, harvest);
      } else {
        var ins := Insertion(FertilizerStep(fs[0]), FertilizerPlacement(fs[0].fedate, sowing, harvest));
        PrependAssoc([ins], FertInsertions(fs[1..], sowing, harvest), rest);
      }
    }
  }

  /** The condition under which lines 416-422 do not divide by zero. */
  predicate Feasible(e: IrrigationEvent, pending: Option<real>, layerThicknessM: real)
  {
    layerThicknessM != 0.0 && (Truthy(pending) ==> e.irval != 0.0)
  }

  lemma {:induction false} IrrInsertionsOk(irrs: seq<IrrigationEvent>, pending: Option<real>, layerThicknessM: real)
    ensures IrrInsertions(irrs, pending, layerThicknessM).Ok? <==> forall e :: e in irrs ==> Feasible(e, pending, layerThicknessM)
    ensures IrrInsertions(irrs, pending, layerThicknessM).Err? ==> IrrInsertions(irrs, pending, layerThicknessM).error == ZeroDivision
  {
    if irrs != [] {
      assert forall e :: e in irrs <==> e == irrs[0] || e in irrs[1..];
      assert IrrigationStep(irrs[0], layerThicknessM, pending).Ok? <==> Feasible(irrs[0], pending, layerThicknessM);
      IrrInsertionsOk(irrs[1..], pending, layerThicknessM);
    }
  }

  lemma {:induction false} DateInsertionsErr(evs: seq<Event>, pending: Option<real>, sowing: string, harvest: string,
                                             layerThicknessM: real)
    ensures DateInsertions(evs, pending, sowing, harvest, layerThicknessM).Err? ==>
      DateInsertions(evs, pending, sowing, harvest, layerThicknessM).error == ZeroDivision
  {
    if evs != [] {
      DateInsertionsErr(evs[1..], if evs[0].Fert? && IsMarker(evs[0].f) then Some(evs[0].f.feamn) else pending,
                        sowing, harvest, layerThicknessM);
    }
  }

  lemma {:induction false} ScheduleInsertionsOk(days: seq<seq<Event>>, sowing: string, harvest: string, layerThicknessM: real)
    ensures ScheduleInsertions(days, sowing, harvest, layerThicknessM).Ok? <==>
      forall k :: 0 <= k < |days| ==> DateInsertions(days[k], None, sowing, harvest, layerThicknessM).Ok?
    ensures ScheduleInsertions(days, sowing, harvest, layerThicknessM).Err? ==>
      ScheduleInsertions(days, sowing, harvest, layerThicknessM).error == ZeroDivision
  {
    if days != [] {
      DateInsertionsErr(days[0], None, sowing, harvest, layerThicknessM);
      ScheduleInsertionsOk(days[1..], sowing, harvest, layerThicknessM);
      forall k | 1 <= k < |days|
        ensures days[k] == days[1..][k - 1]
      {
      }
    }
  }

  // ---------------------------------------------------------------------------
  // When the assembly raises ZeroDivisionError

  /** The nitrate amount the irrigations of date `d` see. */
  function MarkerOn(ferts: seq<FertilizerEvent>, d: string): Option<real>
  {
    LastMarker(FertsOn(ferts, d), None)
  }

  predicate IrrigationFeasible(ferts: seq<FertilizerEvent>, e: IrrigationEvent, layerThicknessM: real)
  {
    Feasible(e, MarkerOn(ferts, e.idate), layerThicknessM)
  }

  lemma {:induction false} DayOk(ferts: seq<FertilizerEvent>, irrs: seq<IrrigationEvent>, d: string, sowing: string, harvest: string,
              layerThicknessM: real)
    ensures DateInsertions(OnDate(AsEvents(ferts, irrs), d), None, sowing, harvest, layerThicknessM).Ok? <==>
      forall e :: e in IrrsOn(irrs, d) ==> IrrigationFeasible(ferts, e, layerThicknessM)
  {
    DayGroupOf(ferts, irrs, d);
    DateInsertionsSplit(FertsOn(ferts, d), IrrsOn(irrs, d), None, sowing, harvest, layerThicknessM);
    IrrInsertionsOk(IrrsOn(irrs, d), MarkerOn(ferts, d), layerThicknessM);
  }

  /** The dates that are visited: exactly the dates that occur. */
  lemma {:induction false} VisitedDates(g: Dict<string, seq<Event>>, d: string)
    requires g.Valid() && d in g.entries
    ensures exists k :: 0 <= k < |SortedDates(g)| && SortedDates(g)[k] == d
  {
    assert d in multiset(g.keys);
    assert d in multiset(SortedDates(g));
  }

  /** The event lists visited by the assembly are the events of each date. */
  lemma {:induction false} DatedGroupsOnDate(ferts: seq<FertilizerEvent>, irrs: seq<IrrigationEvent>)
    ensures var g := GroupByDate(AsEvents(ferts, irrs));
      |DatedGroups(g)| == |SortedDates(g)| &&
      forall k :: 0 <= k < |DatedGroups(g)| ==> DatedGroups(g)[k] == OnDate(AsEvents(ferts, irrs), SortedDates(g)[k])
  {
    GroupByDateSpec(AsEvents(ferts, irrs));
  }

  lemma {:induction false} FeasibleDaysOk(ferts: seq<FertilizerEvent>, irrs: seq<IrrigationEvent>, sowing: string, harvest: string,
                       layerThicknessM: real)
    requires forall j :: 0 <= j < |irrs| ==> IrrigationFeasible(ferts, irrs[j], layerThicknessM)
    ensures var days := DatedGroups(GroupByDate(AsEvents(ferts, irrs)));
      forall k :: 0 <= k < |days| ==> DateInsertions(days[k], None, sowing, harvest, layerThicknessM).Ok?
  {
    var g := GroupByDate(AsEvents(ferts, irrs));
    var dates, days := SortedDates(g), DatedGroups(g);
    DatedGroupsOnDate(ferts, irrs);
    forall k | 0 <= k < |days|
      ensures DateInsertions(days[k], None, sowing, harvest, layerThicknessM).Ok?
    {
      DayOk(ferts, irrs, dates[k], sowing, harvest, layerThicknessM);
      forall e | e in IrrsOn(irrs, dates[k])
        ensures IrrigationFeasible(ferts, e, layerThicknessM)
      {
        var j :| 0 <= j < |irrs| && irrs[j] == e;
      }
    }
  }

  /** The date of every irrigation is visited, with that date's events. */
  lemma {:induction false} IrrigationDateVisited(ferts: seq<FertilizerEvent>, irrs: seq<IrrigationEvent>, j: int) returns (k: int)
    requires 0 <= j < |irrs|
    ensures var days := DatedGroups(GroupByDate(AsEvents(ferts, irrs)));
      0 <= k < |days| && days[k] == OnDate(AsEvents(ferts, irrs), irrs[j].idate)
  {
    var g := GroupByDate(AsEvents(ferts, irrs));
    var d := irrs[j].idate;
    IrrigationDateGrouped(ferts, irrs, j);
    VisitedDates(g, d);
    DatedGroupsOnDate(ferts, irrs);
    k :| 0 <= k < |SortedDates(g)| && SortedDates(g)[k] == d;
  }

  lemma {:induction false} IrrigationDateGrouped(ferts: seq<FertilizerEvent>, irrs: seq<IrrigationEvent>, j: int)
    requires 0 <= j < |irrs|
    ensures irrs[j].idate in GroupByDate(AsEvents(ferts, irrs)).entries
  {
    var evs := AsEvents(ferts, irrs);
    GroupByDateSpec(evs);
    assert evs[|ferts| + j] == Irr(irrs[j]);
    assert Irr(irrs[j]) in OnDate(evs, irrs[j].idate);
  }

  lemma {:induction false} OkDaysFeasible(ferts: seq<FertilizerEvent>, irrs: seq<IrrigationEvent>, sowing: string, harvest: string,
                       layerThicknessM: real, j: int)
    requires 0 <= j < |irrs|
    requires var days := DatedGroups(GroupByDate(AsEvents(ferts, irrs)));
      forall k :: 0 <= k < |days| ==> DateInsertions(days[k], None, sowing, harvest, layerThicknessM).Ok?
    ensures IrrigationFeasible(ferts, irrs[j], layerThicknessM)
  {
    IrrigationDayOk(ferts, irrs, sowing, harvest, layerThicknessM, j);
    OkDayFeasible(ferts, irrs, sowing, harvest, layerThicknessM, j);
  }

  /** The day of an irrigation is one of the days, so its insertions succeed. */
  lemma {:induction false} IrrigationDayOk(ferts: seq<FertilizerEvent>, irrs: seq<IrrigationEvent>, sowing: string, harvest: string,
                        layerThicknessM: real, j: int)
    requires 0 <= j < |irrs|
    requires var days := DatedGroups(GroupByDate(AsEvents(ferts, irrs)));
      forall k :: 0 <= k < |days| ==> DateInsertions(days[k], None, sowing, harvest, layerThicknessM).Ok?
    ensures DateInsertions(OnDate(AsEvents(ferts, irrs), irrs[j].idate), None, sowing, harvest, layerThicknessM).Ok?
  {
    var k := IrrigationDateVisited(ferts, irrs, j);
  }

  lemma {:induction false} OkDayFeasible(ferts: seq<FertilizerEvent>, irrs: seq<IrrigationEvent>, sowing: string, harvest: string,
                      layerThicknessM: real, j: int)
    requires 0 <= j < |irrs|
    requires DateInsertions(OnDate(AsEvents(ferts, irrs), irrs[j].idate), None, sowing, harvest, layerThicknessM).Ok?
    ensures IrrigationFeasible(ferts, irrs[j], layerThicknessM)
  {
    DayOk(ferts, irrs, irrs[j].idate, sowing, harvest, layerThicknessM);
    assert irrs[j] in IrrsOn(irrs, irrs[j].idate);
  }

  /** The schedule of a plot is assembled unless an irrigation divides by
      zero: the assembly succeeds exactly when every irrigation has a
      non-zero layer size and, when its date carries a non-zero nitrate
      amount, a non-zero IRVAL; otherwise it raises ZeroDivisionError. */
  lemma {:induction false} AssembledScheduleOk(ferts: seq<FertilizerEvent>, irrs: seq<IrrigationEvent>, sowing: string, harvest: string,
                            layerThicknessM: real)
    ensures AssembledSchedule(ferts, irrs, sowing, harvest, layerThicknessM).Ok? <==>
      forall j :: 0 <= j < |irrs| ==> IrrigationFeasible(ferts, irrs[j], layerThicknessM)
    ensures AssembledSchedule(ferts, irrs, sowing, harvest, layerThicknessM).Err? ==>
      AssembledSchedule(ferts, irrs, sowing, harvest, layerThicknessM).error == ZeroDivision
  {
    var days := DatedGroups(GroupByDate(AsEvents(ferts, irrs)));
    ScheduleInsertionsOk(days, sowing, harvest, layerThicknessM);
    if forall j :: 0 <= j < |irrs| ==> IrrigationFeasible(ferts, irrs[j], layerThicknessM) {
      FeasibleDaysOk(ferts, irrs, sowing, harvest, layerThicknessM);
    }
    if ScheduleInsertions(days, sowing, harvest, layerThicknessM).Ok? {
      forall j | 0 <= j < |irrs|
        ensures IrrigationFeasible(ferts, irrs[j], layerThicknessM)
      {
        OkDaysFeasible(ferts, irrs, sowing, harvest, layerThicknessM, j);
      }
    }
  }

  // ---------------------------------------------------------------------------
  // The shape of an assembled schedule

  function StepsOf(inss: seq<Insertion>): (r: seq<Workstep>)
    ensures |r| == |inss| && forall k :: 0 <= k < |inss| ==> r[k] == inss[k].step
  {
    seq(|inss|, k requires 0 <= k < |inss| => inss[k].step)
  }

  lemma {:induction false} StepsOfSnoc(inss: seq<Insertion>)
    requires inss != []
    ensures StepsOf(inss) == StepsOf(inss[..|inss| - 1]) + [inss[|inss| - 1].step]
  {
    assert StepsOf(inss) == StepsOf(inss[..|inss| - 1]) + [inss[|inss| - 1].step];
  }

  /** Insertions made with `insert(-1, ...)` keep the first and the last
      element in place and line up between them in the order made. */
  lemma {:induction false} ApplyAllBeforeLast(s: seq<Workstep>, inss: seq<Insertion>)
    requires |s| > 0
    requires forall k :: 0 <= k < |inss| ==> inss[k].at == BeforeLast
    ensures ApplyAll(s, inss) == s[..|s| - 1] + StepsOf(inss) + [s[|s| - 1]]
  {
    if inss != [] {
      var init := inss[..|inss| - 1];
      ApplyAllBeforeLast(s, init);
      StepsOfSnoc(inss);
    }
  }

  /** Insertions made with `insert(0, ...)` end up in front of the list in
      the reverse of the order made. */
  lemma {:induction false} ApplyAllAtFront(s: seq<Workstep>, inss: seq<Insertion>)
    requires forall k :: 0 <= k < |inss| ==> inss[k].at == AtFront
    ensures ApplyAll(s, inss) == Reversed(StepsOf(inss)) + s
  {
    if inss != [] {
      var init, last := inss[..|inss| - 1], inss[|inss| - 1];
      ApplyAllAtFront(s, init);
      assert ApplyAll(s, inss) == [last.step] + ApplyAll(s, init);
      StepsOfSnoc(inss);
      ReversedSnoc(StepsOf(init), last.step);
      assert [last.step] + (Reversed(StepsOf(init)) + s) == ([last.step] + Reversed(StepsOf(init))) + s;
    }
  }

  function Reversed(ws: seq<Workstep>): (r: seq<Workstep>)
    ensures |r| == |ws|
  {
    if ws == [] then [] else [ws[|ws| - 1]] + Reversed(ws[..|ws| - 1])
  }

  lemma {:induction false} ReversedSnoc(ws: seq<Workstep>, w: Workstep)
    ensures Reversed(ws + [w]) == [w] + Reversed(ws)
  {
    assert (ws + [w])[..|ws|] == ws;
  }

  lemma {:induction false} ReversedIndex(ws: seq<Workstep>, i: int)
    requires 0 <= i < |ws|
    ensures Reversed(ws)[i] == ws[|ws| - 1 - i]
  {
    if i > 0 {
      ReversedIndex(ws[..|ws| - 1], i - 1);
    }
  }

  predicate InsertionsOrdered(inss: seq<Insertion>)
  {
    forall i, j :: 0 <= i < j < |inss| ==> !StrLess(inss[j].step.date, inss[i].step.date)
  }

  predicate DatesNondecreasing(ws: seq<Workstep>)
  {
    forall i, j :: 0 <= i < j < |ws| ==> !StrLess(ws[j].date, ws[i].date)
  }

  predicate DatesNonincreasing(ws: seq<Workstep>)
  {
    forall i, j :: 0 <= i < j < |ws| ==> !StrLess(ws[i].date, ws[j].date)
  }

  /** Every fertilization of `evs` (other than the nitrate-in-water rows) is
      placed with `p`. */
  predicate FertsPlaced(evs: seq<Event>, sowing: string, harvest: string, p: Placement)
  {
    forall i :: 0 <= i < |evs| && evs[i].Fert? && !IsMarker(evs[i].f) ==>
      FertilizerPlacement(evs[i].f.fedate, sowing, harvest) == p
  }

  /** The placement an insertion gets when its fertilizations use `p`. */
  predicate PlacedAs(ins: Insertion, p: Placement)
  {
    ins.at == if ins.step.Irrigation? then BeforeLast else p
  }

  predicate AllPlacedAs(inss: seq<Insertion>, p: Placement)
  {
    forall k :: 0 <= k < |inss| ==> PlacedAs(inss[k], p)
  }

  predicate AllDated(inss: seq<Insertion>, d: string)
  {
    forall k :: 0 <= k < |inss| ==> inss[k].step.date == d
  }

  predicate NoneBefore(inss: seq<Insertion>, d: string)
  {
    forall k :: 0 <= k < |inss| ==> !StrLess(inss[k].step.date, d)
  }

  predicate NoIrrigationSteps(inss: seq<Insertion>)
  {
    forall k :: 0 <= k < |inss| ==> !inss[k].step.Irrigation?
  }

  predicate AllFerts(evs: seq<Event>)
  {
    forall i :: 0 <= i < |evs| ==> evs[i].Fert?
  }

  lemma {:induction false} DateInsertionsShape(evs: seq<Event>, pending: Option<real>, sowing: string, harvest: string,
                                               layerThicknessM: real, d: string, p: Placement)
    requires forall i :: 0 <= i < |evs| ==> DateOf(evs[i]) == d
    requires FertsPlaced(evs, sowing, harvest, p)
    ensures DateInsertions(evs, pending, sowing, harvest, layerThicknessM).Ok? ==>
      AllPlacedAs(DateInsertions(evs, pending, sowing, harvest, layerThicknessM).value, p) &&
      AllDated(DateInsertions(evs, pending, sowing, harvest, layerThicknessM).value, d) &&
      (AllFerts(evs) ==> NoIrrigationSteps(DateInsertions(evs, pending, sowing, harvest, layerThicknessM).value))
  {
    var r := DateInsertions(evs, pending, sowing, harvest, layerThicknessM);
    if evs != [] && r.Ok? {
      var next := if evs[0].Fert? && IsMarker(evs[0].f) then Some(evs[0].f.feamn) else pending;
      EventsTail(evs, sowing, harvest, d, p);
      DateInsertionsShape(evs[1..], next, sowing, harvest, layerThicknessM, d, p);
      var rest := DateInsertions(evs[1..], next, sowing, harvest, layerThicknessM);
      assert rest.Ok?;
      if evs[0].Fert? && IsMarker(evs[0].f) {
        assert r == rest;
      } else {
        var w := if evs[0].Fert? then FertilizerStep(evs[0].f) else IrrigationStep(evs[0].i, layerThicknessM, pending).value;
        var ins := Insertion(w, if evs[0].Fert? then FertilizerPlacement(evs[0].f.fedate, sowing, harvest) else BeforeLast);
        assert r.value == [ins] + rest.value;
        assert PlacedAs(ins, p) && ins.step.date == d;
        assert evs[0].Fert? ==> !ins.step.Irrigation?;
        ConsShape(ins, rest.value, d, p);
      }
    }
  }

  /** The events after the first keep their date, placements and kinds. */
  lemma {:induction false} EventsTail(evs: seq<Event>, sowing: string, harvest: string, d: string, p: Placement)
    requires evs != [] && forall i :: 0 <= i < |evs| ==> DateOf(evs[i]) == d
    requires FertsPlaced(evs, sowing, harvest, p)
    ensures forall i :: 0 <= i < |evs[1..]| ==> DateOf(evs[1..][i]) == d
    ensures FertsPlaced(evs[1..], sowing, harvest, p)
    ensures AllFerts(evs) ==> AllFerts(evs[1..])
  {
    forall i | 0 <= i < |evs[1..]|
      ensures evs[1..][i] == evs[i + 1]
    {
    }
  }

  /** One insertion in front of a date's others keeps the date's shape. */
  lemma {:induction false} ConsShape(ins: Insertion, rest: seq<Insertion>, d: string, p: Placement)
    requires PlacedAs(ins, p) && ins.step.date == d
    requires AllPlacedAs(rest, p) && AllDated(rest, d)
    ensures AllPlacedAs([ins] + rest, p) && AllDated([ins] + rest, d)
    ensures !ins.step.Irrigation? && NoIrrigationSteps(rest) ==> NoIrrigationSteps([ins] + rest)
  {
    forall k | 0 < k < |[ins] + rest|
      ensures ([ins] + rest)[k] == rest[k - 1]
    {
    }
  }

  lemma {:induction false} NotBefore(x: string, a: string, b: string)
    requires !StrLess(x, b) && StrLess(a, b)
    ensures !StrLess(x, a)
  {
    if StrLess(x, a) {
      StrLessTransitive(x, a, b);
    }
  }

  /** The date groups of an assembly: one per date, in ascending order. */
  predicate DaysDated(dates: seq<string>, days: seq<seq<Event>>)
  {
    |days| == |dates| && StrAscending(dates) &&
    forall k, i :: 0 <= k < |days| && 0 <= i < |days[k]| ==> DateOf(days[k][i]) == dates[k]
  }

  predicate AllFertDays(days: seq<seq<Event>>)
  {
    forall k :: 0 <= k < |days| ==> AllFerts(days[k])
  }

  lemma {:induction false} ScheduleShape(dates: seq<string>, days: seq<seq<Event>>, sowing: string, harvest: string,
                                         layerThicknessM: real, p: Placement)
    requires DaysDated(dates, days)
    requires forall k :: 0 <= k < |days| ==> FertsPlaced(days[k], sowing, harvest, p)
    ensures ScheduleInsertions(days, sowing, harvest, layerThicknessM).Ok? ==>
      InsertionsOrdered(ScheduleInsertions(days, sowing, harvest, layerThicknessM).value) &&
      AllPlacedAs(ScheduleInsertions(days, sowing, harvest, layerThicknessM).value, p) &&
      (|dates| > 0 ==> NoneBefore(ScheduleInsertions(days, sowing, harvest, layerThicknessM).value, dates[0])) &&
      (AllFertDays(days) ==> NoIrrigationSteps(ScheduleInsertions(days, sowing, harvest, layerThicknessM).value))
  {
    var r := ScheduleInsertions(days, sowing, harvest, layerThicknessM);
    if days != [] && r.Ok? {
      DateInsertionsShape(days[0], None, sowing, harvest, layerThicknessM, dates[0], p);
      var first := DateInsertions(days[0], None, sowing, harvest, layerThicknessM).value;
      DaysTail(dates, days, sowing, harvest, p);
      ScheduleShape(dates[1..], days[1..], sowing, harvest, layerThicknessM, p);
      var rest := ScheduleInsertions(days[1..], sowing, harvest, layerThicknessM).value;
      assert r.value == first + rest;
      if |dates| > 1 {
        assert dates[1..][0] == dates[1];
        NoneBeforeEarlier(rest, dates[0], dates[1]);
      }
      if AllFertDays(days) {
        assert AllFerts(days[0]);
      }
      ConcatShape(first, rest, dates[0], p);
    }
  }

  /** The days after the first keep their dates, placements and kinds. */
  lemma {:induction false} DaysTail(dates: seq<string>, days: seq<seq<Event>>, sowing: string, harvest: string, p: Placement)
    requires days != [] && DaysDated(dates, days)
    requires forall k :: 0 <= k < |days| ==> FertsPlaced(days[k], sowing, harvest, p)
    ensures DaysDated(dates[1..], days[1..])
    ensures forall k :: 0 <= k < |days[1..]| ==> FertsPlaced(days[1..][k], sowing, harvest, p)
    ensures AllFertDays(days) ==> AllFertDays(days[1..])
  {
    forall k | 0 <= k < |days[1..]|
      ensures days[1..][k] == days[k + 1] && dates[1..][k] == dates[k + 1]
    {
    }
  }

  lemma {:induction false} NoneBeforeEarlier(inss: seq<Insertion>, a: string, b: string)
    requires NoneBefore(inss, b) && StrLess(a, b)
    ensures NoneBefore(inss, a)
  {
    forall k | 0 <= k < |inss|
      ensures !StrLess(inss[k].step.date, a)
    {
      NotBefore(inss[k].step.date, a, b);
    }
  }

  /** One date's insertions followed by those of later dates are in date
      order, and none is dated before that date. */
  lemma {:induction false} ConcatShape(first: seq<Insertion>, rest: seq<Insertion>, d: string, p: Placement)
    requires AllDated(first, d) && AllPlacedAs(first, p)
    requires InsertionsOrdered(rest) && AllPlacedAs(rest, p) && NoneBefore(rest, d)
    ensures InsertionsOrdered(first + rest) && AllPlacedAs(first + rest, p) && NoneBefore(first + rest, d)
    ensures NoIrrigationSteps(first) && NoIrrigationSteps(rest) ==> NoIrrigationSteps(first + rest)
  {
    var inss := first + rest;
    StrLessIrreflexive(d);
    forall k | |first| <= k < |inss|
      ensures inss[k] == rest[k - |first|]
    {
    }
    forall i, j | 0 <= i < j < |inss|
      ensures !StrLess(inss[j].step.date, inss[i].step.date)
    {
      if i >= |first| {
        assert inss[i] == rest[i - |first|] && inss[j] == rest[j - |first|];
      }
    }
  }

  /** The insertions of an assembly, with the facts `ScheduleShape` needs
      about its date groups. */
  lemma {:induction false} AssemblyShape(ferts: seq<FertilizerEvent>, irrs: seq<IrrigationEvent>, sowing: string, harvest: string,
                      layerThicknessM: real, p: Placement)
    requires forall i :: 0 <= i < |ferts| && !IsMarker(ferts[i]) ==> FertilizerPlacement(ferts[i].fedate, sowing, harvest) == p
    ensures ScheduleInsertions(DatedGroups(GroupByDate(AsEvents(ferts, irrs))), sowing, harvest, layerThicknessM).Ok? ==>
      var inss := ScheduleInsertions(DatedGroups(GroupByDate(AsEvents(ferts, irrs))), sowing, harvest, layerThicknessM).value;
      InsertionsOrdered(inss) && AllPlacedAs(inss, p) && (irrs == [] ==> NoIrrigationSteps(inss))
  {
    var evs := AsEvents(ferts, irrs);
    var g := GroupByDate(evs);
    GroupByDateSpec(evs);
    var dates := SortedDates(g);
    var days := DatedGroups(g);
    assert days == DayGroups(dates, g.entries);
    forall k, i | 0 <= k < |days| && 0 <= i < |days[k]|
      ensures DateOf(days[k][i]) == dates[k] && days[k][i] in evs
    {
      assert days[k] == OnDate(evs, dates[k]);
    }
    assert DaysDated(dates, days);
    forall k | 0 <= k < |days|
      ensures FertsPlaced(days[k], sowing, harvest, p)
    {
      forall i | 0 <= i < |days[k]| && days[k][i].Fert? && !IsMarker(days[k][i].f)
        ensures FertilizerPlacement(days[k][i].f.fedate, sowing, harvest) == p
      {
        EventOfAssembly(ferts, irrs, days[k][i]);
      }
    }
    if irrs == [] {
      forall k | 0 <= k < |days|
        ensures AllFerts(days[k])
      {
        forall i | 0 <= i < |days[k]|
          ensures days[k][i].Fert?
        {
          EventOfAssembly(ferts, irrs, days[k][i]);
        }
      }
      assert AllFertDays(days);
    }
    ScheduleShape(dates, days, sowing, harvest, layerThicknessM, p);
  }

  lemma {:induction false} EventOfAssembly(ferts: seq<FertilizerEvent>, irrs: seq<IrrigationEvent>, e: Event)
    requires e in AsEvents(ferts, irrs)
    ensures e.Fert? ==> e.f in ferts
    ensures irrs == [] ==> e.Fert?
  {
    var evs := AsEvents(ferts, irrs);
    var n :| 0 <= n < |evs| && evs[n] == e;
    if n < |ferts| {
      assert e == Fert(ferts[n]);
    } else {
      assert e == Irr(irrs[n - |ferts|]);
    }
  }

  /** When every fertilization lies between the sowing and the harvest date
      (irrigations are always put before the harvest, whatever their date),
      the schedule starts with the sowing, ends with the harvest, and the
      worksteps between them follow the calendar: they are the steps made
      date by date, in ascending order of the dates, each date contributing
      the steps of its fertilizers and then those of its irrigations. */
  lemma {:induction false} AssembledScheduleInSeason(ferts: seq<FertilizerEvent>, irrs: seq<IrrigationEvent>, sowing: string, harvest: string,
                                  layerThicknessM: real)
    requires forall i :: 0 <= i < |ferts| && !IsMarker(ferts[i]) ==> InSeason(ferts[i].fedate, sowing, harvest)
    ensures AssembledSchedule(ferts, irrs, sowing, harvest, layerThicknessM).Ok? ==>
      var ws := AssembledSchedule(ferts, irrs, sowing, harvest, layerThicknessM).value;
      var g := GroupByDate(AsEvents(ferts, irrs));
      var days := DatedGroups(g);
      && |ws| >= 2 && ws[0] == Sowing(sowing) && ws[|ws| - 1] == Harvest(harvest) && DatesNondecreasing(ws[1..|ws| - 1])
      && ScheduleInsertions(days, sowing, harvest, layerThicknessM).Ok?
      && ws[1..|ws| - 1] == StepsOf(ScheduleInsertions(days, sowing, harvest, layerThicknessM).value)
      && |days| == |SortedDates(g)|
      && forall k :: 0 <= k < |days| ==>
        days[k] == FertEvents(FertsOn(ferts, SortedDates(g)[k])) + IrrEvents(IrrsOn(irrs, SortedDates(g)[k]))
  {
    AssemblyShape(ferts, irrs, sowing, harvest, layerThicknessM, BeforeLast);
    var g := GroupByDate(AsEvents(ferts, irrs));
    var r := ScheduleInsertions(DatedGroups(g), sowing, harvest, layerThicknessM);
    if r.Ok? {
      ApplyAllBeforeLast([Sowing(sowing), Harvest(harvest)], r.value);
      var ws := ApplyAll([Sowing(sowing), Harvest(harvest)], r.value);
      assert ws[1..|ws| - 1] == StepsOf(r.value);
    }
    DatedGroupsOnDate(ferts, irrs);
    forall k | 0 <= k < |DatedGroups(g)|
      ensures DatedGroups(g)[k] == FertEvents(FertsOn(ferts, SortedDates(g)[k])) + IrrEvents(IrrsOn(irrs, SortedDates(g)[k]))
    {
      DayGroupOf(ferts, irrs, SortedDates(g)[k]);
    }
  }

  /** Fertilizations dated before sowing are each put at the front of the
      list (line 411), so without irrigations they precede the sowing in
      REVERSE chronological order. The assembly cannot fail here. */
  lemma {:induction false} AssembledSchedulePreSowing(ferts: seq<FertilizerEvent>, sowing: string, harvest: string, layerThicknessM: real)
    requires forall i :: 0 <= i < |ferts| && !IsMarker(ferts[i]) ==> StrLess(ferts[i].fedate, sowing)
    ensures AssembledSchedule(ferts, [], sowing, harvest, layerThicknessM).Ok?
    ensures var ws := AssembledSchedule(ferts, [], sowing, harvest, layerThicknessM).value;
      |ws| >= 2 && ws[|ws| - 2] == Sowing(sowing) && ws[|ws| - 1] == Harvest(harvest) &&
      DatesNonincreasing(ws[..|ws| - 2])
  {
    AssembledScheduleOk(ferts, [], sowing, harvest, layerThicknessM);
    AssemblyShape(ferts, [], sowing, harvest, layerThicknessM, AtFront);
    var inss := ScheduleInsertions(DatedGroups(GroupByDate(AsEvents(ferts, []))), sowing, harvest, layerThicknessM).value;
    ApplyAllAtFront([Sowing(sowing), Harvest(harvest)], inss);
    var front := Reversed(StepsOf(inss));
    var ws := front + [Sowing(sowing), Harvest(harvest)];
    assert ws[..|ws| - 2] == front;
    forall i, j | 0 <= i < j < |front|
      ensures !StrLess(front[i].date, front[j].date)
    {
      ReversedIndex(StepsOf(inss), i);
      ReversedIndex(StepsOf(inss), j);
    }
  }

  /** An irrigation of 15 mm on a date that carries 12 kg N/ha "Applied in
      irrigation water" gets a nitrate concentration of 80 (lines 421-422),
      and with a 5 cm top layer a depth of 30 cm is layer 6 (lines 417-418). */
  lemma {:induction false} IrrigationNitrateExample()
    ensures (var marker := FertilizerEvent("1993-03-01", IrrigationWaterMarker, 0, "NO3", 12.0);
             var irr := IrrigationEvent("1993-03-01", 30, 15.0);
             DateInsertions([Fert(marker), Irr(irr)], None, "1992-12-15", "1993-05-30", 0.05)
             == Ok([Insertion(Irrigation("1993-03-01", 15.0, 6, Some(80.0)), BeforeLast)]))
  {
    var marker := FertilizerEvent("1993-03-01", IrrigationWaterMarker, 0, "NO3", 12.0);
    var irr := IrrigationEvent("1993-03-01", 30, 15.0);
    var evs := [Fert(marker), Irr(irr)];
    assert evs[1..] == [Irr(irr)] && evs[1..][1..] == [];
    assert 30.0 / (0.05 * 100.0) == 6.0;
    assert TruncateToInt(6.0) == 6;
    assert 12.0 * 100.0 / 15.0 == 80.0;
    var ins := Insertion(Irrigation("1993-03-01", 15.0, 6, Some(80.0)), BeforeLast);
    assert IrrigationStep(irr, 0.05, Some(12.0)) == Ok(ins.step);
    assert DateInsertions(evs[1..][1..], Some(12.0), "1992-12-15", "1993-05-30", 0.05) == Ok([]);
    assert [ins] + [] == [ins];
    assert DateInsertions(evs[1..], Some(12.0), "1992-12-15", "1993-05-30", 0.05)
        == Ok([Insertion(Irrigation("1993-03-01", 15.0, 6, Some(80.0)), BeforeLast)]);
  }
}
