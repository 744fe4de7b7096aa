/** Depth arithmetic of the soil-temperature report writers in run-consumer.py
    and soil_temperature_sensitivity_analysis/run-consumer.py.

    Fine simulation layers of `lt_cm` each are added up into the bands of the
    soil profile (`plts_cm`); per-model layer values are written with depths
    that are prefix sums of the profile thicknesses; the SQ model's report
    uses a surface row and nine fixed bands. Temperatures are reals; Python's
    `round(..., 1)` / `round(..., 6)` is not modelled. */
module DepthBands {
  import opened Common
  import opened Dispatch

  /** A written depth interval: SLLT (upper, cm), SLLB (lower, cm) and the
      value for it. */
  datatype Band = Band(upper: int, lower: int, value: real)

  // ---------------------------------------------------------------------------
  // Aggregation of fine layers into profile bands (run-consumer.py:96-114)

  /** The loop state: the bands written so far, `sum_lt_cm`, `sum_s_temp` and
      `i_plt` (how many profile thicknesses the iterator has handed out).
      `ends` records, for the proofs, after how many fine layers each band
      was closed. */
  datatype Scan = Scan(bands: seq<Band>, ends: seq<nat>, sumLtCm: int, sumTemp: real, iPlt: nat)

  /** One iteration of the band loop for fine layer `i` with temperature
      `sTemp`. The average divides by `sum_lt_cm / lt_cm`, which raises
      ZeroDivisionError when `lt_cm` is 0 (or the quotient is 0). */
  function LayerStep(s: Scan, i: nat, sTemp: real, ltCm: int, plts: seq<int>): (r: Result<Scan>)
    requires 1 <= s.iPlt <= |plts| && |s.ends| == |s.bands|
    ensures r.Ok? ==> 1 <= r.value.iPlt <= |plts| && |r.value.ends| == |r.value.bands|
    ensures r.Err? ==> r.error == ZeroDivision
  {
    var sumLtCm := s.sumLtCm + ltCm;
    var sumTemp := s.sumTemp + sTemp;
    if sumLtCm >= plts[s.iPlt - 1] then
      if ltCm == 0 || sumLtCm == 0 then Err(ZeroDivision)
      else
        var avg := sumTemp / (sumLtCm as real / ltCm as real);
        var lower := (i + 1) * ltCm;
        Ok(Scan(s.bands + [Band(lower - sumLtCm, lower, avg)], s.ends + [i + 1], 0, 0.0,
                if s.iPlt < |plts| then s.iPlt + 1 else s.iPlt))
    else Ok(Scan(s.bands, s.ends, sumLtCm, sumTemp, s.iPlt))
  }

  /** The band loop over the first |temps| fine layers. */
  function ScanLayers(temps: seq<real>, ltCm: int, plts: seq<int>): (r: Result<Scan>)
    requires plts != []
    ensures r.Ok? ==> 1 <= r.value.iPlt <= |plts| && |r.value.ends| == |r.value.bands|
    ensures r.Err? ==> r.error == ZeroDivision
    decreases |temps|
  {
    if temps == [] then Ok(Scan([], [], 0, 0.0, 1))
    else
      match ScanLayers(temps[..|temps| - 1], ltCm, plts)
      case Err(e) => Err(e)
      case Ok(s) => LayerStep(s, |temps| - 1, temps[|temps| - 1], ltCm, plts)
  }

  /** The bands of one result day; `next(plt_iter)` before the loop raises
      StopIteration when the profile is empty. */
  function Aggregate(temps: seq<real>, ltCm: int, plts: seq<int>): Result<seq<Band>>
  {
    if plts == [] then Err(Exhausted)
    else
      match ScanLayers(temps, ltCm, plts)
      case Err(e) => Err(e)
      case Ok(s) => Ok(s.bands)
  }

  /** Once a prefix of the layers fails, the whole loop fails. */
  lemma {:induction false} ScanFailureSticks(temps: seq<real>, ltCm: int, plts: seq<int>, n: nat)
    requires plts != [] && n <= |temps|
    requires ScanLayers(temps[..n], ltCm, plts).Err?
    ensures ScanLayers(temps, ltCm, plts).Err?
    decreases |temps|
  {
    if n < |temps| {
      var init := temps[..|temps| - 1];
      assert init[..n] == temps[..n];
      ScanFailureSticks(init, ltCm, plts, n);
    } else {
      assert temps[..n] == temps;
    }
  }

  /** One more fine layer after the first i. */
  lemma {:induction false} ScanLayersStep(temps: seq<real>, ltCm: int, plts: seq<int>, i: nat, s: Scan)
    requires plts != [] && i < |temps|
    requires ScanLayers(temps[..i], ltCm, plts) == Ok(s)
    ensures ScanLayers(temps[..i + 1], ltCm, plts) == LayerStep(s, i, temps[i], ltCm, plts)
  {
    assert temps[..i + 1][..i] == temps[..i];
  }

  /** The loop of run-consumer.py:96-114 for one result day. */
  method AggregateBands(temps: seq<real>, ltCm: int, pltsCm: seq<int>) returns (r: Result<seq<Band>>)
    ensures r == Aggregate(temps, ltCm, pltsCm)
  {
    if |pltsCm| == 0 {
      return Err(Exhausted);
    }
    var sumLtCm := 0;
    var sumSTemp := 0.0;
    var plt := pltsCm[0];
    var iPlt := 1;
    var bands: seq<Band> := [];
    ghost var ends: seq<nat> := [];
    for i := 0 to |temps|
      invariant ScanLayers(temps[..i], ltCm, pltsCm) == Ok(Scan(bands, ends, sumLtCm, sumSTemp, iPlt))
      invariant 1 <= iPlt <= |pltsCm| && plt == pltsCm[iPlt - 1]
    {
      ScanLayersStep(temps, ltCm, pltsCm, i, Scan(bands, ends, sumLtCm, sumSTemp, iPlt));
      sumLtCm := sumLtCm + ltCm;
      sumSTemp := sumSTemp + temps[i];
      if sumLtCm >= plt {
        if ltCm == 0 || sumLtCm == 0 {
          ScanFailureSticks(temps, ltCm, pltsCm, i + 1);
          return Err(ZeroDivision);
        }
        var avgSTemp := sumSTemp / (sumLtCm as real / ltCm as real);
        var lower := (i + 1) * ltCm;
        var upper := lower - sumLtCm;
        bands := bands + [Band(upper, lower, avgSTemp)];
        ends := ends + [i + 1];
        if iPlt < |pltsCm| {
          plt := pltsCm[iPlt];
          iPlt := iPlt + 1;
        }
        sumLtCm := 0;
        sumSTemp := 0.0;
      }
    }
    assert temps[..|temps|] == temps;
    r := Ok(bands);
  }

  // ---------------------------------------------------------------------------
  // What the aggregation computes

  /** Where band k starts, counted in fine layers. */
  function Begin(ends: seq<nat>, k: nat): nat
    requires k <= |ends|
  {
    if k == 0 then 0 else ends[k - 1]
  }

  /** The profile thickness band k aims at: the iterator sticks at the last
      one. */
  function Target(plts: seq<int>, k: nat): int
    requires plts != []
  {
    if k < |plts| then plts[k] else plts[|plts| - 1]
  }

  /** n fine layers close a band aimed at `t`: n is the least positive count
      whose thickness reaches t. */
  predicate Closes(n: int, ltCm: int, t: int)
  {
    n >= 1 && n * ltCm >= t && (n == 1 || (n - 1) * ltCm < t)
  }

  function Mean(xs: seq<real>): real
    requires xs != []
  {
    SumReals(xs) / |xs| as real
  }

  /** Where the pending layers start: after the last band. */
  function Last(ends: seq<nat>): nat
  {
    Begin(ends, |ends|)
  }

  /** The band ends increase and stay within the first n fine layers. */
  ghost predicate Ordered(ends: seq<nat>, n: nat)
  {
    forall k {:trigger Begin(ends, k)} :: 0 <= k < |ends| ==> Begin(ends, k) < ends[k] <= n
  }

  /** Every band covers the fine layers from its begin to its end: its depths
      are those layers' bounds in cm and its value is their mean. */
  ghost predicate Averaged(bands: seq<Band>, ends: seq<nat>, temps: seq<real>, ltCm: int)
  {
    && |bands| == |ends|
    && Ordered(ends, |temps|)
    && forall k {:trigger Begin(ends, k)} :: 0 <= k < |bands| ==>
         bands[k] == Band(Begin(ends, k) * ltCm, ends[k] * ltCm, Mean(temps[Begin(ends, k)..ends[k]]))
  }

  /** Every band is the least number of fine layers that reaches its target. */
  ghost predicate Minimal(ends: seq<nat>, ltCm: int, plts: seq<int>)
    requires plts != []
  {
    forall k {:trigger Begin(ends, k)} :: 0 <= k < |ends| ==> Closes(ends[k] - Begin(ends, k), ltCm, Target(plts, k))
  }

  /** The layers after the last band are summed up in `sum_lt_cm` and
      `sum_s_temp`, do not reach the next target yet, and the iterator has
      handed out the next target. */
  ghost predicate Open(s: Scan, temps: seq<real>, ltCm: int, plts: seq<int>)
    requires plts != []
  {
    && Pending(s, temps, ltCm)
    && s.sumTemp == SumReals(temps[Last(s.ends)..])
    && (|temps| > Last(s.ends) ==> (|temps| - Last(s.ends)) * ltCm < Target(plts, |s.bands|))
    && s.iPlt == (if |s.bands| < |plts| then |s.bands| + 1 else |plts|)
  }

  /** `sum_lt_cm` is the thickness of the layers after the last band. */
  ghost predicate Pending(s: Scan, temps: seq<real>, ltCm: int)
  {
    |s.ends| == |s.bands| && Last(s.ends) <= |temps| &&
    s.sumLtCm == (|temps| - Last(s.ends)) * ltCm
  }

  /** The state of the band loop after the fine layers `temps`. */
  ghost predicate Tiled(s: Scan, temps: seq<real>, ltCm: int, plts: seq<int>)
    requires plts != []
  {
    Averaged(s.bands, s.ends, temps, ltCm) && Minimal(s.ends, ltCm, plts) && Open(s, temps, ltCm, plts)
  }

  lemma {:induction false} SumRealsSnoc(xs: seq<real>, x: real)
    ensures SumReals(xs + [x]) == SumReals(xs) + x
  {
    assert (xs + [x])[..|xs|] == xs;
  }

  lemma {:induction false} CountQuotient(n: int, ltCm: int)
    requires ltCm != 0
    ensures (n * ltCm) as real / ltCm as real == n as real
  {
    assert (n * ltCm) as real == n as real * ltCm as real;
  }

  lemma {:induction false} Distribute(a: int, b: int, c: int)
    ensures (a - b) * c == a * c - b * c
    ensures (a + 1) * c == a * c + c
  {
  }

  lemma {:induction false} OrderedSnoc(ends: seq<nat>, n: nat, e: nat)
    requires Ordered(ends, n) && Last(ends) < e <= n
    ensures Ordered(ends + [e], n)
  {
    forall k | 0 <= k < |ends| + 1
      ensures Begin(ends + [e], k) < (ends + [e])[k] <= n
    {
      assert Begin(ends + [e], k) == Begin(ends, k);
    }
  }

  lemma {:induction false} AveragedExtend(bands: seq<Band>, ends: seq<nat>, init: seq<real>, x: real, ltCm: int)
    requires Averaged(bands, ends, init, ltCm)
    ensures Averaged(bands, ends, init + [x], ltCm)
  {
    var temps := init + [x];
    forall k | 0 <= k < |bands| && Begin(ends, k) < ends[k] <= |init|
      ensures bands[k] == Band(Begin(ends, k) * ltCm, ends[k] * ltCm, Mean(temps[Begin(ends, k)..ends[k]]))
    {
      assert temps[Begin(ends, k)..ends[k]] == init[Begin(ends, k)..ends[k]];
    }
  }

  lemma {:induction false} AveragedSnoc(bands: seq<Band>, ends: seq<nat>, temps: seq<real>, ltCm: int, e: nat)
    requires Averaged(bands, ends, temps, ltCm) && Last(ends) < e <= |temps|
    ensures Averaged(bands + [Band(Last(ends) * ltCm, e * ltCm, Mean(temps[Last(ends)..e]))], ends + [e], temps, ltCm)
  {
    var ends' := ends + [e];
    var bands' := bands + [Band(Last(ends) * ltCm, e * ltCm, Mean(temps[Last(ends)..e]))];
    OrderedSnoc(ends, |temps|, e);
    forall k | 0 <= k < |bands'|
      ensures bands'[k] == Band(Begin(ends', k) * ltCm, ends'[k] * ltCm, Mean(temps[Begin(ends', k)..ends'[k]]))
    {
      assert Begin(ends', k) == Begin(ends, k);
    }
  }

  lemma {:induction false} MinimalSnoc(ends: seq<nat>, ltCm: int, plts: seq<int>, e: nat)
    requires plts != [] && Minimal(ends, ltCm, plts)
    requires Closes(e - Last(ends), ltCm, Target(plts, |ends|))
    ensures Minimal(ends + [e], ltCm, plts)
  {
    forall k | 0 <= k < |ends| + 1
      ensures Closes((ends + [e])[k] - Begin(ends + [e], k), ltCm, Target(plts, k))
    {
      assert Begin(ends + [e], k) == Begin(ends, k);
    }
  }

  /** The depths of a band of p + 1 fine layers closed by layer n. */
  lemma {:induction false} BandDepths(n: int, p: int, ltCm: int)
    ensures (n + 1) * ltCm - (p + 1) * ltCm == (n - p) * ltCm
  {
    Distribute(n + 1, p + 1, ltCm);
  }

  /** The average of a band is the mean of its fine layers. */
  lemma {:induction false} BandMean(pending: seq<real>, x: real, sumTemp: real, ltCm: int)
    requires ltCm != 0 && sumTemp == SumReals(pending)
    ensures (sumTemp + x) / (((|pending| + 1) * ltCm) as real / ltCm as real) == Mean(pending + [x])
  {
    CountQuotient(|pending| + 1, ltCm);
    SumRealsSnoc(pending, x);
  }

  /** The band the loop writes when the layer at index |init| closes it. */
  lemma {:induction false} ClosedBand(s: Scan, init: seq<real>, x: real, ltCm: int, plts: seq<int>)
    requires ltCm > 0 && plts != [] && 1 <= s.iPlt <= |plts|
    requires Open(s, init, ltCm, plts)
    requires s.sumLtCm + ltCm >= plts[s.iPlt - 1]
    ensures var b := Last(s.ends);
      LayerStep(s, |init|, x, ltCm, plts) ==
        Ok(Scan(s.bands + [Band(b * ltCm, (|init| + 1) * ltCm, Mean((init + [x])[b..]))], s.ends + [|init| + 1], 0, 0.0,
                if s.iPlt < |plts| then s.iPlt + 1 else s.iPlt))
    ensures Closes(|init| + 1 - Last(s.ends), ltCm, Target(plts, |s.bands|))
  {
    var b := Last(s.ends);
    var p := |init| - b;
    Distribute(p, 0, ltCm);
    var sumLt := s.sumLtCm + ltCm;
    assert sumLt == (p + 1) * ltCm;
    BandDepths(|init|, p, ltCm);
    assert (|init| + 1) * ltCm - sumLt == b * ltCm;
    assert init[b..] + [x] == (init + [x])[b..];
    BandMean(init[b..], x, s.sumTemp, ltCm);
    assert (s.sumTemp + x) / (sumLt as real / ltCm as real) == Mean((init + [x])[b..]);
    assert Target(plts, |s.bands|) == plts[s.iPlt - 1];
  }

  /** A band closed by the layer at index |init|. */
  lemma {:induction false} StepClosesBand(s: Scan, init: seq<real>, x: real, ltCm: int, plts: seq<int>)
    requires ltCm > 0 && plts != [] && 1 <= s.iPlt <= |plts|
    requires Tiled(s, init, ltCm, plts)
    requires s.sumLtCm + ltCm >= plts[s.iPlt - 1]
    ensures LayerStep(s, |init|, x, ltCm, plts).Ok?
    ensures Tiled(LayerStep(s, |init|, x, ltCm, plts).value, init + [x], ltCm, plts)
  {
    var temps := init + [x];
    var b := Last(s.ends);
    ClosedBand(s, init, x, ltCm, plts);
    var r := LayerStep(s, |init|, x, ltCm, plts).value;
    AveragedExtend(s.bands, s.ends, init, x, ltCm);
    assert temps[b..] == temps[b..|temps|];
    AveragedSnoc(s.bands, s.ends, temps, ltCm, |temps|);
    MinimalSnoc(s.ends, ltCm, plts, |temps|);
    assert Last(r.ends) == |temps|;
    assert temps[|temps|..] == [];
  }

  /** A layer that does not reach the target joins the pending ones. */
  lemma {:induction false} StepKeepsPending(s: Scan, init: seq<real>, x: real, ltCm: int, plts: seq<int>)
    requires ltCm > 0 && plts != [] && 1 <= s.iPlt <= |plts|
    requires Tiled(s, init, ltCm, plts)
    requires s.sumLtCm + ltCm < plts[s.iPlt - 1]
    ensures LayerStep(s, |init|, x, ltCm, plts).Ok?
    ensures Tiled(LayerStep(s, |init|, x, ltCm, plts).value, init + [x], ltCm, plts)
  {
    var temps := init + [x];
    var b := Last(s.ends);
    Distribute(|init| - b, 0, ltCm);
    assert init[b..] + [x] == temps[b..];
    SumRealsSnoc(init[b..], x);
    AveragedExtend(s.bands, s.ends, init, x, ltCm);
    assert Target(plts, |s.bands|) == plts[s.iPlt - 1];
  }

  /** For a positive fine-layer thickness the loop never fails and its state
      is always tiled. */
  lemma {:induction false} ScanTiles(temps: seq<real>, ltCm: int, plts: seq<int>)
    requires ltCm > 0 && plts != []
    ensures ScanLayers(temps, ltCm, plts).Ok?
    ensures Tiled(ScanLayers(temps, ltCm, plts).value, temps, ltCm, plts)
    decreases |temps|
  {
    if temps != [] {
      var init := temps[..|temps| - 1];
      var x := temps[|temps| - 1];
      ScanTiles(init, ltCm, plts);
      var s := ScanLayers(init, ltCm, plts).value;
      assert init + [x] == temps;
      if s.sumLtCm + ltCm >= plts[s.iPlt - 1] {
        StepClosesBand(s, init, x, ltCm, plts);
      } else {
        StepKeepsPending(s, init, x, ltCm, plts);
      }
    }
  }

  /** The bands written for one result day, for lt_cm > 0: they start at 0
      and are contiguous; band k spans the least number of fine layers whose
      thickness reaches profile thickness k (the last thickness for all
      later bands), its depths are those layers' bounds and its value is
      their mean temperature; the trailing layers are not written, and they
      are too thin to reach the next target. */
  lemma {:induction false} AggregateBandsTile(temps: seq<real>, ltCm: int, plts: seq<int>)
    requires ltCm > 0 && plts != []
    ensures Aggregate(temps, ltCm, plts).Ok?
    ensures var bands := Aggregate(temps, ltCm, plts).value;
      var ends := ScanLayers(temps, ltCm, plts).value.ends;
      && |ends| == |bands|
      && (|bands| > 0 ==> bands[0].upper == 0)
      && (forall k :: 0 < k < |bands| ==> bands[k].upper == bands[k - 1].lower)
      && (forall k {:trigger Begin(ends, k)} :: 0 <= k < |bands| ==>
            Begin(ends, k) < ends[k] <= |temps| &&
            bands[k].lower == ends[k] * ltCm &&
            bands[k].value == Mean(temps[Begin(ends, k)..ends[k]]) &&
            Closes(ends[k] - Begin(ends, k), ltCm, Target(plts, k)))
      && Last(ends) <= |temps|
      && (|temps| > Last(ends) ==> (|temps| - Last(ends)) * ltCm < Target(plts, |bands|))
  {
    ScanTiles(temps, ltCm, plts);
    var s := ScanLayers(temps, ltCm, plts).value;
    if |s.bands| > 0 {
      assert Begin(s.ends, 0) == 0;
    }
    forall k | 0 < k < |s.bands|
      ensures s.bands[k].upper == s.bands[k - 1].lower
    {
      assert Begin(s.ends, k) == s.ends[k - 1];
      assert Begin(s.ends, k - 1) < s.ends[k - 1];
    }
  }

  /** Apart from a zero fine-layer thickness, the band loop runs to the end
      with `sum_lt_cm` the thickness of the pending layers. */
  lemma {:induction false} ScanPending(temps: seq<real>, ltCm: int, plts: seq<int>)
    requires ltCm != 0 && plts != []
    ensures ScanLayers(temps, ltCm, plts).Ok?
    ensures Pending(ScanLayers(temps, ltCm, plts).value, temps, ltCm)
    decreases |temps|
  {
    if temps != [] {
      var init := temps[..|temps| - 1];
      ScanPending(init, ltCm, plts);
      var s := ScanLayers(init, ltCm, plts).value;
      Distribute(|init| - Last(s.ends), 0, ltCm);
      assert s.sumLtCm + ltCm != 0;
    }
  }

  /** With lt_cm = 0 no band is closed unless the first target is at most 0,
      and then the first layer divides by zero. */
  lemma {:induction false} ScanZeroThickness(temps: seq<real>, plts: seq<int>)
    requires plts != []
    ensures plts[0] > 0 ==>
      (ScanLayers(temps, 0, plts).Ok? && ScanLayers(temps, 0, plts).value.bands == [] &&
       ScanLayers(temps, 0, plts).value.sumLtCm == 0 && ScanLayers(temps, 0, plts).value.iPlt == 1)
    ensures plts[0] <= 0 && temps != [] ==> ScanLayers(temps, 0, plts).Err?
    decreases |temps|
  {
    if temps != [] {
      var init := temps[..|temps| - 1];
      ScanZeroThickness(init, plts);
      if plts[0] <= 0 && init != [] {
        ScanFailureSticks(temps, 0, plts, |init|);
      }
    }
  }

  /** When the band writer fails: StopIteration for an empty profile,
      ZeroDivisionError exactly when lt_cm is 0, there is a fine layer and
      the first profile thickness is at most 0, and then already on the
      first fine layer, so that no band row precedes the exception; a
      positive first thickness with lt_cm = 0 writes no band at all. */
  lemma {:induction false} AggregateFails(temps: seq<real>, ltCm: int, plts: seq<int>)
    ensures Aggregate(temps, ltCm, plts) == Err(Exhausted) <==> plts == []
    ensures Aggregate(temps, ltCm, plts) == Err(ZeroDivision) <==>
      plts != [] && ltCm == 0 && temps != [] && plts[0] <= 0
    ensures Aggregate(temps, ltCm, plts) == Err(ZeroDivision) ==> ScanLayers(temps[..1], ltCm, plts).Err?
    ensures plts != [] && ltCm == 0 && plts[0] > 0 ==> Aggregate(temps, ltCm, plts) == Ok([])
  {
    if plts != [] {
      if ltCm == 0 {
        ScanZeroThickness(temps, plts);
        if temps != [] {
          ScanZeroThickness(temps[..1], plts);
        }
      } else {
        ScanPending(temps, ltCm, plts);
      }
    }
  }

  // ---------------------------------------------------------------------------
  // Layer rows with prefix-sum depths (run-consumer.py:146-151)

  /** `upper_cm` after i rows: the lower bound of the last row, 0 at first. */
  function LastLower(rows: seq<Band>): int
  {
    if rows == [] then 0 else rows[|rows| - 1].lower
  }

  /** The per-layer rows of one result day: layer i spans `plts_cm[i]` cm
      below the previous layer. When there are more values than profile
      layers, `plts_cm[i]` raises IndexError once the rows of the first
      |plts| layers are written. */
  function LayerRows(temps: seq<real>, plts: seq<int>): (r: Outcome<Band>)
    ensures r.crash.None? <==> |temps| <= |plts|
    ensures r.crash.Some? ==> r.crash == Some(IndexOutOfRange)
    ensures |r.jobs| == if |temps| <= |plts| then |temps| else |plts|
    decreases |temps|
  {
    if temps == [] then Done([])
    else
      var i := |temps| - 1;
      var before := LayerRows(temps[..i], plts);
      if before.crash.Some? then before
      else if i < |plts| then Done(before.jobs + [Band(LastLower(before.jobs), LastLower(before.jobs) + plts[i], temps[i])])
      else Outcome(before.jobs, Some(IndexOutOfRange))
  }

  /** Row i spans from the sum of the first i thicknesses to the sum of the
      first i + 1, and carries value i: the rows start at 0 and are
      contiguous, whether or not the loop ran to its end. */
  lemma {:induction false} LayerRowsPrefixSums(temps: seq<real>, plts: seq<int>)
    ensures var rows := LayerRows(temps, plts).jobs;
      (forall i :: 0 <= i < |rows| ==> rows[i] == Band(SumInts(plts[..i]), SumInts(plts[..i + 1]), temps[i]))
      && LastLower(rows) == SumInts(plts[..|rows|])
    decreases |temps|
  {
    if temps != [] {
      var i := |temps| - 1;
      LayerRowsPrefixSums(temps[..i], plts);
      var before := LayerRows(temps[..i], plts).jobs;
      forall j | 0 <= j < |before|
        ensures temps[..i][j] == temps[j]
      {
      }
      if LayerRows(temps[..i], plts).crash.None? && i < |plts| {
        assert plts[..i + 1][..i] == plts[..i];
      }
    }
  }

  /** The per-layer loop for one result day: the rows it wrote, and the
      exception that ended it, if any. */
  method WriteLayerRows(temps: seq<real>, pltsCm: seq<int>) returns (rows: seq<Band>, failure: Option<Error>)
    ensures Outcome(rows, failure) == LayerRows(temps, pltsCm)
  {
    rows := [];
    var upperCm := 0;
    for i := 0 to |temps|
      invariant LayerRows(temps[..i], pltsCm) == Done(rows) && upperCm == LastLower(rows)
    {
      assert temps[..i + 1][..i] == temps[..i];
      if i >= |pltsCm| {
        LayerRowsFailureSticks(temps, pltsCm, i + 1);
        return rows, Some(IndexOutOfRange);
      }
      var ltCm := pltsCm[i];
      var lowerCm := upperCm + ltCm;
      rows := rows + [Band(upperCm, lowerCm, temps[i])];
      upperCm := lowerCm;
    }
    assert temps[..|temps|] == temps;
    failure := None;
  }

  lemma {:induction false} LayerRowsFailureSticks(temps: seq<real>, plts: seq<int>, n: nat)
    requires n <= |temps| && LayerRows(temps[..n], plts).crash.Some?
    ensures LayerRows(temps, plts) == LayerRows(temps[..n], plts)
    decreases |temps|
  {
    if n < |temps| {
      var init := temps[..|temps| - 1];
      assert init[..n] == temps[..n];
      LayerRowsFailureSticks(init, plts, n);
    } else {
      assert temps[..n] == temps;
    }
  }

  /** A row of a report file: DATE, SLLT, SLLB, TSLD, TSLX, TSLN. */
  datatype Cell = Num(v: real) | NA

  datatype Row = Row(date: string, upper: int, lower: int, tsld: Cell, tslx: Cell, tsln: Cell)

  function LastRowLower(rows: seq<Row>): int
  {
    if rows == [] then 0 else rows[|rows| - 1].lower
  }

  /** The ApsimCampbell rows (soil_temperature_sensitivity_analysis/run-consumer.py:222-227):
      layer rows whose TSLX and TSLN are the layer's maximum and minimum at
      the same index. The first layer without a thickness, maximum or
      minimum raises IndexError; the rows of the layers before it are
      written. */
  function ApsimRows(date: string, temps: seq<real>, maxs: seq<real>, mins: seq<real>, plts: seq<int>)
    : (r: Outcome<Row>)
    ensures r.crash.None? <==> |temps| <= |plts| && |temps| <= |maxs| && |temps| <= |mins|
    ensures r.crash.Some? ==> r.crash == Some(IndexOutOfRange)
    ensures r.crash.None? ==> |r.jobs| == |temps|
    ensures |r.jobs| <= |temps| && |r.jobs| <= |plts| && |r.jobs| <= |maxs| && |r.jobs| <= |mins|
    ensures r.crash.Some? ==> |r.jobs| == |plts| || |r.jobs| == |maxs| || |r.jobs| == |mins|
    decreases |temps|
  {
    if temps == [] then Done([])
    else
      var i := |temps| - 1;
      var before := ApsimRows(date, temps[..i], maxs, mins, plts);
      if before.crash.Some? then before
      else if i < |plts| && i < |maxs| && i < |mins| then
        var upper := LastRowLower(before.jobs);
        Done(before.jobs + [Row(date, upper, upper + plts[i], Num(temps[i]), Num(maxs[i]), Num(mins[i]))])
      else Outcome(before.jobs, Some(IndexOutOfRange))
  }

  /** Row i spans the prefix sums of the first i and i + 1 thicknesses and
      carries the value, maximum and minimum of layer i, whether or not the
      loop ran to its end. */
  lemma {:induction false} ApsimRowsAligned(date: string, temps: seq<real>, maxs: seq<real>, mins: seq<real>, plts: seq<int>)
    ensures var rows := ApsimRows(date, temps, maxs, mins, plts).jobs;
      (forall i :: 0 <= i < |rows| ==>
        rows[i] == Row(date, SumInts(plts[..i]), SumInts(plts[..i + 1]), Num(temps[i]), Num(maxs[i]), Num(mins[i])))
      && LastRowLower(rows) == SumInts(plts[..|rows|])
    decreases |temps|
  {
    if temps != [] {
      var i := |temps| - 1;
      ApsimRowsAligned(date, temps[..i], maxs, mins, plts);
      var before := ApsimRows(date, temps[..i], maxs, mins, plts).jobs;
      forall j | 0 <= j < |before|
        ensures temps[..i][j] == temps[j]
      {
      }
      if ApsimRows(date, temps[..i], maxs, mins, plts).crash.None? && i < |plts| {
        assert plts[..i + 1][..i] == plts[..i];
      }
    }
  }

  lemma {:induction false} ApsimRowsFailureSticks(date: string, temps: seq<real>, maxs: seq<real>, mins: seq<real>, plts: seq<int>, n: nat)
    requires n <= |temps| && ApsimRows(date, temps[..n], maxs, mins, plts).crash.Some?
    ensures ApsimRows(date, temps, maxs, mins, plts) == ApsimRows(date, temps[..n], maxs, mins, plts)
    decreases |temps|
  {
    if n < |temps| {
      var init := temps[..|temps| - 1];
      assert init[..n] == temps[..n];
      ApsimRowsFailureSticks(date, init, maxs, mins, plts, n);
    } else {
      assert temps[..n] == temps;
    }
  }

  /** The ApsimCampbell per-layer loop for one result day: the rows it
      wrote, and the exception that ended it, if any. */
  method WriteApsimRows(date: string, temps: seq<real>, maxs: seq<real>, mins: seq<real>, pltsCm: seq<int>)
    returns (rows: seq<Row>, failure: Option<Error>)
    ensures Outcome(rows, failure) == ApsimRows(date, temps, maxs, mins, pltsCm)
  {
    rows := [];
    var upperCm := 0;
    for i := 0 to |temps|
      invariant ApsimRows(date, temps[..i], maxs, mins, pltsCm) == Done(rows) && upperCm == LastRowLower(rows)
    {
      assert temps[..i + 1][..i] == temps[..i];
      if i >= |pltsCm| || i >= |maxs| || i >= |mins| {
        ApsimRowsFailureSticks(date, temps, maxs, mins, pltsCm, i + 1);
        return rows, Some(IndexOutOfRange);
      }
      var ltCm := pltsCm[i];
      var lowerCm := upperCm + ltCm;
      rows := rows + [Row(date, upperCm, lowerCm, Num(temps[i]), Num(maxs[i]), Num(mins[i]))];
      upperCm := lowerCm;
    }
    assert temps[..|temps|] == temps;
    failure := None;
  }

  // ---------------------------------------------------------------------------
  // The SQ model's report

  /** The nine fixed bands below the surface band. */
  const DeepBands: seq<(int, int)> :=
    [(5, 15), (15, 30), (30, 45), (45, 60), (60, 90), (90, 120), (120, 150), (150, 180), (180, 210)]

  function DeepRows(date: string, deep: real): (rows: seq<Row>)
    ensures |rows| == 9 && rows[0].upper == 5 && rows[8].lower == 210
    ensures forall k :: 0 < k < 9 ==> rows[k].upper == rows[k - 1].lower
    ensures forall k :: 0 <= k < 9 ==> rows[k].upper < rows[k].lower && rows[k].tsld == Num(deep)
  {
    seq(|DeepBands|, k requires 0 <= k < |DeepBands| => Row(date, DeepBands[k].0, DeepBands[k].1, Num(deep), NA, NA))
  }

  /** run-consumer.py:182-188 as written: the surface row has depths 0-0 and
      puts the minimum in the TSLX (maximum) column and the maximum in the
      TSLN (minimum) column. */
  function SqcRowsAsWritten(date: string, stMin: real, stMax: real, deep: real): seq<Row>
  {
    [NaRow(date), Row(date, 0, 0, Num((stMin + stMax) / 2.0), Num(stMin), Num(stMax))] +
    DeepRows(date, deep)
  }

  /** The first row of every SQ day, written before any value is looked up. */
  function NaRow(date: string): Row
  {
    Row(date, 0, 0, NA, NA, NA)
  }

  /** The "na" row and the 0-5 cm surface band of the SQ report, written
      before the deep value is looked up. */
  function SqcSurfaceRows(date: string, stMin: real, stMax: real): seq<Row>
  {
    [NaRow(date), Row(date, 0, 5, Num((stMin + stMax) / 2.0), Num(stMax), Num(stMin))]
  }

  /** The SQ rows with the surface band 0-5 cm and the maximum under TSLX,
      as soil_temperature_sensitivity_analysis/run-consumer.py:169-175
      writes them. */
  function SqcRows(date: string, stMin: real, stMax: real, deep: real): (rows: seq<Row>)
    ensures |rows| == 11 && rows[0] == NaRow(date)
    ensures rows[..2] == SqcSurfaceRows(date, stMin, stMax)
    ensures rows[1].upper == 0 && rows[10].lower == 210
    ensures forall k :: 1 < k < 11 ==> rows[k].upper == rows[k - 1].lower
    ensures rows[1].tslx == Num(stMax) && rows[1].tsln == Num(stMin)
    ensures rows[1].tsld.Num? && (stMin <= stMax ==> stMin <= rows[1].tsld.v <= stMax)
    ensures forall k :: 2 <= k < 11 ==> rows[k].tsld == Num(deep)
  {
    var deepRows := DeepRows(date, deep);
    var rows := SqcSurfaceRows(date, stMin, stMax) + deepRows;
    assert forall k :: 2 <= k < 11 ==> rows[k] == deepRows[k - 2];
    rows
  }

  /** With minimum 1 and maximum 3 the as-written row reports a TSLX below
      its TSLN and leaves 0-5 cm uncovered, where the corrected rows report
      3 and 1 over 0-5 cm. */
  lemma {:induction false} SqcColumnsSwapped()
    ensures var row := SqcRowsAsWritten("2000-01-01", 1.0, 3.0, 0.0)[1];
      row.tslx == Num(1.0) && row.tsln == Num(3.0) && row.lower == 0 &&
      SqcRowsAsWritten("2000-01-01", 1.0, 3.0, 0.0)[2].upper == 5
    ensures var row := SqcRows("2000-01-01", 1.0, 3.0, 0.0)[1];
      row.tslx == Num(3.0) && row.tsln == Num(1.0) && row.lower == 5
  {
  }
}
