/** The indicator engine: True Range, directional movement, Wilder-smoothed
    averages, the directional indicators +DI/-DI, DX and the Average
    Directional Index (ADX), one value per bar, zero before each quantity's
    seed index. */
module Indicators {
  import opened Reals

  /** One price bar; `time` is an opaque timestamp, ascending along a series. */
  datatype Bar = Bar(time: int, open: real, high: real, low: real, close: real, volume: real)

  /** Every derived series, aligned with the bars by index. */
  datatype Series = Series(
    tr: seq<real>, plusDM: seq<real>, minusDM: seq<real>,
    atr: seq<real>, plusSmooth: seq<real>, minusSmooth: seq<real>,
    plusDI: seq<real>, minusDI: seq<real>, dx: seq<real>, adx: seq<real>)

  // ---------------------------------------------------------------------
  // Per-bar raw quantities
  // ---------------------------------------------------------------------

  /** True Range of bar `i`: the widest of the bar's own range and its two
      gaps to the previous close; the first bar has none. */
  function TrueRange(bars: seq<Bar>, i: nat): (tr: real)
    requires i < |bars|
    ensures tr >= 0.0
    ensures i == 0 ==> tr == 0.0
    ensures i > 0 ==>
      && tr >= bars[i].high - bars[i].low
      && tr >= Abs(bars[i].high - bars[i - 1].close)
      && tr >= Abs(bars[i].low - bars[i - 1].close)
    ensures i > 0 ==>
      || tr == bars[i].high - bars[i].low
      || tr == Abs(bars[i].high - bars[i - 1].close)
      || tr == Abs(bars[i].low - bars[i - 1].close)
  {
    if i == 0 then 0.0
    else
      Max(Max(bars[i].high - bars[i].low, Abs(bars[i].high - bars[i - 1].close)),
          Abs(bars[i].low - bars[i - 1].close))
  }

  function UpMove(bars: seq<Bar>, i: nat): (up: real)
    requires 0 < i < |bars|
  {
    bars[i].high - bars[i - 1].high
  }

  function DownMove(bars: seq<Bar>, i: nat): (down: real)
    requires 0 < i < |bars|
  {
    bars[i - 1].low - bars[i].low
  }

  /** +DM of bar `i`: the up-move when it is positive and beats the down-move. */
  function PlusDM(bars: seq<Bar>, i: nat): (dm: real)
    requires i < |bars|
    ensures dm >= 0.0
    ensures dm > 0.0 <==> i > 0 && UpMove(bars, i) > DownMove(bars, i) && UpMove(bars, i) > 0.0
    ensures dm > 0.0 ==> dm == UpMove(bars, i)
  {
    if i > 0 && UpMove(bars, i) > DownMove(bars, i) && UpMove(bars, i) > 0.0 then UpMove(bars, i)
    else 0.0
  }

  /** -DM of bar `i`: the down-move when it is positive and beats the up-move.
      At most one of +DM and -DM is positive at any bar. */
  function MinusDM(bars: seq<Bar>, i: nat): (dm: real)
    requires i < |bars|
    ensures dm >= 0.0
    ensures dm > 0.0 <==> i > 0 && DownMove(bars, i) > UpMove(bars, i) && DownMove(bars, i) > 0.0
    ensures dm > 0.0 ==> dm == DownMove(bars, i)
    ensures dm > 0.0 ==> PlusDM(bars, i) == 0.0
  {
    if i > 0 && DownMove(bars, i) > UpMove(bars, i) && DownMove(bars, i) > 0.0 then DownMove(bars, i)
    else 0.0
  }

  // ---------------------------------------------------------------------
  // Wilder smoothing
  // ---------------------------------------------------------------------

  function Sum(xs: seq<real>): (s: real)
  {
    if |xs| == 0 then 0.0 else xs[0] + Sum(xs[1..])
  }

  function Mean(xs: seq<real>): (m: real)
    requires |xs| > 0
  {
    Sum(xs) / (|xs| as real)
  }

  /** Wilder's smoothing of `xs` with period `p`, at index `i`: zero before
      `seed`, the mean of the `p` raw values ending at `seed` there, and
      afterwards the previous value weighted (p-1)/p plus the new raw value
      weighted 1/p. */
  function Wilder(xs: seq<real>, seed: nat, p: nat, i: nat): (w: real)
    requires 1 <= p <= seed + 1 && i < |xs|
    decreases i
  {
    if i < seed then 0.0
    else if i == seed then Mean(xs[seed + 1 - p .. seed + 1])
    else WilderStep(Wilder(xs, seed, p, i - 1), xs[i], p as real)
  }

  /** One step of Wilder's recurrence: the previous average weighted
      (p-1)/p plus the new raw value weighted 1/p. */
  function WilderStep(prev: real, x: real, p: real): (next: real)
    requires p >= 1.0
  {
    (prev * (p - 1.0) + x) / p
  }

  function Smoothed(xs: seq<real>, seed: nat, p: nat): (s: seq<real>)
    requires 1 <= p <= seed + 1
    ensures |s| == |xs|
  {
    seq(|xs|, i requires 0 <= i < |xs| => Wilder(xs, seed, p, i))
  }

  // ---------------------------------------------------------------------
  // Directional indicators
  // ---------------------------------------------------------------------

  /** +DI or -DI from a smoothed DM and the ATR; zero when the ATR is zero. */
  function DirectionalIndex(dmSmooth: real, atr: real): (di: real)
    ensures atr == 0.0 ==> di == 0.0
    ensures dmSmooth >= 0.0 && atr >= 0.0 ==> di >= 0.0
    ensures 0.0 <= dmSmooth <= atr ==> di <= 100.0
  {
    if atr != 0.0 then
      DivFacts(dmSmooth, atr);
      dmSmooth / atr * 100.0
    else 0.0
  }

  /** DX from +DI and -DI; zero when their sum is zero. */
  function DirectionalMovementIndex(plusDI: real, minusDI: real): (dx: real)
    ensures plusDI + minusDI == 0.0 ==> dx == 0.0
    ensures plusDI >= 0.0 && minusDI >= 0.0 ==> 0.0 <= dx <= 100.0
    ensures plusDI >= 0.0 && minusDI >= 0.0 ==> (dx == 100.0 <==> plusDI == 0.0 || minusDI == 0.0) || plusDI + minusDI == 0.0
  {
    var diSum := plusDI + minusDI;
    if diSum != 0.0 then
      DivFacts(Abs(plusDI - minusDI), diSum);
      Abs(plusDI - minusDI) / diSum * 100.0
    else 0.0
  }

  // ---------------------------------------------------------------------
  // The whole engine
  // ---------------------------------------------------------------------

  function TrueRanges(bars: seq<Bar>): (s: seq<real>)
    ensures |s| == |bars|
  {
    seq(|bars|, i requires 0 <= i < |bars| => TrueRange(bars, i))
  }

  function PlusDMs(bars: seq<Bar>): (s: seq<real>)
    ensures |s| == |bars|
  {
    seq(|bars|, i requires 0 <= i < |bars| => PlusDM(bars, i))
  }

  function MinusDMs(bars: seq<Bar>): (s: seq<real>)
    ensures |s| == |bars|
  {
    seq(|bars|, i requires 0 <= i < |bars| => MinusDM(bars, i))
  }

  /** +DI (or -DI) per bar from the smoothed DM and the ATR, from `start` on. */
  function DirectionalSeries(dmSmooth: seq<real>, atr: seq<real>, start: nat): (s: seq<real>)
    requires |dmSmooth| == |atr|
    ensures |s| == |atr|
  {
    seq(|atr|, i requires 0 <= i < |atr| => if i < start then 0.0 else DirectionalIndex(dmSmooth[i], atr[i]))
  }

  /** DX per bar from +DI and -DI, from `start` on. */
  function DXSeries(plusDI: seq<real>, minusDI: seq<real>, start: nat): (s: seq<real>)
    requires |plusDI| == |minusDI|
    ensures |s| == |plusDI|
  {
    seq(|plusDI|, i requires 0 <= i < |plusDI| => if i < start then 0.0 else DirectionalMovementIndex(plusDI[i], minusDI[i]))
  }

  /** Every indicator series for `bars` with smoothing period `period`: the
      DM and ATR averages are seeded at index `period`, the DI and DX series
      start there, and ADX is seeded at index `2*period - 1`. */
  function Compute(bars: seq<Bar>, period: nat): (ind: Series)
    requires period >= 1
    ensures Aligned(ind, |bars|)
  {
    var tr := TrueRanges(bars);
    var pdm := PlusDMs(bars);
    var mdm := MinusDMs(bars);
    var atr := Smoothed(tr, period, period);
    var ps := Smoothed(pdm, period, period);
    var ms := Smoothed(mdm, period, period);
    var pdi := DirectionalSeries(ps, atr, period);
    var mdi := DirectionalSeries(ms, atr, period);
    var dx := DXSeries(pdi, mdi, period);
    var adx := Smoothed(dx, 2 * period - 1, period);
    Series(tr, pdm, mdm, atr, ps, ms, pdi, mdi, dx, adx)
  }

  predicate Aligned(ind: Series, n: nat)
  {
    && |ind.tr| == n && |ind.plusDM| == n && |ind.minusDM| == n
    && |ind.atr| == n && |ind.plusSmooth| == n && |ind.minusSmooth| == n
    && |ind.plusDI| == n && |ind.minusDI| == n && |ind.dx| == n && |ind.adx| == n
  }

  // ---------------------------------------------------------------------
  // Range properties
  // ---------------------------------------------------------------------

  lemma {:induction false} SumNonNegative(xs: seq<real>)
    requires forall j :: 0 <= j < |xs| ==> xs[j] >= 0.0
    ensures Sum(xs) >= 0.0
  {
    if |xs| > 0 {
      SumNonNegative(xs[1..]);
    }
  }

  lemma {:induction false} SumAtMost(xs: seq<real>, hi: real)
    requires forall j :: 0 <= j < |xs| ==> xs[j] <= hi
    ensures Sum(xs) <= (|xs| as real) * hi
  {
    if |xs| > 0 {
      SumAtMost(xs[1..], hi);
    }
  }

  /** A Wilder average of non-negative values is non-negative. */
  lemma {:induction false} WilderNonNegative(xs: seq<real>, seed: nat, p: nat, i: nat)
    requires 1 <= p <= seed + 1 && i < |xs|
    requires forall j :: 0 <= j < |xs| ==> xs[j] >= 0.0
    ensures Wilder(xs, seed, p, i) >= 0.0
  {
    if i == seed {
      var w := xs[seed + 1 - p .. seed + 1];
      SumNonNegative(w);
      DivFacts(Sum(w), |w| as real);
    } else if i > seed {
      WilderNonNegative(xs, seed, p, i - 1);
      StepNonNegative(Wilder(xs, seed, p, i - 1), xs[i], p as real);
    }
  }

  /** A Wilder average never exceeds a bound that every raw value stays
      under: each step is a convex combination of the previous average and
      the new value. */
  lemma {:induction false} WilderAtMost(xs: seq<real>, seed: nat, p: nat, hi: real, i: nat)
    requires 1 <= p <= seed + 1 && i < |xs|
    requires hi >= 0.0
    requires forall j :: 0 <= j < |xs| ==> xs[j] <= hi
    ensures Wilder(xs, seed, p, i) <= hi
    decreases i, 1
  {
    if i == seed {
      SeedAtMost(xs, seed, p, hi);
    } else if i > seed {
      StepAtMost(xs, seed, p, hi, i);
    }
  }

  lemma SeedAtMost(xs: seq<real>, seed: nat, p: nat, hi: real)
    requires 1 <= p <= seed + 1 && seed < |xs|
    requires forall j :: 0 <= j < |xs| ==> xs[j] <= hi
    ensures Wilder(xs, seed, p, seed) <= hi
  {
    var lo := seed + 1 - p;
    var w := xs[lo .. seed + 1];
    forall j | 0 <= j < |w|
      ensures w[j] <= hi
    {
      assert w[j] == xs[lo + j];
    }
    MeanAtMost(w, hi);
  }

  lemma {:induction false} StepAtMost(xs: seq<real>, seed: nat, p: nat, hi: real, i: nat)
    requires 1 <= p <= seed + 1 && seed < i < |xs|
    requires hi >= 0.0
    requires forall j :: 0 <= j < |xs| ==> xs[j] <= hi
    ensures Wilder(xs, seed, p, i) <= hi
    decreases i, 0
  {
    WilderAtMost(xs, seed, p, hi, i - 1);
    assert xs[i] <= hi;
    ConvexStepAtMost(Wilder(xs, seed, p, i - 1), xs[i], p as real, hi);
  }

  /** The raw and smoothed quantities are non-negative, +DI and -DI are
      non-negative, and DX and ADX lie in [0, 100], for every series. */
  lemma IndicatorRanges(bars: seq<Bar>, period: nat)
    requires period >= 1
    ensures var ind := Compute(bars, period);
      forall i :: 0 <= i < |bars| ==>
        && ind.tr[i] >= 0.0 && ind.plusDM[i] >= 0.0 && ind.minusDM[i] >= 0.0
        && ind.atr[i] >= 0.0 && ind.plusSmooth[i] >= 0.0 && ind.minusSmooth[i] >= 0.0
        && ind.plusDI[i] >= 0.0 && ind.minusDI[i] >= 0.0
        && 0.0 <= ind.dx[i] <= 100.0
        && 0.0 <= ind.adx[i] <= 100.0
  {
    var ind := Compute(bars, period);
    forall i | 0 <= i < |bars|
      ensures ind.atr[i] >= 0.0 && ind.plusSmooth[i] >= 0.0 && ind.minusSmooth[i] >= 0.0
    {
      WilderNonNegative(ind.tr, period, period, i);
      WilderNonNegative(ind.plusDM, period, period, i);
      WilderNonNegative(ind.minusDM, period, period, i);
    }
    assert forall i :: 0 <= i < |bars| ==> 0.0 <= ind.dx[i] <= 100.0;
    forall i | 0 <= i < |bars|
      ensures 0.0 <= ind.adx[i] <= 100.0
    {
      WilderNonNegative(ind.dx, 2 * period - 1, period, i);
      WilderAtMost(ind.dx, 2 * period - 1, period, 100.0, i);
    }
  }

  /** A Wilder series is zero before its seed, the plain mean of the `p`
      raw values ending at the seed there, and follows the recurrence
      s[i] = (s[i-1]*(p-1) + x[i]) / p afterwards. */
  lemma SmoothedShape(xs: seq<real>, seed: nat, p: nat)
    requires 1 <= p <= seed + 1
    ensures var s := Smoothed(xs, seed, p);
      && (forall i :: 0 <= i < |xs| && i < seed ==> s[i] == 0.0)
      && (seed < |xs| ==> s[seed] == Mean(xs[seed + 1 - p .. seed + 1]))
      && (forall i :: seed < i < |xs| ==> s[i] == WilderStep(s[i - 1], xs[i], p as real))
  {
    var s := Smoothed(xs, seed, p);
    forall i | seed < i < |xs|
      ensures s[i] == WilderStep(s[i - 1], xs[i], p as real)
    {
    }
  }

  /** Every quantity is zero before its seed index: the averages, +DI, -DI
      and DX before `period`, ADX before `2*period - 1`. */
  lemma ZeroBeforeSeed(bars: seq<Bar>, period: nat)
    requires period >= 1
    ensures var ind := Compute(bars, period);
      && (forall i :: 0 <= i < |bars| && i < period ==>
            ind.atr[i] == 0.0 && ind.plusSmooth[i] == 0.0 && ind.minusSmooth[i] == 0.0
            && ind.plusDI[i] == 0.0 && ind.minusDI[i] == 0.0 && ind.dx[i] == 0.0)
      && (forall i :: 0 <= i < |bars| && i < 2 * period - 1 ==> ind.adx[i] == 0.0)
  {
    var ind := Compute(bars, period);
    SmoothedShape(ind.tr, period, period);
    SmoothedShape(ind.plusDM, period, period);
    SmoothedShape(ind.minusDM, period, period);
    SmoothedShape(ind.dx, 2 * period - 1, period);
  }

  /** The ATR and the DM averages are seeded at `period` with the mean of
      their raw values over bars 1..period, ADX at `2*period - 1` with the
      mean of DX over bars period..2*period-1, and each follows Wilder's
      recurrence afterwards. */
  lemma SeedsAndRecurrences(bars: seq<Bar>, period: nat)
    requires period >= 1
    ensures var ind := Compute(bars, period); var n := |bars|; var p := period as real;
      && (period < n ==>
            && ind.atr[period] == Mean(ind.tr[1 .. period + 1])
            && ind.plusSmooth[period] == Mean(ind.plusDM[1 .. period + 1])
            && ind.minusSmooth[period] == Mean(ind.minusDM[1 .. period + 1]))
      && (forall i :: period < i < n ==>
            && ind.atr[i] == WilderStep(ind.atr[i - 1], ind.tr[i], p)
            && ind.plusSmooth[i] == WilderStep(ind.plusSmooth[i - 1], ind.plusDM[i], p)
            && ind.minusSmooth[i] == WilderStep(ind.minusSmooth[i - 1], ind.minusDM[i], p))
      && (2 * period - 1 < n ==> ind.adx[2 * period - 1] == Mean(ind.dx[period .. 2 * period]))
      && (forall i :: 2 * period - 1 < i < n ==>
            ind.adx[i] == WilderStep(ind.adx[i - 1], ind.dx[i], p))
  {
    var ind := Compute(bars, period);
    SmoothedShape(ind.tr, period, period);
    SmoothedShape(ind.plusDM, period, period);
    SmoothedShape(ind.minusDM, period, period);
    SmoothedShape(ind.dx, 2 * period - 1, period);
  }

  /** The division guards: +DI and -DI are zero wherever the ATR is zero, and
      DX is zero wherever +DI + -DI is zero. */
  lemma DivisionGuards(bars: seq<Bar>, period: nat)
    requires period >= 1
    ensures var ind := Compute(bars, period);
      && (forall i :: 0 <= i < |bars| && ind.atr[i] == 0.0 ==> ind.plusDI[i] == 0.0 && ind.minusDI[i] == 0.0)
      && (forall i :: 0 <= i < |bars| && ind.plusDI[i] + ind.minusDI[i] == 0.0 ==> ind.dx[i] == 0.0)
  {
  }

  /** With no change in highs or lows from bar to bar there is no directional
      movement, so +DI, -DI, DX and ADX are zero throughout, whatever the
      closes do. */
  lemma NoMovementNoTrend(bars: seq<Bar>, period: nat)
    requires period >= 1
    requires forall i :: 0 < i < |bars| ==> bars[i].high == bars[i - 1].high && bars[i].low == bars[i - 1].low
    ensures var ind := Compute(bars, period);
      forall i :: 0 <= i < |bars| ==>
        ind.plusDI[i] == 0.0 && ind.minusDI[i] == 0.0 && ind.dx[i] == 0.0 && ind.adx[i] == 0.0
  {
    var ind := Compute(bars, period);
    assert forall i :: 0 <= i < |bars| ==> ind.plusDM[i] == 0.0 && ind.minusDM[i] == 0.0;
    forall i | 0 <= i < |bars|
      ensures ind.plusSmooth[i] == 0.0 && ind.minusSmooth[i] == 0.0
    {
      WilderNonNegative(ind.plusDM, period, period, i);
      WilderAtMost(ind.plusDM, period, period, 0.0, i);
      WilderNonNegative(ind.minusDM, period, period, i);
      WilderAtMost(ind.minusDM, period, period, 0.0, i);
    }
    assert forall i :: 0 <= i < |bars| ==> ind.plusDI[i] == 0.0 && ind.minusDI[i] == 0.0 && ind.dx[i] == 0.0;
    forall i | 0 <= i < |bars|
      ensures ind.adx[i] == 0.0
    {
      WilderNonNegative(ind.dx, 2 * period - 1, period, i);
      WilderAtMost(ind.dx, 2 * period - 1, period, 0.0, i);
    }
  }

  /** A bar is well formed when its low is at most its close and its close
      at most its high. */
  predicate WellFormed(bars: seq<Bar>)
  {
    forall i :: 0 <= i < |bars| ==> bars[i].low <= bars[i].close <= bars[i].high
  }

  /** On well-formed bars the directional movement of a bar never exceeds its
      True Range: the previous close lies inside the previous bar's range. */
  lemma MovementWithinRange(bars: seq<Bar>, i: nat)
    requires i < |bars| && WellFormed(bars)
    ensures PlusDM(bars, i) + MinusDM(bars, i) <= TrueRange(bars, i)
  {
  }

  lemma {:induction false} SumOfSumsAtMost(a: seq<real>, b: seq<real>, c: seq<real>)
    requires |a| == |b| == |c|
    requires forall j :: 0 <= j < |a| ==> a[j] + b[j] <= c[j]
    ensures Sum(a) + Sum(b) <= Sum(c)
  {
    if |a| > 0 {
      SumOfSumsAtMost(a[1..], b[1..], c[1..]);
    }
  }

  lemma MeansAtMost(a: seq<real>, b: seq<real>, c: seq<real>)
    requires 0 < |a| == |b| == |c|
    requires forall j :: 0 <= j < |a| ==> a[j] + b[j] <= c[j]
    ensures Mean(a) + Mean(b) <= Mean(c)
  {
    SumOfSumsAtMost(a, b, c);
    var n := |a| as real;
    assert Sum(a) / n + Sum(b) / n == (Sum(a) + Sum(b)) / n;
    QuotientMonotone(Sum(a) + Sum(b), Sum(c), n);
  }

  lemma QuotientMonotone(x: real, y: real, n: real)
    requires n > 0.0 && x <= y
    ensures x / n <= y / n
  {
    assert y / n - x / n == (y - x) / n;
    DivFacts(y - x, n);
  }

  lemma StepsAtMost(pa: real, xa: real, pb: real, xb: real, pc: real, xc: real, p: real)
    requires p >= 1.0 && pa + pb <= pc && xa + xb <= xc
    ensures WilderStep(pa, xa, p) + WilderStep(pb, xb, p) <= WilderStep(pc, xc, p)
  {
    assert (pa * (p - 1.0) + xa) + (pb * (p - 1.0) + xb) == (pa + pb) * (p - 1.0) + (xa + xb);
    assert (pa + pb) * (p - 1.0) <= pc * (p - 1.0) by {
      assert (pc - (pa + pb)) * (p - 1.0) >= 0.0;
    }
    assert WilderStep(pa, xa, p) + WilderStep(pb, xb, p) == ((pa * (p - 1.0) + xa) + (pb * (p - 1.0) + xb)) / p;
    QuotientMonotone((pa * (p - 1.0) + xa) + (pb * (p - 1.0) + xb), pc * (p - 1.0) + xc, p);
  }

  /** A pointwise bound a[j] + b[j] <= c[j] on the raw values carries over
      to their Wilder averages. */
  lemma {:induction false} WilderSumAtMost(a: seq<real>, b: seq<real>, c: seq<real>, seed: nat, p: nat, i: nat)
    requires 1 <= p <= seed + 1 && i < |a| == |b| == |c|
    requires forall j :: 0 <= j < |a| ==> a[j] + b[j] <= c[j]
    ensures Wilder(a, seed, p, i) + Wilder(b, seed, p, i) <= Wilder(c, seed, p, i)
  {
    if i == seed {
      var lo := seed + 1 - p;
      MeansAtMost(a[lo .. seed + 1], b[lo .. seed + 1], c[lo .. seed + 1]);
    } else if i > seed {
      WilderSumAtMost(a, b, c, seed, p, i - 1);
      StepsAtMost(Wilder(a, seed, p, i - 1), a[i], Wilder(b, seed, p, i - 1), b[i],
                  Wilder(c, seed, p, i - 1), c[i], p as real);
    }
  }

  lemma DISumAtMost(ps: real, ms: real, atr: real)
    requires ps >= 0.0 && ms >= 0.0 && ps + ms <= atr
    ensures DirectionalIndex(ps, atr) + DirectionalIndex(ms, atr) <= 100.0
  {
    if atr != 0.0 {
      QuotientsAdd(ps, ms, atr);
      DivFacts(ps + ms, atr);
    }
  }

  /** On well-formed bars +DI and -DI together never exceed 100, so each of
      them lies in [0, 100]. */
  lemma DirectionalIndicesAtMost100(bars: seq<Bar>, period: nat)
    requires period >= 1 && WellFormed(bars)
    ensures var ind := Compute(bars, period);
      forall i :: 0 <= i < |bars| ==>
        0.0 <= ind.plusDI[i] && 0.0 <= ind.minusDI[i] && ind.plusDI[i] + ind.minusDI[i] <= 100.0
  {
    var ind := Compute(bars, period);
    IndicatorRanges(bars, period);
    forall j | 0 <= j < |bars|
      ensures ind.plusDM[j] + ind.minusDM[j] <= ind.tr[j]
    {
      MovementWithinRange(bars, j);
    }
    forall i | 0 <= i < |bars| && period <= i
      ensures ind.plusDI[i] + ind.minusDI[i] <= 100.0
    {
      WilderSumAtMost(ind.plusDM, ind.minusDM, ind.tr, period, period, i);
      DISumAtMost(ind.plusSmooth[i], ind.minusSmooth[i], ind.atr[i]);
    }
  }

  // ---------------------------------------------------------------------
  // Steady trends
  // ---------------------------------------------------------------------

  lemma {:induction false} SumConstant(xs: seq<real>, k: real)
    requires forall j :: 0 <= j < |xs| ==> xs[j] == k
    ensures Sum(xs) == |xs| as real * k
  {
    if |xs| > 0 {
      SumConstant(xs[1..], k);
      OneMoreCopy((|xs| - 1) as real, k);
    }
  }

  /** The mean of a run of equal values is that value. */
  lemma MeanConstant(xs: seq<real>, k: real)
    requires |xs| > 0
    requires forall j :: 0 <= j < |xs| ==> xs[j] == k
    ensures Mean(xs) == k
  {
    SumConstant(xs, k);
    CopiesOver(|xs| as real, k);
  }

  /** Wilder smoothing of values that equal `k` from the start of the seed
      window on is `k` from the seed on: a constant is its own average. */
  lemma {:induction false} WilderConstant(xs: seq<real>, k: real, seed: nat, p: nat, i: nat)
    requires 1 <= p <= seed + 1 && seed <= i < |xs|
    requires forall j :: seed + 1 - p <= j < |xs| ==> xs[j] == k
    ensures Wilder(xs, seed, p, i) == k
    decreases i, 1
  {
    if i == seed {
      SeedOfConstant(xs, k, seed, p);
    } else {
      StepOfConstant(xs, k, seed, p, i);
    }
  }

  lemma SeedOfConstant(xs: seq<real>, k: real, seed: nat, p: nat)
    requires 1 <= p <= seed + 1 && seed < |xs|
    requires forall j :: seed + 1 - p <= j < |xs| ==> xs[j] == k
    ensures Wilder(xs, seed, p, seed) == k
  {
    var lo := seed + 1 - p;
    var w := xs[lo .. seed + 1];
    forall j | 0 <= j < |w|
      ensures w[j] == k
    {
      assert w[j] == xs[lo + j];
    }
    MeanConstant(w, k);
  }

  lemma {:induction false} StepOfConstant(xs: seq<real>, k: real, seed: nat, p: nat, i: nat)
    requires 1 <= p <= seed + 1 && seed < i < |xs|
    requires forall j :: seed + 1 - p <= j < |xs| ==> xs[j] == k
    ensures Wilder(xs, seed, p, i) == k
    decreases i, 0
  {
    WilderConstant(xs, k, seed, p, i - 1);
    assert xs[i] == k;
    StepFixesConstant(k, p as real);
  }

  /** When every bar after the first has the same True Range `t > 0`, the
      same +DM `d` and no -DM, then from index `period` on +DI is the
      constant 100*d/t and -DI is zero. */
  lemma ConstantMovementConstantDI(bars: seq<Bar>, period: nat, t: real, d: real)
    requires period >= 1 && t > 0.0
    requires forall i :: 0 < i < |bars| ==>
      TrueRange(bars, i) == t && PlusDM(bars, i) == d && MinusDM(bars, i) == 0.0
    ensures var ind := Compute(bars, period);
      forall i :: period <= i < |bars| ==> ind.plusDI[i] == d / t * 100.0 && ind.minusDI[i] == 0.0
  {
    var ind := Compute(bars, period);
    forall j | 1 <= j < |bars|
      ensures ind.tr[j] == t && ind.plusDM[j] == d && ind.minusDM[j] == 0.0
    {
      assert ind.tr[j] == TrueRange(bars, j) && ind.plusDM[j] == PlusDM(bars, j) && ind.minusDM[j] == MinusDM(bars, j);
    }
    forall i | period <= i < |bars|
      ensures ind.plusDI[i] == d / t * 100.0 && ind.minusDI[i] == 0.0
    {
      WilderConstant(ind.tr, t, period, period, i);
      WilderConstant(ind.plusDM, d, period, period, i);
      WilderConstant(ind.minusDM, 0.0, period, period, i);
      assert ind.atr[i] == Wilder(ind.tr, period, period, i);
      assert ind.plusSmooth[i] == Wilder(ind.plusDM, period, period, i);
      assert ind.minusSmooth[i] == Wilder(ind.minusDM, period, period, i);
      assert ind.plusDI[i] == DirectionalIndex(ind.plusSmooth[i], ind.atr[i]);
      assert ind.minusDI[i] == DirectionalIndex(ind.minusSmooth[i], ind.atr[i]);
    }
  }

  /** Every high, low and close rises by the same step `d` from bar to bar. */
  predicate SteadyRise(bars: seq<Bar>, d: real)
  {
    forall i :: 0 < i < |bars| ==>
      && bars[i].high == bars[i - 1].high + d
      && bars[i].low == bars[i - 1].low + d
      && bars[i].close == bars[i - 1].close + d
  }

  lemma {:induction false} SteadyRiseKeepsShape(bars: seq<Bar>, d: real, i: nat)
    requires SteadyRise(bars, d) && i < |bars|
    ensures bars[i].high - bars[i].low == bars[0].high - bars[0].low
    ensures bars[i].high - bars[i].close == bars[0].high - bars[0].close
    ensures bars[i].low - bars[i].close == bars[0].low - bars[0].close
  {
    if i > 0 {
      SteadyRiseKeepsShape(bars, d, i - 1);
    }
  }

  /** A steady rise by `d > 0` on well-formed bars has the same True Range
      `t >= d` on every bar after the first, +DM equal to `d` and no -DM. */
  lemma SteadyRiseConstantMovement(bars: seq<Bar>, d: real) returns (t: real)
    requires SteadyRise(bars, d) && d > 0.0 && WellFormed(bars)
    ensures t >= d
    ensures forall i :: 0 < i < |bars| ==>
      TrueRange(bars, i) == t && PlusDM(bars, i) == d && MinusDM(bars, i) == 0.0
  {
    if |bars| == 0 {
      return d;
    }
    var b := bars[0];
    t := Max(Max(b.high - b.low, Abs(b.high - b.close + d)), Abs(b.low - b.close + d));
    forall i | 0 < i < |bars|
      ensures TrueRange(bars, i) == t && PlusDM(bars, i) == d && MinusDM(bars, i) == 0.0
    {
      SteadyRiseBar(bars, d, i);
    }
  }

  /** One bar of a steady rise: its True Range is the first bar's shape
      shifted by `d`, +DM is `d` and -DM is zero. */
  lemma SteadyRiseBar(bars: seq<Bar>, d: real, i: nat)
    requires SteadyRise(bars, d) && d > 0.0 && 0 < i < |bars|
    ensures var b := bars[0];
      TrueRange(bars, i) == Max(Max(b.high - b.low, Abs(b.high - b.close + d)), Abs(b.low - b.close + d))
    ensures PlusDM(bars, i) == d && MinusDM(bars, i) == 0.0
  {
    SteadyRiseKeepsShape(bars, d, i);
    SteadyRiseKeepsShape(bars, d, i - 1);
    assert bars[i].high - bars[i - 1].close == bars[i].high - bars[i].close + d;
    assert bars[i].low - bars[i - 1].close == bars[i].low - bars[i].close + d;
  }

  // ---------------------------------------------------------------------
  // The engine as a sequence of array passes
  // ---------------------------------------------------------------------

  function Zeros(n: nat): (z: seq<real>)
    ensures |z| == n && forall j :: 0 <= j < n ==> z[j] == 0.0
  {
    seq(n, _ => 0.0)
  }

  /** The first pass: TR, +DM and -DM for bars 1..n-1 into zero-filled arrays. */
  method RawMovement(bars: seq<Bar>) returns (tr: seq<real>, pdm: seq<real>, mdm: seq<real>)
    ensures tr == TrueRanges(bars) && pdm == PlusDMs(bars) && mdm == MinusDMs(bars)
  {
    var n := |bars|;
    tr, pdm, mdm := Zeros(n), Zeros(n), Zeros(n);
    var i := 1;
    while i < n
      invariant 1 <= i && (n > 0 ==> i <= n)
      invariant |tr| == n && |pdm| == n && |mdm| == n
      invariant forall j :: 0 <= j < n && j < i ==> tr[j] == TrueRange(bars, j)
      invariant forall j :: 0 <= j < n && j < i ==> pdm[j] == PlusDM(bars, j)
      invariant forall j :: 0 <= j < n && j < i ==> mdm[j] == MinusDM(bars, j)
    {
      tr := tr[i := Max(Max(bars[i].high - bars[i].low, Abs(bars[i].high - bars[i - 1].close)),
                        Abs(bars[i].low - bars[i - 1].close))];
      var upMove := bars[i].high - bars[i - 1].high;
      var downMove := bars[i - 1].low - bars[i].low;
      if upMove > downMove && upMove > 0.0 {
        pdm := pdm[i := upMove];
      } else {
        pdm := pdm[i := 0.0];
      }
      if downMove > upMove && downMove > 0.0 {
        mdm := mdm[i := downMove];
      } else {
        mdm := mdm[i := 0.0];
      }
      i := i + 1;
    }
  }

  /** A seeded smoothing pass: the mean at `seed` (when the series reaches
      it), then Wilder's recurrence to the end. */
  method WilderPass(xs: seq<real>, seed: nat, p: nat) returns (s: seq<real>)
    requires 1 <= p <= seed + 1
    ensures s == Smoothed(xs, seed, p)
  {
    var n := |xs|;
    s := Zeros(n);
    if seed < n {
      s := s[seed := Mean(xs[seed + 1 - p .. seed + 1])];
      var i := seed + 1;
      while i < n
        invariant seed + 1 <= i <= n
        invariant |s| == n
        invariant forall j :: 0 <= j < i ==> s[j] == Wilder(xs, seed, p, j)
      {
        s := s[i := WilderStep(s[i - 1], xs[i], p as real)];
        i := i + 1;
      }
    }
  }

  /** The +DI/-DI pass over bars `start`..n-1, skipping bars whose ATR is zero. */
  method DIPass(ps: seq<real>, ms: seq<real>, atr: seq<real>, start: nat) returns (pdi: seq<real>, mdi: seq<real>)
    requires |ps| == |atr| && |ms| == |atr|
    ensures pdi == DirectionalSeries(ps, atr, start) && mdi == DirectionalSeries(ms, atr, start)
  {
    var n := |atr|;
    pdi, mdi := Zeros(n), Zeros(n);
    var i := start;
    while i < n
      invariant start <= i && (start < n ==> i <= n)
      invariant |pdi| == n && |mdi| == n
      invariant forall j :: 0 <= j < n && j < i ==> pdi[j] == DirectionalSeries(ps, atr, start)[j]
      invariant forall j :: 0 <= j < n && j < i ==> mdi[j] == DirectionalSeries(ms, atr, start)[j]
      invariant forall j :: i <= j < n ==> pdi[j] == 0.0 && mdi[j] == 0.0
    {
      if atr[i] != 0.0 {
        pdi := pdi[i := ps[i] / atr[i] * 100.0];
        mdi := mdi[i := ms[i] / atr[i] * 100.0];
      }
      i := i + 1;
    }
  }

  /** The DX pass over bars `start`..n-1, skipping bars whose DI sum is zero. */
  method DXPass(pdi: seq<real>, mdi: seq<real>, start: nat) returns (dx: seq<real>)
    requires |pdi| == |mdi|
    ensures dx == DXSeries(pdi, mdi, start)
  {
    var n := |pdi|;
    dx := Zeros(n);
    var i := start;
    while i < n
      invariant start <= i && (start < n ==> i <= n)
      invariant |dx| == n
      invariant forall j :: 0 <= j < n && j < i ==> dx[j] == DXSeries(pdi, mdi, start)[j]
      invariant forall j :: i <= j < n ==> dx[j] == 0.0
    {
      var diSum := pdi[i] + mdi[i];
      if diSum != 0.0 {
        dx := dx[i := Abs(pdi[i] - mdi[i]) / diSum * 100.0];
      }
      i := i + 1;
    }
  }

  /** `calculate_adx`: the engine written pass after pass over zero-filled
      arrays; it computes exactly the series `Compute` defines. */
  method CalculateAdx(bars: seq<Bar>, period: nat) returns (ind: Series)
    requires period >= 1
    ensures ind == Compute(bars, period)
  {
    var tr, pdm, mdm := RawMovement(bars);
    var atr := WilderPass(tr, period, period);
    var ps := WilderPass(pdm, period, period);
    var ms := WilderPass(mdm, period, period);
    var pdi, mdi := DIPass(ps, ms, atr, period);
    var dx := DXPass(pdi, mdi, period);
    var adx := WilderPass(dx, period + period - 1, period);
    ind := Series(tr, pdm, mdm, atr, ps, ms, pdi, mdi, dx, adx);
  }

  // ---------------------------------------------------------------------
  // Real-arithmetic helpers
  // ---------------------------------------------------------------------

  lemma MeanAtMost(w: seq<real>, hi: real)
    requires |w| > 0
    requires forall j :: 0 <= j < |w| ==> w[j] <= hi
    ensures Mean(w) <= hi
  {
    SumAtMost(w, hi);
    QuotientAtMost(Sum(w), |w| as real, hi);
  }

  lemma QuotientAtMost(t: real, n: real, hi: real)
    requires n > 0.0 && t <= n * hi
    ensures t / n <= hi
  {
    assert t / n * n == t;
  }

  /** One Wilder step of non-negative values is non-negative. */
  lemma StepNonNegative(prev: real, x: real, p: real)
    requires p >= 1.0 && prev >= 0.0 && x >= 0.0
    ensures WilderStep(prev, x, p) >= 0.0
  {
    assert prev * (p - 1.0) >= 0.0;
    DivFacts(prev * (p - 1.0) + x, p);
  }

  lemma ConvexStepAtMost(prev: real, x: real, p: real, hi: real)
    requires p >= 1.0 && prev <= hi && x <= hi
    ensures WilderStep(prev, x, p) <= hi
  {
    assert prev * (p - 1.0) <= hi * (p - 1.0) by {
      assert (hi - prev) * (p - 1.0) >= 0.0;
    }
    QuotientAtMost(prev * (p - 1.0) + x, p, hi);
  }

  lemma OneMoreCopy(n: real, k: real)
    ensures k + n * k == (n + 1.0) * k
  {
  }

  lemma CopiesOver(n: real, k: real)
    requires n > 0.0
    ensures (n * k) / n == k
  {
  }

  lemma StepFixesConstant(k: real, p: real)
    requires p >= 1.0
    ensures WilderStep(k, k, p) == k
  {
    assert k * (p - 1.0) + k == p * k;
    CopiesOver(p, k);
  }

  lemma QuotientsAdd(x: real, y: real, z: real)
    requires z != 0.0
    ensures x / z + y / z == (x + y) / z
  {
    var qx, qy := x / z, y / z;
    assert qx * z == x && qy * z == y;
    assert (qx + qy) * z == x + y;
  }

  lemma DivFacts(x: real, y: real)
    requires y != 0.0
    ensures x >= 0.0 && y > 0.0 ==> x / y * 100.0 >= 0.0
    ensures 0.0 <= x <= y ==> x / y * 100.0 <= 100.0
    ensures 0.0 < y && x == y ==> x / y * 100.0 == 100.0
    ensures 0.0 < y && x / y * 100.0 == 100.0 ==> x == y
  {
    if y > 0.0 {
      assert x / y * y == x;
    }
  }
}
