/**
  The axis and coordinate arithmetic of the charts: the tick spacing of the
  y axis, the y ticks themselves, the affine maps into the 1000 x 500 drawing
  area, the month count of the time axis, the project columns and bars, and
  the maximum that scales the project chart.
*/
module Axis {
  import opened Records
  import opened LevelModel

  /** Height of the drawing area (`maxV`). */
  const MAX_V: real := 500.0
  /** Width of the drawing area (`maxVX`). */
  const MAX_VX: real := 1000.0
  /** Milliseconds in the 30-day month the time axis counts in. */
  const MONTH_MS: int := 1000 * 3600 * 24 * 30

  /** `parseInt` of a decimal number: the integer part, truncated towards zero. */
  function Trunc(x: real): (r: int)
    ensures x >= 0.0 ==> r as real <= x < r as real + 1.0
    ensures x < 0.0 ==> r as real - 1.0 < x <= r as real
  {
    if x >= 0.0 then x.Floor else -((-x).Floor)
  }

  /** 1, 10, 100, ... */
  predicate IsPow10(p: int)
    decreases if p > 0 then p else 0
  {
    p > 0 && (p == 1 || (p % 10 == 0 && IsPow10(p / 10)))
  }

  /**
    The scale `findBatchSize` settles on for the integer part `n` of the
    segment size: a power of ten whose tenfold reaches `n`, and that is either
    1 or itself exceeded by `n` (the largest power of ten below `n`, or 1).
  */
  predicate IsScale(p: int, n: int) {
    IsPow10(p) && n <= 10 * p && (p == 1 || n > p)
  }

  /** Between two powers of ten lies at least a factor of ten. */
  lemma {:induction false} Pow10Gap(p: int, q: int)
    requires IsPow10(p) && IsPow10(q) && p < q
    ensures 10 * p <= q
    decreases q
  {
    if p != 1 {
      Pow10Gap(p / 10, q / 10);
    }
  }

  lemma Pow10Times10(p: int)
    requires IsPow10(p)
    ensures IsPow10(p * 10) && (p * 10) % 10 == 0 && (p * 10) / 10 == p
  {
  }

  /** The scale is determined by the integer part alone. */
  lemma ScaleUnique(p: int, q: int, n: int)
    requires IsScale(p, n) && IsScale(q, n)
    ensures p == q
  {
    if p < q {
      Pow10Gap(p, q);
    } else if q < p {
      Pow10Gap(q, p);
    }
  }

  /** The real quotient of the loop test exceeds one exactly when the numerator exceeds the divisor. */
  lemma QuotientAboveOne(n: int, i: int)
    requires i > 0
    ensures (n as real / i as real > 1.0) <==> n > i
  {
    var q := n as real / i as real;
    assert q * i as real == n as real;
  }

  /** `(max - min) / len`, the segment size of the y axis. */
  function SegmentSize(min: int, max: int, len: int): real
    requires len > 0
  {
    (max - min) as real / len as real
  }

  /**
    `findBatchSize(min, max, len)`: grows `i` through the powers of ten while
    the integer part of the segment size exceeds it, steps one power back, and
    rounds the segment size to a multiple of that scale. The scale is returned
    alongside the batch size.
  */
  method FindBatchSize(min: int, max: int, len: int) returns (batchSize: int, scale: int)
    requires len > 0
    ensures IsScale(scale, Trunc(SegmentSize(min, max, len)))
    ensures batchSize == Round(SegmentSize(min, max, len) / scale as real) * scale
    ensures batchSize >= 1 <==> 2 * (max - min) >= len
    ensures max >= min ==> batchSize >= 0
  {
    var segmentSize := (max - min) as real / len as real;
    var onlyInt := Trunc(segmentSize);
    var i := 10;
    QuotientAboveOne(onlyInt, i);
    while onlyInt as real / i as real > 1.0
      invariant i >= 10 && i % 10 == 0 && IsPow10(i) && IsPow10(i / 10)
      invariant i == 10 || onlyInt > i / 10
      invariant (onlyInt as real / i as real > 1.0) <==> onlyInt > i
      decreases onlyInt - i
    {
      Pow10Times10(i);
      i := i * 10;
      QuotientAboveOne(onlyInt, i);
    }
    scale := i / 10;
    batchSize := Round(segmentSize / scale as real) * scale;
    BatchSizeFacts(min, max, len, scale);
  }

  /** The sign of the batch size for the scale the loop settles on. */
  lemma BatchSizeFacts(min: int, max: int, len: int, p: int)
    requires len > 0 && IsScale(p, Trunc(SegmentSize(min, max, len)))
    ensures var b := Round(SegmentSize(min, max, len) / p as real) * p;
      && (b >= 1 <==> 2 * (max - min) >= len)
      && (max >= min ==> b >= 0)
  {
    var seg := SegmentSize(min, max, len);
    BatchSizeSign(seg, Trunc(seg), p);
    SegmentSizeSign(min, max, len);
    ProductSign(Round(seg / p as real), p);
  }

  lemma ProductSign(a: int, p: int)
    requires p >= 1
    ensures a * p >= 1 <==> a >= 1
    ensures a >= 0 ==> a * p >= 0
  {
    if a >= 1 {
      MulLe(1, a, p);
    } else {
      MulLe(a, 0, p);
    }
  }

  /** The batch size is positive exactly when the segment size is at least one half. */
  lemma BatchSizeSign(seg: real, n: int, p: int)
    requires n == Trunc(seg) && IsScale(p, n)
    ensures Round(seg / p as real) >= 1 <==> seg >= 0.5
    ensures seg >= 0.0 ==> Round(seg / p as real) >= 0
  {
    var x := seg / p as real;
    if p > 1 {
      assert seg > p as real;
      RealQuotientAboveOne(seg, p as real);
    } else {
      assert x == seg;
    }
    if seg >= 0.0 {
      assert x >= 0.0;
    }
  }

  lemma RealQuotientAboveOne(x: real, d: real)
    requires d > 0.0 && x > d
    ensures x / d > 1.0
  {
  }

  /** The sign of the segment size against one half, in integers. */
  lemma SegmentSizeSign(min: int, max: int, len: int)
    requires len > 0
    ensures SegmentSize(min, max, len) >= 0.5 <==> 2 * (max - min) >= len
    ensures min <= max ==> SegmentSize(min, max, len) >= 0.0
  {
    var s := SegmentSize(min, max, len);
    assert s * len as real == (max - min) as real;
  }

  /** `findBatchSize(0, 953, 10)` is 100: segment 95.3, scale 10, 9.53 rounds to 10. */
  lemma FindBatchSizeExample(p: int)
    requires IsScale(p, Trunc(SegmentSize(0, 953, 10)))
    ensures p == 10
    ensures Round(SegmentSize(0, 953, 10) / p as real) * p == 100
  {
    assert Trunc(SegmentSize(0, 953, 10)) == 95;
    assert IsScale(10, 95);
    ScaleUnique(p, 10, 95);
  }

  /**
    `findValueY`: the + 1 and - 1 of the source cancel, so the map sends
    `minY` to the bottom (500) and `maxY` to the top (0) of the drawing area.
  */
  function FindValueY(minY: int, maxY: int, value: int): real
    requires maxY != minY
  {
    var diff := maxY - minY + 1;
    var segmentLen := MAX_V / (diff - 1) as real;
    MAX_V - segmentLen * (value - minY) as real
  }

  /** The map as a plain proportion: the share of the range above `value`, times 500. */
  lemma FindValueYProportion(minY: int, maxY: int, value: int)
    requires maxY != minY
    ensures FindValueY(minY, maxY, value) == 500.0 * (maxY - value) as real / (maxY - minY) as real
  {
    var d := (maxY - minY) as real;
    var s := 500.0 / d;
    assert s * d == 500.0;
    assert FindValueY(minY, maxY, value) == 500.0 - s * (value - minY) as real;
    assert 500.0 * (maxY - value) as real / d == s * (maxY - value) as real;
  }

  lemma FindValueYEnds(minY: int, maxY: int)
    requires maxY != minY
    ensures FindValueY(minY, maxY, minY) == 500.0
    ensures FindValueY(minY, maxY, maxY) == 0.0
  {
    var s := 500.0 / (maxY - minY) as real;
    assert s * (maxY - minY) as real == 500.0;
  }

  /** A higher value is drawn strictly higher (a smaller y coordinate). */
  lemma FindValueYDecreasing(minY: int, maxY: int, a: int, b: int)
    requires minY < maxY && a < b
    ensures FindValueY(minY, maxY, a) > FindValueY(minY, maxY, b)
  {
    var s := 500.0 / (maxY - minY) as real;
    assert s > 0.0;
    assert s * (a - minY) as real < s * (b - minY) as real;
  }

  /** The value can be read back from its coordinate. */
  lemma FindValueYInverse(minY: int, maxY: int, value: int)
    requires maxY != minY
    ensures minY as real + (500.0 - FindValueY(minY, maxY, value)) * (maxY - minY) as real / 500.0 == value as real
  {
    var d := (maxY - minY) as real;
    var s := 500.0 / d;
    assert s * d == 500.0;
    assert 500.0 - FindValueY(minY, maxY, value) == s * (value - minY) as real;
    assert s * (value - minY) as real * d == 500.0 * (value - minY) as real;
  }

  /** One y tick: its value and its position. */
  datatype Tick = Tick(value: int, posY: real)

  /** `ticks` are the first ticks from `min` in steps of `b`, each at `findValueY` of its value. */
  predicate TicksFrom(ticks: seq<Tick>, min: int, max: int, b: int) {
    forall k :: 0 <= k < |ticks| ==>
      max != min && ticks[k] == Tick(min + k * b, FindValueY(min, max, min + k * b))
  }

  /** One more pass of the tick loop. */
  lemma TicksAppend(ticks: seq<Tick>, min: int, max: int, b: int, i: int)
    requires TicksFrom(ticks, min, max, b) && i == min + |ticks| * b && max != min
    ensures TicksFrom(ticks + [Tick(i, FindValueY(min, max, i))], min, max, b)
    ensures i + b == min + (|ticks| + 1) * b
  {
    var t := ticks + [Tick(i, FindValueY(min, max, i))];
    forall k | 0 <= k < |t|
      ensures max != min && t[k] == Tick(min + k * b, FindValueY(min, max, min + k * b))
    {
      if k < |ticks| {
        assert t[k] == ticks[k];
      }
    }
  }

  /** The first tick sits at the bottom, and a last tick at or above `max` at or above the top. */
  lemma TicksEnds(ticks: seq<Tick>, min: int, max: int, b: int)
    requires TicksFrom(ticks, min, max, b) && ticks != [] && min < max
    requires ticks[|ticks| - 1].value >= max
    ensures ticks[0].posY == 500.0 && ticks[|ticks| - 1].posY <= 0.0
  {
    FindValueYEnds(min, max);
    assert ticks[0].value == min;
    if ticks[|ticks| - 1].value > max {
      FindValueYDecreasing(min, max, max, ticks[|ticks| - 1].value);
    }
  }

  /**
    The tick loop of `drawYaxis(min, max, len)`: ticks at `min`, `min + b`,
    `min + 2b`, ... while the value stays at most `max + b - 1`, where `b` is
    the batch size; each sits at `findValueY` of its value. The loop only ends
    when `b >= 1` or it does not run at all, hence the second requirement:
    without it a batch size of 0 would repeat the tick at `min` for ever.
  */
  method DrawYTicks(min: int, max: int, len: int) returns (batchSize: int, ticks: seq<Tick>)
    requires len > 0
    requires max <= min || 2 * (max - min) >= len
    ensures exists p :: (IsScale(p, Trunc(SegmentSize(min, max, len)))
      && batchSize == Round(SegmentSize(min, max, len) / p as real) * p)
    ensures max <= min ==> ticks == []
    ensures max > min ==> batchSize >= 1 && |ticks| > 0
    ensures TicksFrom(ticks, min, max, batchSize)
    ensures ticks != [] ==> max <= ticks[|ticks| - 1].value <= max + batchSize - 1
    ensures ticks != [] ==> ticks[0].posY == 500.0 && ticks[|ticks| - 1].posY <= 0.0
  {
    var scale;
    batchSize, scale := FindBatchSize(min, max, len);
    ticks := [];
    var i := min;
    while i <= max + batchSize - 1
      invariant i == min + |ticks| * batchSize
      invariant max <= min ==> i == min
      invariant TicksFrom(ticks, min, max, batchSize)
      invariant ticks != [] ==> i - batchSize == ticks[|ticks| - 1].value <= max + batchSize - 1
      decreases max + batchSize - i
    {
      TicksAppend(ticks, min, max, batchSize, i);
      ticks := ticks + [Tick(i, FindValueY(min, max, i))];
      i := i + batchSize;
    }
    if ticks != [] {
      TicksEnds(ticks, min, max, batchSize);
    }
  }

  /**
    `dateDiff(min, max)`: the number of whole 30-day months between the two
    timestamps, plus one.
  */
  function DateDiff(min: int, max: int): (r: int)
    ensures (r - 1) * MONTH_MS <= max - min < r * MONTH_MS
  {
    ((max - min) as real / 1000.0 / 3600.0 / 24.0 / 30.0).Floor + 1
  }

  /** The month count is the Euclidean quotient by the month, plus one; at least 1 for ordered timestamps. */
  lemma DateDiffQuotient(min: int, max: int)
    ensures DateDiff(min, max) == (max - min) / MONTH_MS + 1
    ensures min <= max ==> DateDiff(min, max) >= 1
  {
    var r := DateDiff(min, max);
    var q := (max - min) / MONTH_MS;
    if r - 1 < q {
      MulLe(r, q, MONTH_MS);
    } else if r - 1 > q {
      MulLe(q + 1, r - 1, MONTH_MS);
    }
  }

  lemma MulLe(a: int, b: int, m: int)
    requires a <= b && m > 0
    ensures a * m <= b * m
  {
  }

  /**
    `findValueX` with the month-start normalisation of both ends already
    done: `fMin` and `fMax` are the first days of the months of `minX` and
    `maxX`.
  */
  function FindValueX(minX: int, maxX: int, fMin: int, fMax: int, value: int): real
    requires fMax != fMin && DateDiff(minX, maxX) != 0
  {
    var segmentLen := DateDiff(minX, maxX) as real;
    var diff := (fMax - fMin) as real;
    (value - fMin) as real / diff / segmentLen * 1000.0 * (segmentLen - 1.0)
  }

  /** The first month start is drawn at 0, the last at the share `(m - 1) / m` of the width. */
  lemma FindValueXEnds(minX: int, maxX: int, fMin: int, fMax: int)
    requires fMax != fMin && DateDiff(minX, maxX) != 0
    ensures FindValueX(minX, maxX, fMin, fMax, fMin) == 0.0
    ensures var m := DateDiff(minX, maxX) as real;
      FindValueX(minX, maxX, fMin, fMax, fMax) == 1000.0 * (m - 1.0) / m
  {
    var m := DateDiff(minX, maxX) as real;
    var d := (fMax - fMin) as real;
    assert d / d == 1.0;
    assert d / d / m == 1.0 / m;
  }

  /** Later timestamps are drawn further right once the axis spans more than one month. */
  lemma FindValueXIncreasing(minX: int, maxX: int, fMin: int, fMax: int, a: int, b: int)
    requires fMin < fMax && DateDiff(minX, maxX) > 1 && a < b
    ensures FindValueX(minX, maxX, fMin, fMax, a) < FindValueX(minX, maxX, fMin, fMax, b)
  {
    var m := DateDiff(minX, maxX) as real;
    var d := (fMax - fMin) as real;
    DivStrict((a - fMin) as real, (b - fMin) as real, d);
    DivStrict((a - fMin) as real / d, (b - fMin) as real / d, m);
    var u, v := (a - fMin) as real / d / m, (b - fMin) as real / d / m;
    MulStrict(u, v, 1000.0);
    MulStrict(u * 1000.0, v * 1000.0, m - 1.0);
  }

  lemma DivStrict(x: real, y: real, d: real)
    requires x < y && d > 0.0
    ensures x / d < y / d
  {
  }

  lemma MulStrict(x: real, y: real, c: real)
    requires x < y && c > 0.0
    ensures x * c < y * c
  {
  }

  /** The `cx` of month tick `i` on an axis of `segmentCount` months. */
  function MonthTickX(i: int, segmentCount: int): real
    requires segmentCount != 0
  {
    (1000.0 / segmentCount as real) * i as real
  }

  /** The month ticks `0..segmentCount` run from the left edge to the right edge at equal spacing. */
  lemma MonthTickXSpan(segmentCount: int, i: int)
    requires segmentCount != 0
    ensures MonthTickX(0, segmentCount) == 0.0
    ensures MonthTickX(segmentCount, segmentCount) == 1000.0
    ensures MonthTickX(i + 1, segmentCount) - MonthTickX(i, segmentCount) == 1000.0 / segmentCount as real
  {
  }

  /** The `cx` of project column `i` of `n` in `drawXaxisProjects`. */
  function ProjectCx(i: int, n: int): real
    requires n != 1
  {
    (1000.0 / (n - 1) as real) * i as real
  }

  /** The first column is at the left edge, the last at the right edge, and the columns are strictly increasing. */
  lemma ProjectCxSpan(n: int, i: int, j: int)
    requires n >= 2
    ensures ProjectCx(0, n) == 0.0
    ensures ProjectCx(n - 1, n) == 1000.0
    ensures i < j ==> ProjectCx(i, n) < ProjectCx(j, n)
  {
    var w := 1000.0 / (n - 1) as real;
    assert w * (n - 1) as real == 1000.0;
    if i < j {
      assert w > 0.0;
      assert w * i as real < w * j as real;
    }
  }

  /** The bar height of `drawDataProjects` for a value `yValue` out of `n` bars. */
  function BarHeight(yValue: int, min: int, max: int, n: int): real
    requires max != min && n != 0
  {
    var diff := (max - min) as real;
    (yValue - min) as real / diff / n as real * 500.0 * (n - 1) as real
  }

  /**
    The height is the value's share of the range, scaled to `500 (n - 1) / n`:
    0 at the minimum, `500 (n - 1) / n` at the maximum, and rising with the value.
  */
  lemma BarHeightProportion(yValue: int, min: int, max: int, n: int)
    requires max != min && n != 0
    ensures BarHeight(yValue, min, max, n)
         == (yValue - min) as real / (max - min) as real * (500.0 * (n - 1) as real / n as real)
    ensures BarHeight(min, min, max, n) == 0.0
    ensures BarHeight(max, min, max, n) == 500.0 * (n - 1) as real / n as real
  {
    var d := (max - min) as real;
    assert d / d == 1.0;
  }

  lemma BarHeightMonotone(a: int, b: int, min: int, max: int, n: int)
    requires min < max && n >= 1 && a <= b
    ensures BarHeight(a, min, max, n) <= BarHeight(b, min, max, n)
  {
    BarHeightProportion(a, min, max, n);
    BarHeightProportion(b, min, max, n);
    var d := (max - min) as real;
    var c := 500.0 * (n - 1) as real / n as real;
    assert c >= 0.0;
    assert (a - min) as real / d <= (b - min) as real / d;
  }

  /** The `x` of bar `i` of `n`: bars are laid from the right edge leftwards, each one column wide. */
  function BarX(i: int, n: int): real
    requires n != 1
  {
    MAX_VX - ProjectCx(1, n) * (i + 1) as real
  }

  /** Neighbouring columns are one column width apart. */
  lemma ProjectCxStep(i: int, n: int)
    requires n != 1
    ensures ProjectCx(i + 1, n) == ProjectCx(i, n) + ProjectCx(1, n)
  {
    var w := 1000.0 / (n - 1) as real;
    Distribute(w, i);
  }

  lemma Distribute(w: real, i: int)
    ensures w * (i + 1) as real == w * i as real + w
  {
  }

  /** The chart transform `translate(1000, 1000) rotate(180)`: a half turn about the centre. */
  function Rotate180(x: real, y: real): (real, real) {
    (1000.0 - x, 1000.0 - y)
  }

  /**
    After the half turn, bar `i` stands on the baseline 500 between the
    columns of projects `i` and `i + 1`, rising by its height: each bar starts
    at its project's tick.
  */
  lemma BarAlignedWithColumn(i: int, n: int, height: real)
    requires n >= 2
    ensures Rotate180(BarX(i, n) + ProjectCx(1, n), 500.0 + height) == (ProjectCx(i, n), 500.0 - height)
    ensures Rotate180(BarX(i, n), 500.0) == (ProjectCx(i + 1, n), 500.0)
  {
    var w := ProjectCx(1, n);
    ProjectCxStep(i, n);
    assert BarX(i, n) + w == 1000.0 - ProjectCx(i, n);
  }

  /**
    `findMax(arr, 'yValue')`: the largest `yValue`, starting from 0, so it is
    0 when no value is positive.
  */
  method FindMax<X>(arr: seq<Point<X>>) returns (max: int)
    ensures max >= 0
    ensures forall k :: 0 <= k < |arr| ==> arr[k].yValue <= max
    ensures max == 0 || exists k :: 0 <= k < |arr| && arr[k].yValue == max
  {
    max := 0;
    for k := 0 to |arr|
      invariant max >= 0
      invariant forall m :: 0 <= m < k ==> arr[m].yValue <= max
      invariant max == 0 || exists m :: 0 <= m < k && arr[m].yValue == max
    {
      if arr[k].yValue > max {
        max := arr[k].yValue;
      }
    }
  }
}
