/**
  The three chart series built from the per-project records: experience by
  project (name order), cumulative experience over time, and level over time
  with repeated levels collapsed, plus the profile summary.
*/
module Series {
  import opened Records
  import opened Ordering
  import opened LevelModel

  const USER_LOGIN := "KRaken"

  /** The points `{yValue: xp, xValue: name}`, one per record, in the records' order. */
  function ProjectSeries(s: seq<Record>): seq<Point<string>> {
    seq(|s|, k requires 0 <= k < |s| => Point(s[k].xp, s[k].name))
  }

  /** The points `{yValue: xp, xValue: createdAt}`, one per record, in the records' order. */
  function TimeSeries(s: seq<Record>): seq<Point<int>> {
    seq(|s|, k requires 0 <= k < |s| => Point(s[k].xp, s[k].createdAt))
  }

  /**
    `getXpByProject`: sorts the shared records by name in place, then maps each
    to a fresh point carrying its own experience.
  */
  method GetXpByProject(mappedValues: array<Record>) returns (xpByProject: seq<Point<string>>)
    modifies mappedValues
    ensures SortedBy(mappedValues[..], ByName)
    ensures multiset(mappedValues[..]) == old(multiset(mappedValues[..]))
    ensures xpByProject == ProjectSeries(mappedValues[..])
  {
    SortNestedByKey(mappedValues, ByName);
    xpByProject := seq(mappedValues.Length, k requires 0 <= k < mappedValues.Length reads mappedValues =>
      Point(mappedValues[k].xp, mappedValues[k].name));
  }

  /** In name order: one point per record, with the record's amount, names non-decreasing. */
  lemma ProjectSeriesInNameOrder(s: seq<Record>)
    requires SortedBy(s, ByName)
    ensures |ProjectSeries(s)| == |s|
    ensures forall k :: 0 <= k < |s| ==>
      ProjectSeries(s)[k].yValue == s[k].xp && ProjectSeries(s)[k].xValue == s[k].name
    ensures forall p, q :: 0 <= p < q < |s| ==> !StrLess(ProjectSeries(s)[q].xValue, ProjectSeries(s)[p].xValue)
  {
    forall p, q | 0 <= p < q < |s|
      ensures !StrLess(ProjectSeries(s)[q].xValue, ProjectSeries(s)[p].xValue)
    {
      assert KeyLe(s[p], s[q], ByName);
    }
  }

  /**
    The effect of the loop `xpByTime[i].xp += xpByTime[i - 1].xp` on a list of
    records: every record after the first adds the already updated amount of
    its predecessor.
  */
  function RunningTotals(s: seq<Record>): (r: seq<Record>)
    ensures |r| == |s|
  {
    if |s| <= 1 then s
    else
      var prev := RunningTotals(s[..|s| - 1]);
      var last := s[|s| - 1];
      prev + [last.(xp := last.xp + prev[|prev| - 1].xp)]
  }

  /** Element `k` of the running totals is record `k` carrying the sum of amounts 0..k. */
  lemma {:induction false} RunningTotalsAt(s: seq<Record>, k: nat)
    requires k < |s|
    ensures RunningTotals(s)[k] == s[k].(xp := SumXp(s[..k + 1]))
  {
    var n := |s|;
    if n == 1 {
      assert s[..1][..0] == [];
    } else {
      var init := s[..n - 1];
      assert init[..k] == s[..k] && (k < n - 1 ==> init[..k + 1] == s[..k + 1]);
      if k < n - 1 {
        RunningTotalsAt(init, k);
      } else {
        RunningTotalsAt(init, n - 2);
        assert init[..n - 1] == init;
        assert s[..n] == s;
      }
    }
  }

  lemma {:induction false} SumXpNonNegative(s: seq<Record>)
    requires forall k :: 0 <= k < |s| ==> s[k].xp >= 0
    ensures SumXp(s) >= 0
  {
    if s != [] {
      SumXpNonNegative(s[..|s| - 1]);
    }
  }

  /** The running totals of a prefix one longer: the new record adds the previous total. */
  lemma RunningTotalsSnoc(s: seq<Record>, i: nat)
    requires 1 <= i < |s|
    ensures RunningTotals(s[..i + 1])
         == RunningTotals(s[..i]) + [s[i].(xp := s[i].xp + RunningTotals(s[..i])[i - 1].xp)]
  {
    assert s[..i + 1][..i] == s[..i];
  }

  /** One step of the accumulation loop extends the finished prefix by one record. */
  lemma AccumulateStep(s: seq<Record>, before: seq<Record>, after: seq<Record>, i: nat)
    requires 1 <= i < |s| && Accumulated(before, s, i)
    requires after == before[i := before[i].(xp := before[i].xp + before[i - 1].xp)]
    ensures Accumulated(after, s, i + 1)
  {
    RunningTotalsSnoc(s, i);
    assert before[i] == s[i];
    assert before[i - 1] == RunningTotals(s[..i])[i - 1];
    assert after[..i + 1] == before[..i] + [after[i]];
    assert after[i + 1..] == before[i + 1..];
  }

  /** The first point is its own amount. */
  lemma RunningTotalsFirst(s: seq<Record>)
    requires s != []
    ensures RunningTotals(s)[0] == s[0]
  {
    RunningTotalsAt(s, 0);
    assert s[..1][..0] == [];
  }

  /** The last point is the sum of all amounts. */
  lemma RunningTotalsLast(s: seq<Record>)
    requires s != []
    ensures RunningTotals(s)[|s| - 1].xp == SumXp(s)
  {
    RunningTotalsAt(s, |s| - 1);
    assert s[..|s|] == s;
  }

  /** Names and timestamps stay where they were. */
  lemma RunningTotalsKeepKeys(s: seq<Record>)
    ensures forall k :: 0 <= k < |s| ==>
      RunningTotals(s)[k].name == s[k].name && RunningTotals(s)[k].createdAt == s[k].createdAt
  {
    forall k | 0 <= k < |s|
      ensures RunningTotals(s)[k].name == s[k].name && RunningTotals(s)[k].createdAt == s[k].createdAt
    {
      RunningTotalsAt(s, k);
    }
  }

  /** With non-negative amounts the running totals never decrease. */
  lemma RunningTotalsMonotone(s: seq<Record>)
    requires forall k :: 0 <= k < |s| ==> s[k].xp >= 0
    ensures forall p, q :: 0 <= p < q < |s| ==> RunningTotals(s)[p].xp <= RunningTotals(s)[q].xp
  {
    forall p, q | 0 <= p < q < |s|
      ensures RunningTotals(s)[p].xp <= RunningTotals(s)[q].xp
    {
      RunningTotalsGap(s, p + 1, q + 1);
      SumXpSliceNonNegative(s, p + 1, q + 1);
    }
  }

  /** The running total of the first `n` records is the sum of their amounts. */
  lemma RunningTotalXp(s: seq<Record>, n: nat)
    requires 0 < n <= |s|
    ensures RunningTotals(s)[n - 1].xp == SumXp(s[..n])
  {
    RunningTotalsAt(s, n - 1);
  }

  /** From the first `i` to the first `j` records the running total grows by the amounts in between. */
  lemma RunningTotalsGap(s: seq<Record>, i: nat, j: nat)
    requires 0 < i <= j <= |s|
    ensures RunningTotals(s)[j - 1].xp == RunningTotals(s)[i - 1].xp + SumXp(s[i..j])
  {
    RunningTotalXp(s, i);
    RunningTotalXp(s, j);
    SumXpSplit(s, i, j);
  }

  lemma SumXpSplit(s: seq<Record>, i: nat, j: nat)
    requires i <= j <= |s|
    ensures SumXp(s[..j]) == SumXp(s[..i]) + SumXp(s[i..j])
  {
    var t := s[..j];
    assert t[..i] == s[..i];
    assert t[i..] == s[i..j];
    assert t == t[..i] + t[i..];
    SumXpConcat(t[..i], t[i..]);
  }

  lemma SumXpSliceNonNegative(s: seq<Record>, i: nat, j: nat)
    requires forall k :: 0 <= k < |s| ==> s[k].xp >= 0
    requires i <= j <= |s|
    ensures SumXp(s[i..j]) >= 0
  {
    var g := s[i..j];
    forall k | 0 <= k < |g|
      ensures g[k].xp >= 0
    {
      assert g[k] == s[i + k];
    }
    SumXpNonNegative(g);
  }

  /**
    `getXpByTime`: re-sorts the same records by timestamp in place, turns each
    amount into a running total in place, then maps them to fresh points.
    Both `map` results of the source are fresh arrays; this one is kept as an
    array because `getLevelByTime` copies it and reads it as one, while the
    by-project points are only handed to drawing code, so a sequence of them
    loses nothing.
  */
  method GetXpByTime(mappedValues: array<Record>) returns (xpByTime: array<Point<int>>, ghost byTime: seq<Record>)
    modifies mappedValues
    ensures SortedBy(byTime, ByCreatedAt)
    ensures multiset(byTime) == old(multiset(mappedValues[..]))
    ensures mappedValues[..] == RunningTotals(byTime)
    ensures fresh(xpByTime) && xpByTime[..] == TimeSeries(mappedValues[..])
  {
    SortNestedByKey(mappedValues, ByCreatedAt);
    byTime := mappedValues[..];
    AccumulateStart(byTime);
    var i := 1;
    while i < mappedValues.Length
      invariant Accumulated(mappedValues[..], byTime, i)
    {
      ghost var before := mappedValues[..];
      mappedValues[i] := mappedValues[i].(xp := mappedValues[i].xp + mappedValues[i - 1].xp);
      AccumulateStep(byTime, before, mappedValues[..], i);
      i := i + 1;
    }
    AccumulateDone(mappedValues[..], byTime, i);
    xpByTime := PointsArray(TimeSeries(mappedValues[..]));
  }

  /**
    The accumulation loop before position `i`: the records before `i` carry
    their running totals and the rest are untouched (nothing to do for an
    empty array).
  */
  predicate Accumulated(cur: seq<Record>, s: seq<Record>, i: nat) {
    |cur| == |s| && (|s| == 0 || (1 <= i <= |s| && cur[..i] == RunningTotals(s[..i]) && cur[i..] == s[i..]))
  }

  lemma AccumulateStart(s: seq<Record>)
    ensures Accumulated(s, s, 1)
  {
    if s != [] {
      assert s[..1] == [s[0]];
    }
  }

  lemma AccumulateDone(cur: seq<Record>, s: seq<Record>, i: nat)
    requires Accumulated(cur, s, i) && i >= |s|
    ensures cur == RunningTotals(s)
  {
    if s != [] {
      assert cur == cur[..i] && s[..i] == s;
    }
  }

  /** The fresh array of the given points: the final `map` to new objects. */
  method PointsArray(points: seq<Point<int>>) returns (arr: array<Point<int>>)
    ensures fresh(arr) && arr[..] == points
  {
    arr := new Point<int>[|points|](k requires 0 <= k < |points| => points[k]);
    assert forall k :: 0 <= k < arr.Length ==> arr[k] == points[k];
  }

  /** The experience points mapped to levels, timestamps kept. */
  function LevelPoints(s: seq<Point<int>>): (r: seq<Point<int>>)
    ensures |r| == |s|
  {
    seq(|s|, k requires 0 <= k < |s| => Point(LevelForXp(s[k].yValue), s[k].xValue))
  }

  /** Non-decreasing experience gives non-decreasing levels. */
  lemma LevelPointsMonotone(s: seq<Point<int>>)
    requires forall k :: 0 < k < |s| ==> s[k - 1].yValue <= s[k].yValue
    ensures forall k :: 0 < k < |s| ==> LevelPoints(s)[k - 1].yValue <= LevelPoints(s)[k].yValue
  {
    forall k | 0 < k < |s|
      ensures LevelPoints(s)[k - 1].yValue <= LevelPoints(s)[k].yValue
    {
      LevelForXpMonotone(s[k - 1].yValue, s[k].yValue);
    }
  }

  /**
    The plateau collapse of `getLevelByTime`: a point is dropped when its
    `yValue` equals that of the point before it in the input.
  */
  function Collapse(s: seq<Point<int>>): (r: seq<Point<int>>)
    ensures |r| <= |s|
    ensures s != [] ==> |r| > 0 && r[0] == s[0] && r[|r| - 1].yValue == s[|s| - 1].yValue
  {
    if |s| <= 1 then s
    else
      var init := s[..|s| - 1];
      if s[|s| - 1].yValue == s[|s| - 2].yValue then Collapse(init) else Collapse(init) + [s[|s| - 1]]
  }

  /** The collapse of a prefix one longer: the new point is kept unless it repeats its predecessor. */
  lemma CollapseSnoc(s: seq<Point<int>>, j: nat)
    requires 1 <= j < |s|
    ensures Collapse(s[..j + 1])
         == if s[j].yValue == s[j - 1].yValue then Collapse(s[..j]) else Collapse(s[..j]) + [s[j]]
  {
    assert s[..j + 1][..j] == s[..j];
  }

  /**
    The state of the splice loop of `getLevelByTime` at position `i` of the
    current array, having read the first `j` mapped levels: the part before
    `i` is the collapse of those levels and the rest is still the unread input.
  */
  predicate Splicing(levels: seq<Point<int>>, cur: seq<Point<int>>, i: nat, j: nat) {
    && 1 <= i <= |cur| && i <= j <= |levels| && |cur| - i == |levels| - j
    && cur[..i] == Collapse(levels[..j])
    && cur[i..] == levels[j..]
  }

  /** The point at `i` repeats its predecessor exactly when input point `j` repeats its own. */
  lemma SplicingRepeat(levels: seq<Point<int>>, cur: seq<Point<int>>, i: nat, j: nat)
    requires Splicing(levels, cur, i, j) && i < |cur|
    ensures 1 <= j < |levels| && cur[i] == levels[j]
    ensures cur[i - 1].yValue == levels[j - 1].yValue
  {
    assert cur[i] == cur[i..][0];
    var c := Collapse(levels[..j]);
    assert cur[i - 1] == cur[..i][i - 1] == c[|c| - 1];
    assert levels[..j][j - 1] == levels[j - 1];
  }

  /** Dropping a repeated point keeps the loop state with one input point more. */
  lemma DropStep(levels: seq<Point<int>>, cur: seq<Point<int>>, i: nat, j: nat)
    requires Splicing(levels, cur, i, j) && i < |cur|
    requires cur[i].yValue == cur[i - 1].yValue
    ensures Splicing(levels, cur[..i] + cur[i + 1..], i, j + 1)
  {
    SplicingRepeat(levels, cur, i, j);
    CollapseSnoc(levels, j);
    var next := cur[..i] + cur[i + 1..];
    assert next[..i] == cur[..i];
    assert next[i..] == cur[i + 1..] == cur[i..][1..];
    assert levels[j + 1..] == levels[j..][1..];
  }

  /** Keeping a new level keeps the loop state one position further. */
  lemma KeepStep(levels: seq<Point<int>>, cur: seq<Point<int>>, i: nat, j: nat)
    requires Splicing(levels, cur, i, j) && i < |cur|
    requires cur[i].yValue != cur[i - 1].yValue
    ensures Splicing(levels, cur, i + 1, j + 1)
  {
    SplicingRepeat(levels, cur, i, j);
    CollapseSnoc(levels, j);
    assert cur[..i + 1] == cur[..i] + [cur[i]];
    assert cur[i + 1..] == cur[i..][1..];
    assert levels[j + 1..] == levels[j..][1..];
  }

  /** When the loop has passed the end, the array is the collapse of the whole input. */
  lemma SpliceDone(levels: seq<Point<int>>, cur: seq<Point<int>>, i: nat, j: nat)
    requires Splicing(levels, cur, i, j) && i >= |cur|
    ensures cur == Collapse(levels)
  {
    assert cur[..i] == cur;
    assert levels[..j] == levels;
  }

  /** Point `m` starts a run of equal levels. */
  predicate RunStart(s: seq<Point<int>>, m: nat)
    requires m < |s|
  {
    m == 0 || s[m].yValue != s[m - 1].yValue
  }

  /** `c` is read off `s` at the strictly increasing positions `idx`. */
  predicate PicksFrom(c: seq<Point<int>>, s: seq<Point<int>>, idx: seq<nat>) {
    && |idx| == |c|
    && (forall k :: 0 <= k < |idx| ==> idx[k] < |s| && c[k] == s[idx[k]])
    && (forall k :: 0 < k < |idx| ==> idx[k - 1] < idx[k])
  }

  /** The positions `idx` are exactly the run starts of `s`. */
  predicate PicksRunStarts(s: seq<Point<int>>, idx: seq<nat>) {
    forall m :: 0 <= m < |s| ==> (RunStart(s, m) <==> m in idx)
  }

  /**
    The collapse is the subsequence of the run starts, in order: it picks the
    input points at strictly increasing positions, and a position is picked
    exactly when it starts a run of equal levels.
  */
  lemma {:induction false} CollapseIndices(s: seq<Point<int>>) returns (idx: seq<nat>)
    ensures PicksFrom(Collapse(s), s, idx)
    ensures PicksRunStarts(s, idx)
  {
    if |s| <= 1 {
      idx := if s == [] then [] else [0];
    } else {
      var n := |s|;
      var init := s[..n - 1];
      var prev := CollapseIndices(init);
      if s[n - 1].yValue == s[n - 2].yValue {
        idx := prev;
        assert Collapse(s) == Collapse(init);
        PicksFromLonger(Collapse(init), s, prev);
        RunStartsRepeat(s, prev);
      } else {
        idx := prev + [n - 1];
        assert Collapse(s) == Collapse(init) + [s[n - 1]];
        PicksFromLonger(Collapse(init), s, prev);
        PicksFromAppend(Collapse(init), s, prev);
        RunStartsNew(s, prev);
      }
    }
  }

  lemma PicksFromLonger(c: seq<Point<int>>, s: seq<Point<int>>, idx: seq<nat>)
    requires |s| > 0 && PicksFrom(c, s[..|s| - 1], idx)
    ensures PicksFrom(c, s, idx)
    ensures forall k :: 0 <= k < |idx| ==> idx[k] < |s| - 1
  {
  }

  lemma PicksFromAppend(c: seq<Point<int>>, s: seq<Point<int>>, idx: seq<nat>)
    requires |s| > 0 && PicksFrom(c, s, idx)
    requires forall k :: 0 <= k < |idx| ==> idx[k] < |s| - 1
    ensures PicksFrom(c + [s[|s| - 1]], s, idx + [|s| - 1])
  {
    var c2, idx2 := c + [s[|s| - 1]], idx + [|s| - 1];
    forall k | 0 <= k < |idx2|
      ensures idx2[k] < |s| && c2[k] == s[idx2[k]]
    {
      if k < |idx| {
        assert idx2[k] == idx[k] && c2[k] == c[k];
      }
    }
  }

  lemma RunStartsRepeat(s: seq<Point<int>>, idx: seq<nat>)
    requires |s| > 1 && PicksRunStarts(s[..|s| - 1], idx)
    requires s[|s| - 1].yValue == s[|s| - 2].yValue
    requires forall k :: 0 <= k < |idx| ==> idx[k] < |s| - 1
    ensures PicksRunStarts(s, idx)
  {
    var init := s[..|s| - 1];
    forall m | 0 <= m < |s|
      ensures RunStart(s, m) <==> m in idx
    {
      if m < |s| - 1 {
        assert RunStart(s, m) <==> RunStart(init, m);
      }
    }
  }

  lemma RunStartsNew(s: seq<Point<int>>, idx: seq<nat>)
    requires |s| > 1 && PicksRunStarts(s[..|s| - 1], idx)
    requires s[|s| - 1].yValue != s[|s| - 2].yValue
    requires forall k :: 0 <= k < |idx| ==> idx[k] < |s| - 1
    ensures PicksRunStarts(s, idx + [|s| - 1])
  {
    var init := s[..|s| - 1];
    var idx2 := idx + [|s| - 1];
    forall m | 0 <= m < |s|
      ensures RunStart(s, m) <==> m in idx2
    {
      if m < |s| - 1 {
        assert RunStart(s, m) <==> RunStart(init, m);
        assert m in idx2 <==> m in idx;
      }
    }
  }

  /** No two neighbouring points of the collapse have the same level. */
  lemma {:induction false} CollapseNoRepeats(s: seq<Point<int>>)
    ensures forall k :: 0 < k < |Collapse(s)| ==> Collapse(s)[k - 1].yValue != Collapse(s)[k].yValue
  {
    if |s| > 1 {
      CollapseNoRepeats(s[..|s| - 1]);
    }
  }

  /** A non-decreasing input collapses to a strictly increasing series. */
  lemma {:induction false} CollapseStrictlyIncreasing(s: seq<Point<int>>)
    requires forall k :: 0 < k < |s| ==> s[k - 1].yValue <= s[k].yValue
    ensures forall k :: 0 < k < |Collapse(s)| ==> Collapse(s)[k - 1].yValue < Collapse(s)[k].yValue
  {
    if |s| > 1 {
      CollapseStrictlyIncreasing(s[..|s| - 1]);
    }
  }

  /**
    `getLevelByTime`: copies the input, maps the copy to levels and collapses
    repeated levels. The input array is only read.
  */
  method GetLevelByTime(xpByTime: array<Point<int>>) returns (levelByTime: seq<Point<int>>)
    ensures levelByTime == Collapse(LevelPoints(xpByTime[..]))
  {
    var copyOfXpTime := xpByTime[..];
    levelByTime := LevelPoints(copyOfXpTime);
    levelByTime := SpliceRepeats(levelByTime);
  }

  /**
    The splice loop of `getLevelByTime`: in one pass, each point whose level
    equals its predecessor's is removed; after a removal the index stays on
    the point that moved into place and the length shrinks by one.
  */
  method SpliceRepeats(levels: seq<Point<int>>) returns (levelByTime: seq<Point<int>>)
    ensures levelByTime == Collapse(levels)
  {
    levelByTime := levels;
    ghost var j := 1;
    var arrLen := |levelByTime|;
    var i := 1;
    if levels != [] {
      assert levels[..1] == [levels[0]];
    }
    while i < arrLen
      invariant arrLen == |levelByTime|
      invariant levels == [] ==> levelByTime == []
      invariant levels != [] ==> Splicing(levels, levelByTime, i, j)
      decreases arrLen - i
    {
      if levelByTime[i].yValue == levelByTime[i - 1].yValue {
        DropStep(levels, levelByTime, i, j);
        levelByTime := levelByTime[..i] + levelByTime[i + 1..];
        i := i - 1;
        arrLen := arrLen - 1;
      } else {
        KeepStep(levels, levelByTime, i, j);
      }
      j := j + 1;
      i := i + 1;
    }
    if levels != [] {
      SpliceDone(levels, levelByTime, i, j);
    }
  }

  /** The summary shown on the profile: total experience and the level it reaches. */
  datatype ProfileInfo = ProfileInfo(userId: int, login: string, totalXp: int, myLevel: nat)

  /** `getProfileInfo`: the total of the head amounts and the least level reaching it. */
  function GetProfileInfo(userId: int, transactions: seq<seq<Transaction>>): (r: ProfileInfo)
    requires AllNonEmpty(transactions)
    ensures r.userId == userId && r.login == USER_LOGIN
    ensures r.totalXp == SumXp(MappedXpAndProject(transactions))
    ensures CumulXpForLevel(r.myLevel) >= r.totalXp
    ensures r.myLevel == 0 || CumulXpForLevel(r.myLevel - 1) < r.totalXp
  {
    var totalXp := FindTotalXp(transactions);
    ProfileInfo(userId, USER_LOGIN, totalXp, LevelForXp(totalXp))
  }

  /**
    `getDiagramData`: the records are flattened into one shared array; the
    by-project series is built first, from the records in name order with
    their own amounts; sorting by time and accumulating then rewrite that
    same array, which the by-project points no longer depend on; the level
    series is derived from the by-time points.
  */
  method GetDiagramData(transactions: seq<seq<Transaction>>)
    returns (xpByProject: seq<Point<string>>, xpByTime: array<Point<int>>, levelByTime: seq<Point<int>>,
             ghost byName: seq<Record>, ghost byTime: seq<Record>)
    requires AllNonEmpty(transactions)
    ensures SortedBy(byName, ByName) && multiset(byName) == multiset(MappedXpAndProject(transactions))
    ensures xpByProject == ProjectSeries(byName)
    ensures SortedBy(byTime, ByCreatedAt) && multiset(byTime) == multiset(MappedXpAndProject(transactions))
    ensures fresh(xpByTime) && xpByTime[..] == TimeSeries(RunningTotals(byTime))
    ensures levelByTime == Collapse(LevelPoints(xpByTime[..]))
  {
    var mapped := MappedXpAndProject(transactions);
    var mappedValues := new Record[|mapped|](k requires 0 <= k < |mapped| => mapped[k]);
    assert mappedValues[..] == mapped;
    xpByProject := GetXpByProject(mappedValues);
    byName := mappedValues[..];
    xpByTime, byTime := GetXpByTime(mappedValues);
    levelByTime := GetLevelByTime(xpByTime);
  }

  /**
    What the three series promise together, for non-negative amounts: the
    by-time series starts at its first record's own amount, never decreases
    and ends at the profile's total; the level series never repeats a level,
    only rises, and ends at the profile's level.
  */
  lemma DiagramDataProperties(transactions: seq<seq<Transaction>>, byTime: seq<Record>)
    requires AllNonEmpty(transactions)
    requires forall k :: 0 <= k < |transactions| ==> transactions[k][0].amount >= 0
    requires multiset(byTime) == multiset(MappedXpAndProject(transactions))
    ensures var xs := TimeSeries(RunningTotals(byTime));
      && |xs| == |transactions|
      && (xs != [] ==> xs[0].yValue == byTime[0].xp && xs[|xs| - 1].yValue == FindTotalXp(transactions))
      && (forall p, q :: 0 <= p < q < |xs| ==> xs[p].yValue <= xs[q].yValue)
    ensures var xs := TimeSeries(RunningTotals(byTime));
      var levels := Collapse(LevelPoints(xs));
      && (forall k :: 0 < k < |levels| ==> levels[k - 1].yValue < levels[k].yValue)
      && (xs != [] ==> levels[|levels| - 1].yValue == GetProfileInfo(0, transactions).myLevel)
  {
    PermutedRecords(transactions, byTime);
    var xs := TimeSeries(RunningTotals(byTime));
    TimeSeriesProperties(byTime);
    LevelSeriesProperties(xs);
    if xs != [] {
      var total := FindTotalXp(transactions);
      assert xs[|xs| - 1].yValue == total;
      assert GetProfileInfo(0, transactions).myLevel == LevelForXp(total);
    }
  }

  /**
    The ends of the series for any amounts, negative ones included: one
    by-time point per project, the last at the profile's total, and the level
    series running from the level of the first point to the profile's level.
  */
  lemma DiagramDataEnds(userId: int, transactions: seq<seq<Transaction>>, byTime: seq<Record>)
    requires AllNonEmpty(transactions)
    requires multiset(byTime) == multiset(MappedXpAndProject(transactions))
    ensures var xs := TimeSeries(RunningTotals(byTime));
      && |xs| == |transactions|
      && (xs != [] ==> xs[|xs| - 1].yValue == FindTotalXp(transactions))
    ensures var xs := TimeSeries(RunningTotals(byTime));
      var levels := Collapse(LevelPoints(xs));
      && (xs != [] ==> levels[0] == Point(LevelForXp(byTime[0].xp), byTime[0].createdAt))
      && (xs != [] ==> levels[|levels| - 1].yValue == GetProfileInfo(userId, transactions).myLevel)
  {
    var mapped := MappedXpAndProject(transactions);
    assert |byTime| == |mapped| by {
      assert |multiset(byTime)| == |multiset(mapped)|;
    }
    var xs := TimeSeries(RunningTotals(byTime));
    if xs != [] {
      RunningTotalsFirst(byTime);
      RunningTotalsLast(byTime);
      SumXpPermutation(byTime, mapped);
      var total := FindTotalXp(transactions);
      assert xs[|xs| - 1].yValue == total;
      var ls := LevelPoints(xs);
      assert ls[|ls| - 1].yValue == LevelForXp(total);
      assert ls[0] == Point(LevelForXp(byTime[0].xp), byTime[0].createdAt);
    }
  }

  /** The records in any order: as many as projects, non-negative amounts, the profile's total. */
  lemma PermutedRecords(transactions: seq<seq<Transaction>>, byTime: seq<Record>)
    requires AllNonEmpty(transactions)
    requires forall k :: 0 <= k < |transactions| ==> transactions[k][0].amount >= 0
    requires multiset(byTime) == multiset(MappedXpAndProject(transactions))
    ensures |byTime| == |transactions|
    ensures forall k :: 0 <= k < |byTime| ==> byTime[k].xp >= 0
    ensures SumXp(byTime) == FindTotalXp(transactions)
  {
    var mapped := MappedXpAndProject(transactions);
    assert |byTime| == |mapped| by {
      assert |multiset(byTime)| == |multiset(mapped)|;
    }
    forall k | 0 <= k < |byTime|
      ensures byTime[k].xp >= 0
    {
      assert byTime[k] in multiset(mapped);
    }
    SumXpPermutation(byTime, mapped);
  }

  /** The by-time points of records with non-negative amounts: first amount, never decreasing, the total last. */
  lemma TimeSeriesProperties(s: seq<Record>)
    requires forall k :: 0 <= k < |s| ==> s[k].xp >= 0
    ensures var xs := TimeSeries(RunningTotals(s));
      && |xs| == |s|
      && (xs != [] ==> xs[0].yValue == s[0].xp && xs[|xs| - 1].yValue == SumXp(s))
      && (forall p, q :: 0 <= p < q < |xs| ==> xs[p].yValue <= xs[q].yValue)
  {
    if s != [] {
      RunningTotalsFirst(s);
      RunningTotalsLast(s);
    }
    RunningTotalsMonotone(s);
  }

  /** Levels of a non-decreasing series, collapsed: strictly rising, ending at the level of the last value. */
  lemma LevelSeriesProperties(xs: seq<Point<int>>)
    requires forall p, q :: 0 <= p < q < |xs| ==> xs[p].yValue <= xs[q].yValue
    ensures var levels := Collapse(LevelPoints(xs));
      && (forall k :: 0 < k < |levels| ==> levels[k - 1].yValue < levels[k].yValue)
      && (xs != [] ==> levels[0] == Point(LevelForXp(xs[0].yValue), xs[0].xValue))
      && (xs != [] ==> levels[|levels| - 1].yValue == LevelForXp(xs[|xs| - 1].yValue))
  {
    assert forall k :: 0 < k < |xs| ==> xs[k - 1].yValue <= xs[k].yValue;
    LevelPointsMonotone(xs);
    CollapseStrictlyIncreasing(LevelPoints(xs));
  }

  /** The two-record example: amounts 1000 and 2000 in time order accumulate to 1000 and 3000, level 3. */
  lemma TwoRecordExample(t0: int, t1: int)
    requires t0 < t1
    ensures var s := [Record(1000, "A", t0), Record(2000, "B", t1)];
      && SortedBy(s, ByCreatedAt)
      && TimeSeries(RunningTotals(s)) == [Point(1000, t0), Point(3000, t1)]
      && Collapse(LevelPoints(TimeSeries(RunningTotals(s)))) == [Point(2, t0), Point(3, t1)]
  {
    var s := [Record(1000, "A", t0), Record(2000, "B", t1)];
    assert s[..1] == [s[0]];
    assert RunningTotals(s) == [s[0], s[1].(xp := 3000)];
    var xs := TimeSeries(RunningTotals(s));
    assert xs == [Point(1000, t0), Point(3000, t1)];
    LevelForXpExample();
    assert CumulXpForLevel(1) == 830;
    LevelForXpCharacterization(1000, 2);
    var ls := LevelPoints(xs);
    assert ls[0] == Point(2, t0) && ls[1] == Point(3, t1);
    assert ls == [Point(2, t0), Point(3, t1)];
    assert ls[..1] == [Point(2, t0)];
  }
}
