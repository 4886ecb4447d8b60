/**
  The records the charts are built from: the experience transactions fetched
  per project, the flattened record kept for each project, and a chart point.
*/
module Records {

  /** One experience transaction; `createdAt` is the parsed timestamp in milliseconds. */
  datatype Transaction = Transaction(amount: int, objectName: string, createdAt: int)

  /** The flattened per-project record `{xp, name, createdAt}`. */
  datatype Record = Record(xp: int, name: string, createdAt: int)

  /** A chart point `{yValue, xValue}`; the x value is a project name or a timestamp. */
  datatype Point<X> = Point(yValue: int, xValue: X)

  /** The transaction lists of every project hold at least their head transaction. */
  predicate AllNonEmpty(transactions: seq<seq<Transaction>>) {
    forall i :: 0 <= i < |transactions| ==> |transactions[i]| > 0
  }

  /** Sum of the `xp` fields, added up from the left. */
  function SumXp(s: seq<Record>): int {
    if s == [] then 0 else SumXp(s[..|s| - 1]) + s[|s| - 1].xp
  }

  lemma {:induction false} SumXpConcat(s: seq<Record>, t: seq<Record>)
    ensures SumXp(s + t) == SumXp(s) + SumXp(t)
  {
    if t == [] {
      assert s + t == s;
    } else {
      var u := t[..|t| - 1];
      assert (s + t)[..|s + t| - 1] == s + u;
      assert (s + t)[|s + t| - 1] == t[|t| - 1];
      SumXpConcat(s, u);
    }
  }

  /** The sum does not depend on the order of the records. */
  lemma {:induction false} SumXpPermutation(s: seq<Record>, t: seq<Record>)
    requires multiset(s) == multiset(t)
    ensures SumXp(s) == SumXp(t)
    decreases |s|
  {
    if s != [] {
      var j := PermutationRemoveLast(s, t);
      SumXpPermutation(s[..|s| - 1], t[..j] + t[j + 1..]);
      SumXpRemove(t, j);
    }
  }

  /** The last record of `s` occurs in its permutation `t`; without it on both sides they are still permutations. */
  lemma PermutationRemoveLast(s: seq<Record>, t: seq<Record>) returns (j: nat)
    requires s != [] && multiset(s) == multiset(t)
    ensures j < |t| && t[j] == s[|s| - 1]
    ensures multiset(s[..|s| - 1]) == multiset(t[..j] + t[j + 1..])
  {
    var x := s[|s| - 1];
    assert x in multiset(t);
    j :| 0 <= j < |t| && t[j] == x;
    RemoveAt(s, |s| - 1);
    RemoveAt(t, j);
    assert s[..|s| - 1] + s[|s|..] == s[..|s| - 1];
  }

  /** Taking out the element at `j` takes it out of the multiset. */
  lemma RemoveAt(t: seq<Record>, j: nat)
    requires j < |t|
    ensures multiset(t[..j] + t[j + 1..]) == multiset(t) - multiset{t[j]}
  {
    assert t == t[..j] + [t[j]] + t[j + 1..];
  }

  /** Taking out the element at `j` takes its amount out of the sum. */
  lemma SumXpRemove(t: seq<Record>, j: nat)
    requires j < |t|
    ensures SumXp(t) == SumXp(t[..j] + t[j + 1..]) + t[j].xp
  {
    var front, rest := t[..j], t[j..];
    assert t == front + rest;
    assert rest == [t[j]] + rest[1..];
    assert rest[1..] == t[j + 1..];
    SumXpMiddle(front, t[j], rest[1..]);
  }

  lemma SumXpMiddle(front: seq<Record>, x: Record, back: seq<Record>)
    ensures SumXp(front + ([x] + back)) == SumXp(front + back) + x.xp
  {
    SumXpConcat(front, [x] + back);
    SumXpConcat([x], back);
    assert [x][..0] == [];
    SumXpConcat(front, back);
  }

  /** `findTotalXp`: the head amounts of the per-project lists, reduced from 0. */
  function FindTotalXp(transactions: seq<seq<Transaction>>): (r: int)
    requires AllNonEmpty(transactions)
    ensures r == SumXp(MappedXpAndProject(transactions))
  {
    if transactions == [] then 0
    else
      var init := transactions[..|transactions| - 1];
      assert MappedXpAndProject(transactions)[..|transactions| - 1] == MappedXpAndProject(init);
      FindTotalXp(init) + transactions[|transactions| - 1][0].amount
  }

  /** `mappedXpAndProject`: one record per project, taken from its head transaction. */
  function MappedXpAndProject(transactions: seq<seq<Transaction>>): (r: seq<Record>)
    requires AllNonEmpty(transactions)
    ensures |r| == |transactions|
    ensures forall i :: 0 <= i < |r| ==>
      var head := transactions[i][0];
      r[i].xp == head.amount && r[i].name == head.objectName && r[i].createdAt == head.createdAt
  {
    seq(|transactions|, i requires 0 <= i < |transactions| =>
      Record(transactions[i][0].amount, transactions[i][0].objectName, transactions[i][0].createdAt))
  }

  /** With non-negative amounts the total is non-negative and bounds every single amount. */
  lemma {:induction false} FindTotalXpBounds(transactions: seq<seq<Transaction>>, i: nat)
    requires AllNonEmpty(transactions)
    requires forall k :: 0 <= k < |transactions| ==> transactions[k][0].amount >= 0
    requires i < |transactions|
    ensures 0 <= transactions[i][0].amount <= FindTotalXp(transactions)
  {
    var init := transactions[..|transactions| - 1];
    assert AllNonEmpty(init);
    if i < |init| {
      FindTotalXpBounds(init, i);
    } else {
      FindTotalXpNonNegative(init);
    }
  }

  lemma {:induction false} FindTotalXpNonNegative(transactions: seq<seq<Transaction>>)
    requires AllNonEmpty(transactions)
    requires forall k :: 0 <= k < |transactions| ==> transactions[k][0].amount >= 0
    ensures FindTotalXp(transactions) >= 0
  {
    if transactions != [] {
      var init := transactions[..|transactions| - 1];
      assert AllNonEmpty(init);
      FindTotalXpNonNegative(init);
    }
  }
}
