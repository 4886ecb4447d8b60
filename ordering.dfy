/**
  `sortNestedByKey`: the records are sorted in place by one key with the
  comparator `a[key] > b[key] ? 1 : -1`. Names compare as strings
  (character by character, a proper prefix first) and timestamps as numbers.
*/
module Ordering {
  import opened Records

  /** The two keys the source sorts by. */
  datatype SortKey = ByName | ByCreatedAt

  /** The string order of `<` on strings: lexicographic, a proper prefix before its extensions. */
  predicate StrLess(s: string, t: string) {
    if |s| == 0 then |t| > 0
    else if |t| == 0 then false
    else if s[0] != t[0] then s[0] < t[0]
    else StrLess(s[1..], t[1..])
  }

  lemma {:induction false} StrLessTransitive(s: string, t: string, u: string)
    requires StrLess(s, t) && StrLess(t, u)
    ensures StrLess(s, u)
  {
    if |s| > 0 && |t| > 0 && |u| > 0 && s[0] == t[0] == u[0] {
      StrLessTransitive(s[1..], t[1..], u[1..]);
    }
  }

  lemma {:induction false} StrLessTrichotomy(s: string, t: string)
    ensures StrLess(s, t) || s == t || StrLess(t, s)
    ensures !(StrLess(s, t) && StrLess(t, s))
  {
    if |s| > 0 && |t| > 0 && s[0] == t[0] {
      StrLessTrichotomy(s[1..], t[1..]);
      if s[1..] == t[1..] {
        assert s == [s[0]] + s[1..] && t == [t[0]] + t[1..];
      }
    }
  }

  /** The comparator's test `a[key] > b[key]`. */
  predicate Greater(a: Record, b: Record, key: SortKey) {
    match key
    case ByName => StrLess(b.name, a.name)
    case ByCreatedAt => a.createdAt > b.createdAt
  }

  /** `a` may stand before `b`: the comparator does not put `a` after `b`. */
  predicate KeyLe(a: Record, b: Record, key: SortKey) {
    !Greater(a, b, key)
  }

  /** If `a` is greater than `b` then `b` may stand before `a`. */
  lemma GreaterFlip(a: Record, b: Record, key: SortKey)
    requires Greater(a, b, key)
    ensures KeyLe(b, a, key)
  {
    if key == ByName {
      StrLessTrichotomy(a.name, b.name);
    }
  }

  lemma KeyLeTransitive(a: Record, b: Record, c: Record, key: SortKey)
    requires KeyLe(a, b, key) && KeyLe(b, c, key)
    ensures KeyLe(a, c, key)
  {
    if key == ByName && StrLess(c.name, a.name) {
      StrLessTrichotomy(a.name, b.name);
      if StrLess(a.name, b.name) {
        StrLessTransitive(c.name, a.name, b.name);
      }
    }
  }

  /** Non-decreasing in the key: no record is greater than one after it. */
  predicate SortedBy(s: seq<Record>, key: SortKey) {
    forall p, q :: 0 <= p < q < |s| ==> KeyLe(s[p], s[q], key)
  }

  /**
    `sortNestedByKey(arr, key)`: the array ends up a permutation of itself in
    non-decreasing key order. Equal keys may end up in any order.
  */
  method SortNestedByKey(a: array<Record>, key: SortKey)
    modifies a
    ensures SortedBy(a[..], key)
    ensures multiset(a[..]) == old(multiset(a[..]))
  {
    for i := 0 to a.Length
      invariant SortedBy(a[..i], key)
      invariant multiset(a[..]) == old(multiset(a[..]))
    {
      var j := i;
      InsertStart(a[..], i, key);
      while j > 0 && Greater(a[j - 1], a[j], key)
        invariant 0 <= j <= i
        invariant Inserting(a[..], i, j, key)
        invariant multiset(a[..]) == old(multiset(a[..]))
      {
        ghost var before := a[..];
        Swap(a, j - 1, j);
        SwapStep(before, a[..], i, j, key);
        j := j - 1;
      }
      InsertDone(a[..], i, j, key);
    }
  }

  /** Exchanges two elements of the array. */
  method Swap(a: array<Record>, p: nat, q: nat)
    requires p < q < a.Length
    modifies a
    ensures a[..] == old(a[..])[p := old(a[q])][q := old(a[p])]
  {
    a[p], a[q] := a[q], a[p];
  }

  /**
    The state of the inner loop while the record that started at `i` moves
    left: it now stands at `j`, the other records up to `i` are in order, and
    it is not greater than any record after it up to `i`.
  */
  predicate Inserting(s: seq<Record>, i: nat, j: nat, key: SortKey) {
    && j <= i < |s|
    && (forall p, q :: 0 <= p < q <= i && p != j && q != j ==> KeyLe(s[p], s[q], key))
    && (forall q :: j < q <= i ==> KeyLe(s[j], s[q], key))
  }

  /** A sorted prefix before `i` is the start of the inner loop. */
  lemma InsertStart(s: seq<Record>, i: nat, key: SortKey)
    requires i < |s| && SortedBy(s[..i], key)
    ensures Inserting(s, i, i, key)
  {
    forall p, q | 0 <= p < q <= i && p != i && q != i
      ensures KeyLe(s[p], s[q], key)
    {
      assert s[..i][p] == s[p] && s[..i][q] == s[q];
    }
  }

  /** One swap of the inner loop keeps its invariant, one position further left. */
  lemma SwapStep(before: seq<Record>, after: seq<Record>, i: nat, j: nat, key: SortKey)
    requires 0 < j && Inserting(before, i, j, key) && |after| == |before|
    requires after == before[j - 1 := before[j]][j := before[j - 1]]
    requires Greater(before[j - 1], before[j], key)
    ensures Inserting(after, i, j - 1, key)
    ensures multiset(after) == multiset(before)
  {
    GreaterFlip(before[j - 1], before[j], key);
    forall q | j - 1 < q <= i
      ensures KeyLe(after[j - 1], after[q], key)
    {
      if q > j {
        assert after[q] == before[q];
      }
    }
  }

  /** When the inner loop stops, the prefix up to `i` is sorted. */
  lemma InsertDone(s: seq<Record>, i: nat, j: nat, key: SortKey)
    requires Inserting(s, i, j, key)
    requires j > 0 ==> !Greater(s[j - 1], s[j], key)
    ensures SortedBy(s[..i + 1], key)
  {
    forall p, q | 0 <= p < q <= i
      ensures KeyLe(s[p], s[q], key)
    {
      if q == j && p < j - 1 {
        KeyLeTransitive(s[p], s[j - 1], s[j], key);
      }
    }
  }
}
