/** Sequence helpers shared by the table models: the WHERE clause of a query
    (Filter) and its ORDER BY clause (SortBy, a stable insertion sort). */
module Seqs {

  /** The elements of `s` that satisfy `p`, in their original order. */
  function Filter<T(!new)>(s: seq<T>, p: T -> bool): (r: seq<T>)
    ensures |r| <= |s|
    ensures forall x :: x in r <==> x in s && p(x)
    ensures forall x :: multiset(r)[x] == if p(x) then multiset(s)[x] else 0
  {
    if s == [] then []
    else
      assert s == [s[0]] + s[1..];
      (if p(s[0]) then [s[0]] else []) + Filter(s[1..], p)
  }

  /** Filtering a sequence extended by one element extends the result by that
      element exactly when it satisfies `p`. */
  lemma {:induction false} FilterAppend<T(!new)>(s: seq<T>, x: T, p: T -> bool)
    ensures Filter(s + [x], p) == Filter(s, p) + (if p(x) then [x] else [])
  {
    var t := s + [x];
    if s == [] {
      assert t == [x] && t[1..] == [];
    } else {
      assert t[0] == s[0] && t[1..] == s[1..] + [x];
      FilterAppend(s[1..], x, p);
      var head := if p(s[0]) then [s[0]] else [];
      var tail := if p(x) then [x] else [];
      var rest := Filter(s[1..], p);
      assert Filter(t[1..], p) == rest + tail;
      assert Filter(t, p) == head + (rest + tail);
      assert Filter(s, p) == head + rest;
      SeqAssoc(head, rest, tail);
    }
  }

  /** Concatenation is associative; stated as a lemma so that the proof above
      uses it as one fact instead of rediscovering it element by element. */
  lemma SeqAssoc<T>(a: seq<T>, b: seq<T>, c: seq<T>)
    ensures a + (b + c) == (a + b) + c
  {
  }

  /** The positions of `s` whose element satisfies `p`. */
  ghost function IndicesWhere<T>(s: seq<T>, p: T -> bool): set<int> {
    set i | 0 <= i < |s| && p(s[i])
  }

  /** The positions of a sequence extended by one element are those of the
      prefix, plus the new last position when its element satisfies `p`. */
  lemma IndicesWhereSnoc<T>(s: seq<T>, x: T, p: T -> bool)
    ensures |IndicesWhere(s + [x], p)| == |IndicesWhere(s, p)| + (if p(x) then 1 else 0)
  {
    var t := s + [x];
    var last := if p(x) then {|s|} else {};
    forall i
      ensures i in IndicesWhere(t, p) <==> i in IndicesWhere(s, p) + last
    {
      if 0 <= i < |s| {
        assert t[i] == s[i];
      }
    }
    assert IndicesWhere(t, p) == IndicesWhere(s, p) + last;
    assert IndicesWhere(s, p) * last == {};
  }

  /** The length of the filtered sequence is the number of positions whose element satisfies `p`. */
  lemma {:induction false} FilterCountsIndices<T(!new)>(s: seq<T>, p: T -> bool)
    ensures |Filter(s, p)| == |IndicesWhere(s, p)|
  {
    if s != [] {
      var init, x := s[..|s| - 1], s[|s| - 1];
      assert s == init + [x];
      FilterCountsIndices(init, p);
      FilterAppend(init, x, p);
      IndicesWhereSnoc(init, x, p);
    }
  }

  ghost predicate Total<T(!new)>(le: (T, T) -> bool) {
    forall a, b :: le(a, b) || le(b, a)
  }

  ghost predicate Transitive<T(!new)>(le: (T, T) -> bool) {
    forall a, b, c :: le(a, b) && le(b, c) ==> le(a, c)
  }

  ghost predicate SortedBy<T>(s: seq<T>, le: (T, T) -> bool) {
    forall i, j :: 0 <= i < j < |s| ==> le(s[i], s[j])
  }

  /** Inserts `x` before the first element it may precede. */
  function InsertBy<T>(x: T, s: seq<T>, le: (T, T) -> bool): (r: seq<T>)
    ensures |r| == |s| + 1
    ensures multiset(r) == multiset(s) + multiset{x}
  {
    if s == [] then [x]
    else if le(x, s[0]) then [x] + s
    else
      assert s == [s[0]] + s[1..];
      [s[0]] + InsertBy(x, s[1..], le)
  }

  lemma {:induction false} InsertBySorted<T(!new)>(x: T, s: seq<T>, le: (T, T) -> bool)
    requires Total(le) && Transitive(le) && SortedBy(s, le)
    ensures SortedBy(InsertBy(x, s, le), le)
  {
    if s != [] && !le(x, s[0]) {
      var t := InsertBy(x, s[1..], le);
      InsertBySorted(x, s[1..], le);
      assert le(s[0], x);
      forall k | 0 <= k < |t| ensures le(s[0], t[k]) {
        assert t[k] in multiset(t);
        assert t[k] == x || t[k] in s[1..];
      }
    }
  }

  /** Insertion sort: a permutation of `s` ordered by `le`. */
  function SortBy<T>(s: seq<T>, le: (T, T) -> bool): (r: seq<T>)
    ensures |r| == |s|
    ensures multiset(r) == multiset(s)
  {
    if s == [] then []
    else
      assert s == [s[0]] + s[1..];
      InsertBy(s[0], SortBy(s[1..], le), le)
  }

  lemma {:induction false} SortBySorted<T(!new)>(s: seq<T>, le: (T, T) -> bool)
    requires Total(le) && Transitive(le)
    ensures SortedBy(SortBy(s, le), le)
  {
    if s != [] {
      SortBySorted(s[1..], le);
      InsertBySorted(s[0], SortBy(s[1..], le), le);
    }
  }

  /** The ORDER BY of a query: the selected rows, permuted into `le` order. */
  function Query<T(!new)>(s: seq<T>, p: T -> bool, le: (T, T) -> bool): (r: seq<T>)
    requires Total(le) && Transitive(le)
    ensures forall x :: x in r <==> x in s && p(x)
    ensures forall x :: multiset(r)[x] == if p(x) then multiset(s)[x] else 0
    ensures SortedBy(r, le)
  {
    var f := Filter(s, p);
    SortBySorted(f, le);
    SortBy(f, le)
  }
}
