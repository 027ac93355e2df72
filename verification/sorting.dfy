/** `Array.prototype.sort` with a numeric descending comparator
  * (`(a, b) => key(b) - key(a)`). Since the 10th edition of ECMA-262
  * (section 22.1.3.27) the sort is stable, so the model is a stable insertion
  * sort on a sequence; what it promises is proved below. */
module Sorting {

  /** Places `x` in front of the first element whose key does not exceed its
    * own, so that `x` stays ahead of the elements with an equal key. */
  function Insert<T>(x: T, s: seq<T>, key: T -> int): seq<T>
  {
    if s == [] || key(s[0]) <= key(x) then [x] + s
    else [s[0]] + Insert(x, s[1..], key)
  }

  /** The stable sort by `key`, largest key first. */
  function SortDesc<T>(s: seq<T>, key: T -> int): seq<T>
  {
    if s == [] then [] else Insert(s[0], SortDesc(s[1..], key), key)
  }

  /** Largest key first. */
  ghost predicate Descending<T>(s: seq<T>, key: T -> int) {
    forall i, j :: 0 <= i < j < |s| ==> key(s[i]) >= key(s[j])
  }

  /** Largest key first, and among equal keys the smaller rank first. */
  ghost predicate RankedDescending<T>(s: seq<T>, key: T -> int, rank: T -> int) {
    forall i, j :: 0 <= i < j < |s| ==>
      key(s[i]) > key(s[j]) || (key(s[i]) == key(s[j]) && rank(s[i]) < rank(s[j]))
  }

  /** The ranks strictly increase along `s` (for instance, `rank` is the
    * position of an element in `s`). */
  ghost predicate RankIncreasing<T>(s: seq<T>, rank: T -> int) {
    forall i, j :: 0 <= i < j < |s| ==> rank(s[i]) < rank(s[j])
  }

  lemma {:induction false} InsertPermutes<T>(x: T, s: seq<T>, key: T -> int)
    ensures multiset(Insert(x, s, key)) == multiset(s) + multiset{x}
    ensures |Insert(x, s, key)| == |s| + 1
  {
    if s != [] && key(s[0]) > key(x) {
      InsertPermutes(x, s[1..], key);
      assert s == [s[0]] + s[1..];
    }
  }

  /** The sort only reorders: the result is a permutation of its input. */
  lemma {:induction false} SortPermutes<T>(s: seq<T>, key: T -> int)
    ensures multiset(SortDesc(s, key)) == multiset(s)
    ensures |SortDesc(s, key)| == |s|
  {
    if s != [] {
      SortPermutes(s[1..], key);
      InsertPermutes(s[0], SortDesc(s[1..], key), key);
      assert s == [s[0]] + s[1..];
    }
  }

  lemma {:induction false} InsertKeepsDescending<T>(x: T, s: seq<T>, key: T -> int)
    requires Descending(s, key)
    ensures Descending(Insert(x, s, key), key)
  {
    if s != [] && key(s[0]) > key(x) {
      var t := Insert(x, s[1..], key);
      InsertKeepsDescending(x, s[1..], key);
      InsertPermutes(x, s[1..], key);
      forall j | 0 <= j < |t| ensures key(s[0]) >= key(t[j]) {
        assert t[j] in multiset(t);
        assert t[j] == x || t[j] in multiset(s[1..]);
      }
    }
  }

  /** The result lists the largest key first. */
  lemma {:induction false} SortDescending<T>(s: seq<T>, key: T -> int)
    ensures Descending(SortDesc(s, key), key)
  {
    if s != [] {
      SortDescending(s[1..], key);
      InsertKeepsDescending(s[0], SortDesc(s[1..], key), key);
    }
  }

  /** Inserting adds `x` and nothing else. */
  lemma {:induction false} InsertElements<T>(x: T, s: seq<T>, key: T -> int)
    ensures |Insert(x, s, key)| == |s| + 1
    ensures forall y :: y in Insert(x, s, key) ==> y == x || y in s
  {
    if s != [] && key(s[0]) > key(x) {
      InsertElements(x, s[1..], key);
      assert forall y :: y in s[1..] ==> y in s;
    }
  }

  /** Sorting adds nothing. */
  lemma {:induction false} SortElements<T>(s: seq<T>, key: T -> int)
    ensures forall y :: y in SortDesc(s, key) ==> y in s
  {
    if s != [] {
      SortElements(s[1..], key);
      InsertElements(s[0], SortDesc(s[1..], key), key);
      assert forall y :: y in s[1..] ==> y in s;
    }
  }

  /** `x` comes before `y`: a larger key, or the same key and a smaller rank. */
  ghost predicate Precedes<T>(x: T, y: T, key: T -> int, rank: T -> int) {
    key(x) > key(y) || (key(x) == key(y) && rank(x) < rank(y))
  }

  lemma RankedTail<T>(s: seq<T>, key: T -> int, rank: T -> int)
    requires s != [] && RankedDescending(s, key, rank)
    ensures RankedDescending(s[1..], key, rank)
    ensures forall y :: y in s[1..] ==> Precedes(s[0], y, key, rank)
  {
    var tail := s[1..];
    forall i, j | 0 <= i < j < |tail|
      ensures key(tail[i]) > key(tail[j]) || (key(tail[i]) == key(tail[j]) && rank(tail[i]) < rank(tail[j]))
    {
      assert tail[i] == s[i + 1] && tail[j] == s[j + 1];
    }
    forall y | y in tail ensures Precedes(s[0], y, key, rank) {
      var k :| 0 <= k < |tail| && tail[k] == y;
      assert s[k + 1] == y;
    }
  }

  lemma RankedCons<T>(h: T, t: seq<T>, key: T -> int, rank: T -> int)
    requires RankedDescending(t, key, rank)
    requires forall y :: y in t ==> Precedes(h, y, key, rank)
    ensures RankedDescending([h] + t, key, rank)
  {
    var r := [h] + t;
    forall i, j | 0 <= i < j < |r|
      ensures key(r[i]) > key(r[j]) || (key(r[i]) == key(r[j]) && rank(r[i]) < rank(r[j]))
    {
      assert r[j] == t[j - 1];
      assert t[j - 1] in t;
      if i > 0 {
        assert r[i] == t[i - 1];
      }
    }
  }

  lemma {:induction false} InsertKeepsRanked<T>(x: T, s: seq<T>, key: T -> int, rank: T -> int)
    requires RankedDescending(s, key, rank)
    requires forall y :: y in s ==> rank(x) < rank(y)
    ensures RankedDescending(Insert(x, s, key), key, rank)
  {
    if s == [] || key(s[0]) <= key(x) {
      forall y | y in s ensures Precedes(x, y, key, rank) {
        if s != [] {
          RankedTail(s, key, rank);
          if y != s[0] {
            assert y in s[1..];
          }
        }
      }
      RankedCons(x, s, key, rank);
    } else {
      var tail := s[1..];
      RankedTail(s, key, rank);
      assert forall y :: y in tail ==> y in s;
      var t := Insert(x, tail, key);
      InsertKeepsRanked(x, tail, key, rank);
      InsertElements(x, tail, key);
      assert forall y :: y in t ==> Precedes(s[0], y, key, rank);
      RankedCons(s[0], t, key, rank);
    }
  }

  /** Stability: when the input is in increasing rank order, elements with
    * equal keys keep that order in the result. */
  lemma {:induction false} SortStable<T>(s: seq<T>, key: T -> int, rank: T -> int)
    requires RankIncreasing(s, rank)
    ensures RankedDescending(SortDesc(s, key), key, rank)
  {
    if s != [] {
      SortStable(s[1..], key, rank);
      SortPermutes(s[1..], key);
      SortElements(s[1..], key);
      forall y | y in SortDesc(s[1..], key) ensures rank(s[0]) < rank(y) {
        assert y in s[1..];
        var k :| 0 <= k < |s[1..]| && s[1..][k] == y;
        assert s[k + 1] == y;
      }
      InsertKeepsRanked(s[0], SortDesc(s[1..], key), key, rank);
    }
  }

  /** No two elements share a value of `f`. */
  ghost predicate DistinctBy<T, K>(s: seq<T>, f: T -> K) {
    forall i, j :: 0 <= i < j < |s| ==> f(s[i]) != f(s[j])
  }

  lemma {:induction false} InsertKeepsDistinct<T, K>(x: T, s: seq<T>, key: T -> int, f: T -> K)
    requires DistinctBy(s, f)
    requires forall y :: y in s ==> f(y) != f(x)
    ensures DistinctBy(Insert(x, s, key), f)
  {
    if s != [] && key(s[0]) > key(x) {
      var tail := s[1..];
      assert DistinctBy(tail, f) by {
        forall i, j | 0 <= i < j < |tail| ensures f(tail[i]) != f(tail[j]) {
          assert tail[i] == s[i + 1] && tail[j] == s[j + 1];
        }
      }
      var t := Insert(x, tail, key);
      InsertKeepsDistinct(x, tail, key, f);
      InsertElements(x, tail, key);
      var r := [s[0]] + t;
      assert Insert(x, s, key) == r;
      forall i, j | 0 <= i < j < |r| ensures f(r[i]) != f(r[j]) {
        assert r[j] == t[j - 1];
        if i > 0 {
          assert r[i] == t[i - 1];
        } else if t[j - 1] != x {
          assert t[j - 1] in t;
          var k :| 0 <= k < |tail| && tail[k] == t[j - 1];
          assert s[k + 1] == t[j - 1];
        }
      }
    }
  }

  /** Sorting keeps a field that was unique unique. */
  lemma {:induction false} SortKeepsDistinct<T, K>(s: seq<T>, key: T -> int, f: T -> K)
    requires DistinctBy(s, f)
    ensures DistinctBy(SortDesc(s, key), f)
  {
    if s != [] {
      var tail := s[1..];
      assert DistinctBy(tail, f) by {
        forall i, j | 0 <= i < j < |tail| ensures f(tail[i]) != f(tail[j]) {
          assert tail[i] == s[i + 1] && tail[j] == s[j + 1];
        }
      }
      SortKeepsDistinct(tail, key, f);
      SortElements(tail, key);
      forall y | y in SortDesc(tail, key) ensures f(y) != f(s[0]) {
        assert y in tail;
        var k :| 0 <= k < |tail| && tail[k] == y;
        assert s[k + 1] == y;
      }
      InsertKeepsDistinct(s[0], SortDesc(tail, key), key, f);
    }
  }
}
