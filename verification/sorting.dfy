/** Descending ordering of query results, as the ORM's `order_by("-a", "-b")`
    produces it: rows sorted on a primary key, ties broken by a secondary key. */
module Sorting {

  import opened Money

  /** The two sort columns of a row. */
  datatype SortKey = SortKey(major: int, minor: int)

  /** `a` comes no later than `b` under `order_by("-major", "-minor")`. */
  predicate AtLeast(a: SortKey, b: SortKey)
  {
    a.major > b.major || (a.major == b.major && a.minor >= b.minor)
  }

  predicate SortedDesc<T>(s: seq<T>, key: T -> SortKey)
  {
    forall i, j :: 0 <= i < j < |s| ==> AtLeast(key(s[i]), key(s[j]))
  }

  /** `x` inserted into `s` before the first row it is at least as large as. */
  function Insert<T>(x: T, s: seq<T>, key: T -> SortKey): (r: seq<T>)
    ensures multiset(r) == multiset(s) + multiset{x}
    ensures |r| == |s| + 1
  {
    if s == [] then [x]
    else if AtLeast(key(x), key(s[0])) then [x] + s
    else
      assert s == [s[0]] + s[1..];
      [s[0]] + Insert(x, s[1..], key)
  }

  lemma {:induction false} InsertSorted<T>(x: T, s: seq<T>, key: T -> SortKey)
    requires SortedDesc(s, key)
    ensures SortedDesc(Insert(x, s, key), key)
  {
    if s != [] && !AtLeast(key(x), key(s[0])) {
      var t := Insert(x, s[1..], key);
      InsertSorted(x, s[1..], key);
      forall j | 0 <= j < |t|
        ensures AtLeast(key(s[0]), key(t[j]))
      {
        assert t[j] in multiset(t);
        if t[j] != x {
          assert t[j] in multiset(s[1..]);
          var k :| 0 <= k < |s[1..]| && s[1..][k] == t[j];
          assert s[k + 1] == t[j];
        }
      }
    }
  }

  /** The rows of `s` in descending key order. */
  function SortDesc<T>(s: seq<T>, key: T -> SortKey): (r: seq<T>)
    ensures multiset(r) == multiset(s)
    ensures |r| == |s|
    ensures SortedDesc(r, key)
  {
    if s == [] then []
    else
      assert s == [s[0]] + s[1..];
      InsertSorted(s[0], SortDesc(s[1..], key), key);
      Insert(s[0], SortDesc(s[1..], key), key)
  }

  /** The first `n` rows of `s` (Python's `s[:n]`, SQL `LIMIT n`). */
  function Take<T>(s: seq<T>, n: nat): (r: seq<T>)
    ensures |r| == if |s| < n then |s| else n
    ensures r == s[..|r|]
  {
    if |s| < n then s else s[..n]
  }

  /** A prefix of a descending sequence is descending and takes no row more
      often than the sequence holds it. */
  lemma TakeKeepsSortedDesc<T>(s: seq<T>, n: nat, key: T -> SortKey)
    requires SortedDesc(s, key)
    ensures SortedDesc(Take(s, n), key)
    ensures multiset(Take(s, n)) <= multiset(s)
  {
    var r := Take(s, n);
    assert s == r + s[|r|..];
    assert multiset(s) == multiset(r) + multiset(s[|r|..]);
  }

  /** The first `n` rows of a descending sort are the rows with the largest keys:
      every row left out is no larger than every row kept. */
  lemma TakeOfSortedIsTop<T>(s: seq<T>, n: nat, key: T -> SortKey)
    requires SortedDesc(s, key)
    ensures forall i, j :: 0 <= i < |Take(s, n)| <= j < |s| ==> AtLeast(key(s[i]), key(s[j]))
  {
  }

  lemma {:induction false} InsertSum<T>(x: T, s: seq<T>, key: T -> SortKey, f: T -> Money)
    ensures SumOf(Insert(x, s, key), f) == f(x) + SumOf(s, f)
  {
    if s != [] && !AtLeast(key(x), key(s[0])) {
      InsertSum(x, s[1..], key, f);
    }
  }

  /** Ordering the rows does not change their total. */
  lemma {:induction false} SortPreservesSum<T>(s: seq<T>, key: T -> SortKey, f: T -> Money)
    ensures SumOf(SortDesc(s, key), f) == SumOf(s, f)
  {
    if s != [] {
      SortPreservesSum(s[1..], key, f);
      InsertSum(s[0], SortDesc(s[1..], key), key, f);
    }
  }
}
