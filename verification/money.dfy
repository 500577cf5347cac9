/** Monetary amounts and the sums the ledgers are recomputed from.

    The source stores amounts as Python `Decimal`, which is exact; they are
    modelled here as `real`. Rounding to the database column's decimal places
    is not modelled. */
module Money {

  type Money = real

  /** `sum(...)` of `f` over the elements of `s`, starting from zero; `f` is a
      field projection. */
  function SumOf<T>(s: seq<T>, f: T -> Money): Money
  {
    if s == [] then 0.0 else f(s[0]) + SumOf(s[1..], f)
  }

  /** Number of elements of `s` that satisfy `p` (SQL `COUNT(CASE WHEN p THEN 1 END)`). */
  function CountIf<T>(s: seq<T>, p: T -> bool): (n: nat)
    ensures n <= |s|
  {
    if s == [] then 0 else (if p(s[0]) then 1 else 0) + CountIf(s[1..], p)
  }

  /** Positive part: the SQL `CASE WHEN x > 0 THEN x ELSE 0 END`. */
  function PositivePart(x: Money): (r: Money)
    ensures r >= 0.0 && r >= x
    ensures r == x || r == 0.0
  {
    if x > 0.0 then x else 0.0
  }

  lemma SumOfSingleton<T>(x: T, f: T -> Money)
    ensures SumOf([x], f) == f(x)
  {
    assert [x][1..] == [];
  }

  lemma {:induction false} SumOfAppend<T>(s: seq<T>, t: seq<T>, f: T -> Money)
    ensures SumOf(s + t, f) == SumOf(s, f) + SumOf(t, f)
    decreases |s|
  {
    if s == [] {
      assert s + t == t;
    } else {
      assert (s + t)[1..] == s[1..] + t;
      SumOfAppend(s[1..], t, f);
    }
  }

  lemma {:induction false} CountIfAppend<T>(s: seq<T>, t: seq<T>, p: T -> bool)
    ensures CountIf(s + t, p) == CountIf(s, p) + CountIf(t, p)
    decreases |s|
  {
    if s == [] {
      assert s + t == t;
    } else {
      assert (s + t)[1..] == s[1..] + t;
      CountIfAppend(s[1..], t, p);
    }
  }

  /** A sum of non-negative terms is non-negative. */
  lemma {:induction false} SumOfNonNegative<T>(s: seq<T>, f: T -> Money)
    requires forall i :: 0 <= i < |s| ==> f(s[i]) >= 0.0
    ensures SumOf(s, f) >= 0.0
    decreases |s|
  {
    if s != [] {
      SumOfNonNegative(s[1..], f);
    }
  }

  /** Summing termwise-larger values gives a larger sum. */
  lemma {:induction false} SumOfMonotone<T>(s: seq<T>, f: T -> Money, g: T -> Money)
    requires forall i :: 0 <= i < |s| ==> f(s[i]) <= g(s[i])
    ensures SumOf(s, f) <= SumOf(s, g)
    decreases |s|
  {
    if s != [] {
      SumOfMonotone(s[1..], f, g);
    }
  }
}
