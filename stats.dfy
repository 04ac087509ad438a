/** The arithmetic the daily forecast summary and the trend averages are built
    from: sums, means, extremes and the most common value of a list. */
module Stats {

  /** Python's `sum` over a list of numbers. */
  function Sum(s: seq<real>): real
  {
    if s == [] then 0.0 else s[0] + Sum(s[1..])
  }

  /** `sum(s) / len(s)`. */
  function Mean(s: seq<real>): real
    requires |s| > 0
  {
    Sum(s) / (|s| as real)
  }

  /** Python's `min`. */
  function Minimum(s: seq<real>): (m: real)
    requires |s| > 0
    ensures m in s
    ensures forall i :: 0 <= i < |s| ==> m <= s[i]
  {
    if |s| == 1 then s[0]
    else
      var rest := Minimum(s[1..]);
      if s[0] <= rest then s[0] else rest
  }

  /** Python's `max`. */
  function Maximum(s: seq<real>): (m: real)
    requires |s| > 0
    ensures m in s
    ensures forall i :: 0 <= i < |s| ==> s[i] <= m
  {
    if |s| == 1 then s[0]
    else
      var rest := Maximum(s[1..]);
      if s[0] >= rest then s[0] else rest
  }

  /** A sum of n values that all lie in [lo, hi] lies in [n * lo, n * hi]. */
  lemma {:induction false} SumWithin(s: seq<real>, lo: real, hi: real)
    requires forall i :: 0 <= i < |s| ==> lo <= s[i] <= hi
    ensures (|s| as real) * lo <= Sum(s) <= (|s| as real) * hi
  {
    if s != [] {
      SumWithin(s[1..], lo, hi);
      assert (|s| as real) * lo == lo + (|s[1..]| as real) * lo;
      assert (|s| as real) * hi == hi + (|s[1..]| as real) * hi;
    }
  }

  /** The mean of values that all lie in [lo, hi] lies in [lo, hi]. */
  lemma MeanWithin(s: seq<real>, lo: real, hi: real)
    requires |s| > 0
    requires forall i :: 0 <= i < |s| ==> lo <= s[i] <= hi
    ensures lo <= Mean(s) <= hi
  {
    SumWithin(s, lo, hi);
    var n := |s| as real;
    assert Mean(s) * n == Sum(s);
  }

  /** The mean never falls outside the smallest and the largest value. */
  lemma MeanBetweenExtremes(s: seq<real>)
    requires |s| > 0
    ensures Minimum(s) <= Mean(s) <= Maximum(s)
  {
    MeanWithin(s, Minimum(s), Maximum(s));
  }

  /** How often `x` occurs in `s` (what `collections.Counter` records). */
  function Count<T(==)>(s: seq<T>, x: T): nat
  {
    multiset(s)[x]
  }

  /** Scans positions i.. of `s`, keeping in `best` the first position whose
      value has the highest count seen so far; a later value replaces it only
      when strictly more frequent. */
  function ModeIndexFrom<T(==)>(s: seq<T>, i: nat, best: nat): (k: nat)
    requires best < i <= |s|
    requires forall j :: 0 <= j < i ==> Count(s, s[j]) <= Count(s, s[best])
    requires forall j :: 0 <= j < best ==> Count(s, s[j]) < Count(s, s[best])
    ensures k < |s|
    ensures forall j :: 0 <= j < |s| ==> Count(s, s[j]) <= Count(s, s[k])
    ensures forall j :: 0 <= j < k ==> Count(s, s[j]) < Count(s, s[k])
    decreases |s| - i
  {
    if i == |s| then best
    else if Count(s, s[i]) > Count(s, s[best]) then ModeIndexFrom(s, i + 1, i)
    else ModeIndexFrom(s, i + 1, best)
  }

  /** `Counter(s).most_common(1)[0][0]`: the most frequent value, and among
      equally frequent values the one that occurs first (Counter keeps
      first-insertion order and `max` keeps the first of equal keys): at its
      first occurrence every earlier value is strictly less frequent. */
  function Mode<T(==)>(s: seq<T>): (m: T)
    requires |s| > 0
    ensures forall j :: 0 <= j < |s| ==> Count(s, s[j]) <= Count(s, m)
    ensures exists k :: 0 <= k < |s| && s[k] == m && forall j :: 0 <= j < k ==> Count(s, s[j]) < Count(s, m)
  {
    s[ModeIndexFrom(s, 1, 0)]
  }
}
