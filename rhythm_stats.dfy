/**
 * The statistics of `AudioProcessor` (audioProcessor.js) that do not touch
 * its state: the interquartile-range trimming of beat intervals and the
 * tempo of the trimmed mean, and the exponentially weighted average of the
 * tempo history, in which each entry counts 1.5 times as much as the one
 * before it.
 */
module RhythmStats {
  import opened Common

  const MinIntervals: nat := 4   // fewer intervals: no estimate

  predicate Sorted(s: seq<int>)
  {
    forall i, j :: 0 <= i <= j < |s| ==> s[i] <= s[j]
  }

  /** Inserts `x` into a sorted list before the first larger-or-equal entry. */
  function Insert(x: int, s: seq<int>): (r: seq<int>)
    requires Sorted(s)
    ensures Sorted(r)
    ensures multiset(r) == multiset(s) + multiset{x}
    ensures r[0] == if s == [] || x <= s[0] then x else s[0]
  {
    if s == [] then [x]
    else if x <= s[0] then
      ConsSorted(x, s);
      [x] + s
    else
      var tail := s[1..];
      SortedTail(s);
      var rest := Insert(x, tail);
      ConsSorted(s[0], rest);
      assert multiset([s[0]] + rest) == multiset(s) + multiset{x} by {
        assert s == [s[0]] + tail;
      }
      [s[0]] + rest
  }

  /** The tail of a sorted list is sorted and starts no lower than its head. */
  lemma SortedTail(s: seq<int>)
    requires Sorted(s) && s != []
    ensures Sorted(s[1..])
    ensures |s| > 1 ==> s[0] <= s[1..][0]
  {
    var t := s[1..];
    forall i, j | 0 <= i <= j < |t| ensures t[i] <= t[j] {
      assert t[i] == s[i + 1] && t[j] == s[j + 1];
    }
  }

  /** An entry no larger than the head of a sorted list can go in front of it. */
  lemma ConsSorted(a: int, t: seq<int>)
    requires Sorted(t)
    requires t != [] ==> a <= t[0]
    ensures Sorted([a] + t)
  {
    var r := [a] + t;
    forall i, j | 0 <= i <= j < |r| ensures r[i] <= r[j] {
      if 0 < i {
        assert r[i] == t[i - 1] && r[j] == t[j - 1];
      } else if 0 < j {
        assert r[j] == t[j - 1] && t[0] <= t[j - 1];
      }
    }
  }

  /** The ascending numeric sort of a list: the same entries, in order. */
  function SortAscending(s: seq<int>): (r: seq<int>)
    ensures Sorted(r)
    ensures multiset(r) == multiset(s)
    ensures |r| == |s|
  {
    if s == [] then []
    else
      assert s == [s[0]] + s[1..];
      Insert(s[0], SortAscending(s[1..]))
  }

  /** `Math.floor(n * 0.25)`, the position of the lower quartile in a sorted list of `n`. */
  function LowerQuartileIndex(n: nat): (i: nat)
    requires n > 0
    ensures i < n
  {
    (n as real * 0.25).Floor
  }

  /** `Math.floor(n * 0.75)`, the position of the upper quartile. */
  function UpperQuartileIndex(n: nat): (i: nat)
    requires n > 0
    ensures LowerQuartileIndex(n) <= i < n
  {
    (n as real * 0.75).Floor
  }

  /** The fences of the interquartile-range test. */
  datatype Fences = Fences(lower: real, upper: real)

  /** The fences 1.5 interquartile ranges below the lower and above the upper quartile of a sorted list. */
  function IqrFences(sorted: seq<int>): (f: Fences)
    requires |sorted| > 0 && Sorted(sorted)
    ensures f.lower <= sorted[LowerQuartileIndex(|sorted|)] as real
    ensures sorted[UpperQuartileIndex(|sorted|)] as real <= f.upper
    ensures sorted[LowerQuartileIndex(|sorted|)] <= sorted[UpperQuartileIndex(|sorted|)]
  {
    var q1 := sorted[LowerQuartileIndex(|sorted|)];
    var q3 := sorted[UpperQuartileIndex(|sorted|)];
    var iqr := q3 - q1;
    Fences(q1 as real - 1.5 * iqr as real, q3 as real + 1.5 * iqr as real)
  }

  /**
   * The entries of `s` inside the closed range `[lo, hi]`, in order: each
   * such value as often as it occurs in `s`, every other value never.
   */
  function KeepBetween(s: seq<int>, lo: real, hi: real): (r: seq<int>)
    ensures |r| <= |s|
    ensures forall x :: x in r <==> x in s && lo <= x as real <= hi
    ensures forall x :: multiset(r)[x] == if lo <= x as real <= hi then multiset(s)[x] else 0
  {
    if s == [] then []
    else
      assert s == [s[0]] + s[1..];
      assert multiset(s) == multiset{s[0]} + multiset(s[1..]);
      var rest := KeepBetween(s[1..], lo, hi);
      if lo <= s[0] as real <= hi then
        assert multiset([s[0]] + rest) == multiset{s[0]} + multiset(rest);
        [s[0]] + rest
      else rest
  }

  /** The sorted intervals that lie within the interquartile fences. */
  function IqrFiltered(intervals: seq<int>): (r: seq<int>)
    requires |intervals| > 0
    ensures forall x :: x in r <==>
      x in intervals && IqrFences(SortAscending(intervals)).lower <= x as real <= IqrFences(SortAscending(intervals)).upper
    ensures forall x :: multiset(r)[x] ==
                          if IqrFences(SortAscending(intervals)).lower <= x as real <= IqrFences(SortAscending(intervals)).upper
                          then multiset(intervals)[x] else 0
  {
    var sorted := SortAscending(intervals);
    assert forall x :: x in sorted <==> x in intervals by {
      forall x ensures x in sorted <==> x in intervals {
        assert x in sorted <==> x in multiset(sorted);
        assert x in intervals <==> x in multiset(intervals);
      }
    }
    var f := IqrFences(sorted);
    KeepBetween(sorted, f.lower, f.upper)
  }

  /**
   * Both quartiles lie within their own fences, so trimming never empties
   * the list and the mean of what is left is defined.
   */
  lemma IqrKeepsQuartiles(intervals: seq<int>)
    requires |intervals| > 0
    ensures var sorted := SortAscending(intervals);
      sorted[LowerQuartileIndex(|sorted|)] in IqrFiltered(intervals) &&
      sorted[UpperQuartileIndex(|sorted|)] in IqrFiltered(intervals)
    ensures |IqrFiltered(intervals)| > 0
  {
    var sorted := SortAscending(intervals);
    var q1 := sorted[LowerQuartileIndex(|sorted|)];
    var q3 := sorted[UpperQuartileIndex(|sorted|)];
    var f := IqrFences(sorted);
    assert f.lower <= q1 as real <= q3 as real <= f.upper;
    assert q1 in intervals by {
      assert q1 in multiset(sorted);
    }
    assert q3 in intervals by {
      assert q3 in multiset(sorted);
    }
    assert q1 in IqrFiltered(intervals);
  }

  /**
   * The tempo `round(60000 / mean)` of the trimmed intervals, or None with
   * fewer than four intervals. A mean of zero or less gives an infinite or
   * negative tempo in JavaScript, which no range check admits; it is None
   * here.
   */
  function IqrBpm(intervals: seq<int>): (r: Option<int>)
    ensures |intervals| < MinIntervals ==> r == None
    ensures r.Some? ==> r.value >= 0
  {
    if |intervals| < MinIntervals then None
    else
      IqrKeepsQuartiles(intervals);
      var kept := IqrFiltered(intervals);
      if Sum(kept) <= 0 then None else Some(BpmFromMeanInterval(kept))
  }

  /** With intervals all longer than `gap` ms the trimmed mean is too, so the tempo is defined and at most `60000 / gap`. */
  lemma IqrBpmOfLongIntervals(intervals: seq<int>, gap: nat)
    requires |intervals| >= MinIntervals && gap > 0
    requires forall i :: 0 <= i < |intervals| ==> intervals[i] > gap
    ensures IqrBpm(intervals).Some?
    ensures IqrBpm(intervals).value as real <= 60000.0 / gap as real + 0.5
  {
    IqrKeepsQuartiles(intervals);
    var kept := IqrFiltered(intervals);
    FilteredAbove(intervals, gap);
    SumAtLeast(kept, 1);
    SumAtLeast(kept, gap);
    MeanAtLeast(kept, gap);
    DivideByMore(60000.0, gap as real, Mean(kept));
    assert IqrBpm(intervals) == Some(BpmFromMeanInterval(kept));
  }

  /**
   * The trimmed tempo is `round(60000 / mean)` of the kept intervals, and
   * when every kept interval lies in `[lo, hi]` ms so does their mean, so the
   * tempo lies between the rounded tempi of `hi` and of `lo`.
   */
  lemma IqrBpmBetween(intervals: seq<int>, lo: int, hi: int)
    requires |intervals| >= MinIntervals && 0 < lo
    requires forall i :: 0 <= i < |IqrFiltered(intervals)| ==> lo <= IqrFiltered(intervals)[i] <= hi
    ensures |IqrFiltered(intervals)| > 0
    ensures lo as real <= Mean(IqrFiltered(intervals)) <= hi as real
    ensures IqrBpm(intervals) == Some(Round(60000.0 / Mean(IqrFiltered(intervals))))
    ensures Round(60000.0 / hi as real) <= IqrBpm(intervals).value <= Round(60000.0 / lo as real)
  {
    var kept := IqrFiltered(intervals);
    assert |kept| > 0 by {
      IqrKeepsQuartiles(intervals);
    }
    MeanBetween(kept, lo, hi);
    var m := Mean(kept);
    assert Sum(kept) > 0 by {
      SumAtLeast(kept, 1);
    }
    assert IqrBpm(intervals) == Some(Round(60000.0 / m));
    assert Round(60000.0 / hi as real) <= Round(60000.0 / m) <= Round(60000.0 / lo as real) by {
      DivideByMore(60000.0, lo as real, m);
      DivideByMore(60000.0, m, hi as real);
      RoundMonotone(60000.0 / hi as real, 60000.0 / m);
      RoundMonotone(60000.0 / m, 60000.0 / lo as real);
    }
  }

  /** The mean of entries that all lie in `[lo, hi]` lies there too. */
  lemma MeanBetween(s: seq<int>, lo: int, hi: int)
    requires |s| > 0
    requires forall i :: 0 <= i < |s| ==> lo <= s[i] <= hi
    ensures lo as real <= Mean(s) <= hi as real
  {
    var k := |s|;
    SumAtLeast(s, lo);
    SumAtMost(s, hi);
    CastProduct(lo, k);
    CastProduct(hi, k);
    QuotientBetween(Sum(s) as real, k as real, lo as real, hi as real);
  }

  lemma CastProduct(a: int, b: int)
    ensures (a * b) as real == a as real * b as real
  {
  }

  lemma QuotientBetween(a: real, n: real, lo: real, hi: real)
    requires n > 0.0 && lo * n <= a <= hi * n
    ensures lo <= a / n <= hi
  {
    assert (a - lo * n) / n == a / n - lo;
    assert (hi * n - a) / n == hi - a / n;
  }

  lemma RoundMonotone(x: real, y: real)
    requires x <= y
    ensures Round(x) <= Round(y)
  {
  }

  /** Trimming only removes intervals, so a lower bound on all of them survives it. */
  lemma FilteredAbove(intervals: seq<int>, gap: int)
    requires |intervals| > 0
    requires forall i :: 0 <= i < |intervals| ==> intervals[i] > gap
    ensures forall i :: 0 <= i < |IqrFiltered(intervals)| ==> IqrFiltered(intervals)[i] > gap
  {
    var kept := IqrFiltered(intervals);
    forall i | 0 <= i < |kept| ensures kept[i] > gap {
      assert kept[i] in kept;
      var j :| 0 <= j < |intervals| && intervals[j] == kept[i];
    }
  }

  lemma MeanAtLeast(s: seq<int>, lo: nat)
    requires |s| > 0 && Sum(s) >= lo * |s|
    ensures Mean(s) >= lo as real
  {
    assert Sum(s) as real >= (lo * |s|) as real;
    assert (lo * |s|) as real == lo as real * |s| as real;
  }

  lemma DivideByMore(a: real, x: real, y: real)
    requires a >= 0.0 && 0.0 < x <= y
    ensures a / y <= a / x
  {
    assert a / y * y == a;
    assert a / x * x == a;
    assert a / y * x <= a / y * y;
  }

  /**
   * When the lower and upper quartiles agree at `g`, the fences collapse
   * onto `g` and every other interval is discarded, however far off.
   */
  lemma QuartilesAgreeKeepOnly(intervals: seq<int>, g: int)
    requires |intervals| >= MinIntervals
    requires SortAscending(intervals)[LowerQuartileIndex(|intervals|)] == g
    requires SortAscending(intervals)[UpperQuartileIndex(|intervals|)] == g
    ensures forall x :: x in IqrFiltered(intervals) <==> x in intervals && x == g
    ensures |IqrFiltered(intervals)| > 0
  {
    var sorted := SortAscending(intervals);
    var n := |sorted|;
    assert n == |intervals|;
    var f := IqrFences(sorted);
    assert f.lower == g as real && f.upper == g as real by {
      assert sorted[LowerQuartileIndex(n)] == g && sorted[UpperQuartileIndex(n)] == g;
    }
    IqrKeepsQuartiles(intervals);
  }

  /** ... and the tempo is then `round(60000 / g)`. */
  lemma QuartilesAgree(intervals: seq<int>, g: int)
    requires |intervals| >= MinIntervals && g > 0
    requires SortAscending(intervals)[LowerQuartileIndex(|intervals|)] == g
    requires SortAscending(intervals)[UpperQuartileIndex(|intervals|)] == g
    ensures IqrBpm(intervals) == Some(Round(60000.0 / g as real))
  {
    QuartilesAgreeKeepOnly(intervals, g);
    var kept := IqrFiltered(intervals);
    assert forall i :: 0 <= i < |kept| ==> kept[i] == g by {
      forall i | 0 <= i < |kept| ensures kept[i] == g {
        assert kept[i] in kept;
      }
    }
    assert Sum(kept) > 0 by {
      SumAtLeast(kept, 1);
    }
    assert Mean(kept) == g as real by {
      ConstantMean(kept, g);
    }
    assert BpmFromMeanInterval(kept) == Round(60000.0 / g as real);
  }

  /** Sorting a list whose entries are all `g` leaves it as it is. */
  lemma SortConstant(s: seq<int>, g: int)
    requires forall i :: 0 <= i < |s| ==> s[i] == g
    ensures SortAscending(s) == s
  {
    var sorted := SortAscending(s);
    forall i | 0 <= i < |sorted| ensures sorted[i] == g {
      assert sorted[i] in multiset(s);
    }
  }

  /** A steady pulse: every interval `g` survives and the tempo is `round(60000 / g)`. */
  lemma SteadyIntervals(intervals: seq<int>, g: int)
    requires |intervals| >= MinIntervals && g > 0
    requires forall i :: 0 <= i < |intervals| ==> intervals[i] == g
    ensures IqrFiltered(intervals) == SortAscending(intervals) == intervals
    ensures IqrBpm(intervals) == Some(Round(60000.0 / g as real))
  {
    SortConstant(intervals, g);
    var n := |intervals|;
    assert 0 <= LowerQuartileIndex(n) <= UpperQuartileIndex(n) < n;
    assert SortAscending(intervals)[LowerQuartileIndex(n)] == g;
    assert SortAscending(intervals)[UpperQuartileIndex(n)] == g;
    QuartilesAgree(intervals, g);
    ConstantFences(intervals, g);
    KeepAllBetween(intervals, g as real, g as real);
  }

  /** A constant list's fences both sit at its value, and the filter is the trimming of the list itself. */
  lemma ConstantFences(s: seq<int>, g: int)
    requires |s| > 0
    requires forall i :: 0 <= i < |s| ==> s[i] == g
    requires SortAscending(s) == s
    ensures IqrFiltered(s) == KeepBetween(s, g as real, g as real)
  {
    var n := |s|;
    assert s[LowerQuartileIndex(n)] == g && s[UpperQuartileIndex(n)] == g;
    var f := IqrFences(s);
    assert f == Fences(g as real, g as real);
    assert IqrFiltered(s) == KeepBetween(s, f.lower, f.upper);
  }

  lemma {:induction false} KeepAllBetween(s: seq<int>, lo: real, hi: real)
    requires forall i :: 0 <= i < |s| ==> lo <= s[i] as real <= hi
    ensures KeepBetween(s, lo, hi) == s
  {
    if s != [] {
      KeepAllBetween(s[1..], lo, hi);
    }
  }

  /** `b` raised to the natural power `e`. */
  function Pow(b: real, e: nat): (r: real)
    ensures b > 0.0 ==> r > 0.0
  {
    if e == 0 then 1.0 else b * Pow(b, e - 1)
  }

  /**
   * The weight of entry `i` of a history of `n`: `1.5^(i - n + 1)`, which is
   * `(2/3)^(n - 1 - i)`.
   */
  function Weight(n: nat, i: nat): (w: real)
    requires i < n
    ensures w > 0.0
  {
    Pow(2.0 / 3.0, n - 1 - i)
  }

  /** The newest entry has weight 1. */
  lemma NewestWeightIsOne(n: nat)
    requires n > 0
    ensures Weight(n, n - 1) == 1.0
  {
  }

  /** Each entry weighs 1/1.5 of the entry after it. */
  lemma WeightRatio(n: nat, i: nat)
    requires i + 1 < n
    ensures Weight(n, i) * 1.5 == Weight(n, i + 1)
  {
    assert n - 1 - i == (n - 1 - (i + 1)) + 1;
  }

  function Weights(n: nat): (w: seq<real>)
    ensures |w| == n
    ensures forall i :: 0 <= i < n ==> w[i] == Weight(n, i)
  {
    seq(n, i requires 0 <= i < n => Weight(n, i))
  }

  /** The sum of `h[i] * w[i]`. */
  function Dot(h: seq<int>, w: seq<real>): real
    requires |h| == |w|
  {
    if h == [] then 0.0 else h[0] as real * w[0] + Dot(h[1..], w[1..])
  }

  /**
   * With non-negative weights and entries in `[lo, hi]`, the weighted sum
   * lies between `lo` and `hi` times the total weight.
   */
  lemma {:induction false} DotBounds(h: seq<int>, w: seq<real>, lo: int, hi: int)
    requires |h| == |w|
    requires forall i :: 0 <= i < |w| ==> w[i] >= 0.0
    requires forall i :: 0 <= i < |h| ==> lo <= h[i] <= hi
    ensures lo as real * SumReal(w) <= Dot(h, w) <= hi as real * SumReal(w)
  {
    if h != [] {
      DotBounds(h[1..], w[1..], lo, hi);
      assert (h[0] - lo) as real * w[0] >= 0.0;
      assert (hi - h[0]) as real * w[0] >= 0.0;
    }
  }

  lemma {:induction false} SumRealPositive(w: seq<real>)
    requires |w| > 0
    requires forall i :: 0 <= i < |w| ==> w[i] > 0.0
    ensures SumReal(w) > 0.0
  {
    if |w| > 1 {
      SumRealPositive(w[1..]);
    }
  }

  /**
   * The rounded exponentially weighted mean of a tempo history, newest
   * entry last; None for an empty history.
   */
  function WeightedAverageBpm(h: seq<int>): (r: Option<int>)
    ensures r.None? <==> h == []
  {
    if h == [] then None
    else
      var w := Weights(|h|);
      SumRealPositive(w);
      Some(Round(Dot(h, w) / SumReal(w)))
  }

  /** The weighted average never leaves the range of the history. */
  lemma WeightedAverageWithin(h: seq<int>, lo: int, hi: int)
    requires |h| > 0
    requires forall i :: 0 <= i < |h| ==> lo <= h[i] <= hi
    ensures lo <= WeightedAverageBpm(h).value <= hi
  {
    var w := Weights(|h|);
    SumRealPositive(w);
    DotBounds(h, w, lo, hi);
    var total := SumReal(w);
    var avg := Dot(h, w) / total;
    QuotientWithin(Dot(h, w), total, lo as real, hi as real);
    RoundWithin(avg, lo, hi);
  }

  lemma QuotientWithin(a: real, total: real, lo: real, hi: real)
    requires total > 0.0 && lo * total <= a <= hi * total
    ensures lo <= a / total <= hi
  {
    var q := a / total;
    assert q * total == a;
    assert (q - lo) * total >= 0.0;
    assert (hi - q) * total >= 0.0;
  }

  /** A history of one repeated tempo averages to that tempo. */
  lemma SteadyHistory(h: seq<int>, bpm: int)
    requires |h| > 0
    requires forall i :: 0 <= i < |h| ==> h[i] == bpm
    ensures WeightedAverageBpm(h) == Some(bpm)
  {
    WeightedAverageWithin(h, bpm, bpm);
  }
}
