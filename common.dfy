/**
 * Shared vocabulary of the tempo detector and the drum machine: an optional
 * value (JavaScript's `null`/`undefined`), the three drum voices, bounded
 * histories (`push` followed by at most one `shift`), sums and means, and
 * JavaScript's `Math.round`.
 */
module Common {

  datatype Option<+T> = None | Some(value: T)

  /** The three percussion voices every pattern is keyed by. */
  datatype Voice = Kick | Snare | Hihat

  /**
   * Appends `x` to a history and, when that takes it over `cap` entries,
   * evicts the oldest one: the history keeps its newest entries.
   */
  function PushBounded<T>(s: seq<T>, x: T, cap: nat): (r: seq<T>)
    ensures |s| <= cap ==> |r| <= cap
    ensures |s| < cap ==> r == s + [x]
    ensures cap > 0 && |s| <= cap ==> |r| > 0 && r[|r| - 1] == x
  {
    var t := s + [x];
    if |t| > cap then t[1..] else t
  }

  /** Entry `i` of a bounded push is the entry of the old history plus `x` that the evictions moved to position `i`. */
  lemma PushBoundedEntry<T>(s: seq<T>, x: T, cap: nat, i: nat)
    requires |s| <= cap && i < |PushBounded(s, x, cap)|
    ensures |s| + 1 - |PushBounded(s, x, cap)| + i <= |s|
    ensures PushBounded(s, x, cap)[i] == (s + [x])[|s| + 1 - |PushBounded(s, x, cap)| + i]
  {
  }

  function Sum(s: seq<int>): int
  {
    if s == [] then 0 else s[0] + Sum(s[1..])
  }

  function Mean(s: seq<int>): real
    requires |s| > 0
  {
    Sum(s) as real / |s| as real
  }

  function SumReal(s: seq<real>): real
  {
    if s == [] then 0.0 else s[0] + SumReal(s[1..])
  }

  function MeanReal(s: seq<real>): real
    requires |s| > 0
  {
    SumReal(s) / |s| as real
  }

  /** JavaScript's `Math.round`: the nearest integer, halves rounded upwards. */
  function Round(x: real): (r: int)
    ensures x - 0.5 < r as real <= x + 0.5
  {
    (x + 0.5).Floor
  }

  /** Rounding never leaves an interval whose ends are integers. */
  lemma RoundWithin(x: real, lo: int, hi: int)
    requires lo as real <= x <= hi as real
    ensures lo <= Round(x) <= hi
  {
  }

  /**
   * `Math.round(60000 / average)` for a list of millisecond intervals whose
   * sum is positive: the tempo in beats per minute of their mean interval.
   */
  function BpmFromMeanInterval(intervals: seq<int>): (bpm: int)
    requires |intervals| > 0 && Sum(intervals) > 0
    ensures bpm >= 0
  {
    Round(60000.0 / Mean(intervals))
  }

  /** A sum of entries that are all at least `lo` is at least `lo` times the count. */
  lemma {:induction false} SumAtLeast(s: seq<int>, lo: int)
    requires forall i :: 0 <= i < |s| ==> s[i] >= lo
    ensures Sum(s) >= lo * |s|
  {
    if s != [] {
      SumAtLeast(s[1..], lo);
    }
  }

  /** A sum of entries that are all at most `hi` is at most `hi` times the count. */
  lemma {:induction false} SumAtMost(s: seq<int>, hi: int)
    requires forall i :: 0 <= i < |s| ==> s[i] <= hi
    ensures Sum(s) <= hi * |s|
  {
    if s != [] {
      SumAtMost(s[1..], hi);
    }
  }

  lemma {:induction false} SumRealAtLeast(s: seq<real>, lo: real)
    requires forall i :: 0 <= i < |s| ==> s[i] >= lo
    ensures SumReal(s) >= lo * |s| as real
  {
    if s != [] {
      SumRealAtLeast(s[1..], lo);
    }
  }

  /** The mean of a list whose entries all equal `c` is `c`. */
  lemma ConstantMean(s: seq<int>, c: int)
    requires |s| > 0
    requires forall i :: 0 <= i < |s| ==> s[i] == c
    ensures Mean(s) == c as real
  {
    SumAtLeast(s, c);
    SumAtMost(s, c);
    assert Sum(s) as real == c as real * |s| as real;
  }
}
