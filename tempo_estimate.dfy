/**
 * The tempo arithmetic of `BPMDetector` (app.js): consecutive intervals of a
 * list of millisecond timestamps, the mean-based outlier filter, rounding to
 * beats per minute, octave correction and the publication window, both for
 * detected beats (`calculateBPM`) and for tapped beats (`calculateTapBPM`).
 */
module TempoEstimate {
  import opened Common

  const BeatCapacity: nat := 8       // beatTimes keeps the last 8 beats
  const MinBeatTimes: nat := 4       // fewer beats than this: no estimate
  const MinInliers: nat := 2         // fewer surviving intervals: no estimate
  const TapCapacity: nat := 4        // tapTimes keeps the last 4 taps
  const TapResetGap: int := 2000     // a longer pause starts a new tap session
  const MinPublished: int := 40
  const MaxPublished: int := 220

  /** The consecutive differences `t[i] - t[i-1]` of a list of timestamps. */
  function Intervals(t: seq<int>): (r: seq<int>)
    ensures |r| == if |t| == 0 then 0 else |t| - 1
    ensures forall i :: 0 <= i < |r| ==> r[i] == t[i + 1] - t[i]
    decreases |t|
  {
    if |t| < 2 then [] else [t[1] - t[0]] + Intervals(t[1..])
  }

  /** The intervals of a list of timestamps add up to its span. */
  lemma {:induction false} IntervalsTelescope(t: seq<int>)
    requires |t| >= 1
    ensures Sum(Intervals(t)) == t[|t| - 1] - t[0]
  {
    if |t| >= 2 {
      IntervalsTelescope(t[1..]);
      assert Intervals(t)[1..] == Intervals(t[1..]);
    }
  }

  function Abs(x: real): real
  {
    if x < 0.0 then -x else x
  }

  /** An interval survives the filter when it differs from the mean by strictly less than half the mean. */
  predicate IsInlier(interval: int, avg: real)
  {
    Abs(interval as real - avg) < avg * 0.5
  }

  lemma InlierIsPositive(interval: int, avg: real)
    requires IsInlier(interval, avg)
    ensures avg > 0.0 && interval > 0
  {
  }

  /** The intervals that survive the outlier filter, in their original order. */
  function Inliers(s: seq<int>, avg: real): (r: seq<int>)
    ensures |r| <= |s|
    ensures forall x :: x in r <==> x in s && IsInlier(x, avg)
  {
    if s == [] then []
    else
      assert s == [s[0]] + s[1..];
      if IsInlier(s[0], avg) then [s[0]] + Inliers(s[1..], avg)
      else Inliers(s[1..], avg)
  }

  /** When every element survives, the filter returns its input unchanged. */
  lemma {:induction false} InliersKeepAll(s: seq<int>, avg: real)
    requires forall i :: 0 <= i < |s| ==> IsInlier(s[i], avg)
    ensures Inliers(s, avg) == s
  {
    if s != [] {
      InliersKeepAll(s[1..], avg);
    }
  }

  /** Surviving intervals are positive, so their mean can be divided by. */
  lemma InliersSumPositive(s: seq<int>, avg: real)
    requires |Inliers(s, avg)| > 0
    ensures Sum(Inliers(s, avg)) >= |Inliers(s, avg)| > 0
  {
    var kept := Inliers(s, avg);
    forall i | 0 <= i < |kept| ensures kept[i] >= 1 {
      assert kept[i] in kept;
      InlierIsPositive(kept[i], avg);
    }
    SumAtLeast(kept, 1);
  }

  /**
   * Octave correction: a tempo below 60 is doubled, then one above 200 is
   * halved with rounding.
   */
  function OctaveCorrect(bpm: int): (r: int)
    ensures bpm < 60 ==> r == 2 * bpm
    ensures 60 <= bpm <= 200 ==> r == bpm
    ensures bpm > 200 ==> r == (bpm + 1) / 2
  {
    var doubled := if bpm < 60 then bpm * 2 else bpm;
    if doubled > 200 then Round(doubled as real / 2.0) else doubled
  }

  /** Octave correction lands in the publication window exactly for raw tempi in [20, 440]. */
  lemma OctaveCorrectInWindow(bpm: int)
    ensures MinPublished <= OctaveCorrect(bpm) <= MaxPublished <==> 20 <= bpm <= 440
  {
  }

  /**
   * The tempo `calculateBPM` publishes for a beat history, or None when it
   * leaves `fixedBPM` as it was.
   */
  function DetectedBpm(beatTimes: seq<int>): (r: Option<int>)
    ensures |beatTimes| < MinBeatTimes ==> r == None
    ensures r.Some? ==> MinPublished <= r.value <= MaxPublished
    ensures r.Some? ==>
      |beatTimes| >= MinBeatTimes &&
      |Inliers(Intervals(beatTimes), Mean(Intervals(beatTimes)))| >= MinInliers
  {
    if |beatTimes| < MinBeatTimes then None
    else
      var intervals := Intervals(beatTimes);
      var kept := Inliers(intervals, Mean(intervals));
      if |kept| < MinInliers then None
      else
        InliersSumPositive(intervals, Mean(intervals));
        var bpm := OctaveCorrect(BpmFromMeanInterval(kept));
        if MinPublished <= bpm <= MaxPublished then Some(bpm) else None
  }

  /** Once enough beats and inliers are present, the estimate is the range-checked octave-corrected tempo of the inliers. */
  lemma DetectedBpmPublishes(beatTimes: seq<int>)
    requires |beatTimes| >= MinBeatTimes
    requires |Inliers(Intervals(beatTimes), Mean(Intervals(beatTimes)))| >= MinInliers
    ensures Sum(Inliers(Intervals(beatTimes), Mean(Intervals(beatTimes)))) > 0
    ensures DetectedBpm(beatTimes) ==
      var bpm := OctaveCorrect(BpmFromMeanInterval(Inliers(Intervals(beatTimes), Mean(Intervals(beatTimes)))));
      if MinPublished <= bpm <= MaxPublished then Some(bpm) else None
  {
    InliersSumPositive(Intervals(beatTimes), Mean(Intervals(beatTimes)));
  }

  /**
   * A steady pulse with gap `gap` ms: every interval survives and the
   * published tempo is the octave-corrected `round(60000 / gap)`.
   */
  lemma SteadyBeats(t: seq<int>, gap: int)
    requires |t| >= MinBeatTimes && gap > 0
    requires forall i :: 0 <= i < |t| - 1 ==> t[i + 1] - t[i] == gap
    ensures DetectedBpm(t) ==
      var bpm := OctaveCorrect(Round(60000.0 / gap as real));
      if MinPublished <= bpm <= MaxPublished then Some(bpm) else None
  {
    var intervals := Intervals(t);
    assert forall i :: 0 <= i < |intervals| ==> intervals[i] == gap by {
      forall i | 0 <= i < |intervals| ensures intervals[i] == gap {
        assert intervals[i] == t[i + 1] - t[i];
      }
    }
    assert Mean(intervals) == gap as real by {
      ConstantMean(intervals, gap);
    }
    assert Inliers(intervals, Mean(intervals)) == intervals by {
      InliersKeepAll(intervals, gap as real);
    }
  }

  /**
   * Beats 500 ms apart with one doubled gap: the long interval is rejected
   * (the mean is 800 ms) and the four regular ones give 120 beats per minute.
   */
  lemma OneDoubledGapIsFiltered()
    ensures DetectedBpm([0, 500, 1000, 1500, 3500, 4000]) == Some(120)
  {
    var t := [0, 500, 1000, 1500, 3500, 4000];
    var kept := [500, 500, 500, 500];
    assert BpmFromMeanInterval(kept) == 120 by {
      ConstantMean(kept, 500);
      assert 60000.0 / 500.0 == 120.0;
    }
    assert Inliers(Intervals(t), Mean(Intervals(t))) == kept by {
      DoubledGapIntervals();
      DoubledGapInliers();
    }
    assert OctaveCorrect(120) == 120;
    DetectedBpmPublishes(t);
  }

  /** The beats of the doubled-gap example are 500, 500, 500, 2000 and 500 ms apart, 800 ms on average. */
  lemma DoubledGapIntervals()
    ensures Intervals([0, 500, 1000, 1500, 3500, 4000]) == [500, 500, 500, 2000, 500]
    ensures Mean([500, 500, 500, 2000, 500]) == 800.0
  {
    var t := [0, 500, 1000, 1500, 3500, 4000];
    assert Intervals(t) == [500, 500, 500, 2000, 500];
    IntervalsTelescope(t);
  }

  /** Against a mean of 800 ms, the four 500 ms intervals pass and the 2000 ms one does not. */
  lemma DoubledGapInliers()
    ensures Inliers([500, 500, 500, 2000, 500], 800.0) == [500, 500, 500, 500]
  {
    var regular, rest := [500, 500, 500], [2000, 500];
    InliersKeepAll(regular, 800.0);
    LongGapRejected();
    assert [500, 500, 500, 2000, 500] == regular + rest;
    InliersConcat(regular, rest, 800.0);
  }

  /** The 2000 ms interval is dropped against a mean of 800 ms; the 500 ms one after it is kept. */
  lemma LongGapRejected()
    ensures Inliers([2000, 500], 800.0) == [500]
  {
    assert !IsInlier(2000, 800.0);
    InliersCons(2000, [500], 800.0);
    InliersKeepAll([500], 800.0);
  }

  /** The filter works entry by entry, so it distributes over concatenation. */
  lemma {:induction false} InliersConcat(a: seq<int>, b: seq<int>, avg: real)
    ensures Inliers(a + b, avg) == Inliers(a, avg) + Inliers(b, avg)
  {
    if a != [] {
      var h, t := a[0], a[1..];
      var head := if IsInlier(h, avg) then [h] else [];
      calc {
        Inliers(a + b, avg);
        { assert a + b == [h] + (t + b); }
        Inliers([h] + (t + b), avg);
        { InliersCons(h, t + b, avg); }
        head + Inliers(t + b, avg);
        { InliersConcat(t, b, avg); }
        head + (Inliers(t, avg) + Inliers(b, avg));
        (head + Inliers(t, avg)) + Inliers(b, avg);
        { InliersCons(h, t, avg); assert a == [h] + t; }
        Inliers(a, avg) + Inliers(b, avg);
      }
    } else {
      assert a + b == b;
    }
  }

  /** The filter decides the first interval and then carries on with the rest. */
  lemma InliersCons(x: int, s: seq<int>, avg: real)
    ensures Inliers([x] + s, avg) == (if IsInlier(x, avg) then [x] else []) + Inliers(s, avg)
  {
    assert ([x] + s)[1..] == s;
  }

  /**
   * The tempo `calculateTapBPM` publishes for a tap history, or None when it
   * leaves `fixedBPM` as it was. A non-positive mean gap gives `Infinity` or
   * a negative tempo in JavaScript; neither passes the range check.
   */
  function TapBpm(taps: seq<int>): (r: Option<int>)
    ensures |taps| < 2 ==> r == None
    ensures r.Some? ==> MinPublished <= r.value <= MaxPublished
  {
    if |taps| < 2 then None
    else
      var intervals := Intervals(taps);
      if Sum(intervals) <= 0 then None
      else
        var bpm := BpmFromMeanInterval(intervals);
        if MinPublished <= bpm <= MaxPublished then Some(bpm) else None
  }

  /**
   * The mean of the tap gaps is the span over the number of gaps, so the tap
   * tempo is `round(60000 * (k - 1) / (last - first))` for k taps.
   */
  lemma TapBpmClosedForm(taps: seq<int>)
    requires |taps| >= 2 && taps[|taps| - 1] > taps[0]
    ensures TapBpm(taps) ==
      var bpm := Round(60000.0 * (|taps| - 1) as real / (taps[|taps| - 1] - taps[0]) as real);
      if MinPublished <= bpm <= MaxPublished then Some(bpm) else None
  {
    var intervals := Intervals(taps);
    IntervalsTelescope(taps);
    var span := (taps[|taps| - 1] - taps[0]) as real;
    var k := (|taps| - 1) as real;
    assert Mean(intervals) == span / k by {
      assert Sum(intervals) as real == span && |intervals| as real == k;
    }
    DivideByQuotient(60000.0, span, k);
  }

  lemma DivideByQuotient(a: real, span: real, k: real)
    requires span > 0.0 && k > 0.0
    ensures span / k > 0.0
    ensures a / (span / k) == a * k / span
  {
    var q := span / k;
    assert q * k == span;
    assert (a / q) * q == a;
    assert (a * k / span) * span == a * k;
    assert (a / q) * span == (a / q) * q * k;
  }

  /** Four taps half a second apart give 120 beats per minute. */
  lemma FourTapsAtHalfSecond()
    ensures TapBpm([0, 500, 1000, 1500]) == Some(120)
  {
    TapBpmClosedForm([0, 500, 1000, 1500]);
    assert 60000.0 * 3.0 / 1500.0 == 120.0;
  }
}
