/**
 * The rhythm statistics of `AudioProcessor` (audioProcessor.js): the
 * consistency tracker that decides when a detected tempo has settled on the
 * fixed one, the interquartile-range tempo over the recorded beat intervals
 * with its weighted tempo history, and the bookkeeping of one tick of the
 * analysis loop, with the frame's energy and the clock passed in.
 */
module AudioProcessorModel {
  import opened Common
  import opened RhythmStats

  const EnergyThreshold: real := 0.15     // a peak must exceed 0.15 times the mean energy
  const SilenceThreshold: int := 5000     // ms without a peak before the statistics reset
  const AmplitudeThreshold: real := 0.05  // quieter frames are ignored
  const MaxConsistentBars: nat := 4       // readings in the window, and settled readings needed
  const ToleranceRange: int := 10         // ±10 BPM counts as consistent
  const MaxBpmHistory: nat := 16
  const MaxIntervals: nat := 16
  const EnergyHistoryLength: nat := 10
  const MinPeakGap: int := 200            // ms between two peaks at least
  const MinGated: int := 40
  const MaxGated: int := 240

  /** JavaScript truthiness of the fixed tempo: neither `null` nor 0. */
  predicate Truthy(fixed: Option<int>)
  {
    fixed.Some? && fixed.value != 0
  }

  predicate WithinTolerance(bpm: int, fixed: int)
  {
    -ToleranceRange <= bpm - fixed <= ToleranceRange
  }

  /** Every reading of the window lies within tolerance of `fixed`. */
  predicate AllWithin(window: seq<int>, fixed: int)
  {
    forall i :: 0 <= i < |window| ==> WithinTolerance(window[i], fixed)
  }

  predicate AllAbove(s: seq<int>, lo: int)
  {
    forall i :: 0 <= i < |s| ==> s[i] > lo
  }

  predicate AllIn(s: seq<int>, lo: int, hi: int)
  {
    forall i :: 0 <= i < |s| ==> lo <= s[i] <= hi
  }

  predicate AllLoud(s: seq<real>)
  {
    forall i :: 0 <= i < |s| ==> s[i] >= AmplitudeThreshold
  }

  function Min(a: nat, b: nat): nat
  {
    if a <= b then a else b
  }

  /** The tracker's window and run of consistent calls: a run of `bars` calls leaves at least `min(bars, 4)` readings, all within tolerance. */
  predicate TrackerInvariant(window: seq<int>, bars: nat, fixed: int)
  {
    |window| <= MaxConsistentBars &&
    |window| >= Min(bars, MaxConsistentBars) &&
    (bars > 0 ==> AllWithin(window, fixed))
  }

  /**
   * One consistency check keeps the tracker invariant, and a run of four
   * means a full window within tolerance that ends with the new reading.
   */
  lemma WindowStep(window: seq<int>, bars: nat, detected: int, fixed: int)
    requires |window| <= MaxConsistentBars && |window| >= Min(bars, MaxConsistentBars)
    ensures var w := PushBounded(window, detected, MaxConsistentBars);
      var b: nat := if AllWithin(w, fixed) then bars + 1 else 0;
      TrackerInvariant(w, b, fixed) &&
      (b >= MaxConsistentBars ==> |w| == MaxConsistentBars && WithinTolerance(detected, fixed))
  {
    var w := PushBounded(window, detected, MaxConsistentBars);
    assert |w| == Min(|window| + 1, MaxConsistentBars);
    if AllWithin(w, fixed) {
      assert WithinTolerance(w[|w| - 1], fixed);
    }
  }

  class AudioProcessor {
    var isListening: bool
    var lastBeatTime: int
    var beatIntervals: seq<int>
    /** Time of the last peak; `None` is the `undefined` of a field nobody assigned. */
    var lastPeakTime: Option<int>
    /** The consistency tracker. */
    var fixedBpm: Option<int>
    var detectedBpms: seq<int>
    var consistentBars: nat
    var bpmHistory: seq<int>
    /** The analysis loop's own state, created afresh each time listening starts. */
    var peakDetected: bool
    var lastPeakEnergy: real
    var energyHistory: seq<real>

    ghost predicate Valid()
      reads this
    {
      (consistentBars > 0 ==> Truthy(fixedBpm)) &&
      TrackerInvariant(detectedBpms, consistentBars, if Truthy(fixedBpm) then fixedBpm.value else 0) &&
      |beatIntervals| <= MaxIntervals && AllAbove(beatIntervals, MinPeakGap) &&
      (lastBeatTime > 0 ==> lastPeakTime == Some(lastBeatTime)) &&
      |bpmHistory| <= MaxBpmHistory && AllIn(bpmHistory, MinGated, MaxGated) &&
      |energyHistory| <= EnergyHistoryLength && AllLoud(energyHistory) &&
      lastPeakEnergy >= 0.0
    }

    /** A processor whose last peak time starts at 0, like its last beat time. */
    constructor()
      ensures Valid()
      ensures !isListening && lastBeatTime == 0 && lastPeakTime == Some(0)
      ensures beatIntervals == [] && bpmHistory == []
      ensures fixedBpm == None && detectedBpms == [] && consistentBars == 0
    {
      isListening := false;
      lastBeatTime := 0;
      beatIntervals := [];
      lastPeakTime := Some(0);
      fixedBpm := None;
      detectedBpms := [];
      consistentBars := 0;
      bpmHistory := [];
      peakDetected := false;
      lastPeakEnergy := 0.0;
      energyHistory := [];
    }

    /** The processor as audioProcessor.js constructs it: the last peak time is never assigned. */
    constructor Uninitialised()
      ensures Valid()
      ensures !isListening && lastBeatTime == 0 && lastPeakTime == None
      ensures beatIntervals == [] && bpmHistory == []
      ensures fixedBpm == None && detectedBpms == [] && consistentBars == 0
    {
      isListening := false;
      lastBeatTime := 0;
      beatIntervals := [];
      lastPeakTime := None;
      fixedBpm := None;
      detectedBpms := [];
      consistentBars := 0;
      bpmHistory := [];
      peakDetected := false;
      lastPeakEnergy := 0.0;
      energyHistory := [];
    }

    /**
     * Starts listening when the microphone is `granted`: a new analysis loop
     * begins with no peak seen, peak energy 0 and an empty energy history.
     * The tempo statistics carry over. A refusal changes nothing.
     */
    method StartListening(granted: bool) returns (ok: bool)
      requires Valid()
      modifies this
      ensures Valid()
      ensures ok == granted
      ensures ok ==> isListening && !peakDetected && lastPeakEnergy == 0.0 && energyHistory == []
      ensures !ok ==> (isListening == old(isListening) && peakDetected == old(peakDetected) &&
                       lastPeakEnergy == old(lastPeakEnergy) && energyHistory == old(energyHistory))
      ensures lastBeatTime == old(lastBeatTime) && lastPeakTime == old(lastPeakTime)
      ensures beatIntervals == old(beatIntervals) && bpmHistory == old(bpmHistory)
      ensures fixedBpm == old(fixedBpm) && detectedBpms == old(detectedBpms) && consistentBars == old(consistentBars)
    {
      if granted {
        isListening := true;
        peakDetected := false;
        lastPeakEnergy := 0.0;
        energyHistory := [];
      }
      ok := granted;
    }

    method StopListening()
      requires Valid()
      modifies this
      ensures Valid()
      ensures !isListening
      ensures lastBeatTime == old(lastBeatTime) && lastPeakTime == old(lastPeakTime)
      ensures beatIntervals == old(beatIntervals) && bpmHistory == old(bpmHistory)
      ensures fixedBpm == old(fixedBpm) && detectedBpms == old(detectedBpms) && consistentBars == old(consistentBars)
      ensures peakDetected == old(peakDetected) && lastPeakEnergy == old(lastPeakEnergy) && energyHistory == old(energyHistory)
    {
      isListening := false;
    }

    /**
     * Feeds one detected tempo to the consistency tracker. Without a fixed
     * tempo nothing happens and the answer is false. Otherwise the reading
     * joins a window of the last four; the run of consistent calls grows by
     * one when the whole window is within ±10 of the fixed tempo and drops
     * to 0 otherwise. The answer is true once the run reaches four, and then
     * the window holds four readings all within tolerance.
     */
    method CheckConsistency(detected: int) returns (stable: bool)
      requires Valid()
      modifies this
      ensures Valid()
      ensures !Truthy(old(fixedBpm)) ==> !stable && detectedBpms == old(detectedBpms) && consistentBars == old(consistentBars)
      ensures Truthy(old(fixedBpm)) ==>
        detectedBpms == PushBounded(old(detectedBpms), detected, MaxConsistentBars) &&
        consistentBars == if AllWithin(detectedBpms, old(fixedBpm).value) then old(consistentBars) + 1 else 0
      ensures stable <==> Truthy(fixedBpm) && consistentBars >= MaxConsistentBars
      ensures stable ==> |detectedBpms| == MaxConsistentBars && AllWithin(detectedBpms, fixedBpm.value)
      ensures stable ==> WithinTolerance(detected, fixedBpm.value)
      ensures Truthy(old(fixedBpm)) && !WithinTolerance(detected, old(fixedBpm).value) ==> !stable && consistentBars == 0
      ensures fixedBpm == old(fixedBpm)
      ensures isListening == old(isListening) && lastBeatTime == old(lastBeatTime) && lastPeakTime == old(lastPeakTime)
      ensures beatIntervals == old(beatIntervals) && bpmHistory == old(bpmHistory)
      ensures peakDetected == old(peakDetected) && lastPeakEnergy == old(lastPeakEnergy) && energyHistory == old(energyHistory)
    {
      if !Truthy(fixedBpm) {
        return false;
      }
      var fixed := fixedBpm.value;
      var window := PushBounded(detectedBpms, detected, MaxConsistentBars);
      var bars: nat := if AllWithin(window, fixed) then consistentBars + 1 else 0;
      WindowStep(detectedBpms, consistentBars, detected, fixed);
      detectedBpms := window;
      consistentBars := bars;
      stable := bars >= MaxConsistentBars;
    }

    /** Sets the tempo readings are compared with and restarts the tracker. */
    method SetFixedBpm(bpm: Option<int>)
      requires Valid()
      modifies this
      ensures Valid()
      ensures fixedBpm == bpm && detectedBpms == [] && consistentBars == 0
      ensures isListening == old(isListening) && lastBeatTime == old(lastBeatTime) && lastPeakTime == old(lastPeakTime)
      ensures beatIntervals == old(beatIntervals) && bpmHistory == old(bpmHistory)
      ensures peakDetected == old(peakDetected) && lastPeakEnergy == old(lastPeakEnergy) && energyHistory == old(energyHistory)
    {
      fixedBpm := bpm;
      detectedBpms := [];
      consistentBars := 0;
    }

    /**
     * The tempo of the recorded intervals. With fewer than four there is
     * none. Otherwise the trimmed-mean tempo is defined (every recorded
     * interval exceeds 200 ms); when it lies in [40, 240] it joins the
     * bounded tempo history and the weighted average of that history, also
     * in [40, 240], is returned; otherwise nothing changes and there is none.
     */
    method CalculateBpm() returns (r: Option<int>)
      requires Valid()
      modifies this
      ensures Valid()
      ensures |beatIntervals| >= MinIntervals ==> IqrBpm(beatIntervals).Some?
      ensures var raw := IqrBpm(beatIntervals);
        if raw.Some? && MinGated <= raw.value <= MaxGated then
          bpmHistory == PushBounded(old(bpmHistory), raw.value, MaxBpmHistory) &&
          r == WeightedAverageBpm(bpmHistory)
        else
          bpmHistory == old(bpmHistory) && r == None
      ensures r.Some? ==> MinGated <= r.value <= MaxGated
      ensures isListening == old(isListening) && lastBeatTime == old(lastBeatTime) && lastPeakTime == old(lastPeakTime)
      ensures beatIntervals == old(beatIntervals)
      ensures fixedBpm == old(fixedBpm) && detectedBpms == old(detectedBpms) && consistentBars == old(consistentBars)
      ensures peakDetected == old(peakDetected) && lastPeakEnergy == old(lastPeakEnergy) && energyHistory == old(energyHistory)
    {
      if |beatIntervals| < MinIntervals {
        return None;
      }
      IqrBpmOfLongIntervals(beatIntervals, MinPeakGap as nat);
      var bpm := IqrBpm(beatIntervals).value;
      if MinGated <= bpm <= MaxGated {
        bpmHistory := PushBounded(bpmHistory, bpm, MaxBpmHistory);
        WeightedAverageWithin(bpmHistory, MinGated, MaxGated);
        r := WeightedAverageBpm(bpmHistory);
      } else {
        r := None;
      }
    }

    /**
     * One tick of the analysis loop with frame energy `energy` (the RMS of
     * the filtered signal, so not negative) at time `now` in ms. A frame
     * while not listening or quieter than the amplitude threshold changes
     * nothing. Otherwise the energy joins the last ten, and the frame is a
     * beat when it exceeds 0.15 times their mean, exceeds the loudest peak of
     * this session, and comes more than 200 ms after the last peak. A beat
     * records its interval from the previous beat (when there was one) and
     * becomes the last beat and peak. Before the first peak of a session,
     * more than 5 s since the last peak clears the tempo statistics.
     */
    method Analyze(energy: real, now: int) returns (beat: bool)
      requires Valid() && energy >= 0.0
      modifies this
      ensures Valid()
      ensures !old(isListening) || energy < AmplitudeThreshold ==>
        !beat && lastBeatTime == old(lastBeatTime) && lastPeakTime == old(lastPeakTime) &&
        beatIntervals == old(beatIntervals) && bpmHistory == old(bpmHistory) &&
        peakDetected == old(peakDetected) && lastPeakEnergy == old(lastPeakEnergy) &&
        energyHistory == old(energyHistory)
      ensures old(isListening) && energy >= AmplitudeThreshold ==>
        energyHistory == PushBounded(old(energyHistory), energy, EnergyHistoryLength)
      ensures beat <==>
        old(isListening) && energy >= AmplitudeThreshold &&
        energy > MeanReal(energyHistory) * EnergyThreshold &&
        energy > old(lastPeakEnergy) &&
        old(lastPeakTime).Some? && now - old(lastPeakTime).value > MinPeakGap
      ensures beat ==>
        lastBeatTime == now && lastPeakTime == Some(now) && lastPeakEnergy == energy && peakDetected &&
        beatIntervals == (if old(lastBeatTime) > 0 then PushBounded(old(beatIntervals), now - old(lastBeatTime), MaxIntervals)
                          else old(beatIntervals)) &&
        bpmHistory == old(bpmHistory)
      ensures !beat && old(isListening) && energy >= AmplitudeThreshold ==>
        lastPeakTime == old(lastPeakTime) && peakDetected == old(peakDetected) && lastPeakEnergy == old(lastPeakEnergy) &&
        if !old(peakDetected) && old(lastPeakTime).Some? && now - old(lastPeakTime).value > SilenceThreshold then
          beatIntervals == [] && lastBeatTime == 0 && bpmHistory == []
        else
          beatIntervals == old(beatIntervals) && lastBeatTime == old(lastBeatTime) && bpmHistory == old(bpmHistory)
      ensures old(peakDetected) ==> peakDetected && bpmHistory == old(bpmHistory)
      ensures lastPeakEnergy >= old(lastPeakEnergy)
      ensures isListening == old(isListening)
      ensures fixedBpm == old(fixedBpm) && detectedBpms == old(detectedBpms) && consistentBars == old(consistentBars)
    {
      if !isListening || energy < AmplitudeThreshold {
        return false;
      }
      PushKeepsLoud(energyHistory, energy);
      energyHistory := PushBounded(energyHistory, energy, EnergyHistoryLength);
      var avgEnergy := MeanReal(energyHistory);
      beat := energy > avgEnergy * EnergyThreshold && energy > lastPeakEnergy &&
        lastPeakTime.Some? && now - lastPeakTime.value > MinPeakGap;
      if beat {
        RecordBeat(energy, now);
      }
      CheckSilence(now);
    }

    /**
     * The bookkeeping of a beat at `now` with energy `energy`: the interval
     * from the previous beat is recorded when there was one, and the beat
     * becomes the last beat and the last, loudest peak.
     */
    method RecordBeat(energy: real, now: int)
      requires Valid() && energy >= 0.0
      requires lastPeakTime.Some? && now - lastPeakTime.value > MinPeakGap
      modifies this
      ensures Valid()
      ensures lastBeatTime == now && lastPeakTime == Some(now) && lastPeakEnergy == energy && peakDetected
      ensures beatIntervals == if old(lastBeatTime) > 0 then PushBounded(old(beatIntervals), now - old(lastBeatTime), MaxIntervals)
                               else old(beatIntervals)
      ensures isListening == old(isListening) && bpmHistory == old(bpmHistory) && energyHistory == old(energyHistory)
      ensures fixedBpm == old(fixedBpm) && detectedBpms == old(detectedBpms) && consistentBars == old(consistentBars)
    {
      if lastBeatTime > 0 {
        PushKeepsAbove(beatIntervals, now - lastBeatTime, MaxIntervals, MinPeakGap);
        beatIntervals := PushBounded(beatIntervals, now - lastBeatTime, MaxIntervals);
      }
      lastBeatTime := now;
      lastPeakTime := Some(now);
      lastPeakEnergy := energy;
      peakDetected := true;
    }

    /**
     * Before the first peak of a session, more than 5 s since the last peak
     * clears the recorded intervals, the last beat time and the tempo
     * history; otherwise nothing changes.
     */
    method CheckSilence(now: int)
      requires Valid()
      modifies this
      ensures Valid()
      ensures if !old(peakDetected) && lastPeakTime.Some? && now - lastPeakTime.value > SilenceThreshold then
          beatIntervals == [] && lastBeatTime == 0 && bpmHistory == []
        else
          beatIntervals == old(beatIntervals) && lastBeatTime == old(lastBeatTime) && bpmHistory == old(bpmHistory)
      ensures isListening == old(isListening) && lastPeakTime == old(lastPeakTime) && energyHistory == old(energyHistory)
      ensures peakDetected == old(peakDetected) && lastPeakEnergy == old(lastPeakEnergy)
      ensures fixedBpm == old(fixedBpm) && detectedBpms == old(detectedBpms) && consistentBars == old(consistentBars)
    {
      if !peakDetected && lastPeakTime.Some? && now - lastPeakTime.value > SilenceThreshold {
        beatIntervals := [];
        lastBeatTime := 0;
        bpmHistory := [];
      }
    }
  }

  /** A bounded push of an entry above `lo` onto entries above `lo` keeps them all above `lo`. */
  lemma PushKeepsAbove(s: seq<int>, x: int, cap: nat, lo: int)
    requires AllAbove(s, lo) && x > lo && |s| <= cap
    ensures AllAbove(PushBounded(s, x, cap), lo)
  {
    var r := PushBounded(s, x, cap);
    forall i | 0 <= i < |r| ensures r[i] > lo {
      PushBoundedEntry(s, x, cap, i);
    }
  }

  /** A loud frame joins a history of loud frames: it stays loud. */
  lemma PushKeepsLoud(s: seq<real>, x: real)
    requires AllLoud(s) && x >= AmplitudeThreshold && |s| <= EnergyHistoryLength
    ensures AllLoud(PushBounded(s, x, EnergyHistoryLength))
  {
    var r := PushBounded(s, x, EnergyHistoryLength);
    forall i | 0 <= i < |r| ensures r[i] >= AmplitudeThreshold {
      PushBoundedEntry(s, x, EnergyHistoryLength, i);
    }
  }

  /**
   * With the processor as audioProcessor.js builds it, the time since the
   * last peak is `NaN`, so no frame of any session is ever a beat, no
   * interval is recorded and no tempo is ever produced.
   */
  method UninitialisedNeverDetects(energies: seq<real>, times: seq<int>) returns (anyBeat: bool, bpm: Option<int>)
    requires |energies| == |times|
    requires forall i :: 0 <= i < |energies| ==> energies[i] >= 0.0
    ensures !anyBeat && bpm == None
  {
    var p := new AudioProcessor.Uninitialised();
    var ok := p.StartListening(true);
    anyBeat := false;
    var i := 0;
    while i < |energies|
      invariant 0 <= i <= |energies|
      invariant p.Valid() && p.lastPeakTime == None && p.beatIntervals == []
      invariant !anyBeat
    {
      var b := p.Analyze(energies[i], times[i]);
      anyBeat := anyBeat || b;
      i := i + 1;
    }
    bpm := p.CalculateBpm();
  }

  /**
   * With the last peak time starting at 0, the first loud frame of a
   * session more than 200 ms into the clock is a beat.
   */
  method FirstLoudFrameIsABeat(energy: real, now: int) returns (beat: bool)
    requires energy >= AmplitudeThreshold && now > MinPeakGap
    ensures beat
  {
    var p := new AudioProcessor();
    var ok := p.StartListening(true);
    beat := p.Analyze(energy, now);
    assert p.energyHistory == [energy];
    assert MeanReal([energy]) == energy by {
      assert [energy][1..] == [];
      assert SumReal([energy]) == energy + SumReal([]);
    }
  }

  /**
   * A beat must be louder than every earlier beat of its session, so frames
   * of one constant loudness give at most one beat per session.
   */
  method ConstantLoudnessBeatsOnce(energy: real, times: seq<int>) returns (beats: nat)
    requires energy >= 0.0
    ensures beats <= 1
  {
    var p := new AudioProcessor();
    var ok := p.StartListening(true);
    beats := 0;
    var i := 0;
    while i < |times|
      invariant 0 <= i <= |times|
      invariant p.Valid()
      invariant beats <= 1
      invariant beats == 1 ==> p.lastPeakEnergy == energy
    {
      var b := p.Analyze(energy, times[i]);
      if b {
        beats := beats + 1;
      }
      i := i + 1;
    }
  }

  /**
   * After the fixed tempo is set, a run of readings all within ±10 of it
   * answers false for the first three and true from the fourth on.
   */
  method SteadyReadingsSettle(fixed: int, readings: seq<int>) returns (answers: seq<bool>)
    requires fixed != 0
    requires forall i :: 0 <= i < |readings| ==> WithinTolerance(readings[i], fixed)
    ensures |answers| == |readings|
    ensures forall i :: 0 <= i < |answers| ==> (answers[i] <==> i >= MaxConsistentBars - 1)
  {
    var p := new AudioProcessor();
    p.SetFixedBpm(Some(fixed));
    answers := [];
    var i := 0;
    while i < |readings|
      invariant 0 <= i <= |readings|
      invariant p.Valid() && p.fixedBpm == Some(fixed) && p.consistentBars == i
      invariant AllWithin(p.detectedBpms, fixed)
      invariant |answers| == i
      invariant forall k :: 0 <= k < i ==> (answers[k] <==> k >= MaxConsistentBars - 1)
    {
      var settled := p.CheckConsistency(readings[i]);
      answers := answers + [settled];
      i := i + 1;
    }
  }

  /**
   * One reading outside ±10 stays in the window of the last four for the
   * next three checks, so after it a run of readings within tolerance
   * answers false six times and true from the seventh on.
   */
  method OutlierDelaysSettling(fixed: int, outlier: int, readings: seq<int>) returns (first: bool, answers: seq<bool>)
    requires fixed != 0 && !WithinTolerance(outlier, fixed)
    requires forall i :: 0 <= i < |readings| ==> WithinTolerance(readings[i], fixed)
    ensures !first
    ensures |answers| == |readings|
    ensures forall i :: 0 <= i < |answers| ==> (answers[i] <==> i >= 2 * MaxConsistentBars - 2)
  {
    var p := new AudioProcessor();
    p.SetFixedBpm(Some(fixed));
    first := p.CheckConsistency(outlier);
    assert p.detectedBpms == [outlier];
    answers := [];
    var i := 0;
    while i < |readings|
      invariant 0 <= i <= |readings|
      invariant p.Valid() && p.fixedBpm == Some(fixed)
      invariant p.consistentBars == if i < MaxConsistentBars then 0 else i - (MaxConsistentBars - 1)
      invariant i < MaxConsistentBars ==> p.detectedBpms == [outlier] + readings[..i]
      invariant i >= MaxConsistentBars ==> AllWithin(p.detectedBpms, fixed) && |p.detectedBpms| == MaxConsistentBars
      invariant |answers| == i
      invariant forall k :: 0 <= k < i ==> (answers[k] <==> k >= 2 * MaxConsistentBars - 2)
    {
      var window := p.detectedBpms;
      var settled := p.CheckConsistency(readings[i]);
      if i < MaxConsistentBars - 1 {
        assert p.detectedBpms == [outlier] + readings[..i + 1] by {
          assert readings[..i + 1] == readings[..i] + [readings[i]];
        }
        assert !AllWithin(p.detectedBpms, fixed) by {
          assert p.detectedBpms[0] == outlier;
        }
      } else {
        assert AllWithin(p.detectedBpms, fixed) by {
          forall j | 0 <= j < |p.detectedBpms| ensures WithinTolerance(p.detectedBpms[j], fixed) {
            PushBoundedEntry(window, readings[i], MaxConsistentBars, j);
          }
        }
      }
      answers := answers + [settled];
      i := i + 1;
    }
  }
}
