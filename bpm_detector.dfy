/**
 * The `BPMDetector` controller of app.js, with its DOM, microphone and
 * synthesiser removed: the beat and tap histories it keeps, the tempo it
 * publishes in `fixedBPM`, the editable drum grid, the selected style, and
 * the look-ahead scheduler that turns the tempo into drum triggers. Clock
 * readings (`Date.now()` in milliseconds, the audio clock in seconds) are
 * passed in.
 */
module BpmDetectorApp {
  import opened Common
  import opened TempoEstimate
  import opened DrumPatterns

  /** The scheduler keeps triggers queued this many seconds ahead of the audio clock. */
  const Lookahead: real := 0.5

  /** `fixedBPM` after a calculation that may or may not publish a tempo. */
  function Published(estimate: Option<int>, previous: Option<int>): (r: Option<int>)
    ensures estimate.Some? ==> r == estimate
    ensures estimate.None? ==> r == previous
  {
    if estimate.Some? then estimate else previous
  }

  /**
   * The tap history after a tap at `now`: a pause of more than two seconds
   * since the previous tap starts a new session, the tap is appended, and
   * only the last four taps are kept.
   */
  function TapHistory(taps: seq<int>, lastTap: int, now: int): (r: seq<int>)
    ensures |taps| <= TapCapacity ==> 0 < |r| <= TapCapacity && r[|r| - 1] == now
    ensures now - lastTap > TapResetGap ==> r == [now]
    ensures now - lastTap <= TapResetGap && |taps| < TapCapacity ==> r == taps + [now]
    ensures now - lastTap <= TapResetGap && |taps| == TapCapacity ==> r == taps[1..] + [now]
  {
    PushBounded(if now - lastTap > TapResetGap then [] else taps, now, TapCapacity)
  }

  /** The consecutive differences of a list of timestamps, computed by a loop. */
  method ComputeIntervals(t: seq<int>) returns (intervals: seq<int>)
    ensures intervals == Intervals(t)
  {
    intervals := [];
    var i := 1;
    while i < |t|
      invariant 1 <= i <= if |t| == 0 then 1 else |t|
      invariant |intervals| == i - 1
      invariant forall k :: 0 <= k < i - 1 ==> intervals[k] == t[k + 1] - t[k]
    {
      intervals := intervals + [t[i] - t[i - 1]];
      i := i + 1;
    }
    assert |intervals| == |Intervals(t)|;
    forall k | 0 <= k < |intervals|
      ensures intervals[k] == Intervals(t)[k]
    {
      assert k < i - 1;
      assert intervals[k] == t[k + 1] - t[k];
      assert Intervals(t)[k] == t[k + 1] - t[k];
    }
  }

  /**
   * The computation of `calculateBPM`, step by step: intervals, outlier
   * filter, rounding of the mean, octave correction and the range check.
   */
  method EstimateTempo(beatTimes: seq<int>) returns (r: Option<int>)
    ensures r == DetectedBpm(beatTimes)
  {
    if |beatTimes| < MinBeatTimes {
      return None;
    }
    var intervals := ComputeIntervals(beatTimes);
    var avgInterval := Mean(intervals);
    var filtered := Inliers(intervals, avgInterval);
    if |filtered| < MinInliers {
      return None;
    }
    InliersSumPositive(intervals, avgInterval);
    var raw := BpmFromMeanInterval(filtered);
    var bpm := raw;
    if bpm < 60 {
      bpm := bpm * 2;
    }
    if bpm > 200 {
      bpm := Round(bpm as real / 2.0);
    }
    assert bpm == OctaveCorrect(raw);
    DetectedBpmPublishes(beatTimes);
    r := if MinPublished <= bpm <= MaxPublished then Some(bpm) else None;
  }

  /**
   * While the clock is short of the horizon, the whole beats left before it
   * are not negative, and advancing the clock one beat uses up exactly one.
   */
  lemma BeatsLeftDecrease(horizon: real, time: real, beat: real)
    requires time < horizon && beat > 0.0
    ensures ((horizon - time) / beat).Floor >= 0
    ensures ((horizon - (time + beat)) / beat).Floor == ((horizon - time) / beat).Floor - 1
  {
    var x := horizon - time;
    assert horizon - (time + beat) == x - beat;
    assert (x - beat) / beat == x / beat - beat / beat;
    assert beat / beat == 1.0;
  }

  /**
   * The scheduler's loop on its own: from clock `start` and counter `first`,
   * `play` queues beats one beat length apart until the clock reaches
   * `horizon`. Returns the triggers, the number of beats and where the
   * clock stops.
   */
  method RunScheduler(play: Slot -> seq<Trigger>, beat: real, start: real, first: nat, horizon: real)
    returns (triggers: seq<Trigger>, n: nat, time: real)
    requires beat > 0.0
    ensures time >= horizon
    ensures time == Advanced(start, beat, n)
    ensures n > 0 ==> Advanced(start, beat, n - 1) < horizon
    ensures start >= horizon ==> n == 0 && triggers == []
    ensures triggers == Render(play, Slots(start, beat, first, n))
  {
    time := start;
    var count := first;
    triggers := [];
    n := 0;
    while time < horizon
      invariant time == Advanced(start, beat, n)
      invariant n > 0 ==> Advanced(start, beat, n - 1) < horizon
      invariant count == first + n
      invariant triggers == Render(play, Slots(start, beat, first, n))
      decreases ((horizon - time) / beat).Floor
    {
      BeatsLeftDecrease(horizon, time, beat);
      RenderSlotsStep(play, start, beat, first, n);
      triggers := triggers + play(Slot(time, count));
      time := time + beat;
      count := count + 1;
      n := n + 1;
    }
  }

  class BpmDetector {
    var isListening: bool
    /** The published tempo; `None` stands for the `null` stored when listening starts. */
    var fixedBPM: Option<int>
    var beatTimes: seq<int>
    var tapTimes: seq<int>
    var lastTapTime: int
    var currentPattern: Style
    var customPattern: Grid
    var isPlayingRhythm: bool
    /** Audio-clock time of the next beat to schedule. */
    var lastScheduledTime: real
    /** Beats scheduled since playback started. */
    var beatCount: nat

    ghost predicate Valid()
      reads this
    {
      (fixedBPM.Some? ==> MinPublished <= fixedBPM.value <= MaxPublished) &&
      |beatTimes| <= BeatCapacity &&
      |tapTimes| <= TapCapacity &&
      customPattern.WellFormed()
    }

    /**
     * A fresh controller: 120 BPM, the custom style, an empty beat history,
     * and the default grid when the grid buttons are on the page (the
     * default is written only through the buttons it finds).
     */
    constructor(gridButtonsPresent: bool)
      ensures Valid()
      ensures fixedBPM == Some(120) && !isListening && !isPlayingRhythm
      ensures beatTimes == [] && tapTimes == [] && lastTapTime == 0
      ensures currentPattern == Custom
      ensures customPattern == if gridButtonsPresent then DefaultGrid else EmptyGrid
    {
      isListening := false;
      fixedBPM := Some(120);
      beatTimes := [];
      tapTimes := [];
      lastTapTime := 0;
      currentPattern := Custom;
      customPattern := if gridButtonsPresent then DefaultGrid else EmptyGrid;
      isPlayingRhythm := false;
      lastScheduledTime := 0.0;
      beatCount := 0;
    }

    /** Records a detected beat at `now` (ms) and recalculates the tempo. */
    method BeatDetected(now: int)
      requires Valid()
      modifies this
      ensures Valid()
      ensures beatTimes == PushBounded(old(beatTimes), now, BeatCapacity)
      ensures 0 < |beatTimes| <= BeatCapacity && beatTimes[|beatTimes| - 1] == now
      ensures fixedBPM == Published(DetectedBpm(beatTimes), old(fixedBPM))
      ensures tapTimes == old(tapTimes) && lastTapTime == old(lastTapTime)
      ensures isListening == old(isListening) && isPlayingRhythm == old(isPlayingRhythm)
      ensures currentPattern == old(currentPattern) && customPattern == old(customPattern)
      ensures lastScheduledTime == old(lastScheduledTime) && beatCount == old(beatCount)
    {
      beatTimes := beatTimes + [now];
      if |beatTimes| > BeatCapacity {
        beatTimes := beatTimes[1..];
      }
      CalculateBpm();
    }

    /**
     * Publishes the tempo of the beat history when there are enough beats,
     * enough intervals survive the outlier filter, and the octave-corrected
     * tempo lies in [40, 220]; otherwise `fixedBPM` keeps its value.
     */
    method CalculateBpm()
      requires Valid()
      modifies this
      ensures Valid()
      ensures fixedBPM == Published(DetectedBpm(beatTimes), old(fixedBPM))
      ensures beatTimes == old(beatTimes) && tapTimes == old(tapTimes) && lastTapTime == old(lastTapTime)
      ensures isListening == old(isListening) && isPlayingRhythm == old(isPlayingRhythm)
      ensures currentPattern == old(currentPattern) && customPattern == old(customPattern)
      ensures lastScheduledTime == old(lastScheduledTime) && beatCount == old(beatCount)
    {
      var estimate := EstimateTempo(beatTimes);
      if estimate.Some? {
        fixedBPM := estimate;
      }
    }

    /** A tap of the tap-tempo button at `now` (ms). */
    method HandleTap(now: int)
      requires Valid()
      modifies this
      ensures Valid()
      ensures tapTimes == TapHistory(old(tapTimes), old(lastTapTime), now)
      ensures lastTapTime == now
      ensures fixedBPM == Published(TapBpm(tapTimes), old(fixedBPM))
      ensures beatTimes == old(beatTimes)
      ensures isListening == old(isListening) && isPlayingRhythm == old(isPlayingRhythm)
      ensures currentPattern == old(currentPattern) && customPattern == old(customPattern)
      ensures lastScheduledTime == old(lastScheduledTime) && beatCount == old(beatCount)
    {
      if now - lastTapTime > TapResetGap {
        tapTimes := [];
      }
      tapTimes := tapTimes + [now];
      lastTapTime := now;
      if |tapTimes| > TapCapacity {
        tapTimes := tapTimes[1..];
      }
      CalculateTapBpm();
    }

    /**
     * Publishes the tempo of the mean tap gap when there are at least two
     * taps and it lies in [40, 220].
     */
    method CalculateTapBpm()
      requires Valid()
      modifies this
      ensures Valid()
      ensures fixedBPM == Published(TapBpm(tapTimes), old(fixedBPM))
      ensures beatTimes == old(beatTimes) && tapTimes == old(tapTimes) && lastTapTime == old(lastTapTime)
      ensures isListening == old(isListening) && isPlayingRhythm == old(isPlayingRhythm)
      ensures currentPattern == old(currentPattern) && customPattern == old(customPattern)
      ensures lastScheduledTime == old(lastScheduledTime) && beatCount == old(beatCount)
    {
      if |tapTimes| < 2 {
        return;
      }
      var intervals := ComputeIntervals(tapTimes);
      // A mean gap of zero gives an infinite tempo and a negative one a
      // negative tempo; neither passes the range check.
      if Sum(intervals) <= 0 {
        return;
      }
      var averageInterval := Mean(intervals);
      var bpm := Round(60000.0 / averageInterval);
      if MinPublished <= bpm <= MaxPublished {
        fixedBPM := Some(bpm);
      }
    }

    /** A click on grid button `step` of voice `v`: that one step flips. */
    method ToggleStep(v: Voice, step: nat)
      requires Valid() && step < Steps
      modifies this
      ensures Valid()
      ensures customPattern == old(customPattern).Toggled(v, step)
      ensures customPattern.Active(v, step) == !old(customPattern).Active(v, step)
      ensures forall w, i :: (w != v || i != step) ==> customPattern.Active(w, i) == old(customPattern).Active(w, i)
      ensures fixedBPM == old(fixedBPM) && beatTimes == old(beatTimes)
      ensures tapTimes == old(tapTimes) && lastTapTime == old(lastTapTime)
      ensures isListening == old(isListening) && isPlayingRhythm == old(isPlayingRhythm)
      ensures currentPattern == old(currentPattern)
      ensures lastScheduledTime == old(lastScheduledTime) && beatCount == old(beatCount)
    {
      customPattern := customPattern.Toggled(v, step);
    }

    /** Selects the style the scheduler plays from the next beat on. */
    method SetPattern(style: Style)
      requires Valid()
      modifies this
      ensures Valid()
      ensures currentPattern == style
      ensures fixedBPM == old(fixedBPM) && beatTimes == old(beatTimes) && customPattern == old(customPattern)
      ensures tapTimes == old(tapTimes) && lastTapTime == old(lastTapTime)
      ensures isListening == old(isListening) && isPlayingRhythm == old(isPlayingRhythm)
      ensures lastScheduledTime == old(lastScheduledTime) && beatCount == old(beatCount)
    {
      currentPattern := style;
    }

    /**
     * Starts or stops listening. Starting forgets the published tempo and
     * the beat history; stopping only lowers the flag.
     */
    method ToggleListening()
      requires Valid()
      modifies this
      ensures Valid()
      ensures isListening == !old(isListening)
      ensures isListening ==> fixedBPM == None && beatTimes == []
      ensures !isListening ==> fixedBPM == old(fixedBPM) && beatTimes == old(beatTimes)
      ensures tapTimes == old(tapTimes) && lastTapTime == old(lastTapTime)
      ensures currentPattern == old(currentPattern) && customPattern == old(customPattern)
      ensures isPlayingRhythm == old(isPlayingRhythm)
      ensures lastScheduledTime == old(lastScheduledTime) && beatCount == old(beatCount)
    {
      if !isListening {
        isListening := true;
        fixedBPM := None;
        beatTimes := [];
      } else {
        isListening := false;
      }
    }

    /**
     * One pass of the scheduler at audio-clock time `currentTime`: queues
     * whole beats, one beat length apart, until the next beat lies at least
     * half a second ahead. Returns the triggers queued and how many beats
     * they make up.
     */
    method ScheduleBeats(currentTime: real) returns (triggers: seq<Trigger>, n: nat)
      requires Valid() && fixedBPM.Some? && fixedBPM.value > 0
      modifies this
      ensures Valid()
      ensures fixedBPM == old(fixedBPM) && beatTimes == old(beatTimes)
      ensures tapTimes == old(tapTimes) && lastTapTime == old(lastTapTime)
      ensures isListening == old(isListening) && isPlayingRhythm == old(isPlayingRhythm)
      ensures currentPattern == old(currentPattern) && customPattern == old(customPattern)
      ensures lastScheduledTime >= currentTime + Lookahead
      ensures lastScheduledTime == Advanced(old(lastScheduledTime), BeatLength(fixedBPM.value), n)
      ensures n > 0 ==> Advanced(old(lastScheduledTime), BeatLength(fixedBPM.value), n - 1) < currentTime + Lookahead
      ensures old(lastScheduledTime) >= currentTime + Lookahead ==> n == 0 && triggers == []
      ensures beatCount == old(beatCount) + n
      ensures triggers == BeatRun(currentPattern, customPattern, BeatLength(fixedBPM.value), old(lastScheduledTime), old(beatCount), n)
    {
      var beat := BeatLength(fixedBPM.value);
      var time;
      triggers, n, time := RunScheduler(Player(currentPattern, customPattern, beat), beat, lastScheduledTime, beatCount, currentTime + Lookahead);
      lastScheduledTime := time;
      beatCount := beatCount + n;
    }

    /**
     * The play/stop button at audio-clock time `now`. Starting resets the
     * scheduler to `now` and beat 0 and runs its first pass; stopping only
     * lowers the flag.
     */
    method ToggleRhythm(now: real) returns (triggers: seq<Trigger>)
      requires Valid() && (!isPlayingRhythm ==> fixedBPM.Some? && fixedBPM.value > 0)
      modifies this
      ensures Valid()
      ensures isPlayingRhythm == !old(isPlayingRhythm)
      ensures fixedBPM == old(fixedBPM) && beatTimes == old(beatTimes)
      ensures tapTimes == old(tapTimes) && lastTapTime == old(lastTapTime)
      ensures isListening == old(isListening)
      ensures currentPattern == old(currentPattern) && customPattern == old(customPattern)
      ensures old(isPlayingRhythm) ==> triggers == [] && lastScheduledTime == old(lastScheduledTime) && beatCount == old(beatCount)
      ensures !old(isPlayingRhythm) ==> lastScheduledTime >= now + Lookahead
      ensures !old(isPlayingRhythm) ==>
        lastScheduledTime == Advanced(now, BeatLength(old(fixedBPM).value), beatCount) &&
        triggers == BeatRun(old(currentPattern), old(customPattern), BeatLength(old(fixedBPM).value), now, 0, beatCount)
    {
      if !isPlayingRhythm {
        isPlayingRhythm := true;
        lastScheduledTime := now;
        beatCount := 0;
        var n;
        triggers, n := ScheduleBeats(now);
        assert beatCount == n;
      } else {
        triggers := [];
        isPlayingRhythm := false;
      }
    }
  }

  /** The outcome of a tap as app.js is written: the tap history may be `undefined`. */
  datatype TapOutcome = Threw | Stored(taps: seq<int>, lastTap: int)

  /**
   * A tap when the tap history and the last tap time may be missing. A
   * missing last tap time makes the gap `NaN`, which is never above the
   * reset gap, and appending to a missing history throws before anything
   * is stored.
   */
  function TapAsWritten(taps: Option<seq<int>>, lastTap: Option<int>, now: int): (r: TapOutcome)
    ensures taps.Some? && lastTap.Some? ==> r == Stored(TapHistory(taps.value, lastTap.value, now), now)
    ensures taps.None? && lastTap.None? ==> r == Threw
  {
    var reset := lastTap.Some? && now - lastTap.value > TapResetGap;
    var current := if reset then Some([]) else taps;
    if current.None? then Threw
    else Stored(PushBounded(current.value, now, TapCapacity), now)
  }

  /** The outcomes of a session of taps and the tap fields it leaves behind. */
  datatype TapSessionResult = TapSessionResult(outcomes: seq<TapOutcome>, taps: Option<seq<int>>, lastTap: Option<int>)

  /**
   * A session of taps at times `nows` as app.js is written: each tap sees the
   * fields the previous ones left, and a tap that throws leaves them as they
   * were.
   */
  function TapSessionAsWritten(taps: Option<seq<int>>, lastTap: Option<int>, nows: seq<int>): (r: TapSessionResult)
    ensures |r.outcomes| == |nows|
    decreases |nows|
  {
    if nows == [] then TapSessionResult([], taps, lastTap)
    else
      var outcome := TapAsWritten(taps, lastTap, nows[0]);
      var rest :=
        if outcome.Threw? then TapSessionAsWritten(taps, lastTap, nows[1..])
        else TapSessionAsWritten(Some(outcome.taps), Some(outcome.lastTap), nows[1..]);
      TapSessionResult([outcome] + rest.outcomes, rest.taps, rest.lastTap)
  }

  /**
   * The constructor in app.js initialises neither the tap history nor the
   * last tap time. A throwing tap stores nothing, so from that state every
   * tap of a session throws, both fields stay unassigned, and tap tempo
   * never publishes.
   */
  lemma {:induction false} UninitialisedTapsAlwaysThrow(nows: seq<int>)
    ensures var r := TapSessionAsWritten(None, None, nows);
      r.taps.None? && r.lastTap.None? &&
      forall k :: 0 <= k < |r.outcomes| ==> r.outcomes[k] == Threw
  {
    if nows != [] {
      UninitialisedTapsAlwaysThrow(nows[1..]);
    }
  }

  /**
   * With both fields assigned, as the corrected constructor does, no tap of
   * a session throws, and the session ends with the last tap recorded.
   */
  lemma {:induction false} InitialisedTapsNeverThrow(taps: seq<int>, lastTap: int, nows: seq<int>)
    ensures var r := TapSessionAsWritten(Some(taps), Some(lastTap), nows);
      (forall k :: 0 <= k < |r.outcomes| ==> r.outcomes[k].Stored? && r.outcomes[k].lastTap == nows[k]) &&
      r.taps.Some? && r.lastTap == Some(if nows == [] then lastTap else nows[|nows| - 1])
    decreases |nows|
  {
    if nows != [] {
      var outcome := TapAsWritten(Some(taps), Some(lastTap), nows[0]);
      InitialisedTapsNeverThrow(outcome.taps, outcome.lastTap, nows[1..]);
      var r := TapSessionAsWritten(Some(taps), Some(lastTap), nows);
      var rest := TapSessionAsWritten(Some(outcome.taps), Some(outcome.lastTap), nows[1..]);
      assert r.outcomes == [outcome] + rest.outcomes;
      forall k | 0 <= k < |r.outcomes| ensures r.outcomes[k].Stored? && r.outcomes[k].lastTap == nows[k] {
        if k > 0 {
          assert r.outcomes[k] == rest.outcomes[k - 1];
        }
      }
    }
  }

  /** What app.js's onset loop reacts to: a click on the listen button, or an animation frame. */
  datatype LoopEvent = ToggleListen | AnimationFrame

  /**
   * What the onset loop depends on: whether the audio context exists, the
   * `isListening` flag, and whether an `analyze` call is waiting for the
   * next animation frame.
   */
  datatype LoopState = LoopState(hasContext: bool, listening: bool, framePending: bool)

  /** The page as loaded: no audio context, not listening, no loop. */
  const LoopStart: LoopState := LoopState(false, false, false)

  /**
   * One event as app.js is written, with whether a frame was analysed (the
   * only place `beatDetected` is called). A first start runs `initAudio`,
   * whose `processAudio` calls `analyze` before `toggleListening` raises
   * `isListening`, so that call returns without requesting a frame; a later
   * start finds the audio context and starts no loop. A pending frame
   * analyses while listening and requests the next; otherwise it ends the loop.
   */
  function LoopStepAsWritten(s: LoopState, e: LoopEvent): (r: (LoopState, bool))
    ensures r.0.listening == (if e.ToggleListen? then !s.listening else s.listening)
    ensures r.0.framePending ==> s.framePending
    ensures r.1 <==> e.AnimationFrame? && s.framePending && s.listening
  {
    match e
    case ToggleListen =>
      if s.listening then (s.(listening := false), false)
      else (LoopState(true, true, s.framePending), false)
    case AnimationFrame =>
      if !s.framePending then (s, false)
      else if s.listening then (s, true)
      else (s.(framePending := false), false)
  }

  /**
   * One event with the loop started as intended: a start raises
   * `isListening` first and then requests a frame for `analyze` unless one
   * is already waiting. Frames behave as in app.js.
   */
  function LoopStepCorrected(s: LoopState, e: LoopEvent): (r: (LoopState, bool))
    ensures r.0.listening == (if e.ToggleListen? then !s.listening else s.listening)
    ensures (s.listening ==> s.framePending) ==> (r.0.listening ==> r.0.framePending)
    ensures r.1 <==> e.AnimationFrame? && s.framePending && s.listening
  {
    match e
    case ToggleListen =>
      if s.listening then (s.(listening := false), false)
      else (LoopState(true, true, true), false)
    case AnimationFrame =>
      if !s.framePending then (s, false)
      else if s.listening then (s, true)
      else (s.(framePending := false), false)
  }

  /** The state after `events` and how many frames were analysed, as written or corrected. */
  function LoopRun(corrected: bool, s: LoopState, events: seq<LoopEvent>): (r: (LoopState, nat))
    ensures r.1 <= |events|
    decreases |events|
  {
    if events == [] then (s, 0)
    else
      var step := if corrected then LoopStepCorrected(s, events[0]) else LoopStepAsWritten(s, events[0]);
      var rest := LoopRun(corrected, step.0, events[1..]);
      (rest.0, (if step.1 then 1 else 0) + rest.1)
  }

  /** How many animation frames arrive while listening: the frames an onset loop ought to analyse. */
  function ListeningFrames(listening: bool, events: seq<LoopEvent>): (n: nat)
    ensures n <= |events|
    decreases |events|
  {
    if events == [] then 0
    else if events[0].ToggleListen? then ListeningFrames(!listening, events[1..])
    else (if listening then 1 else 0) + ListeningFrames(listening, events[1..])
  }

  /**
   * As app.js is written, a loop that is not running is never started
   * again: from any state without a pending frame, and so from the page as
   * loaded, no frame is ever analysed and `beatDetected` is never called,
   * however often listening is toggled.
   */
  lemma {:induction false} OnsetLoopNeverAnalyses(s: LoopState, events: seq<LoopEvent>)
    requires !s.framePending
    ensures !LoopRun(false, s, events).0.framePending
    ensures LoopRun(false, s, events).1 == 0
    decreases |events|
  {
    if events != [] {
      OnsetLoopNeverAnalyses(LoopStepAsWritten(s, events[0]).0, events[1..]);
    }
  }

  /**
   * With the loop started after the flag is raised, every animation frame
   * that arrives while listening is analysed, and no other.
   */
  lemma {:induction false} OnsetLoopFollowsListening(s: LoopState, events: seq<LoopEvent>)
    requires s.listening ==> s.framePending
    ensures LoopRun(true, s, events).1 == ListeningFrames(s.listening, events)
    decreases |events|
  {
    if events != [] {
      OnsetLoopFollowsListening(LoopStepCorrected(s, events[0]).0, events[1..]);
    }
  }
}
