/**
 * What the drum machine of `BPMDetector` (app.js) plays on one beat: the
 * trigger requests handed to the synthesiser for the custom step grid and
 * for the rock, funk and jazz styles, and the run of beats one scheduling
 * pass emits. Times are seconds on the audio clock; `beat` is the length of
 * one beat in seconds, `60 / fixedBPM`.
 */
module DrumPatterns {
  import opened Common

  /**
   * One request to the sound-rendering side. Kick and snare take a velocity;
   * the hi-hat takes an accent flag.
   */
  datatype Trigger =
    | KickAt(time: real, velocity: real)
    | SnareAt(time: real, velocity: real)
    | HihatAt(time: real, accent: bool)
  {
    function VoiceOf(): Voice
    {
      match this
      case KickAt(_, _) => Kick
      case SnareAt(_, _) => Snare
      case HihatAt(_, _) => Hihat
    }
  }

  /** The pattern selected by the style buttons. */
  datatype Style = Rock | Funk | Jazz | Custom

  const Steps: nat := 16

  /** The editable grid: one on/off flag per sixteenth step and voice. */
  datatype Grid = Grid(kick: seq<bool>, snare: seq<bool>, hihat: seq<bool>)
  {
    function Row(v: Voice): seq<bool>
    {
      match v
      case Kick => kick
      case Snare => snare
      case Hihat => hihat
    }

    predicate WellFormed()
    {
      |kick| == Steps && |snare| == Steps && |hihat| == Steps
    }

    /** A step outside the row reads as `undefined`, which is falsy. */
    predicate Active(v: Voice, step: int)
    {
      0 <= step < |Row(v)| && Row(v)[step]
    }

    /** The grid with one step of one voice flipped. */
    function Toggled(v: Voice, step: nat): (g: Grid)
      requires step < |Row(v)|
      ensures forall w :: |g.Row(w)| == |Row(w)|
      ensures g.Active(v, step) == !Active(v, step)
      ensures forall w, i :: (w != v || i != step) ==> g.Active(w, i) == Active(w, i)
    {
      var row := Row(v)[step := !Row(v)[step]];
      match v
      case Kick => this.(kick := row)
      case Snare => this.(snare := row)
      case Hihat => this.(hihat := row)
    }
  }

  const EmptyGrid: Grid := Grid(seq(Steps, _ => false), seq(Steps, _ => false), seq(Steps, _ => false))

  /** Kick on beats 1 and 3, snare on 2 and 4, hi-hat on every eighth. */
  const DefaultGrid: Grid := Grid(
    [true, false, false, false, false, false, false, false, true, false, false, false, false, false, false, false],
    [false, false, false, false, true, false, false, false, false, false, false, false, true, false, false, false],
    [true, false, true, false, true, false, true, false, true, false, true, false, true, false, true, false])

  /** Seconds per beat at `bpm` beats per minute. */
  function BeatLength(bpm: int): (beat: real)
    requires bpm > 0
    ensures beat > 0.0
  {
    60.0 / bpm as real
  }

  /** The start of sub-beat `i` (a sixteenth) of the beat starting at `time`. */
  function SixteenthTime(time: real, beat: real, i: int): real
  {
    time + i as real * beat / 4.0
  }

  /** Later sub-beats of a beat of positive length start strictly later. */
  lemma SixteenthsIncrease(time: real, beat: real, i: int, j: int)
    requires beat > 0.0 && i < j
    ensures SixteenthTime(time, beat, i) < SixteenthTime(time, beat, j)
  {
    var d := (j - i) as real;
    assert d * beat > 0.0;
    assert j as real * beat == i as real * beat + d * beat;
  }

  /** Grid position of sub-beat `subBeat` of beat `beatNumber`. */
  function StepIndex(beatNumber: int, subBeat: int): (i: int)
    ensures 0 <= beatNumber < 4 && 0 <= subBeat < 4 ==> 0 <= i < Steps
  {
    beatNumber * 4 + subBeat
  }

  /** Some trigger of voice `v` is requested at time `t`. */
  predicate Sounds(r: seq<Trigger>, v: Voice, t: real)
  {
    r != [] && ((r[0].VoiceOf() == v && r[0].time == t) || Sounds(r[1..], v, t))
  }

  lemma {:induction false} SoundsConcat(a: seq<Trigger>, b: seq<Trigger>, v: Voice, t: real)
    ensures Sounds(a + b, v, t) <==> Sounds(a, v, t) || Sounds(b, v, t)
  {
    if a == [] {
      assert a + b == b;
    } else {
      assert (a + b)[0] == a[0];
      assert (a + b)[1..] == a[1..] + b;
      SoundsConcat(a[1..], b, v, t);
    }
  }

  /** Nothing sounds at a time that no trigger carries. */
  lemma {:induction false} SoundsOnlyAtTimes(r: seq<Trigger>, v: Voice, t: real)
    requires forall k :: 0 <= k < |r| ==> r[k].time != t
    ensures !Sounds(r, v, t)
  {
    if r != [] {
      SoundsOnlyAtTimes(r[1..], v, t);
    }
  }

  /** In a list of at most one trigger, a voice sounds at a time exactly when that trigger is it. */
  lemma SoundsSingle(r: seq<Trigger>, v: Voice, t: real)
    requires |r| <= 1
    ensures Sounds(r, v, t) <==> |r| == 1 && r[0].VoiceOf() == v && r[0].time == t
  {
    if |r| == 1 {
      assert r[1..] == [];
    }
  }

  /**
   * The custom grid at one sixteenth: each voice whose step is set sounds at
   * `time`; the kick is louder on the first beat of the bar, the snare plays
   * at 0.8 and the hi-hat is accented only on the very first step.
   */
  function CustomStep(grid: Grid, time: real, beatNumber: int, subBeat: int): (r: seq<Trigger>)
    ensures |r| <= 3
    ensures forall j, k :: 0 <= j < k < |r| ==> r[j].VoiceOf() != r[k].VoiceOf()
    ensures forall k :: 0 <= k < |r| ==> r[k].time == time
    ensures forall k :: 0 <= k < |r| && r[k].KickAt? ==>
      r[k].velocity == if beatNumber == 0 then 1.2 else 1.0
    ensures forall k :: 0 <= k < |r| && r[k].SnareAt? ==> r[k].velocity == 0.8
    ensures forall k :: 0 <= k < |r| && r[k].HihatAt? ==>
      (r[k].accent <==> beatNumber == 0 && subBeat == 0)
  {
    var step := StepIndex(beatNumber, subBeat);
    var kick := if grid.Active(Kick, step) then [KickAt(time, if beatNumber == 0 then 1.2 else 1.0)] else [];
    var snare := if grid.Active(Snare, step) then [SnareAt(time, 0.8)] else [];
    var hihat := if grid.Active(Hihat, step) then [HihatAt(time, beatNumber == 0 && subBeat == 0)] else [];
    kick + snare + hihat
  }

  /** At its own time, a custom step sounds exactly the voices whose grid step is set. */
  lemma CustomStepFollowsGrid(grid: Grid, time: real, beatNumber: int, subBeat: int, v: Voice)
    ensures Sounds(CustomStep(grid, time, beatNumber, subBeat), v, time)
        <==> grid.Active(v, StepIndex(beatNumber, subBeat))
  {
    var step := StepIndex(beatNumber, subBeat);
    var kick := if grid.Active(Kick, step) then [KickAt(time, if beatNumber == 0 then 1.2 else 1.0)] else [];
    var snare := if grid.Active(Snare, step) then [SnareAt(time, 0.8)] else [];
    var hihat := if grid.Active(Hihat, step) then [HihatAt(time, beatNumber == 0 && subBeat == 0)] else [];
    assert CustomStep(grid, time, beatNumber, subBeat) == kick + snare + hihat;
    SoundsConcat(kick, snare, v, time);
    SoundsConcat(kick + snare, hihat, v, time);
    SoundsSingle(kick, v, time);
    SoundsSingle(snare, v, time);
    SoundsSingle(hihat, v, time);
  }

  /** The custom grid over one beat: its four sixteenths, a quarter beat apart. */
  function CustomBeat(grid: Grid, beat: real, time: real, beatNumber: int): seq<Trigger>
  {
    CustomStep(grid, SixteenthTime(time, beat, 0), beatNumber, 0)
    + CustomStep(grid, SixteenthTime(time, beat, 1), beatNumber, 1)
    + CustomStep(grid, SixteenthTime(time, beat, 2), beatNumber, 2)
    + CustomStep(grid, SixteenthTime(time, beat, 3), beatNumber, 3)
  }

  /**
   * On a custom beat, voice `v` sounds at sub-beat `i` exactly when its grid
   * step `4 * beatNumber + i` is set.
   */
  lemma CustomBeatFollowsGrid(grid: Grid, beat: real, time: real, beatNumber: int, v: Voice, i: int)
    requires beat > 0.0 && 0 <= i < 4
    ensures Sounds(CustomBeat(grid, beat, time, beatNumber), v, SixteenthTime(time, beat, i))
        <==> grid.Active(v, StepIndex(beatNumber, i))
  {
    var t := SixteenthTime(time, beat, i);
    var s0 := CustomStep(grid, SixteenthTime(time, beat, 0), beatNumber, 0);
    var s1 := CustomStep(grid, SixteenthTime(time, beat, 1), beatNumber, 1);
    var s2 := CustomStep(grid, SixteenthTime(time, beat, 2), beatNumber, 2);
    var s3 := CustomStep(grid, SixteenthTime(time, beat, 3), beatNumber, 3);
    SoundsConcat(s0, s1, v, t);
    SoundsConcat(s0 + s1, s2, v, t);
    SoundsConcat(s0 + s1 + s2, s3, v, t);
    CustomStepFollowsGrid(grid, t, beatNumber, i, v);
    if i != 0 {
      SixteenthsIncrease(time, beat, 0, i);
      SoundsOnlyAtTimes(s0, v, t);
    }
    if i != 1 {
      if i < 1 { SixteenthsIncrease(time, beat, i, 1); } else { SixteenthsIncrease(time, beat, 1, i); }
      SoundsOnlyAtTimes(s1, v, t);
    }
    if i != 2 {
      if i < 2 { SixteenthsIncrease(time, beat, i, 2); } else { SixteenthsIncrease(time, beat, 2, i); }
      SoundsOnlyAtTimes(s2, v, t);
    }
    if i != 3 {
      SixteenthsIncrease(time, beat, i, 3);
      SoundsOnlyAtTimes(s3, v, t);
    }
  }

  /** Every custom trigger falls within its beat. */
  lemma CustomBeatWithinBeat(grid: Grid, beat: real, time: real, beatNumber: int)
    requires beat > 0.0
    ensures forall k :: 0 <= k < |CustomBeat(grid, beat, time, beatNumber)| ==>
      time <= CustomBeat(grid, beat, time, beatNumber)[k].time < time + beat
  {
    var s0 := CustomStep(grid, SixteenthTime(time, beat, 0), beatNumber, 0);
    var s1 := CustomStep(grid, SixteenthTime(time, beat, 1), beatNumber, 1);
    var s2 := CustomStep(grid, SixteenthTime(time, beat, 2), beatNumber, 2);
    var s3 := CustomStep(grid, SixteenthTime(time, beat, 3), beatNumber, 3);
    var r := CustomBeat(grid, beat, time, beatNumber);
    assert r == s0 + s1 + s2 + s3;
    forall k | 0 <= k < |r| ensures time <= r[k].time < time + beat {
      if k < |s0| {
        assert r[k] == s0[k];
      } else if k < |s0| + |s1| {
        assert r[k] == s1[k - |s0|];
      } else if k < |s0| + |s1| + |s2| {
        assert r[k] == s2[k - |s0| - |s1|];
      } else {
        assert r[k] == s3[k - |s0| - |s1| - |s2|];
      }
    }
  }

  /** Rock fills the fourth beat of every bar whose number is not zero. */
  predicate RockFill(beatNumber: nat, barCount: nat)
  {
    barCount != 0 && beatNumber == 3
  }

  /** Funk and jazz fill the third and fourth beats of every bar whose number is not zero. */
  predicate LateFill(beatNumber: nat, barCount: nat)
  {
    barCount != 0 && beatNumber >= 2
  }

  /** The rock fill: four snares a sixteenth apart, from 0.7 each 0.1 softer. */
  function RockFillBeat(beat: real, time: real): (r: seq<Trigger>)
    requires beat > 0.0
    ensures |r| == 4 && r[0] == SnareAt(time, 0.7)
    ensures forall k :: 0 <= k < 4 ==> r[k] == SnareAt(SixteenthTime(time, beat, k), 0.7 - k as real * 0.1)
    ensures forall k :: 0 <= k < |r| ==> time <= r[k].time < time + beat
  {
    var r := [SnareAt(time, 0.7),
     SnareAt(time + 1.0 * 0.25 * beat, 0.7 - 1.0 * 0.1),
     SnareAt(time + 2.0 * 0.25 * beat, 0.7 - 2.0 * 0.1),
     SnareAt(time + 3.0 * 0.25 * beat, 0.7 - 3.0 * 0.1)];
    assert forall k :: 0 <= k < 4 ==> r[k] == SnareAt(SixteenthTime(time, beat, k), 0.7 - k as real * 0.1) by {
      forall k | 0 <= k < 4 ensures r[k] == SnareAt(SixteenthTime(time, beat, k), 0.7 - k as real * 0.1) {
        if k == 0 {} else if k == 1 {} else if k == 2 {} else {}
      }
    }
    r
  }

  /**
   * Rock outside a fill: a kick on even beats (1.2 on the downbeat, 1.0
   * otherwise), a snare on odd ones (0.9 on the fourth, 0.8 otherwise), and
   * an on-beat hi-hat accented on the downbeat.
   */
  function RockGroove(time: real, beatNumber: nat): (r: seq<Trigger>)
    ensures |r| == 2 && r[1] == HihatAt(time, beatNumber == 0)
    ensures r[0].time == time && !r[0].HihatAt? && (r[0].KickAt? <==> beatNumber % 2 == 0)
    ensures r[0].KickAt? ==> r[0].velocity == if beatNumber == 0 then 1.2 else 1.0
    ensures r[0].SnareAt? ==> r[0].velocity == if beatNumber == 3 then 0.9 else 0.8
  {
    var accent := if beatNumber % 2 == 0
      then KickAt(time, if beatNumber == 0 then 1.2 else 1.0)
      else SnareAt(time, if beatNumber == 3 then 0.9 else 0.8);
    [accent, HihatAt(time, beatNumber == 0)]
  }

  function RockBeat(beat: real, time: real, beatNumber: nat, barCount: nat): (r: seq<Trigger>)
    requires beat > 0.0
    ensures forall k :: 0 <= k < |r| ==> time <= r[k].time < time + beat
    ensures RockFill(beatNumber, barCount) <==> forall k :: 0 <= k < |r| ==> r[k].SnareAt?
  {
    if barCount != 0 && beatNumber == 3 then RockFillBeat(beat, time)
    else RockGroove(time, beatNumber)
  }

  /** The funk fill: a triplet of snares at 0.7. */
  function FunkFillBeat(beat: real, time: real): (r: seq<Trigger>)
    requires beat > 0.0
    ensures |r| == 3 && r[0] == SnareAt(time, 0.7)
    ensures forall k :: 1 <= k < 3 ==> r[k] == SnareAt(r[k - 1].time + beat / 3.0, 0.7)
    ensures forall k :: 0 <= k < |r| ==> time <= r[k].time < time + beat
  {
    [SnareAt(time, 0.7), SnareAt(time + 1.0 * beat / 3.0, 0.7), SnareAt(time + 2.0 * beat / 3.0, 0.7)]
  }

  /**
   * Funk outside a fill: an on-beat hi-hat, the kick on beats 1 (1.2) and 3
   * (1.0), the snare on 2 (0.8) and 4 (0.9), and a kick at 0.9 on the "and"
   * of beats 2 and 4 -- on beat 4 only in bar 0, the only bar whose fourth
   * beat is not a fill.
   */
  function FunkGroove(beat: real, time: real, beatNumber: nat, barCount: nat): (r: seq<Trigger>)
    requires beat > 0.0
    ensures |r| > 0 && r[0] == HihatAt(time, beatNumber == 0)
    ensures forall k :: 0 <= k < |r| ==> time <= r[k].time < time + beat
  {
    var hihat := HihatAt(time, beatNumber == 0);
    if beatNumber == 0 then [hihat, KickAt(time, 1.2)]
    else if beatNumber == 1 then [hihat, SnareAt(time, 0.8), KickAt(time + beat / 2.0, 0.9)]
    else if beatNumber == 2 then [hihat, KickAt(time, 1.0)]
    else if barCount == 0 then [hihat, SnareAt(time, 0.9), KickAt(time + beat / 2.0, 0.9)]
    else [hihat, SnareAt(time, 0.9)]
  }

  /**
   * Exactly which kicks and snares a funk groove beat plays: after the
   * hi-hat come only groove kicks and snares, each of the five present
   * exactly on its beats, and nothing more.
   */
  lemma FunkGrooveVoices(beat: real, time: real, beatNumber: nat, barCount: nat)
    requires beat > 0.0
    ensures var r := FunkGroove(beat, time, beatNumber, barCount);
      |r| == (if beatNumber == 1 || (beatNumber >= 3 && barCount == 0) then 3 else 2) &&
      forall k :: 1 <= k < |r| ==>
        r[k] in [KickAt(time, 1.2), KickAt(time, 1.0), SnareAt(time, 0.8), SnareAt(time, 0.9), KickAt(time + beat / 2.0, 0.9)]
    ensures var r := FunkGroove(beat, time, beatNumber, barCount);
      (KickAt(time, 1.2) in r <==> beatNumber == 0) &&
      (KickAt(time, 1.0) in r <==> beatNumber == 2) &&
      (SnareAt(time, 0.8) in r <==> beatNumber == 1) &&
      (SnareAt(time, 0.9) in r <==> beatNumber >= 3) &&
      (KickAt(time + beat / 2.0, 0.9) in r <==> beatNumber == 1 || (beatNumber >= 3 && barCount == 0))
  {
  }

  function FunkBeat(beat: real, time: real, beatNumber: nat, barCount: nat): (r: seq<Trigger>)
    requires beat > 0.0
    ensures forall k :: 0 <= k < |r| ==> time <= r[k].time < time + beat
    ensures LateFill(beatNumber, barCount) <==> forall k :: 0 <= k < |r| ==> r[k].SnareAt?
  {
    if barCount != 0 && beatNumber >= 2 then FunkFillBeat(beat, time)
    else FunkGroove(beat, time, beatNumber, barCount)
  }

  /** The fixed swing delay of the jazz patterns, in seconds. */
  const Swing: real := 0.33

  /** The swing delay of position `i`: odd positions are late. */
  function SwingDelay(i: int): real
  {
    if i % 2 == 1 then Swing else 0.0
  }

  /**
   * The jazz fill: snares on the four sixteenths, the second and fourth
   * delayed by the swing, velocity rising by 0.1 from 0.6.
   */
  function JazzFillBeat(beat: real, time: real): (r: seq<Trigger>)
    requires beat > 0.0
    ensures |r| == 4
    ensures forall k :: 0 <= k < 4 ==> r[k].SnareAt? && r[k].velocity == 0.6 + k as real * 0.1
    ensures forall k :: 0 <= k < 4 ==> r[k].time == SixteenthTime(time, beat, k) + SwingDelay(k)
    ensures forall k :: 0 <= k < |r| ==> time <= r[k].time < time + beat + Swing
  {
    [SnareAt(time + 0.0 * beat / 4.0 + 0.0, 0.6 + 0.0 * 0.1),
     SnareAt(time + 1.0 * beat / 4.0 + Swing, 0.6 + 1.0 * 0.1),
     SnareAt(time + 2.0 * beat / 4.0 + 0.0, 0.6 + 2.0 * 0.1),
     SnareAt(time + 3.0 * beat / 4.0 + Swing, 0.6 + 3.0 * 0.1)]
  }

  /**
   * Jazz outside a fill: a ride hi-hat (swung on beats 2 and 4, accented on
   * the downbeat), a kick on beats 1 (1.1) and 3 (0.9), and a swung eighth
   * hi-hat a third of a beat in, which only bar 0 plays.
   */
  function JazzGroove(beat: real, time: real, beatNumber: nat, barCount: nat): (r: seq<Trigger>)
    requires beat > 0.0
    ensures |r| > 0 && r[0] == HihatAt(time + SwingDelay(beatNumber), beatNumber == 0)
    ensures barCount == 0 ==> r[|r| - 1] == HihatAt(time + beat / 3.0, false)
    ensures barCount != 0 ==> forall k :: 1 <= k < |r| ==> r[k].KickAt?
    ensures forall k :: 0 <= k < |r| ==> time <= r[k].time < time + beat + Swing
  {
    var ride := [HihatAt(time + SwingDelay(beatNumber), beatNumber == 0)];
    var kick :=
      if beatNumber == 0 then [KickAt(time, 1.1)]
      else if beatNumber == 2 then [KickAt(time, 0.9)]
      else [];
    var eighth := if barCount == 0 then [HihatAt(time + beat / 3.0, false)] else [];
    ride + kick + eighth
  }

  /** Which kicks a jazz groove beat plays. */
  lemma JazzGrooveKicks(beat: real, time: real, beatNumber: nat, barCount: nat)
    requires beat > 0.0
    ensures var r := JazzGroove(beat, time, beatNumber, barCount);
      (KickAt(time, 1.1) in r <==> beatNumber == 0) &&
      (KickAt(time, 0.9) in r <==> beatNumber == 2)
  {
  }

  function JazzBeat(beat: real, time: real, beatNumber: nat, barCount: nat): (r: seq<Trigger>)
    requires beat > 0.0
    ensures forall k :: 0 <= k < |r| ==> time <= r[k].time < time + beat + Swing
    ensures LateFill(beatNumber, barCount) <==> forall k :: 0 <= k < |r| ==> r[k].SnareAt?
  {
    if barCount != 0 && beatNumber >= 2 then JazzFillBeat(beat, time)
    else JazzGroove(beat, time, beatNumber, barCount)
  }

  /**
   * What one beat of the selected style plays. `barCount` is the number of
   * the bar, which the rock, funk and jazz styles take as their "last bar"
   * flag.
   */
  function CreateBeats(style: Style, grid: Grid, beat: real, time: real, beatNumber: nat, barCount: nat): (r: seq<Trigger>)
    requires beat > 0.0
    ensures style != Jazz ==> forall k :: 0 <= k < |r| ==> time <= r[k].time < time + beat
    ensures style == Jazz ==> forall k :: 0 <= k < |r| ==> time <= r[k].time < time + beat + Swing
  {
    match style
    case Custom =>
      CustomBeatWithinBeat(grid, beat, time, beatNumber);
      CustomBeat(grid, beat, time, beatNumber)
    case Rock => RockBeat(beat, time, beatNumber, barCount)
    case Funk => FunkBeat(beat, time, beatNumber, barCount)
    case Jazz => JazzBeat(beat, time, beatNumber, barCount)
  }

  /**
   * Because the bar number stands in for the "last bar" flag, in the rock
   * style every bar but the first ends in a fill, and the first never does.
   */
  lemma FillsFromSecondBarOn(grid: Grid, beat: real, time: real, beatCount: nat)
    requires beat > 0.0
    ensures var r := CreateBeats(Rock, grid, beat, time, beatCount % 4, beatCount / 4);
      (forall k :: 0 <= k < |r| ==> r[k].SnareAt?) <==> beatCount >= 4 && beatCount % 4 == 3
  {
  }

  /**
   * Where the scheduling clock stands after `n` beats from `start`: the
   * beat length added once per beat.
   */
  function Advanced(start: real, beat: real, n: nat): (t: real)
    requires beat > 0.0
    ensures t >= start
    ensures n > 0 ==> t > start
  {
    if n == 0 then start else Advanced(start, beat, n - 1) + beat
  }

  lemma {:induction false} AdvancedSplit(start: real, beat: real, n: nat, m: nat)
    requires beat > 0.0
    ensures Advanced(start, beat, n + m) == Advanced(Advanced(start, beat, n), beat, m)
  {
    if m > 0 {
      AdvancedSplit(start, beat, n, m - 1);
    }
  }

  /** A beat the scheduler queues: its start time and the running beat counter. */
  datatype Slot = Slot(time: real, count: nat)

  /** The `n` beats queued from clock `start` and counter `count`, one beat length apart. */
  function Slots(start: real, beat: real, count: nat, n: nat): (r: seq<Slot>)
    requires beat > 0.0
    ensures |r| == n
    ensures forall k :: 0 <= k < n ==> r[k] == Slot(Advanced(start, beat, k), count + k)
  {
    if n == 0 then []
    else Slots(start, beat, count, n - 1) + [Slot(Advanced(start, beat, n - 1), count + n - 1)]
  }

  /** Queuing `n + m` beats is queuing `n` and then `m` more from where the first `n` left off. */
  lemma SlotsSplit(start: real, beat: real, count: nat, n: nat, m: nat)
    requires beat > 0.0
    ensures Slots(start, beat, count, n + m)
      == Slots(start, beat, count, n) + Slots(Advanced(start, beat, n), beat, count + n, m)
  {
    var whole := Slots(start, beat, count, n + m);
    var parts := Slots(start, beat, count, n) + Slots(Advanced(start, beat, n), beat, count + n, m);
    forall k | n <= k < n + m
      ensures whole[k] == parts[k]
    {
      AdvancedSplit(start, beat, n, k - n);
    }
  }

  /**
   * What a queued beat plays in the selected style: the beat counter is
   * split into beat-in-bar `count % 4` and bar `count / 4`.
   */
  function Player(style: Style, grid: Grid, beat: real): Slot -> seq<Trigger>
    requires beat > 0.0
  {
    (s: Slot) => CreateBeats(style, grid, beat, s.time, s.count % 4, s.count / 4)
  }

  lemma PlayerPlays(style: Style, grid: Grid, beat: real, s: Slot)
    requires beat > 0.0
    ensures Player(style, grid, beat)(s) == CreateBeats(style, grid, beat, s.time, s.count % 4, s.count / 4)
  {
  }

  /** The triggers of the queued beats in order, each beat played by `play`. */
  function Render(play: Slot -> seq<Trigger>, slots: seq<Slot>): seq<Trigger>
  {
    if slots == [] then [] else play(slots[0]) + Render(play, slots[1..])
  }

  /** The triggers of two consecutive lists of queued beats are the triggers of the first followed by those of the second. */
  lemma {:induction false} RenderConcat(play: Slot -> seq<Trigger>, a: seq<Slot>, b: seq<Slot>)
    ensures Render(play, a + b) == Render(play, a) + Render(play, b)
  {
    if a == [] {
      assert a + b == b;
    } else {
      var s, rest := a[0], a[1..];
      calc {
        Render(play, a + b);
        { assert a + b == [s] + (rest + b); }
        Render(play, [s] + (rest + b));
        { RenderCons(play, s, rest + b); }
        play(s) + Render(play, rest + b);
        { RenderConcat(play, rest, b); }
        play(s) + (Render(play, rest) + Render(play, b));
        (play(s) + Render(play, rest)) + Render(play, b);
        { RenderCons(play, s, rest); assert a == [s] + rest; }
        Render(play, a) + Render(play, b);
      }
    }
  }

  /** The first queued beat plays first. */
  lemma RenderCons(play: Slot -> seq<Trigger>, s: Slot, rest: seq<Slot>)
    ensures Render(play, [s] + rest) == play(s) + Render(play, rest)
  {
    assert ([s] + rest)[0] == s && ([s] + rest)[1..] == rest;
  }

  /** Queuing one more beat appends that beat's triggers. */
  lemma RenderSnoc(play: Slot -> seq<Trigger>, slots: seq<Slot>, s: Slot)
    ensures Render(play, slots + [s]) == Render(play, slots) + play(s)
  {
    RenderConcat(play, slots, [s]);
    assert Render(play, [s]) == play(s) by {
      RenderCons(play, s, []);
      assert [s] + [] == [s] && play(s) + [] == play(s);
    }
  }

  /** Queuing one more beat after `n` plays the beat at the clock after `n` beats, with counter `count + n`. */
  lemma RenderSlotsStep(play: Slot -> seq<Trigger>, start: real, beat: real, count: nat, n: nat)
    requires beat > 0.0
    ensures Render(play, Slots(start, beat, count, n + 1))
      == Render(play, Slots(start, beat, count, n)) + play(Slot(Advanced(start, beat, n), count + n))
  {
    var slot := Slot(Advanced(start, beat, n), count + n);
    var before := Slots(start, beat, count, n);
    assert Slots(start, beat, count, n + 1) == before + [slot];
    RenderSnoc(play, before, slot);
  }

  /** The triggers of `n` consecutive beats from clock `start` and counter `count`. */
  function BeatRun(style: Style, grid: Grid, beat: real, start: real, count: nat, n: nat): seq<Trigger>
    requires beat > 0.0
  {
    Render(Player(style, grid, beat), Slots(start, beat, count, n))
  }

  /**
   * Two scheduling passes queue exactly what one pass over both their beats
   * would: the second continues where the first left the clock and the beat
   * counter.
   */
  lemma BeatRunSplit(style: Style, grid: Grid, beat: real, start: real, count: nat, n: nat, m: nat)
    requires beat > 0.0
    ensures BeatRun(style, grid, beat, start, count, n + m)
      == BeatRun(style, grid, beat, start, count, n)
         + BeatRun(style, grid, beat, Advanced(start, beat, n), count + n, m)
  {
    SlotsSplit(start, beat, count, n, m);
    RenderConcat(Player(style, grid, beat), Slots(start, beat, count, n), Slots(Advanced(start, beat, n), beat, count + n, m));
  }

  /** One more beat appends the triggers of that beat. */
  lemma BeatRunStep(style: Style, grid: Grid, beat: real, start: real, count: nat, n: nat)
    requires beat > 0.0
    ensures BeatRun(style, grid, beat, start, count, n + 1)
      == BeatRun(style, grid, beat, start, count, n)
         + CreateBeats(style, grid, beat, Advanced(start, beat, n), (count + n) % 4, (count + n) / 4)
  {
    RenderSlotsStep(Player(style, grid, beat), start, beat, count, n);
    PlayerPlays(style, grid, beat, Slot(Advanced(start, beat, n), count + n));
  }

  /** Every trigger of `r` lies in the half-open span `[lo, hi)`. */
  predicate Within(r: seq<Trigger>, lo: real, hi: real)
  {
    forall k :: 0 <= k < |r| ==> lo <= r[k].time < hi
  }

  lemma WithinConcat(a: seq<Trigger>, b: seq<Trigger>, lo: real, mid: real, hi: real)
    requires Within(a, lo, mid) && Within(b, mid, hi) && lo <= mid <= hi
    ensures Within(a + b, lo, hi)
  {
    forall k | 0 <= k < |a + b| ensures lo <= (a + b)[k].time < hi {
      if k < |a| {
        assert (a + b)[k] == a[k];
      } else {
        assert (a + b)[k] == b[k - |a|];
      }
    }
  }

  /**
   * Outside the jazz style, the triggers of a run of `n` beats all lie
   * between its start and where the clock stands after it.
   */
  lemma {:induction false} BeatRunWithinSpan(style: Style, grid: Grid, beat: real, start: real, count: nat, n: nat)
    requires beat > 0.0 && style != Jazz
    ensures Within(BeatRun(style, grid, beat, start, count, n), start, Advanced(start, beat, n))
  {
    if n > 0 {
      var m := n - 1;
      var t := Advanced(start, beat, m);
      var c := count + m;
      var prev := BeatRun(style, grid, beat, start, count, m);
      var last: seq<Trigger> := CreateBeats(style, grid, beat, t, c % 4, c / 4);
      BeatRunWithinSpan(style, grid, beat, start, count, m);
      BeatRunStep(style, grid, beat, start, count, m);
      assert Within(last, t, t + beat);
      WithinConcat(prev, last, start, t, t + beat);
    }
  }
}
