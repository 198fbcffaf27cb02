/**
 * The pattern library of rhythmPatterns.js: a table of named 16-step
 * patterns, one row per drum voice, read back normalised to 0/1, with an
 * editable "custom" slot and a "random" slot regenerated from supplied
 * random draws.
 */
module RhythmPatternLibrary {
  import opened Common

  const Steps: nat := 16
  /** `Math.random` is drawn once per step other than the two forced ones. */
  const DrawsPerRow: nat := 14
  const KickWeight: real := 0.15
  const SnareWeight: real := 0.2
  const HihatWeight: real := 0.4

  /** The pattern keys, in the order the table declares them. */
  const Keys: seq<string> := ["basic", "march", "electronic", "reggae", "funk", "random", "custom"]

  /** A step of a row: a number (0 or 1 in the presets) or a boolean (the initial custom row). */
  datatype Cell = Num(n: int) | Flag(b: bool)
  {
    /** JavaScript truthiness. */
    predicate Truthy()
    {
      match this
      case Num(n) => n != 0
      case Flag(b) => b
    }

    predicate IsBit()
    {
      this == Num(0) || this == Num(1)
    }
  }

  datatype Pattern = Pattern(name: string, description: string, kick: seq<Cell>, snare: seq<Cell>, hihat: seq<Cell>)
  {
    function Row(v: Voice): seq<Cell>
    {
      match v
      case Kick => kick
      case Snare => snare
      case Hihat => hihat
    }

    /** The pattern with row `v` replaced by `row`. */
    function WithRow(v: Voice, row: seq<Cell>): (p: Pattern)
      ensures p.Row(v) == row
      ensures forall w :: w != v ==> p.Row(w) == Row(w)
      ensures p.name == name && p.description == description
    {
      match v
      case Kick => this.(kick := row)
      case Snare => this.(snare := row)
      case Hihat => this.(hihat := row)
    }

    predicate WellFormed()
    {
      |kick| == Steps && |snare| == Steps && |hihat| == Steps
    }
  }

  /** The summary `getAllPatterns` gives for one pattern. */
  datatype Summary = Summary(id: string, name: string, description: string)

  /** `v ? 1 : 0` applied to every step: same length, same truthiness, only 0 and 1. */
  function Normalized(row: seq<Cell>): (r: seq<Cell>)
    ensures |r| == |row|
    ensures forall i :: 0 <= i < |r| ==> r[i].IsBit() && (r[i].Truthy() <==> row[i].Truthy())
  {
    seq(|row|, i requires 0 <= i < |row| => if row[i].Truthy() then Num(1) else Num(0))
  }

  /** A row of 0s and 1s is its own normalisation; in particular normalising twice is normalising once. */
  lemma NormalizedKeepsBits(row: seq<Cell>)
    requires forall i :: 0 <= i < |row| ==> row[i].IsBit()
    ensures Normalized(row) == row
  {
    var r := Normalized(row);
    forall i | 0 <= i < |row| ensures r[i] == row[i] {
      assert r[i].IsBit() && row[i].IsBit();
    }
  }

  lemma NormalizedIdempotent(row: seq<Cell>)
    ensures Normalized(Normalized(row)) == Normalized(row)
  {
    NormalizedKeepsBits(Normalized(row));
  }

  /** The voice an instrument name selects, if any. */
  function VoiceNamed(instrument: string): (r: Option<Voice>)
    ensures r == Some(Kick) <==> instrument == "kick"
    ensures r == Some(Snare) <==> instrument == "snare"
    ensures r == Some(Hihat) <==> instrument == "hihat"
  {
    if instrument == "kick" then Some(Kick)
    else if instrument == "snare" then Some(Snare)
    else if instrument == "hihat" then Some(Hihat)
    else None
  }

  function Bits(s: seq<int>): seq<Cell>
  {
    seq(|s|, i requires 0 <= i < |s| => Num(s[i]))
  }

  /** The table as the constructor builds it. */
  function InitialPatterns(): map<string, Pattern>
  {
    map[
      "basic" := Pattern("Базовый рок", "Классический рок-ритм",
        Bits([1, 0, 0, 0, 0, 0, 1, 0, 1, 0, 0, 0, 0, 0, 1, 0]),
        Bits([0, 0, 0, 0, 1, 0, 0, 0, 0, 0, 0, 0, 1, 0, 0, 0]),
        Bits([1, 1, 0, 1, 1, 1, 0, 1, 1, 1, 0, 1, 1, 1, 0, 1])),
      "march" := Pattern("Военный марш", "Строгий маршевый ритм",
        Bits([1, 0, 0, 0, 1, 0, 0, 0, 1, 0, 0, 0, 1, 0, 0, 0]),
        Bits([0, 0, 1, 0, 0, 0, 1, 0, 0, 0, 1, 0, 0, 0, 1, 0]),
        Bits([1, 0, 1, 0, 1, 0, 1, 0, 1, 0, 1, 0, 1, 0, 1, 0])),
      "electronic" := Pattern("Электронный", "Современный электронный бит",
        Bits([1, 0, 0, 1, 0, 0, 1, 0, 1, 0, 0, 1, 0, 0, 1, 0]),
        Bits([0, 0, 1, 0, 1, 0, 0, 0, 0, 0, 1, 0, 1, 0, 0, 0]),
        Bits([1, 1, 1, 1, 1, 1, 1, 1, 1, 1, 1, 1, 1, 1, 1, 1])),
      "reggae" := Pattern("Регги", "Расслабленный регги-ритм",
        Bits([1, 0, 0, 0, 0, 0, 1, 0, 0, 0, 0, 0, 1, 0, 0, 0]),
        Bits([0, 0, 0, 0, 1, 0, 0, 0, 0, 0, 0, 0, 1, 0, 0, 0]),
        Bits([0, 1, 0, 1, 0, 1, 0, 1, 0, 1, 0, 1, 0, 1, 0, 1])),
      "funk" := Pattern("Фанк", "Синкопированный фанк-ритм",
        Bits([1, 0, 0, 1, 0, 1, 0, 0, 1, 0, 0, 1, 0, 1, 0, 0]),
        Bits([0, 0, 1, 0, 0, 0, 0, 1, 0, 0, 1, 0, 0, 0, 0, 1]),
        Bits([1, 0, 1, 1, 0, 1, 1, 0, 1, 0, 1, 1, 0, 1, 1, 0])),
      "random" := Pattern("Случайный ритм", "Случайно сгенерированный ритм 4/4",
        seq(Steps, _ => Num(0)), seq(Steps, _ => Num(0)), seq(Steps, _ => Num(0))),
      "custom" := Pattern("Свой ритм", "Создайте свой ритм",
        seq(Steps, _ => Flag(false)), seq(Steps, _ => Flag(false)), seq(Steps, _ => Flag(false)))
    ]
  }

  /** Every row of every pattern of the initial table has 16 steps, and the table has exactly the declared keys. */
  lemma InitialPatternsWellFormed()
    ensures forall k :: k in InitialPatterns() <==> k in Keys
    ensures forall k :: k in InitialPatterns() ==> InitialPatterns()[k].WellFormed()
  {
    var m := InitialPatterns();
    assert m["basic"].WellFormed() && m["march"].WellFormed() && m["electronic"].WellFormed();
    assert m["reggae"].WellFormed() && m["funk"].WellFormed();
    assert m["random"].WellFormed() && m["custom"].WellFormed();
  }

  /**
   * The position of the draw that decides step `i` of a random row: draws
   * are taken in step order, skipping the forced steps 0 and 8.
   */
  function DrawIndex(i: nat): (d: nat)
    requires i < Steps && i != 0 && i != 8
    ensures d < DrawsPerRow
  {
    if i < 8 then i - 1 else i - 2
  }

  /** The step decided by draw `d`: the inverse of `DrawIndex`. */
  function StepOfDraw(d: nat): (i: nat)
    requires d < DrawsPerRow
    ensures 0 < i < Steps && i != 8
  {
    if d < 7 then d + 1 else d + 2
  }

  /** Each draw decides exactly one step, and each step other than 0 and 8 exactly one draw. */
  lemma DrawIndexBijective()
    ensures forall d :: 0 <= d < DrawsPerRow ==> DrawIndex(StepOfDraw(d)) == d
    ensures forall i :: 0 < i < Steps && i != 8 ==> StepOfDraw(DrawIndex(i)) == i
  {
  }

  /**
   * A random row for a voice of weight `weight`: 16 steps, steps 0 and 8
   * set, and every other step set exactly when its draw is below the weight.
   */
  predicate Drawn(row: seq<Cell>, weight: real, draws: seq<real>)
    requires |draws| == DrawsPerRow
  {
    |row| == Steps && row[0] == Num(1) && row[8] == Num(1) &&
    forall i :: 0 < i < Steps && i != 8 ==> row[i] == if draws[DrawIndex(i)] < weight then Num(1) else Num(0)
  }

  /** A drawn row is all 0s and 1s, and the draws determine it. */
  lemma DrawnIsBits(row: seq<Cell>, weight: real, draws: seq<real>)
    requires |draws| == DrawsPerRow && Drawn(row, weight, draws)
    ensures forall i :: 0 <= i < |row| ==> row[i].IsBit()
  {
  }

  lemma DrawnIsUnique(a: seq<Cell>, b: seq<Cell>, weight: real, draws: seq<real>)
    requires |draws| == DrawsPerRow && Drawn(a, weight, draws) && Drawn(b, weight, draws)
    ensures a == b
  {
    forall i | 0 <= i < Steps ensures a[i] == b[i] {
      if i != 0 && i != 8 {
        assert a[i] == if draws[DrawIndex(i)] < weight then Num(1) else Num(0);
      }
    }
  }

  /** `getRandomBeats`: a fresh row with the downbeats set, filled step by step from the draws. */
  method RandomBeats(weight: real, draws: seq<real>) returns (row: seq<Cell>)
    requires |draws| == DrawsPerRow
    ensures Drawn(row, weight, draws)
  {
    row := seq(Steps, _ => Num(0));
    row := row[0 := Num(1)][8 := Num(1)];
    var d := 0;
    for i := 0 to Steps
      invariant |row| == Steps
      invariant d == if i == 0 then 0 else if i <= 8 then i - 1 else i - 2
      invariant row[0] == Num(1) && row[8] == Num(1)
      invariant forall k :: 0 < k < i && k != 8 ==> row[k] == if draws[DrawIndex(k)] < weight then Num(1) else Num(0)
      invariant forall k :: i <= k < Steps && k != 0 && k != 8 ==> row[k] == Num(0)
    {
      if i != 0 && i != 8 {
        assert d == DrawIndex(i);
        if draws[d] < weight {
          row := row[i := Num(1)];
        }
        d := d + 1;
      }
    }
  }

  class RhythmPatterns {
    var currentPattern: string
    var patterns: map<string, Pattern>

    ghost predicate Valid()
      reads this
    {
      (forall k :: k in patterns <==> k in Keys) &&
      (forall k :: k in patterns ==> patterns[k].WellFormed())
    }

    constructor()
      ensures Valid()
      ensures currentPattern == "custom" && patterns == InitialPatterns()
    {
      currentPattern := "custom";
      patterns := InitialPatterns();
      InitialPatternsWellFormed();
    }

    /**
     * The pattern stored under `name`, or the custom one when there is
     * none, with every row normalised to 0/1; the table is left as it is.
     */
    function GetPattern(name: string): (p: Pattern)
      requires Valid()
      reads this
      ensures var stored := if name in patterns then patterns[name] else patterns["custom"];
        p.name == stored.name && p.description == stored.description &&
        forall v :: |p.Row(v)| == |stored.Row(v)| == Steps &&
          forall i :: 0 <= i < Steps ==> p.Row(v)[i].IsBit() && (p.Row(v)[i].Truthy() <==> stored.Row(v)[i].Truthy())
    {
      var stored := if name in patterns then patterns[name] else patterns["custom"];
      var p := stored.(kick := Normalized(stored.kick), snare := Normalized(stored.snare), hihat := Normalized(stored.hihat));
      assert forall v :: p.Row(v) == Normalized(stored.Row(v));
      p
    }

    /**
     * Sets step `index` of the custom row of `instrument` to `value` and
     * normalises that row to 0/1. An instrument that is not a voice changes
     * nothing; other rows and other patterns never change.
     */
    method SetCustomPattern(instrument: string, index: nat, value: Cell)
      requires Valid() && index < Steps
      modifies this
      ensures Valid()
      ensures currentPattern == old(currentPattern)
      ensures VoiceNamed(instrument).None? ==> patterns == old(patterns)
      ensures VoiceNamed(instrument).Some? ==>
        var v := VoiceNamed(instrument).value;
        var row := patterns["custom"].Row(v);
        patterns == old(patterns)["custom" := old(patterns)["custom"].WithRow(v, row)] &&
        row == Normalized(old(patterns)["custom"].Row(v)[index := value]) &&
        row[index] == (if value.Truthy() then Num(1) else Num(0)) &&
        forall i :: 0 <= i < Steps && i != index ==>
          row[i].IsBit() && (row[i].Truthy() <==> old(patterns)["custom"].Row(v)[i].Truthy())
    {
      var voice := VoiceNamed(instrument);
      if voice.Some? {
        var custom := patterns["custom"];
        var row := custom.Row(voice.value);
        row := row[index := value];
        row := Normalized(row);
        var updated := custom.WithRow(voice.value, row);
        assert updated.WellFormed() && updated.Row(voice.value) == row;
        patterns := patterns["custom" := updated];
      }
    }

    /**
     * Regenerates the random pattern from 42 draws of `Math.random`, taken
     * in order: 14 for the kick row, then 14 for the snare row, then 14 for
     * the hi-hat row. Only the random slot changes, and it is returned.
     */
    method GenerateRandomPattern(draws: seq<real>) returns (r: Pattern)
      requires Valid() && |draws| == 3 * DrawsPerRow
      modifies this
      ensures Valid()
      ensures currentPattern == old(currentPattern)
      ensures patterns == old(patterns)["random" := r]
      ensures r.name == old(patterns)["random"].name && r.description == old(patterns)["random"].description
      ensures Drawn(r.kick, KickWeight, draws[..DrawsPerRow])
      ensures Drawn(r.snare, SnareWeight, draws[DrawsPerRow..2 * DrawsPerRow])
      ensures Drawn(r.hihat, HihatWeight, draws[2 * DrawsPerRow..])
    {
      var kick := RandomBeats(KickWeight, draws[..DrawsPerRow]);
      var snare := RandomBeats(SnareWeight, draws[DrawsPerRow..2 * DrawsPerRow]);
      var hihat := RandomBeats(HihatWeight, draws[2 * DrawsPerRow..]);
      r := patterns["random"].(kick := kick, snare := snare, hihat := hihat);
      patterns := patterns["random" := r];
    }

    /** One summary per pattern, in the order the table declares them. */
    function GetAllPatterns(): (r: seq<Summary>)
      requires Valid()
      reads this
      ensures |r| == |Keys|
      ensures forall id :: id in patterns <==> exists i :: 0 <= i < |r| && r[i].id == id
      ensures forall i :: 0 <= i < |r| ==>
        r[i].id == Keys[i] && r[i].name == patterns[Keys[i]].name && r[i].description == patterns[Keys[i]].description
    {
      var table := patterns;
      var r := seq(|Keys|, i requires 0 <= i < |Keys| =>
        Summary(Keys[i], table[Keys[i]].name, table[Keys[i]].description));
      assert forall id :: id in Keys ==> exists i :: 0 <= i < |r| && r[i].id == id by {
        forall id | id in Keys ensures exists i :: 0 <= i < |r| && r[i].id == id {
          var i :| 0 <= i < |Keys| && Keys[i] == id;
          assert r[i].id == id;
        }
      }
      r
    }
  }

  /** Reading a name the table does not hold gives the custom pattern. */
  lemma UnknownNameIsCustom(lib: RhythmPatterns, name: string)
    requires lib.Valid() && name !in Keys
    ensures lib.GetPattern(name) == lib.GetPattern("custom")
  {
  }

  /** A preset already made of 0s and 1s reads back exactly as stored. */
  lemma PresetReadsBack(lib: RhythmPatterns, name: string)
    requires lib.Valid() && name in lib.patterns
    requires forall v, i :: 0 <= i < Steps ==> lib.patterns[name].Row(v)[i].IsBit()
    ensures lib.GetPattern(name) == lib.patterns[name]
  {
    var stored := lib.patterns[name];
    var p := lib.GetPattern(name);
    forall v ensures p.Row(v) == stored.Row(v) {
      forall i | 0 <= i < Steps ensures p.Row(v)[i] == stored.Row(v)[i] {
        assert p.Row(v)[i].IsBit() && stored.Row(v)[i].IsBit();
      }
    }
    assert p.kick == stored.Row(Kick) && p.snare == stored.Row(Snare) && p.hihat == stored.Row(Hihat);
  }

  /** Reading a pattern back is stable: the 0/1 rows read from the table normalise to themselves. */
  lemma GetPatternIsNormalized(lib: RhythmPatterns, name: string, v: Voice)
    requires lib.Valid()
    ensures Normalized(lib.GetPattern(name).Row(v)) == lib.GetPattern(name).Row(v)
  {
    NormalizedKeepsBits(lib.GetPattern(name).Row(v));
  }

  /**
   * After a random regeneration, every row of the random pattern has its
   * two downbeats set, whatever the draws were.
   */
  method RandomDownbeats(draws: seq<real>) returns (r: Pattern)
    requires |draws| == 3 * DrawsPerRow
    ensures forall v :: |r.Row(v)| == Steps && r.Row(v)[0] == Num(1) && r.Row(v)[8] == Num(1)
  {
    var lib := new RhythmPatterns();
    r := lib.GenerateRandomPattern(draws);
  }
}
