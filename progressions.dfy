/** The built-in chord progressions: sequences of scale degrees (0 is the
    tonic), the exercise lengths they allow, and a progression cycled to a
    given number of bars. */
module Progressions {
  import opened Builtins

  /** The table of progressions, in the order the program lists them. */
  const PROGRESSIONS: seq<(string, seq<int>)> := [
    ("12 bar blues", [0, 0, 0, 0, 3, 3, 0, 0, 4, 3, 0, 0]),
    ("circle", [0, 3, 6, 2, 5, 1, 4, 0]),
    ("scale", [0, 1, 2, 3, 4, 5, 6, 0]),
    ("I-V", [0, 4]),
    ("I-IV", [0, 3])
  ]

  function Keys(table: seq<(string, seq<int>)>): (names: seq<string>)
    ensures |names| == |table|
  {
    if table == [] then [] else [table[0].0] + Keys(table[1..])
  }

  /** The entry for a name: the first one with that key. */
  function Find(table: seq<(string, seq<int>)>, name: string): (r: Result<seq<int>>)
    ensures r.Err? ==> r.error == KeyError
  {
    if table == [] then Err(KeyError)
    else if table[0].0 == name then Ok(table[0].1)
    else Find(table[1..], name)
  }

  lemma {:induction false} FindKeys(table: seq<(string, seq<int>)>, name: string)
    ensures Find(table, name).Ok? <==> name in Keys(table)
    ensures Find(table, name).Ok? ==> exists i :: 0 <= i < |table| && table[i] == (name, Find(table, name).value)
  {
    if table != [] {
      FindKeys(table[1..], name);
      if table[0].0 != name && Find(table, name).Ok? {
        var i :| 0 <= i < |table[1..]| && table[1..][i] == (name, Find(table, name).value);
        assert table[i + 1] == table[1..][i];
      }
    }
  }

  /** `PROGRESSIONS[name]`. */
  function Lookup(name: string): (r: Result<seq<int>>)
    ensures r.Err? ==> r.error == KeyError
  {
    Find(PROGRESSIONS, name)
  }

  /** `get_progressions`: the names of the progressions. */
  function GetProgressions(): (names: seq<string>)
    ensures |names| == |PROGRESSIONS|
  {
    Keys(PROGRESSIONS)
  }

  /** A name is listed iff looking it up succeeds: the listed names are
      exactly the keys of the table. */
  lemma {:induction false} GetProgressionsAreKeys(name: string)
    ensures name in GetProgressions() <==> Lookup(name).Ok?
    ensures Lookup(name).Err? ==> Lookup(name).error == KeyError
  {
    FindKeys(PROGRESSIONS, name);
  }

  /** Every built-in progression is non-empty and made of scale degrees
      0..6. */
  lemma {:induction false} ProgressionsAreDegrees(name: string)
    requires Lookup(name).Ok?
    ensures |Lookup(name).value| > 0
    ensures forall k :: 0 <= k < |Lookup(name).value| ==> 0 <= Lookup(name).value[k] <= 6
  {
    FindKeys(PROGRESSIONS, name);
    var i :| 0 <= i < |PROGRESSIONS| && PROGRESSIONS[i] == (name, Lookup(name).value);
    assert i == 0 || i == 1 || i == 2 || i == 3 || i == 4;
  }

  /** `range(start, stop, step)` for a positive step. */
  function Range(start: int, stop: int, step: int): (r: seq<int>)
    requires step > 0
    ensures forall k :: 0 <= k < |r| ==> start <= r[k] < stop
    decreases stop - start
  {
    if start >= stop then [] else [start] + Range(start + step, stop, step)
  }

  /** The members of `range(start, stop, step)` are the values start + k*step
      below stop. */
  lemma {:induction false} RangeMembers(start: int, stop: int, step: int, x: int)
    requires step > 0
    ensures x in Range(start, stop, step) <==> start <= x < stop && (x - start) % step == 0
    decreases stop - start
  {
    if start < stop {
      RangeMembers(start + step, stop, step, x);
      ModShift(x - (start + step), step);
    }
  }

  /** The exercise lengths a progression offers: its multiples up to the
      maximum, or the progression's own length when it exceeds the maximum. */
  function Options(baseLen: int, maxLen: int): (options: seq<int>)
    requires baseLen > 0
    ensures |options| > 0
  {
    var r := Range(baseLen, maxLen + 1, baseLen);
    if r == [] then [baseLen] else r
  }

  lemma {:induction false} OptionsAreMultiples(baseLen: int, maxLen: int, x: int)
    requires baseLen > 0
    ensures x in Options(baseLen, maxLen) <==>
              (baseLen <= maxLen && baseLen <= x <= maxLen && x % baseLen == 0)
              || (maxLen < baseLen && x == baseLen)
  {
    RangeMembers(baseLen, maxLen + 1, baseLen, x);
    RangeMembers(baseLen, maxLen + 1, baseLen, baseLen);
    ModShift(x - baseLen, baseLen);
  }

  /** `progression_length`: the exercise length to use for a suggested one,
      and the lengths on offer. */
  function ProgressionLength(name: string, suggestedLen: int, maxLen: int): (r: Result<(int, seq<int>)>)
    ensures r.Ok? <==> Lookup(name).Ok?
    ensures r.Err? ==> r.error == KeyError
  {
    match Lookup(name)
    case Err(e) => Err(e)
    case Ok(progression) =>
      ProgressionsAreDegrees(name);
      var baseLen := |progression|;
      var options := Options(baseLen, maxLen);
      if suggestedLen < baseLen then Ok((baseLen, options))
      else
        var repeats := RoundHalfEven(suggestedLen as real / baseLen as real);
        Ok((baseLen * repeats, options))
  }

  /** The chosen length is a positive multiple of the progression's length,
      no shorter than it, equal to it for a shorter suggestion, and otherwise
      the multiple nearest the suggestion (within half a progression). */
  lemma {:induction false} ProgressionLengthChoice(name: string, suggestedLen: int, maxLen: int)
    requires Lookup(name).Ok?
    ensures |Lookup(name).value| > 0
    ensures var baseLen := |Lookup(name).value|;
            var len := ProgressionLength(name, suggestedLen, maxLen).value.0;
            && len >= baseLen && len % baseLen == 0
            && (suggestedLen < baseLen ==> len == baseLen)
            && (suggestedLen >= baseLen ==>
                  (len - suggestedLen) as real <= baseLen as real / 2.0
                  && (suggestedLen - len) as real <= baseLen as real / 2.0)
    ensures ProgressionLength(name, suggestedLen, maxLen).value.1 == Options(|Lookup(name).value|, maxLen)
  {
    ProgressionsAreDegrees(name);
    var baseLen := |Lookup(name).value|;
    if suggestedLen >= baseLen {
      var x := suggestedLen as real / baseLen as real;
      var repeats := RoundHalfEven(x);
      assert x >= 1.0;
      assert repeats >= 1;
      MultipleMod(baseLen, repeats);
      ScaledDistance(x, repeats, baseLen, suggestedLen);
    }
  }

  lemma {:induction false} ScaledDistance(x: real, n: int, b: int, s: int)
    requires b > 0 && x == s as real / b as real
    requires n as real - x <= 0.5 && x - n as real <= 0.5
    ensures (b * n - s) as real <= b as real / 2.0 && (s - b * n) as real <= b as real / 2.0
  {
    assert s as real == x * b as real;
    assert (b * n) as real == b as real * n as real;
    var bb := b as real;
    var d := n as real - x;
    assert (b * n - s) as real == bb * d;
    assert (s - b * n) as real == bb * -d;
    ProductNonNegative(bb, 0.5 - d);
    ProductNonNegative(bb, 0.5 + d);
  }

  lemma {:induction false} ProductNonNegative(a: real, b: real)
    requires a >= 0.0 && b >= 0.0
    ensures a * b >= 0.0
  {
  }

  /** `list(islice(cycle(p), n))`: the first n entries of p repeated. */
  function Cycle(p: seq<int>, n: nat): (r: seq<int>)
    requires |p| > 0
    ensures |r| == n
    decreases n
  {
    if n <= |p| then p[..n] else p + Cycle(p, n - |p|)
  }

  /** Entry i of the cycled progression is entry i mod |p| of p. */
  lemma {:induction false} CycleAt(p: seq<int>, n: nat, i: int)
    requires |p| > 0 && 0 <= i < n
    ensures Cycle(p, n)[i] == p[i % |p|]
    decreases n
  {
    var m := |p|;
    if n > m && i >= m {
      assert Cycle(p, n)[i] == Cycle(p, n - m)[i - m];
      CycleAt(p, n - m, i - m);
      ModShift(i - m, m);
    } else {
      assert Cycle(p, n)[i] == p[i];
      ModUnique(i, m, 0, i);
    }
  }

  /** `get_progression`: the named progression cycled to the given length.
      A negative length is the ValueError islice raises. */
  function GetProgression(name: string, length: int): (r: Result<seq<int>>)
    ensures r.Ok? <==> Lookup(name).Ok? && length >= 0
    ensures Lookup(name).Err? ==> r == Err(KeyError)
    ensures Lookup(name).Ok? && length < 0 ==> r == Err(ValueError)
  {
    match Lookup(name)
    case Err(e) => Err(e)
    case Ok(p) =>
      ProgressionsAreDegrees(name);
      if length < 0 then Err(ValueError) else Ok(Cycle(p, length))
  }

  /** The progression has exactly the requested length, entry i is entry
      i mod |p| of the named progression, and every entry is a degree. */
  lemma {:induction false} GetProgressionCycles(name: string, length: int, i: int)
    requires GetProgression(name, length).Ok?
    requires 0 <= i < length
    ensures |Lookup(name).value| > 0
    ensures var p := Lookup(name).value;
            var r := GetProgression(name, length).value;
            && |r| == length
            && r[i] == p[i % |p|]
            && 0 <= r[i] <= 6
  {
    var p := Lookup(name).value;
    ProgressionsAreDegrees(name);
    CycleAt(p, length, i);
  }
}
