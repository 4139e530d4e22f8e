/** The few pieces of Python semantics the core relies on: the exceptions it
    can raise, sequence indexing with negative indices, int() of a float,
    round() of a float, str.startswith and list.index. */
module Builtins {

  /** The exceptions the modelled code can raise. */
  datatype Error = KeyError | IndexError | ValueError | TypeError | ZeroDivisionError | AttributeError | MidiNotAvailable

  datatype Option<T> = None | Some(value: T)

  /** A value or the exception that replaced it. */
  datatype Result<T> = Ok(value: T) | Err(error: Error)

  /** Python's `s[i]`: an index in -|s|..|s|-1 counts from the end when
      negative; anything else raises IndexError. */
  function At<T>(s: seq<T>, i: int): (r: Result<T>)
    ensures r.Ok? <==> -|s| <= i < |s|
    ensures 0 <= i < |s| ==> r == Ok(s[i])
    ensures -|s| <= i < 0 ==> r == Ok(s[|s| + i])
    ensures r.Err? ==> r.error == IndexError
  {
    if 0 <= i < |s| then Ok(s[i])
    else if -|s| <= i < 0 then Ok(s[|s| + i])
    else Err(IndexError)
  }

  /** Python's int() of a float: truncation toward zero. */
  function Trunc(x: real): (r: int)
    ensures x >= 0.0 ==> r as real <= x < r as real + 1.0
    ensures x < 0.0 ==> r as real - 1.0 < x <= r as real
  {
    if x >= 0.0 then x.Floor else -((-x).Floor)
  }

  /** Python's round() of a float with no digits argument: the nearest
      integer, halves going to the even neighbour. */
  function RoundHalfEven(x: real): (r: int)
    ensures (r as real - x) <= 0.5 && (x - r as real) <= 0.5
    ensures x - x.Floor as real == 0.5 ==> r % 2 == 0
    ensures x - x.Floor as real != 0.5 ==> (r as real - x) < 0.5 && (x - r as real) < 0.5
  {
    var f := x.Floor;
    var d := x - f as real;
    if d < 0.5 then f
    else if d > 0.5 then f + 1
    else if f % 2 == 0 then f
    else f + 1
  }

  /** `s.startswith(p)`. */
  predicate StartsWith(s: string, p: string) {
    |p| <= |s| && s[..|p|] == p
  }

  /** `s.index(x)`: the first position of x, or ValueError. */
  function IndexOf<T(==)>(s: seq<T>, x: T): (r: Result<nat>)
    ensures r.Ok? <==> x in s
    ensures r.Ok? ==> r.value < |s| && s[r.value] == x
    ensures r.Err? ==> r.error == ValueError
  {
    if s == [] then Err(ValueError)
    else if s[0] == x then Ok(0)
    else match IndexOf(s[1..], x)
      case Ok(k) => Ok(k + 1)
      case Err(e) => Err(e)
  }

  /** In a list without repeats, `index` finds each element where it is. */
  lemma {:induction false} IndexOfDistinct<T>(s: seq<T>, i: int)
    requires forall j, k :: 0 <= j < k < |s| ==> s[j] != s[k]
    requires 0 <= i < |s|
    ensures IndexOf(s, s[i]) == Ok(i)
  {
    if i > 0 {
      assert s[0] != s[i];
      assert s[1..][i - 1] == s[i];
      IndexOfDistinct(s[1..], i - 1);
    }
  }

  lemma {:induction false} MulMono(k: int, b: int)
    requires k >= 1 && b > 0
    ensures k * b >= b
  {
    var j := k - 1;
    assert k * b == j * b + b;
  }

  /** Quotient and remainder are unique: `x == q * b + r` with `0 <= r < b`
      fixes both `x % b` and `x / b`, which floor for a positive divisor
      as Python's do. */
  lemma {:induction false} ModUnique(x: int, b: int, q: int, r: int)
    requires b > 0 && 0 <= r < b && x == q * b + r
    ensures x % b == r && x / b == q
  {
    var q' := x / b;
    var r' := x % b;
    assert x == q' * b + r';
    assert (q - q') * b == r' - r;
    if q - q' >= 1 {
      MulMono(q - q', b);
    } else if q' - q >= 1 {
      MulMono(q' - q, b);
    }
  }

  /** Adding the divisor does not change the remainder. */
  lemma {:induction false} ModShift(a: int, b: int)
    requires b > 0
    ensures (a + b) % b == a % b
  {
    var q := a / b;
    var r := a % b;
    assert a == q * b + r;
    assert a + b == (q + 1) * b + r;
    ModUnique(a + b, b, q + 1, r);
  }

  lemma {:induction false} MultipleMod(b: int, n: int)
    requires b > 0
    ensures (b * n) % b == 0
  {
    ModUnique(b * n, b, n, 0);
  }
}
