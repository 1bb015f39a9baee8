/** Values shared by every module of the model: the Python exceptions the
    core can raise, a Result type for operations that raise them, 2D points,
    and Python's integer conversions of numbers. */
module Common {

  /** The Python exceptions raised by the modelled code. `SystemExit` is the
      `exit(0)` of the ASCII converters. */
  datatype Error =
    | ValueError
    | TypeError
    | KeyError
    | IndexError
    | AttributeError
    | ZeroDivisionError
    | NotImplementedError
    | SystemExit

  /** Either the value an operation returns or the exception it raises. */
  datatype Result<+T> = Success(value: T) | Failure(error: Error) {
    predicate IsFailure() {
      Failure?
    }

    function PropagateFailure<U>(): Result<U>
      requires Failure?
    {
      Failure(error)
    }

    function Extract(): T
      requires Success?
    {
      value
    }
  }

  /** A 2D coordinate; Python passes these as 2-tuples of floats. */
  datatype Point = Point(x: real, y: real)

  function Max(a: int, b: int): (m: int)
    ensures m >= a && m >= b && (m == a || m == b)
  {
    if a >= b then a else b
  }

  function Min(a: int, b: int): (m: int)
    ensures m <= a && m <= b && (m == a || m == b)
  {
    if a <= b then a else b
  }

  function Abs(x: real): (r: real)
    ensures r >= 0.0 && (r == x || r == -x)
  {
    if x >= 0.0 then x else -x
  }

  /** Python's `int(x)` of a float: truncation toward zero. */
  function Trunc(x: real): (r: int)
    ensures x >= 0.0 ==> r >= 0 && r as real <= x < r as real + 1.0
    ensures x < 0.0 ==> r <= 0 && r as real - 1.0 < x <= r as real
  {
    if x >= 0.0 then x.Floor else -((-x).Floor)
  }

  /** Python's slice `s[i:j]` for non-negative bounds: both ends are clamped
      to the length, and an inverted range is empty. */
  function Slice<T>(s: seq<T>, i: nat, j: nat): (t: seq<T>)
    ensures i <= j <= |s| ==> t == s[i..j]
    ensures |s| <= i ==> t == []
    ensures i <= |s| <= j ==> t == s[i..]
  {
    var lo := if i <= |s| then i else |s|;
    var hi := if j <= |s| then j else |s|;
    if lo <= hi then s[lo..hi] else []
  }
}
