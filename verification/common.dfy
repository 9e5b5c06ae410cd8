/** Values shared by the scheduler, camera, merger and cube modules: the
    exceptions the pipeline can raise, Python's integer rounding, list sums and
    numpy's one-axis flip. */
module Common {

  /** The Python exceptions the modelled code can raise. */
  datatype Error =
    | ZeroDivision      // ZeroDivisionError: a division or modulo by zero
    | IndexOutOfRange   // IndexError: a list or array index past either end
    | EmptyMax          // ValueError: max() of an empty sequence
    | PixelMismatch     // Exception("dx is not equal to dy")
    | ShapeMismatch     // ValueError from np.append: dimensions off the append axis differ
    | UnusedArgs        // Exception("There is unused args :", kwargs)

  datatype Result<T> = Ok(value: T) | Err(error: Error)

  /** An operation that returns nothing but may raise. */
  datatype Outcome = Pass | Fail(error: Error)

  /** A 3-D numpy array as nested sequences (outermost index first). */
  type Cube3 = seq<seq<seq<real>>>

  /** Python's sum() of a list of ints, folded from the left. */
  function Sum(s: seq<int>): int
  {
    if s == [] then 0 else Sum(s[..|s| - 1]) + s[|s| - 1]
  }

  lemma SumSnoc(s: seq<int>, x: int)
    ensures Sum(s + [x]) == Sum(s) + x
  {
    assert (s + [x])[..|s|] == s;
  }

  /** int(round(x)) under Python 2, the interpreter the source targets: the
      nearest integer, a tie going away from zero. */
  function PyRound(x: real): (r: int)
    ensures r as real - 0.5 <= x <= r as real + 0.5
    ensures x == r as real - 0.5 ==> x > 0.0
    ensures x == r as real + 0.5 ==> x < 0.0
  {
    if x >= 0.0 then (x + 0.5).Floor
    else -((-x + 0.5).Floor)
  }

  /** An integer value reads back unchanged through round(). */
  lemma PyRoundOfInt(n: int)
    ensures PyRound(n as real) == n
  {
  }

  /** np.flip of a 1-D array, or of an array along its first axis. */
  function Reverse<T>(s: seq<T>): seq<T>
  {
    seq(|s|, i requires 0 <= i < |s| => s[|s| - 1 - i])
  }
}
