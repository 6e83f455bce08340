/** Small shared vocabulary: optional values, results with an error side, and
    occurrence counting over sequences. */
module Base {

  /** A value that may be absent (JavaScript `undefined`). */
  datatype Option<+T> = None | Some(value: T)

  /** The outcome of an operation that either yields a value or fails with a
      described error. */
  datatype Result<+T, +E> = Ok(value: T) | Err(error: E)

  /** Number of occurrences of `x` in `s`. */
  function Count<T(==)>(x: T, s: seq<T>): nat
  {
    if |s| == 0 then 0
    else (if s[0] == x then 1 else 0) + Count(x, s[1..])
  }

  /** An element occurs in a sequence exactly when it is counted there. */
  lemma {:induction false} CountPositive<T>(x: T, s: seq<T>)
    ensures Count(x, s) > 0 <==> x in s
  {
    if |s| > 0 {
      CountPositive(x, s[1..]);
      assert s == [s[0]] + s[1..];
    }
  }

  /** Regrouping a chain of concatenations. */
  lemma AppendAssoc<T>(a: seq<T>, b: seq<T>, c: seq<T>, d: seq<T>, e: seq<T>)
    ensures a + b + c + d + e == a + (b + c + d + e)
  {
  }
}
