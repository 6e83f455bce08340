/** Thrown values and the text the dispatcher's `catch` block makes of them,
    plus the fixed messages the router produces. */
module Faults {

  /** A value thrown by JavaScript code (or a rejection reason):
      - a bare string;
      - an `Error`-like object with a `name` and a `message`, converted by
        `Error.prototype.toString`;
      - any other non-nullish value, such as a number, a plain object or an
        error with its own `toString`, with the text that `toString()`
        returns (`"42"`, `"[object Object]"`);
      - a non-nullish value whose `toString` is missing, not a function, or
        throws, with what calling it throws (for `Object.create(null)`, the
        `TypeError` that `err.toString` is not a function);
      - `undefined` / `null`, as from `throw null` or `Promise.reject()`. */
  datatype Thrown =
    | ThrownString(text: string)
    | ThrownError(name: string, message: string)
    | ThrownOther(text: string)
    | ThrownUnconvertible(failure: Thrown)
    | ThrownNullish(isNull: bool)

  /** `err.toString()` can be evaluated: the value is neither `undefined`
      nor `null`, and its `toString` is a function that returns. */
  predicate Convertible(e: Thrown)
  {
    !e.ThrownNullish? && !e.ThrownUnconvertible?
  }

  /** `Error.prototype.toString` (section 20.5.3.4 of ECMA-262): the name and
      the message joined by ": ", either alone when the other is empty. */
  function ErrorToString(name: string, message: string): string
  {
    if name == "" then message
    else if message == "" then name
    else name + ": " + message
  }

  /** `typeof err === 'string' ? err : err.toString()`: the message the
      dispatcher wraps into a `ResultFault` for a caught exception. */
  function FaultMessage(e: Thrown): (m: string)
    requires Convertible(e)
    ensures e.ThrownString? ==> m == e.text
    ensures e.ThrownOther? ==> m == e.text
    ensures e.ThrownError? ==> e.name <= m && |e.message| <= |m| && e.message == m[|m| - |e.message|..]
    ensures e.ThrownError? && e.name != "" && e.message != "" ==> |m| == |e.name| + 2 + |e.message|
  {
    match e
    case ThrownString(s) => s
    case ThrownError(n, msg) => ErrorToString(n, msg)
    case ThrownOther(text) => text
  }

  /** What `err.toString()` throws when `err` cannot be converted: for
      `undefined` or `null`, the `TypeError` of reading `toString` from it;
      otherwise what the missing or failing `toString` throws. */
  function ToStringFailure(e: Thrown): (r: Thrown)
    requires !Convertible(e)
    ensures e.ThrownNullish? ==> r.ThrownError? && r.name == "TypeError" && Convertible(r)
    ensures e.ThrownNullish? ==> r == if e.isNull then ReadOfNull("toString") else ReadOfUndefined("toString")
    ensures e.ThrownUnconvertible? ==> r == e.failure
  {
    match e
    case ThrownNullish(isNull) => if isNull then ReadOfNull("toString") else ReadOfUndefined("toString")
    case ThrownUnconvertible(failure) => failure
  }

  /** `new Error(message)`. */
  function PlainError(message: string): Thrown
  {
    ThrownError("Error", message)
  }

  /** The `TypeError` V8 raises for an expression that is called but is not a
      function, naming the expression as written. */
  function NotAFunction(expression: string): Thrown
  {
    ThrownError("TypeError", expression + " is not a function")
  }

  /** The `TypeError` V8 raises for `new X(...)` when `X` is not a constructor. */
  function NotAConstructor(expression: string): Thrown
  {
    ThrownError("TypeError", expression + " is not a constructor")
  }

  /** The `TypeError` V8 (Node 16.9 and later) raises when a property is
      read from `undefined`. */
  function ReadOfUndefined(property: string): Thrown
  {
    ThrownError("TypeError", "Cannot read properties of undefined (reading '" + property + "')")
  }

  /** The `TypeError` V8 (Node 16.9 and later) raises when a property is
      read from `null`. */
  function ReadOfNull(property: string): Thrown
  {
    ThrownError("TypeError", "Cannot read properties of null (reading '" + property + "')")
  }

  /** Message of the body set when token support is on and the request
      carries no `access_token`. */
  const MissingTokenMessage: string := "缺少access_token参数"

  /** Message of the `n`-th "requested object does not exist" error of
      controller resolution. */
  function NotFoundMessage(n: char): string
  {
    "参数错误，请求的对象不存在(" + [n] + ")"
  }

  /** The three not-found messages differ from each other only in their
      cause number, so a caller can tell them apart. */
  lemma NotFoundMessagesDistinct(a: char, b: char)
    requires a != b
    ensures NotFoundMessage(a) != NotFoundMessage(b)
  {
    var pre := "参数错误，请求的对象不存在(";
    assert NotFoundMessage(a)[|pre|] == a;
    assert NotFoundMessage(b)[|pre|] == b;
  }

  /** The text a caught `TypeError` leaves: `TypeError: ` and its message. */
  lemma TypeErrorText(e: Thrown)
    requires e.ThrownError? && e.name == "TypeError" && e.message != ""
    ensures FaultMessage(e) == "TypeError: " + e.message
  {
  }

  /** The text a caught resolution error leaves: `Error: ` and the message. */
  lemma NotFoundText(n: char)
    ensures FaultMessage(PlainError(NotFoundMessage(n))) == "Error: " + NotFoundMessage(n)
  {
  }
}
