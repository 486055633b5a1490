/** The few JavaScript runtime notions the quiz client and the proxies rely on:
    absent values, thrown errors and `String.prototype.includes`. */
module JsRuntime {

  /** A value that may be `null`/`undefined`. */
  datatype Option<+T> = None | Some(value: T)

  /** A JavaScript error value: its `message` property (absent when the thrown
      value has none) and the text `toString()` produces for it. */
  datatype JsError = JsError(message: Option<string>, shown: string)

  /** The outcome of an expression or promise that either yields a value or throws. */
  datatype Throws<+T> = Returned(value: T) | Thrown(error: JsError)

  /** `new Error(msg)`: the message is kept and `toString()` prefixes it with "Error: ". */
  function ErrorOf(msg: string): (e: JsError)
    ensures e.message == Some(msg)
    ensures |e.shown| == |msg| + 7 && e.shown[7..] == msg
  {
    JsError(Some(msg), "Error: " + msg)
  }

  /** `sub` occurs in `s` starting at position `i`. */
  predicate OccursAt(s: string, sub: string, i: nat)
  {
    i + |sub| <= |s| && s[i..i + |sub|] == sub
  }

  /** `s.includes(sub)`: `sub` occurs in `s` at some position. */
  predicate Contains(s: string, sub: string)
  {
    exists i: nat :: i <= |s| && OccursAt(s, sub, i)
  }

  /** A non-empty `sub` whose first character does not occur in `s` is not in `s`. */
  lemma NotContainedWithoutHead(s: string, sub: string)
    requires |sub| > 0 && sub[0] !in s
    ensures !Contains(s, sub)
  {
  }
}
