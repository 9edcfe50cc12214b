/**
 * Values that may be absent, and the outcome of a call to the
 * text-completion backend. A JSON field that is missing, `null` or
 * otherwise falsy is `None` wherever the source replaces it with a default
 * via `x || d`.
 */
module Common {

  datatype Option<T> = None | Some(value: T) {

    /** The value, or the given default when absent. */
    function GetOr(default: T): T {
      match this
      case Some(v) => v
      case None => default
    }
  }

  /**
   * One call to the text-completion backend: switched off (no API key or no
   * model), a call that threw, or the text of its reply.
   */
  datatype Reply = Disabled | Failed | Replied(text: string)

  /**
   * JavaScript's `x || d` on a number field: a missing field and a present
   * zero are both falsy, so both give the default.
   */
  function NumberOr(x: Option<real>, default: real): (r: real)
    ensures x.Some? && x.value != 0.0 ==> r == x.value
    ensures x.None? || x.value == 0.0 ==> r == default
  {
    if x.Some? && x.value != 0.0 then x.value else default
  }

  /** JavaScript's `s || d` on a string field: the empty string is falsy. */
  function StringOr(x: Option<string>, default: string): (r: string)
    ensures x.Some? && x.value != "" ==> r == x.value
    ensures x.None? || x.value == "" ==> r == default
  {
    if x.Some? && x.value != "" then x.value else default
  }
}
