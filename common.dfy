/**
 * Small value types shared by the page models: an optional value (JavaScript's
 * `null`), a router navigation, and the outcome of an API call as seen by a
 * page handler.
 */
module Common {

  /** `None` stands for JavaScript's `null` / `undefined`. */
  datatype Option<+T> = None | Some(value: T)

  /** A call to react-router's `navigate(path, { replace })`. */
  datatype Navigation = Navigation(path: string, replace: bool)

  /**
   * What a page handler sees of an awaited API call: either the call resolved
   * and the response body carries a `success` flag (absent counts as false),
   * or the call threw and the error may carry the server's `message`.
   */
  datatype ApiReply = Answered(success: bool) | Threw(message: Option<string>)

  /** Whether an awaited call came back with `res.data.success` set. */
  predicate Succeeded(reply: ApiReply)
  {
    reply.Answered? && reply.success
  }

  /** JavaScript truthiness of a string-or-null value. */
  predicate Truthy(s: Option<string>)
  {
    s.Some? && s.value != ""
  }
}
