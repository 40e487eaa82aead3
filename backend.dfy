/**
 * What the Express routes share: the caller that the authentication
 * middleware puts in `req.user`, and the shape of a route's answer.
 */
module Backend {
  import opened Common

  /** `req.user`: the decoded token of the caller. The role is the token's string. */
  datatype Caller = Caller(id: string, name: string, role: string, shopId: Option<string>)

  /**
   * A route's answer: a served body with its status code and optional
   * message, the 400 that lists the validator's errors, or a refusal with
   * its status code and `message`.
   */
  datatype Reply<T> =
    | Served(status: int, message: Option<string>, value: Option<T>)
    | Invalid
    | Refused(status: int, reason: string)
  {
    function Code(): int
    {
      match this
      case Served(s, _, _) => s
      case Invalid => 400
      case Refused(s, _) => s
    }
  }
}
