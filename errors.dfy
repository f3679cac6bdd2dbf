/**
 * Every exception the poll cycle can raise, as one tagged variant. The three
 * exception classes of homework.py (`ResponseErrorException`,
 * `StatusCodeErrorException`, `TokenErrorException`) and the built-in
 * `ConnectionError`, `TypeError`, `ValueError` and `KeyError` it raises or
 * lets through each become one or more constructors.
 */
module Errors {
  import opened Wrappers
  import opened JsonValue
  import opened Messages

  /** Where Python itself raises a `TypeError` on a value of the wrong type. */
  datatype TypeErrorSite =
    | MembershipTest   // `key in x` with `x` a number, a bool or None
    | StringIndex      // `x[key]` with `x` a list or a str
    | Subscript        // `homework['status']` with `homework` not a dict
    | Unhashable       // `status in VERDICTS` with `status` a list or a dict

  datatype Error =
    | ConnectionFailure(cause: string)       // `ConnectionError` from a failed request
    | StatusCodeFailure(statusCode: int)     // `StatusCodeErrorException`
    | BodyNotJson(cause: string)             // `response.json()` could not decode the body
    | SoftError(key: string, value: Json)    // `ResponseErrorException` naming `error` or `code`
    | BuiltinTypeError(site: TypeErrorSite)
    | NotDict                                // `TypeError(NOT_DICT_RESPONSE)`
    | HomeworksMissing                       // `ValueError(HOMEWORK_NOT_IN_RESPONSE)`
    | HomeworksNotList                       // `TypeError(HOMEWORK_IS_NOT_LIST)`
    | StatusKeyMissing                       // `KeyError('status')`
    | NameKeyMissing                         // `KeyError(HOMEWORK_NAME_NOT_FOUND)`
    | UnknownStatus(status: Json)            // `ValueError(UNKNOWN_STATUS_ERROR)`
    | SendFailure(cause: string)             // `bot.send_message` raised
    | TokenError                             // `TokenErrorException(TOKEN_ERROR)`

  /**
   * `str(error)` where its text is fixed by homework.py or handed over by the
   * failing library as `cause`. `None` where Python renders it from the request,
   * the headers, the payload or its own built-in messages.
   */
  function ErrorText(e: Error): (r: Option<string>)
    ensures e.UnknownStatus? && Hashable(e.status) ==>
      r.Some? && UNKNOWN_STATUS_PREFIX <= r.value
    ensures r.None? <==>
      e.ConnectionFailure? || e.StatusCodeFailure? || e.SoftError? || e.BuiltinTypeError?
      || (e.UnknownStatus? && !Hashable(e.status))
  {
    match e
    case ConnectionFailure(_) => None
    case StatusCodeFailure(_) => None
    case BodyNotJson(cause) => Some(cause)
    case SoftError(_, _) => None
    case BuiltinTypeError(_) => None
    case NotDict => Some(NOT_DICT_RESPONSE)
    case HomeworksMissing => Some(HOMEWORK_NOT_IN_RESPONSE)
    case HomeworksNotList => Some(HOMEWORK_IS_NOT_LIST)
    // `str()` of a `KeyError` is the `repr` of its argument, hence the quotes
    case StatusKeyMissing => Some("'status'")
    case NameKeyMissing => Some("'" + HOMEWORK_NAME_NOT_FOUND + "'")
    case UnknownStatus(status) =>
      (match Str(status)
       case Some(t) => Some(UNKNOWN_STATUS_PREFIX + t)
       case None => None)
    case SendFailure(cause) => Some(cause)
    case TokenError => Some(TOKEN_ERROR)
  }
}
