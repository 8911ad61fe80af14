/**
 * Requests and responses as values. A response is what the transport hands
 * back: a status code and the decoded JSON body. A request is what an
 * operation hands to the transport.
 */
module Http {
  import opened Wrappers
  import opened JsonValue

  datatype Verb = Get | Post | Delete
  {
    /** The method name as it appears in a signed request content string. */
    function Name(): string
    {
      match this
      case Get => "GET"
      case Post => "POST"
      case Delete => "DELETE"
    }
  }

  /**
   * One HTTP request: method, full URL, the serialised body if any, and the
   * cookies attached to it (none for the password session, whose cookie jar
   * lives inside the transport's session object).
   */
  datatype Request = Request(verb: Verb, url: string, body: Option<string>, cookies: map<string, string>)

  datatype Response = Response(status: int, body: Json)

  /** `response.raise_for_status()` raises exactly for client and server errors. */
  predicate IsError(status: int)
  {
    400 <= status < 600
  }

  /** `response.ok` is true exactly when `raise_for_status()` would not raise. */
  predicate IsOk(status: int)
  {
    !IsError(status)
  }

  /** Why an operation raised instead of returning. */
  datatype Fault =
    | HttpError(status: int)   // raised by raise_for_status
    | Malformed                // KeyError, IndexError or TypeError reading the body
    | NoSession                // the session attribute is None or False (AttributeError)

  /** What a Python call does: return a value or raise. */
  datatype Outcome<+T> = Returned(value: T) | Raised(error: Fault)
}
