/** What the HTTP routes share: the errors they answer with, a route's
    answer together with the effects it caused, and the check applied to
    `uploadId` path parameters. */
module Routes {
  import opened Wrappers
  import opened Errors
  import opened Sessions
  import opened Ledger

  /** What the routes answer with instead of a value. */
  datatype RouteError =
    | Http(statusCode: int, message: string)   // an HTTP error the route raises itself
    | Passed(failure: Failure)                 // the orchestrator's error, let through unchanged
    | InvalidInput                             // the request fails its schema

  /** The status code the client receives, when the error carries one. */
  function HttpStatus(e: RouteError): Option<int> {
    match e
    case Http(code, _) => Some(code)
    case Passed(f) => StatusCode(f)
    case InvalidInput => None
  }

  /** A route's answer together with the effects it caused. */
  datatype Handled<T> = Handled(effects: seq<Effect>, writes: map<UploadId, Session>, result: Result<T, RouteError>)

  // ---------------------------------------------------------------------
  // the `uploadId` path parameter

  predicate IsHexDigit(c: char) {
    '0' <= c <= '9' || 'a' <= c <= 'f' || 'A' <= c <= 'F'
  }

  predicate AllHex(s: string) {
    forall i :: 0 <= i < |s| ==> IsHexDigit(s[i])
  }

  /** The textual UUID form: groups of 8, 4, 4, 4 and 12 hexadecimal digits
      joined by `-`, in either case. */
  predicate IsUuid(s: string) {
    && |s| == 36
    && s[8] == '-' && s[13] == '-' && s[18] == '-' && s[23] == '-'
    && AllHex(s[..8]) && AllHex(s[9..13]) && AllHex(s[14..18]) && AllHex(s[19..23]) && AllHex(s[24..])
  }

  /** A UUID is exactly five hex groups of the right lengths joined by
      dashes. */
  lemma UuidIffGroups(a: string, b: string, c: string, d: string, e: string)
    requires |a| == 8 && |b| == 4 && |c| == 4 && |d| == 4 && |e| == 12
    ensures IsUuid(a + "-" + b + "-" + c + "-" + d + "-" + e) <==> AllHex(a) && AllHex(b) && AllHex(c) && AllHex(d) && AllHex(e)
  {
    var s := a + "-" + b + "-" + c + "-" + d + "-" + e;
    assert s[..8] == a && s[9..13] == b && s[14..18] == c && s[19..23] == d && s[24..] == e;
  }
}
