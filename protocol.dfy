/**
 * The logger's side of the two HTTP exchanges with the ingest service: the requests it
 * issues and the outcomes it can observe. Transport, JSON and headers other than
 * Authorization are not modelled.
 */
module Protocol {
  import opened Wrappers
  import opened Entries

  const UNAUTHORIZED := 401

  /** Body of a POST to the auth endpoint. */
  datatype AuthRequest = AuthRequest(packageName: string, password: string, isNewAccount: bool)

  /** A POST to the log endpoint: its Authorization header and the batch it carries. */
  datatype Submission<M> = Submission(authorization: string, logs: seq<LogEntry<M>>)

  /** The request (if any) a step hands to the network. */
  datatype Output<M> = NoRequest | Authenticate(request: AuthRequest) | Submit(submission: Submission<M>)

  /**
   * How an auth request ends: a response with a status (and, when the status is ok, the
   * token read from its body), or a fault (network error or unreadable body).
   */
  datatype AuthOutcome = AuthReply(status: int, token: string) | AuthFault

  /** How a submission ends: a response with a status, or a network fault. */
  datatype DeliveryOutcome = DeliveryReply(status: int) | DeliveryFault

  /** A fetch response is ok exactly for statuses 200 to 299. */
  predicate IsOk(status: int) {
    200 <= status <= 299
  }

  /**
   * The Authorization header is always sent: the token interpolated after "Bearer ",
   * and the word "null" when no token is held.
   */
  function AuthorizationHeader(token: Option<string>): (h: string)
    ensures |h| >= 7 && h[..7] == "Bearer "
    ensures token.Some? ==> h[7..] == token.value
    ensures token.None? ==> h == "Bearer null"
  {
    "Bearer " + (if token.Some? then token.value else "null")
  }

  /** The token a header carries, read back. */
  function BearerValue(h: string): string
    requires |h| >= 7
  {
    h[7..]
  }

  /**
   * Reading the header back recovers a held token, but the header of an anonymous
   * submission is indistinguishable from one carrying the token "null".
   */
  lemma HeaderRoundTrip(token: Option<string>)
    ensures token.Some? ==> BearerValue(AuthorizationHeader(token)) == token.value
    ensures AuthorizationHeader(None) == AuthorizationHeader(Some("null"))
  {
  }
}
