/**
 * The request filters of internal/api/middleware.go: which requests skip
 * logging, and the basic-auth gate in front of internal endpoints.
 */
module ApiMiddleware {
  import opened Optional
  import opened GoLib

  const HealthCheck: string := "health-check"
  const StatusUnauthorized: int := 401

  /** skipLoggingFunc: the request URI contains "health-check" somewhere. */
  function SkipLogging(requestUri: string): (skip: bool)
    ensures skip <==> exists i :: OccursAt(requestUri, HealthCheck, i)
  {
    ContainsIffOccurs(requestUri, HealthCheck);
    Contains(requestUri, HealthCheck)
  }

  lemma SkipLoggingExamples()
    ensures SkipLogging("/v1/health-check") && SkipLogging("/health-check?full=1")
    ensures !SkipLogging("/v1/health") && !SkipLogging("")
  {
    assert OccursAt("/v1/health-check", HealthCheck, 4);
    assert OccursAt("/health-check?full=1", HealthCheck, 1);
    assert !SkipLogging("/v1/health") by {
      assert forall i :: !OccursAt("/v1/health", HealthCheck, i);
    }
  }

  /** The credentials of a request's Authorization header; None when BasicAuth reports !ok. */
  datatype BasicAuth = BasicAuth(user: string, pass: string)

  /**
   * subtle.ConstantTimeCompare on the two byte strings: 1 when they are
   * equal, else 0. UTF-8 encoding is one-to-one, so comparing the encodings
   * of two strings is comparing the strings.
   */
  function ConstantTimeCompare(x: string, y: string): (r: int)
    ensures r == 1 <==> x == y
    ensures r == 0 || r == 1
  {
    if |x| != |y| then 0 else if x == y then 1 else 0
  }

  /** The authorization decision of the IPC middleware. */
  predicate IsUnauthorized(auth: Option<BasicAuth>, username: string, password: string) {
    auth.None?
    || ConstantTimeCompare(auth.value.user, username) != 1
    || ConstantTimeCompare(auth.value.pass, password) != 1
  }

  /** A request is let through exactly when it carries basic auth with the configured user and password. */
  lemma AuthorizedIff(auth: Option<BasicAuth>, username: string, password: string)
    ensures !IsUnauthorized(auth, username, password) <==> auth == Some(BasicAuth(username, password))
  {
  }

  /** One response written through the Echo context: its status and its JSON body (None is `nil`). */
  datatype Response = Response(status: int, body: Option<string>)

  /** The request's echo.Context as far as the middleware uses it: c.JSON, with the error writing returns. */
  class Context {
    ghost var responses: seq<Response>
    const writeFailure: Option<string>

    constructor (writeFailure: Option<string>)
      ensures this.writeFailure == writeFailure && responses == []
    {
      this.writeFailure := writeFailure;
      responses := [];
    }

    method JSON(status: int, body: Option<string>) returns (err: Option<string>)
      modifies this`responses
      ensures responses == old(responses) + [Response(status, body)] && err == writeFailure
    {
      responses := responses + [Response(status, body)];
      err := writeFailure;
    }
  }

  /** The wrapped handler, counting how often it is invoked. */
  class NextHandler {
    ghost var invocations: nat
    const result: Option<string>

    constructor (result: Option<string>)
      ensures this.result == result && invocations == 0
    {
      this.result := result;
      invocations := 0;
    }

    method Invoke() returns (err: Option<string>)
      modifies this`invocations
      ensures invocations == old(invocations) + 1 && err == result
    {
      invocations := invocations + 1;
      err := result;
    }
  }

  /**
   * The handler makeIPCMiddleware builds: an unauthorized request gets one
   * 401 response with a nil body, the handler returns the error of writing
   * it, and `next` is not invoked; an authorized one writes nothing itself,
   * invokes `next` once and returns what it returns.
   */
  method IPCMiddleware(username: string, password: string, next: NextHandler, c: Context, auth: Option<BasicAuth>)
    returns (err: Option<string>)
    modifies next`invocations, c`responses
    ensures IsUnauthorized(auth, username, password) ==>
      c.responses == old(c.responses) + [Response(StatusUnauthorized, None)] && err == c.writeFailure
      && next.invocations == old(next.invocations)
    ensures !IsUnauthorized(auth, username, password) ==>
      c.responses == old(c.responses) && err == next.result && next.invocations == old(next.invocations) + 1
  {
    var isUnAuthorized := auth.None?
      || ConstantTimeCompare(auth.value.user, username) != 1
      || ConstantTimeCompare(auth.value.pass, password) != 1;
    if isUnAuthorized {
      err := c.JSON(StatusUnauthorized, None);
      return;
    }
    err := next.Invoke();
  }
}
