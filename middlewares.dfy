/** `server/src/api/middlewares.py`: the authorization decision of
    `auth_middleware` and the exception-to-error mapping of
    `error_middleware`. */
module Middlewares {
  import opened Py

  /** `UnauthorizedEndpoints.ROUTES` */
  const ROUTES: seq<string> := ["ping/", "ping", "login/", "login", "register/", "register"]

  predicate EndsWith(s: string, suffix: string) {
    |suffix| <= |s| && s[|s| - |suffix|..] == suffix
  }

  /** A request needs authorization unless its path ends with one of the routes. */
  predicate RequiresAuthorization(path: string, routes: seq<string>) {
    !exists i :: 0 <= i < |routes| && EndsWith(path, routes[i])
  }

  /** The whitelist loop: scans the routes until one is a suffix of the path. */
  method AuthorizationRequired(path: string, routes: seq<string>) returns (required: bool)
    ensures !required <==> exists i :: 0 <= i < |routes| && EndsWith(path, routes[i])
  {
    required := true;
    var i := 0;
    while i < |routes|
      invariant 0 <= i <= |routes|
      invariant required && forall j :: 0 <= j < i ==> !EndsWith(path, routes[j])
    {
      if EndsWith(path, routes[i]) {
        required := false;
        break;
      }
      i := i + 1;
    }
  }

  /** The match is on the end of the path, not on the whole path: the login
      route, with or without its trailing slash, is open, and so is any other
      path that merely ends in `login`; a path with the route elsewhere in it
      is not. */
  lemma WhitelistIsSuffixMatch()
    ensures !RequiresAuthorization("/api/v1/login", ROUTES)
    ensures !RequiresAuthorization("/api/v1/login/", ROUTES)
    ensures !RequiresAuthorization("/api/v1/articles/relogin", ROUTES)
    ensures RequiresAuthorization("/api/v1/login/history", ROUTES)
  {
    assert EndsWith("/api/v1/login", ROUTES[3]);
    assert EndsWith("/api/v1/login/", ROUTES[2]);
    assert EndsWith("/api/v1/articles/relogin", ROUTES[3]);
    forall i | 0 <= i < |ROUTES|
      ensures !EndsWith("/api/v1/login/history", ROUTES[i])
    {
      var p := "/api/v1/login/history";
      assert p[|p| - 1] == 'y';
      assert ROUTES[i][|ROUTES[i]| - 1] != 'y';
    }
  }

  /** A user row as the lookup returns it. */
  datatype User = User(id: nat)

  /** The token lookup inside `db_manager.master_session()`. */
  datatype Lookup = Found(user: User) | NoUser | LookupFailed(error: Exc)

  /** What the middleware does with a request. */
  datatype AuthResult =
    | Unauthorized             // returns `web.HTTPUnauthorized()`
    | CallHandler(setUser: Option<User>)   // sets `app.user` when given, then awaits the handler
    | Escapes(error: Exc)      // a lookup failure `except Exception` does not catch

  /** `middleware_handler` once the whitelist verdict is known; `lookup` maps
      a token to what the query inside the master session yields. */
  function AuthDecision(required: bool, cookies: map<string, string>, lookup: string -> Lookup): (r: AuthResult)
    ensures !required ==> r == CallHandler(None)
    ensures required && cookies == map[] ==> r == Unauthorized
    ensures required && "token" !in cookies ==> r == Unauthorized
    ensures required && "token" in cookies && lookup(cookies["token"]).LookupFailed? ==>
              var e := lookup(cookies["token"]).error;
              r == (if e.IsException() then Unauthorized else Escapes(e))
    ensures required && "token" in cookies && !lookup(cookies["token"]).LookupFailed? ==>
              r == (if lookup(cookies["token"]).Found? then CallHandler(Some(lookup(cookies["token"]).user))
                    else Unauthorized)
    ensures r.Escapes? <==>
              required && "token" in cookies && lookup(cookies["token"]).LookupFailed? &&
              !lookup(cookies["token"]).error.IsException()
  {
    if required && cookies == map[] then Unauthorized
    else if required then
      if "token" !in cookies then Unauthorized   // KeyError inside the `try`
      else match lookup(cookies["token"])   // the query's exception, or master_session's
        case Found(u) => CallHandler(Some(u))
        case NoUser => Unauthorized
        case LookupFailed(e) => if e.IsException() then Unauthorized else Escapes(e)
    else CallHandler(None)
  }

  /** The handler is reached with a user, or on a whitelisted path without
      one: only a found user or the whitelist lets a request through. */
  lemma HandlerReachedOnlyWhenAllowed(path: string, cookies: map<string, string>, lookup: string -> Lookup)
    ensures var r := AuthDecision(RequiresAuthorization(path, ROUTES), cookies, lookup);
      && (r.CallHandler? && r.setUser.None? ==> !RequiresAuthorization(path, ROUTES))
      && (r.CallHandler? && r.setUser.Some? ==>
            "token" in cookies && lookup(cookies["token"]) == Found(r.setUser.value))
  {
  }

  /** `auth_middleware` end to end. */
  method AuthMiddleware(path: string, cookies: map<string, string>, lookup: string -> Lookup) returns (r: AuthResult)
    ensures r == AuthDecision(RequiresAuthorization(path, ROUTES), cookies, lookup)
  {
    var required := AuthorizationRequired(path, ROUTES);
    r := AuthDecision(required, cookies, lookup);
  }

  /** Decimal digits of a number, as `str` writes it. */
  function Show(n: nat): (s: string)
    ensures |s| >= 1 && forall i :: 0 <= i < |s| ==> '0' <= s[i] <= '9'
    decreases n
  {
    if n < 10 then [Digit(n)] else Show(n / 10) + [Digit(n % 10)]
  }

  function Digit(d: nat): char
    requires d < 10
  {
    "0123456789"[d]
  }

  /** The value of a string of decimal digits, as `int` reads it. */
  function Parse(s: string): int
    requires forall i :: 0 <= i < |s| ==> '0' <= s[i] <= '9'
    decreases |s|
  {
    if s == [] then 0 else 10 * Parse(s[..|s| - 1]) + (s[|s| - 1] as int - '0' as int)
  }

  lemma DigitValue(d: nat)
    requires d < 10
    ensures Digit(d) as int - '0' as int == d
  {
  }

  /** `int` reads back what `str` wrote. */
  lemma {:induction false} ParseShow(n: nat)
    ensures Parse(Show(n)) == n
    decreases n
  {
    if n < 10 {
      DigitValue(n);
    } else {
      var s := Show(n);
      assert s[..|s| - 1] == Show(n / 10);
      ParseShow(n / 10);
      DigitValue(n % 10);
    }
  }

  /** `int(f"{status}2")`: the status followed by the digit 2. */
  function HttpErrorCode(status: nat): (code: int)
    ensures code == 10 * status + 2
  {
    var s := Show(status) + "2";
    assert s[..|s| - 1] == Show(status);
    ParseShow(status);
    Parse(s)
  }

  /** How the wrapped handler ended. */
  datatype HandlerOutcome =
    | Responded(response: nat)
    | RaisedApi(apiError: nat)
    | RaisedHttp(status: nat, reason: string)
    | RaisedOther(error: Exc)

  /** What `error_middleware` does: pass a response on, re-raise what it
      must not touch, or raise an API error with a code, HTTP status and
      reason. */
  datatype ErrorResult =
    | Pass(response: nat)
    | ReraiseApi(apiError: nat)
    | Propagate(error: Exc)
    | ApiError(code: int, status: nat, reason: string)

  const UNKNOWN_SERVER_ERROR_CODE: int := 5002
  const INTERNAL_SERVER_ERROR_STATUS: nat := 500
  const UNKNOWN_SERVER_ERROR_REASON: string := "Unknown server error!"

  /** `error_middleware`: an `ApiException` goes on unchanged; an HTTP
      exception becomes an API error with code status*10+2 and the same
      status and reason; any other `Exception` becomes
      `UNKNOWN_SERVER_ERROR` (5002, HTTP 500); a `BaseException` that is not
      an `Exception` is not caught. */
  function ErrorMiddleware(outcome: HandlerOutcome): (r: ErrorResult)
    ensures outcome.Responded? ==> r == Pass(outcome.response)
    ensures outcome.RaisedApi? ==> r == ReraiseApi(outcome.apiError)
    ensures outcome.RaisedHttp? ==> r == ApiError(10 * outcome.status + 2, outcome.status, outcome.reason)
    ensures outcome.RaisedOther? && outcome.error.IsException() ==>
              r == ApiError(UNKNOWN_SERVER_ERROR_CODE, INTERNAL_SERVER_ERROR_STATUS, UNKNOWN_SERVER_ERROR_REASON)
    ensures outcome.RaisedOther? && !outcome.error.IsException() ==> r == Propagate(outcome.error)
  {
    match outcome
    case Responded(resp) => Pass(resp)
    case RaisedApi(a) => ReraiseApi(a)
    case RaisedHttp(status, reason) => ApiError(HttpErrorCode(status), status, reason)
    case RaisedOther(e) =>
      if e.IsException() then
        ApiError(UNKNOWN_SERVER_ERROR_CODE, INTERNAL_SERVER_ERROR_STATUS, UNKNOWN_SERVER_ERROR_REASON)
      else Propagate(e)
  }

  /** Two distinct HTTP statuses never share an error code, and no code made
      from an HTTP status collides with `UNKNOWN_SERVER_ERROR` unless the
      status is 500. */
  lemma HttpErrorCodesDistinct(s1: nat, s2: nat)
    ensures HttpErrorCode(s1) == HttpErrorCode(s2) <==> s1 == s2
    ensures HttpErrorCode(s1) == UNKNOWN_SERVER_ERROR_CODE <==> s1 == 500
    ensures HttpErrorCode(404) == 4042 && HttpErrorCode(401) == 4012
  {
  }
}
