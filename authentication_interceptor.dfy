/**
 * The request interceptor: every outgoing request is forwarded, carrying an
 * `Authorization: Bearer <token>` header when local storage holds a token.
 */
module Interceptor {
  import opened Wrappers
  import opened SessionModel
  import opened IamModel
  import opened Authentication

  /** Header values by header name; a name may carry several values. */
  type Headers = map<string, seq<string>>

  /** An outgoing request. It is an immutable value: a changed request is a new one. */
  datatype HttpRequest = HttpRequest(httpMethod: string, url: string, headers: Headers, body: string)

  const Authorization := "Authorization"

  /** JavaScript truthiness of what local storage returns: an absent entry and the empty string are both false. */
  predicate IsTruthy(token: Option<string>)
  {
    token.Some? && token.value != ""
  }

  /** The headers with `name` set to the single value `value`, replacing whatever it held. */
  function SetHeader(headers: Headers, name: string, value: string): (h: Headers)
    ensures name in h && h[name] == [value]
    ensures forall n :: n != name ==> (n in h <==> n in headers)
    ensures forall n :: n != name && n in h ==> h[n] == headers[n]
  {
    headers[name := [value]]
  }

  /** The request the interceptor hands on: a copy with the bearer header when the token is truthy, else the request. */
  function HandledRequest(request: HttpRequest, token: Option<string>): (r: HttpRequest)
    ensures IsTruthy(token) ==> Authorization in r.headers && r.headers[Authorization] == ["Bearer " + token.value]
    ensures IsTruthy(token) ==> forall n :: n != Authorization ==> (n in r.headers <==> n in request.headers)
    ensures IsTruthy(token) ==> forall n :: n != Authorization && n in r.headers ==> r.headers[n] == request.headers[n]
    ensures r.httpMethod == request.httpMethod && r.url == request.url && r.body == request.body
    ensures !IsTruthy(token) ==> r == request
  {
    if IsTruthy(token) then request.(headers := SetHeader(request.headers, Authorization, "Bearer " + token.value))
    else request
  }

  /**
   * The interceptor: reads the token once and calls `next` once, with the
   * original request when there is no truthy token.
   */
  function AuthenticationInterceptor<R>(request: HttpRequest, token: Option<string>, next: HttpRequest -> R): (response: R)
    ensures !IsTruthy(token) ==> response == next(request)
    ensures response == next(HandledRequest(request, token))
  {
    next(HandledRequest(request, token))
  }

  /**
   * After a successful sign-in whose token is non-empty every request
   * carries that token; after a sign-out none is added.
   */
  lemma InterceptorAfterTransitions(s: Session, r: SignInResponse, request: HttpRequest)
    ensures r.token != "" ==>
              HandledRequest(request, Next(s, SignInCompleted(Success(r))).token).headers[Authorization] == ["Bearer " + r.token]
    ensures r.token == "" ==> HandledRequest(request, Next(s, SignInCompleted(Success(r))).token) == request
    ensures HandledRequest(request, Next(s, SignOutCalled).token) == request
  {
  }

  /** Once the last overwriting operation was a sign-out, requests pass through unchanged. */
  lemma PassThroughAfterSignOut(s: Session, evs: seq<Event>, request: HttpRequest)
    requires LastCommit(evs) == Some(SignOutCalled)
    ensures HandledRequest(request, Run(s, evs).token) == request
  {
    LastCommitWins(s, evs);
  }

  /** Once the last overwriting operation was a sign-in with token `t` (non-empty), requests carry `Bearer t`. */
  lemma BearerAfterSignIn(s: Session, evs: seq<Event>, r: SignInResponse, request: HttpRequest)
    requires LastCommit(evs) == Some(SignInCompleted(Success(r))) && r.token != ""
    ensures var h := HandledRequest(request, Run(s, evs).token).headers;
              Authorization in h && h[Authorization] == ["Bearer " + r.token]
  {
    LastCommitWins(s, evs);
  }

  /**
   * A token left in local storage by an earlier run is sent on every request
   * of a fresh service that has not signed in or out, although the service
   * reports signed out.
   */
  lemma StaleTokenIsSent(t: string, evs: seq<Event>, request: HttpRequest)
    requires t != "" && LastCommit(evs) == None
    ensures !Run(Fresh(Some(t)), evs).signedIn
    ensures var h := HandledRequest(request, Run(Fresh(Some(t)), evs).token).headers;
              Authorization in h && h[Authorization] == ["Bearer " + t]
  {
    LastCommitWins(Fresh(Some(t)), evs);
  }

  /**
   * On a service object: the header the interceptor adds is decided by the
   * last sign-in or sign-out to complete, and by the token found in storage
   * at construction when there was none.
   */
  lemma InterceptorOnService(svc: AuthenticationService, request: HttpRequest)
    requires svc.Valid()
    ensures LastCommit(svc.history) == None ==> HandledRequest(request, svc.token) == HandledRequest(request, svc.persisted)
    ensures LastCommit(svc.history) == Some(SignOutCalled) ==> HandledRequest(request, svc.token) == request
    ensures forall r :: LastCommit(svc.history) == Some(SignInCompleted(Success(r))) && r.token != "" ==>
              var h := HandledRequest(request, svc.token).headers;
              Authorization in h && h[Authorization] == ["Bearer " + r.token]
  {
    LastCommitWins(Fresh(svc.persisted), svc.history);
  }
}
