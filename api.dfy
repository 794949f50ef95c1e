/** The browser's REST client (src/services/api.js): the choice of base URL,
    the `Authorization: Bearer …` header, and the `ApiService` singleton with its
    single-flight token refresh (`isRefreshing` plus a queue of waiting callers),
    the 401 → refresh → retry-once rule of `fetchData`, the ordered fallback over
    candidate fusion endpoints, logout and registration.

    `localStorage` is represented by the service's `accessToken`/`refreshToken`
    fields, `window.location.href = '/login'` by the `redirectedToLogin` flag,
    and every HTTP exchange by a reply the caller passes in; requests issued are
    recorded, in order, in `sent`. */
module Api {
  import opened Base
  import opened Text

  const LocalDefaultUrl := "http://localhost:5000"
  const RenderScheme := "https://"
  const RenderHost := "gamethebaiteam3-backend"
  const RenderDomain := ".onrender.com"
  /** The hosted backend, `https://gamethebaiteam3-backend.onrender.com`. */
  const RenderUrl := RenderScheme + RenderHost + RenderDomain

  /** The page is served from a local address (`hostname` is None outside a browser). */
  predicate IsLocalHost(hostname: Option<string>) {
    hostname.Some? && (hostname.value == "localhost" || hostname.value == "127.0.0.1" || hostname.value == "0.0.0.0")
  }

  /** `/localhost|127\.0\.0\.1|0\.0\.0\.0/i.test(url)`. */
  predicate MentionsLocalHost(url: string) {
    var u := Lower(url);
    Contains(u, "localhost") || Contains(u, "127.0.0.1") || Contains(u, "0.0.0.0")
  }

  lemma RenderUrlHasNoUpperCase()
    ensures Lower(RenderUrl) == RenderUrl
  {
    assert Lower(RenderScheme) == RenderScheme by {
      assert forall i :: 0 <= i < |RenderScheme| ==> !('A' <= RenderScheme[i] <= 'Z');
    }
    assert Lower(RenderHost) == RenderHost by {
      assert forall i :: 0 <= i < |RenderHost| ==> !('A' <= RenderHost[i] <= 'Z');
    }
    assert Lower(RenderDomain) == RenderDomain by {
      assert forall i :: 0 <= i < |RenderDomain| ==> !('A' <= RenderDomain[i] <= 'Z');
    }
    LowerAppend(RenderScheme + RenderHost, RenderDomain);
    LowerAppend(RenderScheme, RenderHost);
  }

  lemma RenderUrlLacksL()
    ensures 'l' !in RenderUrl
  {
    assert 'l' !in RenderScheme && 'l' !in RenderHost && 'l' !in RenderDomain;
  }

  lemma RenderUrlLacksDigits()
    ensures '1' !in RenderUrl && '0' !in RenderUrl
  {
    assert '1' !in RenderScheme && '1' !in RenderHost && '1' !in RenderDomain;
    assert '0' !in RenderScheme && '0' !in RenderHost && '0' !in RenderDomain;
  }

  /** The production fallback names no local address: it has no 'l', '1' or '0'. */
  lemma RenderUrlIsRemote()
    ensures !MentionsLocalHost(RenderUrl)
  {
    RenderUrlHasNoUpperCase();
    RenderUrlLacksL();
    RenderUrlLacksDigits();
    ContainsOnlyOwnChars(RenderUrl, "localhost", 0);
    ContainsOnlyOwnChars(RenderUrl, "127.0.0.1", 1);
    ContainsOnlyOwnChars(RenderUrl, "0.0.0.0", 0);
  }

  /** The `URL` constant: on a local host the configured value or the local
      default; elsewhere the configured value only if it avoids local
      addresses, else the hosted backend. */
  function BaseUrl(hostname: Option<string>, env: Option<string>): (url: string)
    ensures IsLocalHost(hostname) ==> url == OrElse(env, LocalDefaultUrl)
    ensures !IsLocalHost(hostname) ==> !MentionsLocalHost(url)
    ensures !IsLocalHost(hostname) && Present(env) && !MentionsLocalHost(env.value) ==> url == env.value
    ensures !IsLocalHost(hostname) && url != RenderUrl ==> Present(env) && url == env.value
  {
    RenderUrlIsRemote();
    if IsLocalHost(hostname) then OrElse(env, LocalDefaultUrl)
    else if Present(env) && !MentionsLocalHost(env.value) then env.value
    else RenderUrl
  }

  const BearerPrefix := "Bearer "

  /** The Authorization value for a token, which may already carry the scheme
      (section 2.1 of RFC 6750: `Bearer <token>`). */
  function BearerHeader(token: string): (h: string)
    ensures StartsWith(h, BearerPrefix)
    ensures StartsWith(token, BearerPrefix) ==> h == token
    ensures |token| <= |h| && h[|h| - |token|..] == token
  {
    if StartsWith(token, BearerPrefix) then token
    else
      assert (BearerPrefix + token)[..|BearerPrefix|] == BearerPrefix;
      BearerPrefix + token
  }

  /** The header `fetchData` attaches: only for a truthy access token. */
  function AuthorizationFor(accessToken: Option<string>): (h: Option<string>)
    ensures h.Some? <==> Present(accessToken)
    ensures h.Some? ==> StartsWith(h.value, BearerPrefix)
  {
    if Present(accessToken) then Some(BearerHeader(accessToken.value)) else None
  }

  /** A request the client put on the wire. */
  datatype Request =
    | Call(path: string, authorization: Option<string>)  // fetchData to baseUrl + path
    | RefreshCall(refreshToken: string)                  // POST /auth/refresh
    | LogoutCall(refreshToken: string)                   // POST /auth/logout
    | RegisterCall(userData: Json)                       // POST /auth/register

  /** What `fetch` produced: a response, or a rejection (network failure). */
  datatype Response = Response(status: nat, body: Json) | Unreachable(message: string)

  predicate IsOk(r: Response) {
    r.Response? && 200 <= r.status <= 299
  }

  predicate Is401(r: Response) {
    r.Response? && r.status == 401
  }

  /** The outcome of POST /auth/refresh: a 2xx reply with its parsed body,
      a non-2xx status, or a rejected `fetch`. */
  datatype RefreshReply =
    | Refreshed(body: Json)
    | RefreshRejected(status: nat)
    | RefreshUnreachable(message: string)

  /** The errors the client throws. */
  datatype ApiError =
    | HttpError(status: nat)         // "HTTP error! status: …"
    | RefreshFailed(status: nat)     // "Refresh failed: …"
    | NetworkError(message: string)  // fetch rejected
    | NoRefreshToken                 // "No refresh token available"
    | TokenRefreshFailed             // "Token refresh failed"
    | TokenExpired                   // "Token expired and no refresh token available"
    | RegistrationFailed(status: nat)
    | NullBody                       // TypeError: reading a member of a `null` body
    | FusionEndpointNotFound

  /** A refresh whose reply can be read: 2xx with a body other than `null`. */
  predicate RefreshSucceeded(reply: RefreshReply) {
    reply.Refreshed? && reply.body != JNull
  }

  /** The error `refreshAccessToken` throws for a reply it cannot use. */
  function RefreshError(reply: RefreshReply): (e: ApiError)
    requires !RefreshSucceeded(reply)
    ensures reply.Refreshed? ==> e == NullBody
    ensures reply.RefreshRejected? ==> e == RefreshFailed(reply.status)
    ensures reply.RefreshUnreachable? ==> e == NetworkError(reply.message)
  {
    match reply
    case Refreshed(_) => NullBody
    case RefreshRejected(status) => RefreshFailed(status)
    case RefreshUnreachable(message) => NetworkError(message)
  }

  /** The access token a refresh hands back to `fetchData`, when it is a
      string it can put in a header (`newAccessToken.startsWith` throws on
      anything else, `undefined` included). */
  function NewAccessToken(reply: RefreshReply): (t: Option<string>)
    ensures t.Some? ==> RefreshSucceeded(reply) && Member(reply.body, "accessToken") == Some(JStr(t.value))
    ensures (RefreshSucceeded(reply) && Member(reply.body, "accessToken").Some?
             && Member(reply.body, "accessToken").value.JStr?) ==> t.Some?
  {
    if reply.Refreshed? then StringField(reply.body, "accessToken") else None
  }

  /** What `localStorage.setItem` keeps for a value: `String(value)`, so
      `undefined` is kept as the text "undefined" and `null` as "null". */
  function StorageText(v: Option<Json>): (t: string)
    ensures v.None? ==> t == "undefined"
    ensures v == Some(JNull) ==> t == "null"
    ensures v.Some? && v.value.JStr? ==> t == v.value.s
  {
    match v
    case None => "undefined"
    case Some(JNull) => "null"
    case Some(j) => JsonText(j)
  }

  /** A caller suspended on a refresh already in flight (its promise). */
  type Waiter = nat

  datatype Settlement = Resolved(token: Json) | Rejected(error: ApiError)

  /** How `processQueue(error, token = null)` settles each waiter. The default
      parameter also replaces an explicit `undefined`, so a missing token
      resolves the waiter with `null`. */
  function Verdict(error: Option<ApiError>, token: Option<Json>): Settlement {
    if error.Some? then Rejected(error.value) else Resolved(token.GetOr(JNull))
  }

  /** The settlements `processQueue` hands out, in queue order. */
  function SettleAll(queue: seq<Waiter>, error: Option<ApiError>, token: Option<Json>): (r: seq<(Waiter, Settlement)>)
    ensures |r| == |queue|
    ensures forall i :: 0 <= i < |queue| ==> r[i].0 == queue[i]
    ensures forall i :: 0 <= i < |queue| ==> r[i].1 == Verdict(error, token)
  {
    if queue == [] then []
    else [(queue[0], Verdict(error, token))] + SettleAll(queue[1..], error, token)
  }

  /** What a call to `refreshAccessToken` did before its first await. */
  datatype RefreshStep =
    | Queued           // a refresh was in flight: the caller waits in failedQueue
    | RejectedNoToken  // no refresh token: tokens cleared, redirected, promise rejected
    | Requested        // POST /auth/refresh issued

  class ApiService {
    const baseUrl: string
    var isRefreshing: bool
    var failedQueue: seq<Waiter>
    var accessToken: Option<string>
    var refreshToken: Option<string>
    var redirectedToLogin: bool
    var sent: seq<Request>
    var settled: seq<(Waiter, Settlement)>
    /** A refresh request is on the wire: `refreshAccessToken` is suspended at its `await fetch`. */
    var awaitingRefresh: bool

    /** Only a started refresh can be awaiting its reply, and waiters exist only
        while a refresh is marked in progress. */
    ghost predicate Valid()
      reads this
    {
      && (awaitingRefresh ==> isRefreshing)
      && (!isRefreshing ==> failedQueue == [])
    }

    constructor(baseUrl: string, accessToken: Option<string>, refreshToken: Option<string>)
      ensures Valid()
      ensures this.baseUrl == baseUrl && this.accessToken == accessToken && this.refreshToken == refreshToken
      ensures !isRefreshing && !awaitingRefresh && failedQueue == [] && sent == [] && settled == [] && !redirectedToLogin
    {
      this.baseUrl := baseUrl;
      this.accessToken := accessToken;
      this.refreshToken := refreshToken;
      isRefreshing := false;
      awaitingRefresh := false;
      failedQueue := [];
      sent := [];
      settled := [];
      redirectedToLogin := false;
    }

    method ClearTokensAndRedirect()
      modifies this`accessToken, this`refreshToken, this`redirectedToLogin
      ensures accessToken == None && refreshToken == None && redirectedToLogin
    {
      accessToken, refreshToken := None, None;
      redirectedToLogin := true;
    }

    /** `processQueue(error, token)`: every waiter rejected with `error` when
        there is one, else resolved with `token`; the queue is emptied. */
    method ProcessQueue(error: Option<ApiError>, token: Option<Json>)
      modifies this`failedQueue, this`settled
      ensures failedQueue == []
      ensures settled == old(settled) + SettleAll(old(failedQueue), error, token)
    {
      var out: seq<(Waiter, Settlement)> := [];
      var i := 0;
      while i < |failedQueue|
        invariant 0 <= i <= |failedQueue|
        invariant |out| == i
        invariant forall k :: 0 <= k < i ==> out[k] == (failedQueue[k], Verdict(error, token))
      {
        out := out + [(failedQueue[i], Verdict(error, token))];
        i := i + 1;
      }
      assert out == SettleAll(failedQueue, error, token);
      settled := settled + out;
      failedQueue := [];
    }

    /** `refreshAccessToken()` up to its first await. While a refresh is in
        flight it only queues the caller. Otherwise it raises `isRefreshing`;
        without a refresh token it clears the tokens, redirects and rejects,
        returning before the `try` whose `finally` would lower the flag. */
    method RefreshAccessToken(w: Waiter) returns (step: RefreshStep)
      requires Valid()
      modifies this
      ensures Valid() && isRefreshing && settled == old(settled)
      ensures old(isRefreshing) ==>
        && step == Queued && failedQueue == old(failedQueue) + [w]
        && sent == old(sent) && awaitingRefresh == old(awaitingRefresh)
        && accessToken == old(accessToken) && refreshToken == old(refreshToken)
        && redirectedToLogin == old(redirectedToLogin)
      ensures !old(isRefreshing) && !Present(old(refreshToken)) ==>
        && step == RejectedNoToken && !awaitingRefresh && failedQueue == old(failedQueue)
        && sent == old(sent) && accessToken == None && refreshToken == None && redirectedToLogin
      ensures !old(isRefreshing) && Present(old(refreshToken)) ==>
        && step == Requested && awaitingRefresh && failedQueue == old(failedQueue)
        && sent == old(sent) + [RefreshCall(old(refreshToken).value)]
        && accessToken == old(accessToken) && refreshToken == old(refreshToken)
        && redirectedToLogin == old(redirectedToLogin)
    {
      if isRefreshing {
        failedQueue := failedQueue + [w];
        return Queued;
      }
      isRefreshing := true;
      if !Present(refreshToken) {
        ClearTokensAndRedirect();
        return RejectedNoToken;
      }
      sent := sent + [RefreshCall(refreshToken.value)];
      awaitingRefresh := true;
      step := Requested;
    }

    /** The rest of `refreshAccessToken()` once the refresh reply is in. A
        readable reply has its two members stored (as `String(…)`, so a
        missing one becomes "undefined") and the waiters resolved with the
        access token member, or with `null` when it is missing; a failed status, a rejected `fetch` or a
        `null` body rejects the waiters, clears the tokens and redirects.
        Either way the `finally` lowers `isRefreshing`. */
    method FinishRefresh(reply: RefreshReply) returns (r: Result<Option<Json>, ApiError>)
      requires Valid() && awaitingRefresh
      modifies this
      ensures Valid() && !isRefreshing && !awaitingRefresh && failedQueue == []
      ensures sent == old(sent)
      ensures RefreshSucceeded(reply) ==>
        var a, t := Member(reply.body, "accessToken"), Member(reply.body, "refreshToken");
        && r == Ok(a)
        && accessToken == Some(StorageText(a)) && refreshToken == Some(StorageText(t))
        && settled == old(settled) + SettleAll(old(failedQueue), None, a)
        && (forall i :: |old(settled)| <= i < |settled| ==> settled[i].1 == Resolved(if a.Some? then a.value else JNull))
        && redirectedToLogin == old(redirectedToLogin)
      ensures !RefreshSucceeded(reply) ==>
        && r == Err(RefreshError(reply))
        && accessToken == None && refreshToken == None && redirectedToLogin
        && settled == old(settled) + SettleAll(old(failedQueue), Some(RefreshError(reply)), None)
    {
      if RefreshSucceeded(reply) {
        var a, t := Member(reply.body, "accessToken"), Member(reply.body, "refreshToken");
        accessToken, refreshToken := Some(StorageText(a)), Some(StorageText(t));
        ProcessQueue(None, a);
        r := Ok(a);
      } else {
        var e := RefreshError(reply);
        ProcessQueue(Some(e), None);
        ClearTokensAndRedirect();
        r := Err(e);
      }
      isRefreshing := false;
      awaitingRefresh := false;
    }

    /** `fetchData(path)` with the replies it would receive: `first` for the
        request, `reply` for a refresh and `retry` for the repeated request.
        A 401 leads to at most one refresh and one retry, and only when a
        refresh token exists and no refresh is in flight; otherwise the tokens
        are cleared and the call fails. Any other non-2xx status fails. */
    method FetchData(path: string, first: Response, reply: RefreshReply, retry: Response) returns (r: Result<Json, ApiError>)
      requires Valid()
      modifies this
      ensures Valid()
      ensures !Is401(first) ==>
        && sent == old(sent) + [Call(path, AuthorizationFor(old(accessToken)))]
        && accessToken == old(accessToken) && refreshToken == old(refreshToken)
        && isRefreshing == old(isRefreshing) && failedQueue == old(failedQueue) && settled == old(settled)
        && redirectedToLogin == old(redirectedToLogin)
        && (r.Ok? <==> IsOk(first))
        && (IsOk(first) ==> r == Ok(first.body))
        && (first.Unreachable? ==> r == Err(NetworkError(first.message)))
        && (first.Response? && !IsOk(first) ==> r == Err(HttpError(first.status)))
      ensures Is401(first) && !(Present(old(refreshToken)) && !old(isRefreshing)) ==>
        && r == Err(TokenExpired)
        && sent == old(sent) + [Call(path, AuthorizationFor(old(accessToken)))]
        && accessToken == None && refreshToken == None && redirectedToLogin
        && isRefreshing == old(isRefreshing) && failedQueue == old(failedQueue) && settled == old(settled)
      ensures Is401(first) && Present(old(refreshToken)) && !old(isRefreshing) ==>
        && sent == old(sent) + [Call(path, AuthorizationFor(old(accessToken))), RefreshCall(old(refreshToken).value)]
                             + (if NewAccessToken(reply).Some? then [Call(path, Some(BearerHeader(NewAccessToken(reply).value)))] else [])
        && !isRefreshing && failedQueue == [] && settled == old(settled)
        && (r.Ok? <==> NewAccessToken(reply).Some? && IsOk(retry))
        && (r.Ok? ==> r == Ok(retry.body) && accessToken == NewAccessToken(reply)
                      && refreshToken == Some(StorageText(Member(reply.body, "refreshToken"))))
        && (r.Err? ==> r == Err(TokenRefreshFailed) && accessToken == None && refreshToken == None && redirectedToLogin)
      ensures Explains(Exchange(first, reply, retry), r)
      ensures TokenFailure(r) ==> accessToken == None && refreshToken == None && redirectedToLogin
      ensures old(accessToken) == None && old(refreshToken) == None && old(redirectedToLogin) ==>
                accessToken == None && refreshToken == None && redirectedToLogin
    {
      sent := sent + [Call(path, AuthorizationFor(accessToken))];
      if Is401(first) {
        if Present(refreshToken) && !isRefreshing {
          r := RefreshAndRetry(path, reply, retry);
        } else {
          ClearTokensAndRedirect();
          r := Err(TokenExpired);
        }
      } else if first.Unreachable? {
        r := Err(NetworkError(first.message));
      } else if !IsOk(first) {
        r := Err(HttpError(first.status));
      } else {
        r := Ok(first.body);
      }
    }

    /** The 401 branch of `fetchData` when it may refresh: one refresh, then
        the request repeated once with the new token. A refresh that yields
        no string token fails at `newAccessToken.startsWith` before the retry. */
    method RefreshAndRetry(path: string, reply: RefreshReply, retry: Response) returns (r: Result<Json, ApiError>)
      requires Valid() && Present(refreshToken) && !isRefreshing
      modifies this
      ensures Valid() && !isRefreshing && failedQueue == [] && settled == old(settled)
      ensures sent == old(sent) + [RefreshCall(old(refreshToken).value)]
                                + (if NewAccessToken(reply).Some? then [Call(path, Some(BearerHeader(NewAccessToken(reply).value)))] else [])
      ensures r.Ok? <==> NewAccessToken(reply).Some? && IsOk(retry)
      ensures r.Ok? ==> r == Ok(retry.body) && accessToken == NewAccessToken(reply)
                        && refreshToken == Some(StorageText(Member(reply.body, "refreshToken")))
      ensures r.Err? ==> r == Err(TokenRefreshFailed) && accessToken == None && refreshToken == None && redirectedToLogin
    {
      var step := RefreshAccessToken(0);
      assert step == Requested && sent == old(sent) + [RefreshCall(old(refreshToken).value)];
      var refreshed := FinishRefresh(reply);
      r := RetryAfterRefresh(path, reply, refreshed, retry);
    }

    /** What `fetchData` does with the outcome of its refresh: without a
        string token it fails before the retry; otherwise it repeats the
        request with the new token once and fails unless that succeeds. */
    method RetryAfterRefresh(path: string, reply: RefreshReply, refreshed: Result<Option<Json>, ApiError>, retry: Response)
      returns (r: Result<Json, ApiError>)
      requires refreshed.Ok? <==> RefreshSucceeded(reply)
      requires refreshed.Ok? ==>
        && refreshed.value == Member(reply.body, "accessToken")
        && accessToken == Some(StorageText(refreshed.value))
        && refreshToken == Some(StorageText(Member(reply.body, "refreshToken")))
      modifies this`sent, this`accessToken, this`refreshToken, this`redirectedToLogin
      ensures sent == old(sent) + (if NewAccessToken(reply).Some? then [Call(path, Some(BearerHeader(NewAccessToken(reply).value)))] else [])
      ensures r.Ok? <==> NewAccessToken(reply).Some? && IsOk(retry)
      ensures r.Ok? ==> r == Ok(retry.body) && accessToken == NewAccessToken(reply)
                        && refreshToken == Some(StorageText(Member(reply.body, "refreshToken")))
      ensures r.Err? ==> r == Err(TokenRefreshFailed) && accessToken == None && refreshToken == None && redirectedToLogin
    {
      if refreshed.Err? || refreshed.value.None? || !refreshed.value.value.JStr? {
        assert NewAccessToken(reply).None?;
        ClearTokensAndRedirect();
        return Err(TokenRefreshFailed);
      }
      var token := refreshed.value.value.s;
      assert NewAccessToken(reply) == Some(token) && accessToken == Some(token);
      sent := sent + [Call(path, Some(BearerHeader(token)))];
      if IsOk(retry) {
        r := Ok(retry.body);
      } else {
        ClearTokensAndRedirect();
        r := Err(TokenRefreshFailed);
      }
    }

    /** `logout()`: tells the server only when a refresh token is stored, and
        clears both tokens whether or not that request succeeds. */
    method Logout()
      modifies this`accessToken, this`refreshToken, this`sent
      ensures accessToken == None && refreshToken == None
      ensures sent == old(sent) + (if Present(old(refreshToken)) then [LogoutCall(old(refreshToken).value)] else [])
    {
      if Present(refreshToken) {
        sent := sent + [LogoutCall(refreshToken.value)];
      }
      accessToken, refreshToken := None, None;
    }

    /** `register(userData)`: a 2xx reply succeeds with its body unless that
        is `null`, whose `data.accessToken` throws; the tokens are stored
        only when both members are truthy. */
    method Register(userData: Json, reply: Response) returns (r: Result<Json, ApiError>)
      modifies this`accessToken, this`refreshToken, this`sent
      ensures sent == old(sent) + [RegisterCall(userData)]
      ensures r.Ok? <==> IsOk(reply) && reply.body != JNull
      ensures r.Ok? ==> r == Ok(reply.body)
      ensures IsOk(reply) && reply.body == JNull ==> r == Err(NullBody)
      ensures reply.Response? && !IsOk(reply) ==> r == Err(RegistrationFailed(reply.status))
      ensures reply.Unreachable? ==> r == Err(NetworkError(reply.message))
      ensures var a, t := TokenField(reply, "accessToken"), TokenField(reply, "refreshToken");
        if IsOk(reply) && a.Some? && Truthy(a.value) && t.Some? && Truthy(t.value)
        then accessToken == Some(StorageText(a)) && refreshToken == Some(StorageText(t))
        else accessToken == old(accessToken) && refreshToken == old(refreshToken)
    {
      sent := sent + [RegisterCall(userData)];
      if reply.Unreachable? {
        return Err(NetworkError(reply.message));
      }
      if !IsOk(reply) {
        return Err(RegistrationFailed(reply.status));
      }
      if reply.body == JNull {
        return Err(NullBody);
      }
      var a, t := TokenField(reply, "accessToken"), TokenField(reply, "refreshToken");
      if a.Some? && Truthy(a.value) && t.Some? && Truthy(t.value) {
        accessToken, refreshToken := Some(StorageText(a)), Some(StorageText(t));
      }
      r := Ok(reply.body);
    }

    /** One path of the fallback loop: `fetchData(path)`, with the
        Authorization its first request carries. */
    method TryPath(path: string, e: Exchange) returns (o: Result<Json, ApiError>, h: Option<string>)
      requires Valid()
      modifies this
      ensures Valid()
      ensures h == AuthorizationFor(old(accessToken))
      ensures Explains(e, o)
      ensures TokenFailure(o) ==> accessToken == None && refreshToken == None && redirectedToLogin
      ensures old(accessToken) == None && old(refreshToken) == None && old(redirectedToLogin) ==>
                accessToken == None && refreshToken == None && redirectedToLogin
      ensures !Is401(e.first) ==>
                && sent == old(sent) + [Call(path, h)]
                && accessToken == old(accessToken) && refreshToken == old(refreshToken)
                && redirectedToLogin == old(redirectedToLogin) && isRefreshing == old(isRefreshing)
    {
      h := AuthorizationFor(accessToken);
      o := FetchData(path, e.first, e.reply, e.retry);
    }

    /** The candidate-path loop of `performFusion`, `getFusionHistory` and
        `getFusionRecipes`: `fetchData` on each path in turn, with the replies
        in `exchanges`, up to the first success. Each call acts on the
        service as `FetchData` says; `outcomes` holds what each call
        returned and `headers` the Authorization its first request carried.
        Once a call has cleared the tokens, every later path goes out
        without one; when no path met a 401, nothing but `sent` changes. */
    method TryPaths(paths: seq<string>, exchanges: seq<Exchange>)
      returns (found: Option<Json>, lastError: Option<ApiError>, outcomes: seq<Result<Json, ApiError>>, headers: seq<Option<string>>)
      requires Valid() && |exchanges| == |paths|
      modifies this
      ensures Valid()
      ensures |headers| == |outcomes| <= |paths|
      ensures FirstSuccess(outcomes) < |outcomes| ==>
                found == Some(outcomes[FirstSuccess(outcomes)].value) && |outcomes| == FirstSuccess(outcomes) + 1
      ensures FirstSuccess(outcomes) == |outcomes| ==> found.None? && |outcomes| == |paths|
      ensures found.None? && |paths| > 0 ==> lastError == Some(outcomes[|paths| - 1].error)
      ensures found.None? && |paths| == 0 ==> lastError == None
      ensures Explained(exchanges, outcomes)
      ensures AnonymousAfterFailure(outcomes, headers)
      ensures AnyTokenFailure(outcomes) ==>
                accessToken == None && refreshToken == None && redirectedToLogin
      ensures (forall i :: 0 <= i < |outcomes| ==> !Is401(exchanges[i].first)) ==>
                && sent == old(sent) + Calls(paths[..|outcomes|], AuthorizationFor(old(accessToken)))
                && accessToken == old(accessToken) && refreshToken == old(refreshToken)
                && redirectedToLogin == old(redirectedToLogin)
    {
      found, lastError, outcomes, headers := None, None, [], [];
      var i := 0;
      ghost var quiet := true;
      while i < |paths| && found.None?
        invariant 0 <= i <= |paths| && Valid()
        invariant |outcomes| == |headers| == i
        invariant found.None? ==> forall j :: 0 <= j < i ==> outcomes[j].Err?
        invariant found.Some? ==> 0 < i && outcomes[i - 1].Ok? && found == Some(outcomes[i - 1].value)
                                  && forall j :: 0 <= j < i - 1 ==> outcomes[j].Err?
        invariant found.None? && i == 0 ==> lastError == None
        invariant found.None? && i > 0 ==> lastError == Some(outcomes[i - 1].error)
        invariant Explained(exchanges, outcomes)
        invariant AnonymousAfterFailure(outcomes, headers)
        invariant AnyTokenFailure(outcomes) ==>
                    accessToken == None && refreshToken == None && redirectedToLogin
        invariant quiet <==> forall j :: 0 <= j < i ==> !Is401(exchanges[j].first)
        invariant quiet ==>
                    && sent == old(sent) + Calls(paths[..i], AuthorizationFor(old(accessToken)))
                    && accessToken == old(accessToken) && refreshToken == old(refreshToken)
                    && redirectedToLogin == old(redirectedToLogin)
      {
        quiet := quiet && !Is401(exchanges[i].first);
        var o, h := TryPath(paths[i], exchanges[i]);
        ExplainedSnoc(exchanges, outcomes, o);
        AnonymousSnoc(outcomes, headers, o, h);
        AnyTokenFailureSnoc(outcomes, o);
        if quiet {
          assert paths[..i + 1] == paths[..i] + [paths[i]];
          CallsAppend(paths[..i], paths[i], AuthorizationFor(old(accessToken)));
        }
        outcomes, headers := outcomes + [o], headers + [h];
        if o.Ok? {
          found := Some(o.value);
        } else {
          lastError := Some(o.error);
        }
        i := i + 1;
      }
      FirstSuccessAfterFailures(outcomes);
    }

    /** `performFusion(data)`: the first success among the fusion paths, else
        the last path's error. */
    method PerformFusion(exchanges: seq<Exchange>)
      returns (r: Result<Json, ApiError>, outcomes: seq<Result<Json, ApiError>>, headers: seq<Option<string>>)
      requires Valid() && |exchanges| == |FusionPaths|
      modifies this
      ensures Valid()
      ensures |headers| == |outcomes| <= |FusionPaths|
      ensures FirstSuccess(outcomes) < |outcomes| ==>
                r == outcomes[FirstSuccess(outcomes)] && |outcomes| == FirstSuccess(outcomes) + 1
      ensures FirstSuccess(outcomes) == |outcomes| ==>
                |outcomes| == |FusionPaths| && r == outcomes[|outcomes| - 1]
      ensures Explained(exchanges, outcomes)
      ensures AnonymousAfterFailure(outcomes, headers)
      ensures AnyTokenFailure(outcomes) ==>
                accessToken == None && refreshToken == None && redirectedToLogin
      ensures (forall i :: 0 <= i < |outcomes| ==> !Is401(exchanges[i].first)) ==>
                && sent == old(sent) + Calls(FusionPaths[..|outcomes|], AuthorizationFor(old(accessToken)))
                && accessToken == old(accessToken) && refreshToken == old(refreshToken)
                && redirectedToLogin == old(redirectedToLogin)
    {
      var found, lastError;
      found, lastError, outcomes, headers := TryPaths(FusionPaths, exchanges);
      if found.Some? {
        r := Ok(found.value);
      } else {
        r := Err(lastError.GetOr(FusionEndpointNotFound));
      }
    }

    /** `getFusionHistory()`: the first success among the history paths, else `[]`. */
    method GetFusionHistory(exchanges: seq<Exchange>)
      returns (items: Json, outcomes: seq<Result<Json, ApiError>>, headers: seq<Option<string>>)
      requires Valid() && |exchanges| == |HistoryPaths|
      modifies this
      ensures Valid()
      ensures |headers| == |outcomes| <= |HistoryPaths|
      ensures FirstSuccess(outcomes) < |outcomes| ==>
                items == outcomes[FirstSuccess(outcomes)].value && |outcomes| == FirstSuccess(outcomes) + 1
      ensures FirstSuccess(outcomes) == |outcomes| ==> |outcomes| == |HistoryPaths| && items == JArr([])
      ensures Explained(exchanges, outcomes)
      ensures AnonymousAfterFailure(outcomes, headers)
      ensures AnyTokenFailure(outcomes) ==>
                accessToken == None && refreshToken == None && redirectedToLogin
      ensures (forall i :: 0 <= i < |outcomes| ==> !Is401(exchanges[i].first)) ==>
                && sent == old(sent) + Calls(HistoryPaths[..|outcomes|], AuthorizationFor(old(accessToken)))
                && accessToken == old(accessToken) && refreshToken == old(refreshToken)
                && redirectedToLogin == old(redirectedToLogin)
    {
      var found, lastError;
      found, lastError, outcomes, headers := TryPaths(HistoryPaths, exchanges);
      items := found.GetOr(JArr([]));
    }

    /** `getFusionRecipes()`: the first success among the recipe paths, else `[]`. */
    method GetFusionRecipes(exchanges: seq<Exchange>)
      returns (items: Json, outcomes: seq<Result<Json, ApiError>>, headers: seq<Option<string>>)
      requires Valid() && |exchanges| == |RecipePaths|
      modifies this
      ensures Valid()
      ensures |headers| == |outcomes| <= |RecipePaths|
      ensures FirstSuccess(outcomes) < |outcomes| ==>
                items == outcomes[FirstSuccess(outcomes)].value && |outcomes| == FirstSuccess(outcomes) + 1
      ensures FirstSuccess(outcomes) == |outcomes| ==> |outcomes| == |RecipePaths| && items == JArr([])
      ensures Explained(exchanges, outcomes)
      ensures AnonymousAfterFailure(outcomes, headers)
      ensures AnyTokenFailure(outcomes) ==>
                accessToken == None && refreshToken == None && redirectedToLogin
      ensures (forall i :: 0 <= i < |outcomes| ==> !Is401(exchanges[i].first)) ==>
                && sent == old(sent) + Calls(RecipePaths[..|outcomes|], AuthorizationFor(old(accessToken)))
                && accessToken == old(accessToken) && refreshToken == old(refreshToken)
                && redirectedToLogin == old(redirectedToLogin)
    {
      var found, lastError;
      found, lastError, outcomes, headers := TryPaths(RecipePaths, exchanges);
      items := found.GetOr(JArr([]));
    }
  }

  /** A member of a response body (`data.accessToken`); `None` is `undefined`. */
  function TokenField(reply: Response, key: string): (v: Option<Json>)
    ensures v.Some? <==> reply.Response? && reply.body.JObj? && key in reply.body.fields
    ensures v.Some? ==> v.value == reply.body.fields[key]
  {
    if reply.Response? then Member(reply.body, key) else None
  }

  /** From any idle state without a refresh token, a refresh that finds no
      token never lowers `isRefreshing`: every later refresh call only
      queues, and nothing settles the queue. */
  method MissingRefreshTokenLeavesRefreshStuck(api: ApiService, w1: Waiter, w2: Waiter) returns (first: RefreshStep, second: RefreshStep)
    requires api.Valid() && !api.isRefreshing && !Present(api.refreshToken)
    modifies api
    ensures first == RejectedNoToken && second == Queued
    ensures api.isRefreshing && api.failedQueue == [w2] && api.settled == old(api.settled)
  {
    first := api.RefreshAccessToken(w1);
    second := api.RefreshAccessToken(w2);
  }

  /** The replies one `fetchData` call receives: for the request, for a
      refresh it may start, and for the retry after that refresh. */
  datatype Exchange = Exchange(first: Response, reply: RefreshReply, retry: Response)

  /** `fetchData` failed because the session is over: it cleared the tokens. */
  predicate TokenFailure(o: Result<Json, ApiError>) {
    o == Err(TokenExpired) || o == Err(TokenRefreshFailed)
  }

  /** What any `fetchData` call can return for an exchange, whatever the
      service state: success only from a 2xx reply or from a retry after a
      usable refresh; the status or network error for any other non-401
      reply; an ended session or a success after a 401. */
  predicate Explains(e: Exchange, o: Result<Json, ApiError>) {
    && (!Is401(e.first) ==> (o.Ok? <==> IsOk(e.first)))
    && (IsOk(e.first) ==> o == Ok(e.first.body))
    && (e.first.Unreachable? ==> o == Err(NetworkError(e.first.message)))
    && (e.first.Response? && !IsOk(e.first) && !Is401(e.first) ==> o == Err(HttpError(e.first.status)))
    && (Is401(e.first) ==> TokenFailure(o) || (NewAccessToken(e.reply).Some? && IsOk(e.retry) && o == Ok(e.retry.body)))
  }

  /** Each outcome is one `Explains` allows for the exchange at its index. */
  predicate Explained(exchanges: seq<Exchange>, outcomes: seq<Result<Json, ApiError>>) {
    |outcomes| <= |exchanges| && forall i :: 0 <= i < |outcomes| ==> Explains(exchanges[i], outcomes[i])
  }

  /** Some call ended the session. */
  predicate AnyTokenFailure(outcomes: seq<Result<Json, ApiError>>) {
    exists i :: 0 <= i < |outcomes| && TokenFailure(outcomes[i])
  }

  /** Every request after a call that ended the session goes out without Authorization. */
  predicate AnonymousAfterFailure(outcomes: seq<Result<Json, ApiError>>, headers: seq<Option<string>>) {
    |headers| == |outcomes| && forall i, j :: 0 <= i < j < |outcomes| && TokenFailure(outcomes[i]) ==> headers[j].None?
  }

  lemma ExplainedSnoc(exchanges: seq<Exchange>, outcomes: seq<Result<Json, ApiError>>, o: Result<Json, ApiError>)
    requires Explained(exchanges, outcomes) && |outcomes| < |exchanges| && Explains(exchanges[|outcomes|], o)
    ensures Explained(exchanges, outcomes + [o])
  {
  }

  lemma AnonymousSnoc(outcomes: seq<Result<Json, ApiError>>, headers: seq<Option<string>>, o: Result<Json, ApiError>, h: Option<string>)
    requires AnonymousAfterFailure(outcomes, headers) && (AnyTokenFailure(outcomes) ==> h.None?)
    ensures AnonymousAfterFailure(outcomes + [o], headers + [h])
  {
  }

  lemma AnyTokenFailureSnoc(outcomes: seq<Result<Json, ApiError>>, o: Result<Json, ApiError>)
    ensures AnyTokenFailure(outcomes + [o]) <==> AnyTokenFailure(outcomes) || TokenFailure(o)
  {
    if TokenFailure(o) {
      assert (outcomes + [o])[|outcomes|] == o;
    }
    if AnyTokenFailure(outcomes) {
      var i :| 0 <= i < |outcomes| && TokenFailure(outcomes[i]);
      assert (outcomes + [o])[i] == outcomes[i];
    }
  }

  /** The first request of each path, all with the same Authorization. */
  function Calls(paths: seq<string>, authorization: Option<string>): (r: seq<Request>)
    ensures |r| == |paths|
    ensures forall i :: 0 <= i < |paths| ==> r[i] == Call(paths[i], authorization)
  {
    seq(|paths|, i requires 0 <= i < |paths| => Call(paths[i], authorization))
  }

  lemma CallsAppend(paths: seq<string>, path: string, authorization: Option<string>)
    ensures Calls(paths + [path], authorization) == Calls(paths, authorization) + [Call(path, authorization)]
  {
  }

  const FusionPaths := ["/fusion", "/cards/fusion", "/fusion/create", "/ai/fusion", "/cards/fuse",
                        "/cards/merge", "/fusions", "/api/fusion", "/api/cards/fusion", "/api/cards/fuse"]
  const HistoryPaths := ["/fusion/history", "/api/fusion/history", "/fusions/history", "/cards/fusion/history"]
  const RecipePaths := ["/fusion/recipes", "/api/fusion/recipes", "/cards/recipes", "/api/cards/recipes"]

  /** The index of the first successful outcome, or the number of outcomes when all failed. */
  function FirstSuccess(outcomes: seq<Result<Json, ApiError>>): (k: nat)
    ensures k <= |outcomes|
    ensures forall j :: 0 <= j < k ==> outcomes[j].Err?
    ensures k < |outcomes| ==> outcomes[k].Ok?
  {
    if outcomes == [] then 0
    else if outcomes[0].Ok? then 0
    else 1 + FirstSuccess(outcomes[1..])
  }

  /** Failures followed by at most one success: the first success is at the end. */
  lemma {:induction false} FirstSuccessAfterFailures(outcomes: seq<Result<Json, ApiError>>)
    requires forall j :: 0 <= j < |outcomes| - 1 ==> outcomes[j].Err?
    ensures |outcomes| > 0 && outcomes[|outcomes| - 1].Ok? ==> FirstSuccess(outcomes) == |outcomes| - 1
    ensures (forall j :: 0 <= j < |outcomes| ==> outcomes[j].Err?) ==> FirstSuccess(outcomes) == |outcomes|
  {
    if outcomes != [] && outcomes[0].Err? {
      FirstSuccessAfterFailures(outcomes[1..]);
    }
  }
}
