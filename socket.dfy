/** The realtime connection (src/services/socket.js): the `SocketService`
    singleton, which opens Socket.IO connections with or without credentials,
    tracks `isConnected` from the lifecycle events its handlers receive,
    classifies connection errors as token errors, and guards every emit and
    subscription.

    A socket is identified by its creation index in `sockets`. A handler stays
    attached to the socket it was registered on, so an event can arrive from a
    socket that is no longer `socket`; only a socket closed by `disconnect`
    delivers nothing more. The transport is not modelled: the caller chooses
    which event arrives on which open socket. */
module Realtime {
  import opened Base
  import opened Text
  import Api

  /** The value passed to `connect(providedToken)`. */
  datatype TokenValue =
    | NoToken                 // undefined, null or another falsy non-string
    | TextToken(s: string)
    | OtherToken              // a truthy value that is not a string

  /** The credential `connect` authenticates with: `providedToken ||
      localStorage.accessToken`, kept only when it is a string with some
      non-white-space character. */
  function Credential(provided: TokenValue, stored: Option<string>): (c: Option<string>)
    ensures c.Some? ==> !IsBlank(c.value)
    ensures provided.TextToken? && provided.s != "" ==> c == (if IsBlank(provided.s) then None else Some(provided.s))
    ensures provided.OtherToken? ==> c.None?
    ensures (provided.NoToken? || provided == TextToken("")) ==>
              c == (if stored.Some? && !IsBlank(stored.value) then stored else None)
  {
    if provided.TextToken? && provided.s != "" then
      if IsBlank(provided.s) then None else Some(provided.s)
    else if provided.OtherToken? then None
    else if stored.Some? && stored.value != "" && !IsBlank(stored.value) then stored
    else None
  }

  /** How a socket was opened. */
  datatype Mode =
    | Authenticated(token: string, authorization: string)
    | Anonymous

  function ModeFor(credential: Option<string>): (m: Mode)
    ensures m.Authenticated? <==> credential.Some?
    ensures m.Authenticated? ==> m.token == credential.value && StartsWith(m.authorization, Api.BearerPrefix)
  {
    if credential.Some? then Authenticated(credential.value, Api.BearerHeader(credential.value)) else Anonymous
  }

  const TokenKeywords: seq<string> :=
    ["token", "unauthorized", "invalid", "expired", "authentication", "chưa đăng nhập", "not logged in"]

  /** The `isTokenError` test of the authenticated `connect_error` handler. */
  function IsTokenError(message: Option<string>, kind: Option<string>): (r: bool)
    ensures r <==> (exists k :: k in TokenKeywords && Contains(Lower(message.GetOr("")), k))
                   || kind == Some("UnauthorizedError")
  {
    var m := Lower(message.GetOr(""));
    || Contains(m, "token")
    || Contains(m, "unauthorized")
    || Contains(m, "invalid")
    || Contains(m, "expired")
    || Contains(m, "authentication")
    || Contains(m, "chưa đăng nhập")
    || Contains(m, "not logged in")
    || kind == Some("UnauthorizedError")
  }

  /** A message that mentions a keyword still does with text around it. */
  lemma TokenErrorInContext(message: string, kind: Option<string>, before: string, after: string)
    requires IsTokenError(Some(message), kind)
    ensures IsTokenError(Some(before + message + after), kind)
  {
    if kind != Some("UnauthorizedError") {
      var k :| k in TokenKeywords && Contains(Lower(message), k);
      LowerAppend(before, message);
      LowerAppend(before + message, after);
      ContainsWithin(Lower(message), k, Lower(before), Lower(after));
      assert Lower(before + message + after) == Lower(before) + Lower(message) + Lower(after);
    }
  }

  /** An error without a message is a token error only by its type. */
  lemma SilentErrorNeedsType(kind: Option<string>)
    ensures IsTokenError(None, kind) <==> kind == Some("UnauthorizedError")
  {
    forall k | k in TokenKeywords
      ensures !Contains(Lower(""), k)
    {
      assert |k| > 0;
    }
  }

  /** The lifecycle events the service's handlers listen for. */
  datatype LifecycleEvent =
    | Connected
    | Disconnected
    | ConnectError(message: Option<string>, kind: Option<string>)
    | Reconnected
    | ReconnectError
    | ReconnectFailed

  /** Messages the service emits. */
  datatype Outbound =
    | RegisterFE
    | CardFusion(fusionData: Json)
    | CardAdded(cardData: Json)
    | JoinRoom(roomId: Json)
    | LeaveRoom(roomId: Json)

  datatype Emission = Emission(socket: nat, message: Outbound)

  /** The channels `onCardUpdate` … `onNewCardReady` subscribe to. */
  datatype Channel = CardUpdate | CardFusionChannel | CardAddedChannel | Generating | NewCardReady

  datatype Subscription = Subscription(socket: nat, channel: Channel, handler: nat)

  /** The `connect_error` that makes an authenticated socket start a refresh or log out. */
  predicate IsTokenFailure(mode: Mode, e: LifecycleEvent) {
    mode.Authenticated? && e.ConnectError? && IsTokenError(e.message, e.kind)
  }

  class SocketService {
    var sockets: seq<Mode>
    var socket: Option<nat>
    var isConnected: bool
    var closed: set<nat>
    var emitted: seq<Emission>
    var subscriptions: seq<Subscription>
    var accessToken: Option<string>
    var refreshToken: Option<string>
    var redirectedToLogin: bool
    /** Token refreshes started by `connect_error` and not yet finished. */
    var refreshesPending: nat

    /** The current socket exists and is open; only created sockets are closed. */
    ghost predicate Valid()
      reads this
    {
      && (socket.Some? ==> socket.value < |sockets| && socket.value !in closed)
      && (forall c :: c in closed ==> c < |sockets|)
    }

    constructor(accessToken: Option<string>, refreshToken: Option<string>)
      ensures Valid()
      ensures sockets == [] && socket == None && !isConnected && closed == {}
      ensures emitted == [] && subscriptions == [] && !redirectedToLogin && refreshesPending == 0
      ensures this.accessToken == accessToken && this.refreshToken == refreshToken
    {
      sockets, socket, isConnected, closed := [], None, false, {};
      emitted, subscriptions := [], [];
      this.accessToken, this.refreshToken := accessToken, refreshToken;
      redirectedToLogin, refreshesPending := false, 0;
    }

    method ClearTokensAndRedirect()
      modifies this`accessToken, this`refreshToken, this`redirectedToLogin
      ensures accessToken == None && refreshToken == None && redirectedToLogin
    {
      accessToken, refreshToken := None, None;
      redirectedToLogin := true;
    }

    /** `connect(providedToken)`: the existing socket when it is set and
        connected; otherwise a new socket, authenticated when there is a usable
        credential and anonymous otherwise. Opening does not touch
        `isConnected`, and an earlier socket is left open. */
    method Connect(provided: TokenValue) returns (s: nat)
      requires Valid()
      modifies this`sockets, this`socket
      ensures Valid()
      ensures old(socket.Some? && isConnected) ==> s == old(socket.value) && sockets == old(sockets) && socket == old(socket)
      ensures !old(socket.Some? && isConnected) ==>
        && sockets == old(sockets) + [ModeFor(Credential(provided, accessToken))]
        && s == |old(sockets)| && socket == Some(s)
    {
      if socket.Some? && isConnected {
        return socket.value;
      }
      var credential := Credential(provided, accessToken);
      if credential.None? {
        s := ConnectWithoutAuth();
      } else {
        s := |sockets|;
        sockets := sockets + [ModeFor(credential)];
        socket := Some(s);
      }
    }

    /** `connectWithoutAuth()`: always a new anonymous socket. */
    method ConnectWithoutAuth() returns (s: nat)
      requires Valid()
      modifies this`sockets, this`socket
      ensures Valid()
      ensures sockets == old(sockets) + [Anonymous] && s == |old(sockets)| && socket == Some(s)
    {
      s := |sockets|;
      sockets := sockets + [Anonymous];
      socket := Some(s);
    }

    /** `disconnect()`: closes and forgets the current socket; nothing at all
        when there is none. */
    method Disconnect()
      requires Valid()
      modifies this`socket, this`isConnected, this`closed
      ensures Valid() && socket == None
      ensures old(socket).None? ==> isConnected == old(isConnected) && closed == old(closed)
      ensures old(socket).Some? ==> !isConnected && closed == old(closed) + {old(socket).value}
    {
      if socket.Some? {
        closed := closed + {socket.value};
        socket := None;
        isConnected := false;
      }
    }

    /** `emitCardFusion` … `emitRegisterFE`: sent on the current socket only
        when it exists and is connected. */
    method Emit(m: Outbound)
      modifies this`emitted
      ensures emitted == old(emitted) + (if socket.Some? && isConnected then [Emission(socket.value, m)] else [])
    {
      if socket.Some? && isConnected {
        emitted := emitted + [Emission(socket.value, m)];
      }
    }

    /** `onCardUpdate` … `onNewCardReady`: attached to the current socket, if any. */
    method Subscribe(channel: Channel, handler: nat)
      modifies this`subscriptions
      ensures subscriptions == old(subscriptions) + (if socket.Some? then [Subscription(socket.value, channel, handler)] else [])
    {
      if socket.Some? {
        subscriptions := subscriptions + [Subscription(socket.value, channel, handler)];
      }
    }

    /** The handlers registered by `connect` (on an authenticated socket) or
        by `connectWithoutAuth` (on an anonymous one) receiving `e` from open
        socket `s`. Both `connect` handlers read `this.socket.id` first, so
        with no current socket they throw and change nothing. Only the
        authenticated handlers emit `registerFE` and react to token errors. */
    method Deliver(s: nat, e: LifecycleEvent)
      requires Valid() && s < |sockets| && s !in closed
      modifies this`isConnected, this`emitted, this`accessToken, this`refreshToken, this`redirectedToLogin, this`refreshesPending
      ensures Valid()
      ensures e.Connected? && old(socket).None? ==> isConnected == old(isConnected) && emitted == old(emitted)
      ensures e.Connected? && old(socket).Some? ==>
        && isConnected
        && emitted == old(emitted) + (if sockets[s].Authenticated? then [Emission(old(socket).value, RegisterFE)] else [])
      ensures !e.Connected? ==> emitted == old(emitted)
      ensures e.Disconnected? || e.ConnectError? || e.ReconnectFailed? ==> !isConnected
      ensures e.Reconnected? ==> isConnected
      ensures e.ReconnectError? ==> isConnected == old(isConnected)
      ensures IsTokenFailure(sockets[s], e) && Present(old(refreshToken)) ==>
        && refreshesPending == old(refreshesPending) + 1
        && accessToken == old(accessToken) && refreshToken == old(refreshToken) && redirectedToLogin == old(redirectedToLogin)
      ensures IsTokenFailure(sockets[s], e) && !Present(old(refreshToken)) ==>
        && refreshesPending == old(refreshesPending)
        && accessToken == None && refreshToken == None && redirectedToLogin
      ensures !IsTokenFailure(sockets[s], e) ==>
        && refreshesPending == old(refreshesPending)
        && accessToken == old(accessToken) && refreshToken == old(refreshToken) && redirectedToLogin == old(redirectedToLogin)
    {
      match e
      case Connected =>
        if socket.Some? {
          isConnected := true;
          if sockets[s].Authenticated? {
            Emit(RegisterFE);
          }
        }
      case Disconnected =>
        isConnected := false;
      case ConnectError(message, kind) =>
        isConnected := false;
        if sockets[s].Authenticated? && IsTokenError(message, kind) {
          if Present(refreshToken) {
            refreshesPending := refreshesPending + 1;
          } else {
            ClearTokensAndRedirect();
          }
        }
      case Reconnected =>
        isConnected := true;
      case ReconnectError =>
      case ReconnectFailed =>
        isConnected := false;
    }

    /** `handleTokenRefresh()` settling, given the reply of the refresh that
        `apiService.refreshAccessToken()` awaited. A usable reply has been
        stored by `setTokens` in the same storage keys the socket reads, so
        the new pair replaces the tokens (as `String(…)`), and
        `reconnectWithFreshToken` drops the current socket (its delayed
        `connect()` is the caller's next step). Any other reply clears the
        tokens and redirects the user. */
    method FinishTokenRefresh(outcome: Api.RefreshReply)
      requires Valid() && refreshesPending > 0
      modifies this`socket, this`isConnected, this`closed, this`accessToken, this`refreshToken, this`redirectedToLogin, this`refreshesPending
      ensures Valid() && refreshesPending == old(refreshesPending) - 1
      ensures Api.RefreshSucceeded(outcome) ==>
        && socket == None
        && (old(socket).Some? ==> !isConnected && closed == old(closed) + {old(socket).value})
        && (old(socket).None? ==> isConnected == old(isConnected) && closed == old(closed))
        && accessToken == Some(Api.StorageText(Member(outcome.body, "accessToken")))
        && refreshToken == Some(Api.StorageText(Member(outcome.body, "refreshToken")))
        && redirectedToLogin == old(redirectedToLogin)
      ensures !Api.RefreshSucceeded(outcome) ==>
        && socket == old(socket) && isConnected == old(isConnected) && closed == old(closed)
        && accessToken == None && refreshToken == None && redirectedToLogin
    {
      refreshesPending := refreshesPending - 1;
      if Api.RefreshSucceeded(outcome) {
        accessToken := Some(Api.StorageText(Member(outcome.body, "accessToken")));
        refreshToken := Some(Api.StorageText(Member(outcome.body, "refreshToken")));
        Disconnect();
      } else {
        ClearTokensAndRedirect();
      }
    }
  }

  /** After a refresh that yields a usable access token, the delayed
      `connect()` of `reconnectWithFreshToken` opens a new socket
      authenticated with that fresh token, whatever socket and tokens the
      service had before. */
  method ReconnectUsesFreshToken(service: SocketService, outcome: Api.RefreshReply, newToken: string) returns (s: nat)
    requires service.Valid() && service.refreshesPending > 0
    requires Api.NewAccessToken(outcome) == Some(newToken) && !IsBlank(newToken)
    modifies service
    ensures s < |service.sockets| && service.socket == Some(s)
    ensures service.sockets[s] == Authenticated(newToken, Api.BearerHeader(newToken))
  {
    service.FinishTokenRefresh(outcome);
    s := service.Connect(NoToken);
  }

  /** From any state in which the service is not connected, two `connect`
      calls with a usable credential open two sockets; the `connect` event of
      the first, replaced one still marks the service connected and
      announces the frontend on the second. */
  method StaleSocketStillCounts(service: SocketService, provided: TokenValue) returns (first: nat, second: nat)
    requires service.Valid() && !service.isConnected
    requires Credential(provided, service.accessToken).Some?
    modifies service
    ensures first != second && first < |service.sockets| && first !in service.closed
    ensures service.socket == Some(second) && service.isConnected
    ensures service.emitted == old(service.emitted) + [Emission(second, RegisterFE)]
  {
    first := service.Connect(provided);
    second := service.Connect(provided);
    assert service.sockets[first].Authenticated?;
    service.Deliver(first, Connected);
  }
}
