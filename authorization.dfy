/**
 * src/app/middlewares/authorization.middleware.ts: the bearer token is the
 * header less its first seven characters; it must not be on the Redis deny
 * list and must pass JWT verification. Redis and the verifier are given as
 * data: the deny list's entries and whether it can be reached, and the map
 * from each token that verifies to its decoded claims.
 */
module Authorization {
  import opened Wrappers
  import opened Outcomes
  import Codes
  import CustomResponse
  import opened Requests

  /** How the deny-list store behaves for this request. */
  datatype Health =
    | Reachable
    | ConnectFails(reason: Failure)   // `connectToRedis()` rejects
    | LookupFails(reason: Failure)    // `redisClient.get` rejects
    | DisconnectFails(reason: Failure) // the lookup succeeds, `redisClient.disconnect()` rejects

  /** The deny list: Redis keys and the values stored under them. */
  datatype DenyList = DenyList(health: Health, entries: map<string, string>)

  /** The tokens whose signature checks, with the claims each decodes to. */
  type Verifier = map<string, Claims>

  const InvalidTokenMessage := "user.unauthorize.invalidToken"
  const NoTokenMessage := "user.unauthorize.noToken"

  /** `authorization && authorization.slice(7, authorization.length)`, kept only when truthy. */
  function Token(authorization: Option<string>): (t: Option<string>)
    ensures t.Some? <==> authorization.Some? && |authorization.value| > 7
    ensures t.Some? ==> t.value == authorization.value[7..] && t.value != ""
  {
    if authorization.Some? && |authorization.value| > 7 then Some(authorization.value[7..]) else None
  }

  /** The Redis key a token is denied under. */
  function DenyKey(token: string): string {
    "bl_" + token
  }

  /** `if (inDenyList)`: a stored value that is not the empty string. */
  predicate Denied(list: DenyList, token: string) {
    DenyKey(token) in list.entries && list.entries[DenyKey(token)] != ""
  }

  function NoToken(): Reply {
    CustomResponse.Error(Codes.HttpUnauthorized, Codes.ErrTokenNotFound, NoTokenMessage)
  }

  function InvalidToken(): Reply {
    CustomResponse.Error(Codes.HttpUnauthorized, Codes.ErrInvalidToken, InvalidTokenMessage)
  }

  /** The `catch` of the connection promise: `error.status || 500`, generic error number. */
  function StoreFailed(f: Failure): Reply {
    CustomResponse.Error(ErrorStatus(f), Codes.ErrGeneric, ErrorMessage(f))
  }

  /**
   * The request `isAuth` never answers: a rejected `disconnect` inside the
   * `jwt.verify` callback is outside the promise chain, so no `catch` sees it
   * (the process-wide `unhandledRejection` handler only logs it).
   */
  predicate Stalls(req: Request, list: DenyList) {
    !IsDocsUrl(req.originalUrl) && Token(req.authorization).Some? && list.health.DisconnectFails?
    && !Denied(list, Token(req.authorization).value)
  }

  /**
   * What `isAuth` does with a request. A rejected `disconnect` for a denied
   * token reaches the `catch`; in the verify callback it ends the trace with
   * neither a response nor `next`.
   */
  function AuthEffects(req: Request, list: DenyList, verifier: Verifier): seq<Effect> {
    if IsDocsUrl(req.originalUrl) then [Next]
    else match Token(req.authorization)
      case None => [Respond(NoToken())]
      case Some(token) =>
        match list.health
        case ConnectFails(f) => [Respond(StoreFailed(f))]
        case LookupFails(f) => [Open, Get(DenyKey(token)), Respond(StoreFailed(f))]
        case Reachable =>
          if Denied(list, token) then [Open, Get(DenyKey(token)), Disconnect, Respond(InvalidToken())]
          else if token in verifier then [Open, Get(DenyKey(token)), Verify(token), Disconnect, SetUser(verifier[token]), Next]
          else [Open, Get(DenyKey(token)), Verify(token), Disconnect, Respond(InvalidToken())]
        case DisconnectFails(f) =>
          if Denied(list, token) then [Open, Get(DenyKey(token)), Disconnect, Respond(StoreFailed(f))]
          else [Open, Get(DenyKey(token)), Verify(token), Disconnect]
  }

  /** The claims `isAuth` puts on the request, if it gets that far. */
  function AuthenticatedAs(req: Request, list: DenyList, verifier: Verifier): Option<Claims> {
    if IsDocsUrl(req.originalUrl) then None
    else match Token(req.authorization)
      case None => None
      case Some(token) =>
        if list.health.Reachable? && !Denied(list, token) && token in verifier then Some(verifier[token]) else None
  }

  /**
   * `isAuth` ends in exactly one of `next` and a response, except for the
   * request it leaves with neither, and calls `next` exactly on a
   * documentation URL or a token that is not denied and verifies.
   */
  lemma AuthOutcome(req: Request, list: DenyList, verifier: Verifier)
    ensures var e := AuthEffects(req, list, verifier);
      (Stalls(req, list) ==> |e| > 0 && forall k :: 0 <= k < |e| ==> !Terminal(e[k]))
      && (!Stalls(req, list) ==> EndsOnce(e))
      && (e[|e| - 1] == Next <==>
            IsDocsUrl(req.originalUrl)
            || (Token(req.authorization).Some? && list.health.Reachable?
                && !Denied(list, Token(req.authorization).value) && Token(req.authorization).value in verifier))
      && (AuthenticatedAs(req, list, verifier).Some? <==> e[|e| - 1] == Next && !IsDocsUrl(req.originalUrl))
  {
  }

  /** No connection is opened on a documentation URL, without a token, or when Redis cannot be reached. */
  lemma NoConnectionOpened(req: Request, list: DenyList, verifier: Verifier)
    requires IsDocsUrl(req.originalUrl) || Token(req.authorization).None? || list.health.ConnectFails?
    ensures multiset(AuthEffects(req, list, verifier))[Open] == 0
    ensures multiset(AuthEffects(req, list, verifier))[Disconnect] == 0
  {
  }

  /** A failed deny-list lookup opens the connection and never closes it. */
  lemma LookupFailureLeavesOpen(req: Request, list: DenyList, verifier: Verifier)
    requires !IsDocsUrl(req.originalUrl) && Token(req.authorization).Some? && list.health.LookupFails?
    ensures multiset(AuthEffects(req, list, verifier))[Open] == 1
    ensures multiset(AuthEffects(req, list, verifier))[Disconnect] == 0
  {
    var get := Get(DenyKey(Token(req.authorization).value));
    assert AuthEffects(req, list, verifier) == [Open, get, Respond(StoreFailed(list.health.reason))];
  }

  /** Once the lookup succeeds, the connection is opened once and a close is attempted once, whatever the token. */
  lemma ReachableOpensAndCloses(req: Request, list: DenyList, verifier: Verifier)
    requires !IsDocsUrl(req.originalUrl) && Token(req.authorization).Some?
    requires list.health.Reachable? || list.health.DisconnectFails?
    ensures multiset(AuthEffects(req, list, verifier))[Open] == 1
    ensures multiset(AuthEffects(req, list, verifier))[Disconnect] == 1
  {
    var token := Token(req.authorization).value;
    var e := AuthEffects(req, list, verifier);
    var get := Get(DenyKey(token));
    if list.health.DisconnectFails? {
      if Denied(list, token) {
        assert e == [Open, get, Disconnect, Respond(StoreFailed(list.health.reason))];
      } else {
        assert e == [Open, get, Verify(token), Disconnect];
      }
    } else if Denied(list, token) {
      assert e == [Open, get, Disconnect, Respond(InvalidToken())];
    } else if token in verifier {
      assert e == [Open, get, Verify(token), Disconnect, SetUser(verifier[token]), Next];
    } else {
      assert e == [Open, get, Verify(token), Disconnect, Respond(InvalidToken())];
    }
  }

  /**
   * Connection discipline: a connection is opened only for a token on a
   * non-documentation URL once Redis is reached, and then closed exactly once,
   * except after a failed lookup, which leaves it open.
   */
  lemma AuthDisconnects(req: Request, list: DenyList, verifier: Verifier)
    ensures var e := AuthEffects(req, list, verifier);
      multiset(e)[Open] <= 1
      && (multiset(e)[Open] == 1 <==>
            !IsDocsUrl(req.originalUrl) && Token(req.authorization).Some? && !list.health.ConnectFails?)
      && (multiset(e)[Disconnect] == 1 <==> multiset(e)[Open] == 1 && !list.health.LookupFails?)
      && multiset(e)[Disconnect] <= 1
  {
    if IsDocsUrl(req.originalUrl) || Token(req.authorization).None? || list.health.ConnectFails? {
      NoConnectionOpened(req, list, verifier);
    } else if list.health.LookupFails? {
      LookupFailureLeavesOpen(req, list, verifier);
    } else {
      ReachableOpensAndCloses(req, list, verifier);
    }
  }

  /** Documentation URLs pass whatever the header says and touch no connection. */
  lemma DocsUrlBypasses(req: Request, list: DenyList, verifier: Verifier)
    requires IsDocsUrl(req.originalUrl)
    ensures AuthEffects(req, list, verifier) == [Next]
  {
  }

  /** A missing header, or one of seven characters or fewer, gets 401 tokenNotFound and opens nothing. */
  lemma ShortHeaderHasNoToken(req: Request, list: DenyList, verifier: Verifier)
    requires !IsDocsUrl(req.originalUrl)
    requires req.authorization.None? || |req.authorization.value| <= 7
    ensures AuthEffects(req, list, verifier) == [Respond(NoToken())]
    ensures NoToken().code == 401 && NoToken().body.data == CustomResponse.ErrorData(14, NoTokenMessage)
  {
  }

  /** The first seven characters of the header are dropped unread: "Bearer " is never checked. */
  lemma PrefixIsNotChecked(req: Request, other: string, list: DenyList, verifier: Verifier)
    requires req.authorization.Some? && |req.authorization.value| > 7 && |other| == 7
    ensures AuthEffects(req.(authorization := Some(other + req.authorization.value[7..])), list, verifier)
         == AuthEffects(req, list, verifier)
  {
    var h := req.authorization.value;
    assert (other + h[7..])[7..] == h[7..];
  }

  /** The deny list is read under `bl_` followed by the token, and only under that key. */
  lemma DenyListKey(req: Request, list: DenyList, verifier: Verifier, k: nat)
    requires var e := AuthEffects(req, list, verifier); k < |e| && e[k].Get?
    ensures req.authorization.Some? && |req.authorization.value| > 7
    ensures AuthEffects(req, list, verifier)[k].key == "bl_" + req.authorization.value[7..]
  {
  }

  /**
   * A denied token gets 401 invalidToken after the disconnect, or the error
   * reply when the disconnect rejects, and the verifier is never consulted.
   */
  lemma DeniedTokenRefused(req: Request, list: DenyList, verifier: Verifier)
    requires !IsDocsUrl(req.originalUrl) && Token(req.authorization).Some?
    requires list.health.Reachable? || list.health.DisconnectFails?
    requires Denied(list, Token(req.authorization).value)
    ensures var e := AuthEffects(req, list, verifier);
      |e| >= 2 && e[|e| - 2] == Disconnect
      && (list.health.Reachable? ==> e[|e| - 1] == Respond(InvalidToken()))
      && (list.health.DisconnectFails? ==> e[|e| - 1] == Respond(StoreFailed(list.health.reason)))
      && forall k :: 0 <= k < |e| ==> !e[k].Verify?
    ensures InvalidToken().code == 401 && InvalidToken().body.data == CustomResponse.ErrorData(11, InvalidTokenMessage)
  {
  }

  /**
   * On the verify path the connection is closed before the verdict is acted
   * on; when that close rejects, nothing follows it.
   */
  lemma VerifyThenDisconnect(req: Request, list: DenyList, verifier: Verifier)
    requires !IsDocsUrl(req.originalUrl) && Token(req.authorization).Some?
    requires list.health.Reachable? || list.health.DisconnectFails?
    requires !Denied(list, Token(req.authorization).value)
    ensures var e := AuthEffects(req, list, verifier);
      |e| >= 4 && e[2] == Verify(Token(req.authorization).value) && e[3] == Disconnect
      && (list.health.DisconnectFails? ==> |e| == 4)
      && (list.health.Reachable? && Token(req.authorization).value in verifier ==>
            e[4..] == [SetUser(verifier[Token(req.authorization).value]), Next])
      && (list.health.Reachable? && Token(req.authorization).value !in verifier ==> e[4..] == [Respond(InvalidToken())])
  {
  }

  /** A failed connect or lookup is answered with its status (or 500) and genericError, and never disconnects. */
  lemma StoreFailureAnswered(req: Request, list: DenyList, verifier: Verifier)
    requires !IsDocsUrl(req.originalUrl) && Token(req.authorization).Some?
    requires list.health.ConnectFails? || list.health.LookupFails?
    ensures var e := AuthEffects(req, list, verifier);
      e[|e| - 1] == Respond(StoreFailed(list.health.reason)) && multiset(e)[Disconnect] == 0
    ensures StoreFailed(list.health.reason).body.data == CustomResponse.ErrorData(259, ErrorMessage(list.health.reason))
    ensures StoreFailed(list.health.reason).code == ErrorStatus(list.health.reason)
  {
  }
}
