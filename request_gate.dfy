/**
 * The middleware chain of src/app/routes/routes.ts:53-56: every `/v1/:lang`
 * request goes through `setLocale`, then `isAuth`, then the route. The class
 * holds what the two middlewares change: the process-wide active locale,
 * `req.user` of the request at hand, and the trace of effects.
 */
module RequestGate {
  import opened Wrappers
  import opened Requests
  import Locale = SetLocale
  import Authorization

  /** The trace the whole chain leaves for a request. */
  function GateEffects(req: Request, list: Authorization.DenyList, verifier: Authorization.Verifier): seq<Effect> {
    var locale := Locale.LocaleEffects(req);
    if Next in locale then locale + Authorization.AuthEffects(req, list, verifier) else locale
  }

  /** The route runs: the chain's trace ends in `next`. */
  predicate RouteRuns(effects: seq<Effect>) {
    |effects| > 0 && effects[|effects| - 1] == Next
  }

  /**
   * The locale is checked first: an unsupported language gets 400 whatever
   * the header, and no deny-list connection is opened.
   */
  lemma LocaleCheckedFirst(req: Request, list: Authorization.DenyList, verifier: Authorization.Verifier)
    requires !IsDocsUrl(req.originalUrl) && Locale.RequestedLocale(req) !in Locale.Locales
    ensures GateEffects(req, list, verifier) == [Respond(Locale.Unsupported())]
  {
  }

  /**
   * The route runs exactly for a documentation URL, or a supported language
   * with a token that passes; a response, when one is sent, ends the trace;
   * and the request is left with neither exactly when `isAuth` stalls on it.
   */
  lemma RouteRunsIff(req: Request, list: Authorization.DenyList, verifier: Authorization.Verifier)
    ensures var e := GateEffects(req, list, verifier);
      (RouteRuns(e) <==>
        IsDocsUrl(req.originalUrl)
        || (Locale.RequestedLocale(req) in Locale.Locales && Authorization.AuthenticatedAs(req, list, verifier).Some?))
      && (forall k :: 0 <= k < |e| - 1 ==> !e[k].Respond?)
      && ((|e| > 0 && Terminal(e[|e| - 1]))
          <==> !(Locale.RequestedLocale(req) in Locale.Locales && Authorization.Stalls(req, list)))
  {
    Locale.LocaleOutcome(req, "");
    Authorization.AuthOutcome(req, list, verifier);
  }

  class Gate {
    /** The active locale of the i18n module, shared by every request. */
    var locale: string
    /** `req.user` of the request being handled. */
    var user: Option<Claims>
    var effects: seq<Effect>

    constructor()
      ensures locale == Locale.DefaultLocale && user == None && effects == []
    {
      locale := Locale.DefaultLocale;
      user := None;
      effects := [];
    }

    /** `setLocale(req, res, next)` */
    method SetLocale(req: Request)
      modifies this
      ensures effects == old(effects) + Locale.LocaleEffects(req)
      ensures locale == Locale.LocaleAfter(req, old(locale))
      ensures user == old(user)
    {
      if IsDocsUrl(req.originalUrl) {
        effects := effects + [Next];
        return;
      }
      var requested := if req.lang.Some? then req.lang.value else "";
      if requested !in Locale.Locales {
        effects := effects + [Respond(Locale.Unsupported())];
        return;
      }
      locale := requested;
      effects := effects + [SetActiveLocale(requested)];
      effects := effects + [Next];
    }

    /** `isAuth(req, res, next)` against the deny list and the verifier. */
    method IsAuth(req: Request, list: Authorization.DenyList, verifier: Authorization.Verifier)
      modifies this
      ensures effects == old(effects) + Authorization.AuthEffects(req, list, verifier)
      ensures user == if Authorization.AuthenticatedAs(req, list, verifier).Some? then Authorization.AuthenticatedAs(req, list, verifier) else old(user)
      ensures locale == old(locale)
    {
      var trace: seq<Effect>;
      var token := Authorization.Token(req.authorization);
      if IsDocsUrl(req.originalUrl) {
        trace := [Next];
      } else if token.None? {
        trace := [Respond(Authorization.NoToken())];
      } else if list.health.ConnectFails? {
        trace := [Respond(Authorization.StoreFailed(list.health.reason))];
      } else {
        var key := Authorization.DenyKey(token.value);
        trace := [Open, Get(key)];
        if list.health.LookupFails? {
          trace := trace + [Respond(Authorization.StoreFailed(list.health.reason))];
        } else {
          var inDenyList := if key in list.entries then list.entries[key] else "";
          if inDenyList != "" {
            trace := trace + [Disconnect];
            if list.health.DisconnectFails? {
              trace := trace + [Respond(Authorization.StoreFailed(list.health.reason))];
            } else {
              trace := trace + [Respond(Authorization.InvalidToken())];
            }
          } else {
            trace := trace + [Verify(token.value)];
            var verdict := if token.value in verifier then Some(verifier[token.value]) else None;
            trace := trace + [Disconnect];
            if !list.health.DisconnectFails? {
              if verdict.None? {
                trace := trace + [Respond(Authorization.InvalidToken())];
              } else {
                user := verdict;
                trace := trace + [SetUser(verdict.value), Next];
              }
            }
          }
        }
      }
      effects := effects + trace;
    }

    /** A request through the chain: a fresh `req.user`, then `setLocale`, and `isAuth` when it called `next`. */
    method HandleRequest(req: Request, list: Authorization.DenyList, verifier: Authorization.Verifier)
      modifies this
      ensures effects == old(effects) + GateEffects(req, list, verifier)
      ensures locale == Locale.LocaleAfter(req, old(locale))
      ensures user == if Next in Locale.LocaleEffects(req) then Authorization.AuthenticatedAs(req, list, verifier) else None
    {
      user := None;
      var before := effects;
      SetLocale(req);
      ghost var localeTrace := Locale.LocaleEffects(req);
      assert effects[|before|..] == localeTrace;
      if Next in effects[|before|..] {
        IsAuth(req, list, verifier);
        assert effects == before + (localeTrace + Authorization.AuthEffects(req, list, verifier));
      }
    }
  }
}
