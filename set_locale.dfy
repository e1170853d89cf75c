/**
 * src/app/middlewares/set-locale.middleware.ts: the `:lang` path parameter
 * must name a configured locale (src/core/i18n.ts), which then becomes the
 * process-wide active locale.
 */
module SetLocale {
  import opened Wrappers
  import Codes
  import CustomResponse
  import opened Requests

  /** `i18n.getLocales()` under the configuration of src/core/i18n.ts. */
  const Locales: seq<string> := ["en", "fr"]
  const DefaultLocale := "en"
  const UnsupportedMessage := "Language not supported"

  /** `req.params.lang || ""` */
  function RequestedLocale(req: Request): string {
    if req.lang.Some? then req.lang.value else ""
  }

  function Unsupported(): (r: Reply)
    ensures r.code == Codes.HttpBadRequest && !CustomResponse.IsSuccess(r)
    ensures r.body.data == CustomResponse.ErrorData(Codes.ErrGeneric, UnsupportedMessage)
  {
    CustomResponse.Error(Codes.HttpBadRequest, Codes.ErrGeneric, UnsupportedMessage)
  }

  /** What `setLocale` does with a request. */
  function LocaleEffects(req: Request): seq<Effect> {
    if IsDocsUrl(req.originalUrl) then [Next]
    else if RequestedLocale(req) !in Locales then [Respond(Unsupported())]
    else [SetActiveLocale(RequestedLocale(req)), Next]
  }

  /** The active locale after `setLocale`. */
  function LocaleAfter(req: Request, current: string): string {
    if !IsDocsUrl(req.originalUrl) && RequestedLocale(req) in Locales then RequestedLocale(req) else current
  }

  /**
   * `setLocale` either calls `next` once or answers once, never both; it
   * calls `next` exactly when the URL is a documentation URL or the
   * language is supported, and only a supported language becomes active.
   */
  lemma LocaleOutcome(req: Request, current: string)
    ensures var e := LocaleEffects(req);
      EndsOnce(e)
      && (e[|e| - 1] == Next <==> IsDocsUrl(req.originalUrl) || RequestedLocale(req) in Locales)
      && (Next in e <==> e[|e| - 1] == Next)
      && (LocaleAfter(req, current) != current ==> LocaleAfter(req, current) in Locales)
  {
  }

  /** An unsupported language, a missing one included, gets 400 and leaves the locale as it was. */
  lemma UnsupportedLocaleRejected(req: Request, current: string)
    requires !IsDocsUrl(req.originalUrl) && (req.lang.None? || req.lang.value !in ["en", "fr"])
    ensures LocaleEffects(req) == [Respond(Unsupported())]
    ensures LocaleAfter(req, current) == current
  {
    assert RequestedLocale(req) !in Locales by {
      if req.lang.None? { assert "" !in Locales; }
    }
  }

  /** A supported language becomes the active locale before `next` runs. */
  lemma SupportedLocaleActivated(req: Request, current: string)
    requires !IsDocsUrl(req.originalUrl) && req.lang.Some? && req.lang.value in ["en", "fr"]
    ensures LocaleEffects(req) == [SetActiveLocale(req.lang.value), Next]
    ensures LocaleAfter(req, current) == req.lang.value
  {
  }
}
