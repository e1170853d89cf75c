/**
 * What the two middlewares of src/app/routes/routes.ts:53-56 see of an HTTP
 * request, and the effects they have, in the order they happen.
 */
module Requests {
  import opened Wrappers
  import CustomResponse
  import Helpers

  /** `req.originalUrl`, `req.params.lang` and `req.headers.authorization`. */
  datatype Request = Request(originalUrl: string, lang: Option<string>, authorization: Option<string>)

  /** The payload `jwt.verify` decodes from a token; its shape does not matter here. */
  type Claims = string

  /** A response the middlewares send: always an error envelope. */
  type Reply = CustomResponse.Sent<()>

  datatype Effect =
    | Next                        // `next()`: the following middleware or the route runs
    | SetActiveLocale(locale: string)
    | Open                        // a deny-list connection was obtained
    | Get(key: string)            // a deny-list read
    | Disconnect                  // that connection closed
    | Verify(token: string)       // the JWT verifier consulted
    | SetUser(claims: Claims)     // `req.user = decode`
    | Respond(reply: Reply)

  /** `config.swaggerBaseUrl` in both configurations. */
  const SwaggerBaseUrl := "/v1/settings/docs"

  /** `req.originalUrl.indexOf(swaggerBaseUrl) > -1`: the documentation routes skip both middlewares. */
  predicate IsDocsUrl(url: string) {
    Helpers.Contains(url, SwaggerBaseUrl)
  }

  /** `next` or a response: what ends a middleware's work on a request. */
  predicate Terminal(e: Effect) {
    e.Next? || e.Respond?
  }

  /** Exactly one terminal effect, and it comes last. */
  predicate EndsOnce(effects: seq<Effect>) {
    |effects| > 0 && Terminal(effects[|effects| - 1])
    && forall k :: 0 <= k < |effects| - 1 ==> !Terminal(effects[k])
  }
}
