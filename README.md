# E-Luxe setting service, modelled in Dafny

The E-Luxe setting service is an Express/Mongoose microservice that keeps a
shop's reference data: currencies, languages, notifications and three named
setting documents (the global setting, the store setting and the store
customization). Every `/v1/:lang` request first goes through two middlewares:
`setLocale` only accepts the languages `en` and `fr`, and `isAuth` reads a
bearer token, refuses tokens in a Redis deny list and verifies the JWT. The
route's controller then validates the body and the path id, calls a service
backed by a Mongoose collection, and answers through one envelope,
`{status: "OK", data}` or `{status: "FAILED", data: {errNo, errMsg}}`. A
RabbitMQ consumer turns "create order notification" messages into stored
notifications.

The model keeps the source's structure:

- One Dafny module per source file.
- Each collection is a class whose `records` field the service methods
  update in place.
- Each service operation is also a specification function on a sequence of
  records (found in `Documents`, `NotificationService` and
  `SettingService`), and the methods are proved equal to it.
- Each controller is a decision table. It takes the settled service
  outcome as a parameter, just as the handler receives it in `then` or
  `catch`, and returns the status code and envelope sent.
- Lemmas connect the controllers to the store functions:
  - what a request costs the store;
  - which code it gets;
  - what a second request then sees.
- The two middlewares and the order-notification relay change state, so
  they are classes:
  - `RequestGate.Gate` holds the active locale, `req.user` and a trace of
    effects;
  - `NotificationSubscribe.Subscriber` holds its queue bindings and a log.

  Their methods are proved against pure trace functions, and the lemmas
  are about those traces.

Mongoose is modelled at the level the code relies on:

- **Validation on `save`:** required string paths, the lowercase setter, the
  `enum` check, defaults, and the `unique` language name.
- **Casting:** a path id is cast by `checkObjectId`'s 24-hex-digit rule, and
  a case-insensitive id compares in lower case. An object or array where a
  string is expected is a cast error.
- **`undefined` and `null`:** a body key that is missing is `undefined`, and
  one sent as JSON `null` is `null`. A schema default applies to `undefined`
  only. A `null` takes no default, passes the `enum` check, fails
  `required`, and leaves the path without a value.
- **Update queries:** `$set` writes named paths one by one. It strips
  `undefined` values and writes `null` ones, runs setters but not
  validators, and fails when it would write under a non-object.
- **`_id` order:** each collection is kept in ascending `_id` order, and a
  freshly generated id sorts after every stored one. `sort({_id: -1})`
  therefore lists newest first.
- **`minimize`:** empty nested objects are dropped when a setting document
  is saved.
- **`find().sort().skip().limit()`:** the notification listing.

## Model

| member | source | states |
|---|---|---|
| Helpers.CheckObjectId | src/app/utils/helpers.util.ts:14-16 | an id is accepted exactly when it is 24 characters long and every character is a hexadecimal digit of either case |
| Helpers.AllHex | src/app/utils/helpers.util.ts:14-16 | true exactly when every character is in `[0-9a-fA-F]` |
| Helpers.ObjectIdAcceptsBothCases | src/app/utils/helpers.util.ts:14-16 | a 24-digit id that mixes lower- and upper-case hexadecimal digits is accepted |
| Helpers.ObjectIdRejectsWrongLength | src/app/utils/helpers.util.ts:14-16 | an empty id, or one of 23 or 25 characters, is refused whatever its characters |
| Helpers.ObjectIdRejectsNonHex | src/app/utils/helpers.util.ts:14-16 | one non-hexadecimal character anywhere in a 24-character id makes it refused |
| Helpers.Lower | src/app/modules/currency/currency.model.ts:21-32 | the `lowercase: true` setter keeps the length and maps each character to its lower case |
| Helpers.LowerFixesLowercase | src/app/modules/currency/currency.model.ts:21-32 | the setter leaves a value that has no upper-case letter unchanged, so the stored `show` and `hide` are fixed points |
| Helpers.LowerIdempotent | src/app/modules/currency/currency.model.ts:21-32 | applying the setter twice gives the same value as applying it once |
| Helpers.Split | src/app/modules/currency/currency.controller.ts:602 | `split(",")` always yields at least one piece, and no piece contains a comma |
| Helpers.JoinSplit | src/app/modules/currency/currency.controller.ts:602 | joining the pieces of `split(",")` with commas gives back the original text |
| Helpers.SplitNoComma | src/app/modules/notification/notification.controller.ts:417 | a parameter without a comma splits into the one-element list holding itself |
| Helpers.IndexOf | src/app/middlewares/set-locale.middleware.ts:31 | `indexOf` returns -1 exactly when the substring occurs nowhere, and otherwise the first position where it occurs |
| Helpers.IndexFrom | src/app/middlewares/set-locale.middleware.ts:31 | the search from a start position finds the first occurrence at or after it, or -1 when there is none |
| Helpers.ContainsIffOccurs | src/app/middlewares/authorization.middleware.ts:43 | the documentation URL test `indexOf(base) > -1` holds exactly when the base occurs somewhere in the URL |
| Helpers.ContainsPrefix | src/app/middlewares/authorization.middleware.ts:43 | a URL that starts with the documentation base passes the bypass test |
| Helpers.Take | src/app/modules/language/language.service.ts:93-94 | `substring(0, n)` keeps the first n characters, or all of them when the text is shorter |
| Helpers.Drop | src/app/middlewares/authorization.middleware.ts:49-50 | `slice(n)` keeps what follows the first n characters, or nothing when the text is shorter |
| CustomResponse.Success | src/app/utils/custom-response.util.ts:22-24 | `success` sends the given status with tag OK and the given data |
| CustomResponse.Error | src/app/utils/custom-response.util.ts:37-45 | `error` sends the given status with tag FAILED and `{errNo, errMsg}` |
| CustomResponse.SuccessData | src/app/utils/custom-response.util.ts:22-45 | a well-formed reply carries data exactly when its tag is OK |
| CustomResponse.WellFormedIsBuilt | src/app/utils/custom-response.util.ts:22-45 | every well-formed reply is one that `success` or `error` builds from its own code and payload |
| CustomResponse.SuccessRoundTrip | src/app/utils/custom-response.util.ts:22-24 | the data read back from a success reply is the data put in, and so is the code |
| CustomResponse.SuccessNeverError | src/app/utils/custom-response.util.ts:22-45 | no success reply equals an error reply |
| CustomResponse.SuccessInjective | src/app/utils/custom-response.util.ts:22-24 | two equal success replies were built from equal codes and equal data |
| Outcomes.ErrorStatus | src/app/modules/currency/currency.controller.ts:51-59 | the `catch` answers the error's own non-zero `status`, and 500 when it has none |
| Fields.RequiredStringIsTruthyText | src/app/utils/validator.util.ts:24-33 | a field that passes `required\|string` is non-empty text, and therefore truthy |
| Fields.RequiredStringRejects | src/app/utils/validator.util.ts:24-33 | `required\|string` refuses a missing field, a `null`, a number, a boolean, an object, the empty string and a blank string |
| Fields.UnicodeBlankRejected | src/app/utils/validator.util.ts:24-33 | a string made only of Unicode spaces that JavaScript's `\s` matches (no-break space, ideographic space, byte-order mark) is blank and refused |
| Fields.CastString | src/app/modules/currency/currency.model.ts:9-20 | an `undefined` or `null` value leaves the path without a value, text is kept as given, and exactly an object or array fails to cast to String |
| Fields.SetString | src/app/modules/currency/currency.service.ts:248-264 | in `$set`, an `undefined` value is stripped and leaves the path alone, a `null` is written and unsets it, any other value is written as its String cast, and exactly an object or array is a cast error |
| Schema.RequiredText | src/app/modules/currency/currency.model.ts:5-8 | a `required: true` String path saves exactly when it casts to a non-empty string, and keeps that string; otherwise it is a validation error |
| Schema.Visibility | src/app/modules/currency/currency.model.ts:21-32 | the lowercase `show`/`hide` enum stores the lower-cased value when that is `show` or `hide` and fails validation otherwise; `undefined` takes the fallback, and `null` takes no default and leaves the path without a value |
| Schema.OptionalText | src/app/modules/currency/currency.model.ts:9-20 | an optional String path has no value when `undefined` or `null`, is the text when given, and is a validation error only for an object or array |
| Schema.OptionalSlot | src/app/modules/currency/currency.model.ts:9-20 | the optional `symbol` path keeps `undefined` (unset) apart from `null` (a stored `null`); it fails exactly when the String cast fails, and a given text is kept |
| Schema.SlotField | src/app/modules/currency/currency.model.ts:9-20 | a stored symbol written back as a body field reads back as the same stored value, `null` included |
| Schema.VisibilityIsLowercase | src/app/modules/currency/currency.model.ts:21-32 | both enum values are already in lower case, so the setter keeps them |
| Schema.StoredField | src/app/modules/currency/currency.model.ts:9-20 | a stored string value, written back as a body field, casts to the same value |
| SetLocale.Unsupported | src/app/middlewares/set-locale.middleware.ts:37-44 | an unsupported language is answered with 400, the generic error number and "Language not supported" |
| SetLocale.LocaleOutcome | src/app/middlewares/set-locale.middleware.ts:27-50 | the middleware does exactly one of answering or calling `next`, and calls `next` exactly for a documentation URL or a language in `["en", "fr"]`; the active locale only ever changes to a supported one |
| SetLocale.UnsupportedLocaleRejected | src/app/middlewares/set-locale.middleware.ts:34-44 | a missing language, or one outside `en` and `fr`, gets 400 and leaves the active locale as it was |
| SetLocale.SupportedLocaleActivated | src/app/middlewares/set-locale.middleware.ts:45-48 | for `en` or `fr` the middleware makes that language active and then calls `next` |
| Authorization.Token | src/app/middlewares/authorization.middleware.ts:49-53 | there is a token exactly when the header is longer than 7 characters, and the token is everything after the seventh |
| Authorization.AuthOutcome | src/app/middlewares/authorization.middleware.ts:42-113 | besides the request the verify callback stalls on, `isAuth` does exactly one of answering or calling `next`, as its last step; on the stalled request it does neither; it calls `next` exactly for a documentation URL, or for a token that is not denied and that the verifier accepts while every Redis call succeeds; `req.user` is set exactly in the second case |
| Authorization.NoConnectionOpened | src/app/middlewares/authorization.middleware.ts:43-53 | a documentation URL, a missing token or a failed Redis connection opens and closes nothing |
| Authorization.LookupFailureLeavesOpen | src/app/middlewares/authorization.middleware.ts:54-59 | a rejected deny-list lookup leaves the opened connection unclosed |
| Authorization.ReachableOpensAndCloses | src/app/middlewares/authorization.middleware.ts:54-92 | once the lookup succeeds, the connection is opened once and closed once, on the denied, the invalid and the valid token alike, and also when that close rejects |
| Authorization.AuthDisconnects | src/app/middlewares/authorization.middleware.ts:53-92 | Redis is opened at most once, and only when there is a token and the connection succeeds; a close is attempted at most once, and exactly when the connection was opened and the lookup succeeded |
| Authorization.DocsUrlBypasses | src/app/middlewares/authorization.middleware.ts:43 | a documentation URL goes straight to `next`, without a token and without Redis |
| Authorization.ShortHeaderHasNoToken | src/app/middlewares/authorization.middleware.ts:103-111 | a missing header, or one of 7 characters or fewer, is answered with 401 and error number 14 |
| Authorization.PrefixIsNotChecked | src/app/middlewares/authorization.middleware.ts:49-50 | the first seven characters of the header are never inspected: any 7-character prefix gives the same outcome as `Bearer ` |
| Authorization.DenyListKey | src/app/middlewares/authorization.middleware.ts:57-59 | the deny-list lookup is always made under the key `bl_` followed by the token |
| Authorization.DeniedTokenRefused | src/app/middlewares/authorization.middleware.ts:62-72 | a denied token is answered after the close: 401 with error number 11, or, when the close rejects, the `catch` reply with the error's status and the generic error number; the JWT is never verified |
| Authorization.VerifyThenDisconnect | src/app/middlewares/authorization.middleware.ts:75-91 | a token that is not denied is verified and then Redis is closed; when the close rejects, nothing follows (no reply and no `next`); otherwise the user is set and `next` called, or the request gets 401 |
| Authorization.StoreFailureAnswered | src/app/middlewares/authorization.middleware.ts:94-102 | a Redis connection or lookup that fails is answered with the error's status and the generic error number, and nothing is disconnected |
| RequestGate.LocaleCheckedFirst | src/app/routes/routes.ts:52-55 | an unsupported language is refused with 400 before `isAuth` runs, whatever the token, and Redis is never touched |
| RequestGate.RouteRunsIff | src/app/routes/routes.ts:52-55 | the route handler runs exactly for a documentation URL, or for a supported language with an accepted token; a response, when one is sent, is the last effect; and the trace ends in a response or `next` unless `isAuth` stalls on a rejected close in the verify callback |
| RequestGate.Gate.constructor | src/core/i18n.ts:5 | the active locale starts as the default `en`, with no user and no effects |
| RequestGate.Gate.SetLocale | src/app/middlewares/set-locale.middleware.ts:27-50 | appends exactly the middleware's effects to the trace, moves the locale as the request asks, and leaves `req.user` alone |
| RequestGate.Gate.IsAuth | src/app/middlewares/authorization.middleware.ts:42-113 | appends exactly `isAuth`'s effects, sets `req.user` to the verified claims when there are any, and leaves the locale alone |
| RequestGate.Gate.HandleRequest | src/app/routes/routes.ts:52-55 | the request runs `setLocale`, then `isAuth` only if `setLocale` called `next`; the trace, the locale and `req.user` are those of that chain |
| Documents.CastId | src/app/modules/currency/currency.service.ts:20-26 | a valid id casts to the lower-case form under which records are stored, and a stored id casts to itself |
| Documents.CastIds | src/app/modules/currency/currency.service.ts:310-318 | a list of valid ids casts element by element |
| Documents.Locate | src/app/modules/currency/currency.service.ts:285 | finds the first record with the id, and finds none exactly when no record has it |
| Documents.LocateUnique | src/app/modules/currency/currency.service.ts:285 | with unique ids, the record holding an id is the one found |
| Documents.FindById | src/app/modules/currency/currency.service.ts:20-26 | an id that is not an ObjectId is a CastError; otherwise the result is a record exactly when one has the cast id, and that record is in the collection |
| Documents.SaveById | src/app/modules/currency/currency.service.ts:138-159 | look the record up, change it, save it: a bad id is a CastError, an unknown id is `null` and nothing changes, a change that fails validation changes nothing, and otherwise only that record is replaced |
| Documents.DeleteById | src/app/modules/currency/currency.service.ts:281-292 | an unknown id resolves with `null` and deletes nothing; a known one removes exactly that record and reports one deletion |
| Documents.DeleteRemovesId | src/app/modules/currency/currency.service.ts:281-292 | after a delete the id is gone from the collection, and ids stay unique |
| Documents.DeleteTwice | src/app/modules/currency/currency.service.ts:281-292 | deleting the same id twice deletes once and then resolves with `null` without changing anything |
| Documents.UpdateIdsIn | src/app/modules/currency/currency.service.ts:248-264 | `updateMany({_id: ids})` with valid ids changes exactly the records whose id is listed and keeps their order, and reports as matched and as modified the number of records whose id is listed (`timestamps` touch every match); any invalid id is a CastError that changes nothing |
| Documents.DeleteIdsIn | src/app/modules/currency/currency.service.ts:310-318 | `deleteMany({_id: ids})` keeps exactly the records whose id is not listed, in their order, and reports how many went; any invalid id is a CastError that deletes nothing |
| Documents.MapKeepsUniqueKeys | src/app/modules/currency/currency.service.ts:248-264 | an update that keeps every record's key keeps the keys unique |
| Documents.FilterKeepsUniqueKeys | src/app/modules/currency/currency.service.ts:310-318 | removing records keeps the keys unique |
| Documents.AppendKeepsUniqueKeys | src/app/modules/currency/currency.service.ts:114-120 | appending records with new keys keeps the keys unique |
| Documents.RemoveAtKeepsUniqueKeys | src/app/modules/currency/currency.service.ts:288 | removing one record keeps the keys unique |
| Documents.DeleteKeepsUniqueKeys | src/app/modules/language/language.service.ts:245-256 | a delete by id keeps any other unique key, such as the language name, unique |
| Documents.NewerIsUnused | src/app/modules/currency/currency.service.ts:89-97 | an id newer than every stored one is not in use |
| Documents.AscendingIsUnique | src/app/modules/currency/currency.service.ts:46 | ids in strictly ascending order are distinct |
| Documents.ReverseDescends | src/app/modules/currency/currency.service.ts:46 | reversing a list in ascending `_id` order gives descending `_id` order |
| Documents.FilterNewestFirst | src/app/modules/currency/currency.service.ts:42-50 | the listing `find(condition).sort({_id: -1})` read back to front is a subsequence of the collection, and it is newest first when the collection is in `_id` order |
| Documents.WindowKeepsIdsDescending | src/app/modules/notification/notification.service.ts:63-64 | a window taken in order from a newest-first listing, as `skip` and `limit` take it, is newest first too |
| Documents.ReverseKeepsElements | src/app/modules/currency/currency.service.ts:46 | reversing keeps exactly the same elements |
| Documents.MapKeepsIdsAscending | src/app/modules/currency/currency.service.ts:248-264 | an update that keeps every record's id keeps `_id` order |
| Documents.FilterKeepsIdsAscending | src/app/modules/currency/currency.service.ts:310-318 | removing records by a condition keeps `_id` order |
| Documents.AppendKeepsIdsAscending | src/app/modules/currency/currency.service.ts:114-120 | appending records in ascending order under ids newer than the stored ones keeps `_id` order |
| Documents.RemoveAtKeepsIdsAscending | src/app/modules/currency/currency.service.ts:288 | removing one record keeps `_id` order |
| Documents.DeleteKeepsIdsAscending | src/app/modules/currency/currency.service.ts:281-292 | a delete by id keeps `_id` order |
| Collections.Filter | src/app/modules/currency/currency.service.ts:42-50 | `find(condition)` keeps exactly the records that meet it |
| Collections.FilterIsSubsequence | src/app/modules/currency/currency.service.ts:42-50 | the filtered records keep the collection's order |
| Collections.Reverse | src/app/modules/currency/currency.service.ts:46 | `sort({_id: -1})` over records in insertion order lists them backwards |
| Collections.ReverseReverse | src/app/modules/currency/currency.service.ts:46 | reversing twice gives back the original order |
| Collections.Count | src/app/modules/notification/notification.service.ts:53-56 | `countDocuments(condition)` is the number of records that meet it |
| Collections.Page | src/app/modules/notification/notification.service.ts:57-64 | `skip(n).limit(m)` returns at most m records, taken in order from position n |
| Collections.PagesAreConsecutive | src/app/modules/notification/notification.service.ts:57-64 | a page of a records followed by the next page of b records is the page of a + b records |
| Collections.StrLeTotal | src/app/modules/currency/currency.service.ts:66-72 | any two names are ordered one way or the other |
| Collections.StrLeTransitive | src/app/modules/currency/currency.service.ts:66-72 | the name order is transitive |
| Collections.Insert | src/app/modules/currency/currency.service.ts:66-72 | inserting into a name-sorted list keeps it sorted and adds exactly that record |
| Collections.SortBy | src/app/modules/currency/currency.service.ts:66-72 | `sort({name: 1})` returns the same records, sorted by name |
| Collections.FindFirst | src/app/modules/notification/notification.service.ts:231-242 | `findOne(condition)` finds the first record that meets it, or none when no record does |
| Collections.MapWhere | src/app/modules/notification/notification.service.ts:169-185 | an update by condition changes exactly the records that meet it and keeps the others |
| Collections.RemoveAt | src/app/modules/currency/currency.service.ts:288 | `deleteOne` on a record removes that one record and keeps the order of the rest |
| CurrencyModel.Build | src/app/modules/currency/currency.model.ts:3-32 | a currency saves exactly when its name is a non-empty string, its text paths cast, and both visibility paths give `show` or `hide`; the saved document holds those values |
| CurrencyModel.NewCurrency | src/app/modules/currency/currency.model.ts:3-32 | a new currency is valid; each visibility path defaults to `show` when `undefined`, has a value exactly when it was not `null`; the symbol is unset exactly when `undefined` and a stored `null` exactly when `null`; a missing, `null` or empty name is a validation error |
| CurrencyModel.NameOnlyCurrency | src/app/modules/currency/currency.model.ts:3-32 | a currency given only a name is saved with no symbol, ISO code or exchange rate, and with both visibility paths `show` |
| CurrencyModel.NullStatusCurrency | src/app/modules/currency/currency.model.ts:21-26 | a currency posted with a name and `status: null` is stored without a status, keeps the live-rates default, and is not among the showing currencies |
| CurrencyModel.AsInput | src/app/modules/currency/currency.service.ts:148-153 | a stored currency read back as a body keeps its name |
| CurrencyModel.ResaveUnchanged | src/app/modules/currency/currency.service.ts:138-159 | saving a valid stored currency without change gives it back unchanged |
| CurrencyModel.Overwritten | src/app/modules/currency/currency.service.ts:148-153 | `update` assigns every body path to the document: a path missing from the body is cleared, a `null` symbol is stored as `null`, and the id is kept |
| CurrencyModel.OverwriteForgetsOldValues | src/app/modules/currency/currency.service.ts:148-153 | the result of `update` depends only on the id and the body, not on the old values |
| CurrencyModel.StatusUpdated | src/app/modules/currency/currency.service.ts:188-189 | `updateStatus` keeps the id and yields a valid currency |
| CurrencyModel.StatusUpdateCopiesIntoLive | src/app/modules/currency/currency.service.ts:188-189 | `updateStatus` writes the lower-cased status into both `status` and `live_exchange_rates`, and fails validation unless that is `show` or `hide` |
| CurrencyModel.StatusUpdateUnsetKeepsLive | src/app/modules/currency/currency.service.ts:188-189 | a missing or `null` status clears `status` and leaves `live_exchange_rates` as it was |
| CurrencyModel.LiveUpdated | src/app/modules/currency/currency.service.ts:224 | the live-rates update keeps the id and yields a valid currency |
| CurrencyModel.LiveUpdateChangesOnlyLive | src/app/modules/currency/currency.service.ts:224 | the live-rates update changes `live_exchange_rates` alone, to the lower-cased value, and fails exactly when that value is not allowed |
| CurrencyModel.StatusSet | src/app/modules/currency/currency.service.ts:248-264 | `updateMany`'s `$set` runs the lowercase setter on the status and touches nothing else; a stripped `undefined` changes nothing and a `null` unsets the status |
| CurrencyModel.NewCurrencies | src/app/modules/currency/currency.service.ts:114-120 | `insertMany` validates every currency: it succeeds exactly when each one would save alone, and returns them in order |
| CurrencyService.UpdateManyNullUnsets | src/app/modules/currency/currency.service.ts:248-264 | `updateMany` with `status: null` unsets the status of exactly the listed currencies and keeps the others |
| CurrencyService.UpdateManyUndefinedKeeps | src/app/modules/currency/currency.service.ts:248-264 | `updateMany` without a status key changes no currency |
| CurrencyService.CurrencyCollection.constructor | src/app/modules/currency/currency.model.ts:42 | the collection starts empty |
| CurrencyService.CurrencyCollection.GetById | src/app/modules/currency/currency.service.ts:20-26 | an invalid id is a CastError; a valid one finds the stored currency with that id exactly when there is one |
| CurrencyService.CurrencyCollection.GetShowingCurrency | src/app/modules/currency/currency.service.ts:42-50 | returns exactly the currencies whose status is `show`, in strictly descending `_id` order when the collection is in ascending `_id` order (which `Valid` keeps) |
| CurrencyService.CurrencyCollection.GetAll | src/app/modules/currency/currency.service.ts:66-72 | returns every currency, each as often as stored, sorted by name |
| CurrencyService.CurrencyCollection.Store | src/app/modules/currency/currency.service.ts:89-97 | under an id newer than every stored one, adds the saved currency at the end when it validates, and otherwise changes nothing; ids stay unique and ascending |
| CurrencyService.CurrencyCollection.StoreMany | src/app/modules/currency/currency.service.ts:114-120 | under ascending ids newer than every stored one, adds all the currencies when every one validates, and none otherwise |
| CurrencyService.CurrencyCollection.SaveChanged | src/app/modules/currency/currency.service.ts:138-159 | find, change and save one currency, with the outcome `SaveById` specifies; ids stay unique |
| CurrencyService.CurrencyCollection.Update | src/app/modules/currency/currency.service.ts:138-159 | replaces the currency with the body's values, with `null` for an unknown id |
| CurrencyService.CurrencyCollection.UpdateStatus | src/app/modules/currency/currency.service.ts:178-195 | sets `status` and `live_exchange_rates` of the one currency, with `null` for an unknown id |
| CurrencyService.CurrencyCollection.UpdateLiveExchangeRateStatus | src/app/modules/currency/currency.service.ts:214-230 | sets `live_exchange_rates` of the one currency, with `null` for an unknown id |
| CurrencyService.CurrencyCollection.UpdateMany | src/app/modules/currency/currency.service.ts:248-264 | applies the `$set` write of the status to exactly the listed currencies (lower-cased, unset for `null`, nothing for `undefined`); a status that cannot be cast, or an invalid id, changes nothing |
| CurrencyService.CurrencyCollection.Delete | src/app/modules/currency/currency.service.ts:281-292 | removes the one currency with the id, or answers `null` and keeps everything |
| CurrencyService.CurrencyCollection.DeleteMany | src/app/modules/currency/currency.service.ts:310-318 | removes exactly the listed currencies and reports how many |
| LanguageModel.Save | src/app/modules/language/language.model.ts:3-13 | a language saves exactly when its name and ISO code are non-empty strings, its flag casts, its status is allowed and no other language has its name; a failure is a validation or duplicate-key error |
| LanguageModel.DefaultIsoCode | src/app/modules/language/language.service.ts:93-94 | a missing ISO code becomes the first two letters of the lower-cased name, and a name that is not a string throws a TypeError |
| LanguageModel.NewLanguage | src/app/modules/language/language.service.ts:89-99 | a stored language is valid with a free name; its status defaults to `show` when `undefined` and is unset when `null`, and its ISO code is the given one or the derived one |
| LanguageModel.StoreDuplicateNameRefused | src/app/modules/language/language.model.ts:5 | a second language with a name already stored is refused |
| LanguageModel.NameOnlyLanguage | src/app/modules/language/language.service.ts:89-99 | a language given only a free, non-empty name is stored with the first two letters of its lower-cased name as ISO code and status `show` |
| LanguageModel.NullStatusLanguage | src/app/modules/language/language.model.ts:8-12 | a language posted with a free name and `status: null` is stored without a status |
| LanguageModel.StoredText | src/app/modules/language/language.service.ts:150-153 | a stored non-empty string, used as a fallback, validates as itself |
| LanguageModel.OrElse | src/app/modules/language/language.service.ts:150-153 | `data.x \|\| language.x` takes the body's value when it is truthy, and the stored one otherwise |
| LanguageModel.FallbackUpdated | src/app/modules/language/language.service.ts:140-159 | `update` keeps the id and yields a valid language; without a truthy name the old name stays |
| LanguageModel.UpdateFallsBack | src/app/modules/language/language.service.ts:150-153 | an update whose fields are all falsy gives back the language unchanged |
| LanguageModel.UpdateTakesGivenName | src/app/modules/language/language.service.ts:150-153 | an update giving only a new name renames the language, or fails with a duplicate key when that name is taken |
| LanguageModel.StatusUpdated | src/app/modules/language/language.service.ts:188 | `updateStatus` keeps the id and yields a valid language |
| LanguageModel.StatusUpdateChangesOnlyStatus | src/app/modules/language/language.service.ts:188 | `updateStatus` changes the status alone, to the validated value, and fails exactly when that value is not allowed |
| LanguageModel.StatusSet | src/app/modules/language/language.service.ts:212-228 | `updateMany`'s `$set` lower-cases the status and touches nothing else; a stripped `undefined` changes nothing and a `null` unsets the status |
| LanguageService.ValidatedLanguages | src/app/modules/language/language.service.ts:116-122 | `insertMany` first validates every document on its own, and fails unless all pass |
| LanguageService.InsertOrdered | src/app/modules/language/language.service.ts:116-122 | the ordered insert stops at the first duplicate name and keeps the documents inserted before it |
| LanguageService.InsertOrderedKeepsUnique | src/app/modules/language/language.model.ts:5 | the ordered insert of ascending ids newer than the stored ones keeps ids and names unique and ids ascending |
| LanguageService.InsertOrderedStored | src/app/modules/language/language.service.ts:116-122 | every document the ordered insert leaves in the collection is a valid stored language |
| LanguageService.ReplaceKeepsUniqueNames | src/app/modules/language/language.model.ts:5 | replacing a language by one with the same id and a free name keeps ids and names unique |
| LanguageService.LanguageCollection.constructor | src/app/modules/language/language.model.ts:23 | the collection starts empty |
| LanguageService.LanguageCollection.GetById | src/app/modules/language/language.service.ts:20-26 | an invalid id is a CastError; a valid one finds the language with that id exactly when there is one |
| LanguageService.LanguageCollection.GetShowingLanguage | src/app/modules/language/language.service.ts:42-50 | returns exactly the languages whose status is `show`, in strictly descending `_id` order when the collection is in ascending `_id` order (which `Valid` keeps) |
| LanguageService.LanguageCollection.GetAll | src/app/modules/language/language.service.ts:66-72 | returns every language, sorted by name |
| LanguageService.LanguageCollection.Store | src/app/modules/language/language.service.ts:89-99 | under an id newer than every stored one, appends the saved language when it validates and its name is free, and otherwise changes nothing |
| LanguageService.LanguageCollection.StoreMany | src/app/modules/language/language.service.ts:116-122 | a batch that fails validation changes nothing; otherwise the ordered insert runs and keeps what it inserted |
| LanguageService.LanguageCollection.SaveChanged | src/app/modules/language/language.service.ts:140-159 | find, change and save one language, with the outcome `SaveById` specifies; ids and names stay unique |
| LanguageService.LanguageCollection.Update | src/app/modules/language/language.service.ts:140-159 | updates the one language with the falsy-fallback rule, or answers `null` |
| LanguageService.LanguageCollection.UpdateStatus | src/app/modules/language/language.service.ts:178-194 | updates the status of the one language, or answers `null` |
| LanguageService.LanguageCollection.UpdateMany | src/app/modules/language/language.service.ts:212-228 | applies the `$set` write of the status to exactly the listed languages (unset for `null`, nothing for `undefined`); a cast failure changes nothing |
| LanguageService.LanguageCollection.Delete | src/app/modules/language/language.service.ts:245-256 | removes the one language with the id, or answers `null` |
| LanguageService.LanguageCollection.DeleteMany | src/app/modules/language/language.service.ts:274-282 | removes exactly the listed languages and reports how many |
| NotificationModel.ObjectIdPath | src/app/modules/notification/notification.model.ts:10-12 | an ObjectId path has no value exactly when it is `undefined` or `null`, and otherwise stores the cast id exactly when the text is a valid ObjectId |
| NotificationModel.KindPath | src/app/modules/notification/notification.model.ts:5-9 | `type` is required and must be one of order, product, contact or customization |
| NotificationModel.ReadStatePath | src/app/modules/notification/notification.model.ts:19 | `status` takes the fallback when `undefined`, has no value when `null`, and otherwise must be `read` or `unread` |
| NotificationModel.NewNotification | src/app/modules/notification/notification.model.ts:3-19 | a notification saves exactly when every path validates; its status defaults to `unread` when `undefined` and is unset when `null`, and it carries the body's type, message and ids |
| NotificationModel.KindAndMessageRequired | src/app/modules/notification/notification.model.ts:5-17 | a missing, `null` or unknown type, or a missing, `null` or empty message, is a validation error |
| NotificationModel.MinimalInput | src/app/modules/notification/notification.model.ts:3-19 | a body with only a type and a message |
| NotificationModel.MinimalNotificationIsUnread | src/app/modules/notification/notification.model.ts:3-19 | a notification saved from only a valid type and a message is unread, and every other path is unset |
| NotificationModel.NullStatusUnlisted | src/app/modules/notification/notification.service.ts:53-62 | a notification saved with `status: null` has no status, so it is neither listed by `getAll` nor counted as unread |
| NotificationModel.StatusSet | src/app/modules/notification/notification.service.ts:137 | the status update writes the given status and nothing else; a stripped `undefined` writes nothing and a `null` unsets the status |
| NotificationService.PageSize | src/app/modules/notification/notification.service.ts:51 | `limits = data.limit \|\| 5`: a missing or empty limit is 5, a non-negative numeric limit is itself, a negative one is its magnitude (a single batch) |
| NotificationService.Limits | src/app/modules/notification/notification.service.ts:51 | a missing or empty `limit` query value becomes 5, and any other value is kept |
| NotificationService.Arith | src/app/modules/notification/notification.service.ts:52 | a query value in arithmetic: `undefined` and a non-numeric string are NaN, the empty string is 0, a numeral is its value |
| NotificationService.Skip | src/app/modules/notification/notification.service.ts:52 | the skip is NaN exactly when `page` is missing or not a number, or the limit is not a number; page 1 skips nothing, and the skip plus one page is `page` pages; a page from 1 on with a non-negative limit skips a non-negative number |
| NotificationService.NewestListed | src/app/modules/notification/notification.service.ts:57-62 | the listing holds exactly the stored notifications whose status is read or unread, and read back to front it is a subsequence of the collection |
| NotificationService.NewestListedNewestFirst | src/app/modules/notification/notification.service.ts:57-62 | on a collection in `_id` order the listing is in strictly descending `_id` order |
| NotificationService.Window | src/app/modules/notification/notification.service.ts:63-64 | `limit(0)` means no limit, and any other limit cuts the page |
| NotificationService.ListingOf | src/app/modules/notification/notification.service.ts:44-66 | rejects exactly when the skip is NaN or negative, with the query's error, so a request without `page` is rejected; otherwise counts every notification and the unread ones, and returns at most one page of listed notifications, taken in order from the skip |
| NotificationService.ListingAt | src/app/modules/notification/notification.service.ts:53-64 | the two counts over the whole collection, and at most `n` listed notifications taken in order from the skip |
| NotificationService.ListingNewestFirst | src/app/modules/notification/notification.service.ts:57-64 | on a collection in `_id` order every page of the listing is newest first |
| NotificationService.WindowNewestFirst | src/app/modules/notification/notification.service.ts:57-64 | every window of the listing at a known skip is newest first on a collection in `_id` order |
| NotificationService.NumericPage | src/app/modules/notification/notification.service.ts:51-64 | a page from 1 on with a positive limit is resolved and is the page of that size after the pages before it |
| NotificationService.NextPageFollows | src/app/modules/notification/notification.service.ts:51-64 | page p followed by page p + 1 is one window of twice the size: pages neither overlap nor leave gaps |
| NotificationService.DefaultFirstPage | src/app/modules/notification/notification.service.ts:51-64 | `page=1` without `limit` is resolved and is the five newest listed notifications |
| NotificationService.PageBeforeFirstRejected | src/app/modules/notification/notification.service.ts:52-64 | `page=0`, or an empty `page`, makes the skip negative and the query rejects |
| NotificationService.NoLimitListsAll | src/app/modules/notification/notification.service.ts:51-64 | `limit=0` skips nothing on any numeric page and lists every listed notification |
| NotificationService.StatusUpdateOf | src/app/modules/notification/notification.service.ts:128-152 | an invalid id or a status that cannot be cast is a CastError; otherwise only the notification with the id gets the `$set` write (unset for `null`, nothing for `undefined`), and the reply counts the unread ones afterwards |
| NotificationService.StatusUpdateUnknownId | src/app/modules/notification/notification.service.ts:137-149 | an unknown id changes nothing and still resolves with the unread count, never with `null` |
| NotificationService.DeleteByProductIdOf | src/app/modules/notification/notification.service.ts:231-242 | removes the first notification for the product and reports one deletion, or answers `null` when there is none |
| NotificationService.DeleteByProductIdRemovesOne | src/app/modules/notification/notification.service.ts:231-242 | only one notification goes even when several share the product, and the rest keep their order |
| NotificationService.StoreOf | src/app/modules/notification/notification.service.ts:103-109 | the notification is appended when it validates, and otherwise the collection is unchanged |
| NotificationService.StoringTwiceKeepsBoth | src/app/modules/notification/notification.service.ts:87-109 | storing the same body twice stores two notifications for the same product: the duplicate check is disabled |
| NotificationService.NotificationCollection.constructor | src/app/modules/notification/notification.model.ts:29 | nothing is stored and nothing has been emitted on the socket |
| NotificationService.NotificationCollection.Show | src/app/modules/notification/notification.service.ts:21-27 | an invalid id is a CastError; a valid one finds the notification with that id exactly when there is one |
| NotificationService.NotificationCollection.GetAll | src/app/modules/notification/notification.service.ts:44-66 | rejects exactly when the skip is NaN or negative; otherwise the counts cover the whole collection, and the page holds at most a page of stored, listed notifications, newest first |
| NotificationService.NotificationCollection.Store | src/app/modules/notification/notification.service.ts:103-109 | under an id newer than every stored one, stores the notification as `StoreOf` says, and emits it on the socket exactly when it was saved |
| NotificationService.NotificationCollection.UpdateStatus | src/app/modules/notification/notification.service.ts:128-152 | updates as `StatusUpdateOf` says, and emits nothing |
| NotificationService.NotificationCollection.UpdateManyStatus | src/app/modules/notification/notification.service.ts:169-185 | a body without `ids` throws a TypeError; otherwise it applies the `$set` write of the status (unset for `null`, nothing for `undefined`) to exactly the listed notifications |
| NotificationService.NotificationCollection.Delete | src/app/modules/notification/notification.service.ts:202-213 | removes the one notification with the id, or answers `null` |
| NotificationService.NotificationCollection.DeleteByProductId | src/app/modules/notification/notification.service.ts:231-242 | removes the first notification for the product, as `DeleteByProductIdOf` says |
| NotificationService.NotificationCollection.DeleteMany | src/app/modules/notification/notification.service.ts:260-268 | removes exactly the listed notifications and reports how many |
| SettingService.Member | src/app/modules/setting/setting.service.ts:178-219 | reading `data.setting.x` gives the member, and throws a TypeError when `data.setting` is not an object |
| SettingService.SameName | src/app/modules/setting/setting.service.ts:178-219 | for each listed path, the update reads the body field of the same name |
| SettingService.Writes | src/app/modules/setting/setting.service.ts:178-219 | a `$set` path is written exactly when its body value is defined, and it is written with that value |
| SettingService.SetFields | src/app/modules/setting/setting.service.ts:172-222 | `$set` on `setting.x` paths writes exactly those members and keeps every other one, and fails when `setting` is not an object |
| SettingService.SectionWrite | src/app/modules/setting/setting.service.ts:321-956 | a written section holds each written field and keeps every other field of the old section |
| SettingService.SectionWrites | src/app/modules/setting/setting.service.ts:321-956 | exactly the sections with writes are replaced, each with `SectionWrite`'s merge |
| SettingService.SetSections | src/app/modules/setting/setting.service.ts:321-956 | `$set` on `setting.section.x` paths writes exactly those members of each section and keeps every other section and member, and fails when it would write under a non-object |
| SettingService.SymbolFilter | src/app/modules/setting/setting.service.ts:168-170 | the currency lookup filters on the given symbol; an undefined or `null` symbol matches an unset one, and an object or array is a cast error |
| SettingService.CurrencyBySymbol | src/app/modules/setting/setting.service.ts:168-170 | `findOne({symbol})` returns the first currency whose symbol matches (a `null` filter matches a stored `null` and an unset symbol), nothing exactly when none matches, and rejects exactly when the filter cannot be cast |
| SettingService.CurrencyWrites | src/app/modules/setting/setting.service.ts:189-190 | the found currency's name is written, and its symbol is written as text, as `null` when it stored `null`, and not at all when it is unset; nothing is written when no currency was found |
| SettingService.CopySymbolWrites | src/app/modules/setting/setting.service.ts:189-190 | an update that copies no body symbol leaves the setting's default symbol as the found currency writes it, or as it was |
| SettingService.SectionedWrites | src/app/modules/setting/setting.service.ts:328-954 | each section of a table gets a write for exactly those listed fields whose source field the input section holds, with that value |
| SettingService.SettingOf | src/app/modules/setting/setting.service.ts:23-27 | `findOne({name})?.setting` reads the setting of the first document with that name, or nothing when none has it |
| SettingService.BuildProjection | src/app/modules/setting/setting.service.ts:76-88 | the projection names exactly the requested setting keys, or the whole `setting` when none is requested |
| SettingService.PathInjective | src/app/modules/setting/setting.service.ts:79-82 | two different keys never give the same `setting.` path |
| SettingService.Selection | src/app/modules/setting/setting.service.ts:90-95 | a projected read keeps exactly the requested keys of the setting, each with its stored value |
| SettingService.Minimize | src/app/modules/setting/setting.model.ts:9 | `minimize` keeps objects as objects and arrays as arrays (of the same length), drops members, and leaves scalars alone |
| SettingService.MinimizeIsMinimal | src/app/modules/setting/setting.model.ts:9 | after `minimize` no nested object is empty |
| SettingService.MinimizeKeepsMinimal | src/app/modules/setting/setting.model.ts:9 | `minimize` leaves a value with no empty nested object unchanged |
| SettingService.MinimizeIdempotent | src/app/modules/setting/setting.model.ts:9 | applying `minimize` twice is the same as applying it once |
| SettingService.SavedSetting | src/app/modules/setting/setting.model.ts:9 | a saved `setting` is never an empty object and has no empty nested object, and a setting already so is saved as given |
| SettingService.NewSetting | src/app/modules/setting/setting.service.ts:140-160 | a setting document saves exactly when its name is a non-empty string, and stores the minimized setting |
| SettingService.UpdateNamedChangesOnlyNamed | src/app/modules/setting/setting.service.ts:172-222 | `updateOne({name})` changes at most the first document with that name, keeps every id and name, and matches one document exactly when that name exists |
| SettingService.FindNamedAndUpdateChangesOnlyNamed | src/app/modules/setting/setting.service.ts:321-326 | `findOneAndUpdate({name}, …, {new: true})` changes at most the named document and returns it as updated, or `null` when there is none |
| SettingService.SameKeysKeepStored | src/app/modules/setting/setting.service.ts:172-222 | an update that keeps every id and name keeps the ids unique |
| SettingService.FlatUpdateWrites | src/app/modules/setting/setting.service.ts:172-222 | a flat `$set` writes exactly its members into the named document's setting and keeps every other member |
| SettingService.CurrencyNameNotCopied | src/app/modules/setting/setting.service.ts:178-190 | the default currency name is not among the fields copied from the body |
| SettingService.CurrencySymbolNotCopied | src/app/modules/setting/setting.service.ts:178-190 | the default currency symbol is not among the fields copied from the body |
| SettingService.CurrencyFieldsNotCopied | src/app/modules/setting/setting.service.ts:178-190 | the default currency name and symbol are not among the fields copied from the body |
| SettingService.GlobalUpdateWrites | src/app/modules/setting/setting.service.ts:164-222 | the global update writes each listed body field that is defined, keeps the ones that are not and every other path, and takes the default currency's name from the currency found by symbol |
| SettingService.GlobalUpdateWritesSymbol | src/app/modules/setting/setting.service.ts:168-190 | after the global update the default symbol is the found currency's, `null` when it stored `null`, and the old value when none was found or its symbol is unset |
| SettingService.GlobalUpdateThenRead | src/app/modules/setting/setting.service.ts:19-27 | reading the global setting after an update that succeeded gives back each listed field the body defined |
| SettingService.CopyAndCurrencyWrites | src/app/modules/setting/setting.service.ts:172-222 | copying body fields and the currency's fields in one `$set` writes each as if alone |
| SettingService.GlobalUpdateIgnoresGivenCurrencyName | src/app/modules/setting/setting.service.ts:168-190 | the default currency name given in the body has no effect on the global update |
| SettingService.StoreUpdateWrites | src/app/modules/setting/setting.service.ts:241-297 | the store update writes each listed field that the body defines and keeps every other member of the stored setting |
| SettingService.StoreUpdateWithNothingToWrite | src/app/modules/setting/setting.service.ts:245-295 | a store update whose body defines none of the listed fields changes no document |
| SettingService.UpdateNamedKeepsLocate | src/app/modules/setting/setting.service.ts:245-249 | after an update, the name still leads to the same document |
| SettingService.LocateSameKeys | src/app/modules/setting/setting.service.ts:245-249 | collections with the same names in the same places locate a name at the same place |
| SettingService.StoreUpdateThenRead | src/app/modules/setting/setting.service.ts:43-51 | after a store update, `getStoreSetting` reads back each field the body defined |
| SettingService.CustomizationNeedsEverySection | src/app/modules/setting/setting.service.ts:328-954 | a customization body missing any section, or with a `null` one, throws a TypeError and changes nothing |
| SettingService.SectionedUpdateWrites | src/app/modules/setting/setting.service.ts:314-962 | a sectioned update of a named document writes each listed field with a value into its section, keeps every other member and section, and returns the updated document |
| SettingService.CustomizationUpdateWrites | src/app/modules/setting/setting.service.ts:314-962 | the customization update writes each defined field into its section, keeps every other member and section, and returns the updated document |
| SettingService.AboutUsSection | src/app/modules/setting/setting.service.ts:621-736 | the `about_us` section of the customization table is the `about_us` field table |
| SettingService.FounderTwoSubTakesFounderTwoName | src/app/modules/setting/setting.service.ts:674-675 | the `about_us.founder_two_sub` path is written from the body's `founder_two_name` |
| SettingService.FeaturesOneLeftImgTakesImage | src/app/modules/setting/setting.service.ts:703-704 | the `about_us.features_one_left_img` path is written from the body's `features_one_left_image` |
| SettingService.SeoIsCustomizationSection | src/app/modules/setting/setting.service.ts:111-122 | the SEO read is the customization read restricted to the `seo` key |
| SettingService.SettingCollection.constructor | src/app/modules/setting/setting.model.ts:21 | the collection starts empty |
| SettingService.SettingCollection.GetGlobalSetting | src/app/modules/setting/setting.service.ts:19-27 | returns the setting of the first document named `globalSetting`, and nothing when none has the name |
| SettingService.SettingCollection.GetStoreSetting | src/app/modules/setting/setting.service.ts:43-51 | returns the setting of the first document named `storeSetting`, and nothing when none has the name |
| SettingService.SettingCollection.GetStoreCustomizationSetting | src/app/modules/setting/setting.service.ts:69-95 | returns the requested keys of the customization setting, or all of it |
| SettingService.SettingCollection.GetStoreSeoSetting | src/app/modules/setting/setting.service.ts:111-122 | returns the `seo` key of the customization setting |
| SettingService.SettingCollection.Store | src/app/modules/setting/setting.service.ts:139-160 | appends the document when it validates, and otherwise changes nothing |
| SettingService.SettingCollection.UpdateGlobalSetting | src/app/modules/setting/setting.service.ts:164-224 | looks the currency up among the stored currencies and updates the global setting as the global update specifies |
| SettingService.SettingCollection.UpdateStoreSetting | src/app/modules/setting/setting.service.ts:241-297 | updates the store setting as the store update specifies |
| SettingService.SettingCollection.UpdateStoreCustomizationSetting | src/app/modules/setting/setting.service.ts:314-962 | updates the customization setting as the customization update specifies |
| Replies.Failed | src/app/modules/currency/currency.controller.ts:51-59 | the `catch` sends a failure with the error's status and the generic error number |
| Replies.NotFound | src/app/modules/currency/currency.controller.ts:34-41 | a `null` result is sent as 404 with `resourceNotFound` |
| Replies.InvalidId | src/app/modules/currency/currency.controller.ts:60-67 | an id that fails `checkObjectId` is sent as 400 with `ivalidResource` |
| Replies.InvalidBody | src/app/modules/notification/notification.controller.ts:75-93 | a body that fails the validator is sent as 412 with error number `validator` |
| Replies.Answer | src/app/modules/currency/currency.controller.ts:31-59 | success exactly for a value, sent with the handler's code; `null` gives 404 and a rejection the error reply |
| Replies.Lift | src/app/modules/currency/currency.controller.ts:503-533 | a service that never resolves with a value of `null`, seen through the handler's `null` test |
| Replies.LiftedNeverNotFound | src/app/modules/currency/currency.controller.ts:503-533 | the handler's `null` branch is dead for such a service: it never sends the not-found reply |
| Replies.PathIds | src/app/modules/currency/currency.controller.ts:602 | the ids of a `deleteMany` path: at least one, none with a comma, and together they make up the parameter |
| CurrencyController.Show | src/app/modules/currency/currency.controller.ts:27-69 | an invalid id gets 400 before the service is asked; then 404 for `null`, the error reply for a rejection, and 200 with the currency |
| CurrencyController.List | src/app/modules/currency/currency.controller.ts:82-135 | `index` and `getShowingCurrency` send 200 with the list, or the error reply |
| CurrencyController.Store | src/app/modules/currency/currency.controller.ts:148-199 | a body without a non-blank name gets 412 naming `name`; otherwise 201 with the saved currency, or the error reply |
| CurrencyController.StoreMany | src/app/modules/currency/currency.controller.ts:212-232 | 201 with the saved currencies, or the error reply |
| CurrencyController.ValidatedUpdate | src/app/modules/currency/currency.controller.ts:245-318 | the body is checked first (412), then the id (400), then the result: 404, the error reply, or 200 with the updated currency |
| CurrencyController.Update | src/app/modules/currency/currency.controller.ts:245-318 | `update` validates the name, then answers as a validated update |
| CurrencyController.UpdateStatus | src/app/modules/currency/currency.controller.ts:331-404 | `updateStatus` validates the status, then answers as a validated update |
| CurrencyController.UpdateLiveExchangeRateStatus | src/app/modules/currency/currency.controller.ts:417-490 | `updateLiveExchangeRateStatus` validates `live_exchange_rates`, then answers as a validated update |
| CurrencyController.UpdateMany | src/app/modules/currency/currency.controller.ts:503-533 | 200 with the update result, or the error reply |
| CurrencyController.Delete | src/app/modules/currency/currency.controller.ts:546-588 | an invalid id gets 400; then 404 for `null`, the error reply for a rejection, and 204 with the deletion |
| CurrencyController.DeleteMany | src/app/modules/currency/currency.controller.ts:601-633 | 204 with the deletion count, or the error reply |
| CurrencyController.LiveExchangeRatesRoute | src/app/modules/currency/currency.route.ts:871 | the live-rates route runs `updateStatus`, so it demands `status` in the body |
| CurrencyController.InvalidIdSkipsService | src/app/modules/currency/currency.controller.ts:30-67 | for an invalid id the reply does not depend on the service at all, and is 400 with `ivalidResource` |
| CurrencyController.BodyCheckedBeforeId | src/app/modules/currency/currency.controller.ts:245-318 | a request both without a name and with an invalid id gets 412, not 400 |
| CurrencyController.ShowAgainstStore | src/app/modules/currency/currency.controller.ts:27-69 | against the collection, `show` only ever answers 200, 400 or 404, and 200 exactly when the id is valid and stored, with that currency |
| CurrencyController.DeleteTwice | src/app/modules/currency/currency.controller.ts:546-588 | deleting a stored currency answers 204 and removes one record; deleting it again answers 404 and changes nothing |
| CurrencyController.UpdateUnknownIdNotFound | src/app/modules/currency/currency.controller.ts:245-318 | an update of an unknown id answers 404 and leaves the collection unchanged |
| CurrencyController.ValidatorImpliesSchemaName | src/app/modules/currency/currency.controller.ts:148-160 | a name that passes the validator also passes the model's `required` check, unchanged |
| CurrencyController.StoreNameOnly | src/app/modules/currency/currency.controller.ts:148-199 | posting only a non-blank name answers 201 with a currency whose status and live rates are `show` |
| CurrencyController.LiveRouteNeedsStatus | src/app/modules/currency/currency.route.ts:871 | through the live-rates route, a body with only `live_exchange_rates` gets 412 naming `status`, though the live-rates handler would accept it |
| CurrencyController.ManyNeverNotFound | src/app/modules/currency/currency.controller.ts:503-633 | `updateMany` and `deleteMany` never send the currency-not-found reply |
| CurrencyController.DeleteManyAgainstStore | src/app/modules/currency/currency.controller.ts:601-633 | deleting the ids of the path answers 204 with exactly the number removed, and none of the listed ids is left |
| NotificationController.AsStoreAnswer | src/app/modules/notification/notification.controller.ts:100-107 | the service's answer as the handler reads it: a saved notification, or a failure kept as it was |
| NotificationController.Or | src/app/modules/notification/notification.controller.ts:155-163 | `value \|\| fallback` keeps a truthy value and otherwise takes the fallback |
| NotificationController.ContactPublication | src/app/modules/notification/notification.controller.ts:154-174 | the contact mail goes to the mail exchange under `sendMail`, to the given receivers or none, and every field of the template data is truthy or its default (`""`, or `#` for the support URL) |
| NotificationController.StoreRejection | src/app/modules/notification/notification.controller.ts:75-93 | the body is refused exactly when `type` or `message` fails `required\|string`, and `type` is reported first |
| NotificationController.StoreReply | src/app/modules/notification/notification.controller.ts:74-142 | 412 for a refused body, 409 for the `ISADDED` answer, 201 with the notification when it was saved, and the error reply for a rejection |
| NotificationController.Index | src/app/modules/notification/notification.controller.ts:41-61 | 200 with the listing, or the error reply |
| NotificationController.UpdateStatus | src/app/modules/notification/notification.controller.ts:187-260 | the status is checked first (412), then the id (400); then 200 with the unread count, or the error reply |
| NotificationController.UpdateManyStatus | src/app/modules/notification/notification.controller.ts:273-293 | 200 with the update result, or the error reply |
| NotificationController.Delete | src/app/modules/notification/notification.controller.ts:306-403 | `delete` and `deleteByProductId`: 400 for an invalid id, 404 for `null`, the error reply, or 204 |
| NotificationController.DeleteMany | src/app/modules/notification/notification.controller.ts:416-448 | 204 with the deletion count, or the error reply |
| NotificationController.Controller.constructor | src/app/modules/notification/notification.controller.ts:154-174 | nothing has been published yet |
| NotificationController.Controller.SendContactEmail | src/app/modules/notification/notification.controller.ts:154-174 | publishes exactly the contact mail for the body, once |
| NotificationController.Controller.Store | src/app/modules/notification/notification.controller.ts:74-142 | a refused body touches neither the store, the socket nor the broker; otherwise the notification is stored and the saved one emitted on the socket, the reply is as `StoreReply` says, and a contact mail is published exactly when a contact notification was saved |
| NotificationController.StoreNeverConflicts | src/app/modules/notification/notification.controller.ts:100-107 | since the service can no longer answer `ISADDED`, the store handler sends only 412, 201 or 500, and never the already-exists reply |
| NotificationController.StoreValidContact | src/app/modules/notification/notification.controller.ts:109-118 | a contact notification with a non-blank message answers 201 and sends the contact mail |
| NotificationController.ContactEmailDefaults | src/app/modules/notification/notification.controller.ts:155-163 | a body with none of the contact fields publishes a mail with empty strings, support URL `#` and no receivers |
| NotificationController.OnlyContactSendsMail | src/app/modules/notification/notification.controller.ts:109-118 | a mail is sent only along with a 201, only for the contact type, and never after a failure |
| NotificationController.UpdateStatusAlwaysOk | src/app/modules/notification/notification.controller.ts:187-260 | with a valid status and id the store always answers 200 with the new unread count, even for an unknown id |
| NotificationController.DeleteAgainstStore | src/app/modules/notification/notification.controller.ts:306-348 | against the collection, `delete` answers 204 exactly for a stored id, 404 exactly for a valid unknown one, and 400 exactly for an invalid one |
| NotificationController.DeleteByProductIdAgainstStore | src/app/modules/notification/notification.controller.ts:361-403 | `deleteByProductId` answers 204 exactly when some notification has the product, and 404 exactly when nothing was removed |
| NotificationController.IndexAgainstStore | src/app/modules/notification/notification.controller.ts:41-61 | the listing is answered 200 exactly when the query resolves, with the total and unread counts of the whole collection and at most a page of notifications; a rejected query gets the error reply |
| NotificationController.IndexWithoutPageFails | src/app/modules/notification/notification.controller.ts:41-61 | a plain `GET /notifications`, without `page`, is answered 500 with the generic error number |
| NotificationSubscribe.OrderInput | src/app/modules/notification/notification.subscribe.ts:62-67 | the stored body takes type, message, order and user from `data.message`, and nothing else |
| NotificationSubscribe.RelayStored | src/app/modules/notification/notification.subscribe.ts:27-73 | a notification saved for a message is one whose successful store appears in the trace |
| NotificationSubscribe.Subscriber.constructor | src/app/modules/notification/notification.subscribe.ts:21-25 | no queue is bound and nothing has been handled |
| NotificationSubscribe.Subscriber.CreateOrderNotification | src/app/modules/notification/notification.subscribe.ts:21-44 | a queue setup that succeeds binds exactly the order-notification queue to its exchange and routing key; a failed one binds nothing |
| NotificationSubscribe.Subscriber.HandleCreateOrderNotification | src/app/modules/notification/notification.subscribe.ts:57-73 | stores the order notification and emits it on the socket when saved, swallows any failure, and always disconnects afterwards |
| NotificationSubscribe.Subscriber.OnMessage | src/app/modules/notification/notification.subscribe.ts:27-41 | parses, connects, handles and always acknowledges; the records gain, and the socket emits, exactly the one notification saved, if any |
| NotificationSubscribe.AckedOnceLast | src/app/modules/notification/notification.subscribe.ts:39 | every message is acknowledged exactly once, and the acknowledgement comes last |
| NotificationSubscribe.ParseFailureTouchesNothing | src/app/modules/notification/notification.subscribe.ts:29-39 | a message that does not parse is only acknowledged: no connection, nothing stored |
| NotificationSubscribe.ConnectFailureStoresNothing | src/app/modules/notification/notification.subscribe.ts:33-39 | without a database connection nothing is stored and nothing disconnected |
| NotificationSubscribe.DisconnectIffConnected | src/app/modules/notification/notification.subscribe.ts:33-71 | a connection, once obtained, is closed exactly once, after the store attempt and before the acknowledgement |
| NotificationSubscribe.StoreFailureSwallowed | src/app/modules/notification/notification.subscribe.ts:68-71 | a failed store, or a message without `message`, still disconnects and acknowledges, and stores nothing |
| NotificationSubscribe.StoredFromMessage | src/app/modules/notification/notification.subscribe.ts:62-67 | the stored notification has the fresh id, the message's type, text, order and user, no other path, and is unread |

## Left out

- The socket, HTTP, database, Redis and RabbitMQ connections are not modelled as I/O. Whether a connection, lookup or setup succeeds is a parameter, and effects are recorded in traces.
- JWT cryptography: verification is a map from accepted tokens to their claims.
- ObjectId generation: fresh ids come from the caller, so there are no clocks or counters. `created_at` and `updated_at` are not modelled.
- Concurrency between requests is left out. Each operation runs alone, so the process-wide locale is one field.
- Unicode case folding: the lowercase setter maps only `A`–`Z`.
- Helpers.Take, Helpers.Drop: they count Unicode code points, while JavaScript's `substring` and `slice` count UTF-16 code units. The derived ISO code of a language whose name starts with a character outside the Basic Multilingual Plane (an emoji, say) therefore differs: JavaScript keeps only that first character (its two UTF-16 halves), the model the first two characters.
- An ObjectId is its 24-digit hexadecimal text, not the 12-byte value.
- Defaults are applied on save only, not re-applied when a document is read back.
- The repository does not pin a Mongoose version. The `null` rules follow current Mongoose: a default only applies to `undefined`, a `null` passes `enum`, fails `required` and is cast to no value, and `$set` writes it. The currency symbol keeps a stored `null` apart from an unset path, because the global setting update copies it as `null` or not at all. On every other optional path the two are one `None`: they differ only in the JSON of a reply, and replies are not rendered as JSON.
- ObjectId order is assumed, not derived: a fresh id is a parameter required to sort after every stored id, as one generated later in the same process does. Ids made on other machines, whose clocks may disagree, are not modelled.
- Projection keys containing a dot are one member name, not a nested path. Projection of array elements is not modelled.
- `updateMany` and `deleteMany` with ids that match nothing are covered by the same functions, but Mongo's `acknowledged` flag is not modelled.
- `loadTemplate` is left out: its template data stands in for the rendered HTML. It reads a file and runs Handlebars.
- i18n translation is left out: messages are their translation keys.
- The validator's error bag is shown only by the name of the first failing field. A rejection of the validator's own promise is not modelled.
- A currency symbol given as an array or an object is a cast error. Mongo's array matching is not modelled.
- The logging wrappers are left out, and so is the date and time that the broker helper attaches to each published message. A failed publish is not modelled.
- The route table is modelled only in two facts: the middleware order, and the live-rates route wired to `updateStatus`. The bulk routes are mounted under `/currencies` and the single-record routes under `/currency`, so `DELETE /currencies/:currencyIds` and `DELETE /currency/:currencyId` do not shadow each other. The single-notification `GET /:notificationId` route (notification.route.ts:442) mounts `notificationController.show`, which the controller does not define, so Express refuses the route when it is set up; NotificationService.NotificationCollection.Show models the service call that no route reaches.
- A `data.message` that is a primitive rather than an object reads as a message with every field absent.
- `receivers` that are truthy but not an array are passed on as given. The model takes an optional list.
- An error thrown by `disconnect` in the relay is not modelled.
- CurrencyService.CurrencyCollection.UpdateMany, LanguageService.LanguageCollection.UpdateMany: they take the `ids` as a list. The source reads `data?.ids?.map(...)`, so a body without `ids` sends `{$in: undefined}` to Mongoose without a TypeError, and an `ids` that is not an array throws a TypeError; neither body is modelled. The notification version, `data?.ids.map(...)`, is modelled with an optional list.
- The time-out of a request that `isAuth` leaves unanswered is not modelled. The request arises when Redis' `disconnect` rejects inside the `jwt.verify` callback: that rejection is outside the promise chain, and the application's `unhandledRejection` handler (src/core/app.ts:28) only logs it. The rejection itself is modelled, and for a denied token it reaches the `catch`.
- Query strings are read as four kinds: missing, empty, a JavaScript integer numeral, and anything that is NaN. Numerals with a fraction or an exponent, and values too large for a double, are not modelled.
- ListingOf, GetAll, IndexWithoutPageFails: the model assumes a NaN skip is refused by the server, as a negative one is. `(pages - 1) * limits` is NaN for a request without `page` or with a non-numeric `limit`, and the driver passes it on; a server that coerces NaN to 0 answers the first page instead. The database version is not pinned, so the model does not settle which happens, and the failure has one fixed message.
- The language, setting, password-hash and swagger controllers and routes are not part of this model. Neither are `server.ts`, the configuration files or the cache and database managers.
