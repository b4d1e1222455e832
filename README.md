# GeoPlotter core, modelled in Dafny

GeoPlotter records journeys from Telegram live locations. A Telegram bot
webhook (`POST /update` of the `v3` Cloudflare Worker) gets each location
message. It validates the update and drives a small state machine over two
tables. `journey` is one row per live-location session. `coordinate` is one
row per location ping. Closing a session computes the trip's distance and
average speed. A read API (`GET /journeys`, `GET /journeys/:id/coordinates`)
serves the journeys to a Telegram Mini App. Each request is authenticated by
the Mini App's signed `initData`. On the client, a toast queue and a duration
formatter are modelled as well.

The project has one module per source file, plus shared helpers:

- `TelegramTypes` (`telegram_types.dfy`): the five type guards over a JSON
  value model (`JsonModel`: JavaScript `typeof`, truthiness and property
  lookup). It also has typed records with a decoder and an encoder, and
  proves that each guard accepts exactly what the decoder accepts.
- `TelegramHandlers` (`telegram_handlers.dfy`): a `Database` class whose
  `seq` fields are the two tables. It has one method per SQL statement and
  one method per handler. Each method is proved against a specification
  function on a `Tables` value (`AfterLiveLocationStart`, ...). The lemmas
  about those functions state what the handlers do to storage. A storage
  failure is a parameter (`Fault`) naming the statement that throws.
- `TelegramRoute` (`telegram_route.dfy`): validation, dispatch and the HTTP
  answer of `POST /update`.
- `Geo` (`geo.ts` → `geo.dfy`): `calculateTripStatistics` as a method with
  its `for` loop. The haversine distance is a function parameter.
- `ApiAuth` (`api_auth.dfy`): the `initData` middleware (header, data-check
  string, hex digest, hash comparison, freshness, user extraction) and the
  two read routes.
- `Toasts` (`toasts.dfy`): the `ToastProvider` as a class with the toast
  list and the id counter.
- `Formatters` (`formatters.dfy`): `formatDuration` and the null branches
  of `formatDistance` / `formatSpeed`.
- Helpers: `JsText` (the JavaScript string built-ins used: `toString(radix)`,
  `padStart`, `startsWith`, `join`, `parseInt`), `Sorting` (a stable
  insertion sort standing for `Array.prototype.sort` and `ORDER BY`), and
  `Wrappers` (`Option`).

Conventions of the model:

- JavaScript numbers are `real`. Instants are integer milliseconds.
  `new Date(date * 1000).toISOString()` is `IsoInstant`: `None` where
  `toISOString` throws a `RangeError`.
- `ORDER BY start_time DESC LIMIT 1` picks the user's journey with the
  greatest start time. Among equal start times it picks the row inserted
  last. `ORDER BY timestamp ASC` is a stable sort by timestamp.
- A `SELECT` without `ORDER BY` (the two read routes) returns its rows in
  table order. D1 promises no order there; table order is the model's
  choice.
- Foreign functions are parameters: haversine, `toFixed`,
  `URLSearchParams`, `localeCompare`, `TextEncoder`, HMAC-SHA-256,
  `JSON.parse` and date parsing. The clock is a parameter too
  (`now`, `Date.now()`).

Behaviour of the code worth noting:

- The journey lookup never looks at `end_time`. An update appends to a
  closed journey, and a repeated end closes the same journey again with new
  values (`EndClosesLatest`, `UpdateAppendsCoordinate`).
- Two starts for one user leave two journeys of that user without an end
  time (`RepeatedStartOpensTwoJourneys`).
- A start runs for any truthy `live_period`, negative values included
  (`MessagePaths`).
- Ending with fewer than two coordinates leaves the journey row untouched
  (`EndShortTrace`).
- The data-check string is sorted with `localeCompare`, a parameter of the
  model (`SignedEntries`).
- A non-empty `auth_date` that `parseInt` reads as NaN passes the
  freshness check (`FreshnessWindow`).

## Model

| member | source | states |
|---|---|---|
| TelegramTypes.IsValidTelegramLocation | v3/src/types/telegram.ts:43-53 | the location guard: an object with numeric `latitude` and `longitude` and optional numeric accuracy, live period and heading; `LocationGuardDecodes` ties it to the decoder |
| TelegramTypes.IsValidTelegramUser | v3/src/types/telegram.ts:55-65 | the user guard: numeric `id`, boolean `is_bot`, string `first_name`, optional string names; `UserGuardDecodes` ties it to the decoder |
| TelegramTypes.IsValidTelegramChat | v3/src/types/telegram.ts:67-74 | the chat guard: numeric `id` and one of the four `type` strings; `ChatGuardDecodes` ties it to the decoder |
| TelegramTypes.IsValidTelegramMessage | v3/src/types/telegram.ts:76-87 | the message guard, with `from` and `location` checked only when present; `MessageGuardDecodes` ties it to the decoder |
| TelegramTypes.IsValidTelegramUpdate | v3/src/types/telegram.ts:89-96 | the update guard: numeric `update_id` and a valid `message` or `edited_message`; `UpdateGuardDecodes` restates it over the decoder |
| TelegramTypes.NonObjectsRejected | v3/src/types/telegram.ts:43-96 | null, undefined and non-object values fail all five guards |
| TelegramTypes.LocationGuardDecodes | v3/src/types/telegram.ts:43-53 | a location is valid iff it decodes: numeric latitude and longitude; for each optional field, absent or a number |
| TelegramTypes.UserGuardDecodes | v3/src/types/telegram.ts:55-65 | a user is valid iff it decodes: numeric id, boolean is_bot, string first_name; for each optional name, absent or a string |
| TelegramTypes.ChatGuardDecodes | v3/src/types/telegram.ts:67-74 | a chat is valid iff it has a numeric id and one of the four type strings |
| TelegramTypes.MessageGuardDecodes | v3/src/types/telegram.ts:76-87 | a message is valid iff it decodes; in a valid message, any `from` or `location` that is present is itself valid and is what the typed message carries |
| TelegramTypes.UpdateGuardDecodes | v3/src/types/telegram.ts:89-96 | an update is valid iff it is an object with a numeric `update_id` and `message` or `edited_message` decodes |
| TelegramTypes.LocationRoundTrip | v3/src/types/telegram.ts:20-26 | decoding an encoded location gives it back |
| TelegramTypes.UserRoundTrip | v3/src/types/telegram.ts:3-9 | decoding an encoded user gives it back |
| TelegramTypes.ChatRoundTrip | v3/src/types/telegram.ts:11-18 | decoding an encoded chat gives it back |
| TelegramTypes.MessageRoundTrip | v3/src/types/telegram.ts:28-35 | decoding an encoded message gives it back, and the guard accepts the encoding |
| TelegramHandlers.LatestJourney | v3/src/handlers/telegramHandlers.ts:50-55 | the result is a journey of the user with the greatest start time, and no later row of the user ties it; None iff the user has no journey |
| TelegramHandlers.TraceOf | v3/src/handlers/telegramHandlers.ts:175-178 | a coordinate is in the trace iff it is in the table and has that journey id |
| TelegramHandlers.Database.SelectLatestJourney | v3/src/handlers/telegramHandlers.ts:117-122 | the loop returns the row `LatestJourney` selects, or None |
| TelegramHandlers.Database.SelectTrace | v3/src/handlers/telegramHandlers.ts:175-178 | the journey's coordinates, sorted by timestamp and a permutation of the unsorted ones |
| TelegramHandlers.Database.InsertJourney | v3/src/handlers/telegramHandlers.ts:45-48 | appends one journey row with a fresh id, no end time and no statistics |
| TelegramHandlers.Database.InsertCoordinate | v3/src/handlers/telegramHandlers.ts:64-76 | appends one coordinate row with a fresh id |
| TelegramHandlers.Database.UpdateJourneyStatistics | v3/src/handlers/telegramHandlers.ts:187-190 | sets end time, distance and speed on every row with that id |
| TelegramHandlers.AfterLiveLocationStart | v3/src/handlers/telegramHandlers.ts:28-84 | the tables after `handleLiveLocationStart`, statement by statement, with the try/catch as a `Fault`; its lemmas are `StartNoOp`, `StartCreatesJourney`, `StartFaults` and `StartPreservesConsistency` |
| TelegramHandlers.AfterLiveLocationUpdate | v3/src/handlers/telegramHandlers.ts:100-151 | the tables after `handleLiveLocationUpdate`; its lemmas are `UpdateAppendsCoordinate`, `UpdateNoOp` and `UpdatePreservesConsistency` |
| TelegramHandlers.AfterLiveLocationEnd | v3/src/handlers/telegramHandlers.ts:153-202 | the tables after `handleLiveLocationEnd`; its lemmas are `EndShortTrace`, `EndClosesLatest` and `EndPreservesConsistency` |
| TelegramHandlers.Database.HandleLiveLocationStart | v3/src/handlers/telegramHandlers.ts:28-84 | keeps the tables consistent; the new state is `AfterLiveLocationStart` of the old one |
| TelegramHandlers.Database.HandleLiveLocationUpdate | v3/src/handlers/telegramHandlers.ts:100-151 | keeps the tables consistent; the new state is `AfterLiveLocationUpdate` of the old one |
| TelegramHandlers.Database.HandleLiveLocationEnd | v3/src/handlers/telegramHandlers.ts:153-202 | keeps the tables consistent; the new state is `AfterLiveLocationEnd` of the old one |
| TelegramHandlers.Database.HandleMessage | v3/src/handlers/telegramHandlers.ts:8-16 | keeps the tables consistent; the new state is `AfterMessage` of the old one |
| TelegramHandlers.Database.HandleEditedMessage | v3/src/handlers/telegramHandlers.ts:19-26 | keeps the tables consistent; the new state is `AfterEditedMessage` of the old one |
| TelegramHandlers.StartPreservesConsistency | v3/src/handlers/telegramHandlers.ts:44-76 | after a start, ids are still unique and below the counters, and every coordinate still belongs to an existing journey |
| TelegramHandlers.UpdatePreservesConsistency | v3/src/handlers/telegramHandlers.ts:116-147 | the same invariant after an update |
| TelegramHandlers.EndPreservesConsistency | v3/src/handlers/telegramHandlers.ts:162-190 | the same invariant after an end |
| TelegramHandlers.MessagePaths | v3/src/handlers/telegramHandlers.ts:8-16 | no location: nothing changes; falsy `live_period`: the static path, nothing changes; truthy: the start path |
| TelegramHandlers.EditedMessagePaths | v3/src/handlers/telegramHandlers.ts:19-26 | with a location the update path runs first, then the end path on its result only when `live_period` is falsy |
| TelegramHandlers.StartNoOp | v3/src/handlers/telegramHandlers.ts:32-47 | no sender, no location or an out-of-range date: nothing changes |
| TelegramHandlers.StartCreatesJourney | v3/src/handlers/telegramHandlers.ts:44-76 | exactly one journey for the sender at the message date, then exactly one coordinate with the location's fields, into the user's latest-started journey, which is the new one iff no journey of the user starts later |
| TelegramHandlers.StartFaults | v3/src/handlers/telegramHandlers.ts:44-81 | a failing journey insert changes nothing; a failure after it leaves the new journey without coordinates |
| TelegramHandlers.RepeatedStartOpensTwoJourneys | v3/src/handlers/telegramHandlers.ts:44-48 | two starts for one user leave two journeys of that user with no end time |
| TelegramHandlers.UpdateAppendsCoordinate | v3/src/handlers/telegramHandlers.ts:116-147 | exactly one coordinate, with absent heading and accuracy as null, is appended to the latest-started journey, closed or not; journeys are unchanged |
| TelegramHandlers.UpdateNoOp | v3/src/handlers/telegramHandlers.ts:122-133 | no journey for the user, or a falsy id: nothing changes |
| TelegramHandlers.EndShortTrace | v3/src/handlers/telegramHandlers.ts:175-183 | fewer than two coordinates: nothing changes |
| TelegramHandlers.EndClosesLatest | v3/src/handlers/telegramHandlers.ts:175-190 | two or more coordinates: only the selected journey changes, getting end time, distance and speed from its timestamp-sorted trace and its own start time; coordinates are untouched |
| TelegramHandlers.ClosedRows | v3/src/handlers/telegramHandlers.ts:187-190 | with unique ids the update by id changes exactly one row |
| TelegramHandlers.EndIncludesFinalPing | v3/src/handlers/telegramHandlers.ts:19-26 | the final ping of a session is appended first and is part of the trace the statistics are computed from |
| TelegramRoute.Route | v3/src/routes/telegram.ts:22-31 | validation first, then `handleMessage` when `message` is truthy, else `handleEditedMessage` when `edited_message` is truthy; `ValidUpdateOneHandler` and `DispatchByPresence` are its lemmas |
| TelegramRoute.RunOnUnvalidatedMessage | v3/src/handlers/telegramHandlers.ts:8-36 | how `handleMessage` ends on a value that failed validation, by its property reads: a falsy `location` returns, an undefined or null `chat` throws at `msg.chat.id`, a falsy `live_period` or a missing sender returns without a statement, otherwise the start path reaches storage; the string conversions that can also throw are left out (see below) |
| TelegramRoute.PostUpdate | v3/src/routes/telegram.ts:15-42 | the response is `ResponseFor(body)` and the new state is `AfterPost` of the old one |
| TelegramRoute.InvalidUpdateRejected | v3/src/routes/telegram.ts:22-25 | an invalid update is answered 400 "Bad Request: Invalid update format" and storage is unchanged |
| TelegramRoute.ValidUpdateOneHandler | v3/src/routes/telegram.ts:27-31 | a valid update goes to exactly one handler: `handleMessage` iff `message` is truthy, otherwise `handleEditedMessage` with a valid message |
| TelegramRoute.DispatchByPresence | v3/src/routes/telegram.ts:22-28 | a truthy but invalid `message` beside a valid `edited_message` still goes to `handleMessage` |
| TelegramRoute.HandledUpdateOk | v3/src/routes/telegram.ts:27-33 | once a handler has run on a valid message, the answer is 200 "OK" |
| TelegramRoute.BodyErrors | v3/src/routes/telegram.ts:34-41 | a JSON syntax error is 400 "Bad Request: Malformed JSON", any other failure 500; storage is unchanged |
| Geo.CalculateTripStatistics | v3/src/utils/geo.ts:4-22 | the loop's total is the sum of pairwise distances in order; the speed is `AverageSpeed` of the total and the time from `startTime` to the last sample |
| Geo.AverageSpeed | v3/src/utils/geo.ts:18-19 | 0 when the duration is at most 0, otherwise speed times duration is the distance |
| Geo.PathLengthNonNegative | v3/src/utils/geo.ts:11-14 | non-negative pairwise distances give a non-negative total |
| Geo.AverageSpeedNonNegative | v3/src/utils/geo.ts:16-19 | non-negative pairwise distances give a non-negative speed |
| Geo.SingleSampleTrace | v3/src/utils/geo.ts:11-14 | a one-sample trace has length 0 |
| Geo.PathLengthReverse | v3/src/utils/geo.ts:11-14 | a symmetric distance gives the same total for the reversed trace |
| ApiAuth.GetParam | v3/src/routes/api.ts:28 | `get` finds a value iff some pair has the key, and the value is that of the first pair with the key |
| ApiAuth.DeleteParam | v3/src/routes/api.ts:29 | `delete` keeps exactly the pairs with other keys, each as often as before (their order: `DeleteDistributes`) |
| ApiAuth.GetAfterDelete | v3/src/routes/api.ts:29-63 | deleting `hash` does not change what `get` returns for any other key |
| ApiAuth.DeleteDistributes | v3/src/routes/api.ts:29 | `delete` works piecewise over concatenation, so the kept pairs stay in their arrival order |
| ApiAuth.DataCheckString | v3/src/routes/api.ts:31-34 | the pairs other than `hash`, stably sorted by `localeCompare` of the keys, as `key=value` lines joined by a line feed; `SignedEntries` and `DataCheckStringCanonical` are its lemmas |
| ApiAuth.SignedEntries | v3/src/routes/api.ts:29-34 | the signed entries are the pairs other than `hash`, with their multiplicities, sorted by key |
| ApiAuth.DataCheckStringCanonical | v3/src/routes/api.ts:31-34 | with distinct keys and a comparator that ranks distinct keys, the data-check string is the same for any arrival order |
| ApiAuth.HexByteIsPaddedToString | v3/src/routes/api.ts:46 | `toString(16)` padded to two characters with `0` is exactly the byte's two nibbles, high first |
| ApiAuth.HexShape | v3/src/routes/api.ts:46 | the hex text is twice as long as the digest and is all lowercase hex digits |
| ApiAuth.HexRoundTrip | v3/src/routes/api.ts:46 | reading the hex text back gives the digest |
| ApiAuth.HexInjective | v3/src/routes/api.ts:46 | two digests have equal hex text iff they are equal |
| ApiAuth.ExpectedHash | v3/src/routes/api.ts:36-46 | the hex HMAC-SHA-256 of the data-check string under the key HMAC-SHA-256("WebAppData", bot token); `ForgedDigestDiffers` is its lemma |
| ApiAuth.ForgedDigestDiffers | v3/src/routes/api.ts:36-46 | with injective encoding and HMAC, a digest over any other string never equals the expected hash |
| ApiAuth.ForgedHashRejected | v3/src/routes/api.ts:36-50 | a hash made over any other data-check string is rejected as `InvalidHash` and answered 401 "Unauthorized: Invalid hash" |
| ApiAuth.FreshnessWindow | v3/src/routes/api.ts:52-60 | `auth_date` d passes at `now` iff `now - d <= 3600`; an unreadable value always passes |
| ApiAuth.UserAccepted | v3/src/routes/api.ts:63-75 | accepted iff `user` is a non-empty JSON object with a truthy `id`, and that id is the result |
| ApiAuth.Authenticate | v3/src/routes/api.ts:19-75 | the middleware's decision in the code's order; `AuthorizedWhen` and `RejectionOrder` characterise it |
| ApiAuth.AuthorizedWhen | v3/src/routes/api.ts:19-78 | authorized with id u iff the header starts with "tma ", the hash matches, `auth_date` is fresh and the user yields u |
| ApiAuth.RejectionOrder | v3/src/routes/api.ts:19-75 | the first failing check gives the reason: header, then hash, then freshness, then user |
| ApiAuth.AuthMiddleware | v3/src/routes/api.ts:19-78 | returns `Authenticate`; a rejection is answered 401 with its message ("Unauthorized", "Unauthorized: Invalid hash", ...), an authorized request gets no answer from the middleware and goes on to the route; sets the context's `userId` only when authorized |
| ApiAuth.SearchParams.Delete | v3/src/routes/api.ts:29 | the parameter list becomes `DeleteParam` of the old one |
| ApiAuth.UserJourneys | v3/src/routes/api.ts:84-87 | a row is listed iff it is a journey whose owner is the authenticated user |
| ApiAuth.GetJourneys | v3/src/routes/api.ts:80-93 | exactly the user's journeys, in table order (the model's choice for a `SELECT` without `ORDER BY`), or 500 "Failed to fetch journeys" |
| ApiAuth.GetJourneyCoordinates | v3/src/routes/api.ts:95-122 | 404 unless a journey with that id belongs to the user; then that journey's coordinates in table order (the model's choice, as above); a failing query gives 500 |
| Toasts.ToastProvider.constructor | solid_client/src/contexts/ToastContext.tsx:26-27 | no toasts and a counter at 0 |
| Toasts.ToastProvider.AddToast | solid_client/src/contexts/ToastContext.tsx:35-50 | keeps the invariant (at most 3, ids increasing and below the counter); the id is the old counter, which goes up by one |
| Toasts.ToastProvider.RemoveToast | solid_client/src/contexts/ToastContext.tsx:29-33 | keeps the invariant and the counter |
| Toasts.AddKeepsNewest | solid_client/src/contexts/ToastContext.tsx:40-44 | the new toast is last, the length is min(n + 1, 3), and the rest are the newest old toasts in order |
| Toasts.AddKeepsInvariant | solid_client/src/contexts/ToastContext.tsx:36-44 | a toast with a larger id keeps the bound of 3 and the increasing ids |
| Toasts.RemoveMembership | solid_client/src/contexts/ToastContext.tsx:30-32 | a toast survives iff it was there and has another id |
| Toasts.RemoveDistributes | solid_client/src/contexts/ToastContext.tsx:30-32 | removal works piecewise over concatenation, so the survivors keep their order |
| Toasts.RemoveAbsent | solid_client/src/contexts/ToastContext.tsx:30-32 | removing an absent id changes nothing |
| Toasts.RemoveIdempotent | solid_client/src/contexts/ToastContext.tsx:30-32 | removing twice is removing once |
| Toasts.RemoveKeepsInvariant | solid_client/src/contexts/ToastContext.tsx:30-32 | removal keeps the increasing ids and only keeps toasts that were there |
| Formatters.FormatDuration | solid_client/src/utils/formatters.ts:12-33 | "00:00:00" without a start, "In Progress" without an end, "00:00:00" for an unreadable date, otherwise the text of the difference |
| Formatters.DurationText | solid_client/src/utils/formatters.ts:26-32 | the hours, minutes and seconds fields, each `toString().padStart(2, "0")`, joined by ":"; `DurationTextReadsBack` and `NegativeDurationSign` are its lemmas |
| Formatters.DurationDecomposition | solid_client/src/utils/formatters.ts:26-29 | for a difference of at least 0: hours ≥ 0, minutes and seconds below 60, and the fields recompose it up to a rest below 1000 ms |
| Formatters.DurationTextReadsBack | solid_client/src/utils/formatters.ts:26-32 | for a difference of at least 0, the text is H:MM:SS; hours has two or more digits, minutes and seconds exactly two, and each field reads back as its value |
| Formatters.NegativeDuration | solid_client/src/utils/formatters.ts:26-32 | a difference of -1 ms prints "-1:-1:-1" |
| Formatters.NegativeDurationSign | solid_client/src/utils/formatters.ts:26-32 | for every negative difference, the hours field is negative, minutes and seconds are at most 0, and the text starts with "-" |
| Formatters.JsRem | solid_client/src/utils/formatters.ts:28-29 | JavaScript's `%`: the remainder has the sign of the dividend and is below the divisor in size |
| Formatters.FormatDistance | solid_client/src/utils/formatters.ts:2-5 | "N/A" exactly for null or undefined |
| Formatters.FormatSpeed | solid_client/src/utils/formatters.ts:7-10 | "N/A" exactly for null or undefined |
| JsText.ParseIntRoundTrip | v3/src/routes/api.ts:55 | `parseInt(String(i), 10)` is `i` for every integer |
| JsText.DecimalRoundTrip | solid_client/src/utils/formatters.ts:30-32 | a number's decimal text is all digits and reads back as the number |
| Sorting.SortBySorted | v3/src/routes/api.ts:32 | the sort result is sorted and is a permutation of its input |
| Sorting.SortedUnique | v3/src/routes/api.ts:32 | under an order that ranks distinct elements, a sorted permutation is unique |

## Left out

- Haversine trigonometry is a parameter `dist`. Its non-negativity and symmetry are hypotheses of the lemmas that need them.
- `toFixed` is a parameter of `FormatDistance` / `FormatSpeed`, so only their null branches and the unit suffixes are modelled.
- `formatDateTime` and `toLocaleString` are locale formatting and are not modelled.
- The model does not implement HMAC-SHA-256, `TextEncoder`, `URLSearchParams` percent-decoding, `localeCompare` collation or `JSON.parse`. They are fields of `Platform`. `ForgedHashRejected` assumes injectivity, standing in for collision resistance.
- Date parsing (`new Date(string)`) is a parameter of `FormatDuration`. The clocks (`Date.now()`, `new Date()`) are the inputs `now`.
- ISO strings are ordered as instants. The two agree for years 0000 to 9999 only. Outside that range `ORDER BY` on the text differs from the model.
- The outgoing `sendMessage` calls, the `console` output and the username text are not modelled. `sendMessage` catches its own errors, so it cannot change the control flow.
- `TelegramRoute.RunOnUnvalidatedMessage`, `TelegramRoute.ResponseFor`: the text conversions the handlers apply to unvalidated fields are not modelled. A field holding an object without a callable `toString` or `valueOf` (`"chat":{"id":{"toString":0}}`, such a `latitude`, or such a `username` on the start path) makes the template literal throw a TypeError outside the handlers' `try`, and the route answers 500; the model answers 200 there.
- `TelegramRoute.ResponseFor`: a truthy `message` that fails validation is modelled as 200 with storage unchanged, or as 500 when its `location` is truthy and its `chat` is undefined or null (the handler then reads `msg.chat.id`). In the code, `handleMessage` runs on the raw value. When such a value reaches the start path (`ReachesStorage`), its SQL effects on unvalidated fields are not modelled.
- `ApiAuth.MatchesUser`: a row matches only when the user id is the JSON number of the row's `user_id`. The middleware accepts any truthy `id` (`UserAccepted`): a string, `true`, an object or an array. How D1 binds such a value and compares it with `user_id` (SQLite's type affinity, which would match a numeric string) is not modelled; for an `id` that is not a number the model lists no rows.
- JSON numbers are mathematical reals. `JSON.parse` turns a literal beyond the range of a double (`1e400`) into `Infinity`, which the `typeof` guards accept; numbers outside the range of a double, and the rounding of those inside it, are not modelled.
- `GetJourneyCoordinates` takes the `:id` path segment as a number. A segment that is not a number is not modelled.
- The `page` and `limit` query arguments that the client sends are ignored by `GET /journeys`, as in the code.
- CORS, Hono routing, `index.ts` and `app.js` (an older, separate entry point), the UI components, the client `fetch` wrapper and the settings context are not modelled.
- The five-second auto-dismiss timer of a toast is not modelled. Its effect is a later `RemoveToast`.
- Concurrency is not modelled. Two overlapping requests can race between the journey insert and the latest-journey select.
- `Formatters.Hours`: `Math.floor(diffMs / 3600000)` is exact integer floor division here. In floating point it can round differently for differences of more than about 2^31 hours.
- `JsText.ParseInt10`: digit strings are read exactly, without the precision loss of doubles above 2^53.
- Chat fields other than `id` and `type` (`title`, `username`, names) are neither validated nor used. The typed `Chat` record does not carry them.
