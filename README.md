# Bamtoly mobile client: a Dafny model of its logic

This project models the logic of a React Native client for an AI stock-signal and
prediction service. Rendering, the network and the device storage are left out. The
modelled parts are:

- **The filter store** (`FilterStore`). It holds the browsing filters: the selected trading
  day, a search text, the AI models with the AND/OR conditions between them, a strategy type,
  and pagination. It is a class whose setters change its fields in place. `setModels` resizes
  the conditions with the source's copy/pad/truncate loop. The query-string encoder and
  decoder are pure functions, and their round trip is proved.
- **The authentication service** (`AuthService`). It covers the OAuth authorize URL, the
  OAuth callback parser, the JWT payload checks and the user-search limit clamp. A JWT is
  described in RFC 7519. Base64url and base64 are the alphabets of sections 5 and 4 of
  RFC 4648. Expiry is the `exp` claim of section 4.1.4 of RFC 7519.
- **The credential store** (`TokenStorage`). It is a secure slot and a fallback slot behind an
  availability flag that is probed once and cached. It has different error policies for
  read, write and delete.
- **The request helpers** (`ApiClient`). They resolve the base URL, join URLs, build the
  `Authorization: Bearer` header of section 2.1 of RFC 6750, and classify responses. On a 401
  they delete the credential and then emit `auth:unauthorized`. They also unwrap the
  `BaseResponse` envelope.
- **The session controller** (`Session`). It is a class over `token`, `user`, `isLoading`
  and `isProfileLoading`, with `login`, `logout`, `refreshToken` and the initial load.
- **Deep-link dispatch** (`DeepLinking`). It is a pure decision, followed by the filter patch
  and at most one navigation.
- **Small rules**:
  - pagination limits (`Pagination`);
  - prediction statuses and symbols (`Prediction`);
  - prediction query keys, next-page offsets and statistics (`PredictionQueries`);
  - `YYYY-MM-DD` dates and the Korean calendar day (`Dates`).

Three helper modules hold shared definitions:

- `Wrappers`: `Option`, and JavaScript's falsy strings.
- `Strings`: JavaScript's `split`, `join`, `trim`, ASCII `toUpperCase`, `String(n)`,
  `Number` on digit strings, and `padStart`.
- `QueryParams`: `URLSearchParams` as an ordered list of pairs.

Server answers, storage faults, the clock and the JWT payload decoder are parameters. Each
asynchronous operation is one method call that runs to completion.

Three behaviours of the code are easy to misread, and the model keeps them as written:

- `login` with an invalid token still deletes the stored credential and clears `token` and
  `user`. The validity check throws inside the `try`, so the `catch` runs
  (`Session.SessionController.Login`).
- `|conditions| == max(0, |models| - 1)` holds after `setModels` only. `setConditions` and
  `setFilters` store what they are given, so the relation can be broken
  (`FilterStore.SetConditionsCanBreakFit`).
- The initial load's own read goes to the secure store and the fallback store directly,
  without the client's availability cache; the cache is first decided by the profile
  request's token read. When the first read throws on a native platform, the
  fallback store is read a second time. Only when that read throws too, or when the single
  web read throws, does the load's `catch` delete the credential. Through the client's
  `getToken` the same failure would read as "no token" (`Session.InitialReadMatchesGetToken`).

## Model

| member | source | states |
|---|---|---|
| `FilterStore.FilterStore.constructor` | src/store/useFilterStore.ts:41-49 | The store starts at the initial values: the given day, no query, no models or conditions, no strategy type, page 1, page size 20; conditions fit models. |
| `FilterStore.Initial` | src/store/useFilterStore.ts:41-49 | The initial state is the given day, page 1, page size 20, and no query, models, conditions or strategy type. Its encoding is the `date` parameter alone, or nothing for an empty day. |
| `FilterStore.ApplyPatch` | src/store/useFilterStore.ts:119-121 | A shallow merge: every field the patch leaves absent keeps its old value. |
| `FilterStore.ResizedConditions` | src/store/useFilterStore.ts:72-99 | After `setModels` with n models, conditions have length 0 for n <= 1, else n-1. Old entries are kept where they fit. Every appended entry is the old first condition, or OR when there was none. |
| `FilterStore.ResizedIsPrefixOrExtension` | src/store/useFilterStore.ts:80-92 | Growing keeps the old conditions as a prefix; truncating leaves a prefix of the old conditions. |
| `FilterStore.ResizeConditions` | src/store/useFilterStore.ts:80-92 | The copy / push-until-long-enough / cut-length loop computes exactly `ResizedConditions`. |
| `FilterStore.FilterStore.SetModels` | src/store/useFilterStore.ts:72-99 | Sets the models and resizes the conditions as above. The page becomes 1. The conditions then fit the models, whatever they were before. |
| `FilterStore.FilterStore.ResetPagination` | src/store/useFilterStore.ts:130-132 | Only `page` changes, to 1. |
| `FilterStore.FilterStore.SetDate` | src/store/useFilterStore.ts:60-64 | Sets the date and page 1, even for an unchanged date. Nothing else changes. |
| `FilterStore.FilterStore.SetQuery` | src/store/useFilterStore.ts:66-70 | Sets the query and page 1. Nothing else changes. |
| `FilterStore.FilterStore.SetConditions` | src/store/useFilterStore.ts:101-103 | Sets the conditions only: the page and the models are untouched. |
| `FilterStore.FilterStore.SetStrategyType` | src/store/useFilterStore.ts:105-109 | Sets the strategy type and page 1. Nothing else changes. |
| `FilterStore.FilterStore.SetPage` | src/store/useFilterStore.ts:111-113 | Sets the page only. |
| `FilterStore.FilterStore.SetPageSize` | src/store/useFilterStore.ts:115-117 | Sets the page size and page 1. |
| `FilterStore.FilterStore.SetFilters` | src/store/useFilterStore.ts:119-121 | The new state is the patch merged over the old one. The page is not reset, and conditions are not fitted to models. |
| `FilterStore.FilterStore.ResetFilters` | src/store/useFilterStore.ts:123-128 | Back to the initial values, with the given day as the date. |
| `FilterStore.SetConditionsCanBreakFit` | src/store/useFilterStore.ts:72-103 | On a store, choosing two models makes conditions fit the models, and then setting three conditions is accepted as given and breaks the fit. |
| `FilterStore.PartializeOmitsDateAndPage` | src/store/useFilterStore.ts:138-144 | The persisted snapshot keeps exactly q, models, conditions, strategy type and page size. Date and page never affect it. |
| `FilterStore.Partialize` | src/store/useFilterStore.ts:138-144 | Restoring the snapshot over the state it was taken from changes nothing, so no persisted field is lost. |
| `FilterStore.RehydrateAfterRestart` | src/store/useFilterStore.ts:134-146 | After a restart the store holds the persisted filters over the initial state: the same filters, the new day, and page 1. |
| `FilterStore.DecodeParams` | src/store/useFilterStore.ts:188-215 | Sets date, q and strategy type only from non-empty parameters. Models are the non-empty comma tokens. Each non-empty condition token becomes AND exactly when it is `AND`, else OR. Pagination is never set. |
| `FilterStore.EncodeParams` | src/store/useFilterStore.ts:172-183 | At most five pairs, each named `date`, `q`, `models`, `condition` or `strategy_type`. There are none exactly when the date, query and strategy type are empty and there are no models or conditions. |
| `FilterStore.ToQueryString` | src/store/useFilterStore.ts:172-183 | The query string is empty exactly when the encoder writes no pair. |
| `FilterStore.FromQueryString` | src/store/useFilterStore.ts:188-215 | The patch never touches pagination. An empty query string gives an empty patch. |
| `FilterStore.ConditionTextsJoin` | src/store/useFilterStore.ts:178-179 | The comma-joined `condition` parameter reads back as the conditions written. |
| `FilterStore.ModelsJoin` | src/store/useFilterStore.ts:177 | The comma-joined `models` parameter reads back as the models, when names are non-empty and comma-free. |
| `FilterStore.GetEncoded` | src/store/useFilterStore.ts:172-183 | What `get` returns for each name on the encoder's pairs. |
| `FilterStore.DecodeEncode` | src/store/useFilterStore.ts:172-215 | Decoding the encoder's pairs returns each written field: date, q and strategy type when non-empty; models and conditions when there are any. |
| `FilterStore.ApplyOwnEncoding` | src/store/useFilterStore.ts:172-215 | Applying a state's own decoded encoding back onto it changes nothing. |
| `FilterStore.QueryStringRoundTrip` | src/store/useFilterStore.ts:172-215 | The same round trip through the query-string text, for values without `&`. |
| `QueryParams.Get` | src/store/useFilterStore.ts:194 | `get` finds a value exactly when some pair has the name, and returns the first such pair's value. |
| `QueryParams.ParseSerialize` | src/store/useFilterStore.ts:182 | Pairs whose names and values need no escaping read back unchanged from their text. |
| `AuthService.GetOAuthUrl` | src/services/api/authService.ts:29-35 | The URL starts with the base URL and ends with the encoded redirect. For a base and redirect without `?`, it has exactly one `?`, between the authorize path and `client_redirect=<encoded>`. |
| `AuthService.OAuthUrlQuery` | src/services/api/authService.ts:29-35 | The authorize URL's query holds exactly one pair: `client_redirect` with the encoded redirect. |
| `AuthService.CallbackFromParams` | src/services/api/authService.ts:209-235 | The result is `None` unless all five parameters are present and non-empty. Otherwise it holds their values, and `is_new_user` is true exactly for the text `true`. |
| `AuthService.CallbackQuery` | src/services/api/authService.ts:200-207 | There is a query exactly when the URL contains `?`, and the query holds no `?`. |
| `AuthService.ParseOAuthCallback` | src/services/api/authService.ts:184-240 | A URL without `?` gives `None`. Otherwise only the text between the first and the second `?` (or the end) is parsed. |
| `AuthService.CallbackReadsFirstQuery` | src/services/api/authService.ts:200-202 | Anything after a second `?` is ignored. |
| `AuthService.CallbackRoundTrip` | src/services/api/authService.ts:184-240 | A callback URL built from a result parses back to that result. |
| `AuthService.Base64UrlToBase64` | src/services/api/authService.ts:249 | Every `-` becomes `+` and every `_` becomes `/`. Nothing else changes. |
| `AuthService.Base64UrlAlphabet` | src/services/api/authService.ts:249 | The mapping takes the base64url alphabet into the base64 alphabet and is injective. |
| `AuthService.DecodeClaims` | src/services/api/authService.ts:248-256 | A token without `.` has no claims, because the `catch` answers. Otherwise the result is the decoder applied to the second `.`-segment in the base64 alphabet. |
| `AuthService.DecodeClaimsOfCompact` | src/services/api/authService.ts:248-256 | Of a three-segment token only the middle segment is decoded. |
| `AuthService.IsTokenValid` | src/services/api/authService.ts:245-262 | False for a token without a second segment. A valid token has a decoded payload with an `exp`. |
| `AuthService.ValidIffExpiryAfterNow` | src/services/api/authService.ts:256-258 | Valid exactly when the payload decodes and `exp * 1000 > now_ms`, which is `exp > floor(now_ms / 1000)`. |
| `AuthService.ValidityMonotone` | src/services/api/authService.ts:245-262 | A token valid at some instant is valid at every earlier one. |
| `AuthService.ExtractUserFromToken` | src/services/api/authService.ts:267-292 | `None` exactly when decoding fails. Otherwise it holds the payload's `user_id`, `email` and `role`. |
| `AuthService.ValidTokenHasUser` | src/services/api/authService.ts:245-292 | A valid token always yields a user record. |
| `AuthService.SearchUsersLimit` | src/services/api/authService.ts:118-124 | The limit is in [1, 50]. It is 20 when missing or 0, unchanged in range, and clamped outside. |
| `AuthService.SearchUsersLimitIsValidated` | src/services/api/authService.ts:118-124 | The inline clamp equals the shared validator under the user-search limits. |
| `Pagination.PaginationLimits` | src/types/common.ts:112-118 | Every entry has min <= default <= max. |
| `Pagination.ClampLimit` | src/types/common.ts:133-136 | The limit is within [min, max]. A missing or 0 limit gives the default. An in-range limit is unchanged. Values below min give min and values above max give max. |
| `Pagination.ValidatePaginationParams` | src/types/common.ts:128-139 | The limit is clamped as above. The offset is `max(offset or 0, 0)`: never negative, 0 when missing. |
| `Pagination.ValidateIdempotent` | src/types/common.ts:128-139 | Validating an already validated window changes nothing. |
| `Pagination.MissingLimitIsDefault` | src/types/common.ts:112-118 | A missing limit yields exactly the listing's default. |
| `Prediction.IsPredictionCompleted` | src/types/prediction.ts:117-123 | Completed exactly for CORRECT, INCORRECT and VOID. |
| `Prediction.IsPredictionEditable` | src/types/prediction.ts:113-115 | Editable exactly when pending, and an editable prediction is never completed. |
| `Prediction.EditableAndCompletedDisjoint` | src/types/prediction.ts:6-12 | No status is both editable and completed. LOCKED is exactly the status that is neither. |
| `Prediction.NormalizeSymbolIdempotent` | src/types/prediction.ts:105-107 | Upper-casing then trimming twice equals doing it once. |
| `Prediction.NormalizeSymbol` | src/types/prediction.ts:105-107 | The result is no longer than the input, holds no lower-case ASCII letter, and neither starts nor ends with whitespace. |
| `Prediction.MatchUpperRunIff` | src/types/prediction.ts:109-111 | The anchored `[A-Z]{min,max}` matcher accepts exactly strings of min to max upper-case letters. |
| `Prediction.IsValidSymbol` | src/types/prediction.ts:109-111 | Valid exactly for 1 to 5 characters, all in `A`-`Z`. |
| `Prediction.ValidSymbolIsNormal` | src/types/prediction.ts:105-111 | Normalising a valid symbol leaves it unchanged. |
| `PredictionQueries.QueryKey` | src/hooks/usePrediction.ts:14-21 | Every key starts with `['predictions']`. |
| `PredictionQueries.MutationsInvalidateEveryQuery` | src/hooks/usePrediction.ts:39 | The prefix the submit and update mutations invalidate matches every prediction query. |
| `PredictionQueries.QueryKeyInjective` | src/hooks/usePrediction.ts:14-21 | Different queries have different keys. |
| `PredictionQueries.GetNextPageParam` | src/hooks/usePrediction.ts:76-81 | There is a next page exactly when the last page is an array of exactly `limit` items (limit defaults to 50). Its offset is `allPages.length * limit`. |
| `PredictionQueries.NextOffsetIsItemsLoaded` | src/hooks/usePrediction.ts:76-81 | When every page is full, the next offset is the number of items loaded, so paging neither skips nor repeats items. |
| `PredictionQueries.CountStatus` | src/hooks/usePrediction.ts:140-142 | A status count never exceeds the number of predictions. |
| `PredictionQueries.ComputeStats` | src/hooks/usePrediction.ts:117-166 | With no pages every statistic is 0. Otherwise the total is the number of predictions and each count is the number with that status. Earned is the sum of positive points, lost the sum of absolute negative points. Both are non-negative and net is earned minus lost. |
| `PredictionQueries.CountsPartition` | src/hooks/usePrediction.ts:137-142 | The five status counts add up to the total. |
| `PredictionQueries.FinishedWithinTotal` | src/hooks/usePrediction.ts:137-142 | correct + incorrect + void <= total. |
| `PredictionQueries.EarnedMinusLost` | src/hooks/usePrediction.ts:144-150 | Earned minus lost is the plain sum of the points, a missing value counting as 0. |
| `PredictionQueries.NetPointsIsTotal` | src/hooks/usePrediction.ts:144-160 | Net points equal the sum of all `points_earned`. |
| `Dates.ParseDate` | src/utils/date.ts:37-40 | A result needs at least three dash-separated pieces. |
| `Dates.FormatDate` | src/utils/date.ts:26-32 | For a non-negative year and a month and day below 100, the text splits on `-` into three digit groups: the year, then the 1-based month and the day, each in exactly two digits. |
| `Dates.IsValidDateString` | src/utils/date.ts:45-53 | Accepts exactly the strings of the shape `dddd-dd-dd`. The date check after the regular expression never rejects. |
| `Dates.OutOfRangeFieldsAccepted` | src/utils/date.ts:37-53 | `2024-13-40` is accepted. |
| `Dates.FormatDateIsValid` | src/utils/date.ts:26-31 | For a four-digit year the formatted text has the `YYYY-MM-DD` shape and is accepted. |
| `Dates.TwoDigitsValue` | src/utils/date.ts:28-29 | A number below 100 padded to two digits reads back as itself. |
| `Dates.ParseFormatDate` | src/utils/date.ts:26-40 | Parsing the formatted text gives back the year, the 0-based month and the day. |
| `Dates.CivilFromDays` | src/utils/date.ts:16-18 | The UTC calendar fields of a day number: a month index in 0..11 and a day in 1..31. |
| `Dates.UtcFields` | src/utils/date.ts:16-18 | The fields of an instant are those of the start of its UTC day: the time of day is dropped. The month index is in 0..11 and the day in 1..31. |
| `Dates.EpochInKorea` | src/utils/date.ts:9-21 | The epoch is 1 January 1970 both in UTC and nine hours later in Korea. |
| `Dates.GetTodayKST` | src/utils/date.ts:9-21 | The text is the UTC calendar day of now plus nine hours: from year 0 on, `parseDate` reads it back as exactly those fields, with the month index in 0..11 and the day in 1..31. |
| `Dates.TodayIsValid` | src/utils/date.ts:9-21 | In a four-digit year, today's text passes `isValidDateString`. |
| `Dates.NewYearInKorea` | src/utils/date.ts:13-20 | 2023-12-31T15:00Z is 31 December in UTC and 1 January 2024 in Korea. |
| `TokenStorage.DecideAvailability` | src/services/api/client.ts:86-101 | Returns the cached flag when there is one. Otherwise false on the web or when the probe throws, else the probe's answer. |
| `TokenStorage.AvailabilityDecidedOnce` | src/services/api/client.ts:84-101 | Once decided, the flag is returned unchanged whatever a later probe says, and no operation alters it. |
| `TokenStorage.ReadOutcome` | src/services/api/client.ts:103-128 | The secure slot when the store is in use and its read succeeds. Otherwise, because a throwing or unavailable secure read falls back, the fallback slot, or no token when the fallback read throws too. Never an error. |
| `TokenStorage.AfterSet` | src/services/api/client.ts:133-155 | With the secure store in use and its write succeeding, only the secure slot changes, to the token. Otherwise only the fallback slot changes, to the token. If that fallback write fails too, the call rejects and no slot changes. |
| `TokenStorage.AfterDelete` | src/services/api/client.ts:160-181 | With the secure store in use and its delete succeeding, the secure slot is cleared. Otherwise the fallback slot is cleared, or, when that delete fails too, nothing changes. Fallback failures are swallowed, so there is no error outcome. |
| `TokenStorage.WebUsesFallbackOnly` | src/services/api/client.ts:90-93 | On the web the secure slot is never read or written. |
| `TokenStorage.SetThenGet` | src/services/api/client.ts:115-155 | Under any write and read faults: a fault-free write always resolves. A resolved write without a secure fault is read back by a fault-free read, and always when the secure store is unused. After a failed secure write a successful secure read returns the old secure token. After a rejected write every read is as before. |
| `TokenStorage.DeleteThenGet` | src/services/api/client.ts:115-181 | Under any delete and read faults: after a successful secure delete, a read without a secure fault finds nothing. With the secure store unused, a successful fallback delete leaves nothing to read. A failed secure delete leaves the secure token readable. When both deletes fail, every read is as before. |
| `TokenStorage.StaleReadAfterSecureWriteFailure` | src/services/api/client.ts:149-154 | A failed secure write resolves via the fallback, yet the next read returns the old secure token. |
| `TokenStorage.DeleteCanLeaveTokenReadable` | src/services/api/client.ts:175-180 | A failed secure delete clears the fallback, and the secure token stays readable. |
| `TokenStorage.CredentialStore.EnsureAvailability` | src/services/api/client.ts:86-101 | Returns `DecideAvailability` and caches it. |
| `TokenStorage.CredentialStore.GetToken` | src/services/api/client.ts:115-128 | Returns `ReadOutcome`; only the cache changes. |
| `TokenStorage.CredentialStore.SetToken` | src/services/api/client.ts:142-155 | The new slots and the resolve/reject result are those of `AfterSet`. |
| `TokenStorage.CredentialStore.DeleteToken` | src/services/api/client.ts:168-181 | The new slots are those of `AfterDelete`. |
| `ApiClient.NormalizeEnvUrl` | src/services/api/client.ts:36-40 | None exactly for a missing, empty or all-whitespace value. Otherwise the value trimmed, and non-empty. |
| `ApiClient.NormalizeEnvUrlIdempotent` | src/services/api/client.ts:36-40 | Normalising a normalised value changes nothing. |
| `ApiClient.ResolveBaseUrl` | src/services/api/client.ts:42-79 | The environment URL when set. Otherwise the configured development or production URL when non-empty, else the built-in default. |
| `ApiClient.BaseUrlNeverEmpty` | src/services/api/client.ts:42-79 | Both back ends always get a non-empty base URL. |
| `ApiClient.JoinUrl` | src/services/api/client.ts:190-192 | The result is the base followed by the path, with at most one character dropped at the seam. A character is dropped exactly when the base ends and the path starts with `/`. |
| `ApiClient.JoinUrlSlash` | src/services/api/client.ts:190-192 | Under a base ending in `/`, a path with or without one leading `/` gives the same URL. A doubled `/` keeps one. |
| `ApiClient.JoinUrlConcatenates` | src/services/api/client.ts:190-192 | Without a `/` on both sides the two are concatenated. |
| `ApiClient.BuildHeaders` | src/services/api/client.ts:195-209 | `Content-Type` is `application/json` unless the caller sets it. `Authorization` is present only with a non-empty token, as `Bearer <token>`. Caller headers override the defaults. |
| `ApiClient.BearerCarriesToken` | src/services/api/client.ts:199-201 | The default `Authorization` value is `Bearer `, one space, then exactly the token. |
| `ApiClient.FetchResult` | src/services/api/client.ts:211-270 | Status 401 gives the unauthorized error. Other non-OK statuses reject with status, status text and the parsed body, or `{message: statusText}` when the body does not parse. A 2xx with status 204 or `content-length: 0` resolves to null data. Any other 2xx gives the parsed body, or fails when it does not parse. |
| `ApiClient.OkResponseResolves` | src/services/api/client.ts:253-262 | A 2xx response resolves unless its body must be parsed and is not JSON. |
| `ApiClient.Client.Fetch` | src/services/api/client.ts:186-272 | The request goes to the joined URL with the headers built from the token read. On 401 the credential is deleted and then `auth:unauthorized` is emitted with the full URL and 401, in that order. On other outcomes neither happens. |
| `ApiClient.ParseBaseResponse` | src/services/api/client.ts:277-285 | A `null` envelope (the data of a body-less answer) raises the `TypeError`. Otherwise it returns `data` exactly when `success`, and else throws with the error message, or `API Error` when that is missing or empty. |
| `ApiClient.EmptySuccessCannotBeUnwrapped` | src/services/api/client.ts:253-285 | A 204 or `content-length: 0` answer resolves to null data, which unwrapping then rejects. |
| `Session.InitialRead` | src/providers/AuthProvider.tsx:118-137 | The web reads the fallback slot once. A native platform reads the slot the probe selects. If the probe or that read throws, it reads the fallback slot a second time. The read fails exactly when the last read made throws. |
| `Session.InitialReadMatchesGetToken` | src/providers/AuthProvider.tsx:118-137 | With nothing cached, and the retried read failing as the client's fallback read would, the initial read agrees with `getToken`, except that a fallback failure throws instead of giving null. |
| `Session.SessionController.constructor` | src/providers/AuthProvider.tsx:33-36 | Starts with no token, no user, loading, and not loading a profile. |
| `Session.SessionController.IsAuthenticated` | src/providers/AuthProvider.tsx:191 | Authenticated exactly when a profile is loaded. A held token alone is not enough. In a consistent session an authenticated user always has a token. |
| `Session.SessionController.Login` | src/providers/AuthProvider.tsx:43-70 | Succeeds exactly for a valid token, a successful write and a profile. Then the credential is written before the profile request, `token` is the new token and `user` the profile. On any failure, including an invalid token, the credential is deleted and both are cleared. It always ends with the profile flag down. |
| `Session.SessionController.Logout` | src/providers/AuthProvider.tsx:75-92 | Calls the remote logout only with a token held. It always deletes the credential, clears `token` and `user`, then clears the query cache. |
| `Session.SessionController.RefreshToken` | src/providers/AuthProvider.tsx:97-109 | Without a token nothing changes. On success the new token is stored and adopted. A failed refresh or write performs the logout. The session stays consistent: a user is held only together with a token. |
| `Session.SessionController.LoadInitialToken` | src/providers/AuthProvider.tsx:114-168 | Authenticated exactly when a non-empty unexpired token is read and the profile loads; the credential store then differs only in the availability flag, which the profile request's token read decides. An empty read touches nothing. An expired token, a failing read (after the fallback retry) or a failing profile request deletes the credential. It always ends with both loading flags down and a token exactly when there is a user. |
| `Session.FailedLoginLeavesNoCredential` | src/providers/AuthProvider.tsx:60-66 | After a failed login whose delete meets no fault, a fault-free read finds no token. |
| `DeepLinking.Route` | src/hooks/useDeepLinking.ts:48-77 | `detail` and `predict` navigate only with a truthy `symbol`, passing `symbol`, `aiModel` and `date`. `login` goes to Login. Every other path goes to Dashboard. |
| `DeepLinking.Dispatch` | src/hooks/useDeepLinking.ts:25-83 | No action when navigation is not ready, parsing fails or the path is empty. A filter patch exactly for a non-empty query string, decoded by the filter decoder. The navigation is chosen by the path alone. |
| `DeepLinking.PatchIndependentOfPath` | src/hooks/useDeepLinking.ts:40-45 | The filter update is the same whichever path the link has. |
| `DeepLinking.SharedLinkCarriesFilters` | src/hooks/useDeepLinking.ts:40-45 | A link with a complete filter state's query string sets every filter field to that state's, keeping pagination. |
| `DeepLinking.HandleDeepLink` | src/hooks/useDeepLinking.ts:25-83 | Applies the patch via `setFilters` and makes at most one navigation. When not ready, it touches neither the store nor the navigator. |

## Left out

- Percent-encoding. `URLSearchParams` escaping and `encodeURIComponent` are not modelled. Query
  text is split on `&` and `=` verbatim, and the encoded OAuth redirect is a parameter. The
  round-trip lemmas therefore require values without `&` (or `?` and `=` where relevant).
- `Linking.parse` and `new URL`. Their results (path, query pairs, `search`) are parameters.
  Repeated query keys, which Expo returns as arrays, are read as the first value.
- `atob`, `decodeURIComponent` and `JSON.parse` of the JWT payload. They are one abstract
  `decode` function, so `exp` is an integer or absent. A non-numeric or fractional `exp`,
  which JavaScript would compare loosely, is not modelled.
- `fetch`, `response.json()`, SecureStore, AsyncStorage and DeviceEventEmitter. These are
  parameters (the response, probe answers, fault flags) and appended trail entries. The
  emitter's subscribers are not modelled. A throwing emitter, caught and logged before the
  401 error is thrown, is not modelled.
- `Session.SessionController.LoadInitialToken`, `Session.SessionController.Login`,
  `Session.SessionController.Logout` and `Session.SessionController.RefreshToken`: the server
  calls they make are outcomes given as parameters. The client's own handling of a 401 answer
  to those calls (a credential delete and the `auth:unauthorized` emit) is not part of the
  session model; a failed profile request is followed by the session's own delete.
- The `auth:unauthorized` listener. It only logs and changes no session state, so it is not
  an operation of the model.
- Asynchronous interleaving. Each operation runs to completion, React batches nothing, and
  two operations never overlap.
- The server's answer to the remote logout. It is ignored by the source, and the model
  records only that the call was made.
- Unicode beyond ASCII. `toUpperCase` is modelled on ASCII letters only. `trim` uses
  JavaScript's whitespace set.
- `Number()` on anything but digit strings. Signs, decimals and exponents in date pieces are
  not modelled; a piece that is not all digits reads as NaN.
- `new Date(y, m - 1, d)` itself. `parseDate` returns its constructor arguments, not a
  normalised date: month and day roll-over, the mapping of years 0 to 99 to 1900 + y, and
  the Invalid Date that arguments outside the Date range give (for instance
  `300000-01-01`, which the model returns as `Some`) are not modelled. Within the
  `YYYY-MM-DD` shape the constructor never gives an Invalid Date, so `isValidDateString` is
  unaffected.
- `formatDate` on a `Date`. The date is given as its calendar fields.
- The floating-point `accuracy_rate` and all `toFixed` formatting.
- `limit`, `offset` and `points_earned` are JavaScript numbers and are modelled as integers.
  Fractional and NaN values (a `limit` of 2.5, which the validators pass on unchanged) are
  not modelled.
- The debounced filter update (a timer) and the locale date helpers.
- `Dates.CivilFromDays`: its contract bounds the month index and the day but does not prove
  the proleptic Gregorian conversion correct for every day. `Dates.EpochInKorea` and
  `Dates.NewYearInKorea` check it at concrete instants, and `Dates.GetTodayKST` and
  `Dates.UtcFields` inherit the gap.
- React Query's cache and its `enabled`/stale-time options. Invalidation is modelled as key
  prefix matching only.
