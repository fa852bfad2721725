# KoFlix web client core, modelled in Dafny

KoFlix is a streaming catalogue. Its web client talks to a Strapi content
service and keeps some state in the browser. This project models the
client's core and proves properties of that model:

- **API client** (`api.dfy`, module `Api`). This covers:
  - normalizing the configured base address;
  - resolving media URLs;
  - flattening Strapi title envelopes into card and detail views;
  - building request URLs whose query keys are set one by one;
  - the GET helper, which adds bearer-token headers and reads failures in a fixed way;
  - the title list and single-title calls.
- **Login** (`auth.dfy`, module `Auth`): the credentials check and how the login response is read.
- **Favorites** (`favorites.dfy`, module `Favorites`): the favorite normalizer and the list, lookup, add and remove calls.
- **Session store** (`session.dfy`, module `Session`): a class whose token is mirrored under one local-storage key.
- **Local progress store** (`local_progress.dfy`, module `LocalProgress`). It is a map from item id to watch progress. The map is stored as JSON in one local-storage slot, and each save dispatches an event on the window.
- **Remote progress service** (`remote_progress.dfy`, module `RemoteProgress`). This covers:
  - the current-user cache, a state machine over `cachedUser` and `cachedToken`;
  - the "continue watching" normalizer, with its rounding of percentages and minutes;
  - the progress lookup;
  - the save, which picks PUT or POST.
- **Demo catalogue** (`catalog.dfy`, module `Catalog`): six static items, the featured item, the started row and the trending row.

Shared modules:

- `Wrappers`: `Option`, `Result`, the error kinds, and `map`/`filter`.
- `Text`: decimal formatting, `trim`, `startsWith`/`endsWith`, and `||` chains on strings.
- `Records`: JavaScript plain objects as ordered entry lists, with `obj[k] = v` and `URLSearchParams.set`.
- `Http`: requests and responses.
- `Strapi`: response envelopes.
- `Browser`: a `Window` class holding `localStorage` and the list of dispatched events.

How the asynchronous calls are modelled:

- Each call becomes a method. The HTTP response it would receive is a parameter. The method returns the request it would send (`None` when it sends nothing) and the settled outcome (`Ok` value or `Err` error).
- The token that a call reads from local storage is a parameter (`storedToken`).
- The configured base address `API_BASE_URL` is a parameter (`base`). `Api.ApiBaseUrl` models how it is computed.
- The fetchers that first await `getCurrentUser` take that call's outcome as a parameter (`user`). The cache itself is `RemoteProgress.UserCache`.
- Three things the source reads from its environment are parameters: the clock (`now`), the browser window (`Window?`, `null` outside a browser), and JSON parsing and printing of the progress map (an abstract `Codec`).
- The source imports `apiFetchJson` and `TOKEN_STORAGE_KEY` from modules that do not export them. The model reads them as the GET helper `fetchJson` and the session store's key `koflix_token`.

## Model

| member | source | states |
|---|---|---|
| Api.NormalizeBaseUrl | apps/web/src/services/api.ts:5-11 | fails with "VITE_API_URL is not set" exactly when the value is empty or all whitespace; otherwise the trimmed value when that already ends with `/`, and the trimmed value followed by `/` when it does not; the result ends with `/` and does not start with whitespace |
| Api.NormalizeBaseUrlIdempotent | apps/web/src/services/api.ts:5-11 | normalizing an already normalized address returns it unchanged |
| Api.ApiBaseUrl | apps/web/src/services/api.ts:13 | the base address is `""` exactly when the setting is absent or empty; otherwise it is the normalized setting |
| Api.DropTrailingSlash | apps/web/src/services/api.ts:101 | removes exactly one trailing `/` when there is one, and nothing otherwise |
| Api.ResolveMediaUrl | apps/web/src/services/api.ts:97-102 | nothing exactly when the media URL is missing or empty; an absolute (`http…`) URL unchanged; otherwise the base without one trailing `/` followed by the URL, which always ends with the media URL |
| Api.ResolveMediaUrlIdempotent | apps/web/src/services/api.ts:97-102 | with an empty or absolute base, resolving a resolved URL again gives the same URL |
| Api.MapTitleCard | apps/web/src/services/api.ts:104-113 | id, name, kind, year, rating and isFeatured are copied; poster and backdrop are resolved, and are absent exactly when their URL is missing or empty |
| Api.MapEpisode | apps/web/src/services/api.ts:129-135 | id, name, number and duration are copied; the video address is the resolved video URL, so it is absent exactly when that URL is missing or empty, and otherwise ends with it |
| Api.MapSeason | apps/web/src/services/api.ts:123-136 | a season keeps its id, name, number and synopsis, and its episodes follow the episode relation |
| Api.MapTitleDetail | apps/web/src/services/api.ts:115-137 | the card fields are the card view; synopsis and age rating are copied; the video address is the resolved video URL; genres, cast and seasons follow their relations (`[]` when a relation is missing) |
| Api.DetailExtendsCard | apps/web/src/services/api.ts:115-116 | the card fields of the detail view are exactly the card view |
| Api.DetailListsFollowRelations | apps/web/src/services/api.ts:120-136 | every season keeps the length and order of its source list, and so does each season's episode list (empty when missing) |
| Api.StripLeadingSlash | apps/web/src/services/api.ts:143 | removes at most one leading `/` |
| Api.BuildUrl | apps/web/src/services/api.ts:139-151 | fails before doing anything when the base is empty; otherwise gives the stripped path and the query obtained by setting each parameter in turn, which is the parameter list itself when its keys are distinct |
| Records.Assign | apps/web/src/services/api.ts:147 | after setting `k` to `v`, `k` reads `v` and every other key reads as before; a new key is appended at the end |
| Records.AssignKeepsDistinct | apps/web/src/services/progress.ts:89-95 | assigning a key keeps an object's keys distinct |
| Records.AssignAllLookup | apps/web/src/services/api.ts:146-148 | after setting all parameters, each key has the last value given to it |
| Records.AssignAllDistinct | apps/web/src/services/api.ts:146-148 | setting the entries of an object on an empty query reproduces them in order |
| Api.AuthHeaders | apps/web/src/services/api.ts:156 | carries `Authorization: Bearer <token>` exactly when the token is present and non-empty, and is empty otherwise; never any other header |
| Api.JsonHeaders | apps/web/src/services/favorites.ts:89-92 | exactly `Content-Type: application/json` followed by the Authorization headers above, and nothing else |
| Api.FailureText | apps/web/src/services/api.ts:159-162 | the failure message is never empty; it is the body text when that is non-empty, and `Request failed (<status>)` otherwise |
| Api.ReadJson | apps/web/src/services/api.ts:159-164 | succeeds exactly on an ok response with a JSON body, giving that body; a non-ok response raises the failure text; an ok response whose body is not JSON rejects |
| Api.FetchJson | apps/web/src/services/api.ts:153-165 | with no base, no request and the configuration error; otherwise a GET to the built URL with the bearer headers, read as above |
| Api.TitleListParams | apps/web/src/services/api.ts:168-177 | the query is exactly poster, backdrop and genres populated with `*` and `sort=updatedAt:desc`, followed by `filters[isFeatured][$eq]=true` exactly when featured titles are asked for; keys are distinct |
| Api.FetchTitles | apps/web/src/services/api.ts:167-185 | no request without a base; otherwise exactly a GET to `api/titles` on the base, with the bearer headers and the query above; succeeds exactly on an ok JSON response, with one card per entity, in order |
| Api.TitleDetailParams | apps/web/src/services/api.ts:188-195 | six distinct keys, each set to `*`: poster, backdrop, video, genres, cast, and seasons with their episodes |
| Api.FetchTitleById | apps/web/src/services/api.ts:187-203 | a GET to `api/titles/<id>`; succeeds exactly on an ok JSON response, with the detail view of its entity |
| Text.Trim | apps/web/src/services/api.ts:6 | the result is a slice of the input with only whitespace before and after it; it has no ECMAScript whitespace at either end, and it is empty exactly when the input is all whitespace |
| Text.TrimIdempotent | apps/web/src/services/api.ts:6 | trimming twice is trimming once |
| Text.NatToStringRoundTrip | apps/web/src/services/api.ts:161 | the decimal spelling of a status code reads back as that number |
| Text.NatToStringInjective | apps/web/src/services/api.ts:161 | different status codes give different `Request failed (<status>)` texts |
| Text.FirstNonEmpty | apps/web/src/services/auth.ts:33-36 | a chain of string alternatives ending in a fallback gives the first non-empty string, or the fallback when all are empty |
| Auth.LoginErrorMessage | apps/web/src/services/auth.ts:32-37 | the body's `error.message` if non-empty, else its `message` if non-empty, else `Request failed (<status>)`; never empty |
| Auth.LoginResponseOutcome | apps/web/src/services/auth.ts:32-44 | corrected reading: a non-ok status raises the message above, checked before the jwt; an ok response succeeds exactly when the body carries `jwt`, returning it unchanged, and otherwise raises "Réponse invalide" |
| Auth.LoginResponseOutcomeAsWritten | apps/web/src/services/auth.ts:32-42 | as written: a truthy JSON body that is not an object raises a TypeError |
| Auth.LoginTypeErrorWitness | apps/web/src/services/auth.ts:34-35 | a 502 reply with a JSON string body raises a TypeError as written, and `Request failed (502)` when corrected; a 200 reply with a JSON number body raises a TypeError as written, and "Réponse invalide" when corrected |
| Auth.LoginResponseOutcomeCorrected | apps/web/src/services/auth.ts:32-44 | the corrected reading never raises a TypeError, and it agrees with the source on every other body |
| Auth.LoginDecision | apps/web/src/services/auth.ts:14-17 | an empty identifier or password fails with "Identifiants requis", whatever the response |
| Auth.Login | apps/web/src/services/auth.ts:14-45 | no request for empty credentials or no base; otherwise a JSON POST of the credentials to `api/auth/local`, decided by the corrected reading above (see Findings) |
| Favorites.MapFavorite | apps/web/src/services/favorites.ts:38-48 | nothing exactly when the title relation is missing or null; otherwise the favorite id, the title id, and the title's name, kind and year |
| Favorites.FavoritesOf | apps/web/src/services/favorites.ts:63-65 | no more favorites than records, and each favorite is the mapping of some record of the response |
| Favorites.FavoritesOfAppend | apps/web/src/services/favorites.ts:63-65 | the list distributes over concatenation, so favorites keep response order |
| Favorites.FavoritesOfKeeps | apps/web/src/services/favorites.ts:63-65 | every favorite with a title is listed |
| Favorites.FavoritesOfComplete | apps/web/src/services/favorites.ts:63-65 | when no favorite dangles, the list maps the response one to one |
| Favorites.FirstFavorite | apps/web/src/services/favorites.ts:81-82 | nothing for an empty response; otherwise the mapping of the first element, so nothing when that first favorite dangles (even if later ones do not); a result heads the favorites list |
| Favorites.FetchFavorites | apps/web/src/services/favorites.ts:50-66 | no request without a user or a base; otherwise a GET of `api/favorites` with the bearer headers and exactly the query user filter, `populate[title]=*`, `sort=updatedAt:desc`, returning the non-dangling mappings in response order |
| Favorites.FetchFavoriteForTitle | apps/web/src/services/favorites.ts:68-83 | no request without a user or a base; otherwise a GET of `api/favorites` with the bearer headers and exactly the query user filter, title filter, `populate[title]=*`; returns the first favorite or nothing |
| Favorites.AddFavorite | apps/web/src/services/favorites.ts:85-107 | a JSON POST of `{title, user}`; a non-ok response raises its failure text, and an ok one that maps to nothing raises the invalid-response error |
| Favorites.RemoveFavorite | apps/web/src/services/favorites.ts:109-119 | a DELETE of `api/favorites/<id>`; succeeds exactly on an ok response and otherwise raises the failure text |
| Session.SessionStore.constructor | apps/web/src/stores/session.ts:7 | the initial token is the stored token |
| Session.SessionStore.IsAuthenticated | apps/web/src/stores/session.ts:8 | an empty token does not authenticate; while memory and storage agree, authenticated exactly when the storage key holds a non-empty token |
| Session.SessionStore.SetToken | apps/web/src/stores/session.ts:10-13 | memory and storage key both become `v`, and no other key changes; authenticated exactly when `v` is non-empty |
| Session.SessionStore.Clear | apps/web/src/stores/session.ts:15-18 | the token becomes null and the key is removed, and no other key changes; not authenticated |
| Session.ClearTwice | apps/web/src/stores/session.ts:15-18 | clearing twice leaves the same token and storage as clearing once |
| Session.Run | apps/web/src/stores/session.ts:7-18 | after any sequence of set and clear calls, memory and storage agree, and the token is the last step's value |
| Catalog.ContinueWatchingOf | apps/web/src/data/catalog.ts:100 | the row holds exactly the items whose progress is present and non-zero, and is no longer than the catalogue |
| Catalog.ContinueWatchingAppend | apps/web/src/data/catalog.ts:100 | the row keeps catalogue order: the row of two runs of items is the two rows one after the other |
| Catalog.ContinueWatchingOne | apps/web/src/data/catalog.ts:100 | a single item gives itself when started and nothing otherwise, so with the append lemma each item is kept once, in order |
| Catalog.StartedFilter | apps/web/src/data/catalog.ts:100 | the filter keeps every started item, keeps nothing else, and is empty when no item is started |
| Catalog.TrendingOf | apps/web/src/data/catalog.ts:102 | the first four items in order, or all of them when there are fewer |
| Catalog.CatalogShape | apps/web/src/data/catalog.ts:15-98 | six items with pairwise distinct ids; every present progress lies in [0, 1]; the featured item is `helix-drift` |
| Catalog.ContinueWatchingContents | apps/web/src/data/catalog.ts:28-100 | the started row is exactly `helix-drift` then `fable-76` |
| Catalog.TrendingContents | apps/web/src/data/catalog.ts:98-102 | trending is the first four catalogue items, and it starts with the featured item |
| LocalProgress.Clamp | apps/web/src/data/progress.ts:13 | the result lies in the range and is the identity inside it; below the range it gives the low end and above it the high end |
| LocalProgress.ClampExamples | apps/web/src/data/progress.ts:13 | 1.4 clamps to 1 and -0.2 to 0 |
| LocalProgress.Normalize | apps/web/src/data/progress.ts:38-43 | a stored entry is well formed (fraction in [0, 1], no negative times): the fraction is clamped to [0, 1], duration and position are floored at 0, the timestamp is kept, and a well-formed entry is unchanged |
| LocalProgress.LoadProgressMap | apps/web/src/data/progress.ts:15-28 | the empty map when there is no window, when the slot is absent or empty, when the text does not parse, or when it parses to a non-object; otherwise the parsed map |
| LocalProgress.GetProgressEntry | apps/web/src/data/progress.ts:30-33 | present exactly when the loaded map has `id`, and then its entry; nothing without a window |
| LocalProgress.SaveProgressEntry | apps/web/src/data/progress.ts:35-46 | with a window, the slot holds the loaded map with `id` set to the normalized entry, and exactly one event naming `id` is appended; without a window nothing changes |
| LocalProgress.SaveThenGet | apps/web/src/data/progress.ts:30-46 | after a save, reading `id` gives the normalized entry, provided the codec reads back the map it wrote |
| LocalProgress.SaveKeepsOthers | apps/web/src/data/progress.ts:37-44 | a save leaves every other id, and every other storage key, as it was |
| LocalProgress.SaveTwice | apps/web/src/data/progress.ts:35-46 | two saves to one id leave the same storage as the second save alone |
| LocalProgress.ApplyProgress | apps/web/src/data/progress.ts:48-55 | length, order, ids and other fields are kept; an item without an entry is unchanged; an item with one gets the entry's fraction |
| LocalProgress.ApplyProgressIdempotent | apps/web/src/data/progress.ts:48-55 | applying the same store twice is applying it once |
| LocalProgress.ApplyStoredProgress | apps/web/src/data/progress.ts:48-55 | on the stored map: length, order, ids and other fields are kept; an item that `getProgressEntry` finds nothing for is unchanged, and one it finds an entry for gets that entry's fraction; without a window every item is unchanged |
| LocalProgress.ApplyAfterSave | apps/web/src/data/progress.ts:35-55 | after saving `id`, every item with that id shows the clamped fraction |
| RemoteProgress.CurrentUser | apps/web/src/services/progress.ts:57-80 | with no token, both cached values reset and the call fails "Utilisateur non authentifié" without a request; otherwise the cached token becomes the token; on a valid cache the user comes without a request exactly when the token equals the cached one and a user is cached; with no user to reuse and no base, the call fails "VITE_API_URL is not set" without a request; a failed profile request raises "Impossible de récupérer le profil"; the cache stays consistent |
| RemoteProgress.CachedUserReused | apps/web/src/services/progress.ts:64-68 | after a successful call, the next call with the same token returns the same user from the cache, without a request |
| RemoteProgress.TokenChangeRefetches | apps/web/src/services/progress.ts:64-66 | a token different from the cached one always leads to a profile request |
| RemoteProgress.UserCache.constructor | apps/web/src/services/progress.ts:48-49 | both cached values start out null |
| RemoteProgress.UserCache.GetCurrentUser | apps/web/src/services/progress.ts:57-80 | updates the two variables, makes the request and returns the outcome, exactly as `CurrentUser` specifies |
| RemoteProgress.Round | apps/web/src/services/progress.ts:106 | the nearest integer to a non-negative ratio, with halves rounded up |
| RemoteProgress.RemainingMinutes | apps/web/src/services/progress.ts:105-107 | the rounded minute count, and at least one |
| RemoteProgress.FormatMinutes | apps/web/src/services/progress.ts:105-108 | a non-empty run of decimal digits followed by " min restantes", where the digits are exactly the spelling of the minute count and read back as it |
| RemoteProgress.FormatMinutesReadsBack | apps/web/src/services/progress.ts:105-108 | the text is the decimal minute count followed by " min restantes", and the number reads back |
| RemoteProgress.ProgressPercent | apps/web/src/services/progress.ts:146-151 | 0 without a duration; never above 100; the rounded ratio when that is at most 100 |
| RemoteProgress.ProgressPercentNearest | apps/web/src/services/progress.ts:148-151 | within the duration the percentage is the nearest integer to 100·p/d |
| RemoteProgress.ProgressPercentExamples | apps/web/src/services/progress.ts:148-151 | 150 of 200 seconds gives 75; no duration gives 0; past the duration gives 100 |
| RemoteProgress.Remaining | apps/web/src/services/progress.ts:152-153 | present exactly when the duration exceeds the progress, as the formatted minutes of the difference |
| RemoteProgress.DisplayName | apps/web/src/services/progress.ts:140-144 | the first non-empty of the season's title name, the title name and the episode name, else "Lecture"; never empty |
| RemoteProgress.ContinueEntryOf | apps/web/src/services/progress.ts:136-173 | dropped exactly when the linked episode has id 0, or when there is no episode and the title is missing or has id 0; the watch id is the episode's when one is linked, else the title's; the subtitle is `S<season or ?> · Épisode <n>` for an episode, else "Film" for a movie, else "Série"; name, percentage and remaining time as above |
| RemoteProgress.ContinueEntries | apps/web/src/services/progress.ts:135-174 | no more tiles than records, and each tile is the tile of some record of the response |
| RemoteProgress.ContinueEntriesAppend | apps/web/src/services/progress.ts:135-174 | the row distributes over concatenation, so tiles keep response order |
| RemoteProgress.ContinueEntriesKeeps | apps/web/src/services/progress.ts:161-174 | every record with a non-zero watch id gets its tile |
| RemoteProgress.ContinueEntriesSound | apps/web/src/services/progress.ts:136-174 | every tile comes from a record of the response, and has a non-zero watch id, a non-empty name and at most 100 percent |
| RemoteProgress.ContinueParams | apps/web/src/services/progress.ts:121-128 | six distinct keys: filters on the user and on unfinished records, `sort=lastWatchedAt:desc`, the title and the episode-season-title relations populated with `*`, and `limit` records per page |
| RemoteProgress.FetchContinueProgress | apps/web/src/services/progress.ts:119-175 | no request without a user or a base; otherwise a GET of `api/progresses` with that query, returning the row of the response |
| RemoteProgress.ProgressQuery | apps/web/src/services/progress.ts:84-95 | the query is exactly the user filter and `sort=updatedAt:desc`, then the title filter and then the episode filter, each only when that id is given and non-zero and set to its decimal spelling; keys stay distinct |
| RemoteProgress.FetchProgressEntry | apps/web/src/services/progress.ts:82-103 | no request without a user or a base; otherwise a GET of `api/progresses` on the base, with the bearer headers and no body, whose query is exactly the one above; returns the first record, or nothing for an empty response |
| RemoteProgress.ProgressPath | apps/web/src/services/progress.ts:196-215 | `api/progresses/<id>`, with the given id spelled in decimal, exactly when a non-zero progress id is given; else `api/progresses` |
| RemoteProgress.SaveProgressEntry | apps/web/src/services/progress.ts:177-231 | PUT exactly when a non-zero progress id is given and POST otherwise, with a JSON body stamped `now` and carrying the user id; a non-ok response raises its body text or `Request failed (<status>)` |

## Left out

- Floating point. Seconds are natural numbers. Percentages and minutes use exact integer rounding, and progress fractions are exact reals, so NaN, infinities and float rounding of `p / d * 100` are not modelled.
- `new URL(path, base)` and its serialisation. A `Url` keeps the base, the cleaned path and the query list. Dot segments, absolute paths, and query strings already present in the base are not resolved.
- Api.BuildUrl: a base that is not an absolute URL (such as `/api/`) makes `new URL` throw a TypeError in the source; the model builds a `Url` from any non-empty base.
- Network, `fetch` and JSON parsing of responses. A response is an input record: the ok flag, the status, the body text and the parsed body (`None` when it is not JSON).
- The `data` envelope of response bodies. A parsed body is modelled as its `data` member. A body without `data` is not modelled: there the list and lookup calls and the add-favorite call (through `mapFavorite(data.data)`) throw a TypeError, and the remote progress save returns `undefined`.
- JSON parsing and printing of the progress map are an abstract codec. The lemmas that read back a save (`SaveThenGet`, `SaveKeepsOthers`, `SaveTwice`, `ApplyAfterSave`) require only that the codec reads back the one map the save wrote (`ReadsBack`). `ReadsBackSatisfiable` shows such a codec exists for every map.
- A stored map that is a JSON array, or whose entries are not progress entries, is read as a map of entries. Special keys such as `__proto__` are not modelled.
- `RemoteProgress.ContinueEntryOf`: a season with a null `number`, or an episode without one, is not modelled. Season and episode numbers are always present.
- `Auth.LoginResponseOutcome`: a `jwt` key that is present with value `null` is not modelled (the source then returns the body). A falsy `error.message` or `message` of any type counts as missing. A truthy non-string one is held as its string form, which is what `new Error` shows.
- Auth.Login: uses the corrected reading of the response, which never raises a TypeError. On a truthy body that is not an object, the source raises a TypeError. `LoginResponseOutcomeAsWritten` models that case and the Findings table records it.
- Asynchronous scheduling. Each call runs to completion, so concurrent `getCurrentUser` calls do not interleave.
- Vue and Pinia reactivity. `isAuthenticated` is a function of the token rather than a computed ref.
- The route table and the styling configuration. Neither holds logic, so there is nothing to model. In particular, no navigation guard exists.
- The default `limit` of 12 on the continue-watching call. It is the constant `RemoteProgress.CONTINUE_LIMIT`, which the caller passes.
- The mis-encoded message "RÃ©ponse invalide" of the add-favorite call is kept as written.

## Findings

| source | as written | input that shows it | evidently intended | confidence | as-written member | corrected member |
|---|---|---|---|---|---|---|
| apps/web/src/services/auth.ts:34-35, 40 | `'error' in data`, `'message' in data` and `'jwt' in data` are evaluated on any truthy parsed body, and the `in` operator throws a TypeError when its right operand is not an object | a 502 response whose body is the JSON string `"Bad Gateway"`, or a 200 response whose body is `42` | the failure reads `Request failed (502)`, and the non-object success reads "Réponse invalide" | medium, not executed | Auth.LoginResponseOutcomeAsWritten (Auth.LoginTypeErrorWitness) | Auth.LoginResponseOutcome (Auth.LoginResponseOutcomeCorrected) |
