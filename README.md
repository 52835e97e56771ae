# Strava heatmap proxy and auto-kudo bot: a Dafny model

`index.js` is a small Express server with two jobs:

- **Heatmap tile proxy.** It forwards requests for personal or global heatmap tiles to Strava. The URL comes from a template, and the request carries the session cookies.
- **Auto-kudo bot.** On a timer, it reads the CSRF token from the dashboard and fetches the activity feed. It then gives a kudo to every eligible activity in feed order, pausing 5 to 10 seconds after each.

This project models the deterministic core of that program and proves properties of it. The core covers:

- the session cookie string built at start-up (`getCookies`, `getFullCookies`);
- the athlete id read back from that string (`extractStravaId`);
- the tile templates and their `{key}` substitution, and the status and headers of the tile response (`handleTileRequest`);
- the case-insensitive scan for `<meta name="csrf-token" content="...">` (`getCsrfToken`);
- the choice between the passed-in and the fetched token (`kudoActivity`);
- one cycle of the feed loop, with its eligibility filter and its pause (`fetchStravaFeed`);
- the API-key middleware and the start-up configuration (`initializeEnv`).

Two modules:

- **`JsText`** (`js_text.dfy`): the JavaScript string built-ins the program relies on.
  - `split` and `join` on one character, with their round trips.
  - `trim`, and the whitespace class `\s`.
  - The decimal rendering of an integer and its read-back.
- **`StravaUtility`** (`strava_utility.dfy`): the program itself, in source order.

### How the model is built

**I/O as inputs.** Everything the program fetches is an input:

- The start-up probe is a `ProbeReply` value.
- The dashboard page is an `Option<string>` (None when the fetch throws).
- The tile and feed endpoints are functions from the request sent to the reply.
- The `m`-th kudo POST of a cycle gets `kudo(m)` back.
- The `m`-th pause draws `random(m)` as its `Math.random()` ratio.
- `Date.now()` is the parameter `now`.

**Stops and exceptions.** A `process.exit(1)` becomes an error value (`Fault`). An exception the handler catches becomes its own outcome (`Caught`, `RequestThrew`, the 500 response).

**Imperative and pure parts.** The source's loops are methods with loop invariants, proved against specification functions:

- the header loop of `getCookies` (`GetCookies` against `SetCookiePairs`);
- the entry loop of `fetchStravaFeed` (`KudoEntries` against `KudoPlan` and `PostsFor`).

The global `Env` object, which `initializeEnv` updates field by field, is the class `Env`; its method `Initialize` states the whole new state.

The expression-only code (`extractStravaId`, template `replace`, the regex `match`) is functions and lemmas.

**Three behaviours of the code that its names and comments do not suggest; the model follows the code.**

- `extractStravaId` takes `idPart.split('=')[1]`, the text up to the *second* `=`, not the rest of the cookie. `IsRememberValue` states this.
- The `KUDO_SECS` and `TILE_CACHE_SECS` defaults are overwritten at once by `parseInt` of the same variable. When a variable is missing, that gives NaN. `Env.Initialize` therefore stores what `parseInt` returned, not the defaults.
- `kudoActivity`'s "skip without posting" branch cannot be taken. `getCsrfToken` stops the process, throws (when the dashboard fetch throws), or returns a non-empty token. `KudoActivity` keeps the branch, and `KudoNeverSkips` proves it unreachable.

## Model

| member | source | states |
|---|---|---|
| StravaUtility.CookiePair | index.js:53 | the match of `^([^;]+);` on one Set-Cookie value is a non-empty `;`-free text followed by `;` in the value; None exactly when no such text exists |
| StravaUtility.CapturedPairUnique | index.js:53 | at most one text is the capture of a value, so the match is determined |
| StravaUtility.PairsOf | index.js:52-55 | what one header adds to the list: its capture when it is named `set-cookie` and matches, nothing otherwise (no contract of its own; GetCookies and SetCookiePairsSound state what the list holds) |
| StravaUtility.SetCookiePairs | index.js:51-56 | the specification of `getCookies`' result: the headers' additions in header order (its meaning is stated by SetCookiePairsAppend, SetCookiePairsSound and GetCookies) |
| StravaUtility.GetCookies | index.js:49-58 | the loop over the headers returns exactly the captures of the `set-cookie` headers, in header order, one per matching header |
| StravaUtility.SetCookiePairsAppend | index.js:51-56 | the pairs of consecutive header lists are the pairs of the first list followed by those of the second (order is kept) |
| StravaUtility.SetCookiePairsSound | index.js:51-55 | every kept pair is the capture of some header named `set-cookie` |
| StravaUtility.SetCookiePairsHaveNoSeparator | index.js:53 | no kept pair contains `;` |
| StravaUtility.GetFullCookies | index.js:66-76 | a throwing probe gives RequestThrew and a non-200 probe gives AuthenticationFailed (the process stops); a 200 probe gives the probe's pairs then the seed, joined by `;` |
| StravaUtility.CompositeCookies | index.js:74-75 | `getCookies(probe).concat(seed).join(';')` (its meaning is stated by CompositeEndsWithSeed and CompositeParts) |
| StravaUtility.CompositeEndsWithSeed | index.js:74-75 | the seed is a verbatim suffix of the composite; without probe pairs the composite is the seed, otherwise the joined pairs, `;`, then the seed |
| StravaUtility.CompositeParts | index.js:74-75 | splitting the composite on `;` gives the probe's pairs followed by the seed's own parts |
| StravaUtility.TrimAll | index.js:61 | `parts.map(c => c.trim())`: same length, and element k is the trim of part k |
| StravaUtility.FirstRememberIndex | index.js:62 | `find`: the index of the first part starting with `strava_remember_id=`, None exactly when no part does |
| StravaUtility.FindRememberPart | index.js:62 | `parts.find(c => c.startsWith('strava_remember_id='))`: the part at FirstRememberIndex (its meaning is stated by FirstRememberIndex, FindRememberPartAppend and FirstOfTrimmed) |
| StravaUtility.FindRememberPartAppend | index.js:62 | `find` over two lists in a row returns the first list's hit, else the second's |
| StravaUtility.SplitAfterPrefix | index.js:63 | an accepted part has at least two `=`-fields, and field 1 is the first `=`-field after the prefix |
| StravaUtility.RememberValue | index.js:63 | `split('=')[1]` of an accepted part is the prefix's continuation, without `=`, ending at the next `=` or at the end |
| StravaUtility.RememberIdOf | index.js:63 | the id taken from an accepted part satisfies `IsRememberValue` |
| StravaUtility.ExtractStravaId | index.js:60-64 | `extractStravaId()` over the cookie string (its meaning is stated by ExtractStravaIdSpec, RememberValueUnique and CompositeKeepsSeedId) |
| StravaUtility.FirstOfTrimmed | index.js:61-62 | `find` over the trimmed parts fails exactly when no trimmed part is accepted; otherwise it yields the trimmed text of the first accepted part |
| StravaUtility.ExtractStravaIdSpec | index.js:60-64 | the id is undefined exactly when no trimmed `;`-part starts with `strava_remember_id=`; otherwise it is the text between the first and second `=` of the first such part |
| StravaUtility.RememberValueUnique | index.js:63 | a part has at most one remember value, so the id is determined by the part |
| StravaUtility.CompositeKeepsSeedId | index.js:60-76 | if the probe sets no remember cookie, the id read from the composite string is the id the seed carries |
| StravaUtility.WordRun | index.js:102 | the maximal run of `\w` characters at the start of a text |
| StravaUtility.PlaceholderAt | index.js:102 | a match of `\{(\w+)\}` at the start of a text: `{`, a non-empty word key, `}` |
| StravaUtility.PlaceholderFound | index.js:102 | every `{key}` with a word key at the start of a text is matched, with that key |
| StravaUtility.FieldText | index.js:88-96 | `data[key]` as the `replace` callback turns it into text: the field of that name, and `undefined` for a missing athlete id or a key that is no field (RenderHole states that a placeholder is replaced by it) |
| StravaUtility.Render | index.js:102 | the global `replace` with the `data[key]` callback, scanning left to right (its meaning is stated by RenderLiteral, RenderHole and RenderTemplate) |
| StravaUtility.RenderLiteral | index.js:102 | `replace` copies text without `{` unchanged |
| StravaUtility.RenderHole | index.js:102 | `replace` substitutes a `{key}` placeholder with the text of field `key`, and continues after it |
| StravaUtility.RenderTemplate | index.js:102 | rendering a well-formed template string with the global `replace` is the structured expansion: literals copied, each placeholder replaced by its field |
| StravaUtility.ExpandLeavesNoBrace | index.js:88-102 | if no field value holds `{`, the expansion holds none either |
| StravaUtility.PersonalMapTemplate | index.js:40-43 | PERSONAL_MAP_URL, written as its literal pieces and `{key}` placeholders in source order (PersonalMapTemplateOk states it is well formed, TileUrlExpands that the URL is its expansion) |
| StravaUtility.GlobalMapTemplate | index.js:45-47 | GLOBAL_MAP_URL, written as its literal pieces and `{key}` placeholders in source order (GlobalMapTemplateOk states it is well formed, GlobalTileUrlIgnoresStravaId that it has no `{strava_id}`) |
| StravaUtility.HostOk | index.js:40-47 | the host part of either template, two literals without `{`, a placeholder naming a field and `/`, keeps a well-formed rest well formed |
| StravaUtility.PersonalMapTemplateOk | index.js:40-43 | every placeholder of PERSONAL_MAP_URL names a field of `data`, and its literal text holds no `{` |
| StravaUtility.GlobalMapTemplateOk | index.js:45-47 | every placeholder of GLOBAL_MAP_URL names a field of `data`, and its literal text holds no `{` |
| StravaUtility.KindOf | index.js:98-99 | a path starting with `/personal` selects the personal map; every other path selects the global map |
| StravaUtility.TemplateFor | index.js:99 | the personal template for the personal kind, the global one otherwise (TemplateForOk and TileUrlExpands state what is built from it) |
| StravaUtility.TemplateForOk | index.js:98-99 | each kind's template is well formed |
| StravaUtility.Given | index.js:84-86 | a route parameter is truthy when present and not empty (ServeTile states that a request is refused with 400 exactly when one is not; ApiKeyGate and Env.Initialize use the same test for the key and the variables) |
| StravaUtility.TileFieldsOf | index.js:88-96 | `data` carries the route parameters and the session's athlete id; `res` is `@2x` exactly on the retina route, else `''` |
| StravaUtility.TileUrl | index.js:98-102 | the upstream URL of a tile request (its meaning is stated by TileUrlExpands, TileUrlHasNoPlaceholder and GlobalTileUrlIgnoresStravaId) |
| StravaUtility.TileUrlExpands | index.js:98-102 | the upstream URL is the template of the request's kind, with each placeholder replaced by its field |
| StravaUtility.TileUrlHasNoPlaceholder | index.js:88-102 | no `{...}` is left in the upstream URL unless a substituted value brings one in |
| StravaUtility.GlobalTileUrlIgnoresStravaId | index.js:45-47 | a global tile is fetched from the same URL whatever athlete id the session carries |
| StravaUtility.CacheSeconds | index.js:118 | the fallback to 0 of the configured cache time: 0 for NaN, otherwise the configured value |
| StravaUtility.CacheControl | index.js:118 | the `Cache-Control` value `max-age=<seconds>` (its meaning is stated by CacheControlReadsBack and CacheControlDefault) |
| StravaUtility.CacheControlReadsBack | index.js:118 | the `Cache-Control` value is `max-age=` followed by digits that read back as the cache seconds |
| StravaUtility.CacheControlDefault | index.js:118 | an unset (NaN) cache time gives `max-age=0` |
| StravaUtility.TileResponse | index.js:108-123 | a PNG body exactly when upstream answered 2xx, then status 200, the upstream bytes, `image/png` and the cache header; a non-2xx reply mirrors its status with `Error fetching tile: <statusText>`; an exception gives 500 |
| StravaUtility.ServeTile | index.js:79-124 | nothing is fetched exactly when a parameter is missing or empty, and the answer is then 400 `Invalid parameters`; otherwise one upstream request goes to the templated URL with the session cookies, and its reply is shaped by TileResponse |
| StravaUtility.CiEq | index.js:152 | the `i` flag: a text matches a literal when they have the same length and agree after ASCII case folding (MatchContent, MatchName and TagFound use it for `<meta`, `name=`, `csrf-token` and `content=`) |
| StravaUtility.SpaceRun | index.js:152 | the maximal run of `\s` at the start of a text |
| StravaUtility.TokenRun | index.js:152 | the maximal run of `[^"']` at the start of a text |
| StravaUtility.MatchToken | index.js:152 | `([^"']+)["']` at the start: a non-empty quote-free group, then a quote, all a prefix of the input |
| StravaUtility.MatchContent | index.js:152 | `\s+content=["']` and the token at the start: whitespace, `content=` in any case, a quote, the token |
| StravaUtility.MatchName | index.js:152 | `name=["']csrf-token["']` in any case, then the content attribute |
| StravaUtility.MatchHere | index.js:152 | a match found at the start of a text fits the whole pattern, case-insensitively, and is a prefix of the text |
| StravaUtility.TokenFound | index.js:152 | a quote-free token followed by a quote is matched whole |
| StravaUtility.ContentFound | index.js:152 | a content attribute of the pattern's shape is matched piece for piece |
| StravaUtility.NameFound | index.js:152 | a name attribute of the pattern's shape is matched piece for piece |
| StravaUtility.TagFound | index.js:152 | a tag of the pattern's shape, whatever its case, quotes and whitespace, is the match found at its start |
| StravaUtility.FindTag | index.js:152 | `match` without `g` returns the leftmost position where the pattern matches; none matches before it |
| StravaUtility.CsrfTokenOf | index.js:152-157 | `html.match(...)[1]`: the group of the leftmost match (its meaning is stated by CsrfTokenSound, CsrfTokenFirst and CsrfTokenFound) |
| StravaUtility.CsrfTokenSound | index.js:152-157 | a token found is the captured group of a tag of the pattern's shape in the page; it is non-empty and quote-free |
| StravaUtility.CsrfTokenFirst | index.js:152-157 | the first tag in the page supplies the token |
| StravaUtility.CsrfTokenFound | index.js:152-157 | a page holding a tag of the pattern's shape anywhere yields a token |
| StravaUtility.GetCsrfToken | index.js:145-160 | a throwing fetch gives RequestThrew; a page without the tag stops the process (CsrfTagMissing) exactly when the scan finds nothing; a token returned is non-empty and quote-free |
| StravaUtility.KudoUrl | index.js:128 | the kudo endpoint of an activity (KudoUrlDistinct states that it names the activity) |
| StravaUtility.KudoUrlDistinct | index.js:128 | different activity ids have different kudo endpoints |
| StravaUtility.KudoActivity | index.js:127-143 | the call never skips; a POST (answered or thrown) goes to the activity's kudo endpoint with the session cookies and a non-empty token, which is the one passed in if not empty, else the dashboard's; `success` is the reply's; a throwing POST is a failure after the attempt; a missing token fails before any POST |
| StravaUtility.KudoNeverSkips | index.js:129-133 | the "skip without POST" branch is never taken |
| StravaUtility.KudoWithoutTokenPostsNothing | index.js:129-133 | with no token passed and none on the dashboard, nothing is posted: the process stops, or the call throws when the dashboard fetch threw |
| StravaUtility.KudoWithToken | index.js:129-142 | with a token passed in, the POST uses it, and the call fails only when the POST throws |
| StravaUtility.Eligible | index.js:183-186 | entity `Activity`, not flagged, an athlete other than the session's, and `canKudo` (KudoPlanMembers states that exactly these entries are kudoed) |
| StravaUtility.KudoPlan | index.js:182-190 | the activities kudoed, in feed order, no more than there are entries (its meaning is stated by KudoPlanMembers, KudoPlanAppend and KudoPlanPrefix) |
| StravaUtility.KudoPlanAppend | index.js:182-190 | the activities kudoed for a feed are those of its parts, one after the other |
| StravaUtility.KudoPlanMembers | index.js:182-190 | an activity is kudoed exactly when some feed entry for it is eligible: entity `Activity`, not flagged, another athlete's, can be kudoed |
| StravaUtility.KudoPlanPrefix | index.js:182-190 | visiting an initial part of the feed plans an initial part of the kudos |
| StravaUtility.PostsForFeedPrefix | index.js:182-190 | the POSTs planned for an initial part of the feed are an initial part of those for the whole feed |
| StravaUtility.PostsForAt | index.js:189-190 | the m-th POST of a cycle is the kudo of the m-th planned activity, with the cycle's cookies and token |
| StravaUtility.PostsStep | index.js:183-190 | one more entry adds its kudo POST exactly when it is eligible |
| StravaUtility.Delay | index.js:193 | `floor(r*5000)+5000` lies between 5000 and 9999 ms for r in [0, 1) |
| StravaUtility.DelayCovers | index.js:193 | every pause from 5000 to 9999 ms is reached by some ratio |
| StravaUtility.ReplayedAt | index.js:190-193 | the m-th recorded answer and pause of a cycle are the m-th POST's answer and `Delay` of the m-th ratio |
| StravaUtility.KudoAndPause | index.js:189-193 | one eligible entry: its POST is appended; the call is caught exactly when the POST throws, and then no answer or pause is recorded; otherwise the answer and a `Delay(random(m))` pause are recorded |
| StravaUtility.VisitEntry | index.js:183-194 | one pass of the loop: without a throw, the POSTs become those planned for the entries up to this one, with one pause each; a throwing POST is the last, and every POST stays within the plan for the whole feed |
| StravaUtility.KudoEntries | index.js:182-196 | the POSTs issued are a prefix of the planned kudos in feed order; all of them when no POST throws, with one pause each; otherwise exactly one more POST than pauses, the last having thrown; every recorded answer and pause is the oracle's |
| StravaUtility.FeedUrl | index.js:168 | the feed URL for the session's athlete (`undefined` when there is none) with the time as `cursor` (FeedCycle states that the feed request goes there) |
| StravaUtility.CycleDid | index.js:168-199 | the specification of one cycle: the feed request, the early ends, the POSTs as a prefix of the planned kudos, the recorded answers and pauses (FeedCycle establishes it; CyclePostsOnlyEligible and CyclePausesBounded draw on it) |
| StravaUtility.FeedCycle | index.js:168-199 | the feed is requested once, for the session's athlete, with the cookies; a throwing fetch is caught and a non-2xx reply is logged, both before any kudo; a 2xx reply runs KudoEntries over its entries |
| StravaUtility.RunFeedCycle | index.js:162-203 | a missing tag stops the process before the feed is fetched; a throwing dashboard fetch is caught; otherwise the cycle runs with the token read and the athlete id from the cookies |
| StravaUtility.CyclePostsOnlyEligible | index.js:182-190 | every POST of a cycle is the kudo of an eligible entry of the feed, with the cycle's cookies and token |
| StravaUtility.CyclePausesBounded | index.js:193 | every pause of a cycle lasts 5000 to 9999 ms |
| StravaUtility.ApiKeyGate | index.js:209-214 | a request passes exactly when its `apiKey` is present, non-empty and equal to the configured key; every other request gets 401 |
| StravaUtility.ApiKeyGateOnlyConfigured | index.js:211-214 | only a configured non-empty key opens the gate |
| StravaUtility.Env.constructor | index.js:5-9 | the initial `Env`: no cookies, cache 0, no API key, no `KUDO_SECS` |
| StravaUtility.Env.Initialize | index.js:12-38 | a missing API key stops the process with `Env` unchanged; otherwise the key and both `parseInt` results are stored; missing cookies then stop it; a throwing or non-200 probe stops it; otherwise the composite cookie string is stored and returned |
| JsText.IndexOf | index.js:53 | the first position of a character, None exactly when the character is absent |
| JsText.Split | index.js:61 | `split` on one character gives at least one part, none containing the separator |
| JsText.Join | index.js:75 | `join` with one separator character (its meaning is stated by JoinSplit, SplitJoin and JoinSnoc) |
| JsText.JoinSplit | index.js:61 | joining the parts of a split gives back the text |
| JsText.SplitJoin | index.js:75 | splitting a join of separator-free parts gives back the parts |
| JsText.SplitJoinPrefix | index.js:74-75 | splitting the join of separator-free parts and a tail gives the parts, then the tail's own parts |
| JsText.JoinSnoc | index.js:74-75 | joining a list with one more element appends a separator and that element |
| JsText.Trim | index.js:61 | `trim`: the result neither starts nor ends with whitespace (TrimStart and TrimEnd state that exactly the leading and trailing whitespace is removed) |
| JsText.TrimStart | index.js:61 | removes exactly the leading whitespace |
| JsText.TrimEnd | index.js:61 | removes exactly the trailing whitespace |
| JsText.NatToDecimal | index.js:118 | decimal digits without a leading zero, except for 0 itself |
| JsText.IntToDecimal | index.js:118 | the text of an integer: its decimal digits, after a `-` when it is negative (CacheControlReadsBack reads a non-negative one back) |
| JsText.DecimalRoundTrip | index.js:118 | the decimal rendering of a number reads back as that number |

## Left out

- The network (`fetch`, `response.json()`, `text()`, `arrayBuffer()`) and `Buffer`: replies are inputs, and the tile body is a byte sequence passed through.
- Express routing, `app.listen` and `PORT`: the two tile routes are the `retina` flag of `ServeTile`, and a route that does not match never reaches the handler.
- The request-logging part of the API-key middleware (`res.on('finish')`, `process.hrtime`), and all `console` output: they have no effect on behaviour.
- The error-handling and 404 middlewares (index.js:239-247): fixed Express plumbing with constant replies.
- `startServer` and `setInterval(fetchStravaFeed, KUDO_SECS * 1000)`: timers, and possibly overlapping cycles, are concurrency. One cycle is modelled, and `KUDO_SECS` is only stored.
- dotenv and `parseInt`: the environment variables and their parsed values (None for NaN) are inputs of `Env.Initialize`.
- `Math.random()` and `Date.now()`: parameters (`random`, `now`).
- The global `Env` read inside the handlers: `ServeTile`, `KudoActivity` and the cycle take the cookie string and cache time as parameters, not through the object.
- JavaScript's loose `!=` between `athleteId` and the athlete id: both are modelled as strings. `undefined` for a missing id is None, which differs from every athlete id.
- Truthiness of `canKudo` and the null check of `flagged`: both are booleans in `Activity`.
- The TypeErrors a malformed feed would raise (an entry without `activity`, a reply without `entries`): the feed reply is typed.
- A field name such as `constructor` in a template: both templates use only the seven field names (`PersonalMapTemplateOk`, `GlobalMapTemplateOk`), so `data[key]` never reaches the prototype. `FieldText` answers `undefined` for any other key.
- Delay: computed over exact reals, while `Math.floor(Math.random() * 5000)` multiplies doubles; the rounded product can make some pauses 1 ms longer than the model's. The bound of 5000 to 9999 ms holds either way.
- Number formatting of cache times at or above 1e21, and fractional values: `CacheControl` writes integers in plain decimal.
- The headers Express adds to every response (`Content-Length`, `ETag`, `X-Powered-By`): not set by the program.
- `kudoActivity`'s skip branch: modelled, and proved unreachable (`KudoNeverSkips`).
- KudoEntries: the answers of the kudo POSTs and the pauses are oracles indexed by the kudo's ordinal within the cycle, so the model does not say how long a real pause takes or when it happens.
- FeedCycle: the feed reply and the kudo replies are independent inputs. The model does not relate a kudo reply to the activity it was for, beyond the POST it answers.
- ApiKeyGate: the 401 body is recorded as the JSON text Express would send; its `Content-Type` header is not modelled.
