# Inline Google search bot: a Dafny model of its core

`main.py` is a Telegram bot that answers inline queries with Google Custom
Search results. Each user registers their own Google API key through a
`/token` dialogue. Per-user preferences (thumbnails on or off, result limit)
are changed with a settings keyboard. Results are cached in Redis for 24 hours
under the lower-cased query, and any user asking the same text reuses them.

This project models that core in Dafny:

- `wrappers.dfy`: `Option` and `Result`.
- `text.dfy`: the Python string and list operations the code relies on.
  - `str.strip` over the full `str.isspace` set.
  - `str.lower` for the ASCII, Latin-1 and Cyrillic capitals.
  - `s[:n]`, including a negative `n`.
  - `split(":")[1]`.
  - `int()` on a signed decimal.
- `token_format.dfy`: `TOKEN_REGEX` with `re.match` semantics. `$` also
  matches before a final newline.
- `search.dfy`: `google_search`.
  - The HTTP exchange is an oracle reply.
  - The status check, the `items` loop and the thumbnail choice are modelled,
    as are the `KeyError` raised by an item without `title` or `link`.
- `preferences.dfy`: the `settings` table read by `fetch_settings` and merged
  by `update_settings`.
- `callbacks.dfy`: the settings keyboard's callback data and its parsing in
  `cb_set_logo` / `cb_set_lim`.
- `result_cache.dfy`: the Redis cache as a map from key to an entry with an
  expiry instant, read against an abstract clock.
- `projection.dfy`: the loop that turns records into inline articles.
- `gateway.dfy`: the resolver and the bot's state.
  - `RouteQuery` is the decision tree of `inline_google`, with the lemmas
    about it.
  - `class Bot` holds the token table, the settings table, the cache and
    clock, the FSM state of each user, and three logs: the provider requests
    made, the private error messages sent, and the last inline answer.
  - Its methods are the handlers and store writes.

The provider is a function parameter `provider: SearchRequest -> HttpReply`.
Every call is appended to `Bot.requests`, so "no provider call" means
`requests` is unchanged.

Where the code differs from its own comments and messages, the model
follows the code:

- The comment at main.py:327 says the full result set is cached. The code
  caches the list fetched with `num` set to the first requester's limit.
  Later users get that list cut to their own limit (`CachedSearchServesOthers`).
- The reply to a malformed key (main.py:262) offers `/cancel`, but no
  handler for it exists. In the waiting-key state the text is read as a
  key attempt.
- The keyboard offers only the limits 3, 5 and 10 (main.py:205-207).
  `cb_set_lim` still stores any integer it parses from the callback data
  that fits an SQLite INTEGER, including zero and negative limits.

Python truthiness decides two edge cases:

- A stored empty token counts as "no token".
- A cached empty list counts as a miss.

## Model

| member | source | states |
|---|---|---|
| Text.IsSpace | main.py:260 | the characters `str.isspace()` accepts, which `strip()` removes; `StripIgnoresPadding` and `Strip` state their use |
| Text.TrimLeft | main.py:287 | the result is a suffix of the input, every dropped character is whitespace, and the result does not start with whitespace |
| Text.TrimRight | main.py:287 | the result is a prefix of the input, every dropped character is whitespace, and the result does not end with whitespace |
| Text.Strip | main.py:287 | `strip()` returns the slice of the text left after dropping its leading and trailing whitespace; that slice has no whitespace at either end and is empty exactly when the text is all whitespace |
| Text.StripIdempotent | main.py:287 | stripping twice is stripping once |
| Text.StripNoTrailingNewline | main.py:260 | a stripped text never ends with a newline |
| Text.StripIgnoresPadding | main.py:287 | whitespace added before and after a text does not change what it strips to |
| Text.LowerChar | main.py:123 | lower-cases `A`-`Z`, the Latin-1 capitals U+00C0-U+00DE other than U+00D7, and the Cyrillic capitals U+0400-U+042F, one letter for one letter, as `str.lower` does; `LowerCharOfCapital` states it |
| Text.LowerCharOfCapital | main.py:123 | a capital lowers to a different letter that is no capital, and lowering that letter again keeps it |
| Text.Lower | main.py:123 | `lower()` keeps the length of the text |
| Text.LowerIdempotent | main.py:123 | lower-casing twice is lower-casing once |
| Text.LowerStripCommute | main.py:123 | lower-casing and stripping commute, so the cache key of a stripped query does not depend on the order |
| Text.StartsWith | main.py:222-231 | the `F.data.startswith` filters; `DecodeEncode` shows each button's data passing its own filter |
| Text.SliceTo | main.py:301 | `s[:n]` is a prefix of `s` whose length is `min(n, len(s))` for `n >= 0`, and `max(len(s) + n, 0)` for `n < 0` |
| Text.SliceToIdempotent | main.py:353 | for a non-negative limit, cutting a list twice is cutting it once |
| Text.SliceToTwiceNegative | main.py:353 | for a negative limit, cutting twice drops twice as many trailing records |
| Text.BeforeColon | main.py:224 | the first field of `split(":")` is the longest colon-free prefix |
| Text.AfterColon | main.py:224 | there is a remainder exactly when the text has a colon, and the text is the first field, a colon, then the remainder |
| Text.SecondField | main.py:224 | `split(":")[1]` exists exactly when the text has a colon; it is the text after the first colon, up to the next colon or the end |
| Text.ParseInt | main.py:224-233 | `int()` on a signed decimal; it fails on the empty string; `ParseIntRoundTrip` is its partner |
| Text.IntToDecimal | main.py:201 | `str(n)`: a minus sign for a negative number, then the decimal digits; `ParseIntRoundTrip` is its partner |
| Text.SecondFieldOf | main.py:224 | the second field of `head:tail` is `tail` when neither part holds a colon |
| Text.DecimalRoundTrip | main.py:233 | the digits of a natural number read back as that number |
| Text.ParseIntRoundTrip | main.py:233 | `int(str(n)) == n` for every integer |
| TokenFormat.TokenRegexMatches | main.py:241-261 | `TOKEN_REGEX.match`: `AIza`, then 35 key characters, then the `$` anchor; `TokenRegexMatchesSpec` states it |
| TokenFormat.ClassRunThenEndSpec | main.py:241 | `[0-9A-Za-z_\-]{k}$` from a position means `k` key characters there, then the end or a final newline |
| TokenFormat.TokenRegexMatchesSpec | main.py:241 | the regex accepts exactly a 39-character key starting with `AIza`, optionally followed by one final newline |
| TokenFormat.StrippedKeyAccepted | main.py:260-261 | on stripped text the regex accepts exactly the well-shaped 39-character keys |
| TokenFormat.KeyShapeNonEmpty | main.py:303 | a well-shaped key is non-empty, so it is truthy |
| Search.MissingKeyOf | main.py:154-155 | the KeyError an incomplete item raises names `title` when that is missing, else `link`; `NormalisedFailsAt` states its use |
| Search.ThumbnailOf | main.py:144-150 | the thumbnail choice of one item; `ThumbnailIgnoresMetatags` and `ThumbnailFallback` state it |
| Search.RecordOf | main.py:152-159 | the record of a complete item: its title and link, its snippet or "", and the chosen thumbnail |
| Search.Normalised | main.py:142-160 | the loop over `items` as a recursive function; `NormalisedSpec` and `NormalisedFailsAt` state it |
| Search.SearchOutcome | main.py:137-160 | a transport failure, an HTTP error for a non-200 status, or the normalised items, none when the body has no `items`; `SearchSuccessSpec` and `MissingKeyFails` state it |
| Search.ThumbnailIgnoresMetatags | main.py:147-148 | a non-empty `cse_thumbnail` list decides the thumbnail, whatever the metatags hold |
| Search.ThumbnailFallback | main.py:147-150 | without a `cse_thumbnail` entry, the thumbnail is the first metatags' `og:image`, else none |
| Search.NormalisedSpec | main.py:142-160 | the loop succeeds exactly when every item has a title and a link, and then yields one record per item, in order, with the item's fields; every failure is a missing-key error |
| Search.NormalisedFailsAt | main.py:152-158 | the first item without a title or link decides the error |
| Search.SearchSuccessSpec | main.py:135-160 | a successful search had status 200, and yields one record per returned item |
| Search.MissingKeyFails | main.py:154-155 | a 200 reply with an incomplete item still fails, with a missing-key error |
| Search.GoogleSearch | main.py:135-160 | the method's result is the reply's outcome: a transport failure, an HTTP error for a non-200 status, or the normalised items (no `items` key means no records) |
| Preferences.FetchSettings | main.py:91-100 | a user without a row reads `show_logo=True, limit=5`; otherwise the stored limit, and `show_logo` is the stored integer's truthiness |
| Preferences.Merge | main.py:105-107 | each supplied field wins and each omitted one keeps its current value; `FetchAfterUpdate` states it |
| Preferences.UpdatedRows | main.py:105-113 | the table with the user's row replaced by the merged settings, `show_logo` written as 0 or 1; `FetchAfterUpdate` states it |
| Preferences.RowOf | main.py:106-113 | the INSERT values: `int(show_logo)` as 0 or 1, and the limit; `FetchAfterUpdate` shows they read back |
| Preferences.Writable | main.py:108-113 | the row is written only when the merged limit fits an SQLite INTEGER (signed 64-bit) |
| Preferences.LimitPatchWritable | main.py:107-113 | a limit update is written exactly when the new limit lies in the signed 64-bit range |
| Preferences.LogoPatchWritable | main.py:106-113 | a logo update keeps a stored limit, so on a table of storable rows it is always written |
| Preferences.UpdateKeepsRowsFit | main.py:108-113 | a written update leaves every row storable |
| Preferences.FetchAfterUpdate | main.py:103-115 | after `update_settings`, a supplied field reads back as supplied and an omitted field keeps its previous (stored or default) value; other users are untouched |
| Preferences.EmptyPatchKeepsSettings | main.py:103-107 | an update supplying no field leaves the user's settings as they read |
| Preferences.UpdateIdempotent | main.py:103-115 | applying the same update twice reads the same as applying it once |
| Callbacks.Encode | main.py:201-207 | the button data `set_logo:<0 or 1>` and `set_lim:<n>`; `DecodeEncode` is its inverse |
| Callbacks.KeyboardData | main.py:196-209 | the keyboard's data: the logo toggle with the opposite of the current setting, then 3, 5 and 10 |
| Callbacks.LogoValue | main.py:224 | `bool(int(data.split(":")[1]))`, failing where Python raises |
| Callbacks.LimitValue | main.py:233 | `int(data.split(":")[1])`, failing where Python raises |
| Callbacks.Decode | main.py:222-233 | dispatch on `set_logo` first, then `set_lim`, then the handler's parse; `DecodeEncode` states it on every button |
| Callbacks.PatchOf | main.py:225-234 | the `update_settings` keyword call of each handler: `show_logo=` for the logo button, `limit=` for a limit button; `LogoButtonToggles` and `LimitButtonsSetLimit` state its effect |
| Callbacks.NoColonInDecimal | main.py:201-207 | the number in a button's data holds no colon, so `split(":")[1]` is the whole number |
| Callbacks.DecodeEncode | main.py:196-237 | every button's data is dispatched to its own handler and parses back to its own value |
| Callbacks.LogoButtonToggles | main.py:196-228 | pressing the logo button flips `show_logo` and keeps the limit |
| Callbacks.LimitButtonsSetLimit | main.py:204-236 | each of the three limit buttons sets the limit to 3, 5 or 10 and keeps `show_logo` |
| Callbacks.LimitButtonSets | main.py:231-236 | the `set_lim:<n>` data of a limit button decodes back to that limit, and its handler sets the limit to `n` while keeping `show_logo` |
| ResultCache.CacheKey | main.py:123-128 | the Redis key `google:` plus the lower-cased query; `SameKeyIffSameLower` states it |
| ResultCache.Lookup | main.py:122-124 | the list stored under `google:` plus the lower-cased query while its TTL has not run out; `LookupAfterPut` states it |
| ResultCache.Put | main.py:127-128 | the cache with the query's key overwritten and an expiry 24 hours on; `PutTouchesOneKey` and `LookupAfterPut` state it |
| ResultCache.SameKeyIffSameLower | main.py:123-128 | two queries share a Redis key exactly when they lower-case alike |
| ResultCache.CaseVariantsShareKey | main.py:123-128 | writing some capitals of a query as their small letters ("Пицца" as "пицца") keeps its Redis key |
| ResultCache.StrippedQueriesShareEntry | main.py:287-299 | queries differing only in surrounding whitespace and in the case of ASCII, Latin-1 or Cyrillic letters address the same entry |
| ResultCache.LookupAfterPut | main.py:122-128 | a write is read back by any query that lower-cases alike until 24 hours pass, and then reads as absent; other queries read what they read before |
| ResultCache.PutTouchesOneKey | main.py:127-128 | a write adds or overwrites exactly its own key, with a TTL of 86400 seconds |
| Projection.ShownThumb | main.py:354 | the record's thumbnail when `show_logo` is on and the thumbnail is non-empty, else none |
| Projection.ArticleOf | main.py:355-364 | one article: the id, title, snippet, link, shown thumbnail and link as message text |
| Projection.Projected | main.py:352-364 | the articles for `items[:limit]` with consecutive ids; `ProjectedSpec` states it |
| Projection.ProjectedSpec | main.py:351-366 | the answer has `min(limit, len)` articles for a non-negative limit, in order; each copies the record's title, snippet and link; the thumbnail is shown exactly when `show_logo` is on and the record's thumbnail is non-empty; ids are consecutive |
| Projection.ProjectedUidsDistinct | main.py:357 | no two articles of one answer share an id |
| Projection.ProjectedUids | main.py:357 | every article's id is at or above the first fresh id and below the next one |
| Projection.NoThumbsWhenLogosOff | main.py:354 | with `show_logo` off, no article carries a thumbnail |
| Projection.ProjectionIdempotent | main.py:301-353 | for a non-negative limit, the double cut of the cache branch gives the same answer as one cut |
| Projection.Project | main.py:351-364 | the loop builds exactly the projected articles |
| Gateway.FetchToken | main.py:82-88 | the stored key is returned exactly when the user has a row |
| Gateway.HasToken | main.py:303 | `not token` negated: a key is present and non-empty; `NoTokenIff` and `WellFormedTokenIsTruthy` state it |
| Gateway.RouteQuery | main.py:287-326 | the branch `inline_google` takes: blank, a non-empty cached list cut to the limit, no token, or a provider call; the `Gateway` lemmas below state it |
| Gateway.RouteBlankIff | main.py:287-290 | the empty answer is given for a whitespace-only query and for no other query |
| Gateway.CacheHitIgnoresToken | main.py:299-301 | a non-empty cached list is served cut to the user's limit, whatever the token table holds |
| Gateway.EmptyCachedIsMiss | main.py:299-303 | a cached empty list routes exactly as if nothing were cached |
| Gateway.NoTokenIff | main.py:299-321 | the `need_token` notice is given exactly for a non-blank query that misses the cache from a user with no key or an empty key |
| Gateway.CallProviderSpec | main.py:323-326 | a provider call carries the user's own non-empty key, the stripped query (case kept), and the user's limit as `num` |
| Gateway.CachedSearchServesOthers | main.py:299-328 | after a successful search is cached, any user with a query that strips and lower-cases alike is served, before the TTL ends, the cached list cut to their own limit, key or no key |
| Gateway.ExpiredEntryNotServed | main.py:122-128 | once the TTL has run out, the entry is not served |
| Gateway.WellFormedTokenIsTruthy | main.py:303 | when every stored key passed the format check, "no token" means "no row" |
| Gateway.Bot.constructor | main.py:56-68 | on a first start: empty tables, an empty cache, no dialogue and empty logs; a restart keeps the tables, and every other method accepts any state |
| Gateway.Bot.Tick | main.py:128 | time advances by the given amount, ageing cache entries |
| Gateway.Bot.SaveToken | main.py:73-79 | the user's key is inserted or replaced, and reads back |
| Gateway.Bot.UpdateSettings | main.py:103-115 | when the merged limit fits an SQLite INTEGER, the settings table becomes the merged update of the old one; otherwise the write raises and nothing changes; storable rows stay storable |
| Gateway.Bot.CacheSet | main.py:127-128 | the cache becomes the old cache with the query's entry overwritten and a 24-hour TTL |
| Gateway.Bot.CbSetLogo | main.py:222-228 | the logo setting is updated exactly when the data parses as an integer after the colon and the row can be written (always, for a table of storable rows); otherwise the handler raises and nothing changes |
| Gateway.Bot.CbSetLim | main.py:231-237 | the limit is updated exactly when the data parses as an integer after the colon and that integer fits an SQLite INTEGER; otherwise the handler raises and nothing changes |
| Gateway.Bot.CmdToken | main.py:244-255 | the user enters the waiting-key state |
| Gateway.Bot.ReceiveToken | main.py:258-275 | a text that fails the format check changes nothing; otherwise exactly one canary request ("4:20", num 1) is made with the key; the key is saved and the state cleared only when it succeeds; every stored key keeps the key shape; the canary and commit are `TryKey`'s |
| Gateway.Bot.KeyTried | main.py:265-276 | the effect of the canary step: one request ("4:20", num 1) with the key; on failure the `KeyRejected` error and no key or state change; on success the key stored for the user and the waiting state cleared |
| Gateway.Bot.TryKey | main.py:265-276 | for a well-shaped key it has exactly the `KeyTried` effect and keeps every stored key well-shaped |
| Gateway.Bot.SearchAndCache | main.py:323-349 | one request is made; on success the records are cached under the query; on failure the user gets a private message and the answer is the `err` notice |
| Gateway.Bot.Respond | main.py:351-366 | the answer is the projection of the records with fresh ids, and the id counter moves past them |
| Gateway.Bot.Served | main.py:288-366 | each branch's full effect: nothing answered, the `need_token` notice, the cached list projected, or one request followed by the projected records (then cached) or by the `err` notice and a private message; `Serve` and `InlineGoogle` ensure it |
| Gateway.Bot.Serve | main.py:288-366 | each branch has its full effect, and no provider request is made outside the live-search branch |
| Gateway.Bot.InlineGoogle | main.py:285-366 | the handler takes the branch `RouteQuery` picks from the state at the start and has that branch's full effect on the answer, cache, requests, messages and ids; article ids stay fresh |

## Left out

- Text.Lower: only the ASCII, Latin-1 (U+00C0-U+00DE) and Cyrillic (U+0400-U+042F) capitals are lower-cased. Other scripts (Greek, Armenian, Latin Extended and the rest) and the mappings that change length (such as U+0130) are not modelled. Queries in those scripts that differ only in case share one Redis entry in the program but not in the model.
- Text.ParseInt: accepts an optional sign followed by ASCII digits. `int()` also allows surrounding whitespace, underscores between digits and non-ASCII digits, and these are not modelled. Nor is Python's limit of 4300 digits on `int()`; Telegram's callback data is at most 64 bytes.
- Text.SliceToTwiceNegative: a negative limit, which `cb_set_lim` accepts, makes the double cut of the cache branch drop more records. This is proved, not corrected.
- Search.GoogleSearch: JSON is modelled by optional fields. Whether the JSON is `null` or the key is absent, and values of unexpected types (such as `items` not being a list), are not distinguished. The `cx` constant, the URL and the 10-second timeout are not modelled; a timeout is one more `ConnectionError`.
- Gateway.Bot.SearchAndCache: a Redis failure inside `cache_set` would also take the error branch. The cache write is modelled as always succeeding.
- Gateway.Bot.InlineGoogle: the random `uuid4` ids are modelled as a counter. Distinct, fresh ids are what the code relies on.
- Message texts, Markdown, `cache_time`, the `need_token` notice's bot username and the keyboard's button labels are not modelled. The notices are the constants `NeedTokenNotice` and `SearchErrorNotice`.
- `cmd_settings` re-renders the keyboard and `cmd_start` / `cmd_help` send fixed texts. `KeyboardData` models only the keyboard's data.
- aiogram routing is not modelled: handler order, commands typed while waiting for a key, and `unknown_command`. `ReceiveToken` requires the waiting-key state instead. A non-text message (`msg.text` is None) is not modelled.
- SQLite, Redis and aiohttp mechanics, connection setup, `main()`, logging and concurrency between handlers are not modelled. Each handler runs atomically against the state.
