/** The bot's state and handlers: the token and settings tables, the result
    cache with its clock, the per-user dialogue state of the `/token`
    onboarding, the direct messages sent, the provider requests made, and the
    last inline answer. `save_token` / `fetch_token` (main.py:73-88),
    `update_settings` (main.py:103-115), `cache_set` (main.py:127-128), the
    settings callbacks (main.py:222-237), `cmd_token` / `receive_token`
    (main.py:244-275) and `inline_google` (main.py:285-366). */
module Gateway {
  import opened Wrappers
  import opened Text
  import opened TokenFormat
  import opened Search
  import opened Preferences
  import opened Callbacks
  import opened ResultCache
  import opened Projection

  /** The aiogram FSM state of one user: no state, or `TokenStates.waiting_key`. */
  datatype Dialog = Idle | WaitingKey

  /** A private message sent with `bot.send_message` after a failed search. */
  datatype DirectMessage = DirectMessage(user: int, error: SearchError)

  /** Which reply `receive_token` gave. */
  datatype KeyOutcome = NotAKey | KeyRejected(error: SearchError) | KeySaved

  /** The branch `inline_google` takes for a query. */
  datatype Route =
    | Blank
    | CacheHit(items: seq<Record>)
    | NoToken
    | CallProvider(request: SearchRequest)

  /** The query of the canary search made with a candidate key. */
  const CANARY_QUERY := "4:20"

  /** `fetch_token`: the user's stored key, if any. */
  function FetchToken(tokens: map<int, string>, user: int): (t: Option<string>)
    ensures t.Some? <==> user in tokens
    ensures t.Some? ==> t.value == tokens[user]
  {
    if user in tokens then Some(tokens[user]) else None
  }

  /** Python truthiness of the fetched token: present and not the empty string. */
  predicate HasToken(token: Option<string>)
  {
    token.Some? && token.value != ""
  }

  /** The user's dialogue state; a cleared state reads as Idle. */
  function DialogOf(dialog: map<int, Dialog>, user: int): Dialog
  {
    if user in dialog then dialog[user] else Idle
  }

  /** The decision tree of `inline_google`: a blank query, then a non-empty
      cached list (cut to the user's limit), then a missing token, then a
      provider call with the user's key, the stripped query and the limit. */
  function RouteQuery(tokens: map<int, string>, settings: map<int, SettingsRow>, cache: map<string, Entry>,
                      now: int, user: int, query: string): Route
  {
    var q := Strip(query);
    if q == [] then Blank
    else
      var st := FetchSettings(settings, user);
      var cached := Lookup(cache, q, now);
      if cached.Some? && cached.value != [] then CacheHit(SliceTo(cached.value, st.limit))
      else
        var token := FetchToken(tokens, user);
        if !HasToken(token) then NoToken
        else CallProvider(SearchRequest(token.value, q, st.limit))
  }

  /** A blank or whitespace-only query, and only such a query, is answered with nothing. */
  lemma RouteBlankIff(tokens: map<int, string>, settings: map<int, SettingsRow>, cache: map<string, Entry>,
                      now: int, user: int, query: string)
    ensures RouteQuery(tokens, settings, cache, now, user, query).Blank? <==>
            forall i | 0 <= i < |query| :: IsSpace(query[i])
  {
    assert RouteQuery(tokens, settings, cache, now, user, query).Blank? <==> Strip(query) == [];
  }

  /** A non-empty cached list answers the query whoever asks: the token table
      is not consulted, so a user without a key still gets results. */
  lemma CacheHitIgnoresToken(tokens1: map<int, string>, tokens2: map<int, string>, settings: map<int, SettingsRow>,
                             cache: map<string, Entry>, now: int, user: int, query: string)
    requires Strip(query) != []
    requires Lookup(cache, Strip(query), now).Some? && Lookup(cache, Strip(query), now).value != []
    ensures RouteQuery(tokens1, settings, cache, now, user, query) ==
            RouteQuery(tokens2, settings, cache, now, user, query) ==
            CacheHit(SliceTo(Lookup(cache, Strip(query), now).value, FetchSettings(settings, user).limit))
  {
  }

  /** An empty cached list is falsy: the query is routed as if nothing were cached. */
  lemma EmptyCachedIsMiss(tokens: map<int, string>, settings: map<int, SettingsRow>, cache: map<string, Entry>,
                          now: int, user: int, query: string)
    requires Lookup(cache, Strip(query), now) == Some([])
    ensures RouteQuery(tokens, settings, cache, now, user, query) ==
            RouteQuery(tokens, settings, cache - {CacheKey(Strip(query))}, now, user, query)
  {
  }

  /** The `need_token` notice is given exactly for a non-blank query that
      misses the cache from a user with no (or an empty) key. */
  lemma NoTokenIff(tokens: map<int, string>, settings: map<int, SettingsRow>, cache: map<string, Entry>,
                   now: int, user: int, query: string)
    ensures RouteQuery(tokens, settings, cache, now, user, query).NoToken? <==>
            && Strip(query) != []
            && (Lookup(cache, Strip(query), now).None? || Lookup(cache, Strip(query), now).value == [])
            && (user !in tokens || tokens[user] == "")
  {
  }

  /** A provider call uses the user's own non-empty key, the stripped query
      with its case kept, and the user's limit as `num`. */
  lemma CallProviderSpec(tokens: map<int, string>, settings: map<int, SettingsRow>, cache: map<string, Entry>,
                         now: int, user: int, query: string)
    requires RouteQuery(tokens, settings, cache, now, user, query).CallProvider?
    ensures var req := RouteQuery(tokens, settings, cache, now, user, query).request;
            && user in tokens && req.apiKey == tokens[user] && req.apiKey != ""
            && req.query == Strip(query) && req.query != []
            && req.num == FetchSettings(settings, user).limit
  {
  }

  /** Once one user's search for `q` has been cached with a non-empty list,
      any user asking a query that strips and lower-cases to the same text
      before the TTL runs out is served from that list, cut to their own
      limit, whether or not they have a key. */
  lemma {:induction false} CachedSearchServesOthers(tokens: map<int, string>, settings: map<int, SettingsRow>,
                                                   cache: map<string, Entry>, q: string, records: seq<Record>,
                                                   now: int, later: int, user: int, query: string)
    requires records != []
    requires later < now + TTL
    requires Strip(query) != []
    requires Lower(Strip(query)) == Lower(q)
    ensures RouteQuery(tokens, settings, Put(cache, q, records, now), later, user, query) ==
            CacheHit(SliceTo(records, FetchSettings(settings, user).limit))
  {
    LookupAfterPut(cache, q, records, now, Strip(query), later);
  }

  /** An entry is not served once its TTL has run out. */
  lemma {:induction false} ExpiredEntryNotServed(tokens: map<int, string>, settings: map<int, SettingsRow>,
                                                cache: map<string, Entry>, q: string, records: seq<Record>,
                                                now: int, later: int, user: int, query: string)
    requires later >= now + TTL
    requires Strip(query) != [] && Lower(Strip(query)) == Lower(q)
    ensures !RouteQuery(tokens, settings, Put(cache, q, records, now), later, user, query).CacheHit?
  {
    LookupAfterPut(cache, q, records, now, Strip(query), later);
  }

  /** When every stored key has the API-key shape, "no token" means "no row". */
  lemma {:induction false} WellFormedTokenIsTruthy(tokens: map<int, string>, user: int)
    requires forall u | u in tokens :: HasKeyShape(tokens[u])
    ensures HasToken(FetchToken(tokens, user)) <==> user in tokens
  {
    if user in tokens {
      KeyShapeNonEmpty(tokens[user]);
    }
  }

  class Bot {
    /** The `tokens` table: user id to API key. */
    var tokens: map<int, string>
    /** The `settings` table. */
    var settings: map<int, SettingsRow>
    /** The Redis keys `google:<q>`. */
    var cache: map<string, Entry>
    /** The abstract clock against which cache entries expire. */
    var clock: int
    /** The FSM state of each user; a missing user is Idle. */
    var dialog: map<int, Dialog>
    /** Every request sent to the search provider, in order. */
    var requests: seq<SearchRequest>
    /** Every private error message sent, in order. */
    var outbox: seq<DirectMessage>
    /** The articles of the last inline answer. */
    var answer: seq<InlineItem>
    /** The next fresh article id. */
    var nextUid: nat

    /** The ids of the last answer's articles are below `nextUid`, so the
        ids handed out next cannot collide with them. */
    ghost predicate Valid()
      reads this
    {
      forall i | 0 <= i < |answer| :: answer[i].ResultArticle? ==> answer[i].uid < nextUid
    }

    /** Every stored key passed the format check. */
    ghost predicate KeysWellFormed()
      reads this
    {
      forall u | u in tokens :: HasKeyShape(tokens[u])
    }

    constructor (now: int)
      ensures Valid() && KeysWellFormed()
      ensures tokens == map[] && settings == map[] && cache == map[] && dialog == map[]
      ensures clock == now && requests == [] && outbox == [] && answer == [] && nextUid == 0
    {
      tokens, settings, cache, dialog := map[], map[], map[], map[];
      clock, requests, outbox, answer, nextUid := now, [], [], [], 0;
    }

    /** The passage of time, which ages cache entries. */
    method Tick(dt: nat)
      modifies this`clock
      ensures clock == old(clock) + dt
    {
      clock := clock + dt;
    }

    /** `save_token`: INSERT OR REPLACE of the user's key. */
    method SaveToken(user: int, key: string)
      modifies this`tokens
      ensures tokens == old(tokens)[user := key]
      ensures FetchToken(tokens, user) == Some(key)
    {
      tokens := tokens[user := key];
    }

    /** `update_settings`: merge the supplied fields over the current (or
        default) settings and write the row back. Binding a limit outside
        the SQLite INTEGER range raises, and then nothing is written. */
    method UpdateSettings(user: int, patch: Patch) returns (ok: bool)
      modifies this`settings
      ensures ok <==> Writable(old(settings), user, patch)
      ensures ok ==> settings == UpdatedRows(old(settings), user, patch)
      ensures !ok ==> settings == old(settings)
      ensures old(RowsFit(settings)) ==> RowsFit(settings)
    {
      var current := FetchSettings(settings, user);
      var showLogo := if patch.showLogo.Some? then patch.showLogo.value else current.showLogo;
      var limit := if patch.limit.Some? then patch.limit.value else current.limit;
      if !(INT64_MIN <= limit <= INT64_MAX) {
        return false;
      }
      if RowsFit(settings) {
        UpdateKeepsRowsFit(settings, user, patch);
      }
      settings := settings[user := SettingsRow(if showLogo then 1 else 0, limit)];
      ok := true;
    }

    /** `cache_set`: overwrite the query's entry with a 24-hour TTL. */
    method CacheSet(q: string, items: seq<Record>)
      modifies this`cache
      ensures cache == Put(old(cache), q, items, clock)
    {
      cache := cache[CacheKey(q) := Entry(items, clock + TTL)];
    }

    /** `cb_set_logo`, reached for data starting with `set_logo`; `ok` is false
        where parsing the data or writing the row raises, and then nothing
        changes. */
    method CbSetLogo(user: int, data: string) returns (ok: bool)
      requires StartsWith(data, LOGO_PREFIX)
      modifies this`settings
      ensures ok <==> LogoValue(data).Some? && Writable(old(settings), user, Patch(LogoValue(data), None))
      ensures ok ==> settings == UpdatedRows(old(settings), user, Patch(LogoValue(data), None))
      ensures !ok ==> settings == old(settings)
      ensures old(RowsFit(settings)) ==> (ok <==> LogoValue(data).Some?)
    {
      var value := LogoValue(data);
      if value.None? {
        return false;
      }
      if RowsFit(settings) {
        LogoPatchWritable(settings, user, value.value);
      }
      ok := UpdateSettings(user, Patch(value, None));
    }

    /** `cb_set_lim`, reached for data starting with `set_lim`; `ok` is false
        where parsing the data raises or the number does not fit an SQLite
        INTEGER, and then nothing changes. */
    method CbSetLim(user: int, data: string) returns (ok: bool)
      requires StartsWith(data, LIMIT_PREFIX)
      modifies this`settings
      ensures ok <==> LimitValue(data).Some? && INT64_MIN <= LimitValue(data).value <= INT64_MAX
      ensures ok ==> settings == UpdatedRows(old(settings), user, Patch(None, LimitValue(data)))
      ensures !ok ==> settings == old(settings)
    {
      var value := LimitValue(data);
      if value.None? {
        return false;
      }
      LimitPatchWritable(settings, user, value.value);
      ok := UpdateSettings(user, Patch(None, value));
    }

    /** `cmd_token`: the next text from this user is read as a key. */
    method CmdToken(user: int)
      modifies this`dialog
      ensures dialog == old(dialog)[user := WaitingKey]
    {
      dialog := dialog[user := WaitingKey];
    }

    /** What `receive_token` leaves behind for a text that passed the format
        check: one canary search with the key, and only when that succeeds
        the key saved and the waiting state cleared. */
    twostate predicate KeyTried(user: int, key: string, provider: SearchRequest -> HttpReply, outcome: KeyOutcome)
      reads this
    {
      var canary := SearchRequest(key, CANARY_QUERY, 1);
      && requests == old(requests) + [canary]
      && match SearchOutcome(provider(canary))
         case Failure(e) =>
           outcome == KeyRejected(e) && tokens == old(tokens) && dialog == old(dialog)
         case Success(_) =>
           && outcome == KeySaved
           && tokens == old(tokens)[user := key]
           && dialog == old(dialog) - {user}
    }

    /** The canary search and commit of `receive_token` for a well-shaped key. */
    method TryKey(user: int, key: string, provider: SearchRequest -> HttpReply) returns (outcome: KeyOutcome)
      requires HasKeyShape(key)
      modifies this`tokens, this`dialog, this`requests
      ensures old(KeysWellFormed()) ==> KeysWellFormed()
      ensures KeyTried(user, key, provider, outcome)
    {
      var canary := SearchRequest(key, CANARY_QUERY, 1);
      requests := requests + [canary];
      var result := GoogleSearch(provider(canary));
      if result.Failure? {
        return KeyRejected(result.error);
      }
      SaveToken(user, key);
      dialog := dialog - {user};
      outcome := KeySaved;
    }

    /** `receive_token`, reached only in the `waiting_key` state: strip the
        text, check its format, make one canary search with it, and only
        when that succeeds save it and clear the state. */
    method ReceiveToken(user: int, text: string, provider: SearchRequest -> HttpReply) returns (outcome: KeyOutcome)
      requires DialogOf(dialog, user) == WaitingKey
      modifies this`tokens, this`dialog, this`requests
      ensures old(KeysWellFormed()) ==> KeysWellFormed()
      ensures !TokenRegexMatches(Strip(text)) ==>
                && outcome == NotAKey
                && tokens == old(tokens) && dialog == old(dialog) && requests == old(requests)
      ensures TokenRegexMatches(Strip(text)) ==> KeyTried(user, Strip(text), provider, outcome)
    {
      var key := Strip(text);
      if !TokenRegexMatches(key) {
        return NotAKey;
      }
      StrippedKeyAccepted(text);
      outcome := TryKey(user, key, provider);
    }

    /** The live-search branch of `inline_google`: one provider request;
        on success the records are cached under the query, on failure the
        user gets a private message and the answer is the `err` notice. */
    method SearchAndCache(user: int, req: SearchRequest, provider: SearchRequest -> HttpReply)
      returns (records: Option<seq<Record>>)
      requires Valid()
      modifies this`cache, this`requests, this`outbox, this`answer
      ensures Valid() && nextUid == old(nextUid)
      ensures requests == old(requests) + [req]
      ensures match SearchOutcome(provider(req))
              case Failure(e) =>
                && records == None
                && answer == [SearchErrorNotice]
                && outbox == old(outbox) + [DirectMessage(user, e)]
                && cache == old(cache)
              case Success(rs) =>
                && records == Some(rs)
                && answer == old(answer)
                && cache == Put(old(cache), req.query, rs, clock)
                && outbox == old(outbox)
    {
      requests := requests + [req];
      var result := GoogleSearch(provider(req));
      if result.Failure? {
        outbox := outbox + [DirectMessage(user, result.error)];
        answer := [SearchErrorNotice];
        return None;
      }
      CacheSet(req.query, result.value);
      records := Some(result.value);
    }

    /** The projection step of `inline_google`: answer with the articles for
        `items[:limit]`, each with a fresh id. */
    method Respond(items: seq<Record>, st: Settings)
      requires Valid()
      modifies this`answer, this`nextUid
      ensures Valid()
      ensures answer == Projected(items, st.limit, st.showLogo, old(nextUid))
      ensures nextUid == old(nextUid) + |answer|
    {
      var results := Project(items, st.limit, st.showLogo, nextUid);
      ProjectedUids(items, st.limit, st.showLogo, nextUid);
      answer := results;
      nextUid := nextUid + |results|;
    }

    /** What `inline_google` leaves behind once its branch is known: nothing
        answered, the `need_token` notice, the articles for a cached list, or
        one provider request followed by the articles for its records (now
        cached) or by the `err` notice and a private message. */
    twostate predicate Served(user: int, route: Route, st: Settings, provider: SearchRequest -> HttpReply)
      reads this
    {
      match route
      case Blank =>
        && answer == []
        && cache == old(cache) && requests == old(requests) && outbox == old(outbox) && nextUid == old(nextUid)
      case NoToken =>
        && answer == [NeedTokenNotice]
        && cache == old(cache) && requests == old(requests) && outbox == old(outbox) && nextUid == old(nextUid)
      case CacheHit(items) =>
        && answer == Projected(items, st.limit, st.showLogo, old(nextUid))
        && nextUid == old(nextUid) + |answer|
        && cache == old(cache) && requests == old(requests) && outbox == old(outbox)
      case CallProvider(req) =>
        && requests == old(requests) + [req]
        && match SearchOutcome(provider(req))
           case Failure(e) =>
             && answer == [SearchErrorNotice]
             && outbox == old(outbox) + [DirectMessage(user, e)]
             && cache == old(cache) && nextUid == old(nextUid)
           case Success(records) =>
             && answer == Projected(records, st.limit, st.showLogo, old(nextUid))
             && nextUid == old(nextUid) + |answer|
             && cache == Put(old(cache), req.query, records, old(clock))
             && outbox == old(outbox)
    }

    /** The effect of `inline_google` once its branch is known: answer
        nothing, or the `need_token` notice, or the articles for a cached
        list, or search with the request and then answer with the articles
        for the records or with the `err` notice. */
    method Serve(user: int, route: Route, st: Settings, provider: SearchRequest -> HttpReply)
      requires Valid()
      modifies this`cache, this`requests, this`outbox, this`answer, this`nextUid
      ensures Valid()
      ensures Served(user, route, st, provider)
    {
      match route
      case Blank =>
        answer := [];
      case NoToken =>
        answer := [NeedTokenNotice];
      case CacheHit(items) =>
        Respond(items, st);
      case CallProvider(req) =>
        var records := SearchAndCache(user, req, provider);
        if records.Some? {
          Respond(records.value, st);
        }
    }

    /** `inline_google`: strip the query; answer nothing for a blank one;
        otherwise serve a non-empty cached list, or give the `need_token`
        notice to a user without a key, or search with the user's key,
        caching the records on success and, on failure, messaging the user
        privately and answering with the `err` notice; finally project the
        records to articles. */
    method InlineGoogle(user: int, query: string, provider: SearchRequest -> HttpReply)
      requires Valid()
      modifies this`cache, this`requests, this`outbox, this`answer, this`nextUid
      ensures Valid()
      ensures Served(user, RouteQuery(old(tokens), old(settings), old(cache), old(clock), user, query),
                     FetchSettings(old(settings), user), provider)
    {
      var route: Route;
      var st := FetchSettings(settings, user);
      var q := Strip(query);
      if q == [] {
        route := Blank;
      } else {
        var cached := Lookup(cache, q, clock);
        if cached.Some? && cached.value != [] {
          route := CacheHit(SliceTo(cached.value, st.limit));
        } else {
          var token := FetchToken(tokens, user);
          if token.None? || token.value == "" {
            route := NoToken;
          } else {
            route := CallProvider(SearchRequest(token.value, q, st.limit));
          }
        }
      }
      Serve(user, route, st, provider);
    }
  }
}
