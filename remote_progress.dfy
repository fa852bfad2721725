/** The remote watch-progress service: the current-user cache, the
    "continue watching" normalizer, the progress lookup and the save that
    creates or updates a progress record. */
module RemoteProgress {
  import opened Wrappers
  import opened Text
  import opened Records
  import opened Http
  import opened Strapi
  import opened Api
  import opened Auth

  const NOT_AUTHENTICATED := "Utilisateur non authentifié"
  const PROFILE_UNAVAILABLE := "Impossible de récupérer le profil"
  const ME_PATH := "api/users/me"
  const PROGRESS_PATH := "api/progresses"
  const USER_FILTER := "filters[user][id][$eq]"
  const TITLE_FILTER := "filters[title][id][$eq]"
  const EPISODE_FILTER := "filters[episode][id][$eq]"

  /** A stored token used as a condition: present and non-empty. */
  predicate TokenPresent(token: Option<string>) {
    token.Some? && token.value != ""
  }

  /** A numeric id used as a condition: present and non-zero. */
  predicate IdPresent(id: Option<int>) {
    id.Some? && id.value != 0
  }

  /** The query entry that restricts a collection to one user's records. */
  function UserFilter(user: AuthUser): (string, string) {
    (USER_FILTER, IntToString(user.id))
  }

  // ---------------------------------------------------------------------------
  // Current-user cache

  /** The two module-level variables `cachedUser` and `cachedToken`. */
  datatype CacheState = CacheState(user: Option<AuthUser>, token: Option<string>)

  /** A cached user always belongs to a stored (non-empty) token. */
  predicate CacheValid(s: CacheState) {
    s.user.Some? ==> TokenPresent(s.token)
  }

  /** The outcome of one `getCurrentUser` call: the new cache, whether the
      profile was requested, and the value or error of the call. */
  datatype UserLookup = UserLookup(state: CacheState, fetched: bool, result: Result<AuthUser>)

  /** `getCurrentUser`. Without a stored token the cache is reset and the
      call fails. Otherwise a cached token different from the stored one
      evicts the cached user, the stored token is remembered, and the cached
      user is returned if one is left; if not, the profile is fetched and
      cached when the request succeeds. The method
      `UserCache.GetCurrentUser` is proved against this function. */
  function CurrentUser(s: CacheState, base: string, storedToken: Option<string>, me: Response<AuthUser>)
    : (o: UserLookup)
    ensures CacheValid(o.state)
    ensures !TokenPresent(storedToken) ==>
              o == UserLookup(CacheState(None, None), false, Err(Failure(NOT_AUTHENTICATED)))
    ensures TokenPresent(storedToken) ==> o.state.token == storedToken
    ensures CacheValid(s) ==>
              (!o.fetched && o.result.Ok? <==> TokenPresent(storedToken) && s.token == storedToken && s.user.Some?)
    ensures !o.fetched && o.result.Ok? ==> o.result == Ok(s.user.value)
    ensures o.result.Ok? ==> o.state.user == Some(o.result.value)
    ensures o.result.Err? ==> o.state.user.None?
    ensures o.fetched ==> TokenPresent(storedToken) && base != ""
    ensures TokenPresent(storedToken) && !o.fetched && o.result.Err? ==>
              base == "" && o.result == Err(Failure(BASE_URL_MISSING))
    ensures TokenPresent(storedToken) && base == "" ==>
              !o.fetched && (o.result.Err? ==> o.result == Err(Failure(BASE_URL_MISSING)))
    ensures o.fetched ==> o.result == if !me.ok then Err(Failure(PROFILE_UNAVAILABLE))
                                      else if me.json.None? then Err(MalformedJson)
                                      else Ok(me.json.value)
  {
    if !TokenPresent(storedToken) then UserLookup(CacheState(None, None), false, Err(Failure(NOT_AUTHENTICATED)))
    else
      var kept := if TokenPresent(s.token) && s.token != storedToken then None else s.user;
      if kept.Some? then UserLookup(CacheState(kept, storedToken), false, Ok(kept.value))
      else if base == "" then UserLookup(CacheState(None, storedToken), false, Err(Failure(BASE_URL_MISSING)))
      else if !me.ok then UserLookup(CacheState(None, storedToken), true, Err(Failure(PROFILE_UNAVAILABLE)))
      else if me.json.None? then UserLookup(CacheState(None, storedToken), true, Err(MalformedJson))
      else UserLookup(CacheState(me.json, storedToken), true, Ok(me.json.value))
  }

  /** Once a call has produced a user, the next call with the same token
      returns that user from the cache, without a request and whatever the
      server would answer. */
  lemma CachedUserReused(s: CacheState, base: string, base': string, token: Option<string>,
                         me: Response<AuthUser>, me': Response<AuthUser>)
    requires CurrentUser(s, base, token, me).result.Ok?
    ensures var first := CurrentUser(s, base, token, me);
            CurrentUser(first.state, base', token, me') == UserLookup(first.state, false, first.result)
  {
  }

  /** A token different from the cached one always leads to a profile
      request (given a base address), never to the old user. */
  lemma TokenChangeRefetches(s: CacheState, base: string, token: Option<string>, me: Response<AuthUser>)
    requires CacheValid(s) && TokenPresent(token) && s.token != token && base != ""
    ensures CurrentUser(s, base, token, me).fetched
  {
  }

  class UserCache {
    var cachedUser: Option<AuthUser>
    var cachedToken: Option<string>

    function State(): CacheState
      reads this
    {
      CacheState(cachedUser, cachedToken)
    }

    ghost predicate Valid()
      reads this
    {
      CacheValid(State())
    }

    /** Both variables start out null. */
    constructor ()
      ensures State() == CacheState(None, None) && Valid()
    {
      cachedUser := None;
      cachedToken := None;
    }

    /** `getCurrentUser`, updating the cache in place as specified by `CurrentUser`;
        the profile request carries the bearer token. */
    method GetCurrentUser(base: string, storedToken: Option<string>, me: Response<AuthUser>)
      returns (req: Option<Request<()>>, r: Result<AuthUser>)
      modifies this
      ensures State() == CurrentUser(old(State()), base, storedToken, me).state
      ensures r == CurrentUser(old(State()), base, storedToken, me).result
      ensures req.Some? <==> CurrentUser(old(State()), base, storedToken, me).fetched
      ensures req.Some? ==> req.value == Request(GET, Url(base, ME_PATH, []), AuthHeaders(storedToken), None)
      ensures Valid()
    {
      if !TokenPresent(storedToken) {
        cachedUser := None;
        cachedToken := None;
        return None, Err(Failure(NOT_AUTHENTICATED));
      }
      if TokenPresent(cachedToken) && cachedToken != storedToken {
        cachedUser := None;
      }
      cachedToken := storedToken;
      if cachedUser.Some? {
        return None, Ok(cachedUser.value);
      }
      var url := BuildUrl(base, ME_PATH, []);
      if url.Err? {
        return None, Err(url.error);
      }
      assert ME_PATH[..1] == "a";
      req := Some(Request(GET, url.value, AuthHeaders(storedToken), None));
      if !me.ok {
        return req, Err(Failure(PROFILE_UNAVAILABLE));
      }
      if me.json.None? {
        return req, Err(MalformedJson);
      }
      cachedUser := me.json;
      r := Ok(me.json.value);
    }
  }

  // ---------------------------------------------------------------------------
  // Progress records

  datatype TitleRef = TitleRef(name: string, kind: Kind)

  datatype SeasonRef = SeasonRef(number: int, title: Option<One<Named>>)

  datatype EpisodeRef = EpisodeRef(name: string, number: int, season: Option<One<SeasonRef>>)

  /** A progress record as the service returns it, with its populated relations. */
  datatype ProgressAttributes = ProgressAttributes(
    progressSeconds: Option<nat>, durationSeconds: Option<nat>, completed: Option<bool>,
    lastWatchedAt: Option<string>, title: Option<One<TitleRef>>, episode: Option<One<EpisodeRef>>)

  /** One tile of the "continue watching" row. */
  datatype ContinueEntry = ContinueEntry(
    id: int, watchId: int, titleName: string, subtitle: string, progressPercent: nat, remaining: Option<string>)

  /** `Math.round(num / den)` on non-negative integers: the nearest integer,
      halves rounded up. */
  function Round(num: nat, den: nat): (q: nat)
    requires den > 0
    ensures 2 * q * den <= 2 * num + den < 2 * (q + 1) * den
  {
    (2 * num + den) / (2 * den)
  }

  /** A ratio of at least `k` rounds to at least `k`. */
  lemma RoundAtLeast(num: nat, den: nat, k: nat)
    requires den > 0 && num >= k * den
    ensures Round(num, den) >= k
  {
    var q := Round(num, den);
    if q < k {
      MulLe(q + 1, k, den);
    }
  }

  /** A ratio of at most `k` rounds to at most `k`. */
  lemma RoundAtMost(num: nat, den: nat, k: nat)
    requires den > 0 && num <= k * den
    ensures Round(num, den) <= k
  {
    var q := Round(num, den);
    if q > k {
      MulLe(k + 1, q, den);
    }
  }

  lemma MulLe(a: nat, b: nat, c: nat)
    requires a <= b
    ensures a * c <= b * c
  {
  }

  /** The minute count of `formatMinutes`: the rounded number of minutes, at least one. */
  function RemainingMinutes(seconds: nat): (m: nat)
    ensures m >= 1
    ensures seconds >= 30 ==> 120 * m <= 2 * seconds + 60 < 120 * (m + 1)
    ensures seconds < 30 ==> m == 1
  {
    var m := Round(seconds, 60);
    if m < 1 then 1 else m
  }

  /** `formatMinutes`: for instance `"3 min restantes"`. */
  function FormatMinutes(seconds: nat): (text: string)
    ensures EndsWith(text, " min restantes") && |text| > |" min restantes"|
    ensures forall k :: 0 <= k < |text| - |" min restantes"| ==> IsDigit(text[k])
    ensures |text| == |NatToString(RemainingMinutes(seconds))| + |" min restantes"|
    ensures ParseDigits(text[..|text| - |" min restantes"|]) == RemainingMinutes(seconds)
  {
    var digits := NatToString(RemainingMinutes(seconds));
    var text := digits + " min restantes";
    NatToStringRoundTrip(RemainingMinutes(seconds));
    assert text[..|text| - |" min restantes"|] == digits;
    text
  }

  /** The text of `formatMinutes` is a decimal number of at least one minute
      followed by the fixed suffix, and reading the number back gives the
      minute count. */
  lemma FormatMinutesReadsBack(seconds: nat)
    ensures var text := FormatMinutes(seconds);
            var digits := NatToString(RemainingMinutes(seconds));
            && EndsWith(text, " min restantes")
            && text == digits + " min restantes"
            && text[..|digits|] == digits
            && ParseDigits(digits) == RemainingMinutes(seconds) >= 1
  {
    var text := FormatMinutes(seconds);
    var digits := NatToString(RemainingMinutes(seconds));
    assert text[|text| - |" min restantes"|..] == " min restantes";
    NatToStringRoundTrip(RemainingMinutes(seconds));
  }

  /** The watched percentage: 0 without a duration, else the rounded ratio capped at 100. */
  function ProgressPercent(progress: nat, duration: nat): (pct: nat)
    ensures pct <= 100
    ensures duration == 0 ==> pct == 0
    ensures duration > 0 && Round(100 * progress, duration) <= 100 ==> pct == Round(100 * progress, duration)
    ensures duration > 0 && progress >= duration ==> pct == 100
  {
    if duration > 0 then
      var q := Round(100 * progress, duration);
      if progress >= duration then
        RoundAtLeast(100 * progress, duration, 100);
        100
      else if q < 100 then q else 100
    else 0
  }

  /** Within the duration the percentage is not capped: it is the nearest
      integer to `100 * progress / duration`. */
  lemma ProgressPercentNearest(progress: nat, duration: nat)
    requires 0 < duration && progress <= duration
    ensures var pct := ProgressPercent(progress, duration);
            2 * pct * duration <= 200 * progress + duration < 2 * (pct + 1) * duration
  {
    RoundAtMost(100 * progress, duration, 100);
  }

  lemma ProgressPercentExamples()
    ensures ProgressPercent(150, 200) == 75
    ensures ProgressPercent(10, 0) == 0
    ensures ProgressPercent(300, 200) == 100
  {
  }

  /** `remaining`: present exactly when some duration is left. */
  function Remaining(progress: nat, duration: nat): (r: Option<string>)
    ensures r.Some? <==> duration > progress
    ensures r.Some? ==> r.value == FormatMinutes(duration - progress)
  {
    if duration > progress then Some(FormatMinutes(duration - progress)) else None
  }

  function OrZero(n: Option<nat>): nat {
    if n.Some? then n.value else 0
  }

  function EpisodeOf(a: ProgressAttributes): Option<Entity<EpisodeRef>> {
    Related(a.episode)
  }

  function TitleOf(a: ProgressAttributes): Option<Entity<TitleRef>> {
    Related(a.title)
  }

  function SeasonOf(a: ProgressAttributes): Option<Entity<SeasonRef>> {
    var episode := EpisodeOf(a);
    if episode.Some? then Related(episode.value.attributes.season) else None
  }

  /** `season?.attributes.title?.data?.attributes.name`, with a missing name read as `""`. */
  function SeasonTitleName(a: ProgressAttributes): string {
    var season := SeasonOf(a);
    if season.Some? && Related(season.value.attributes.title).Some?
    then Related(season.value.attributes.title).value.attributes.name
    else ""
  }

  function TitleName(a: ProgressAttributes): string {
    if TitleOf(a).Some? then TitleOf(a).value.attributes.name else ""
  }

  function EpisodeName(a: ProgressAttributes): string {
    if EpisodeOf(a).Some? then EpisodeOf(a).value.attributes.name else ""
  }

  /** The displayed name: the first non-empty of the season's title name,
      the title name and the episode name, else `Lecture`. */
  function DisplayName(a: ProgressAttributes): (name: string)
    ensures name != ""
    ensures name == if SeasonTitleName(a) != "" then SeasonTitleName(a)
                    else if TitleName(a) != "" then TitleName(a)
                    else if EpisodeName(a) != "" then EpisodeName(a)
                    else "Lecture"
  {
    FirstNonEmptyCons(SeasonTitleName(a), [TitleName(a), EpisodeName(a)], "Lecture");
    FirstNonEmptyCons(TitleName(a), [EpisodeName(a)], "Lecture");
    FirstNonEmptyCons(EpisodeName(a), [], "Lecture");
    FirstNonEmpty([SeasonTitleName(a), TitleName(a), EpisodeName(a)], "Lecture")
  }

  /** The season part of an episode subtitle: its number, or `?` without a season. */
  function SeasonLabel(a: ProgressAttributes): string {
    if SeasonOf(a).Some? then IntToString(SeasonOf(a).value.attributes.number) else "?"
  }

  /** `S<season> · Épisode <n>` for an episode, else `Film` for a movie and `Série` otherwise. */
  function Subtitle(a: ProgressAttributes): string {
    var episode := EpisodeOf(a);
    if episode.Some? then "S" + SeasonLabel(a) + " · Épisode " + IntToString(episode.value.attributes.number)
    else if TitleOf(a).Some? && TitleOf(a).value.attributes.kind == Movie then "Film"
    else "Série"
  }

  /** `episode?.id ?? title?.id`. */
  function WatchId(a: ProgressAttributes): Option<int> {
    if EpisodeOf(a).Some? then Some(EpisodeOf(a).value.id)
    else if TitleOf(a).Some? then Some(TitleOf(a).value.id)
    else None
  }

  /** The tile of one progress record; records with nothing to watch
      (no watch id, or id 0) give none. */
  function ContinueEntryOf(entry: Entity<ProgressAttributes>): (r: Option<ContinueEntry>)
    ensures var a := entry.attributes;
            r.None? <==> if EpisodeOf(a).Some? then EpisodeOf(a).value.id == 0
                         else TitleOf(a).None? || TitleOf(a).value.id == 0
    ensures r.Some? ==> r.value.id == entry.id && r.value.watchId != 0
    ensures var a := entry.attributes;
            r.Some? && EpisodeOf(a).Some? ==>
              && r.value.watchId == EpisodeOf(a).value.id
              && r.value.subtitle == "S" + SeasonLabel(a) + " · Épisode " + IntToString(EpisodeOf(a).value.attributes.number)
    ensures var a := entry.attributes;
            r.Some? && EpisodeOf(a).None? ==>
              && r.value.watchId == TitleOf(a).value.id
              && r.value.subtitle == if TitleOf(a).value.attributes.kind == Movie then "Film" else "Série"
    ensures r.Some? ==>
              var a := entry.attributes;
              var p, d := OrZero(a.progressSeconds), OrZero(a.durationSeconds);
              && r.value.titleName == DisplayName(a)
              && r.value.progressPercent == ProgressPercent(p, d) && r.value.remaining == Remaining(p, d)
  {
    var a := entry.attributes;
    var watchId := WatchId(a);
    if !IdPresent(watchId) then None
    else
      var p, d := OrZero(a.progressSeconds), OrZero(a.durationSeconds);
      Some(ContinueEntry(entry.id, watchId.value, DisplayName(a), Subtitle(a), ProgressPercent(p, d), Remaining(p, d)))
  }

  /** The "continue watching" row of a response: no more tiles than records,
      each one the tile of some record of the response. */
  function ContinueEntries(data: seq<Entity<ProgressAttributes>>): (r: seq<ContinueEntry>)
    ensures |r| <= |data|
    ensures forall e :: e in r ==> exists i :: 0 <= i < |data| && ContinueEntryOf(data[i]) == Some(e)
  {
    CompactOnlyPresent(MapSeq(data, ContinueEntryOf));
    Compact(MapSeq(data, ContinueEntryOf))
  }

  /** The row distributes over concatenation: tiles keep response order. */
  lemma ContinueEntriesAppend(data: seq<Entity<ProgressAttributes>>, more: seq<Entity<ProgressAttributes>>)
    ensures ContinueEntries(data + more) == ContinueEntries(data) + ContinueEntries(more)
  {
    MapSeqAppend(data, more, ContinueEntryOf);
    CompactAppend(MapSeq(data, ContinueEntryOf), MapSeq(more, ContinueEntryOf));
  }

  /** Every record with something to watch gets its tile. */
  lemma ContinueEntriesKeeps(data: seq<Entity<ProgressAttributes>>, i: nat)
    requires i < |data| && IdPresent(WatchId(data[i].attributes))
    ensures ContinueEntryOf(data[i]).value in ContinueEntries(data)
  {
    CompactKeeps(MapSeq(data, ContinueEntryOf), i);
  }

  /** Every tile comes from one record of the response and has a non-zero
      watch id, a non-empty name and a percentage of at most 100. */
  lemma ContinueEntriesSound(data: seq<Entity<ProgressAttributes>>, e: ContinueEntry)
    requires e in ContinueEntries(data)
    ensures exists i :: 0 <= i < |data| && ContinueEntryOf(data[i]) == Some(e)
    ensures e.watchId != 0 && e.titleName != "" && e.progressPercent <= 100
  {
    var xs := MapSeq(data, ContinueEntryOf);
    CompactOnlyPresent(xs);
    var i :| 0 <= i < |xs| && xs[i] == Some(e);
    assert ContinueEntryOf(data[i]) == Some(e);
  }

  const CONTINUE_LIMIT := 12

  /** The query of the "continue watching" row: the user's unfinished
      records, most recently watched first, relations populated, `limit` of them. */
  function ContinueParams(user: AuthUser, limit: int): (params: Record)
    ensures DistinctKeys(params)
    ensures Lookup(params, USER_FILTER) == Some(IntToString(user.id))
    ensures Lookup(params, "filters[completed][$eq]") == Some("false")
    ensures Lookup(params, "sort") == Some("lastWatchedAt:desc")
    ensures Lookup(params, "populate[title]") == Some("*")
    ensures Lookup(params, "populate[episode][populate][season][populate][title]") == Some("*")
    ensures Lookup(params, "pagination[pageSize]") == Some(IntToString(limit))
    ensures |params| == 6
  {
    var params := [UserFilter(user), ("filters[completed][$eq]", "false"), ("sort", "lastWatchedAt:desc"),
     ("populate[title]", "*"), ("populate[episode][populate][season][populate][title]", "*"),
     ("pagination[pageSize]", IntToString(limit))];
    LookupAt(params, 0);
    LookupAt(params, 1);
    LookupAt(params, 2);
    LookupAt(params, 3);
    LookupAt(params, 4);
    LookupAt(params, 5);
    params
  }

  /** `fetchContinueProgress` (the source's default `limit` is `CONTINUE_LIMIT`). */
  method FetchContinueProgress(user: Result<AuthUser>, base: string, storedToken: Option<string>, limit: int,
                               response: Response<seq<Entity<ProgressAttributes>>>)
    returns (req: Option<Request<()>>, r: Result<seq<ContinueEntry>>)
    ensures user.Err? ==> req.None? && r == Err(user.error)
    ensures user.Ok? ==> (req.None? <==> base == "")
    ensures req.None? && user.Ok? ==> r == Err(Failure(BASE_URL_MISSING))
    ensures req.Some? ==> req.value == Request(GET, Url(base, PROGRESS_PATH, ContinueParams(user.value, limit)),
                                               AuthHeaders(storedToken), None)
    ensures req.Some? ==> r == if ReadJson(response).Err? then Err(ReadJson(response).error)
                               else Ok(ContinueEntries(response.json.value))
  {
    if user.Err? {
      return None, Err(user.error);
    }
    var params := ContinueParams(user.value, limit);
    var data;
    assert PROGRESS_PATH[..1] == "a";
    req, data := FetchJson(base, storedToken, PROGRESS_PATH, params, response);
    if req.Some? {
      AssignAllDistinct(params);
    }
    if data.Err? {
      return req, Err(data.error);
    }
    r := Ok(ContinueEntries(data.value));
  }

  /** The query of `fetchProgressEntry`: the user's records, newest first,
      with a title filter and an episode filter added only for ids that are
      given and non-zero. */
  method ProgressQuery(user: AuthUser, titleId: Option<int>, episodeId: Option<int>) returns (query: Record)
    ensures query == ProgressQueryOf(user, titleId, episodeId)
    ensures DistinctKeys(query)
    ensures Lookup(query, USER_FILTER) == Some(IntToString(user.id))
    ensures Lookup(query, "sort") == Some("updatedAt:desc")
    ensures Lookup(query, TITLE_FILTER) == if IdPresent(titleId) then Some(IntToString(titleId.value)) else None
    ensures Lookup(query, EPISODE_FILTER) == if IdPresent(episodeId) then Some(IntToString(episodeId.value)) else None
  {
    query := [UserFilter(user), ("sort", "updatedAt:desc")];
    LookupNone(query, TITLE_FILTER);
    LookupNone(query, EPISODE_FILTER);
    LookupAt(query, 0);
    LookupAt(query, 1);
    if IdPresent(titleId) {
      AssignKeepsDistinct(query, TITLE_FILTER, IntToString(titleId.value));
      query := Assign(query, TITLE_FILTER, IntToString(titleId.value));
    }
    if IdPresent(episodeId) {
      AssignKeepsDistinct(query, EPISODE_FILTER, IntToString(episodeId.value));
      query := Assign(query, EPISODE_FILTER, IntToString(episodeId.value));
    }
  }

  /** The query `ProgressQuery` builds, entry by entry: the user filter, the
      sort, then the title and episode filters when their ids are given. */
  function ProgressQueryOf(user: AuthUser, titleId: Option<int>, episodeId: Option<int>): (query: Record)
    ensures |query| == 2 + (if IdPresent(titleId) then 1 else 0) + (if IdPresent(episodeId) then 1 else 0)
  {
    [UserFilter(user), ("sort", "updatedAt:desc")]
      + (if IdPresent(titleId) then [(TITLE_FILTER, IntToString(titleId.value))] else [])
      + (if IdPresent(episodeId) then [(EPISODE_FILTER, IntToString(episodeId.value))] else [])
  }

  /** `fetchProgressEntry`: the user's latest progress record matching the query above. */
  method FetchProgressEntry(user: Result<AuthUser>, base: string, storedToken: Option<string>,
                            titleId: Option<int>, episodeId: Option<int>,
                            response: Response<seq<Entity<ProgressAttributes>>>)
    returns (req: Option<Request<()>>, r: Result<Option<Entity<ProgressAttributes>>>)
    ensures user.Err? ==> req.None? && r == Err(user.error)
    ensures user.Ok? ==> (req.None? <==> base == "")
    ensures req.None? && user.Ok? ==> r == Err(Failure(BASE_URL_MISSING))
    ensures req.Some? ==> req.value.verb == GET && req.value.url.path == PROGRESS_PATH
    ensures req.Some? ==> req.value.url.base == base && req.value.headers == AuthHeaders(storedToken)
    ensures req.Some? ==> req.value.body.None?
    ensures req.Some? && user.Ok? ==> req.value.url.search == ProgressQueryOf(user.value, titleId, episodeId)
    ensures req.Some? ==>
              var search := req.value.url.search;
              && DistinctKeys(search)
              && Lookup(search, USER_FILTER) == Some(IntToString(user.value.id))
              && Lookup(search, "sort") == Some("updatedAt:desc")
              && Lookup(search, TITLE_FILTER) == (if IdPresent(titleId) then Some(IntToString(titleId.value)) else None)
              && Lookup(search, EPISODE_FILTER) == (if IdPresent(episodeId) then Some(IntToString(episodeId.value)) else None)
    ensures req.Some? ==> r == if ReadJson(response).Err? then Err(ReadJson(response).error)
                               else if response.json.value == [] then Ok(None)
                               else Ok(Some(response.json.value[0]))
  {
    if user.Err? {
      return None, Err(user.error);
    }
    var query := ProgressQuery(user.value, titleId, episodeId);
    var data;
    assert PROGRESS_PATH[..1] == "a";
    req, data := FetchJson(base, storedToken, PROGRESS_PATH, query, response);
    if req.Some? {
      AssignAllDistinct(query);
    }
    if data.Err? {
      return req, Err(data.error);
    }
    r := Ok(if data.value == [] then None else Some(data.value[0]));
  }

  /** The arguments of `saveProgressEntry`. */
  datatype ProgressWrite = ProgressWrite(
    progressId: Option<int>, titleId: Option<int>, episodeId: Option<int>,
    progressSeconds: nat, durationSeconds: nat, completed: bool)

  /** `{ data: payload }`, the body of a progress save. */
  datatype ProgressPayload = ProgressPayload(
    progressSeconds: nat, durationSeconds: nat, completed: bool, lastWatchedAt: string,
    user: int, title: Option<int>, episode: Option<int>)

  /** The record a save addresses: the existing one when its id is given, else the collection. */
  function ProgressPath(progressId: Option<int>): (path: string)
    ensures StartsWith(path, PROGRESS_PATH)
    ensures path == PROGRESS_PATH <==> !IdPresent(progressId)
    ensures IdPresent(progressId) ==> path == PROGRESS_PATH + "/" + IntToString(progressId.value)
  {
    if IdPresent(progressId) then PROGRESS_PATH + "/" + IntToString(progressId.value) else PROGRESS_PATH
  }

  /** `saveProgressEntry`: PUT to the existing record exactly when a
      (non-zero) progress id is given, POST to the collection otherwise;
      either way a JSON body stamped with the time `now`, and the response
      read as by the GET helper. */
  method SaveProgressEntry(user: Result<AuthUser>, base: string, storedToken: Option<string>,
                           params: ProgressWrite, now: string, response: Response<Entity<ProgressAttributes>>)
    returns (req: Option<Request<ProgressPayload>>, r: Result<Entity<ProgressAttributes>>)
    ensures user.Err? ==> req.None? && r == Err(user.error)
    ensures user.Ok? ==> (req.None? <==> base == "")
    ensures req.None? && user.Ok? ==> r == Err(Failure(BASE_URL_MISSING))
    ensures req.Some? ==> (req.value.verb == PUT <==> IdPresent(params.progressId))
    ensures req.Some? ==> req.value.verb in {PUT, POST}
    ensures req.Some? ==> req.value.url == Url(base, ProgressPath(params.progressId), [])
    ensures req.Some? ==> req.value.headers == JsonHeaders(storedToken)
    ensures req.Some? ==> req.value.body == Some(ProgressPayload(
              params.progressSeconds, params.durationSeconds, params.completed, now,
              user.value.id, params.titleId, params.episodeId))
    ensures req.Some? ==> r == ReadJson(response)
  {
    if user.Err? {
      return None, Err(user.error);
    }
    var payload := ProgressPayload(params.progressSeconds, params.durationSeconds, params.completed, now,
                                   user.value.id, params.titleId, params.episodeId);
    var verb := if IdPresent(params.progressId) then PUT else POST;
    var path := ProgressPath(params.progressId);
    var url := BuildUrl(base, path, []);
    if url.Err? {
      return None, Err(url.error);
    }
    assert path[..1] == "a";
    req := Some(Request(verb, url.value, JsonHeaders(storedToken), Some(payload)));
    r := ReadJson(response);
  }
}
