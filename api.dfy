/** The remote API client and the title normalizer: the configured base
    address, media URL resolution, the flattening of title envelopes into
    view models, URL building and the GET helper with its header and error
    rules. */
module Api {
  import opened Wrappers
  import opened Text
  import opened Records
  import opened Http
  import opened Strapi

  const BASE_URL_MISSING := "VITE_API_URL is not set"

  /** The local-storage key of the session token, shared with the session store. */
  const TOKEN_STORAGE_KEY := "koflix_token"

  // ---------------------------------------------------------------------------
  // Base address

  /** Trim the configured address and make it end with one `/`; an address
      that is empty after trimming is a configuration error. */
  function NormalizeBaseUrl(value: string): (r: Result<string>)
    ensures r.Err? <==> AllWhitespace(value)
    ensures r.Err? ==> r.error == Failure(BASE_URL_MISSING)
    ensures r.Ok? ==> EndsWith(r.value, "/") && !IsWhitespace(r.value[0])
    ensures r.Ok? ==> r.value == Trim(value) || r.value == Trim(value) + "/"
    ensures r.Ok? ==> (r.value == Trim(value) <==> EndsWith(Trim(value), "/"))
    ensures r.Ok? && !EndsWith(Trim(value), "/") ==> r.value == Trim(value) + "/"
  {
    var trimmed := Trim(value);
    if trimmed == "" then Err(Failure(BASE_URL_MISSING))
    else if EndsWith(trimmed, "/") then Ok(trimmed)
    else Ok(trimmed + "/")
  }

  /** A normalized address is left as it is. */
  lemma NormalizeBaseUrlIdempotent(value: string)
    requires NormalizeBaseUrl(value).Ok?
    ensures NormalizeBaseUrl(NormalizeBaseUrl(value).value) == NormalizeBaseUrl(value)
  {
    var r := NormalizeBaseUrl(value).value;
    assert r[|r| - 1] == '/';
    TrimFixed(r);
  }

  /** `API_BASE_URL`: empty when the setting is absent or empty, otherwise
      the normalized setting (which fails for a blank setting). */
  function ApiBaseUrl(raw: Option<string>): (r: Result<string>)
    ensures r == Ok("") <==> raw.None? || raw.value == ""
    ensures raw.Some? && raw.value != "" ==> r == NormalizeBaseUrl(raw.value)
  {
    if raw.None? || raw.value == "" then Ok("") else NormalizeBaseUrl(raw.value)
  }

  // ---------------------------------------------------------------------------
  // Media URLs

  /** The attributes of an uploaded file; `url` may be missing. */
  datatype MediaFile = MediaFile(url: Option<string>)

  /** `media?.data?.attributes?.url`. */
  function MediaUrl(media: Option<One<MediaFile>>): Option<string>
  {
    var file := Related(media);
    if file.Some? then file.value.attributes.url else None
  }

  /** `s.replace(/\/$/, '')`: one trailing slash removed. */
  function DropTrailingSlash(s: string): (r: string)
    ensures EndsWith(s, "/") ==> r + "/" == s
    ensures !EndsWith(s, "/") ==> r == s
  {
    if EndsWith(s, "/") then s[..|s| - 1] else s
  }

  /** No URL for a missing or empty media reference; an absolute (`http…`)
      URL as it is; otherwise the base address without its trailing slash,
      followed by the media path. */
  function ResolveMediaUrl(base: string, media: Option<One<MediaFile>>): (r: Option<string>)
    ensures r.None? <==> MediaUrl(media).None? || MediaUrl(media).value == ""
    ensures r.Some? ==> EndsWith(r.value, MediaUrl(media).value)
    ensures r.Some? && StartsWith(MediaUrl(media).value, "http") ==> r == MediaUrl(media)
    ensures r.Some? && !StartsWith(MediaUrl(media).value, "http") ==>
              r.value == DropTrailingSlash(base) + MediaUrl(media).value
  {
    var url := MediaUrl(media);
    if url.None? || url.value == "" then None
    else if StartsWith(url.value, "http") then url
    else
      var r := DropTrailingSlash(base) + url.value;
      assert r[|r| - |url.value|..] == url.value;
      Some(r)
  }

  function MediaAt(url: string): Option<One<MediaFile>> {
    Some(One(Some(Entity(0, MediaFile(Some(url))))))
  }

  /** With a base that is empty or itself absolute, resolving a resolved URL
      again changes nothing. */
  lemma ResolveMediaUrlIdempotent(base: string, media: Option<One<MediaFile>>)
    requires base == "" || StartsWith(base, "http")
    requires ResolveMediaUrl(base, media).Some?
    ensures ResolveMediaUrl(base, MediaAt(ResolveMediaUrl(base, media).value)) == ResolveMediaUrl(base, media)
  {
    var url := MediaUrl(media).value;
    var r := ResolveMediaUrl(base, media).value;
    if !StartsWith(url, "http") {
      var b := DropTrailingSlash(base);
      if base == "" {
        assert r == url;
      } else {
        assert base[..4] == "http";
        assert EndsWith(base, "/") ==> base[3] != '/' && |base| > 4;
        assert b[..4] == base[..4];
        assert StartsWith(b, "http");
        assert r[..4] == b[..4];
      }
    }
  }

  // ---------------------------------------------------------------------------
  // Titles

  datatype Kind = Movie | Series

  /** `{ name }`: the attributes of a genre or a cast member. */
  datatype Named = Named(name: string)

  datatype EpisodeAttributes = EpisodeAttributes(
    name: string, number: int, duration: Option<int>, video: Option<One<MediaFile>>)

  datatype SeasonAttributes = SeasonAttributes(
    name: string, number: int, synopsis: Option<string>, episodes: Option<Many<EpisodeAttributes>>)

  datatype TitleAttributes = TitleAttributes(
    name: string, slug: string, kind: Kind, synopsis: Option<string>, year: Option<int>,
    duration: Option<int>, rating: Option<real>, ageRating: Option<string>, isFeatured: Option<bool>,
    poster: Option<One<MediaFile>>, backdrop: Option<One<MediaFile>>, video: Option<One<MediaFile>>,
    genres: Option<Many<Named>>, cast: Option<Many<Named>>, seasons: Option<Many<SeasonAttributes>>)

  datatype TitleCard = TitleCard(
    id: int, name: string, kind: Kind, year: Option<int>, rating: Option<real>,
    posterUrl: Option<string>, backdropUrl: Option<string>, isFeatured: Option<bool>)

  datatype EpisodeView = EpisodeView(
    id: int, name: string, number: int, duration: Option<int>, videoUrl: Option<string>)

  datatype SeasonView = SeasonView(
    id: int, name: string, number: int, synopsis: Option<string>, episodes: seq<EpisodeView>)

  datatype TitleDetail = TitleDetail(
    id: int, name: string, kind: Kind, year: Option<int>, rating: Option<real>,
    posterUrl: Option<string>, backdropUrl: Option<string>, isFeatured: Option<bool>,
    synopsis: Option<string>, ageRating: Option<string>, videoUrl: Option<string>,
    genres: seq<string>, cast: seq<string>, seasons: seq<SeasonView>)

  /** The card summary of a title: scalar fields copied, poster and backdrop resolved. */
  function MapTitleCard(base: string, entity: Entity<TitleAttributes>): (card: TitleCard)
    ensures card.id == entity.id && card.name == entity.attributes.name
    ensures card.kind == entity.attributes.kind && card.year == entity.attributes.year
    ensures card.rating == entity.attributes.rating && card.isFeatured == entity.attributes.isFeatured
    ensures card.posterUrl.None? <==> MediaUrl(entity.attributes.poster).None? || MediaUrl(entity.attributes.poster).value == ""
    ensures card.backdropUrl.None? <==> MediaUrl(entity.attributes.backdrop).None? || MediaUrl(entity.attributes.backdrop).value == ""
    ensures card.posterUrl == ResolveMediaUrl(base, entity.attributes.poster)
    ensures card.backdropUrl == ResolveMediaUrl(base, entity.attributes.backdrop)
  {
    var a := entity.attributes;
    TitleCard(entity.id, a.name, a.kind, a.year, a.rating,
              ResolveMediaUrl(base, a.poster), ResolveMediaUrl(base, a.backdrop), a.isFeatured)
  }

  /** An episode view: its own fields copied, and a video address only when
      the episode has a video with a non-empty url. */
  function MapEpisode(base: string, episode: Entity<EpisodeAttributes>): (v: EpisodeView)
    ensures v.id == episode.id && v.name == episode.attributes.name
    ensures v.number == episode.attributes.number && v.duration == episode.attributes.duration
    ensures v.videoUrl.None? <==> MediaUrl(episode.attributes.video).None? || MediaUrl(episode.attributes.video).value == ""
    ensures v.videoUrl.Some? ==> EndsWith(v.videoUrl.value, MediaUrl(episode.attributes.video).value)
    ensures v.videoUrl == ResolveMediaUrl(base, episode.attributes.video)
  {
    var a := episode.attributes;
    EpisodeView(episode.id, a.name, a.number, a.duration, ResolveMediaUrl(base, a.video))
  }

  /** A season view; its episodes follow the episode relation one to one. */
  function MapSeason(base: string, season: Entity<SeasonAttributes>): (v: SeasonView)
    ensures v.id == season.id && v.number == season.attributes.number
    ensures v.name == season.attributes.name && v.synopsis == season.attributes.synopsis
    ensures v.episodes == MapMany(season.attributes.episodes, e => MapEpisode(base, e))
  {
    var a := season.attributes;
    SeasonView(season.id, a.name, a.number, a.synopsis,
               MapMany(a.episodes, e => MapEpisode(base, e)))
  }

  function NameOf(item: Entity<Named>): string {
    item.attributes.name
  }

  /** The full view of a title: the card fields, the remaining scalars, and
      the genre, cast and season relations flattened to lists (a missing
      relation gives the empty list). */
  function MapTitleDetail(base: string, entity: Entity<TitleAttributes>): (d: TitleDetail)
    ensures CardOf(d) == MapTitleCard(base, entity)
    ensures d.synopsis == entity.attributes.synopsis && d.ageRating == entity.attributes.ageRating
    ensures d.videoUrl == ResolveMediaUrl(base, entity.attributes.video)
    ensures d.genres == MapMany(entity.attributes.genres, NameOf)
    ensures d.cast == MapMany(entity.attributes.cast, NameOf)
    ensures d.seasons == MapMany(entity.attributes.seasons, s => MapSeason(base, s))
  {
    var c := MapTitleCard(base, entity);
    var a := entity.attributes;
    TitleDetail(c.id, c.name, c.kind, c.year, c.rating, c.posterUrl, c.backdropUrl, c.isFeatured,
                a.synopsis, a.ageRating, ResolveMediaUrl(base, a.video),
                MapMany(a.genres, NameOf), MapMany(a.cast, NameOf),
                MapMany(a.seasons, s => MapSeason(base, s)))
  }

  /** The card part of a detail view. */
  function CardOf(d: TitleDetail): TitleCard {
    TitleCard(d.id, d.name, d.kind, d.year, d.rating, d.posterUrl, d.backdropUrl, d.isFeatured)
  }

  /** The detail view spreads the card view: projecting it back gives the card. */
  lemma DetailExtendsCard(base: string, entity: Entity<TitleAttributes>)
    ensures CardOf(MapTitleDetail(base, entity)) == MapTitleCard(base, entity)
  {
  }

  /** Every list of the detail view keeps the length and order of its
      relation, down to each season's episodes. */
  lemma DetailListsFollowRelations(base: string, entity: Entity<TitleAttributes>, i: nat, j: nat)
    requires entity.attributes.seasons.Some? && entity.attributes.seasons.value.data.Some?
    requires i < |entity.attributes.seasons.value.data.value|
    ensures var season := entity.attributes.seasons.value.data.value[i];
            var view := MapTitleDetail(base, entity).seasons[i];
            && view.id == season.id
            && (season.attributes.episodes.None? || season.attributes.episodes.value.data.None? ==> view.episodes == [])
            && (season.attributes.episodes.Some? && season.attributes.episodes.value.data.Some? ==>
                  |view.episodes| == |season.attributes.episodes.value.data.value| &&
                  (j < |view.episodes| ==> view.episodes[j].id == season.attributes.episodes.value.data.value[j].id))
  {
  }

  // ---------------------------------------------------------------------------
  // Requests

  /** `path.replace(/^\//, '')`: at most one leading slash removed. */
  function StripLeadingSlash(path: string): (r: string)
    ensures StartsWith(path, "/") ==> "/" + r == path
    ensures !StartsWith(path, "/") ==> r == path
  {
    if StartsWith(path, "/") then path[1..] else path
  }

  /** `buildUrl`: fails when no base address is configured; otherwise the
      path relative to the base with every parameter set in turn on the
      query (the last value of a key wins). */
  method BuildUrl(base: string, path: string, params: Record) returns (r: Result<Url>)
    ensures base == "" ==> r == Err(Failure(BASE_URL_MISSING))
    ensures base != "" ==> r == Ok(Url(base, StripLeadingSlash(path), AssignAll([], params)))
    ensures base != "" && DistinctKeys(params) ==> r.value.search == params
  {
    if base == "" {
      return Err(Failure(BASE_URL_MISSING));
    }
    var cleanPath := StripLeadingSlash(path);
    var search: Record := [];
    var i := 0;
    while i < |params|
      invariant 0 <= i <= |params|
      invariant search == AssignAll([], params[..i])
    {
      assert params[..i + 1][..i] == params[..i];
      search := Assign(search, params[i].0, params[i].1);
      i := i + 1;
    }
    assert params[..i] == params;
    if DistinctKeys(params) {
      AssignAllDistinct(params);
    }
    return Ok(Url(base, cleanPath, search));
  }

  /** The `Authorization` header, present exactly when the token is non-empty. */
  function AuthHeaders(token: Option<string>): (h: Record)
    ensures Lookup(h, "Authorization").Some? <==> token.Some? && token.value != ""
    ensures Lookup(h, "Authorization").Some? ==> Lookup(h, "Authorization").value == "Bearer " + token.value
    ensures |h| <= 1
    ensures !(token.Some? && token.value != "") ==> h == []
  {
    if token.Some? && token.value != "" then [("Authorization", "Bearer " + token.value)] else []
  }

  /** `{ 'Content-Type': 'application/json', ...getAuthHeaders() }`, the
      headers of a request with a JSON body. */
  function JsonHeaders(token: Option<string>): (h: Record)
    ensures Lookup(h, "Content-Type") == Some("application/json")
    ensures Lookup(h, "Authorization") == Lookup(AuthHeaders(token), "Authorization")
    ensures |h| == 1 + |AuthHeaders(token)| && h[0] == ("Content-Type", "application/json")
    ensures h[1..] == AuthHeaders(token)
  {
    [("Content-Type", "application/json")] + AuthHeaders(token)
  }

  /** The message of a failed request: the body text, or a status-coded
      message when the body is empty. */
  function FailureText<J>(response: Response<J>): (msg: string)
    ensures msg != ""
    ensures msg == response.text <==> response.text != ""
    ensures response.text == "" ==> msg == "Request failed (" + NatToString(response.status) + ")"
  {
    if response.text != "" then response.text
    else "Request failed (" + NatToString(response.status) + ")"
  }

  /** How a caller reads a response: a non-ok status raises the failure
      text; an ok one yields the parsed body, or rejects if it is not JSON. */
  function ReadJson<J>(response: Response<J>): (r: Result<J>)
    ensures r.Ok? <==> response.ok && response.json.Some?
    ensures r.Ok? ==> r.value == response.json.value
    ensures !response.ok ==> r == Err(Failure(FailureText(response)))
    ensures response.ok && response.json.None? ==> r == Err(MalformedJson)
  {
    if !response.ok then Err(Failure(FailureText(response)))
    else if response.json.None? then Err(MalformedJson)
    else Ok(response.json.value)
  }

  /** `fetchJson` (and `apiFetchJson`): a GET carrying the bearer token when
      one is stored. No request is made without a base address. */
  method FetchJson<J>(base: string, storedToken: Option<string>, path: string, params: Record,
                      response: Response<J>)
    returns (req: Option<Request<()>>, r: Result<J>)
    ensures base == "" <==> req.None?
    ensures base == "" ==> r == Err(Failure(BASE_URL_MISSING))
    ensures req.Some? ==> req.value == Request(GET, Url(base, StripLeadingSlash(path), AssignAll([], params)),
                                                AuthHeaders(storedToken), None)
    ensures req.Some? ==> r == ReadJson(response)
  {
    var url := BuildUrl(base, path, params);
    if url.Err? {
      return None, Err(url.error);
    }
    req := Some(Request(GET, url.value, AuthHeaders(storedToken), None));
    r := ReadJson(response);
  }

  const FEATURED_FILTER := "filters[isFeatured][$eq]"

  /** The title list query without the featured filter: poster, backdrop and
      genres populated, newest first. */
  const TITLE_LIST_QUERY: Record := [("populate[poster]", "*"), ("populate[backdrop]", "*"),
                                     ("populate[genres]", "*"), ("sort", "updatedAt:desc")]

  /** The query of the title list: the media, genre and sort settings, and
      the featured filter exactly when featured titles are asked for. */
  method TitleListParams(featured: bool) returns (params: Record)
    ensures DistinctKeys(params)
    ensures Lookup(params, FEATURED_FILTER) == (if featured then Some("true") else None)
    ensures Lookup(params, "sort") == Some("updatedAt:desc")
    ensures Lookup(params, "populate[poster]") == Some("*")
    ensures Lookup(params, "populate[backdrop]") == Some("*")
    ensures Lookup(params, "populate[genres]") == Some("*")
    ensures |params| == if featured then 5 else 4
    ensures params == TITLE_LIST_QUERY + if featured then [(FEATURED_FILTER, "true")] else []
  {
    var plain := TITLE_LIST_QUERY;
    LookupAt(plain, 0);
    LookupAt(plain, 1);
    LookupAt(plain, 2);
    LookupAt(plain, 3);
    LookupNone(plain, FEATURED_FILTER);
    params := plain;
    if featured {
      AssignKeepsDistinct(plain, FEATURED_FILTER, "true");
      params := Assign(plain, FEATURED_FILTER, "true");
    }
  }

  /** `fetchTitles`: one card per entity of the response, in order. */
  method FetchTitles(base: string, storedToken: Option<string>, featured: bool,
                     response: Response<seq<Entity<TitleAttributes>>>)
    returns (req: Option<Request<()>>, r: Result<seq<TitleCard>>)
    ensures base == "" <==> req.None?
    ensures req.Some? ==> req.value.verb == GET && req.value.url.path == "api/titles"
    ensures req.Some? ==> (Lookup(req.value.url.search, FEATURED_FILTER).Some? <==> featured)
    ensures req.Some? ==> req.value == Request(GET, Url(base, "api/titles",
                                                        TITLE_LIST_QUERY + if featured then [(FEATURED_FILTER, "true")] else []),
                                                AuthHeaders(storedToken), None)
    ensures r.Ok? <==> base != "" && response.ok && response.json.Some?
    ensures r.Ok? ==> r.value == MapSeq(response.json.value, e => MapTitleCard(base, e))
    ensures r.Err? ==> r.error == if base == "" then Failure(BASE_URL_MISSING) else ReadJson(response).error
  {
    var params := TitleListParams(featured);
    assert "api/titles"[..1] == "a";
    var data;
    req, data := FetchJson(base, storedToken, "api/titles", params, response);
    if req.Some? {
      AssignAllDistinct(params);
    }
    if data.Err? {
      return req, Err(data.error);
    }
    r := Ok(MapSeq(data.value, e => MapTitleCard(base, e)));
  }

  /** The query of a single title: every relation of the detail view populated. */
  function TitleDetailParams(): (params: Record)
    ensures DistinctKeys(params) && |params| == 6
    ensures forall i :: 0 <= i < |params| ==> params[i].1 == "*"
    ensures Lookup(params, "populate[poster]") == Some("*")
    ensures Lookup(params, "populate[backdrop]") == Some("*")
    ensures Lookup(params, "populate[video]") == Some("*")
    ensures Lookup(params, "populate[genres]") == Some("*")
    ensures Lookup(params, "populate[cast]") == Some("*")
    ensures Lookup(params, "populate[seasons][populate][episodes][populate]") == Some("*")
  {
    var params := [("populate[poster]", "*"), ("populate[backdrop]", "*"), ("populate[video]", "*"),
                   ("populate[genres]", "*"), ("populate[cast]", "*"),
                   ("populate[seasons][populate][episodes][populate]", "*")];
    LookupAt(params, 0); LookupAt(params, 1); LookupAt(params, 2);
    LookupAt(params, 3); LookupAt(params, 4); LookupAt(params, 5);
    params
  }

  /** `fetchTitleById`: the detail view of the one title of the response. */
  method FetchTitleById(base: string, storedToken: Option<string>, id: string,
                        response: Response<Entity<TitleAttributes>>)
    returns (req: Option<Request<()>>, r: Result<TitleDetail>)
    ensures base == "" <==> req.None?
    ensures req.Some? ==> req.value == Request(GET, Url(base, "api/titles/" + id, TitleDetailParams()),
                                               AuthHeaders(storedToken), None)
    ensures r.Ok? <==> base != "" && response.ok && response.json.Some?
    ensures r.Ok? ==> r.value == MapTitleDetail(base, response.json.value)
    ensures r.Err? ==> r.error == if base == "" then Failure(BASE_URL_MISSING) else ReadJson(response).error
  {
    var params := TitleDetailParams();
    var path := "api/titles/" + id;
    assert path[..1] == "a";
    var data;
    req, data := FetchJson(base, storedToken, path, params, response);
    if req.Some? {
      AssignAllDistinct(params);
    }
    if data.Err? {
      return req, Err(data.error);
    }
    r := Ok(MapTitleDetail(base, data.value));
  }
}
