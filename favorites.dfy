/** The user's favorite titles: the favorite normalizer and the list,
    lookup, add and remove calls built on it. */
module Favorites {
  import opened Wrappers
  import opened Text
  import opened Records
  import opened Http
  import opened Strapi
  import opened Api
  import opened Auth
  import RemoteProgress

  /** The `RÃ©ponse invalide` message of the source: the mis-encoded
      spelling of "Réponse invalide", kept as written. */
  const INVALID_RESPONSE := "RÃ©ponse invalide"

  datatype TitleLite = TitleLite(name: string, kind: Kind, year: Option<int>)

  datatype FavoriteAttributes = FavoriteAttributes(title: Option<One<TitleLite>>)

  datatype FavoriteItem = FavoriteItem(id: int, titleId: int, name: string, kind: Kind, year: Option<int>)

  /** `{ data: { title, user } }`, the body that creates a favorite. */
  datatype FavoritePayload = FavoritePayload(title: int, user: int)

  /** A favorite whose title relation is missing or null is dangling and
      maps to nothing; otherwise it is flattened with its title. */
  function MapFavorite(entity: Entity<FavoriteAttributes>): (r: Option<FavoriteItem>)
    ensures r.None? <==> Related(entity.attributes.title).None?
    ensures r.Some? ==>
              var title := Related(entity.attributes.title).value;
              && r.value.id == entity.id && r.value.titleId == title.id
              && r.value.name == title.attributes.name && r.value.kind == title.attributes.kind
              && r.value.year == title.attributes.year
  {
    var title := Related(entity.attributes.title);
    if title.None? then None
    else Some(FavoriteItem(entity.id, title.value.id, title.value.attributes.name,
                           title.value.attributes.kind, title.value.attributes.year))
  }

  /** `data.map(mapFavorite).filter(Boolean)`: no more favorites than
      records, each one the mapping of some record of the response. */
  function FavoritesOf(data: seq<Entity<FavoriteAttributes>>): (r: seq<FavoriteItem>)
    ensures |r| <= |data|
    ensures forall x :: x in r ==> exists i :: 0 <= i < |data| && MapFavorite(data[i]) == Some(x)
  {
    CompactOnlyPresent(MapSeq(data, MapFavorite));
    Compact(MapSeq(data, MapFavorite))
  }

  /** Listing distributes over concatenation: favorites keep response order. */
  lemma FavoritesOfAppend(data: seq<Entity<FavoriteAttributes>>, more: seq<Entity<FavoriteAttributes>>)
    ensures FavoritesOf(data + more) == FavoritesOf(data) + FavoritesOf(more)
  {
    MapSeqAppend(data, more, MapFavorite);
    CompactAppend(MapSeq(data, MapFavorite), MapSeq(more, MapFavorite));
  }

  /** Every favorite whose title is present is listed. */
  lemma FavoritesOfKeeps(data: seq<Entity<FavoriteAttributes>>, i: nat)
    requires i < |data| && Related(data[i].attributes.title).Some?
    ensures MapFavorite(data[i]).value in FavoritesOf(data)
  {
    CompactKeeps(MapSeq(data, MapFavorite), i);
  }

  /** Only dangling favorites are dropped: with none, the list is one to one. */
  lemma FavoritesOfComplete(data: seq<Entity<FavoriteAttributes>>)
    requires forall j :: 0 <= j < |data| ==> Related(data[j].attributes.title).Some?
    ensures |FavoritesOf(data)| == |data|
    ensures forall j :: 0 <= j < |data| ==> Some(FavoritesOf(data)[j]) == MapFavorite(data[j])
  {
    CompactAllPresent(MapSeq(data, MapFavorite));
  }

  /** `fetchFavoriteForTitle`'s rule: nothing for an empty response, else the first favorite mapped. */
  function FirstFavorite(data: seq<Entity<FavoriteAttributes>>): (r: Option<FavoriteItem>)
    ensures data == [] ==> r.None?
    ensures data != [] ==> r == MapFavorite(data[0])
    ensures r.None? && data != [] ==> Related(data[0].attributes.title).None?
    ensures r.Some? ==> FavoritesOf(data) != [] && r.value == FavoritesOf(data)[0]
  {
    if data == [] then None
    else
      assert data == [data[0]] + data[1..];
      FavoritesOfAppend([data[0]], data[1..]);
      MapFavorite(data[0])
  }

  /** `fetchFavorites`: the signed-in user's favorites, dangling ones left out. */
  method FetchFavorites(user: Result<AuthUser>, base: string, storedToken: Option<string>,
                        response: Response<seq<Entity<FavoriteAttributes>>>)
    returns (req: Option<Request<()>>, r: Result<seq<FavoriteItem>>)
    ensures user.Err? ==> req.None? && r == Err(user.error)
    ensures user.Ok? ==> (req.None? <==> base == "")
    ensures req.Some? ==> req.value.verb == GET && Lookup(req.value.url.search, RemoteProgress.UserFilter(user.value).0) == Some(RemoteProgress.UserFilter(user.value).1)
    ensures req.Some? ==> req.value == Request(GET, Url(base, "api/favorites",
                                                        [RemoteProgress.UserFilter(user.value), ("populate[title]", "*"), ("sort", "updatedAt:desc")]),
                                                AuthHeaders(storedToken), None)
    ensures req.None? && user.Ok? ==> r == Err(Failure(BASE_URL_MISSING))
    ensures req.Some? ==> r == if ReadJson(response).Err? then Err(ReadJson(response).error)
                               else Ok(FavoritesOf(response.json.value))
  {
    if user.Err? {
      return None, Err(user.error);
    }
    var params := [RemoteProgress.UserFilter(user.value), ("populate[title]", "*"), ("sort", "updatedAt:desc")];
    var data;
    req, data := FetchJson(base, storedToken, "api/favorites", params, response);
    if req.Some? {
      AssignAllDistinct(params);
      assert "api/favorites"[0] != "/"[0];
    }
    if data.Err? {
      return req, Err(data.error);
    }
    r := Ok(FavoritesOf(data.value));
  }

  /** `fetchFavoriteForTitle`: the user's favorite for one title, if any. */
  method FetchFavoriteForTitle(user: Result<AuthUser>, base: string, storedToken: Option<string>,
                               titleId: int, response: Response<seq<Entity<FavoriteAttributes>>>)
    returns (req: Option<Request<()>>, r: Result<Option<FavoriteItem>>)
    ensures user.Err? ==> req.None? && r == Err(user.error)
    ensures user.Ok? ==> (req.None? <==> base == "")
    ensures req.Some? ==> Lookup(req.value.url.search, "filters[title][id][$eq]") == Some(IntToString(titleId))
    ensures req.Some? ==> req.value == Request(GET, Url(base, "api/favorites",
                                                        [RemoteProgress.UserFilter(user.value), ("filters[title][id][$eq]", IntToString(titleId)),
                                                         ("populate[title]", "*")]),
                                                AuthHeaders(storedToken), None)
    ensures req.None? && user.Ok? ==> r == Err(Failure(BASE_URL_MISSING))
    ensures req.Some? ==> r == if ReadJson(response).Err? then Err(ReadJson(response).error)
                               else Ok(FirstFavorite(response.json.value))
  {
    if user.Err? {
      return None, Err(user.error);
    }
    var params := [RemoteProgress.UserFilter(user.value), ("filters[title][id][$eq]", IntToString(titleId)),
                   ("populate[title]", "*")];
    var data;
    req, data := FetchJson(base, storedToken, "api/favorites", params, response);
    if req.Some? {
      AssignAllDistinct(params);
      assert "api/favorites"[0] != "/"[0];
    }
    if data.Err? {
      return req, Err(data.error);
    }
    r := Ok(FirstFavorite(data.value));
  }

  /** `addFavorite`: POST the new favorite; a failed request raises its
      failure text, and so does a created favorite that maps to nothing. */
  method AddFavorite(user: Result<AuthUser>, base: string, storedToken: Option<string>,
                     titleId: int, response: Response<Entity<FavoriteAttributes>>)
    returns (req: Option<Request<FavoritePayload>>, r: Result<FavoriteItem>)
    ensures user.Err? ==> req.None? && r == Err(user.error)
    ensures user.Ok? ==> (req.None? <==> base == "")
    ensures req.None? && user.Ok? ==> r == Err(Failure(BASE_URL_MISSING))
    ensures req.Some? ==> req.value == Request(POST, Url(base, "api/favorites", []), JsonHeaders(storedToken),
                                               Some(FavoritePayload(titleId, user.value.id)))
    ensures req.Some? && ReadJson(response).Err? ==> r == Err(ReadJson(response).error)
    ensures req.Some? && ReadJson(response).Ok? ==>
              r == if MapFavorite(response.json.value).None? then Err(Failure(INVALID_RESPONSE))
                   else Ok(MapFavorite(response.json.value).value)
  {
    if user.Err? {
      return None, Err(user.error);
    }
    var url := BuildUrl(base, "api/favorites", []);
    if url.Err? {
      return None, Err(url.error);
    }
    assert "api/favorites"[..1] == "a";
    req := Some(Request(POST, url.value, JsonHeaders(storedToken), Some(FavoritePayload(titleId, user.value.id))));
    var data := ReadJson(response);
    if data.Err? {
      return req, Err(data.error);
    }
    var mapped := MapFavorite(data.value);
    if mapped.None? {
      return req, Err(Failure(INVALID_RESPONSE));
    }
    r := Ok(mapped.value);
  }

  /** `removeFavorite`: DELETE the favorite; only a failed request raises. */
  method RemoveFavorite(base: string, storedToken: Option<string>, favoriteId: int, response: Response<()>)
    returns (req: Option<Request<()>>, r: Result<()>)
    ensures req.None? <==> base == ""
    ensures req.None? ==> r == Err(Failure(BASE_URL_MISSING))
    ensures req.Some? ==> req.value == Request(DELETE, Url(base, "api/favorites/" + IntToString(favoriteId), []),
                                               AuthHeaders(storedToken), None)
    ensures req.Some? ==> (r.Ok? <==> response.ok)
    ensures req.Some? && !response.ok ==> r == Err(Failure(FailureText(response)))
  {
    var path := "api/favorites/" + IntToString(favoriteId);
    var url := BuildUrl(base, path, []);
    if url.Err? {
      return None, Err(url.error);
    }
    assert path[..1] == "a";
    req := Some(Request(DELETE, url.value, AuthHeaders(storedToken), None));
    if !response.ok {
      return req, Err(Failure(FailureText(response)));
    }
    r := Ok(());
  }
}
