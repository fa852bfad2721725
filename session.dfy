/** The session store: one bearer token held in memory and mirrored under
    one key of local storage. */
module Session {
  import opened Wrappers
  import opened Browser
  import Api

  /** The token's local-storage key (the same key the API client reads). */
  const STORAGE_KEY := Api.TOKEN_STORAGE_KEY

  function StoredToken(storage: map<string, string>): Option<string> {
    if STORAGE_KEY in storage then Some(storage[STORAGE_KEY]) else None
  }

  class SessionStore {
    var token: Option<string>
    const window: Window

    /** Memory and storage agree on the token. */
    ghost predicate Valid()
      reads this, window
    {
      token == StoredToken(window.localStorage)
    }

    /** The store starts from the token found in storage. */
    constructor (window: Window)
      ensures this.window == window && Valid()
      ensures token == StoredToken(window.localStorage)
    {
      this.window := window;
      token := StoredToken(window.localStorage);
    }

    /** `Boolean(token.value)`: a present, non-empty token. An empty string
        is falsy, so a stored empty token does not sign the user in; while
        memory and storage agree, the answer can be read off storage alone. */
    function IsAuthenticated(): (b: bool)
      reads this, window
      ensures token == Some("") ==> !b
      ensures Valid() ==> (b <==> STORAGE_KEY in window.localStorage && window.localStorage[STORAGE_KEY] != "")
    {
      token.Some? && token.value != ""
    }

    /** Store `value` in memory and under the storage key; other keys are untouched. */
    method SetToken(value: string)
      modifies this, window
      ensures token == Some(value)
      ensures window.localStorage == old(window.localStorage)[STORAGE_KEY := value]
      ensures window.events == old(window.events)
      ensures Valid()
      ensures IsAuthenticated() <==> value != ""
    {
      token := Some(value);
      window.localStorage := window.localStorage[STORAGE_KEY := value];
    }

    /** Forget the token in memory and remove the storage key; other keys are untouched. */
    method Clear()
      modifies this, window
      ensures token == None
      ensures window.localStorage == old(window.localStorage) - {STORAGE_KEY}
      ensures window.events == old(window.events)
      ensures Valid() && !IsAuthenticated()
    {
      token := None;
      window.localStorage := window.localStorage - {STORAGE_KEY};
    }
  }

  /** Clearing twice leaves the same state as clearing once. */
  method ClearTwice(s: SessionStore)
    modifies s, s.window
    ensures s.token == None
    ensures s.window.localStorage == old(s.window.localStorage) - {STORAGE_KEY}
  {
    s.Clear();
    s.Clear();
    assert s.window.localStorage == old(s.window.localStorage) - {STORAGE_KEY} - {STORAGE_KEY};
  }

  /** Any run of `setToken` and `clear` calls keeps memory and storage in
      agreement; `steps[i]` is the argument of step `i`, `None` for `clear`. */
  method Run(s: SessionStore, steps: seq<Option<string>>)
    requires s.Valid()
    modifies s, s.window
    ensures s.Valid()
    ensures steps != [] ==> s.token == steps[|steps| - 1]
  {
    var i := 0;
    while i < |steps|
      invariant 0 <= i <= |steps|
      invariant s.Valid()
      invariant i > 0 ==> s.token == steps[i - 1]
    {
      if steps[i].Some? {
        s.SetToken(steps[i].value);
      } else {
        s.Clear();
      }
      i := i + 1;
    }
  }
}
