/** The shape of an HTTP exchange as the client sees it. `fetch` itself is
    not modelled: a call is described by the request it would send and the
    response it is given. */
module Http {
  import opened Wrappers
  import opened Records

  datatype Method = GET | POST | PUT | DELETE

  /** `new URL(path, base)` with its query list. How the URL Standard
      resolves `path` against `base` and serialises the result is left
      abstract: the URL keeps both strings. */
  datatype Url = Url(base: string, path: string, search: Record)

  /** A request with headers and an optional JSON body of type `B`. */
  datatype Request<B> = Request(verb: Method, url: Url, headers: Record, body: Option<B>)

  /** A response: `response.ok`, `response.status`, the text of the body,
      and the body parsed as JSON (`None` when `response.json()` would
      reject because the body is not JSON). */
  datatype Response<J> = Response(ok: bool, status: nat, text: string, json: Option<J>)
}
