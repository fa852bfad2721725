/** Credential login: input validation, the choice of error message for a
    failed login and the check that a successful one carries a token. */
module Auth {
  import opened Wrappers
  import opened Text
  import opened Records
  import opened Http
  import opened Api

  const CREDENTIALS_REQUIRED := "Identifiants requis"
  const INVALID_RESPONSE := "Réponse invalide"

  datatype AuthUser = AuthUser(id: int, username: string, email: string)

  /** The `error` member of a failure body. `message` is what
      `new Error(...)` would be given from `error.message`: `None` when it is
      absent or falsy (null, `""`, `0`, `false`); a truthy value that is not a
      string is held as its string form (`5` as `"5"`). */
  datatype ErrorField = ErrorField(message: Option<string>)

  /** What `response.json()` gives for the login call, as far as the client
      looks at it. `Falsy` is `null`, `false`, `0` or `""`; `Primitive` is
      any other value that is not an object (a non-empty string, a non-zero
      number, `true`); `Object` records the members the client reads. `jwt`
      and `user` are `None` when the key is absent; `error` is `None` when it
      is absent or falsy, and `message` follows the same rule as
      `ErrorField.message`. A `jwt` key whose value is null is outside the
      model. */
  datatype LoginBody =
    | Falsy
    | Primitive
    | Object(jwt: Option<string>, user: Option<AuthUser>, error: Option<ErrorField>, message: Option<string>)

  /** `{ identifier, password }`, the body of the login request. */
  datatype Credentials = Credentials(identifier: string, password: string)

  /** The body as the client holds it: `.catch(() => null)` turns a body
      that is not JSON into `null`. */
  function BodyOf(response: Response<LoginBody>): LoginBody {
    if response.json.None? then Falsy else response.json.value
  }

  function ErrorMessageOf(body: LoginBody): string {
    if body.Object? && body.error.Some? && body.error.value.message.Some? then body.error.value.message.value else ""
  }

  function MessageOf(body: LoginBody): string {
    if body.Object? && body.message.Some? then body.message.value else ""
  }

  /** The message of a failed login: the body's `error.message`, else its
      `message`, else a status-coded message; never empty. */
  function LoginErrorMessage(response: Response<LoginBody>): (msg: string)
    ensures msg != ""
    ensures ErrorMessageOf(BodyOf(response)) != "" ==> msg == ErrorMessageOf(BodyOf(response))
    ensures ErrorMessageOf(BodyOf(response)) == "" && MessageOf(BodyOf(response)) != "" ==>
              msg == MessageOf(BodyOf(response))
    ensures ErrorMessageOf(BodyOf(response)) == "" && MessageOf(BodyOf(response)) == "" ==>
              msg == "Request failed (" + NatToString(response.status) + ")"
  {
    var body := BodyOf(response);
    var fallback := "Request failed (" + NatToString(response.status) + ")";
    FirstNonEmptyCons(ErrorMessageOf(body), [MessageOf(body)], fallback);
    FirstNonEmptyCons(MessageOf(body), [], fallback);
    FirstNonEmpty([ErrorMessageOf(body), MessageOf(body)], fallback)
  }

  predicate HasJwt(body: LoginBody) {
    body.Object? && body.jwt.Some?
  }

  /** How the login response is read, with the checks `'error' in data`,
      `'message' in data` and `'jwt' in data` applied to a non-object only
      where that is meaningful: a failed status raises the chosen message
      (whether or not a token came back); a successful one returns the body
      when it carries `jwt` and raises "Réponse invalide" otherwise. */
  function LoginResponseOutcome(response: Response<LoginBody>): (r: Result<LoginBody>)
    ensures !response.ok ==> r == Err(Failure(LoginErrorMessage(response)))
    ensures response.ok ==> (r.Ok? <==> HasJwt(BodyOf(response)))
    ensures r.Ok? ==> r.value == response.json.value
    ensures response.ok && !HasJwt(BodyOf(response)) ==> r == Err(Failure(INVALID_RESPONSE))
  {
    var body := BodyOf(response);
    if !response.ok then Err(Failure(LoginErrorMessage(response)))
    else if !HasJwt(body) then Err(Failure(INVALID_RESPONSE))
    else Ok(body)
  }

  /** The same reading as the source writes it: `'k' in data` on a truthy
      value that is not an object throws a TypeError. */
  function LoginResponseOutcomeAsWritten(response: Response<LoginBody>): (r: Result<LoginBody>)
    ensures BodyOf(response).Primitive? ==> r == Err(TypeError)
  {
    var body := BodyOf(response);
    if !response.ok then
      if body.Primitive? then Err(TypeError) else Err(Failure(LoginErrorMessage(response)))
    else if body.Falsy? then Err(Failure(INVALID_RESPONSE))
    else if body.Primitive? then Err(TypeError)
    else if body.jwt.None? then Err(Failure(INVALID_RESPONSE))
    else Ok(body)
  }

  /** A JSON string body on a failed login ("Bad Gateway" from a proxy, say)
      makes the source raise a TypeError instead of "Request failed (502)",
      and a JSON number on a successful one a TypeError instead of
      "Réponse invalide". */
  lemma LoginTypeErrorWitness()
    ensures LoginResponseOutcomeAsWritten(Response(false, 502, "\"Bad Gateway\"", Some(Primitive))) == Err(TypeError)
    ensures LoginResponseOutcome(Response(false, 502, "\"Bad Gateway\"", Some(Primitive))) ==
            Err(Failure("Request failed (502)"))
    ensures LoginResponseOutcomeAsWritten(Response(true, 200, "42", Some(Primitive))) == Err(TypeError)
    ensures LoginResponseOutcome(Response(true, 200, "42", Some(Primitive))) == Err(Failure(INVALID_RESPONSE))
  {
    NatToString502();
    var failed := Response(false, 502, "\"Bad Gateway\"", Some(Primitive));
    assert ErrorMessageOf(BodyOf(failed)) == "" && MessageOf(BodyOf(failed)) == "";
    assert LoginErrorMessage(failed) == "Request failed (502)";
  }

  /** The corrected reading never raises a TypeError, and on every body
      except a truthy non-object it agrees with the source. */
  lemma LoginResponseOutcomeCorrected(response: Response<LoginBody>)
    ensures LoginResponseOutcome(response) != Err(TypeError)
    ensures !BodyOf(response).Primitive? ==>
              LoginResponseOutcome(response) == LoginResponseOutcomeAsWritten(response)
  {
  }

  /** `login` as a decision: empty credentials are refused before any
      request, otherwise the response decides. The method `Login` below is
      proved against this function. */
  function LoginDecision(identifier: string, password: string, response: Response<LoginBody>): (r: Result<LoginBody>)
    ensures identifier == "" || password == "" ==> r == Err(Failure(CREDENTIALS_REQUIRED))
    ensures identifier != "" && password != "" ==> r == LoginResponseOutcome(response)
  {
    if identifier == "" || password == "" then Err(Failure(CREDENTIALS_REQUIRED))
    else LoginResponseOutcome(response)
  }

  /** `login`: the POST to `api/auth/local` with the credentials as JSON. */
  method Login(base: string, identifier: string, password: string, response: Response<LoginBody>)
    returns (req: Option<Request<Credentials>>, r: Result<LoginBody>)
    ensures req.None? <==> identifier == "" || password == "" || base == ""
    ensures identifier == "" || password == "" ==> r == Err(Failure(CREDENTIALS_REQUIRED))
    ensures identifier != "" && password != "" && base == "" ==> r == Err(Failure(BASE_URL_MISSING))
    ensures req.Some? ==> req.value == Request(POST, Url(base, "api/auth/local", []),
                                               [("Content-Type", "application/json")],
                                               Some(Credentials(identifier, password)))
    ensures req.Some? ==> r == LoginDecision(identifier, password, response)
  {
    if identifier == "" || password == "" {
      return None, Err(Failure(CREDENTIALS_REQUIRED));
    }
    var url := BuildUrl(base, "api/auth/local", []);
    if url.Err? {
      return None, Err(url.error);
    }
    assert "api/auth/local"[..1] == "a";
    req := Some(Request(POST, url.value, [("Content-Type", "application/json")],
                        Some(Credentials(identifier, password))));
    r := LoginResponseOutcome(response);
  }
}
