/**
 * `POST /api/sign-up`: registers a user with the agent backend's `/api/users`
 * and, on success, redirects to the site with a `user_id` cookie set to the id
 * the backend returned.
 */
module SignUpRoute {
  import opened Wrappers
  import opened Text
  import opened Http

  /** The JSON body: `{ name, email }`; `None` is an absent field. */
  datatype SignUpBody = SignUpBody(name: Option<string>, email: Option<string>)

  /** The `id` field of the backend's answer, by `typeof`. */
  datatype IdValue = Number(n: int) | NotANumber

  /** What `/api/users` answers: a status, its status text, and the results of
      reading the body as text (on an error status) or as JSON (otherwise). */
  datatype UsersReply = UsersReply(status: nat, statusText: string,
                                   errorText: Result<string, Thrown>, id: Result<IdValue, Thrown>)

  const SiteUrl := "https://second-brain-roan.vercel.app/"

  const NoBackendUrl := "AGENT_BACKEND_URL is not defined"
  const InvalidUserId := "Invalid user_id received from agent backend"

  /** The 500 of the `catch` clause, whatever was thrown. */
  function Failed(): Response {
    ErrorJson(500, "Failed to sign up user")
  }

  /** A status `new NextResponse(body, { status })` accepts with a body: one in
      200 to 599 other than the null-body statuses 204, 205 and 304. Any other
      status makes the constructor throw, a `RangeError` or a `TypeError`. */
  predicate CarriesBody(status: nat) {
    200 <= status <= 599 && status != 204 && status != 205 && status != 304
  }

  /** The `Set-Cookie` header of a successful sign-up. */
  function SessionCookie(id: int): string {
    "user_id=" + IntToString(id) + "; Path=/;"
  }

  /** The body was read and the backend URL is set, so the handler reaches the backend. */
  predicate Forwards(env: Env, body: Result<SignUpBody, Thrown>) {
    body.Success? && Truthy(env.agentBackendUrl)
  }

  /**
   * The handler. `body` is the result of `request.json()`, which is awaited
   * outside the `try`; `backend` is the result of the `fetch`.
   */
  function Post(env: Env, body: Result<SignUpBody, Thrown>, backend: Result<UsersReply, Thrown>): (out: Outcome)
    // an unreadable body escapes the handler
    ensures body.Failure? ==> out == Outcome(Response(500, FrameworkError, None), [ReadBody])
    // a missing backend URL is a 500 and no backend call
    ensures body.Success? && !Truthy(env.agentBackendUrl) ==>
      out == Outcome(ErrorJson(500, NoBackendUrl), [ReadBody])
    // otherwise exactly one call: no cookie, `name` renamed to `username`, `email` kept
    ensures Forwards(env, body) ==>
      out.calls == [ReadBody, Fetch(env.agentBackendUrl.value + "/api/users", None,
                                    UserPayload(body.value.name, body.value.email))]
  {
    match body
    case Failure(_) => Outcome(Response(500, FrameworkError, None), [ReadBody])
    case Success(data) =>
      if !Truthy(env.agentBackendUrl) then
        Outcome(ErrorJson(500, NoBackendUrl), [ReadBody])
      else
        var calls := [ReadBody, Fetch(env.agentBackendUrl.value + "/api/users", None, UserPayload(data.name, data.email))];
        match backend
        case Failure(_) => Outcome(Failed(), calls)
        case Success(res) =>
          if !IsOk(res.status) then
            match res.errorText
            case Failure(_) => Outcome(Failed(), calls)
            case Success(_) =>
              if CarriesBody(res.status) then
                Outcome(ErrorJson(res.status, "Agent backend returned an error: " + NatToString(res.status) + " " + res.statusText), calls)
              else Outcome(Failed(), calls)
          else match res.id
            case Failure(_) => Outcome(Failed(), calls)
            case Success(NotANumber) => Outcome(ErrorJson(500, InvalidUserId), calls)
            case Success(Number(userId)) => Outcome(Response(307, Redirect(SiteUrl), Some(SessionCookie(userId))), calls)
  }

  /** What the handler answers once the backend has been called. */
  lemma ReplyRelayed(env: Env, body: Result<SignUpBody, Thrown>, backend: Result<UsersReply, Thrown>)
    ensures var out := Post(env, body, backend);
      // the backend's own error status is passed on when a response can carry it
      (Forwards(env, body) && backend.Success? && !IsOk(backend.value.status) && backend.value.errorText.Success? &&
          CarriesBody(backend.value.status) ==>
        out.response == ErrorJson(backend.value.status,
          "Agent backend returned an error: " + NatToString(backend.value.status) + " " + backend.value.statusText)) &&
      // an id that is not a number is a 500
      (Forwards(env, body) && backend.Success? && IsOk(backend.value.status) && backend.value.id == Success(NotANumber) ==>
        out.response == ErrorJson(500, InvalidUserId)) &&
      // anything thrown after the body was read is the fixed 500
      (Forwards(env, body) && (backend.Failure? ||
          (!IsOk(backend.value.status) && backend.value.errorText.Failure?) ||
          (!IsOk(backend.value.status) && !CarriesBody(backend.value.status)) ||
          (IsOk(backend.value.status) && backend.value.id.Failure?)) ==>
        out.response == Failed())
  {
  }

  /** A backend 304 is not passed on: building the error response throws, and
      the handler answers the fixed 500. */
  lemma NotModifiedIsFailure(env: Env, name: string, email: string, statusText: string, text: string, id: Result<IdValue, Thrown>)
    requires Truthy(env.agentBackendUrl)
    ensures Post(env, Success(SignUpBody(Some(name), Some(email))),
                 Success(UsersReply(304, statusText, Success(text), id))).response == Failed()
  {
  }

  /** Success is a redirect to the site that sets exactly the session cookie
      `user_id=<id>; Path=/;`, and happens exactly when the backend answered
      with an ok status and a numeric id. */
  lemma RedirectIffNumericId(env: Env, body: Result<SignUpBody, Thrown>, backend: Result<UsersReply, Thrown>)
    ensures var out := Post(env, body, backend);
      (out.response.body.Redirect? <==>
        Forwards(env, body) && backend.Success? && IsOk(backend.value.status) &&
        backend.value.id.Success? && backend.value.id.value.Number?) &&
      (out.response.body.Redirect? ==>
        out.response == Response(307, Redirect(SiteUrl),
                                 Some("user_id=" + IntToString(backend.value.id.value.n) + "; Path=/;")))
  {
  }
}
