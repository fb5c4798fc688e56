/**
 * `POST /api/info`: forwards a piece of text to the agent backend's
 * `/api/info` with the caller's `user_id` cookie and passes the backend's
 * text answer through.
 */
module InfoRoute {
  import opened Wrappers
  import opened Text
  import opened Http

  /** The JSON body: `{ content }`; `None` is an absent or `null` field. */
  datatype InfoBody = InfoBody(content: Option<string>)

  /** The plain-text 500 of the `catch` clause: `error.message || "Internal Server Error"`. */
  function Failed(e: Thrown): (r: Response)
    ensures r.status == 500 && r.body.PlainText?
    ensures r.body.text == (if e.Error? || e.OpenAIError? then OrElse(Some(e.message), "Internal Server Error")
                            else "Internal Server Error")
  {
    Response(500, PlainText(OrElse(e.Message(), "Internal Server Error")), None)
  }

  const NoBackendUrl := "AGENT_BACKEND_URL is not defined in the environment variables."
  const AuthError := "User authentication error."
  const NoContent := "No content provided"

  /** Every guard passes, so the handler reaches the backend. */
  predicate Forwards(env: Env, userCookie: Option<string>, body: Result<InfoBody, Thrown>) {
    Truthy(userCookie) && body.Success? && Truthy(body.value.content) && Truthy(env.agentBackendUrl)
  }

  /**
   * The handler. `body` is the result of `request.json()`, `backend` the result
   * of the `fetch` (a thrown error, or a status and the result of `response.text()`).
   */
  function Post(env: Env, userCookie: Option<string>, body: Result<InfoBody, Thrown>,
                backend: Result<BackendReply<string>, Thrown>): (out: Outcome)
    // the cookie is checked first: 401 and nothing else happens
    ensures !Truthy(userCookie) ==>
      out == Outcome(Response(401, PlainText(AuthError), None), [ReadCookies])
    // falsy content is a 400; whitespace-only content passes this guard
    ensures Truthy(userCookie) && body.Success? && !Truthy(body.value.content) ==>
      out == Outcome(Response(400, PlainText(NoContent), None), [ReadCookies, ReadBody])
    // the backend URL is looked at only after the content
    ensures Truthy(userCookie) && body.Success? && Truthy(body.value.content) && !Truthy(env.agentBackendUrl) ==>
      out == Outcome(Response(500, PlainText(NoBackendUrl), None), [ReadCookies, ReadBody])
    // the backend is called once, exactly when every guard passes, with
    // exactly `{ content }` and the caller's cookie
    ensures Forwards(env, userCookie, body) ==>
      out.calls == [ReadCookies, ReadBody,
        Fetch(env.agentBackendUrl.value + "/api/info", Some("user_id=" + userCookie.value),
              ContentPayload(body.value.content.value))]
    ensures !Forwards(env, userCookie, body) ==> out.calls == [ReadCookies] || out.calls == [ReadCookies, ReadBody]
  {
    if !Truthy(userCookie) then
      Outcome(Response(401, PlainText(AuthError), None), [ReadCookies])
    else
      var read := [ReadCookies, ReadBody];
      match body
      case Failure(e) => Outcome(Failed(e), read)
      case Success(data) =>
        if !Truthy(data.content) then
          Outcome(Response(400, PlainText(NoContent), None), read)
        else if !Truthy(env.agentBackendUrl) then
          Outcome(Failed(Error(NoBackendUrl)), read)
        else
          var calls := [ReadCookies, ReadBody,
                        Fetch(env.agentBackendUrl.value + "/api/info", Some("user_id=" + userCookie.value),
                              ContentPayload(data.content.value))];
          match backend
          case Failure(e) => Outcome(Failed(e), calls)
          case Success(reply) =>
            if !IsOk(reply.status) then
              Outcome(Failed(Error("Agent backend responded with status: " + NatToString(reply.status))), calls)
            else match reply.body
              case Failure(e) => Outcome(Failed(e), calls)
              case Success(text) => Outcome(Response(200, PlainText(text), None), calls)
  }

  /** What the handler answers once the backend has been called: the status of
      a failed call, and the backend's text passed through on success. */
  lemma ReplyRelayed(env: Env, userCookie: Option<string>, body: Result<InfoBody, Thrown>,
                     backend: Result<BackendReply<string>, Thrown>)
    ensures var out := Post(env, userCookie, body, backend);
      (Forwards(env, userCookie, body) && backend.Success? && !IsOk(backend.value.status) ==>
        out.response == Response(500, PlainText("Agent backend responded with status: " + NatToString(backend.value.status)), None)) &&
      (out.response.status == 200 <==>
        Forwards(env, userCookie, body) && backend.Success? && IsOk(backend.value.status) && backend.value.body.Success?) &&
      (out.response.status == 200 ==> out.response == Response(200, PlainText(backend.value.body.value), None))
  {
  }
}
