/**
 * `POST /api/chat`: forwards a prompt and the chat history to the agent
 * backend's `/api/prompt` with the caller's `user_id` cookie and relays the
 * backend's `response` field.
 */
module ChatRoute {
  import opened Wrappers
  import opened Text
  import opened Http

  const NoBackendUrl := "AGENT_BACKEND_URL is not defined in the environment variables."
  const NoUserId := "No user ID provided in cookies"
  const EmptyPromptMessage := "Prompt cannot be empty"

  /** The JSON body: `{ prompt, history }`; `None` is an absent or `null` field. */
  datatype ChatBody = ChatBody(prompt: Option<string>, history: Option<string>)

  /** `!prompt || !prompt.trim()`. */
  predicate EmptyPrompt(prompt: Option<string>) {
    !Truthy(prompt) || !Truthy(Some(Trim(prompt.value)))
  }

  /** Every guard passes, so the handler reaches the backend. */
  predicate Forwards(env: Env, userCookie: Option<string>, body: Result<ChatBody, Thrown>) {
    Truthy(env.agentBackendUrl) && Truthy(userCookie) && body.Success? && !EmptyPrompt(body.value.prompt)
  }

  /**
   * The handler. `body` is the result of `request.json()`, `backend` the result
   * of the `fetch` (a thrown error, or a status and the `response` field of the
   * parsed body). Every error is caught and answered with 500 and its message.
   */
  function Post(env: Env, userCookie: Option<string>, body: Result<ChatBody, Thrown>,
                backend: Result<BackendReply<Option<string>>, Thrown>): (out: Outcome)
    // the backend URL is checked first, and its absence is a 500
    ensures !Truthy(env.agentBackendUrl) ==>
      out == Outcome(ErrorJson(500, NoBackendUrl), [ReadCookies])
    // a missing cookie is a 400, not a 401
    ensures Truthy(env.agentBackendUrl) && !Truthy(userCookie) ==>
      out == Outcome(ErrorJson(400, NoUserId), [ReadCookies])
    ensures Truthy(env.agentBackendUrl) && Truthy(userCookie) && body.Success? && EmptyPrompt(body.value.prompt) ==>
      out == Outcome(ErrorJson(400, EmptyPromptMessage), [ReadCookies, ReadBody])
    // the backend is called once, exactly when every guard passes, with the
    // prompt unchanged, `history || null`, and the caller's cookie
    ensures Forwards(env, userCookie, body) ==>
      out.calls == [ReadCookies, ReadBody,
        Fetch(env.agentBackendUrl.value + "/api/prompt", Some("user_id=" + userCookie.value),
              PromptPayload(body.value.prompt.value,
                            if Truthy(body.value.history) then body.value.history else None))]
    ensures !Forwards(env, userCookie, body) ==> out.calls == [ReadCookies] || out.calls == [ReadCookies, ReadBody]
  {
    if !Truthy(env.agentBackendUrl) then
      Outcome(ErrorJson(500, NoBackendUrl), [ReadCookies])
    else if !Truthy(userCookie) then
      Outcome(ErrorJson(400, NoUserId), [ReadCookies])
    else
      var read := [ReadCookies, ReadBody];
      match body
      case Failure(e) => Outcome(Response(500, JsonObject("error", e.Message()), None), read)
      case Success(data) =>
        if EmptyPrompt(data.prompt) then
          Outcome(ErrorJson(400, EmptyPromptMessage), read)
        else
          var history := if Truthy(data.history) then data.history else None;
          var calls := [ReadCookies, ReadBody,
                        Fetch(env.agentBackendUrl.value + "/api/prompt", Some("user_id=" + userCookie.value),
                              PromptPayload(data.prompt.value, history))];
          match backend
          case Failure(e) => Outcome(Response(500, JsonObject("error", e.Message()), None), calls)
          case Success(reply) =>
            if !IsOk(reply.status) then
              Outcome(ErrorJson(500, "HTTP error! status: " + NatToString(reply.status)), calls)
            else match reply.body
              case Failure(e) => Outcome(Response(500, JsonObject("error", e.Message()), None), calls)
              case Success(agentResponse) => Outcome(Response(200, JsonObject("response", agentResponse), None), calls)
  }

  /** What the handler answers once the backend has been called: the status of
      a failed call, the relayed `response` field, and an `error` body on every
      500. */
  lemma ReplyRelayed(env: Env, userCookie: Option<string>, body: Result<ChatBody, Thrown>,
                     backend: Result<BackendReply<Option<string>>, Thrown>)
    ensures var out := Post(env, userCookie, body, backend);
      (Forwards(env, userCookie, body) && backend.Success? && !IsOk(backend.value.status) ==>
        out.response == ErrorJson(500, "HTTP error! status: " + NatToString(backend.value.status))) &&
      (out.response.status == 200 <==>
        Forwards(env, userCookie, body) && backend.Success? && IsOk(backend.value.status) && backend.value.body.Success?) &&
      (out.response.status == 200 ==>
        out.response == Response(200, JsonObject("response", backend.value.body.value), None)) &&
      (out.response.status == 500 ==> out.response.body.JsonObject? && out.response.body.key == "error")
  {
  }
}
