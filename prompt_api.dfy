/**
 * The agent backend's `POST /api/prompt` (Flask): checks the prompt, then the
 * `user_id` cookie, hands both with the history to the agent and answers with
 * an echo of the stripped prompt.
 */
module PromptApi {
  import opened Wrappers
  import opened Text
  import opened Http

  /** The JSON body: `prompt` and `history`; `None` is an absent or `null` field. */
  datatype PromptBody = PromptBody(prompt: Option<string>, history: Option<string>)

  /** Why Flask's `get_json()` refuses a body: a content type other than JSON,
      or a body that does not parse. */
  datatype BodyError = UnsupportedMediaType | BadRequest

  /** The status of Flask's own answer to a refused body. */
  function BodyErrorStatus(e: BodyError): nat {
    if e.UnsupportedMediaType? then 415 else 400
  }

  /** What the awaited agent call does: return a value, or raise. */
  datatype AgentResult = Returned(value: string) | Raised

  /**
   * The handler. `body` is `request.get_json()`, or the reason Flask refused it; `userCookie` is the `user_id` cookie.
   * Exceptions that escape (a failed `int()`, a raising agent) become Flask's 500.
   */
  function HandleUserPrompt(body: Result<PromptBody, BodyError>, userCookie: Option<string>, agent: AgentResult): (out: Outcome)
    ensures body.Failure? ==> out == Outcome(Response(BodyErrorStatus(body.error), FrameworkError, None), [ReadBody])
    // the prompt is checked before the cookie; an absent or empty prompt is a 400
    ensures body.Success? && !Truthy(body.value.prompt) ==>
      out == Outcome(ErrorJson(400, "No prompt provided"), [ReadBody])
    ensures body.Success? && Truthy(body.value.prompt) && !Truthy(userCookie) ==>
      out == Outcome(ErrorJson(400, "No user ID provided"), [ReadBody])
    // a user id that `int()` rejects escapes as a 500 before the agent is called
    ensures body.Success? && Truthy(body.value.prompt) && Truthy(userCookie) && ParseInt(Trim(userCookie.value)).None? ==>
      out == Outcome(Response(500, FrameworkError, None), [ReadBody])
    // the agent is called with the parsed id, the history unchanged and the stripped prompt
    ensures |out.calls| == 2 <==>
      body.Success? && Truthy(body.value.prompt) && Truthy(userCookie) && ParseInt(Trim(userCookie.value)).Some?
    ensures |out.calls| == 2 ==>
      out.calls[1] == AgentPrompt(ParseInt(Trim(userCookie.value)).value, body.value.history, Trim(body.value.prompt.value))
    // the answer echoes the stripped prompt, whatever the agent returned
    ensures out.response.status == 200 <==> |out.calls| == 2 && agent.Returned?
    ensures out.response.status == 200 ==>
      out.response == Response(200, JsonObject("response", Some("You said: " + Trim(body.value.prompt.value))), None)
  {
    match body
    case Failure(e) => Outcome(Response(BodyErrorStatus(e), FrameworkError, None), [ReadBody])
    case Success(data) =>
      if !Truthy(data.prompt) then
        Outcome(ErrorJson(400, "No prompt provided"), [ReadBody])
      else
        var prompt := Trim(data.prompt.value);
        if !Truthy(userCookie) then
          Outcome(ErrorJson(400, "No user ID provided"), [ReadBody])
        else
          var userId := Trim(userCookie.value);
          match ParseInt(userId)
          case None => Outcome(Response(500, FrameworkError, None), [ReadBody])
          case Some(id) =>
            var calls := [ReadBody, AgentPrompt(id, data.history, prompt)];
            match agent
            case Raised => Outcome(Response(500, FrameworkError, None), calls)
            case Returned(_) => Outcome(Response(200, JsonObject("response", Some("You said: " + prompt)), None), calls)
  }

  /** The prompt is stripped only after the emptiness check: a whitespace-only
      prompt passes it and is sent to the agent, and echoed, as "". */
  lemma WhitespacePromptIsAccepted(prompt: string, history: Option<string>, userId: int)
    requires prompt != "" && (forall i :: 0 <= i < |prompt| ==> IsSpace(prompt[i]))
    ensures var out := HandleUserPrompt(Success(PromptBody(Some(prompt), history)), Some(IntToString(userId)), Returned(""));
      out.calls == [ReadBody, AgentPrompt(userId, history, "")] &&
      out.response == Response(200, JsonObject("response", Some("You said: ")), None)
  {
    AllSpaceTrimsEmpty(prompt);
    IdCookieParses(userId);
    assert "You said: " + "" == "You said: ";
    AgentCalled(PromptBody(Some(prompt), history), IntToString(userId), userId, "", "You said: ");
  }

  /** A string of whitespace alone strips to "". */
  lemma AllSpaceTrimsEmpty(prompt: string)
    requires forall i :: 0 <= i < |prompt| ==> IsSpace(prompt[i])
    ensures Trim(prompt) == []
  {
    BlankIffAllSpace(prompt);
    BlankIffTrimEmpty(prompt);
  }

  /** The cookie written from an integer id is read back by `int(user_id.strip())`. */
  lemma IdCookieParses(userId: int)
    ensures IntToString(userId) != "" && ParseInt(Trim(IntToString(userId))) == Some(userId)
  {
    IntToStringEdges(userId);
    TrimKeeps(IntToString(userId));
    ParseIntOfIntToString(userId);
  }

  /** A truthy prompt and a cookie that parses to `id` reach the agent with the
      stripped prompt, and a returning agent gives the echo. */
  lemma AgentCalled(data: PromptBody, cookie: string, id: int, p: string, echo: string)
    requires Truthy(data.prompt) && cookie != "" && ParseInt(Trim(cookie)) == Some(id) && Trim(data.prompt.value) == p
    requires echo == "You said: " + p
    ensures HandleUserPrompt(Success(data), Some(cookie), Returned("")) ==
      Outcome(Response(200, JsonObject("response", Some(echo)), None), [ReadBody, AgentPrompt(id, data.history, p)])
  {
  }
}
