/**
 * The wire-level vocabulary of the proxy routes: what a handler can catch,
 * the response it answers with, and the trace of the external calls it makes
 * (cookie store, request body, speech-to-text provider, agent backend).
 */
module Http {
  import opened Wrappers

  /** A value caught by a `catch` clause. */
  datatype Thrown =
    | OpenAIError(message: string)  // an instance of the OpenAI SDK's `APIError` (itself an `Error`)
    | Error(message: string)        // any other instance of `Error`
    | NotAnError                    // a thrown value that is not an `Error`: it has no `message`
  {
    /** `error.message`, which is `undefined` for a value that is not an `Error`. */
    function Message(): (m: Option<string>)
      ensures m.None? <==> NotAnError?
    {
      if NotAnError? then None else Some(message)
    }
  }

  /** JavaScript truthiness of a value that is either a string or absent:
      `undefined`, `null` and `""` are falsy. Python's `not x` on `str | None` agrees. */
  predicate Truthy(s: Option<string>) {
    s.Some? && s.value != ""
  }

  /** `a || b` on an optional string. */
  function OrElse(s: Option<string>, fallback: string): (r: string)
    ensures Truthy(s) ==> r == s.value
    ensures !Truthy(s) ==> r == fallback
  {
    if Truthy(s) then s.value else fallback
  }

  /** An optional string inside a template literal: `undefined` prints as "undefined". */
  function Interpolated(s: Option<string>): string {
    if s.Some? then s.value else "undefined"
  }

  /** `response.ok`. */
  predicate IsOk(status: nat) {
    200 <= status <= 299
  }

  /** The process environment variables the handlers read. */
  datatype Env = Env(openAiApiKey: Option<string>, agentBackendUrl: Option<string>)

  /** What the agent backend answers to a `fetch`: a status code and the result
      of reading the body (`response.json()` / `response.text()`), which can throw. */
  datatype BackendReply<T> = BackendReply(status: nat, body: Result<T, Thrown>)

  datatype Body =
    | JsonObject(key: string, value: Option<string>)  // `{"key": value}`; `None` is dropped by `JSON.stringify`: `{}`
    | PlainText(text: string)
    | Redirect(location: string)
    | FrameworkError                                   // the handler threw outside any `catch`: the framework answers

  datatype Response = Response(status: nat, body: Body, setCookie: Option<string>)

  /** `NextResponse.json({ error: message }, { status })` and its look-alikes. */
  function ErrorJson(status: nat, message: string): (r: Response)
    ensures r.status == status && r.body == JsonObject("error", Some(message)) && r.setCookie.None?
  {
    Response(status, JsonObject("error", Some(message)), None)
  }

  /** The JSON bodies the proxies send downstream. */
  datatype Payload =
    | ContentPayload(content: string)                          // `{ content }`
    | PromptPayload(prompt: string, history: Option<string>)    // `{ prompt, history }`; `None` is `null`
    | UserPayload(username: Option<string>, email: Option<string>)  // `{ username, email }`

  /** An audio file handed to the speech-to-text provider. */
  datatype AudioFile = AudioFile(name: string, data: seq<bv8>, mimeType: string)

  /** One step of a handler that leaves the handler's own code. */
  datatype Call =
    | ReadCookies                                                // `await cookies()`
    | ReadBody                                                   // `request.formData()` / `request.json()`
    | Transcribe(file: AudioFile, model: string)                 // the speech-to-text provider
    | Fetch(url: string, cookie: Option<string>, payload: Payload)  // a POST to the agent backend
    | AgentPrompt(userId: int, history: Option<string>, prompt: string)  // the agent, inside the agent backend

  /** What a handler answers and the calls it made on the way, in order. */
  datatype Outcome = Outcome(response: Response, calls: seq<Call>)
}
