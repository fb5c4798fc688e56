/**
 * `POST /api/transcribe`: checks the OpenAI key and the `user_id` cookie, reads
 * the multipart form, sends the audio to the speech-to-text provider under a
 * file name derived from the title, forwards the transcript to the agent
 * backend's ingestion endpoint and answers with the transcript.
 */
module TranscribeRoute {
  import opened Wrappers
  import opened Text
  import opened Http

  /** The `audio` part of the form: a blob and its MIME type. */
  datatype Audio = Audio(data: seq<bv8>, mimeType: string)

  /** A form part as `formData.get` returns it: a string field or an uploaded file. */
  datatype Part = TextPart(text: string) | FilePart(file: Audio)

  /** The two form parts the handler reads; `None` is a missing part. */
  datatype Form = Form(audio: Option<Audio>, title: Option<Part>)

  /** The title part is a file: it is truthy but has no `replace` method. */
  predicate TitleIsFile(f: Form) {
    f.title.Some? && f.title.value.FilePart?
  }

  /** The title as the string the file name is derived from; absent when there is none. */
  function TitleText(f: Form): (t: Option<string>)
    requires !TitleIsFile(f)
    ensures t.Some? <==> f.title.Some?
    ensures t.Some? ==> f.title == Some(TextPart(t.value))
  {
    if f.title.Some? then Some(f.title.value.text) else None
  }

  /** `title.replace(/[^a-z0-9]/gi, '_')`: every character outside `[A-Za-z0-9]` becomes `_`. */
  function ReplaceNonAlnum(t: string): (r: string)
    ensures |r| == |t|
    ensures forall i :: 0 <= i < |t| ==> r[i] == (if IsAsciiAlnum(t[i]) then t[i] else '_')
  {
    if t == [] then []
    else ReplaceNonAlnum(t[..|t| - 1]) + [if IsAsciiAlnum(t[|t| - 1]) then t[|t| - 1] else '_']
  }

  /** `toLowerCase()` on a string; only ASCII capitals occur where it is applied. */
  function LowerCase(s: string): (r: string)
    ensures |r| == |s|
    ensures forall i :: 0 <= i < |s| ==> r[i] == LowerAscii(s[i])
  {
    if s == [] then [] else LowerCase(s[..|s| - 1]) + [LowerAscii(s[|s| - 1])]
  }

  /** The stem of the file name: the title with non-alphanumerics replaced, then lower-cased. */
  function SanitizedStem(title: string): (r: string)
    ensures |r| == |title|
    ensures forall i :: 0 <= i < |title| ==>
      r[i] == (if IsAsciiAlnum(title[i]) then LowerAscii(title[i]) else '_')
  {
    LowerCase(ReplaceNonAlnum(title))
  }

  predicate IsStemChar(c: char) {
    IsAsciiLower(c) || IsDigit(c) || c == '_'
  }

  /** The stem keeps the title's length, position by position, and contains only `[a-z0-9_]`. */
  lemma StemShape(title: string)
    ensures |SanitizedStem(title)| == |title|
    ensures forall i :: 0 <= i < |title| ==>
      SanitizedStem(title)[i] == (if IsAsciiAlnum(title[i]) then LowerAscii(title[i]) else '_')
    ensures forall i :: 0 <= i < |title| ==> IsStemChar(SanitizedStem(title)[i])
  {
  }

  /** A string made of `[a-z0-9_]` alone is its own stem. */
  lemma StemOfStemString(s: string)
    requires forall i :: 0 <= i < |s| ==> IsStemChar(s[i])
    ensures SanitizedStem(s) == s
  {
    StemShape(s);
  }

  /** Sanitising a sanitised stem changes nothing. */
  lemma StemIdempotent(title: string)
    ensures SanitizedStem(SanitizedStem(title)) == SanitizedStem(title)
  {
    StemShape(title);
    StemOfStemString(SanitizedStem(title));
  }

  /** The name of the file sent to the provider: a truthy title gives its stem plus
      ".wav"; an empty or absent title gives "recording.wav". */
  function FileName(title: Option<string>): (r: string)
    ensures Truthy(title) ==> r == SanitizedStem(title.value) + ".wav" && |r| == |title.value| + 4
    ensures !Truthy(title) ==> r == "recording.wav"
  {
    if Truthy(title) then SanitizedStem(title.value) + ".wav" else "recording.wav"
  }

  /** The message of the `catch` clause: an `APIError` is prefixed with "OpenAI Error: ",
      any other `Error` gives its own message, anything else a fixed sentence. */
  function ErrorMessage(e: Thrown): (m: string)
    ensures e.OpenAIError? ==> m == "OpenAI Error: " + e.message
    ensures e.Error? ==> m == e.message
    ensures e.NotAnError? ==> m == "Failed to transcribe audio."
  {
    var m := "Failed to transcribe audio.";
    var m := if e.OpenAIError? || e.Error? then e.message else m;
    if e.OpenAIError? then "OpenAI Error: " + e.message else m
  }

  /** The address of the ingestion endpoint; an unset variable prints as "undefined". */
  function IngestionUrl(env: Env): string {
    Interpolated(env.agentBackendUrl) + "/api/info"
  }

  /** The handler passes every guard and reaches the provider. */
  predicate ReachesProvider(env: Env, userCookie: Option<string>, form: Result<Form, Thrown>) {
    Truthy(env.openAiApiKey) && Truthy(userCookie) && form.Success? && form.value.audio.Some? &&
    !TitleIsFile(form.value)
  }

  const MissingKey := "Server configuration error: Missing API key."
  const AuthError := "User authentication error."
  const NoAudio := "No audio file provided."
  /** The `TypeError` thrown by calling `replace` on a `File`. */
  const ReplaceNotAFunction := "title.replace is not a function"

  /** The file the handler hands to the provider. */
  function ProviderFile(f: Form): AudioFile
    requires f.audio.Some? && !TitleIsFile(f)
  {
    AudioFile(FileName(TitleText(f)), f.audio.value.data, f.audio.value.mimeType)
  }

  /**
   * The handler. `userCookie` is the `user_id` cookie, `form` the result of
   * `request.formData()`, `provider` the transcript or the provider's error,
   * `ingestion` the status of the ingestion POST or the error it threw.
   */
  function Post(env: Env, userCookie: Option<string>, form: Result<Form, Thrown>,
                provider: Result<string, Thrown>, ingestion: Result<nat, Thrown>): (out: Outcome)
    // a missing key answers 500 before the cookie store is touched
    ensures !Truthy(env.openAiApiKey) ==> out == Outcome(ErrorJson(500, MissingKey), [])
    // a missing cookie answers 401; the form is not read
    ensures Truthy(env.openAiApiKey) && !Truthy(userCookie) ==>
      out == Outcome(ErrorJson(401, AuthError), [ReadCookies])
    // a missing audio part answers 400 without calling the provider
    ensures Truthy(env.openAiApiKey) && Truthy(userCookie) && form.Success? && form.value.audio.None? ==>
      out == Outcome(ErrorJson(400, NoAudio), [ReadCookies, ReadBody])
    // a file-valued title throws at `replace` before the provider is called
    ensures Truthy(env.openAiApiKey) && Truthy(userCookie) && form.Success? && form.value.audio.Some? &&
            TitleIsFile(form.value) ==>
      out == Outcome(ErrorJson(500, ReplaceNotAFunction), [ReadCookies, ReadBody])
    ensures Truthy(env.openAiApiKey) && Truthy(userCookie) && form.Failure? ==>
      out == Outcome(ErrorJson(500, ErrorMessage(form.error)), [ReadCookies, ReadBody])
    // one provider call, made exactly when every guard passes, with the derived
    // file name; one ingestion call, made only after the provider succeeded,
    // carrying the transcript
    ensures ReachesProvider(env, userCookie, form) && provider.Failure? ==>
      out.calls == [ReadCookies, ReadBody, Transcribe(ProviderFile(form.value), "whisper-1")]
    ensures ReachesProvider(env, userCookie, form) && provider.Success? ==>
      out.calls == [ReadCookies, ReadBody, Transcribe(ProviderFile(form.value), "whisper-1"),
                    Fetch(IngestionUrl(env), Some("user_id=" + userCookie.value), ContentPayload(provider.value))]
  {
    if !Truthy(env.openAiApiKey) then
      Outcome(ErrorJson(500, MissingKey), [])
    else if !Truthy(userCookie) then
      Outcome(ErrorJson(401, AuthError), [ReadCookies])
    else
      var read := [ReadCookies, ReadBody];
      match form
      case Failure(e) => Outcome(ErrorJson(500, ErrorMessage(e)), read)
      case Success(f) =>
        if f.audio.None? then
          Outcome(ErrorJson(400, NoAudio), read)
        else if TitleIsFile(f) then
          Outcome(ErrorJson(500, ErrorMessage(Error(ReplaceNotAFunction))), read)
        else
          var transcribed := [ReadCookies, ReadBody, Transcribe(ProviderFile(f), "whisper-1")];
          match provider
          case Failure(e) => Outcome(ErrorJson(500, ErrorMessage(e)), transcribed)
          case Success(text) =>
            var forwarded := [ReadCookies, ReadBody, Transcribe(ProviderFile(f), "whisper-1"),
                              Fetch(IngestionUrl(env), Some("user_id=" + userCookie.value), ContentPayload(text))];
            match ingestion
            case Failure(e) => Outcome(ErrorJson(500, ErrorMessage(e)), forwarded)
            case Success(_) => Outcome(Response(200, JsonObject("transcription", Some(text)), None), forwarded)
  }

  /** Without every guard passing, neither the provider nor the backend is called. */
  lemma NoCallsBeforeGuards(env: Env, userCookie: Option<string>, form: Result<Form, Thrown>,
                            provider: Result<string, Thrown>, ingestion: Result<nat, Thrown>)
    requires !ReachesProvider(env, userCookie, form)
    ensures var out := Post(env, userCookie, form, provider, ingestion);
      out.calls == [] || out.calls == [ReadCookies] || out.calls == [ReadCookies, ReadBody]
  {
  }

  /** What the handler answers once the provider has been called: the error
      message of whichever call threw, and the transcript as soon as both calls
      returned, whatever status the ingestion endpoint answered with. */
  lemma ReplyRelayed(env: Env, userCookie: Option<string>, form: Result<Form, Thrown>,
                     provider: Result<string, Thrown>, ingestion: Result<nat, Thrown>)
    ensures var out := Post(env, userCookie, form, provider, ingestion);
      (ReachesProvider(env, userCookie, form) && provider.Failure? ==>
        out.response == ErrorJson(500, ErrorMessage(provider.error))) &&
      (ReachesProvider(env, userCookie, form) && provider.Success? && ingestion.Failure? ==>
        out.response == ErrorJson(500, ErrorMessage(ingestion.error))) &&
      (out.response.status == 200 <==>
        ReachesProvider(env, userCookie, form) && provider.Success? && ingestion.Success?) &&
      (out.response.status == 200 ==>
        out.response == Response(200, JsonObject("transcription", Some(provider.value)), None))
  {
  }
}
