# Second Brain: a Dafny model of the client, its proxy routes, the agent's prompt endpoint and the CLI

Second Brain is a personal knowledge-base assistant. A Next.js website lets
a user record audio, write notes, upload files, run actions and chat with an
agent. Its server routes forward each request to an agent backend and
identify the user by the `user_id` cookie. The backend is a Flask app that
builds a system prompt for the agent. A small Rust CLI edits a provider
configuration.

This project models the logic of those pieces:

- **Proxy routes** are pure decision functions. Each takes:
  - the environment (which variables are set);
  - the cookie, as an `Option`;
  - the parsed body, or what its parsing threw;
  - what each downstream call returned or threw.

  Each returns an `Outcome`: the response (status, body, `Set-Cookie`) and
  the trace of calls the handler made, in order. Guard order and "no call
  before this guard" can therefore be stated.
- **The Flask `/api/prompt` handler and `create_system_prompt`** are pure
  functions in the same style.
- **React components** become classes with one field per piece of state or
  ref and one `modifies this` method per event. Events include a handler, a
  timer tick, a timeout firing and an answer arriving. Each class keeps a
  `Valid()` invariant tying its flags to the timeouts and requests still
  pending. The pure parts are functions with lemmas. These include
  `formatTime`, the field rules and error maps, the chat history text, the
  format toggle and the progress counter.
- **The CLI's `main`** is a method over a class holding the configuration
  map and the current provider. It is specified by a pure `Apply`.

Shared modules:

- `Wrappers`: `Option` and `Result`.
- `Text`: trimming, blank tests, ASCII lower-casing, decimal printing and
  parsing.
- `Http`: thrown values, responses, bodies and the call trace.
- `FormRules`: the name and email rules both sign-up pages use.

Points where the code's behaviour is easy to mistake:

- The recording component only simulates processing. The blob is logged and
  never sent to `/api/transcribe`. It has no upload, transcribing or error
  state, only the component's three boolean flags (`isRecording`,
  `isProcessing`, `isComplete`), which select one of four views.
- A failed microphone request shows an alert and stays in the idle view. It
  never enters an error state.
- The transcribe route does not check the ingestion call's status. A *thrown*
  ingestion `fetch` is caught and answered with a 500. Ingestion is not
  best-effort in that case.
- The chat route checks `AGENT_BACKEND_URL` before the cookie. A missing
  cookie there gives 400, not 401.
- The info route checks the cookie before anything else. It lets
  whitespace-only content through, because its check is only for falsy
  content.
- The file uploader's progress is simulated by an interval. No file is sent.

## Model

| member | source | states |
|---|---|---|
| Text.TrimStart | second-brain-agent/src/api.py:20 | the result is a suffix of the input, everything dropped is whitespace, and it does not start with whitespace |
| Text.TrimEnd | second-brain-agent/src/api.py:20 | the result is a prefix of the input, everything dropped is whitespace, and it does not end with whitespace |
| Text.Trim | second-brain-website/src/app/sign_up_page.tsx:46 | `trim()`/`strip()`: the result is the slice of the input left after its leading and trailing whitespace is dropped, only whitespace is dropped, and neither end of the result is whitespace |
| Text.TrimIsSlice | second-brain-agent/src/api.py:20 | stripping the front and then the back leaves a slice of the input with only whitespace around it |
| Text.BlankIffAllSpace | second-brain-website/src/app/sign_up_page.tsx:46 | a string is blank exactly when every character is whitespace |
| Text.BlankIffTrimEmpty | second-brain-website/src/components/chat-interface.tsx:47 | the blank test used by the model is exactly `s.trim() === ""` |
| Text.NonSpaceIsNotBlank | second-brain-website/src/app/sign_up_page.tsx:50-52 | a string with one non-space character is not blank |
| Text.LowerAscii | second-brain-website/src/app/api/transcribe/route.ts:40 | `toLowerCase` on ASCII: upper-case letters map 32 code points down to lower-case, everything else is unchanged |
| Text.NatToString | second-brain-website/src/app/api/chat/route.ts:44 | a number's decimal numeral is non-empty digits, one digit exactly below 10 |
| Text.IntToString | second-brain-website/src/app/api/sign-up/route.ts:53 | the numeral of an integer: the natural numeral, with a leading `-` when negative |
| Text.DecimalValueOfNatToString | second-brain-website/src/components/live-recording.tsx:40 | reading a printed numeral back gives the number |
| Text.NatToStringOfTwoDigits | second-brain-website/src/components/live-recording.tsx:40 | numbers 10 to 99 print as two digits |
| Text.DecimalValueLeadingZero | second-brain-website/src/components/live-recording.tsx:40 | a `0` padded in front does not change a numeral's value |
| Text.DropUnderscoresDigits | second-brain-agent/src/api.py:31 | dropping the underscores of a string of digits and underscores leaves only digits, and a string of digits is kept as it is |
| Text.DropUnderscoresAppend | second-brain-agent/src/api.py:31 | dropping underscores distributes over concatenation |
| Text.ParseInt | second-brain-agent/src/api.py:31 | `int()` fails on the empty string; a numeral reads as its decimal value, and a `-` in front negates it |
| Text.ParseIntSucceedsIff | second-brain-agent/src/api.py:31 | `int()` succeeds exactly on an optional sign followed by digits with single `_` between digits |
| Text.DigitPartsJoin | second-brain-agent/src/api.py:31 | two digit parts joined directly or by one `_` form a digit part |
| Text.UnderscoreBetweenDigitParts | second-brain-agent/src/api.py:31 | one `_` between two digit parts does not change the value `int()` reads |
| Text.UnderscoreGroupingExample | second-brain-agent/src/api.py:31 | `int("1_000")` is 1000 |
| Text.MisplacedUnderscoreExamples | second-brain-agent/src/api.py:31 | `int()` refuses `1__0`, `_1` and `1_` |
| Text.ParseIntOfIntToString | second-brain-agent/src/api.py:27-31 | `int()` on the printed form of any integer gives that integer back |
| Http.Thrown.Message | second-brain-website/src/app/api/chat/route.ts:54-59 | `error.message` exists exactly when the thrown value is an `Error` |
| Http.OrElse | second-brain-website/src/app/api/info/route.ts:45 | `s \|\| fallback`: the string when truthy, otherwise the fallback |
| Http.ErrorJson | second-brain-website/src/app/api/chat/route.ts:15-18 | a JSON `{error}` response with the given status and no cookie |
| LiveRecording.PadStart2 | second-brain-website/src/components/live-recording.tsx:40 | `padStart(2, "0")`: one digit gets a leading zero, longer numerals are kept |
| LiveRecording.FormatTime | second-brain-website/src/components/live-recording.tsx:37-41 | `mm:ss`: at least five characters with the colon third from the end (the reading back is FormatTimeReadsBack) |
| LiveRecording.PadStart2Value | second-brain-website/src/components/live-recording.tsx:40 | a padded numeral is at least two digits, keeps its value, and has exactly two digits exactly when the number is below 100 |
| LiveRecording.FormatTimeReadsBack | second-brain-website/src/components/live-recording.tsx:37-41 | `mm:ss` reads back: minutes before the colon, two-digit seconds after, mins*60+secs is the input, and the length is 5 below 6000 s |
| LiveRecording.SelectView | second-brain-website/src/components/live-recording.tsx:125-210 | exactly one view renders, by precedence recording, processing, complete, with idle when no flag is set |
| LiveRecording.RecordedBlob | second-brain-website/src/components/live-recording.tsx:75 | the blob is typed `audio/wav` and its data is the chunks' bytes in order (`Concat`) |
| LiveRecording.ConcatAppend | second-brain-website/src/components/live-recording.tsx:66-75 | appending a chunk appends its bytes to the blob |
| LiveRecording.ConcatEmpty | second-brain-website/src/components/live-recording.tsx:67-69 | the blob is empty exactly when every chunk is empty |
| LiveRecording.Recording.constructor | second-brain-website/src/components/live-recording.tsx:16-23 | all flags off, time 0, empty title, no timer, recorder or stream |
| LiveRecording.Recording.SetTitle | second-brain-website/src/components/live-recording.tsx:129-133 | the title field, shown only in the idle view, changes the title and nothing else |
| LiveRecording.Recording.StartOk | second-brain-website/src/components/live-recording.tsx:43-91 | a fresh live stream and an active recorder with handlers are installed, recording starts, the closure counter is 0 and the chunk list is new and empty; `recordingTime` is not reset |
| LiveRecording.Recording.StartFail | second-brain-website/src/components/live-recording.tsx:43-56 | a throw at any step leaves `isRecording` false with no timer and no handlers, and shows the alert; a stream acquired before the throw stays live |
| LiveRecording.Recording.Tick | second-brain-website/src/components/live-recording.tsx:58-62 | the counter goes up by one and `recordingTime` takes its value |
| LiveRecording.Recording.DataAvailable | second-brain-website/src/components/live-recording.tsx:66-70 | only a non-empty chunk is appended, in arrival order |
| LiveRecording.Recording.Stop | second-brain-website/src/components/live-recording.tsx:98-117 | clears the timer, stops the recorder only if it is not inactive, ends the stream's tracks and drops it, and leaves `isRecording` false; a second call changes nothing |
| LiveRecording.Recording.RecorderStopped | second-brain-website/src/components/live-recording.tsx:73-81 | the wav blob of the chunks is logged, processing starts and the 2 s timeout is set; `isRecording` is untouched |
| LiveRecording.Recording.ProcessingTimeout | second-brain-website/src/components/live-recording.tsx:82-85 | processing ends, the complete view shows and the 3 s timeout is set |
| LiveRecording.Recording.ResetTimeout | second-brain-website/src/components/live-recording.tsx:86-89 | completion ends and the title is emptied, back to the idle view |
| LiveRecording.Recording.Unmount | second-brain-website/src/components/live-recording.tsx:26-35 | the timer is cleared and the current stream's tracks stop |
| LiveRecording.Session | second-brain-website/src/components/live-recording.tsx:43-117 | start, ticks, data, stop and both timeouts pass through recording, idle, processing, complete and idle, log one blob of all the data and end stopped with an empty title |
| TranscribeRoute.ReplaceNonAlnum | second-brain-website/src/app/api/transcribe/route.ts:40 | `replace(/[^a-z0-9]/gi, '_')`: same length, letters and digits kept, everything else `_` |
| TranscribeRoute.LowerCase | second-brain-website/src/app/api/transcribe/route.ts:40 | same length, each character lower-cased |
| TranscribeRoute.SanitizedStem | second-brain-website/src/app/api/transcribe/route.ts:40 | the stem has the title's length; each alphanumeric is lower-cased and every other character becomes `_` |
| TranscribeRoute.StemShape | second-brain-website/src/app/api/transcribe/route.ts:40 | the sanitised stem keeps the title's length, maps each character as the two steps say, and holds only `[a-z0-9_]` |
| TranscribeRoute.StemOfStemString | second-brain-website/src/app/api/transcribe/route.ts:40 | a string of `[a-z0-9_]` is its own stem |
| TranscribeRoute.StemIdempotent | second-brain-website/src/app/api/transcribe/route.ts:40 | sanitising twice is sanitising once |
| TranscribeRoute.FileName | second-brain-website/src/app/api/transcribe/route.ts:40 | a truthy title gives its stem plus `.wav`; an empty or absent title gives `recording.wav` |
| TranscribeRoute.ErrorMessage | second-brain-website/src/app/api/transcribe/route.ts:72-80 | an `APIError` gives `OpenAI Error: ` plus its message, another `Error` its message, anything else the fixed fallback |
| TranscribeRoute.Post | second-brain-website/src/app/api/transcribe/route.ts:11-83 | a missing key is a 500 before any call; no cookie is a 401 before the form is parsed; no audio is a 400; a title part that is a file is a 500 with `title.replace is not a function`, and the provider is not called; a provider failure means no ingestion call; after success there is exactly one ingestion call with the transcript and `user_id=<id>` |
| TranscribeRoute.NoCallsBeforeGuards | second-brain-website/src/app/api/transcribe/route.ts:12-37 | without every guard passing, neither the provider nor the ingestion endpoint is called |
| TranscribeRoute.ReplyRelayed | second-brain-website/src/app/api/transcribe/route.ts:46-83 | a throw from either call is a 500 with its mapped message; 200 exactly when both calls returned, whatever the ingestion status, with the transcript |
| ChatRoute.Post | second-brain-website/src/app/api/chat/route.ts:4-61 | no backend URL is a 500 before the cookie; no cookie is a 400; an absent or blank prompt is a 400 with no call; otherwise one call carrying the prompt unchanged, `history \|\| null` and `user_id=<id>` |
| ChatRoute.ReplyRelayed | second-brain-website/src/app/api/chat/route.ts:43-59 | a non-OK backend is a 500 `HTTP error! status: N`; 200 exactly when the backend answered OK with a readable body, carrying only its `response` field; every 500 has an `error` body |
| InfoRoute.Failed | second-brain-website/src/app/api/info/route.ts:43-46 | a 500 whose text is the error's message, or `Internal Server Error` when there is none |
| InfoRoute.Post | second-brain-website/src/app/api/info/route.ts:3-47 | the cookie is checked first (401, nothing else read); falsy content is a 400; a missing URL is a 500 after the content check; otherwise exactly one call with `{content}` and `user_id=<id>` |
| InfoRoute.ReplyRelayed | second-brain-website/src/app/api/info/route.ts:32-46 | a non-OK backend is a 500 naming the status; 200 exactly when the backend answered OK with readable text, passed through unchanged |
| SignUpRoute.Post | second-brain-website/src/app/api/sign-up/route.ts:3-23 | a missing URL is a 500 with no backend call; otherwise one call with `{username: name, email}` and no cookie |
| SignUpRoute.ReplyRelayed | second-brain-website/src/app/api/sign-up/route.ts:25-66 | a non-OK backend's own status is returned when a response may carry a body with it (200 to 599, not 204, 205 or 304); any other status makes `new NextResponse` throw, which is the fixed 500 as is anything else thrown after the body is read; a non-number id is a 500 |
| SignUpRoute.NotModifiedIsFailure | second-brain-website/src/app/api/sign-up/route.ts:25-35 | a backend 304 is answered with the fixed 500, not passed on |
| SignUpRoute.RedirectIffNumericId | second-brain-website/src/app/api/sign-up/route.ts:38-56 | a redirect exactly when the backend answered OK with a numeric id, and its `Set-Cookie` is exactly `user_id=<id>; Path=/;` |
| PromptApi.HandleUserPrompt | second-brain-agent/src/api.py:8-37 | the prompt is checked before the cookie (400 each); a cookie `int()` rejects is a 500 before the agent; the agent gets the parsed id, the history unchanged and the stripped prompt; the 200 body is `You said: ` plus the stripped prompt whatever the agent returns |
| PromptApi.WhitespacePromptIsAccepted | second-brain-agent/src/api.py:16-20 | a whitespace-only prompt passes the check and is sent and echoed as `""` |
| PromptApi.IdCookieParses | second-brain-agent/src/api.py:27-31 | a cookie holding a printed integer id survives `strip()` and is read back by `int()` as that id |
| PromptApi.AgentCalled | second-brain-agent/src/api.py:16-37 | a truthy prompt and a cookie that parses reach the agent with that id, the history and the stripped prompt, and a returning agent gives the 200 echo |
| SystemPrompt.CurrentChatContent | second-brain-agent/src/agent.py:71-78 | a truthy history inside the "previous messages" frame; `None` or `""` gives the fixed first-chat sentence |
| SystemPrompt.Fill | second-brain-agent/src/agent.py:80-128 | the f-string's shape: its length is the sum of its pieces, it starts with the first fixed piece, ends with the last, and the last hole sits right before it |
| SystemPrompt.Render | second-brain-agent/src/agent.py:80-128 | the filled template's length is the sum of the fixed text, the path, the printed id, the chat section and the input; it starts with the head and ends with the input followed by the closing text |
| SystemPrompt.CreateSystemPrompt | second-brain-agent/src/agent.py:68-128 | the agent's prompt ends with the user's input followed by the Instructions section |
| SystemPrompt.OccursInMiddle | second-brain-agent/src/agent.py:80-128 | a piece of a concatenation occurs at the offset of what precedes it |
| SystemPrompt.HolesHoldArguments | second-brain-agent/src/agent.py:80-128 | every hole of the template holds its argument verbatim at the offset the fixed pieces before it add up to, between those fixed pieces |
| SystemPrompt.ArgumentsAppearVerbatim | second-brain-agent/src/agent.py:93-118 | the home path, `user_id` and `user_input` appear verbatim after the text that introduces each, and the prompt ends with the fixed closing text |
| SystemPrompt.HistoryAppearsVerbatim | second-brain-agent/src/agent.py:71-78 | a truthy history appears verbatim inside the frame in the Current Chat section; otherwise the fixed sentence stands there |
| SystemPrompt.DistinctInputsGiveDistinctPrompts | second-brain-agent/src/agent.py:118 | prompts for different user inputs differ, all else equal |
| FormRules.DotFromIff | second-brain-website/src/app/sign_up_page.tsx:52 | the scan after an `@` finds a `.` exactly when a match with that `@` exists |
| FormRules.AtFromIff | second-brain-website/src/app/sign_up_page.tsx:52 | the scan from index i finds a match exactly when some match has its `@` at i or later |
| FormRules.EmailPatternMatchesIff | second-brain-website/src/app/sign_up_page.tsx:52 | the scan decides exactly the unanchored `\S+@\S+\.\S+` |
| FormRules.NameError | second-brain-website/src/app/sign_up_page.tsx:46-48 | a name error exactly when the trimmed name is empty, and it is "Name is required" |
| FormRules.EmailError | second-brain-website/src/app/sign_up_page.tsx:50-54 | at most one email error: "required" exactly when blank, "invalid" exactly when non-blank and the pattern matches nowhere |
| FormRules.MatchingEmailIsNotBlank | second-brain-website/src/app/sign_up_page.tsx:50-54 | a string the pattern matches is not blank |
| FormRules.EmailAcceptedIffMatches | second-brain-website/src/app/sign_up_page.tsx:50-54 | the email rule accepts exactly the strings the pattern matches |
| FormRules.EmailExampleAccepted | second-brain-website/src/app/sign_up_page.tsx:52 | `name@example.com` is accepted |
| FormRules.EmailExampleWithoutDot | second-brain-website/src/app/sign_up_page.tsx:52 | `name@example` is invalid |
| FormRules.EmailExampleSpaceBeforeAt | second-brain-website/src/app/sign_up_page.tsx:52 | `name @x.y` is invalid |
| SignUpPrototype.FormData.With | second-brain-website/src/app/sign_up_page.tsx:31 | `{ ...prev, [name]: value }`: the named field changes and the others stay |
| SignUpPrototype.Lookup | second-brain-website/src/app/sign_up_page.tsx:34 | `errors[name]`: the entry when present, otherwise nothing |
| SignUpPrototype.PasswordError | second-brain-website/src/app/sign_up_page.tsx:56-60 | "required" exactly when empty, "too short" exactly when non-empty and under 8 characters |
| SignUpPrototype.MismatchError | second-brain-website/src/app/sign_up_page.tsx:62-64 | an error exactly when the passwords differ |
| SignUpPrototype.TermsError | second-brain-website/src/app/sign_up_page.tsx:66-68 | an error exactly when the terms are not accepted |
| SignUpPrototype.Rank | second-brain-website/src/app/sign_up_page.tsx:43-68 | each error key has its place in the order `validateForm` fills it |
| SignUpPrototype.PartialHolds | second-brain-website/src/app/sign_up_page.tsx:43-68 | after the first n steps, exactly the failing rules among them have entries, each with its own message |
| SignUpPrototype.PartialAll | second-brain-website/src/app/sign_up_page.tsx:43-68 | after all five steps the map is the rules' error map |
| SignUpPrototype.Fill | second-brain-website/src/app/sign_up_page.tsx:44-68 | filling `newErrors` key by key gives exactly the rules' error map |
| SignUpPrototype.BuildErrors | second-brain-website/src/app/sign_up_page.tsx:43-69 | `validateForm`'s map is the rules' error map for the fields and the checkbox |
| SignUpPrototype.FormErrorsByKey | second-brain-website/src/app/sign_up_page.tsx:46-68 | each key holds exactly its own rule's error, independently of the others |
| SignUpPrototype.FormErrorsEmptyIffNoRuleFails | second-brain-website/src/app/sign_up_page.tsx:70-71 | the form is valid exactly when no rule fails |
| SignUpPrototype.FormErrorsHaveMessages | second-brain-website/src/app/sign_up_page.tsx:34-68 | every stored message is non-empty, so `errors[name]` is truthy exactly for its keys |
| SignUpPrototype.SignUpForm.constructor | second-brain-website/src/app/sign_up_page.tsx:18-26 | empty fields, no errors, terms unchecked, not loading |
| SignUpPrototype.SignUpForm.HandleChange | second-brain-website/src/app/sign_up_page.tsx:29-41 | only the named field changes, and only that field's error is deleted, when it holds a message |
| SignUpPrototype.SignUpForm.SetAcceptTerms | second-brain-website/src/app/sign_up_page.tsx:26 | the checkbox sets `acceptTerms` and nothing else |
| SignUpPrototype.SignUpForm.ValidateForm | second-brain-website/src/app/sign_up_page.tsx:43-72 | the error map is replaced wholesale by the rules' map, and the result is true exactly when it is empty |
| SignUpPrototype.SignUpForm.HandleSubmit | second-brain-website/src/app/sign_up_page.tsx:74-90 | an invalid form returns early without loading; a valid one starts loading and sets the redirect timeout |
| SignUpPrototype.SignUpForm.RedirectTimeout | second-brain-website/src/app/sign_up_page.tsx:84-89 | loading ends and the sign-in page opens |
| SignUpPage.FormData.With | second-brain-website/src/app/sign-up/page.tsx:28 | the named field changes and the other stays |
| SignUpPage.BuildErrors | second-brain-website/src/app/sign-up/page.tsx:40-52 | `newErrors` is exactly the name and email rules' map |
| SignUpPage.FormErrorsByKey | second-brain-website/src/app/sign-up/page.tsx:43-51 | only name and email are checked, each with its own rule; `api` is never set |
| SignUpPage.FormValidIff | second-brain-website/src/app/sign-up/page.tsx:40-55 | valid exactly when the name is not blank and the email matches the pattern |
| SignUpPage.ReplyErrors | second-brain-website/src/app/sign-up/page.tsx:78-89 | errors are replaced exactly when the answer is not OK or the call threw, by one non-empty `api` entry |
| SignUpPage.SignUpForm.constructor | second-brain-website/src/app/sign-up/page.tsx:18-24 | empty fields, no errors, not loading |
| SignUpPage.SignUpForm.HandleChange | second-brain-website/src/app/sign-up/page.tsx:26-38 | only the named field changes, and only that field's error is removed |
| SignUpPage.SignUpForm.ValidateForm | second-brain-website/src/app/sign-up/page.tsx:40-55 | the error map is replaced by the rules' map; true exactly when it is empty |
| SignUpPage.SignUpForm.HandleSubmit | second-brain-website/src/app/sign-up/page.tsx:57-76 | an invalid form makes no request and does not load; a valid one loads and posts name and email |
| SignUpPage.SignUpForm.ResponseArrives | second-brain-website/src/app/sign-up/page.tsx:78-89 | non-OK gives `{api: error \|\| "Failed to sign up"}`, a throw `{api: message \|\| "An unexpected error occurred"}`, OK navigates to `/`; loading ends on every path |
| ChatInterface.HistoryWithPrompt | second-brain-website/src/components/chat-interface.tsx:58 | the old history followed by `\nUser: <input>\nAI: ` |
| ChatInterface.HistoryWithReply | second-brain-website/src/components/chat-interface.tsx:89 | the sent history followed by `AI: <reply>` and a newline |
| ChatInterface.ExchangeRepeatsLabel | second-brain-website/src/components/chat-interface.tsx:58-89 | a full exchange writes `AI: AI: ` in front of the reply |
| ChatInterface.ErrorText | second-brain-website/src/components/chat-interface.tsx:95 | `Error: ` followed by the message |
| ChatInterface.ReplyMessage | second-brain-website/src/components/chat-interface.tsx:75-99 | an AI message: the reply on success, `Error: HTTP error! status: N` for a non-OK answer, `Error: <message>` for a throw |
| ChatInterface.Chat.constructor | second-brain-website/src/components/chat-interface.tsx:25-35 | one welcome message naming the mode, empty input and history, not typing |
| ChatInterface.Chat.SetInput | second-brain-website/src/components/chat-interface.tsx:33 | the input changes and nothing else |
| ChatInterface.Chat.HandleSend | second-brain-website/src/components/chat-interface.tsx:46-73 | blank input changes nothing; otherwise one user message with the untrimmed input, the history gains the prompt, the input clears, typing starts and one request is sent |
| ChatInterface.Chat.ResponseArrives | second-brain-website/src/components/chat-interface.tsx:75-102 | one AI message is appended; success sets the history to that request's history plus the reply, failure leaves it; typing ends |
| ChatInterface.Chat.HandleKeyDown | second-brain-website/src/components/chat-interface.tsx:105-110 | Enter without Shift on a non-blank input sends, with the same new messages, history, cleared input, indicator and request as `handleSend`; any other key, or Enter on a blank input, changes nothing |
| TextEditor.Without | second-brain-website/src/components/text-editor.tsx:60 | `filter(f => f !== format)`: no occurrence left, every other value kept, shorter when one was there |
| TextEditor.WithoutAppend | second-brain-website/src/components/text-editor.tsx:60 | filtering distributes over concatenation, so order is kept |
| TextEditor.WithoutAbsent | second-brain-website/src/components/text-editor.tsx:60 | filtering an absent value changes nothing |
| TextEditor.WithoutCounts | second-brain-website/src/components/text-editor.tsx:60 | filtering removes exactly the occurrences of the value |
| TextEditor.WithoutKeepsDistinct | second-brain-website/src/components/text-editor.tsx:60 | filtering keeps a list free of repeats |
| TextEditor.Toggle | second-brain-website/src/components/text-editor.tsx:56-64 | a selected format is removed everywhere; an unselected one is appended at the end; other formats' membership is unchanged |
| TextEditor.ToggleOffKeepsOthers | second-brain-website/src/components/text-editor.tsx:59-60 | deselecting keeps every other format's count and order |
| TextEditor.ToggleKeepsDistinct | second-brain-website/src/components/text-editor.tsx:59-63 | a toggle keeps the list free of repeats |
| TextEditor.ToggleTwiceRestores | second-brain-website/src/components/text-editor.tsx:59-63 | toggling an absent format twice restores the exact list |
| TextEditor.ToggleTwiceMovesToEnd | second-brain-website/src/components/text-editor.tsx:59-63 | toggling a present format twice in a repeat-free list moves it to the end |
| TextEditor.Editor.constructor | second-brain-website/src/components/text-editor.tsx:17-21 | empty content and formats, not complete, not loading |
| TextEditor.Editor.SetContent | second-brain-website/src/components/text-editor.tsx:105 | the content changes and nothing else |
| TextEditor.Editor.FormatText | second-brain-website/src/components/text-editor.tsx:56-64 | the selected formats become their toggle |
| TextEditor.Editor.Cancel | second-brain-website/src/components/text-editor.tsx:51-54 | content and formats are cleared |
| TextEditor.Editor.HandleSubmit | second-brain-website/src/components/text-editor.tsx:23-35 | blank content is a no-op; otherwise loading starts and the content is posted |
| TextEditor.Editor.ResponseArrives | second-brain-website/src/components/text-editor.tsx:37-48 | success clears the content and sets `isComplete`; failure keeps the content; loading ends; `isComplete` never goes back to false |
| ActionPanel.ProcessEnabledIff | second-brain-website/src/components/action-panel.tsx:147 | Process is enabled exactly when the trimmed instruction is non-empty and the panel is neither processing nor complete |
| ActionPanel.Panel.constructor | second-brain-website/src/components/action-panel.tsx:16-19 | action type `document`, empty instruction, flags off |
| ActionPanel.Panel.SetActionType | second-brain-website/src/components/action-panel.tsx:48 | the action type changes and nothing else |
| ActionPanel.Panel.SetInstruction | second-brain-website/src/components/action-panel.tsx:17 | the instruction changes and nothing else |
| ActionPanel.Panel.HandleSubmit | second-brain-website/src/components/action-panel.tsx:21-37 | processing starts exactly when the Process button was enabled (its `disabled` expression was false); a blank instruction changes nothing; otherwise processing starts and the first timeout is set; the action type is neither read nor changed |
| ActionPanel.Panel.ProcessTimeout | second-brain-website/src/components/action-panel.tsx:27-31 | processing ends, completion shows and the second timeout is set |
| ActionPanel.Panel.ResetTimeout | second-brain-website/src/components/action-panel.tsx:32-35 | completion ends and the instruction is cleared |
| FileUploader.NextProgressInRange | second-brain-website/src/components/file-uploader.tsx:51-59 | a tick keeps the progress a multiple of 5 in [0, 100] and never lowers it |
| FileUploader.ProgressAfterValue | second-brain-website/src/components/file-uploader.tsx:50-61 | after n ticks the progress is 5n, capped at 100 |
| FileUploader.ProgressMonotone | second-brain-website/src/components/file-uploader.tsx:51-59 | progress never decreases |
| FileUploader.ClearedOnTick21 | second-brain-website/src/components/file-uploader.tsx:52-58 | tick 20 reaches 100, and tick k clears the interval exactly when k is 21 or more |
| FileUploader.Uploader.constructor | second-brain-website/src/components/file-uploader.tsx:16-19 | type `document`, not dragging, not uploading, progress 0 |
| FileUploader.Uploader.DragOver | second-brain-website/src/components/file-uploader.tsx:21-24 | dragging turns on |
| FileUploader.Uploader.DragLeave | second-brain-website/src/components/file-uploader.tsx:26-28 | dragging turns off |
| FileUploader.Uploader.SimulateUpload | second-brain-website/src/components/file-uploader.tsx:46-50 | uploading starts at progress 0 with the interval running |
| FileUploader.Uploader.HandleDrop | second-brain-website/src/components/file-uploader.tsx:30-38 | dragging ends, and an upload starts exactly when at least one file came in |
| FileUploader.Uploader.HandleFileSelect | second-brain-website/src/components/file-uploader.tsx:40-44 | an upload starts exactly when a file list with at least one file came in |
| FileUploader.Uploader.Tick | second-brain-website/src/components/file-uploader.tsx:50-61 | below 100 progress rises by 5; at 100 it stays, the interval is cleared and the hiding timeout is set |
| FileUploader.Uploader.HideTimeout | second-brain-website/src/components/file-uploader.tsx:54-56 | the upload view closes |
| ConfigCli.Initial | cli/src/main.rs:11 | the stored configuration, or the default with no providers and an empty current provider (`Default` at cli/src/config.rs:11-18) |
| ConfigCli.Apply | cli/src/main.rs:13-31 | add records the provider under its name, replacing any earlier one; remove drops the name; set names the current provider unchecked; other commands change nothing; other names are untouched |
| ConfigCli.AddThenRemove | cli/src/main.rs:21-26 | removing a provider just added restores the other providers |
| ConfigCli.RemoveAbsentIsNoOp | cli/src/main.rs:24-26 | removing an absent name changes nothing |
| ConfigCli.AddTwiceKeepsLast | cli/src/main.rs:21-23 | the second add under a name wins |
| ConfigCli.SecondBrainConfig.constructor | cli/src/config.rs:5-9 | the struct's two fields, `providers` and `current_provider`, hold those of the given configuration |
| ConfigCli.SecondBrainConfig.Insert | cli/src/main.rs:22 | `providers.insert`: the name maps to the provider, the rest stays |
| ConfigCli.SecondBrainConfig.RemoveProvider | cli/src/main.rs:25 | `providers.remove`: the name is gone, the rest stays |
| ConfigCli.SecondBrainConfig.SetCurrent | cli/src/main.rs:28 | the current provider is set, the providers stay |
| ConfigCli.Run | cli/src/main.rs:9-36 | the configuration written back after every command is `Apply` of the initial one; `show` prints the initial configuration once |

## Left out

- Rendering (JSX), scrolling, icons, CSS and placeholder texts are not modelled. This includes the text editor's placeholder choice and the message ids and timestamps.
- The transport and platform services are abstract inputs and outcomes in the model: `fetch`, cookies, `process.env`, `getUserMedia`/`MediaRecorder`, the Whisper client, Flask's request object, `console.log` and `alert`. The alert is a recorded message.
- Timers and `async` code are explicit events applied one at a time. Each is guarded by the state that makes it possible, such as a pending timeout or an awaited answer. Interleavings of React state updates, and events after unmount, are not modelled. The recording component's unmount is modelled; after it, no event is accepted.
- Pages that block a handler through a disabled button have that handler declared with the matching `requires`:
  - the sign-up submit buttons while loading;
  - the editor's submit while loading;
  - the Process button while processing or complete;
  - the drop zone and file input while uploading;
  - Start outside the idle view.

  The chat's Send button is disabled while typing. Enter still calls `handleSend`, so several chat requests may be in flight at once. The model keeps them as a list.
- LiveRecording.Recording.StartOk and StartFail: these also require that no recorder-stop event is pending. The gap between `stop()` and `onstop` is not modelled.
- Strings are sequences of characters, not UTF-16 code units. `trim`/`strip`/`\s` use a fixed whitespace set (space, tab, newline, carriage return, form feed, vertical tab). Lower-casing is ASCII-only.
- ChatInterface: the messages' `id` and `timestamp`, the scroll-to-bottom effect and the Markdown rendering of replies are not modelled.
- TextEditor: `isSaving` is declared but never used by the component, so it is not a field. The server's answer text is read but unused, and is not modelled beyond "it could be read".
- FileUploader: `fileType` has no setter in the component, so it stays `"document"`. The progress bar is not modelled.
- Text.ParseInt: only ASCII digits are read. Python's `int()` also accepts the other Unicode decimal digits, such as `١٢`. A cookie written with them is a 500 in the model but an agent call in the source.
- SignUpRoute.RedirectIffNumericId: the backend's `id` is taken as an integer whose magnitude is below 2^53. The cookie text is `IntToString` of it. JavaScript prints any other number differently: `3.5` as `3.5`, `1e21` as `1e+21`. Larger integers are also rounded by `res.json()`. None of these are modelled.
- PromptApi.HandleUserPrompt, ChatRoute.Post, InfoRoute.Post and SignUpRoute.Post: each body is an object whose fields are strings or absent. Other JSON shapes are not modelled:
  - A body that is not an object, or a `prompt` that is not a string, raises in `api.py` and becomes Flask's 500.
  - A non-string `prompt` throws at `prompt.trim()` in the chat route and is caught as a 500.
  - The info route forwards any truthy `content` verbatim, and the sign-up route forwards non-string `name` and `email` verbatim.
- TranscribeRoute.Post: the `audio` part is taken to be a file. A string-valued `audio` part is not modelled. An empty string would give the 400 of a missing file; a non-empty one would be sent as its UTF-8 bytes with an empty MIME type. A file-valued `title` is modelled.
- PromptApi.HandleUserPrompt: `agent.prompt` does not exist in `second-brain-agent/src/agent.py`, which defines `send_agent_prompt`. The call is an abstract outcome whose returned value is ignored. A missing attribute at run time would simply be the `Raised` outcome.
- SystemPrompt: the template's fixed text is given to the lemmas as a value (any `Template`). `CreateSystemPrompt` fills in the literal one. The home directory path is a parameter.
- The agent module's MCP servers, LLM construction and `send_agent_prompt`, and the SQLite helpers, are outside this model.
- ConfigCli: TOML (de)serialisation, the XDG paths and the file system are not modelled. `show` is modelled as returning the configuration it would print. `cli/src/cli.rs` declares no `Config` subcommand although `cli/src/main.rs:17` matches on one. The model follows the dispatch `main.rs` intends. The `Store`, `Read` and `Talk` arms are empty in the source and change nothing.
- The upload route, the sign-in page, the dashboard, the home page, the layout and the recent-uploads list hold no logic beyond I/O plumbing or static data. They are not part of this model.
