/**
 * The chat panel (`chat-interface.tsx`): a list of messages that starts with a
 * welcome line, an input box, a typing indicator and the plain-text history
 * the chat route forwards to the agent.
 */
module ChatInterface {
  import opened Wrappers
  import opened Text
  import opened Http

  datatype Mode = Personal | Professional
  {
    function Name(): string {
      match this
      case Personal => "personal"
      case Professional => "professional"
    }
  }

  datatype Sender = UserSender | AiSender

  /** A chat bubble. A reply whose `response` field is absent has no content. */
  datatype Message = Message(sender: Sender, content: Option<string>)

  const WelcomeOpening := "Welcome to your "
  const WelcomeClosing := " Second Brain. I can answer questions about you, help you with tasks, surf the web, look up locations, search Airbnb, and much more. Just ask!"

  /** The first message of the panel, naming the mode. */
  function Welcome(mode: Mode): string {
    WelcomeOpening + mode.Name() + WelcomeClosing
  }

  /** The body posted to `/api/chat`: `{ prompt, history }`. */
  datatype ChatRequest = ChatRequest(prompt: string, history: string)

  /** How the `fetch` ended: an answer with a status and the `response` field
      of `response.json()` (which can throw), or a throw. */
  datatype ChatReply =
    | Answered(status: nat, response: Result<Option<string>, Thrown>)
    | Threw(e: Thrown)

  /** The history sent with a prompt: the old history, the user's line and an
      open `AI: ` line. */
  function HistoryWithPrompt(history: string, input: string): (r: string)
    ensures |r| == |history| + 7 + |input| + 5
    ensures r[..|history|] == history
    ensures r[|history|..] == "\nUser: " + input + "\nAI: "
  {
    history + "\nUser: " + input + "\nAI: "
  }

  /** The history after a reply: the history that was sent, followed by
      `AI: <reply>` and a newline. */
  function HistoryWithReply(sent: string, reply: Option<string>): (r: string)
    ensures |r| == |sent| + 4 + |Interpolated(reply)| + 1
    ensures r[..|sent|] == sent
    ensures r[|sent|..] == "AI: " + Interpolated(reply) + "\n"
  {
    sent + "AI: " + Interpolated(reply) + "\n"
  }

  /** A full exchange writes the `AI: ` label twice: once when the prompt is
      sent, and again in front of the reply. */
  lemma ExchangeRepeatsLabel(history: string, input: string, reply: string)
    ensures HistoryWithReply(HistoryWithPrompt(history, input), Some(reply))
         == history + "\nUser: " + input + "\nAI: AI: " + reply + "\n"
  {
    var sent := HistoryWithPrompt(history, input);
    var r := HistoryWithReply(sent, Some(reply));
    assert r == sent + ("AI: " + reply + "\n");
    assert sent == history + ("\nUser: " + input + "\nAI: ");
  }

  /** The message a failed exchange shows: `Error: ${error.message}`. */
  function ErrorText(e: Thrown): (t: string)
    ensures |t| == 7 + |Interpolated(e.Message())|
    ensures t[..7] == "Error: " && t[7..] == Interpolated(e.Message())
  {
    "Error: " + Interpolated(e.Message())
  }

  /** The AI bubble an answer adds, and whether the exchange succeeded. */
  function ReplyMessage(reply: ChatReply): (m: Message)
    ensures m.sender == AiSender
    ensures reply.Answered? && IsOk(reply.status) && reply.response.Success? ==> m.content == reply.response.value
    ensures reply.Answered? && !IsOk(reply.status) ==>
      m.content == Some(ErrorText(Error("HTTP error! status: " + NatToString(reply.status))))
    ensures reply.Answered? && IsOk(reply.status) && reply.response.Failure? ==>
      m.content == Some(ErrorText(reply.response.error))
    ensures reply.Threw? ==> m.content == Some(ErrorText(reply.e))
  {
    match reply
    case Threw(e) => Message(AiSender, Some(ErrorText(e)))
    case Answered(status, response) =>
      if !IsOk(status) then Message(AiSender, Some(ErrorText(Error("HTTP error! status: " + NatToString(status)))))
      else match response
        case Failure(e) => Message(AiSender, Some(ErrorText(e)))
        case Success(content) => Message(AiSender, content)
  }

  predicate Succeeded(reply: ChatReply) {
    reply.Answered? && IsOk(reply.status) && reply.response.Success?
  }

  class Chat {
    const mode: Mode
    /** The first message, shown before anything is sent. */
    const welcome: Message
    var messages: seq<Message>
    var input: string
    var isTyping: bool
    var history: string
    /** The requests whose answers are still awaited, each with the history it
        carried, which its own `finally` and success branch go on using. */
    var pending: seq<ChatRequest>
    /** Every request sent to `/api/chat`, in order. */
    var requests: seq<ChatRequest>

    /** The welcome message stays first, every answered request has added two
        messages and every pending one a single message, and the indicator is
        never on without a pending request. */
    ghost predicate Valid()
      reads this
    {
      |messages| >= 1 && messages[0] == welcome &&
      |messages| + |pending| == 1 + 2 * |requests| &&
      |pending| <= |requests| &&
      (isTyping ==> |pending| > 0)
    }

    constructor (mode: Mode)
      ensures Valid() && this.mode == mode && welcome == Message(AiSender, Some(Welcome(mode)))
      ensures messages == [welcome]
      ensures input == "" && !isTyping && history == "" && pending == [] && requests == []
    {
      this.mode := mode;
      welcome := Message(AiSender, Some(Welcome(mode)));
      messages := [welcome];
      input, isTyping, history := "", false, "";
      pending, requests := [], [];
    }

    /** The textarea's `onChange`. */
    method SetInput(value: string)
      requires Valid()
      modifies this
      ensures Valid() && input == value
      ensures messages == old(messages) && isTyping == old(isTyping) && history == old(history)
      ensures pending == old(pending) && requests == old(requests)
    {
      input := value;
    }

    /** `handleSend` up to the `fetch`: a blank input (`input.trim() === ""`,
        see `BlankIffTrimEmpty`) changes nothing; otherwise the untrimmed input
        becomes a user message, the history gains the prompt, the box is
        cleared, the indicator turns on and the request is sent. */
    method HandleSend() returns (sent: bool)
      requires Valid()
      modifies this
      ensures Valid()
      ensures sent <==> !IsBlank(old(input))
      ensures !sent ==> messages == old(messages) && input == old(input) && isTyping == old(isTyping) &&
                        history == old(history) && pending == old(pending) && requests == old(requests)
      ensures sent ==>
        var request := ChatRequest(old(input), HistoryWithPrompt(old(history), old(input)));
        messages == old(messages) + [Message(UserSender, Some(old(input)))] &&
        history == request.history && input == "" && isTyping &&
        pending == old(pending) + [request] && requests == old(requests) + [request]
    {
      if IsBlank(input) {
        return false;
      }
      var newHistory := HistoryWithPrompt(history, input);
      var request := ChatRequest(input, newHistory);
      messages := messages + [Message(UserSender, Some(input))];
      history := newHistory;
      input := "";
      isTyping := true;
      pending := pending + [request];
      requests := requests + [request];
      sent := true;
    }

    /** The rest of one `handleSend`, once its answer is in: one AI message is
        added; on success the history becomes the history that request sent
        followed by the reply, on failure it is left alone; the indicator turns
        off whether or not other requests are still pending. */
    method ResponseArrives(i: nat, reply: ChatReply)
      requires Valid() && i < |pending|
      modifies this
      ensures Valid() && !isTyping
      ensures messages == old(messages) + [ReplyMessage(reply)]
      ensures history == (if Succeeded(reply)
                          then HistoryWithReply(old(pending)[i].history, reply.response.value)
                          else old(history))
      ensures pending == old(pending)[..i] + old(pending)[i + 1..]
      ensures input == old(input) && requests == old(requests)
    {
      var request := pending[i];
      messages := messages + [ReplyMessage(reply)];
      if Succeeded(reply) {
        history := HistoryWithReply(request.history, reply.response.value);
      }
      isTyping := false;
      pending := pending[..i] + pending[i + 1..];
    }

    /** `handleKeyDown`: Enter without Shift is `handleSend`; any other key does nothing here. */
    method HandleKeyDown(key: string, shiftKey: bool) returns (sent: bool)
      requires Valid()
      modifies this
      ensures Valid()
      ensures sent <==> key == "Enter" && !shiftKey && !IsBlank(old(input))
      // another key, or Enter on a blank input, changes nothing
      ensures !sent ==>
        messages == old(messages) && input == old(input) && isTyping == old(isTyping) &&
        history == old(history) && pending == old(pending) && requests == old(requests)
      ensures sent ==>
        var request := ChatRequest(old(input), HistoryWithPrompt(old(history), old(input)));
        messages == old(messages) + [Message(UserSender, Some(old(input)))] &&
        history == request.history && input == "" && isTyping &&
        pending == old(pending) + [request] && requests == old(requests) + [request]
    {
      sent := false;
      if key == "Enter" && !shiftKey {
        sent := HandleSend();
      }
    }
  }
}
