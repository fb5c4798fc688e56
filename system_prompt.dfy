/**
 * The agent's system prompt (`create_system_prompt`): a fixed template with
 * four holes, the database path, the user id, the current chat and the user's
 * input.
 */
module SystemPrompt {
  import opened Wrappers
  import opened Text
  import opened Http

  /** The sentence used when there is no history. */
  const NoHistory := "The user has no previous chat history. This is the first chat."

  /** The frame a truthy history is put in. */
  const HistoryFrame := "\nYou and the user, in this current chat, have the following previous messages:\n\n"

  /** The "Current Chat" section: a truthy history inside a fixed frame, otherwise `NoHistory`. */
  function CurrentChatContent(history: Option<string>): (r: string)
    ensures Truthy(history) ==> r == HistoryFrame + history.value + "\n"
    ensures !Truthy(history) ==> r == NoHistory
  {
    if Truthy(history) then HistoryFrame + history.value + "\n" else NoHistory
  }

  /** The template up to the database path. */
  const Head :=
    "\n"
    + "## Context\n"
    + "\n"
    + "You are Second Brain, a sidekick agent that learns the user's preferences and habits over time. You learn from their\n"
    + "meetings, notes, and other interactions. You can also use the following tools to help the user:\n"
    + "- **fetch**: Fetch data from the web.\n"
    + "- **airbnb**: Search for Airbnb listings.\n"
    + "- **googlemaps**: Search for places and get directions.\n"
    + "- **datetime**: Get the current date and time.\n"
    + "- **sqlite**: Query the SQLite database.\n"
    + "\n"
    + "### SQLite Database\n"
    + "\n"
    + "The SQLite database is located at "

  /** From the database path to the user id. */
  const BeforeUserId :=
    ".\n"
    + "You can ONLY query the database using SQL. You cannot modify it.\n"
    + "This database is the CORE of your knowledge. All of the user's knowledge is stored here and is associated with the user_id.\n"
    + "In this case, the user_id is \""

  /** From the user id to the current chat. */
  const BeforeChat :=
    "\".\n"
    + "The database has these tables with these schemas:\n"
    + "\n"
    + "#### users\n"
    + "- `user_id`: The user's ID.\n"
    + "- `name`: The user's name.\n"
    + "- `email`: The user's email address.\n"
    + "\n"
    + "### information\n"
    + "- `info_id`: The information's ID.\n"
    + "- `fk_user_id`: The user's ID. Foreign key to the users table.\n"
    + "- `content`: The information's content.\n"
    + "- `created_at`: The date and time the note was created.\n"
    + "\n"
    + "## Current Chat\n"
    + "\n"

  /** From the current chat to the user's input. */
  const BeforeInput :=
    "\n"
    + "\n"
    + "## Task\n"
    + "\n"
    + "The user has asked you to do the following:\n"
    + "\n"

  /** After the user's input. */
  const Tail :=
    "\n"
    + "\n"
    + "## Instructions\n"
    + "\n"
    + "You are a helpful assistant. You will respond to the user in a friendly and informative manner.\n"
    + "You will use the tools provided to you to help the user.\n"
    + "You will query the SQLite database across the information table to find relevant information.\n"
    + "Even for queries that are not directly related to the user, you will use the information in the database to help you form better responses.\n"
    + "For example, if the user asks you about a specific topic, you will check the database to see if there is any relevant information stored there, like opinions or preferences they have.\n"
    + "You will use the information you find to help the user.\n"

  /** The fixed text of a template, piece by piece, around its four holes. */
  datatype Template = Template(head: string, beforeUserId: string, beforeChat: string,
                               beforeInput: string, tail: string)

  /** The agent's template. */
  const AgentTemplate := Template(Head, BeforeUserId, BeforeChat, BeforeInput, Tail)

  /** A template with its holes filled: the database path, the user id, the
      current chat section and the user's input. */
  function Render(t: Template, userId: int, history: Option<string>, userInput: string, dbPath: string): (r: string)
    ensures |r| == |t.head| + |dbPath| + |t.beforeUserId| + |IntToString(userId)| + |t.beforeChat| +
                   |CurrentChatContent(history)| + |t.beforeInput| + |userInput| + |t.tail|
    ensures r[..|t.head|] == t.head && r[|r| - |t.tail|..] == t.tail
    ensures OccursAt(userInput, r, |r| - |t.tail| - |userInput|)
    ensures EndsWithInput(t, userInput, r)
  {
    Fill(t.head, dbPath, t.beforeUserId, IntToString(userId), t.beforeChat, CurrentChatContent(history),
         t.beforeInput, userInput, t.tail)
  }

  /** The rendered text ends with the user's input followed by the template's
      closing text. */
  predicate EndsWithInput(t: Template, userInput: string, r: string) {
    |r| >= |userInput| + |t.tail| && OccursAt(userInput, r, |r| - |t.tail| - |userInput|) &&
    r[|r| - |t.tail|..] == t.tail
  }

  /** The prompt. `dbPath` is `str(Path.home().joinpath("test.db"))`. */
  function CreateSystemPrompt(userId: int, history: Option<string>, userInput: string, dbPath: string): (r: string)
    ensures EndsWithInput(AgentTemplate, userInput, r)
  {
    Render(AgentTemplate, userId, history, userInput, dbPath)
  }

  /** The template's shape: fixed pieces `f0`..`f4` around the holes `h1`..`h4`. */
  function Fill(f0: string, h1: string, f1: string, h2: string, f2: string, h3: string,
                f3: string, h4: string, f4: string): (r: string)
    ensures |r| == |f0| + |h1| + |f1| + |h2| + |f2| + |h3| + |f3| + |h4| + |f4|
    ensures r[..|f0|] == f0 && r[|r| - |f4|..] == f4
    ensures OccursAt(h4, r, |r| - |f4| - |h4|)
  {
    OccursInMiddle(f0 + h1 + f1 + h2 + f2 + h3 + f3, h4, f4);
    f0 + h1 + f1 + h2 + f2 + h3 + f3 + h4 + f4
  }

  /** Whether `part` occurs in `s` at offset `k`. */
  predicate OccursAt(part: string, s: string, k: nat) {
    k + |part| <= |s| && s[k..k + |part|] == part
  }

  /** The middle piece of a concatenation occurs right after the first. */
  lemma OccursInMiddle(p: string, x: string, q: string)
    ensures OccursAt(x, p + x + q, |p|)
  {
    assert (p + x + q)[|p|..|p| + |x|] == x;
  }

  /** Each hole of the template holds its argument verbatim, between the fixed
      pieces around it, at the offset the pieces before it add up to. */
  lemma {:induction false} HolesHoldArguments(f0: string, h1: string, f1: string, h2: string, f2: string, h3: string,
                                              f3: string, h4: string, f4: string)
    ensures var r := Fill(f0, h1, f1, h2, f2, h3, f3, h4, f4);
      var o1 := |f0|;
      var o2 := o1 + |h1| + |f1|;
      var o3 := o2 + |h2| + |f2|;
      var o4 := o3 + |h3| + |f3|;
      OccursAt(h1, r, o1) && OccursAt(f1, r, o1 + |h1|) &&
      OccursAt(h2, r, o2) && OccursAt(f2, r, o2 + |h2|) &&
      OccursAt(h3, r, o3) && OccursAt(f3, r, o3 + |h3|) &&
      OccursAt(h4, r, o4) && OccursAt(f4, r, o4 + |h4|) && |r| == o4 + |h4| + |f4|
  {
    OccursInMiddle(f0, h1, f1 + h2 + f2 + h3 + f3 + h4 + f4);
    OccursInMiddle(f0 + h1, f1, h2 + f2 + h3 + f3 + h4 + f4);
    OccursInMiddle(f0 + h1 + f1, h2, f2 + h3 + f3 + h4 + f4);
    OccursInMiddle(f0 + h1 + f1 + h2, f2, h3 + f3 + h4 + f4);
    OccursInMiddle(f0 + h1 + f1 + h2 + f2, h3, f3 + h4 + f4);
    OccursInMiddle(f0 + h1 + f1 + h2 + f2 + h3, f3, h4 + f4);
    OccursInMiddle(f0 + h1 + f1 + h2 + f2 + h3 + f3, h4, f4);
    OccursInMiddle(f0 + h1 + f1 + h2 + f2 + h3 + f3 + h4, f4, "");
  }

  /** The database path, the user id and the user's input appear verbatim in the
      rendered prompt, each right after the fixed text that introduces it, and the
      prompt ends with the template's closing text. */
  lemma ArgumentsAppearVerbatim(t: Template, userId: int, history: Option<string>, userInput: string, dbPath: string)
    ensures var r := Render(t, userId, history, userInput, dbPath);
      var o2 := |t.head| + |dbPath| + |t.beforeUserId|;
      var o4 := o2 + |IntToString(userId)| + |t.beforeChat| + |CurrentChatContent(history)| + |t.beforeInput|;
      r[..|t.head|] == t.head && OccursAt(dbPath, r, |t.head|) &&
      OccursAt(t.beforeUserId, r, |t.head| + |dbPath|) && OccursAt(IntToString(userId), r, o2) &&
      OccursAt(t.beforeInput, r, o4 - |t.beforeInput|) && OccursAt(userInput, r, o4) &&
      OccursAt(t.tail, r, o4 + |userInput|) && |r| == o4 + |userInput| + |t.tail|
  {
    var r := Render(t, userId, history, userInput, dbPath);
    HolesHoldArguments(t.head, dbPath, t.beforeUserId, IntToString(userId), t.beforeChat, CurrentChatContent(history),
                       t.beforeInput, userInput, t.tail);
    assert r[..|t.head|] == t.head;
  }

  /** A truthy history appears verbatim inside the "previous messages" frame; no
      history, or an empty one, gives the fixed sentence in the same place. */
  lemma HistoryAppearsVerbatim(t: Template, userId: int, history: Option<string>, userInput: string, dbPath: string)
    ensures var r := Render(t, userId, history, userInput, dbPath);
      var o3 := |t.head| + |dbPath| + |t.beforeUserId| + |IntToString(userId)| + |t.beforeChat|;
      (Truthy(history) ==> OccursAt(HistoryFrame, r, o3) && OccursAt(history.value, r, o3 + |HistoryFrame|)) &&
      (!Truthy(history) ==> OccursAt(NoHistory, r, o3))
  {
    var chat := CurrentChatContent(history);
    HolesHoldArguments(t.head, dbPath, t.beforeUserId, IntToString(userId), t.beforeChat, chat,
                       t.beforeInput, userInput, t.tail);
    if Truthy(history) {
      OccursInMiddle(HistoryFrame, history.value, "\n");
    }
  }

  /** Two prompts with the same user id, history and path but different inputs
      differ: the template does not swallow the input. */
  lemma DistinctInputsGiveDistinctPrompts(t: Template, userId: int, history: Option<string>, a: string, b: string,
                                          dbPath: string)
    requires a != b
    ensures Render(t, userId, history, a, dbPath) != Render(t, userId, history, b, dbPath)
  {
    var p := t.head + dbPath + t.beforeUserId + IntToString(userId) + t.beforeChat + CurrentChatContent(history)
      + t.beforeInput;
    var ra := Render(t, userId, history, a, dbPath);
    var rb := Render(t, userId, history, b, dbPath);
    if |a| != |b| {
      assert |ra| == |p| + |a| + |t.tail| && |rb| == |p| + |b| + |t.tail|;
    } else {
      OccursInMiddle(p, a, t.tail);
      OccursInMiddle(p, b, t.tail);
    }
  }
}
