/** The strings `shell_mode` splices together (chatgpt.c:345-350, 395-396, 475-488, 499-501):
    message objects, the conversation fragment and the request body, and the transcript of
    turns they render. */
module Conversation {
  import opened Wrappers
  import opened Escaping
  import opened Text

  // The request body is Prompt1 + model + Prompt2 + system fragment + conversation + Prompt3.
  const Prompt1: string := "{\"model\": \""
  const Prompt2: string := "\", \"messages\": ["
  const Prompt3: string := "]}"

  const SystemOpen: string := "{\"role\": \"system\", \"content\": \""
  const UserOpen: string := "{\"role\": \"user\", \"content\": \""
  const AssistantObjectOpen: string := "{\"role\": \"assistant\", \"content\": \""
  const ObjectClose: string := "\"}"
  const SystemClose: string := ObjectClose + ","         // "\"},"
  const AssistantOpen: string := "," + AssistantObjectOpen

  /** `prompt_system` after `/system <prompt>` (chatgpt.c:395-396): a system object with the
      escaped prompt, followed by a comma. */
  function SystemFragment(prompt: string): string
  {
    SystemOpen + Escape(prompt) + SystemClose
  }

  /** `conversation` after the user's `text` is appended (chatgpt.c:475-479): a comma when the
      conversation was not empty, then the user object with the escaped text. */
  function WithUser(conversation: string, text: string): string
  {
    (if conversation != "" then conversation + "," else conversation) + UserOpen + Escape(text) + ObjectClose
  }

  /** `conversation` after the assistant's `reply` is appended (chatgpt.c:499-501). */
  function WithAssistant(conversation: string, reply: string): string
  {
    conversation + AssistantOpen + Escape(reply) + ObjectClose
  }

  /** The request body (chatgpt.c:481-488); the system fragment is added only when set. */
  function RequestBody(model: string, promptSystem: string, conversation: string): string
  {
    Prompt1 + model + Prompt2 + (if promptSystem != "" then promptSystem else "") + conversation + Prompt3
  }

  /** The transcript view: each message of a request is one turn. */
  datatype Role = SystemRole | UserRole | AssistantRole
  datatype Turn = Turn(role: Role, content: string)

  /** The start of a message object up to its content: `{"role": "<role>", "content": "`. */
  function RoleOpen(role: Role): string
  {
    match role
    case SystemRole => SystemOpen
    case UserRole => UserOpen
    case AssistantRole => AssistantObjectOpen
  }

  /** The JSON object of one message, with its content escaped. It is never empty, which is
      what lets `Render` tell an empty transcript from a non-empty one. */
  function Message(t: Turn): (r: string)
    ensures |r| > 0
  {
    RoleOpen(t.role) + Escape(t.content) + ObjectClose
  }

  /** The messages of `turns`, in order, separated by commas. */
  function Render(turns: seq<Turn>): (r: string)
    ensures r == "" <==> turns == []
  {
    if turns == [] then ""
    else if |turns| == 1 then Message(turns[0])
    else Render(turns[..|turns| - 1]) + "," + Message(turns[|turns| - 1])
  }

  /** The system prompt, if any, as the list of turns it contributes. */
  function SystemTurns(system: Option<string>): seq<Turn>
  {
    match system
    case None => []
    case Some(p) => [Turn(SystemRole, p)]
  }

  /** `prompt_system` as it holds the system prompt `system`, if any. */
  function SystemPrompt(system: Option<string>): string
  {
    match system
    case None => ""
    case Some(p) => SystemFragment(p)
  }

  /** Appending a turn to the transcript appends a comma (unless it was empty) and its message. */
  lemma RenderAppend(turns: seq<Turn>, t: Turn)
    ensures Render(turns + [t]) == (if turns == [] then "" else Render(turns) + ",") + Message(t)
  {
    assert (turns + [t])[..|turns|] == turns;
  }

  /** The user object the shell appends is the message of a user turn, so the conversation
      stays the rendering of the transcript. */
  lemma WithUserRenders(turns: seq<Turn>, text: string)
    ensures WithUser(Render(turns), text) == Render(turns + [Turn(UserRole, text)])
  {
    RenderAppend(turns, Turn(UserRole, text));
  }

  /** Likewise for the assistant object appended after a reply. */
  lemma WithAssistantRenders(turns: seq<Turn>, reply: string)
    requires turns != []
    ensures WithAssistant(Render(turns), reply) == Render(turns + [Turn(AssistantRole, reply)])
  {
    var t := Turn(AssistantRole, reply);
    RenderAppend(turns, t);
    var r, e := Render(turns), Escape(reply);
    ConcatAssoc(r, ",", AssistantObjectOpen);
    ConcatAssoc(r + ",", AssistantObjectOpen, e);
    ConcatAssoc(r + ",", AssistantObjectOpen + e, ObjectClose);
  }

  /** A turn put in front of a non-empty transcript is followed by a comma. */
  lemma {:induction false} RenderPrepend(t: Turn, turns: seq<Turn>)
    requires turns != []
    ensures Render([t] + turns) == Message(t) + "," + Render(turns)
    decreases |turns|
  {
    var init, last := turns[..|turns| - 1], turns[|turns| - 1];
    assert turns == init + [last];
    if init != [] {
      RenderPrepend(t, init);
      RenderPrependStep(t, init, last);
    } else {
      assert [t] + turns == [t, last];
      assert Render([t, last]) == Render([t]) + "," + Message(last) by {
        assert [t, last][..1] == [t];
      }
    }
  }

  /** The inductive step of `RenderPrepend`: appending `last` on both sides. */
  lemma RenderPrependStep(t: Turn, init: seq<Turn>, last: Turn)
    requires init != []
    requires Render([t] + init) == Message(t) + "," + Render(init)
    ensures Render([t] + (init + [last])) == Message(t) + "," + Render(init + [last])
  {
    assert [t] + (init + [last]) == ([t] + init) + [last];
    RenderAppend([t] + init, last);
    RenderAppend(init, last);
    var m, r, l := Message(t), Render(init), Message(last);
    ConcatAssoc(m + ",", r, ",");
    ConcatAssoc(m + ",", r + ",", l);
  }

  /** The request body lists the system turn first, when there is one, then the transcript
      in order: the messages array of the body is exactly the rendering of those turns. */
  lemma RequestBodyMessages(model: string, system: Option<string>, turns: seq<Turn>)
    requires turns != []
    ensures RequestBody(model, SystemPrompt(system), Render(turns)) ==
      Prompt1 + model + Prompt2 + Render(SystemTurns(system) + turns) + Prompt3
  {
    var head := Prompt1 + model + Prompt2;
    match system
    case None =>
      assert SystemTurns(system) + turns == turns;
      assert head + "" == head;
    case Some(p) =>
      var sys := Turn(SystemRole, p);
      RenderPrepend(sys, turns);
      ConcatAssoc(SystemOpen + Escape(p), ObjectClose, ",");
      assert SystemFragment(p) == Message(sys) + ",";
      ConcatAssoc(head, SystemFragment(p), Render(turns));
      assert Render(SystemTurns(system) + turns) == SystemFragment(p) + Render(turns);
  }
}
