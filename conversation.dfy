/**
 * The prompt of a chat request (`get_conversation_prompt`): the conversation template of
 * the requested model receives the system message, one turn per message whose role is
 * "human" or "ai", and a final open turn for the assistant; the template then renders
 * the prompt. Template lookup and rendering are abstract functions.
 */
module Conversation {
  import opened Wrappers

  /** One message of the request: its "role" and "text" keys. */
  datatype Message = Message(role: string, text: string)

  /** One turn of a conversation: a template role and its text, None for the open turn. */
  datatype Turn = Turn(role: string, text: Option<string>)

  /** A conversation template: its two roles (user first, assistant second) and its `get_prompt`. */
  datatype Template = Template(roles: (string, string), render: (string, seq<Turn>) -> string)

  /** The request keys the prompt is built from. */
  datatype ChatRequest = ChatRequest(modelIdentifier: string, systemMessage: string, messages: seq<Message>)

  /** The conversation object a template hands out, filled in place. */
  class Conversation {
    const roles: (string, string)
    const render: (string, seq<Turn>) -> string
    var systemMessage: string
    var turns: seq<Turn>

    constructor (t: Template)
      ensures roles == t.roles && render == t.render
      ensures systemMessage == "" && turns == []
    {
      roles, render := t.roles, t.render;
      systemMessage, turns := "", [];
    }

    method SetSystemMessage(m: string)
      modifies this`systemMessage
      ensures systemMessage == m
    {
      systemMessage := m;
    }

    method AppendMessage(role: string, text: Option<string>)
      modifies this`turns
      ensures turns == old(turns) + [Turn(role, text)]
    {
      turns := turns + [Turn(role, text)];
    }

    function GetPrompt(): string
      reads this
    {
      render(systemMessage, turns)
    }
  }

  /** The turns one message contributes: "human" and "ai" one each, any other role none. */
  function TurnsOf(roles: (string, string), m: Message): seq<Turn>
  {
    if m.role == "human" then [Turn(roles.0, Some(m.text))]
    else if m.role == "ai" then [Turn(roles.1, Some(m.text))]
    else []
  }

  /** The turns of all messages, in message order. */
  function MappedTurns(roles: (string, string), ms: seq<Message>): seq<Turn>
  {
    if ms == [] then [] else TurnsOf(roles, ms[0]) + MappedTurns(roles, ms[1..])
  }

  /** The turns the conversation holds when the prompt is rendered. */
  function ConversationTurns(roles: (string, string), ms: seq<Message>): seq<Turn>
  {
    MappedTurns(roles, ms) + [Turn(roles.1, None)]
  }

  /** The prompt `get_conversation_prompt` returns for a request. */
  function PromptFor(templates: string -> Template, req: ChatRequest): string
  {
    var t := templates(req.modelIdentifier);
    t.render(req.systemMessage, ConversationTurns(t.roles, req.messages))
  }

  /** `get_conversation_prompt`: fills a fresh conversation message by message, then renders it. */
  method GetConversationPrompt(templates: string -> Template, req: ChatRequest) returns (prompt: string)
    ensures prompt == PromptFor(templates, req)
  {
    var conv := new Conversation(templates(req.modelIdentifier));
    conv.SetSystemMessage(req.systemMessage);
    var i := 0;
    while i < |req.messages|
      invariant 0 <= i <= |req.messages|
      invariant conv.systemMessage == req.systemMessage
      invariant conv.turns == MappedTurns(conv.roles, req.messages[..i])
    {
      var m := req.messages[i];
      if m.role == "human" {
        conv.AppendMessage(conv.roles.0, Some(m.text));
      } else if m.role == "ai" {
        conv.AppendMessage(conv.roles.1, Some(m.text));
      }
      MappedTurnsSnoc(conv.roles, req.messages, i);
      i := i + 1;
    }
    assert req.messages[..i] == req.messages;
    conv.AppendMessage(conv.roles.1, None);
    prompt := conv.GetPrompt();
  }

  /** Mapping one more message appends that message's turns. */
  lemma {:induction false} MappedTurnsSnoc(roles: (string, string), ms: seq<Message>, i: nat)
    requires i < |ms|
    ensures MappedTurns(roles, ms[..i + 1]) == MappedTurns(roles, ms[..i]) + TurnsOf(roles, ms[i])
  {
    if i > 0 {
      assert ms[..i + 1][1..] == ms[1..][..i];
      assert ms[..i][1..] == ms[1..][..i - 1];
      MappedTurnsSnoc(roles, ms[1..], i - 1);
    } else {
      assert ms[..1][1..] == [];
    }
  }

  /** Every mapped turn carries one of the two template roles and a text. */
  lemma {:induction false} MappedTurnsWellFormed(roles: (string, string), ms: seq<Message>)
    ensures forall t :: t in MappedTurns(roles, ms) ==> (t.role == roles.0 || t.role == roles.1) && t.text.Some?
  {
    if ms != [] {
      MappedTurnsWellFormed(roles, ms[1..]);
    }
  }

  /** Mapping a concatenation maps each part in turn. */
  lemma {:induction false} MappedTurnsAppend(roles: (string, string), a: seq<Message>, b: seq<Message>)
    ensures MappedTurns(roles, a + b) == MappedTurns(roles, a) + MappedTurns(roles, b)
  {
    if a != [] {
      assert (a + b)[0] == a[0] && (a + b)[1..] == a[1..] + b;
      MappedTurnsAppend(roles, a[1..], b);
    } else {
      assert a + b == b;
    }
  }

  /** A message whose role is neither "human" nor "ai" is dropped, wherever it stands. */
  lemma OtherRolesDropped(roles: (string, string), a: seq<Message>, m: Message, b: seq<Message>)
    requires m.role != "human" && m.role != "ai"
    ensures MappedTurns(roles, a + [m] + b) == MappedTurns(roles, a + b)
  {
    MappedTurnsAppend(roles, a + [m], b);
    MappedTurnsAppend(roles, a, [m]);
    MappedTurnsAppend(roles, a, b);
    assert MappedTurns(roles, [m]) == TurnsOf(roles, m) + MappedTurns(roles, []);
  }

  /** When every message is from "human" or "ai", turn i is message i under its template role. */
  lemma {:induction false} ChatMapsOneToOne(roles: (string, string), ms: seq<Message>)
    requires forall i :: 0 <= i < |ms| ==> ms[i].role == "human" || ms[i].role == "ai"
    ensures |MappedTurns(roles, ms)| == |ms|
    ensures forall i :: 0 <= i < |ms| ==>
      MappedTurns(roles, ms)[i] == Turn(if ms[i].role == "human" then roles.0 else roles.1, Some(ms[i].text))
  {
    if ms != [] {
      ChatMapsOneToOne(roles, ms[1..]);
      var rest := MappedTurns(roles, ms[1..]);
      forall i | 1 <= i < |ms|
        ensures MappedTurns(roles, ms)[i] == Turn(if ms[i].role == "human" then roles.0 else roles.1, Some(ms[i].text))
      {
        assert MappedTurns(roles, ms)[i] == rest[i - 1];
        assert ms[1..][i - 1] == ms[i];
      }
    }
  }

  /** The conversation always ends with the assistant's open turn. */
  lemma EndsWithOpenAssistantTurn(roles: (string, string), ms: seq<Message>)
    ensures var ts := ConversationTurns(roles, ms);
      |ts| >= 1 && ts[|ts| - 1] == Turn(roles.1, None)
  {
  }
}
