/**
 * The conversation history each pipeline keeps at module level
 * (`chat_history` in rag_kernel.py, `_message_history` in rag_slm.py and
 * rag_chain.py): an append-only list of role/content messages that can be
 * cleared, read back, and rendered into a prompt.
 */
module Conversation {
  import opened Text

  datatype Role = User | Assistant

  /** The role as stored: `AuthorRole.USER.value` / `"user"` and
      `AuthorRole.ASSISTANT.value` / `"assistant"`. */
  function RoleName(r: Role): string
  {
    match r
    case User => "user"
    case Assistant => "assistant"
  }

  datatype Message = Message(role: Role, content: string)

  /** One module-level history list. */
  class ChatLog {
    var messages: seq<Message>

    constructor ()
      ensures messages == []
    {
      messages := [];
    }

    /** `add_message` / `append`. */
    method Add(m: Message)
      modifies this
      ensures messages == old(messages) + [m]
    {
      messages := messages + [m];
    }

    /** `clear_sk_memory` / `clear_chat_memory`. */
    method Clear()
      modifies this
      ensures messages == []
    {
      messages := [];
    }

    /** `get_chat_history`: the messages in order, as a value of their own, so
        later additions do not change a list already handed out. */
    method History() returns (h: seq<Message>)
      ensures h == messages
    {
      h := messages;
    }
  }

  /** `f"{msg.role.value}: {msg.content}"`, the line rag_kernel.py builds. */
  function PlainLine(m: Message): string
  {
    RoleName(m.role) + ": " + m.content
  }

  /** `f"{msg['role'].capitalize()}: {msg['content']}"`, the line of
      `format_history` in rag_slm.py and rag_chain.py. */
  function CapitalLine(m: Message): string
  {
    Capitalize(RoleName(m.role)) + ": " + m.content
  }

  /** The history text of `run_query_pipeline`. */
  function Transcript(msgs: seq<Message>): string
  {
    Join("\n", seq(|msgs|, i requires 0 <= i < |msgs| => PlainLine(msgs[i])))
  }

  /** `format_history()`. */
  function FormatHistory(msgs: seq<Message>): string
  {
    Join("\n", seq(|msgs|, i requires 0 <= i < |msgs| => CapitalLine(msgs[i])))
  }

  /** Joining one more part adds the separator and the part at the end. */
  lemma {:induction false} JoinAppend(sep: string, parts: seq<string>, p: string)
    ensures Join(sep, parts + [p]) == if parts == [] then p else Join(sep, parts) + sep + p
  {
    if |parts| == 1 {
      assert parts + [p] == [parts[0], p];
      assert [parts[0], p][1..] == [p];
    } else if |parts| > 1 {
      assert (parts + [p])[1..] == parts[1..] + [p];
      JoinAppend(sep, parts[1..], p);
    }
  }

  /** Rendering the history after one more message adds exactly one line at
      the end, in the message's order. */
  lemma FormatHistoryAppend(msgs: seq<Message>, m: Message)
    ensures FormatHistory(msgs + [m]) ==
      if msgs == [] then CapitalLine(m) else FormatHistory(msgs) + "\n" + CapitalLine(m)
    ensures Transcript(msgs + [m]) ==
      if msgs == [] then PlainLine(m) else Transcript(msgs) + "\n" + PlainLine(m)
  {
    var n := msgs + [m];
    var caps := seq(|msgs|, i requires 0 <= i < |msgs| => CapitalLine(msgs[i]));
    assert seq(|n|, i requires 0 <= i < |n| => CapitalLine(n[i])) == caps + [CapitalLine(m)];
    JoinAppend("\n", caps, CapitalLine(m));
    var plain := seq(|msgs|, i requires 0 <= i < |msgs| => PlainLine(msgs[i]));
    assert seq(|n|, i requires 0 <= i < |n| => PlainLine(n[i])) == plain + [PlainLine(m)];
    JoinAppend("\n", plain, PlainLine(m));
  }

  /** A history built from whole query turns: user and assistant messages
      alternate, starting with the user. */
  ghost predicate Alternating(msgs: seq<Message>)
  {
    |msgs| % 2 == 0 &&
    forall i :: 0 <= i < |msgs| ==> msgs[i].role == if i % 2 == 0 then User else Assistant
  }

  /** One query turn appends the user's message and then the answer. */
  function Turn(query: string, answer: string): (t: seq<Message>)
    ensures |t| == 2 && t[0].role == User && t[1].role == Assistant
  {
    [Message(User, query), Message(Assistant, answer)]
  }

  /** Every turn keeps the history alternating. */
  lemma TurnKeepsAlternation(msgs: seq<Message>, query: string, answer: string)
    requires Alternating(msgs)
    ensures Alternating(msgs + Turn(query, answer))
  {
    var n := msgs + Turn(query, answer);
    forall i | 0 <= i < |n|
      ensures n[i].role == if i % 2 == 0 then User else Assistant
    {
      if i >= |msgs| {
        assert i == |msgs| || i == |msgs| + 1;
      }
    }
  }
}
