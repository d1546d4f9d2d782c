/** The conversation history: a mutable list of role/content messages with
    append, "update the last assistant message", a windowed copy and a text
    rendering. The clock behind the default system prompt is a parameter. */
module History {
  import opened Wrappers
  import Py

  datatype Message = Message(role: string, content: string)

  /** A Python list of messages: an object, so that a list handed to the
      constructor is the very list the manager then appends to. */
  class MessageList {
    var items: seq<Message>

    constructor (items: seq<Message>)
      ensures this.items == items
    {
      this.items := items;
    }
  }

  class HistoryManager {
    const messages: MessageList

    /** HistoryManager(history, system_prompt): keeps a non-empty `history`
        list itself (a falsy one is replaced by a new []) and appends one system
        message, `system_prompt` or else the time prompt. */
    constructor (history: MessageList?, systemPrompt: string, timePrompt: string)
      modifies history
      ensures history != null && |old(history.items)| > 0 ==> messages == history
      ensures history == null || |old(history.items)| == 0 ==> fresh(messages)
      ensures messages.items ==
                (if history != null && |old(history.items)| > 0 then old(history.items) else [])
                + [Message("system", if systemPrompt != "" then systemPrompt else timePrompt)]
    {
      if history != null && |history.items| > 0 {
        messages := history;
      } else {
        messages := new MessageList([]);
      }
      new;
      var prompt := if systemPrompt != "" then systemPrompt else timePrompt;
      messages.items := messages.items + [Message("system", prompt)];
    }

    /** add(role, content): appends one message and returns the list. */
    method Add(role: string, content: string) returns (r: MessageList)
      modifies messages
      ensures r == messages
      ensures messages.items == old(messages.items) + [Message(role, content)]
    {
      messages.items := messages.items + [Message(role, content)];
      r := messages;
    }

    method AddUser(content: string) returns (r: MessageList)
      modifies messages
      ensures r == messages
      ensures messages.items == old(messages.items) + [Message("user", content)]
    {
      r := Add("user", content);
    }

    method AddSystem(content: string) returns (r: MessageList)
      modifies messages
      ensures r == messages
      ensures messages.items == old(messages.items) + [Message("system", content)]
    {
      r := Add("system", content);
    }

    method AddAi(content: string) returns (r: MessageList)
      modifies messages
      ensures r == messages
      ensures messages.items == old(messages.items) + [Message("assistant", content)]
    {
      r := Add("assistant", content);
    }

    /** update_ai(content): overwrite the last message's content when it is an
        assistant message, otherwise append an assistant message. On an empty
        list `messages[-1]` raises IndexError. */
    method UpdateAi(content: string) returns (r: Result<MessageList>)
      modifies messages
      ensures old(messages.items) == [] ==> r == Failure(IndexError) && messages.items == []
      ensures old(messages.items) != [] ==> r == Success(messages)
      ensures old(messages.items) != [] && old(messages.items)[|old(messages.items)| - 1].role == "assistant" ==>
                messages.items == old(messages.items)[|old(messages.items)| - 1 := Message("assistant", content)]
      ensures old(messages.items) != [] && old(messages.items)[|old(messages.items)| - 1].role != "assistant" ==>
                messages.items == old(messages.items) + [Message("assistant", content)]
    {
      var items := messages.items;
      if |items| == 0 {
        return Failure(IndexError);
      }
      if items[|items| - 1].role == "assistant" {
        messages.items := items[|items| - 1 := items[|items| - 1].(content := content)];
        return Success(messages);
      } else {
        var _ := AddAi(content);
        return Success(messages);
      }
    }

    /** get_history_with_msg(msg, role, max_rounds): a copy of the history, or
        of its slice [-(2*max_rounds):], with the new message appended; the
        history itself is left as it is. */
    method HistoryWithMsg(msg: string, role: string, maxRounds: Option<int>) returns (h: seq<Message>)
      ensures |h| >= 1 && h[|h| - 1] == Message(role, msg)
      ensures maxRounds.None? ==> h == messages.items + [Message(role, msg)]
      ensures maxRounds.Some? && maxRounds.value == 0 ==> h == messages.items + [Message(role, msg)]
      ensures maxRounds.Some? && maxRounds.value > 0 ==>
                var keep := if 2 * maxRounds.value <= |messages.items| then 2 * maxRounds.value else |messages.items|;
                h == messages.items[|messages.items| - keep..] + [Message(role, msg)]
      ensures maxRounds.Some? && maxRounds.value < 0 ==>
                var drop := if -2 * maxRounds.value <= |messages.items| then -2 * maxRounds.value else |messages.items|;
                h == messages.items[drop..] + [Message(role, msg)]
    {
      var history: seq<Message>;
      if maxRounds.None? {
        history := messages.items;
      } else {
        history := Py.SliceFrom(messages.items, -(2 * maxRounds.value));
      }
      h := history + [Message(role, msg)];
    }

    /** __str__: one "\n{role}: {content}" per message, newlines in the content
        turned into spaces. */
    method ToString() returns (s: string)
      ensures s == Render(messages.items)
    {
      s := "";
      var i := 0;
      while i < |messages.items|
        invariant 0 <= i <= |messages.items|
        invariant s == Render(messages.items[..i])
      {
        var m := messages.items[i];
        RenderAppend(messages.items[..i], m);
        assert messages.items[..i + 1] == messages.items[..i] + [m];
        s := s + "\n" + m.role + ": " + Py.Replace(m.content, "\n", " ");
        i := i + 1;
      }
      assert messages.items[..i] == messages.items;
    }
  }

  /** The line __str__ writes for a message, without its leading newline. */
  function Line(m: Message): string {
    m.role + ": " + Py.Replace(m.content, "\n", " ")
  }

  function Render(ms: seq<Message>): string {
    if ms == [] then "" else Render(ms[..|ms| - 1]) + "\n" + Line(ms[|ms| - 1])
  }

  lemma RenderAppend(ms: seq<Message>, m: Message)
    ensures Render(ms + [m]) == Render(ms) + "\n" + m.role + ": " + Py.Replace(m.content, "\n", " ")
  {
    assert (ms + [m])[..|ms|] == ms;
  }

  function Lines(ms: seq<Message>): (r: seq<string>)
    ensures |r| == |ms| && forall i :: 0 <= i < |ms| ==> r[i] == Line(ms[i])
  {
    seq(|ms|, i requires 0 <= i < |ms| => Line(ms[i]))
  }

  lemma {:induction false} RenderJoin(ms: seq<Message>)
    ensures Render(ms) == Py.Join([""] + Lines(ms), "\n")
  {
    if ms != [] {
      var init := ms[..|ms| - 1];
      RenderJoin(init);
      var parts := [""] + Lines(ms);
      Py.JoinSplitLast(parts, "\n");
      assert parts[..|parts| - 1] == [""] + Lines(init);
    }
  }

  lemma LineNoNewline(m: Message)
    requires '\n' !in m.role
    ensures '\n' !in Line(m)
  {
    var rc := Py.Replace(m.content, "\n", " ");
    Py.ReplaceChar(m.content, '\n', ' ');
    assert '\n' !in rc by {
      forall k | 0 <= k < |rc| ensures rc[k] != '\n' { }
    }
    assert Line(m) == m.role + ": " + rc;
  }

  /** When no role holds a newline, splitting the rendering on "\n" gives an
      empty first piece and then exactly one "role: content" line per message,
      in order, each content with its newlines turned into spaces. */
  lemma StrOneLinePerMessage(ms: seq<Message>)
    requires forall i :: 0 <= i < |ms| ==> '\n' !in ms[i].role
    ensures Py.Split(Render(ms), "\n") == [""] + Lines(ms)
    ensures forall i :: 0 <= i < |ms| ==> '\n' !in Lines(ms)[i]
  {
    RenderJoin(ms);
    LinesNoNewline(ms);
    SplitLines(Render(ms), Lines(ms));
  }

  lemma LinesNoNewline(ms: seq<Message>)
    requires forall i :: 0 <= i < |ms| ==> '\n' !in ms[i].role
    ensures forall i :: 0 <= i < |ms| ==> '\n' !in Lines(ms)[i]
  {
    forall i | 0 <= i < |ms| ensures '\n' !in Lines(ms)[i] {
      LineNoNewline(ms[i]);
    }
  }

  /** A text joined from "" and newline-free lines splits back into them. */
  lemma SplitLines(text: string, lines: seq<string>)
    requires text == Py.Join([""] + lines, "\n")
    requires forall i :: 0 <= i < |lines| ==> '\n' !in lines[i]
    ensures Py.Split(text, "\n") == [""] + lines
  {
    var parts := [""] + lines;
    forall i | 0 <= i < |parts| ensures '\n' !in parts[i] {
      if i > 0 { assert parts[i] == lines[i - 1]; }
    }
    Py.SplitJoinChar(parts, '\n');
  }
}
