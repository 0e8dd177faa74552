/** Conversion between the chat history of the HTTP API and framework messages
    (backend/src/utils.py, with the roles of backend/src/models.py). */
module ChatHistory {
  import opened Messages
  import Seqs

  /** `RoleEnum`: the three roles a history entry may carry. */
  datatype Role = User | Assistant | SystemRole {
    /** The enum member's string value, which is what `entry.role == "..."` compares. */
    function Value(): string {
      match this
      case User => "user"
      case Assistant => "assistant"
      case SystemRole => "system"
    }
  }

  /** `HistoryEntry`. */
  datatype HistoryEntry = HistoryEntry(role: Role, content: string)

  /** The framework message a history entry stands for. */
  function MessageOf(e: HistoryEntry): (m: Message)
    ensures e.role == User <==> m.Human?
    ensures e.role == Assistant <==> m.Ai?
    ensures e.role == SystemRole <==> m.System?
    ensures m.content == e.content
    ensures m.Ai? ==> m.toolCalls == []
  {
    match e.role
    case User => Human(e.content)
    case Assistant => Ai(e.content, [])
    case SystemRole => System(e.content)
  }

  /** The entry a framework message contributes to the history: one entry for a
      human, AI or system message, none for any other kind. */
  function EntriesOf(m: Message): (r: seq<HistoryEntry>)
    ensures |r| <= 1
    ensures |r| == 1 <==> m.Human? || m.Ai? || m.System?
    ensures |r| == 1 ==> (r[0].role == User <==> m.Human?)
    ensures |r| == 1 ==> (r[0].role == Assistant <==> m.Ai?)
    ensures |r| == 1 ==> (r[0].role == SystemRole <==> m.System?)
    ensures |r| == 1 ==> r[0].content == m.content
  {
    match m
    case Human(c) => [HistoryEntry(User, c)]
    case Ai(c, _) => [HistoryEntry(Assistant, c)]
    case System(c) => [HistoryEntry(SystemRole, c)]
    case _ => []
  }

  /** The history that `from_langchain_messages` builds from `ms`. */
  function HistoryOf(ms: seq<Message>): seq<HistoryEntry> {
    if ms == [] then [] else HistoryOf(ms[..|ms| - 1]) + EntriesOf(ms[|ms| - 1])
  }

  /** `to_langchain_messages`: one message per entry, in order, same content. The
      loop's three branches test the role's string value; the invariant that the
      output keeps pace with the input holds because those three values are all
      the roles there are. */
  method ToLangchainMessages(chatHistory: seq<HistoryEntry>) returns (lcMessages: seq<Message>)
    ensures |lcMessages| == |chatHistory|
    ensures forall i :: 0 <= i < |chatHistory| ==> lcMessages[i] == MessageOf(chatHistory[i])
  {
    lcMessages := [];
    for i := 0 to |chatHistory|
      invariant |lcMessages| == i
      invariant forall j :: 0 <= j < i ==> lcMessages[j] == MessageOf(chatHistory[j])
    {
      var entry := chatHistory[i];
      if entry.role.Value() == "user" {
        lcMessages := lcMessages + [Human(entry.content)];
      } else if entry.role.Value() == "assistant" {
        lcMessages := lcMessages + [Ai(entry.content, [])];
      } else if entry.role.Value() == "system" {
        lcMessages := lcMessages + [System(entry.content)];
      }
    }
  }

  /** `from_langchain_messages`: the history of the human, AI and system messages
      of `messages`, in order; every other kind of message is dropped. */
  method FromLangchainMessages(messages: seq<Message>) returns (entries: seq<HistoryEntry>)
    ensures entries == HistoryOf(messages)
  {
    entries := [];
    for i := 0 to |messages|
      invariant entries == HistoryOf(messages[..i])
    {
      assert messages[..i + 1][..i] == messages[..i];
      var msg := messages[i];
      if msg.Human? {
        entries := entries + [HistoryEntry(User, msg.content)];
      } else if msg.Ai? {
        entries := entries + [HistoryEntry(Assistant, msg.content)];
      } else if msg.System? {
        entries := entries + [HistoryEntry(SystemRole, msg.content)];
      }
    }
    assert messages[..|messages|] == messages;
  }

  /** The messages `from_langchain_messages` keeps. */
  predicate IsConversational(m: Message) {
    m.Human? || m.Ai? || m.System?
  }

  /** A history never has more entries than there were messages. */
  lemma {:induction false} HistoryNoLonger(ms: seq<Message>)
    ensures |HistoryOf(ms)| <= |ms|
  {
    if ms != [] {
      HistoryNoLonger(ms[..|ms| - 1]);
    }
  }

  /** A history is the concatenation of the histories of the pieces. */
  lemma {:induction false} HistoryConcat(a: seq<Message>, b: seq<Message>)
    ensures HistoryOf(a + b) == HistoryOf(a) + HistoryOf(b)
    decreases |b|
  {
    if b == [] {
      assert a + b == a;
    } else {
      assert (a + b)[..|a + b| - 1] == a + b[..|b| - 1];
      HistoryConcat(a, b[..|b| - 1]);
    }
  }

  /** Messages of any other kind (tool outputs among them) leave no trace in the history. */
  lemma {:induction false} HistoryDropsOthers(ms: seq<Message>)
    requires forall i :: 0 <= i < |ms| ==> !IsConversational(ms[i])
    ensures HistoryOf(ms) == []
  {
    if ms != [] {
      HistoryDropsOthers(ms[..|ms| - 1]);
    }
  }

  /** The framework messages of a whole history. */
  function MessagesOf(h: seq<HistoryEntry>): (ms: seq<Message>)
    ensures |ms| == |h| && forall i :: 0 <= i < |h| ==> ms[i] == MessageOf(h[i])
  {
    seq(|h|, i requires 0 <= i < |h| => MessageOf(h[i]))
  }

  /** Round trip: converting a history to messages and back gives the history. */
  lemma {:induction false} HistoryRoundTrip(h: seq<HistoryEntry>)
    ensures HistoryOf(MessagesOf(h)) == h
  {
    if h != [] {
      var ms := MessagesOf(h);
      assert ms[..|ms| - 1] == MessagesOf(h[..|h| - 1]);
      HistoryRoundTrip(h[..|h| - 1]);
      assert h == h[..|h| - 1] + [h[|h| - 1]];
    }
  }

  /** Two messages agree on kind and content (an AI message's tool calls aside). */
  predicate SameKindAndContent(m: Message, n: Message) {
    m.Type() == n.Type() && m.content == n.content
  }

  lemma MessagesOfConcat(a: seq<HistoryEntry>, b: seq<HistoryEntry>)
    ensures MessagesOf(a + b) == MessagesOf(a) + MessagesOf(b)
  {
  }

  lemma HistoryCons(m: Message, rest: seq<Message>)
    ensures HistoryOf([m] + rest) == EntriesOf(m) + HistoryOf(rest)
  {
    HistoryConcat([m], rest);
    assert [m][..0] == [];
  }

  /** Reverse round trip: converting messages to a history and back gives, in
      order, exactly the human, AI and system messages, with the same kinds and
      contents. */
  lemma {:induction false} MessagesRoundTrip(ms: seq<Message>)
    ensures var back := MessagesOf(HistoryOf(ms));
      var kept := Seqs.Filter(IsConversational, ms);
      |back| == |kept| && forall i :: 0 <= i < |kept| ==> SameKindAndContent(back[i], kept[i])
  {
    if ms != [] {
      var m, rest := ms[0], ms[1..];
      MessagesRoundTrip(rest);
      assert ms == [m] + rest;
      HistoryCons(m, rest);
      MessagesOfConcat(EntriesOf(m), HistoryOf(rest));
      SameKindAndContentCons(m, MessagesOf(HistoryOf(rest)), Seqs.Filter(IsConversational, rest));
    }
  }

  lemma SameKindAndContentCons(m: Message, back: seq<Message>, kept: seq<Message>)
    requires |back| == |kept| && forall i :: 0 <= i < |kept| ==> SameKindAndContent(back[i], kept[i])
    ensures var b := MessagesOf(EntriesOf(m)) + back;
      var k := (if IsConversational(m) then [m] else []) + kept;
      |b| == |k| && forall i :: 0 <= i < |k| ==> SameKindAndContent(b[i], k[i])
  {
  }
}
