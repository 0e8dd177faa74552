/** The node functions of the conversational agent and the serialisation of its
    retrieval tool (backend/src/agent.py). The chat model and the token counter
    are parameters: uninterpreted functions. */
module Agent {
  import opened Wrappers
  import opened Text
  import opened Messages
  import Seqs

  /** The graph state: the messages plus `summary`, absent until a node sets it. */
  datatype State = State(messages: seq<Message>, summary: Option<string>)

  /** The dictionary a node returns: `messages` always, `summary` only when the
      node sets it. */
  datatype NodeUpdate = NodeUpdate(messages: seq<Message>, summary: Option<string>)

  /** `llm.invoke(messages)`: the chat model's reply. */
  type ChatModel = seq<Message> -> Message

  /** `count_tokens_approximately(messages)`. */
  type TokenCounter = seq<Message> -> int

  /** `state.get("summary", "")`. */
  function SummarySoFar(s: State): string {
    s.summary.GetOr("")
  }

  const ExtendPreamble := "This is summary of the conversation to date: "
  const ExtendRequest := "\n\nExtend the summary by taking into account the new messages above:"
  const CreateRequest := "Create a summary of the conversation above:"

  /** The instruction appended after the conversation when summarising: the
      "extend" wording around the old summary when there is one, otherwise the
      request to create a summary. */
  function SummaryPrompt(summarySoFar: string): (p: string)
    ensures summarySoFar == "" ==> p == CreateRequest
    ensures summarySoFar != "" ==>
      && |p| == |ExtendPreamble| + |summarySoFar| + |ExtendRequest|
      && p[..|ExtendPreamble|] == ExtendPreamble
      && p[|ExtendPreamble|..|ExtendPreamble| + |summarySoFar|] == summarySoFar
      && p[|ExtendPreamble| + |summarySoFar|..] == ExtendRequest
      && p != CreateRequest
  {
    if summarySoFar != "" then
      var p := ExtendPreamble + summarySoFar + ExtendRequest;
      assert p[..|ExtendPreamble|] == ExtendPreamble;
      assert p[|ExtendPreamble|..|ExtendPreamble| + |summarySoFar|] == summarySoFar;
      assert p[|ExtendPreamble| + |summarySoFar|..] == ExtendRequest;
      assert |p| > |CreateRequest|;
      p
    else
      CreateRequest
  }

  /** `messages[-2:]`: the last two messages, or all of them when there are fewer. */
  function LastTwo(ms: seq<Message>): (r: seq<Message>)
    ensures |r| == if |ms| < 2 then |ms| else 2
    ensures r == ms[|ms| - |r|..]
  {
    if |ms| <= 2 then ms else ms[|ms| - 2..]
  }

  /** `summarize_conversation`: the model is asked, over the whole conversation
      followed by one human message with the summary prompt, for a new summary;
      the update keeps only the last two messages and replaces the summary with
      the reply, which is not combined with the old summary. */
  function SummarizeConversation(s: State, invoke: ChatModel): (u: NodeUpdate)
    ensures |u.messages| == if |s.messages| < 2 then |s.messages| else 2
    ensures u.messages == s.messages[|s.messages| - |u.messages|..]
    ensures u.summary == Some(invoke(s.messages + [Human(SummaryPrompt(SummarySoFar(s)))]).content)
  {
    var prompt := SummaryPrompt(SummarySoFar(s));
    var response := invoke(s.messages + [Human(prompt)]);
    NodeUpdate(LastTwo(s.messages), Some(response.content))
  }

  /** `memory_check_and_summarize`: summarise when the approximate token count is
      strictly over `maxTokens`; otherwise return the messages as they are and the
      summary so far. */
  function MemoryCheckAndSummarize(s: State, countTokens: TokenCounter, maxTokens: int, invoke: ChatModel): (u: NodeUpdate)
    ensures countTokens(s.messages) > maxTokens ==> u == SummarizeConversation(s, invoke)
    ensures countTokens(s.messages) <= maxTokens ==> u == NodeUpdate(s.messages, Some(SummarySoFar(s)))
  {
    if countTokens(s.messages) > maxTokens then
      SummarizeConversation(s, invoke)
    else
      NodeUpdate(s.messages, Some(SummarySoFar(s)))
  }

  /** Whatever the token count, the memory check returns a suffix of the
      conversation and always sets the summary; over the limit at most two
      messages remain and the summary is exactly the model's reply. */
  lemma MemoryCheckSuffix(s: State, countTokens: TokenCounter, maxTokens: int, invoke: ChatModel)
    ensures var u := MemoryCheckAndSummarize(s, countTokens, maxTokens, invoke);
      && |u.messages| <= |s.messages|
      && u.messages == s.messages[|s.messages| - |u.messages|..]
      && u.summary.Some?
      && (countTokens(s.messages) > maxTokens ==>
            |u.messages| <= 2 && u.summary.value == invoke(s.messages + [Human(SummaryPrompt(SummarySoFar(s)))]).content)
  {
  }

  /** `query_or_respond`: the tool-bound model sees the full message list (the
      `relevant_messages` built from the summary are never used) and the update
      holds exactly its one reply. */
  function QueryOrRespond(s: State, invokeWithTools: ChatModel): (u: NodeUpdate)
    ensures |u.messages| == 1 && u.summary == None
    ensures u.messages[0] == invokeWithTools(s.messages)
  {
    NodeUpdate([invokeWithTools(s.messages)], None)
  }

  /** The summary has no influence on `query_or_respond`. */
  lemma QueryOrRespondIgnoresSummary(s: State, t: State, invokeWithTools: ChatModel)
    requires s.messages == t.messages
    ensures QueryOrRespond(s, invokeWithTools) == QueryOrRespond(t, invokeWithTools)
  {
  }

  predicate IsToolMessage(m: Message) {
    m.Type() == "tool"
  }

  /** `[msg for msg in reversed(messages) if msg.type == "tool"][::-1]`. */
  function RecentToolMessages(ms: seq<Message>): seq<Message> {
    Seqs.Reverse(Seqs.Filter(IsToolMessage, Seqs.Reverse(ms)))
  }

  /** The double reversal is the identity on order: the "recent" tool messages are
      all tool messages of the conversation, in their original order. */
  lemma RecentToolMessagesInOrder(ms: seq<Message>)
    ensures RecentToolMessages(ms) == Seqs.Filter(IsToolMessage, ms)
  {
    Seqs.FilterReverse(IsToolMessage, Seqs.Reverse(ms));
    Seqs.ReverseInvolution(ms);
    Seqs.ReverseInvolution(Seqs.Filter(IsToolMessage, ms));
  }

  const ToolOutputHeader := "Tool output:\n"

  /** `[f"Tool output:\n{msg.content}" for msg in recent_tool_messages]`. */
  function ContextBlocks(tools: seq<Message>): (r: seq<string>)
    ensures |r| == |tools|
    ensures forall i :: 0 <= i < |tools| ==> r[i] == ToolOutputHeader + tools[i].content
  {
    seq(|tools|, i requires 0 <= i < |tools| => ToolOutputHeader + tools[i].content)
  }

  /** `tool_context`: the blocks joined with a blank line. */
  function ToolContext(ms: seq<Message>): string {
    Join("\n\n", ContextBlocks(RecentToolMessages(ms)))
  }

  predicate HasToolMessage(ms: seq<Message>) {
    exists i :: 0 <= i < |ms| && IsToolMessage(ms[i])
  }

  /** The tool context is empty exactly when the conversation holds no tool message,
      and otherwise starts with the first tool output's header. */
  lemma ToolContextEmptyIff(ms: seq<Message>)
    ensures ToolContext(ms) == "" <==> !HasToolMessage(ms)
    ensures HasToolMessage(ms) ==> |ToolContext(ms)| >= |ToolOutputHeader| && ToolContext(ms)[..|ToolOutputHeader|] == ToolOutputHeader
  {
    RecentToolMessagesInOrder(ms);
    var tools := Seqs.Filter(IsToolMessage, ms);
    assert ToolContext(ms) == Join("\n\n", ContextBlocks(tools));
    if HasToolMessage(ms) {
      var i :| 0 <= i < |ms| && IsToolMessage(ms[i]);
      assert ms[i] in tools;
      ToolContextStartsWithHeader(tools);
    } else {
      assert |tools| == 0;
    }
  }

  /** Joined context blocks start with the first block's header. */
  lemma ToolContextStartsWithHeader(tools: seq<Message>)
    requires tools != []
    ensures var c := Join("\n\n", ContextBlocks(tools));
      |c| >= |ToolOutputHeader| && c[..|ToolOutputHeader|] == ToolOutputHeader
  {
    var blocks := ContextBlocks(tools);
    JoinStartsWithFirst("\n\n", blocks);
    var c := Join("\n\n", blocks);
    assert c[..|blocks[0]|] == ToolOutputHeader + tools[0].content;
    assert c[..|ToolOutputHeader|] == c[..|blocks[0]|][..|ToolOutputHeader|];
  }

  const SummaryHeader := "Summary of previous conversation:\n"
  const ContextHeader := "You are a helpful assistant. Use the following context:\n\n"

  /** `system_prompts`: the summary message, only when there is a summary, then the
      context message, only when there is tool context. */
  function SystemPrompts(summary: string, toolContext: string): (r: seq<Message>)
    ensures |r| == (if summary != "" then 1 else 0) + (if toolContext != "" then 1 else 0)
    ensures summary != "" ==> r[0] == System(SummaryHeader + summary)
    ensures toolContext != "" ==> r[|r| - 1] == System(ContextHeader + toolContext)
  {
    (if summary != "" then [System(SummaryHeader + summary)] else [])
    + (if toolContext != "" then [System(ContextHeader + toolContext)] else [])
  }

  /** The messages `generate` keeps as history: human and system messages, and AI
      messages that request no tool. */
  predicate InHistory(m: Message) {
    m.Type() in {"human", "system"} || (m.Type() == "ai" && m.toolCalls == [])
  }

  /** `history`. */
  function History(ms: seq<Message>): seq<Message> {
    Seqs.Filter(InHistory, ms)
  }

  /** The history holds no tool output and no tool-calling AI message, and holds
      every other human, system and AI message of the conversation. */
  lemma HistoryContents(ms: seq<Message>)
    ensures forall i :: 0 <= i < |History(ms)| ==> History(ms)[i] in ms && (History(ms)[i].Human? || History(ms)[i].System? || (History(ms)[i].Ai? && History(ms)[i].toolCalls == []))
    ensures forall i :: 0 <= i < |ms| && (ms[i].Human? || ms[i].System? || (ms[i].Ai? && ms[i].toolCalls == [])) ==> ms[i] in History(ms)
  {
  }

  /** The history of a concatenation is the concatenation of the histories, so the
      history keeps the conversation's order. */
  lemma HistoryKeepsOrder(a: seq<Message>, b: seq<Message>)
    ensures History(a + b) == History(a) + History(b)
  {
    Seqs.FilterConcat(InHistory, a, b);
  }

  /** The prompt `generate` sends: the system prompts followed by the history. */
  function GeneratePrompt(s: State): seq<Message> {
    SystemPrompts(SummarySoFar(s), ToolContext(s.messages)) + History(s.messages)
  }

  /** The prompt opens with at most two system messages: the summary, present
      exactly when the summary is non-empty, then the tool context, present
      exactly when the conversation holds a tool output; the history follows. */
  lemma GeneratePromptShape(s: State)
    ensures var p := GeneratePrompt(s);
      var k := (if SummarySoFar(s) != "" then 1 else 0) + (if HasToolMessage(s.messages) then 1 else 0);
      && |p| == k + |History(s.messages)|
      && p[k..] == History(s.messages)
      && (SummarySoFar(s) != "" ==> p[0] == System(SummaryHeader + SummarySoFar(s)))
      && (HasToolMessage(s.messages) ==> p[k - 1] == System(ContextHeader + ToolContext(s.messages)))
  {
    ToolContextEmptyIff(s.messages);
  }

  /** `generate`: one reply from the model to the assembled prompt. */
  function Generate(s: State, invoke: ChatModel): (u: NodeUpdate)
    ensures |u.messages| == 1 && u.summary == None
    ensures u.messages[0] == invoke(GeneratePrompt(s))
  {
    NodeUpdate([invoke(GeneratePrompt(s))], None)
  }

  /** A document returned by the retriever: `str(doc.metadata)` and `doc.page_content`. */
  datatype RetrievedDoc = RetrievedDoc(metadata: string, pageContent: string)

  function SourceBlock(d: RetrievedDoc): string {
    "Source: " + d.metadata + "\nContent: " + d.pageContent
  }

  function SourceBlocks(docs: seq<RetrievedDoc>): (r: seq<string>)
    ensures |r| == |docs| && forall i :: 0 <= i < |docs| ==> r[i] == SourceBlock(docs[i])
  {
    seq(|docs|, i requires 0 <= i < |docs| => SourceBlock(docs[i]))
  }

  /** The `retrieve` tool's result: the serialised documents (content) and the
      documents themselves (artifact). */
  function Retrieve(docs: seq<RetrievedDoc>): (r: (string, seq<RetrievedDoc>))
    ensures r.1 == docs
    ensures docs == [] ==> r.0 == ""
    ensures |docs| == 1 ==> r.0 == SourceBlock(docs[0])
  {
    (Join("\n\n", SourceBlocks(docs)), docs)
  }

  /** Serialising two batches of documents is serialising each, separated by a
      blank line. */
  lemma RetrieveConcat(a: seq<RetrievedDoc>, b: seq<RetrievedDoc>)
    requires a != [] && b != []
    ensures Retrieve(a + b).0 == Retrieve(a).0 + "\n\n" + Retrieve(b).0
  {
    assert SourceBlocks(a + b) == SourceBlocks(a) + SourceBlocks(b);
    JoinConcat("\n\n", SourceBlocks(a), SourceBlocks(b));
  }
}
