/**
 * The reasoning loop of supabase/functions/agent-chat/index.ts: the context the model is
 * given, at most five passes that each ask the model for one structured reasoning step, the
 * events written to the response stream, the reasoning-step rows, and the final persistence.
 *
 * The language model and the tool executor are oracles (`Env.model`, `Env.tool`) that may
 * answer differently on every pass.  The event stream is an append-only sequence of frames;
 * their JSON bodies are not serialised (sse_client.dfy models the framing text).
 */
module AgentChat {
  import opened Wrappers
  import opened Text
  import Ordering
  import Memories

  const MaxIterations: nat := 5

  /** One turn of the chat-completion request. */
  datatype Message = Message(role: string, content: string)

  /** A row of `conversation_messages`; the table is kept in insertion (`created_at`) order. */
  datatype ChatRow = ChatRow(conversation: Option<nat>, agent: Option<nat>, role: string, content: string,
                             createdAt: nat)

  /** The decoded `tool_input` object: its fields, in order. */
  datatype Input = Input(fields: seq<(string, string)>)

  /** `action` of a reasoning step. */
  datatype Action = Action(kind: string, toolName: Option<string>, toolInput: Option<Input>, message: Option<string>)

  /** The arguments of an `agent_reasoning` tool call. */
  datatype Reasoning = Reasoning(thought: string, plan: Option<seq<string>>, criticism: Option<string>, action: Action)

  /** What one chat-completion request gives back. */
  datatype Completion =
    | NotOk(status: int)                      // a response whose status is not 2xx
    | Failed(message: Option<string>)         // the request threw; the message when it is an `Error`
    | Unstructured(content: Option<string>)   // no `agent_reasoning` tool call
    | Unparsable                              // its arguments are not JSON
    | Structured(reasoning: Reasoning)

  /** What the call to the tool executor gives back. */
  datatype ToolReply =
    | ToolAnswered(result: Option<string>, error: Option<string>)
    | ToolRejected(body: string)
    | ToolThrew(message: Option<string>)      // the message when what was thrown is an `Error`

  /** A row of `agent_reasoning_steps`. */
  datatype StepRow = StepRow(conversation: Option<nat>, agent: nat, stepNumber: nat, thought: string,
                             plan: Option<seq<string>>, criticism: Option<string>, action: Action,
                             result: Option<string>)

  /** The writes to the event stream. */
  datatype Frame =
    | IterationFrame(step: nat, max: nat)
    | ReasoningFrame(step: nat, reasoning: Reasoning)
    | ToolCallFrame(tool: string, input: Input)
    | ToolResultFrame(tool: string, result: string)
    | ErrorFrame(message: string)
    | DeltaFrame(content: string)
    | DoneFrame

  /** A row the request writes once the loop is over. */
  datatype Stored =
    | AssistantMessage(conversation: nat, agent: nat, content: string)
    | ShortTermMemory(agent: nat, content: string, importance: real)

  // ---- executeToolCall (lines 87-113) ----

  /**
   * The text a tool call contributes: the executor's `result`, else its `error`, else
   * `[No result]`; a failed response or a thrown failure becomes a bracketed message, so the
   * call never fails and never yields an empty text.
   */
  function ToolResultText(reply: ToolReply): (r: string)
    ensures r != ""
    ensures reply.ToolAnswered? && Truthy(reply.result) ==> r == reply.result.value
    ensures reply.ToolAnswered? && !Truthy(reply.result) && Truthy(reply.error) ==> r == reply.error.value
    ensures reply.ToolAnswered? && !Truthy(reply.result) && !Truthy(reply.error) ==> r == "[No result]"
    ensures reply.ToolRejected? ==> r == "[Tool Error: " + reply.body + "]"
    ensures reply.ToolThrew? ==> r == "[Tool execution failed: " + reply.message.GetOr("Unknown error") + "]"
  {
    match reply
    case ToolAnswered(result, error) => if Truthy(result) then result.value else OrElse(error, "[No result]")
    case ToolRejected(body) => "[Tool Error: " + body + "]"
    case ToolThrew(message) => "[Tool execution failed: " + message.GetOr("Unknown error") + "]"
  }

  // ---- system prompt and history (lines 174-228) ----

  datatype Param = Param(name: string, kind: string, description: Option<string>)

  /** A row of `agent_tools`; `params` is `parameters.properties` when present. */
  datatype Tool = Tool(name: string, description: string, params: Option<seq<Param>>, required: Option<seq<string>>)

  const ToolsHeader := "\n\n[AVAILABLE TOOLS]\nWhen using a tool, you MUST populate tool_input with the required parameters.\n"

  function ParamLine(p: Param, required: Option<seq<string>>): string {
    "\"" + p.name + "\": " + p.kind + (if required.Some? && p.name in required.value then " (REQUIRED)" else "")
    + " - " + OrElse(p.description, "no description")
  }

  function ParamList(t: Tool): string {
    match t.params
    case None => "none"
    case Some(ps) => Join(seq(|ps|, i requires 0 <= i < |ps| => ParamLine(ps[i], t.required)), "\n    ")
  }

  function ToolEntry(t: Tool): string {
    "- " + t.name + ": " + t.description + "\n  tool_input: {\n    " + ParamList(t) + "\n  }"
  }

  function ToolEntries(ts: seq<Tool>): (r: seq<string>)
    ensures |r| == |ts|
    ensures forall i :: 0 <= i < |ts| ==> r[i] == ToolEntry(ts[i])
  {
    seq(|ts|, i requires 0 <= i < |ts| => ToolEntry(ts[i]))
  }

  /** The `[AVAILABLE TOOLS]` section. */
  function ToolsContext(tools: Option<seq<Tool>>): (r: string)
    ensures tools.None? || tools.value == [] ==> r == ""
    ensures tools.Some? && tools.value != [] ==> |r| >= |ToolsHeader| + |ToolEntry(tools.value[0])|
  {
    if tools.None? || tools.value == [] then ""
    else ToolsHeader + Join(ToolEntries(tools.value), "\n\n")
  }

  /** The section is empty exactly when there are no tools, and otherwise opens with its header. */
  lemma ToolsContextShape(tools: Option<seq<Tool>>)
    ensures ToolsContext(tools) == "" <==> tools.None? || tools.value == []
    ensures tools.Some? && tools.value != [] ==> ToolsHeader <= ToolsContext(tools)
  {
    if tools.Some? && tools.value != [] {
      var h := ToolsHeader;
      var rest := Join(ToolEntries(tools.value), "\n\n");
      assert |h| > 0;
      assert (h + rest)[..|h|] == h;
    }
  }

  lemma ToolEntriesAppend(ts: seq<Tool>, t: Tool)
    ensures ToolEntries(ts + [t]) == ToolEntries(ts) + [ToolEntry(t)]
  {
    var a := ToolEntries(ts);
    var b := ToolEntries(ts + [t]);
    forall i | 0 <= i < |b| ensures b[i] == (a + [ToolEntry(t)])[i] {
      assert (ts + [t])[i] == if i < |ts| then ts[i] else t;
    }
  }

  /** Another tool row adds its entry at the end, after a blank line. */
  lemma ToolsContextAppend(ts: seq<Tool>, t: Tool)
    requires ts != []
    ensures ToolsContext(Some(ts + [t])) == ToolsContext(Some(ts)) + "\n\n" + ToolEntry(t)
  {
    var a := ToolEntries(ts);
    var b := ToolEntries(ts + [t]);
    var e := ToolEntry(t);
    ToolEntriesAppend(ts, t);
    JoinAppend(a, e, "\n\n");
    var h := ToolsHeader;
    assert ts + [t] != [];
    assert ToolsContext(Some(ts + [t])) == h + Join(b, "\n\n");
    assert ToolsContext(Some(ts)) == h + Join(a, "\n\n");
    Associate(h, Join(a, "\n\n"), "\n\n", e);
  }

  const MemoryLimit: nat := 5

  function MemoryLine(m: Memories.Memory): string {
    "[" + m.memoryType + "]: " + m.content
  }

  function OwnedBy(agent: nat): Memories.Memory -> bool {
    (m: Memories.Memory) => m.agent == agent
  }

  /**
   * The rows of the memory query (lines 185-190): at most five of the agent's memories, most
   * important first; no memory of the agent left out is more important than one listed, and
   * unless five are listed every one of them is.
   */
  function ContextRows(memories: seq<Memories.Memory>, agent: nat): (r: seq<Memories.Memory>)
    ensures |r| <= MemoryLimit
    ensures forall i :: 0 <= i < |r| ==> r[i] in memories && r[i].agent == agent
    ensures forall i, j :: 0 <= i < j < |r| ==> r[i].importance >= r[j].importance
    ensures forall x, y :: x in r && y in memories && y.agent == agent && y !in r ==> x.importance >= y.importance
    ensures (forall y :: y in memories && y.agent == agent ==> y in r) || |r| == MemoryLimit
  {
    Memories.RankedSpec(memories, OwnedBy(agent), MemoryLimit);
    var r := Memories.Ranked(memories, OwnedBy(agent), MemoryLimit);
    forall x, y | x in r && y in memories && y.agent == agent && y !in r ensures x.importance >= y.importance {
      assert Memories.ImportanceFirst(x, y);
    }
    r
  }

  /**
   * The `[MEMORY CONTEXT]` section: without memory nothing; otherwise, when the agent has a
   * memory, a header and one `[type]: content` line for each row of `ContextRows`, in order.
   */
  function MemoryContext(memories: seq<Memories.Memory>, agent: nat, useMemory: bool): (r: string)
    ensures !useMemory || ContextRows(memories, agent) == [] ==> r == ""
    ensures useMemory && ContextRows(memories, agent) != [] ==>
              var rows := ContextRows(memories, agent);
              exists lines: seq<string> ::
                && |lines| == |rows|
                && (forall i :: 0 <= i < |rows| ==> lines[i] == "[" + rows[i].memoryType + "]: " + rows[i].content)
                && r == "\n\n[MEMORY CONTEXT]\n" + Join(lines, "\n")
  {
    if !useMemory then ""
    else
      var rows := ContextRows(memories, agent);
      if rows == [] then ""
      else
        var lines := seq(|rows|, i requires 0 <= i < |rows| => MemoryLine(rows[i]));
        assert forall i :: 0 <= i < |rows| ==> lines[i] == "[" + rows[i].memoryType + "]: " + rows[i].content;
        "\n\n[MEMORY CONTEXT]\n" + Join(lines, "\n")
  }

  /** With memory enabled, the section is empty exactly when the agent has no memory at all. */
  lemma MemoryContextEmpty(memories: seq<Memories.Memory>, agent: nat)
    ensures MemoryContext(memories, agent, true) == "" <==> forall m :: m in memories ==> m.agent != agent
  {
    var rows := ContextRows(memories, agent);
    if exists m :: m in memories && m.agent == agent {
      var m :| m in memories && m.agent == agent;
      assert m in rows || |rows| == MemoryLimit;
      var r := MemoryContext(memories, agent, true);
      var lines: seq<string> :| r == "\n\n[MEMORY CONTEXT]\n" + Join(lines, "\n");
      assert r[0] == '\n';
    }
  }

  const Instructions := "\n\nIMPORTANT: You MUST use the agent_reasoning tool for EVERY response. "
    + "Structure your thinking with thought, plan, criticism, and action. "
    + "For complex tasks, use action.type='continue' to keep reasoning. "
    + "Use action.type='tool' to call a tool. "
    + "Use action.type='respond' with a message only when you have a complete answer."

  /** The system prompt: the agent's own prompt, then memories, tools and the fixed instructions. */
  function SystemPrompt(agentPrompt: string, memoryContext: string, toolsContext: string): (r: string)
    ensures agentPrompt <= r
    ensures |r| == |agentPrompt| + |memoryContext| + |toolsContext| + |Instructions|
    ensures r[|agentPrompt|..|agentPrompt| + |memoryContext|] == memoryContext
    ensures r[|agentPrompt| + |memoryContext|..|r| - |Instructions|] == toolsContext
    ensures r[|r| - |Instructions|..] == Instructions
  {
    agentPrompt + memoryContext + toolsContext + Instructions
  }

  predicate InConversation(r: ChatRow, conv: Option<nat>) {
    conv.Some? && r.conversation == conv
  }

  function InConversationOf(conv: Option<nat>): ChatRow -> bool {
    (r: ChatRow) => InConversation(r, conv)
  }

  /** The rows of one conversation, in table order. */
  function Conversation(rows: seq<ChatRow>, conv: Option<nat>): seq<ChatRow> {
    Ordering.Filter(rows, InConversationOf(conv))
  }

  const HistoryLimit: nat := 20

  /** The history query as written: ascending by time, then the first 20 rows. */
  function OldestWindow(rows: seq<ChatRow>, conv: Option<nat>): (r: seq<ChatRow>)
    ensures |r| == if |Conversation(rows, conv)| <= HistoryLimit then |Conversation(rows, conv)| else HistoryLimit
    ensures r <= Conversation(rows, conv)
  {
    Ordering.Limit(Conversation(rows, conv), HistoryLimit)
  }

  /** The history window as intended: the 20 most recent rows, oldest first. */
  function RecentWindow(rows: seq<ChatRow>, conv: Option<nat>): (r: seq<ChatRow>)
    ensures |r| == if |Conversation(rows, conv)| <= HistoryLimit then |Conversation(rows, conv)| else HistoryLimit
  {
    var c := Conversation(rows, conv);
    if |c| <= HistoryLimit then c else c[|c| - HistoryLimit..]
  }

  /** The request's message is appended to the conversation before the history is read. */
  function WithRequest(rows: seq<ChatRow>, conv: Option<nat>, message: string, now: nat): seq<ChatRow> {
    rows + [ChatRow(conv, None, "user", message, now)]
  }

  lemma ConversationWithRequest(rows: seq<ChatRow>, conv: Option<nat>, message: string, now: nat)
    requires conv.Some?
    ensures Conversation(WithRequest(rows, conv, message, now), conv)
         == Conversation(rows, conv) + [ChatRow(conv, None, "user", message, now)]
  {
    var req := ChatRow(conv, None, "user", message, now);
    Ordering.FilterAppend(rows, req, InConversationOf(conv));
    assert InConversationOf(conv)(req);
  }

  /**
   * As written, once the conversation already holds 20 rows, all stamped before the request,
   * the user's new message is not among the rows sent to the model.
   */
  lemma OldestWindowDropsRequest(rows: seq<ChatRow>, conv: Option<nat>, message: string, now: nat)
    requires conv.Some?
    requires |Conversation(rows, conv)| >= HistoryLimit
    requires forall r :: r in rows ==> r.createdAt < now
    ensures ChatRow(conv, None, "user", message, now) !in OldestWindow(WithRequest(rows, conv, message, now), conv)
  {
    var c := Conversation(rows, conv);
    var req := ChatRow(conv, None, "user", message, now);
    ConversationWithRequest(rows, conv, message, now);
    var w := OldestWindow(WithRequest(rows, conv, message, now), conv);
    assert w == c[..HistoryLimit] by {
      assert (c + [req])[..HistoryLimit] == c[..HistoryLimit];
    }
    forall k | 0 <= k < |w| ensures w[k] != req {
      assert w[k] == c[k] && c[k] in multiset(c);
      assert c[k] in rows;
    }
  }

  /** The corrected window always ends with the request's message. */
  lemma RecentWindowEndsWithRequest(rows: seq<ChatRow>, conv: Option<nat>, message: string, now: nat)
    requires conv.Some?
    ensures var w := RecentWindow(WithRequest(rows, conv, message, now), conv);
            w != [] && w[|w| - 1] == ChatRow(conv, None, "user", message, now)
  {
    ConversationWithRequest(rows, conv, message, now);
    var c := Conversation(WithRequest(rows, conv, message, now), conv);
    assert c[|c| - 1] == ChatRow(conv, None, "user", message, now);
    var w := RecentWindow(WithRequest(rows, conv, message, now), conv);
    if |c| > HistoryLimit {
      assert w == c[|c| - HistoryLimit..];
      assert w[|w| - 1] == c[|c| - 1];
    }
  }

  function Turns(rows: seq<ChatRow>): (r: seq<Message>)
    ensures |r| == |rows|
    ensures forall i :: 0 <= i < |rows| ==> r[i] == Message(rows[i].role, rows[i].content)
  {
    seq(|rows|, i requires 0 <= i < |rows| => Message(rows[i].role, rows[i].content))
  }

  /**
   * The messages every pass starts from, as written: the system prompt, then the first 20 rows
   * of the conversation.
   */
  function BaseContext(prompt: string, rows: seq<ChatRow>, conv: Option<nat>): (r: seq<Message>)
    ensures |r| >= 1 && r[0] == Message("system", prompt)
    ensures r[1..] == Turns(OldestWindow(rows, conv))
  {
    [Message("system", prompt)] + Turns(OldestWindow(rows, conv))
  }

  /** The corrected base context: the system prompt, then the 20 most recent rows. */
  function BaseContextCorrected(prompt: string, rows: seq<ChatRow>, conv: Option<nat>): (r: seq<Message>)
    ensures |r| >= 1 && r[0] == Message("system", prompt)
    ensures r[1..] == Turns(RecentWindow(rows, conv))
  {
    [Message("system", prompt)] + Turns(RecentWindow(rows, conv))
  }

  /** While the conversation holds at most 20 rows, the code and the correction send the same context. */
  lemma BaseContextShortAgrees(prompt: string, rows: seq<ChatRow>, conv: Option<nat>)
    requires |Conversation(rows, conv)| <= HistoryLimit
    ensures BaseContext(prompt, rows, conv) == BaseContextCorrected(prompt, rows, conv)
  {
    assert OldestWindow(rows, conv) == Conversation(rows, conv) == RecentWindow(rows, conv);
  }

  /** With the corrected window the user's message is always the last one the model is given. */
  lemma BaseContextEndsWithRequest(prompt: string, rows: seq<ChatRow>, conv: Option<nat>, message: string, now: nat)
    requires conv.Some?
    ensures var b := BaseContextCorrected(prompt, WithRequest(rows, conv, message, now), conv);
            b[|b| - 1] == Message("user", message)
  {
    RecentWindowEndsWithRequest(rows, conv, message, now);
    var w := RecentWindow(WithRequest(rows, conv, message, now), conv);
    var b := BaseContextCorrected(prompt, WithRequest(rows, conv, message, now), conv);
    assert b[1..] == Turns(w);
    assert b[|b| - 1] == Turns(w)[|w| - 1];
  }

  /**
   * The base context of a request as the code assembles it (lines 167-228): the system prompt
   * built from the agent's prompt, its memory section and the tools section, then the history
   * read after the user's message was stored.
   */
  function RequestBase(agentPrompt: string, memories: seq<Memories.Memory>, agent: nat, useMemory: bool,
                       tools: Option<seq<Tool>>, rows: seq<ChatRow>, conv: Option<nat>, message: string, now: nat)
    : (r: seq<Message>)
    ensures |r| >= 1 && r[0].role == "system"
    ensures agentPrompt <= r[0].content
    ensures r[1..] == Turns(OldestWindow(WithRequest(rows, conv, message, now), conv))
  {
    var prompt := SystemPrompt(agentPrompt, MemoryContext(memories, agent, useMemory), ToolsContext(tools));
    BaseContext(prompt, WithRequest(rows, conv, message, now), conv)
  }

  /** The same assembly over the corrected history window. */
  function RequestBaseCorrected(agentPrompt: string, memories: seq<Memories.Memory>, agent: nat, useMemory: bool,
                                tools: Option<seq<Tool>>, rows: seq<ChatRow>, conv: Option<nat>, message: string,
                                now: nat): (r: seq<Message>)
    ensures |r| >= 1 && r[0].role == "system"
    ensures agentPrompt <= r[0].content
    ensures r[1..] == Turns(RecentWindow(WithRequest(rows, conv, message, now), conv))
  {
    var prompt := SystemPrompt(agentPrompt, MemoryContext(memories, agent, useMemory), ToolsContext(tools));
    BaseContextCorrected(prompt, WithRequest(rows, conv, message, now), conv)
  }

  // ---- the action result of a reasoning step (lines 358-363) ----

  /** The update as written: every step row of the conversation with this step number. */
  function ResultByStepNumber(rows: seq<StepRow>, conv: Option<nat>, step: nat, result: string): (r: seq<StepRow>)
    ensures |r| == |rows|
    ensures forall i :: 0 <= i < |rows| ==>
              r[i] == if conv.Some? && rows[i].conversation == conv && rows[i].stepNumber == step
                      then rows[i].(result := Some(result)) else rows[i]
  {
    seq(|rows|, i requires 0 <= i < |rows| =>
      if conv.Some? && rows[i].conversation == conv && rows[i].stepNumber == step
      then rows[i].(result := Some(result)) else rows[i])
  }

  /**
   * As written, a tool result also lands on the same-numbered step of an earlier request in
   * the same conversation, replacing that step's own result.
   */
  lemma ResultByStepNumberOverwrites(rows: seq<StepRow>, latest: StepRow, j: nat, result: string)
    requires j < |rows|
    requires latest.conversation.Some?
    requires rows[j].conversation == latest.conversation && rows[j].stepNumber == latest.stepNumber
    requires rows[j].result != Some(result)
    ensures var r := ResultByStepNumber(rows + [latest], latest.conversation, latest.stepNumber, result);
            r[j].result == Some(result) && r[j] != rows[j]
  {
    assert (rows + [latest])[j] == rows[j];
  }

  /** The corrected update: only the row the current pass inserted. */
  function AttachResult(rows: seq<StepRow>, result: string): (r: seq<StepRow>)
    requires rows != []
    ensures |r| == |rows|
  {
    rows[..|rows| - 1] + [rows[|rows| - 1].(result := Some(result))]
  }

  /**
   * Where no earlier row of the conversation has this step number (the first request of a
   * conversation), the update as written and the corrected one agree.
   */
  lemma ResultByStepNumberFresh(rows: seq<StepRow>, latest: StepRow, result: string)
    requires latest.conversation.Some?
    requires forall j :: 0 <= j < |rows| ==>
               !(rows[j].conversation == latest.conversation && rows[j].stepNumber == latest.stepNumber)
    ensures ResultByStepNumber(rows + [latest], latest.conversation, latest.stepNumber, result)
         == AttachResult(rows + [latest], result)
  {
    var all := rows + [latest];
    var a := ResultByStepNumber(all, latest.conversation, latest.stepNumber, result);
    var b := AttachResult(all, result);
    forall j | 0 <= j < |all| ensures a[j] == b[j] {
      if j < |rows| {
        assert all[j] == rows[j];
      }
    }
  }

  /** The corrected update keeps every earlier row and fills in the newest row's result only. */
  lemma AttachResultOnlyLatest(rows: seq<StepRow>, latest: StepRow, result: string)
    ensures var r := AttachResult(rows + [latest], result);
            && r[..|rows|] == rows
            && r[|rows|] == latest.(result := Some(result))
  {
    assert (rows + [latest])[..|rows|] == rows;
  }

  // ---- streaming the answer in three-character pieces (lines 389-399, 408-416) ----

  /** `s.slice(i, j)`: clamped to the string's end. */
  function Slice(s: string, i: nat, j: nat): (r: string)
    requires i <= j
    ensures i <= |s| ==> r == s[i..if j <= |s| then j else |s|]
    ensures i > |s| ==> r == ""
  {
    if i > |s| then "" else s[i..if j <= |s| then j else |s|]
  }

  /** The pieces `slice(0, 3)`, `slice(3, 6)`, … of `s`. */
  function Chunks(s: string): (r: seq<string>)
    ensures r == [] <==> s == []
    ensures |r| <= |s|
    ensures forall i :: 0 <= i < |r| ==> r[i] != []
    decreases |s|
  {
    if s == [] then [] else if |s| <= 3 then [s] else [s[..3]] + Chunks(s[3..])
  }

  function Concat(parts: seq<string>): string {
    if parts == [] then "" else parts[0] + Concat(parts[1..])
  }

  /** The pieces put back together are the string. */
  lemma {:induction false} ChunksConcat(s: string)
    ensures Concat(Chunks(s)) == s
    decreases |s|
  {
    if |s| > 3 {
      ChunksConcat(s[3..]);
      assert s == s[..3] + s[3..];
    }
  }

  /** There are ⌈n/3⌉ pieces. */
  lemma {:induction false} ChunksCount(s: string)
    ensures |Chunks(s)| == (|s| + 2) / 3
    decreases |s|
  {
    if |s| > 3 {
      ChunksCount(s[3..]);
    }
  }

  /** Every piece but the last has three characters; the last has one to three. */
  lemma {:induction false} ChunksSizes(s: string)
    ensures var c := Chunks(s);
            && (forall i :: 0 <= i < |c| - 1 ==> |c[i]| == 3)
            && (c != [] ==> 1 <= |c[|c| - 1]| <= 3)
    decreases |s|
  {
    if |s| > 3 {
      ChunksSizes(s[3..]);
      var c := Chunks(s);
      assert c[1..] == Chunks(s[3..]);
    }
  }

  function DeltaFrames(chunks: seq<string>): (r: seq<Frame>)
    ensures |r| == |chunks|
    ensures forall i :: 0 <= i < |chunks| ==> r[i] == DeltaFrame(chunks[i])
  {
    seq(|chunks|, i requires 0 <= i < |chunks| => DeltaFrame(chunks[i]))
  }

  /** The delta frames that stream `s`. */
  function Deltas(s: string): seq<Frame> {
    DeltaFrames(Chunks(s))
  }

  lemma DeltasStep(s: string, i: nat)
    requires i < |s|
    ensures Deltas(s[i..]) == [DeltaFrame(Slice(s, i, i + 3))] + Deltas(if i + 3 <= |s| then s[i + 3..] else "")
  {
    var t := s[i..];
    assert Deltas("") == [] by {
      assert Chunks("") == [];
    }
    if |t| > 3 {
      assert t[3..] == s[i + 3..];
      assert Slice(s, i, i + 3) == t[..3];
      assert Chunks(t) == [t[..3]] + Chunks(t[3..]);
    } else {
      assert Slice(s, i, i + 3) == t;
      assert Chunks(t) == [t];
      if i + 3 <= |s| {
        assert s[i + 3..] == "";
      }
    }
  }

  /** The `for (i = 0; i < n; i += 3)` loop: one delta frame per piece, in order. */
  method Stream(frames: seq<Frame>, text: string) returns (r: seq<Frame>)
    ensures r == frames + Deltas(text)
  {
    r := frames;
    var i: nat := 0;
    while i < |text|
      invariant r + Deltas(if i <= |text| then text[i..] else "") == frames + Deltas(text)
      decreases |text| - i
    {
      var chunk := Slice(text, i, i + 3);
      DeltasStep(text, i);
      r := r + [DeltaFrame(chunk)];
      if i + 3 > |text| {
        assert Deltas("") == [];
      }
      i := i + 3;
    }
  }

  // ---- one pass of the loop (lines 250-401) ----

  const RateLimitText := "Rate limits exceeded, please try again later."
  const PaymentText := "Payment required, please add funds."
  const DirectThought := "Direct response without structured reasoning"
  const Apology := "I've been thinking deeply about your request, but I need more time to formulate a "
    + "complete response. Could you help me focus by being more specific?"

  datatype Stop = Running | Broke | Threw(message: string)

  /** The loop's variables, what it has written, and why it stopped. */
  datatype LoopState = LoopState(iteration: nat, final: string, history: seq<string>, frames: seq<Frame>,
                                 steps: seq<StepRow>, sent: seq<seq<Message>>, stop: Stop)

  /**
   * The request: agent and conversation, the base context, and the two oracles; the model is
   * told the pass number so that it may answer each pass differently.
   */
  datatype Env = Env(agent: nat, conv: Option<nat>, base: seq<Message>,
                     model: (nat, seq<Message>) -> Completion, tool: (nat, string, Input) -> ToolReply)

  function AssistantTurns(history: seq<string>): (r: seq<Message>)
    ensures |r| == |history|
    ensures forall i :: 0 <= i < |history| ==> r[i] == Message("assistant", history[i])
  {
    seq(|history|, i requires 0 <= i < |history| => Message("assistant", history[i]))
  }

  function ToolNote(thought: string, tool: string, result: string): string {
    "[Previous thought: " + thought + "]\n" + "[Used tool: " + tool + "]\n" + "[Tool result: " + result + "]\n"
    + "Continue reasoning with this new information."
  }

  function PlanText(plan: Option<seq<string>>): string {
    if plan.None? then "None" else OrElse(Some(Join(plan.value, " → ")), "None")
  }

  function ContinueNote(r: Reasoning): string {
    "[Previous thought: " + r.thought + "]\n" + "[Plan: " + PlanText(r.plan) + "]\n"
    + "[Criticism: " + OrElse(r.criticism, "None") + "]\n" + "Continue with the next step of your plan."
  }

  /** `tool_input || {}`. */
  function InputOrEmpty(input: Option<Input>): Input {
    if input.Some? then input.value else Input([])
  }

  predicate CallsTool(a: Action) {
    a.kind == "tool" && Truthy(a.toolName)
  }

  /** The reasoning event of a reply that is plain text. */
  function Direct(content: string): Reasoning {
    Reasoning(DirectThought, None, None, Action("respond", None, None, Some(content)))
  }

  /**
   * The effect of the model's reasoning, once its step is stored and announced; a tool result
   * is written to every step row of the conversation with this step number, as at 358-363.
   */
  function Act(s: LoopState, env: Env, r: Reasoning): (a: LoopState)
    ensures a.iteration == s.iteration && a.sent == s.sent && |a.steps| == |s.steps|
  {
    var i := s.iteration;
    if CallsTool(r.action) then
      var name := r.action.toolName.value;
      var input := InputOrEmpty(r.action.toolInput);
      var out := ToolResultText(env.tool(i, name, input));
      s.(frames := s.frames + [ToolCallFrame(name, input), ToolResultFrame(name, out)],
         steps := ResultByStepNumber(s.steps, env.conv, i, out),
         history := s.history + [ToolNote(r.thought, name, out)])
    else if r.action.kind == "continue" then
      s.(history := s.history + [ContinueNote(r)])
    else if r.action.kind == "respond" then
      var m := OrElse(r.action.message, "");
      s.(final := m, frames := s.frames + Deltas(m), stop := Broke)
    else s
  }

  /** One pass: announce it, ask the model with the base context and the history, and act. */
  function Pass(s: LoopState, env: Env): (r: LoopState)
    ensures r.iteration == s.iteration + 1
  {
    var context := env.base + AssistantTurns(s.history);
    var s1 := Announce(s, context);
    Answer(s1, env, env.model(s1.iteration, context))
  }

  /** The start of a pass: the next step number, its `iteration` frame and the request sent. */
  function Announce(s: LoopState, context: seq<Message>): LoopState {
    var i := s.iteration + 1;
    s.(iteration := i, frames := s.frames + [IterationFrame(i, MaxIterations)], sent := s.sent + [context])
  }

  /** The rest of a pass, once the model has answered. */
  function Answer(s1: LoopState, env: Env, c: Completion): (r: LoopState)
    ensures r.iteration == s1.iteration && r.sent == s1.sent
  {
    var i := s1.iteration;
    match c
    case NotOk(status) =>
      if status == 429 then s1.(frames := s1.frames + [ErrorFrame(RateLimitText)], stop := Broke)
      else if status == 402 then s1.(frames := s1.frames + [ErrorFrame(PaymentText)], stop := Broke)
      else s1.(stop := Threw("AI gateway error: " + IntText(status)))
    case Failed(message) => s1.(stop := Threw(message.GetOr("Unknown error")))
    case Unstructured(content) =>
      if Truthy(content) then
        s1.(final := content.value, frames := s1.frames + [ReasoningFrame(i, Direct(content.value))], stop := Broke)
      else s1.(stop := Broke)
    case Unparsable => s1.(stop := Broke)
    case Structured(r) =>
      var row := StepRow(env.conv, env.agent, i, r.thought, r.plan, r.criticism, r.action, None);
      Act(s1.(steps := s1.steps + [row], frames := s1.frames + [ReasoningFrame(i, r)]), env, r)
  }

  /** `while (iteration < MAX_ITERATIONS)`, left early by `break` or a throw. */
  function Loop(s: LoopState, env: Env): (e: LoopState)
    ensures s.stop != Running ==> e == s
    ensures s.iteration <= e.iteration && (s.iteration <= MaxIterations ==> e.iteration <= MaxIterations)
    ensures e.stop == Running ==> e.iteration >= MaxIterations
    decreases MaxIterations - s.iteration
  {
    if s.stop != Running || s.iteration >= MaxIterations then s else Loop(Pass(s, env), env)
  }

  function Start(earlier: seq<StepRow>): LoopState {
    LoopState(0, "", [], [], earlier, [], Running)
  }

  /** Everything a request leaves behind. */
  datatype Transcript = Transcript(frames: seq<Frame>, steps: seq<StepRow>, sent: seq<seq<Message>>,
                                   stored: seq<Stored>, final: string, iterations: nat, threw: bool)

  function MemorySummary(message: string, final: string): string {
    "User asked: \"" + Take(message, 100) + "...\" | Response summary: \"" + Take(final, 200) + "...\""
  }

  function Persisted(env: Env, message: string, final: string): (r: seq<Stored>)
    ensures |r| <= 2
    ensures r != [] <==> final != "" && env.conv.Some?
    ensures |r| == 2 <==> r != [] && |final| > 100
  {
    if final != "" && env.conv.Some? then
      [AssistantMessage(env.conv.value, env.agent, final)]
      + (if |final| > 100 then [ShortTermMemory(env.agent, MemorySummary(message, final), 0.5)] else [])
    else []
  }

  /** After the loop (lines 404-445): the apology, persistence and `[DONE]`, or the error event. */
  function Finish(s: LoopState, env: Env, message: string): (t: Transcript)
    ensures s.frames <= t.frames && t.steps == s.steps && t.sent == s.sent && t.iterations == s.iteration
    ensures t.threw <==> s.stop.Threw?
    ensures t.threw ==> t.stored == [] && t.final == s.final
  {
    match s.stop
    case Threw(m) => Transcript(s.frames + [ErrorFrame(m)], s.steps, s.sent, [], s.final, s.iteration, true)
    case _ =>
      var apologise := s.final == "" && s.iteration >= MaxIterations;
      var final := if apologise then Apology else s.final;
      var frames := s.frames + (if apologise then Deltas(Apology) else []) + [DoneFrame];
      Transcript(frames, s.steps, s.sent, Persisted(env, message, final), final, s.iteration, false)
  }

  /** The whole background task of a request. */
  function Run(env: Env, message: string, earlier: seq<StepRow>): (t: Transcript)
    ensures t.iterations <= MaxIterations
    ensures t.threw ==> t.stored == []
    ensures !t.threw && t.iterations == MaxIterations ==> t.final != ""
  {
    Finish(Loop(Start(earlier), env), env, message)
  }

  // ---- what a request writes ----

  /** The step numbers of the `iteration` frames, in order. */
  function IterationSteps(frames: seq<Frame>): seq<nat> {
    if frames == [] then []
    else (if frames[0].IterationFrame? then [frames[0].step] else []) + IterationSteps(frames[1..])
  }

  lemma {:induction false} IterationStepsAppend(a: seq<Frame>, b: seq<Frame>)
    ensures IterationSteps(a + b) == IterationSteps(a) + IterationSteps(b)
  {
    if a == [] {
      assert a + b == b;
    } else {
      assert (a + b)[0] == a[0] && (a + b)[1..] == a[1..] + b;
      IterationStepsAppend(a[1..], b);
    }
  }

  /** `1, 2, …, n`. */
  function Upto(n: nat): (r: seq<nat>)
    ensures |r| == n
    ensures forall i :: 0 <= i < n ==> r[i] == i + 1
  {
    if n == 0 then [] else Upto(n - 1) + [n]
  }

  predicate Unannounced(frames: seq<Frame>) {
    forall k :: 0 <= k < |frames| ==> !frames[k].IterationFrame?
  }

  /** Frames written after a pass was announced: no other announcement and no `[DONE]`. */
  predicate Quiet(frames: seq<Frame>) {
    Unannounced(frames) && NoDone(frames)
  }

  predicate NoDone(frames: seq<Frame>) {
    forall k :: 0 <= k < |frames| ==> frames[k] != DoneFrame
  }

  /** Every `iteration` frame announces the bound of five. */
  predicate Announced(frames: seq<Frame>) {
    forall k :: 0 <= k < |frames| && frames[k].IterationFrame? ==> frames[k].max == MaxIterations
  }

  lemma {:induction false} QuietSteps(frames: seq<Frame>)
    requires Unannounced(frames)
    ensures IterationSteps(frames) == []
  {
    if frames != [] {
      assert Unannounced(frames[1..]) by {
        forall k | 0 <= k < |frames[1..]| ensures !frames[1..][k].IterationFrame? {
          assert frames[1..][k] == frames[k + 1];
        }
      }
      QuietSteps(frames[1..]);
    }
  }

  lemma DeltasQuiet(s: string)
    ensures Quiet(Deltas(s))
  {
  }

  /** A pass announces itself first and writes nothing else of that kind. */
  lemma PassFrames(s: LoopState, env: Env)
    ensures var p := Pass(s, env);
            && |p.frames| > |s.frames|
            && p.frames[..|s.frames| + 1] == s.frames + [IterationFrame(s.iteration + 1, MaxIterations)]
            && Quiet(p.frames[|s.frames| + 1..])
            && p.sent == s.sent + [env.base + AssistantTurns(s.history)]
  {
    var c := env.base + AssistantTurns(s.history);
    var s1 := Announce(s, c);
    var head := s1.frames;
    var tail := PassTail(s1, env, env.model(s1.iteration, c));
    var p := Pass(s, env);
    assert p.frames == head + tail;
    assert p.frames[..|head|] == head && p.frames[|head|..] == tail;
  }

  /** The frames a pass writes after its announcement. */
  lemma PassTail(s1: LoopState, env: Env, c: Completion) returns (tail: seq<Frame>)
    ensures Quiet(tail)
    ensures Answer(s1, env, c).frames == s1.frames + tail
    ensures var i := s1.iteration;
            match c
            case NotOk(status) =>
              tail == if status == 429 then [ErrorFrame(RateLimitText)]
                      else if status == 402 then [ErrorFrame(PaymentText)] else []
            case Failed(_) => tail == []
            case Unstructured(content) => tail == if Truthy(content) then [ReasoningFrame(i, Direct(content.value))] else []
            case Unparsable => tail == []
            case Structured(r) => tail[..1] == [ReasoningFrame(i, r)]
  {
    var i := s1.iteration;
    match c
    case NotOk(status) =>
      tail := if status == 429 then [ErrorFrame(RateLimitText)] else if status == 402 then [ErrorFrame(PaymentText)] else [];
    case Failed(_) =>
      tail := [];
    case Unstructured(content) =>
      tail := if Truthy(content) then [ReasoningFrame(i, Direct(content.value))] else [];
    case Unparsable =>
      tail := [];
    case Structured(r) =>
      var row := StepRow(env.conv, env.agent, i, r.thought, r.plan, r.criticism, r.action, None);
      var s2 := s1.(steps := s1.steps + [row], frames := s1.frames + [ReasoningFrame(i, r)]);
      ActFrames(s2, env, r);
      var a := Act(s2, env, r);
      tail := [ReasoningFrame(i, r)] + a.frames[|s2.frames|..];
      assert a.frames == s1.frames + tail;
  }

  /** Acting on a reasoning step writes nothing but quiet frames. */
  lemma ActFrames(s: LoopState, env: Env, r: Reasoning)
    ensures var a := Act(s, env, r);
            s.frames <= a.frames && Quiet(a.frames[|s.frames|..])
  {
    var a := Act(s, env, r);
    if !CallsTool(r.action) && r.action.kind != "continue" && r.action.kind == "respond" {
      DeltasQuiet(OrElse(r.action.message, ""));
      assert a.frames[|s.frames|..] == Deltas(OrElse(r.action.message, ""));
    } else {
      assert a.frames == s.frames + a.frames[|s.frames|..];
    }
  }

  /** What the loop has written so far, pass by pass. */
  ghost predicate Written(s: LoopState) {
    && s.iteration <= MaxIterations
    && IterationSteps(s.frames) == Upto(s.iteration)
    && Announced(s.frames)
    && NoDone(s.frames)
    && |s.sent| == s.iteration
  }

  lemma PassWritten(s: LoopState, env: Env)
    requires Written(s) && s.iteration < MaxIterations
    ensures Written(Pass(s, env))
  {
    var p := Pass(s, env);
    PassFrames(s, env);
    var k := |s.frames| + 1;
    assert p.frames == p.frames[..k] + p.frames[k..];
    QuietSteps(p.frames[k..]);
    IterationStepsAppend(p.frames[..k], p.frames[k..]);
    IterationStepsAppend(s.frames, [IterationFrame(s.iteration + 1, MaxIterations)]);
    forall j | 0 <= j < |p.frames| ensures p.frames[j] != DoneFrame
      && (p.frames[j].IterationFrame? ==> p.frames[j].max == MaxIterations) {
      if j >= k {
        assert p.frames[j] == p.frames[k..][j - k];
      } else {
        assert p.frames[j] == p.frames[..k][j];
      }
    }
  }

  /** The loop runs passes 1, 2, … up to at most five, asking the model once in each. */
  lemma {:induction false} LoopWritten(s: LoopState, env: Env)
    requires Written(s)
    ensures var e := Loop(s, env);
            && Written(e)
            && e.iteration >= s.iteration
            && (e.stop == Running ==> e.iteration == MaxIterations)
    decreases MaxIterations - s.iteration
  {
    if s.stop == Running && s.iteration < MaxIterations {
      PassWritten(s, env);
      LoopWritten(Pass(s, env), env);
    }
  }

  /**
   * A request runs between one and five passes, announces them as steps 1, 2, … in order, each
   * with the bound five, and sends exactly one model request per pass.
   */
  lemma RunIterations(env: Env, message: string, earlier: seq<StepRow>)
    ensures var t := Run(env, message, earlier);
            && 1 <= t.iterations <= MaxIterations
            && IterationSteps(t.frames) == Upto(t.iterations)
            && Announced(t.frames)
            && |t.sent| == t.iterations
  {
    var s := Start(earlier);
    var p := Pass(s, env);
    assert IterationSteps([]) == [];
    PassWritten(s, env);
    LoopWritten(p, env);
    var e := Loop(p, env);
    assert e == Loop(s, env);
    FinishTail(e, env, message);
    var t := Finish(e, env, message);
    var tail := t.frames[|e.frames|..];
    assert t.frames == e.frames + tail;
    QuietSteps(tail);
    IterationStepsAppend(e.frames, tail);
  }

  /** After the loop only answer pieces, `[DONE]` or the error event are written. */
  lemma FinishTail(s: LoopState, env: Env, message: string)
    ensures var t := Finish(s, env, message);
            && s.frames <= t.frames
            && Unannounced(t.frames[|s.frames|..])
            && t.iterations == s.iteration && t.sent == s.sent
  {
    var t := Finish(s, env, message);
    DeltasQuiet(Apology);
    if !s.stop.Threw? {
      var mid := if s.final == "" && s.iteration >= MaxIterations then Deltas(Apology) else [];
      assert t.frames[|s.frames|..] == mid + [DoneFrame];
    }
  }

  /**
   * Unless the loop threw, `[DONE]` is the last write and is written once; after a throw the
   * last write is the error event, there is no `[DONE]` and nothing is persisted.
   */
  lemma RunEnds(env: Env, message: string, earlier: seq<StepRow>)
    ensures var t := Run(env, message, earlier);
            && |t.frames| >= 1
            && (t.threw ==> t.frames[|t.frames| - 1].ErrorFrame? && NoDone(t.frames) && t.stored == [])
            && (!t.threw ==> t.frames[|t.frames| - 1] == DoneFrame && NoDone(t.frames[..|t.frames| - 1]))
  {
    LoopWritten(Start(earlier), env);
    FinishEnds(Loop(Start(earlier), env), env, message);
  }

  lemma FinishEnds(s: LoopState, env: Env, message: string)
    requires NoDone(s.frames)
    ensures var t := Finish(s, env, message);
            && |t.frames| >= 1
            && (t.threw ==> t.frames[|t.frames| - 1].ErrorFrame? && NoDone(t.frames) && t.stored == [])
            && (!t.threw ==> t.frames[|t.frames| - 1] == DoneFrame && NoDone(t.frames[..|t.frames| - 1]))
  {
    if s.stop.Threw? {
      ThrownEnds(s, env, message);
    } else {
      DoneEnds(s, env, message);
    }
  }

  /** A thrown request ends with the error event, and nothing after the loop is `[DONE]`. */
  lemma ThrownEnds(s: LoopState, env: Env, message: string)
    requires NoDone(s.frames) && s.stop.Threw?
    ensures var t := Finish(s, env, message);
            && t.frames == s.frames + [ErrorFrame(s.stop.message)] && NoDone(t.frames)
  {
    var t := Finish(s, env, message);
    forall k | 0 <= k < |t.frames| ensures t.frames[k] != DoneFrame {
      if k < |s.frames| {
        assert t.frames[k] == s.frames[k];
      }
    }
  }

  /** A request that did not throw ends with its only `[DONE]`. */
  lemma DoneEnds(s: LoopState, env: Env, message: string)
    requires NoDone(s.frames) && !s.stop.Threw?
    ensures var t := Finish(s, env, message);
            && |t.frames| >= 1 && t.frames[|t.frames| - 1] == DoneFrame && NoDone(t.frames[..|t.frames| - 1])
  {
    var t := Finish(s, env, message);
    var mid := if s.final == "" && s.iteration >= MaxIterations then Deltas(Apology) else [];
    DeltasQuiet(Apology);
    assert NoDone(mid);
    var before := s.frames + mid;
    assert t.frames == before + [DoneFrame];
    assert t.frames[..|t.frames| - 1] == before;
    forall k | 0 <= k < |before| ensures before[k] != DoneFrame {
      if k < |s.frames| {
        assert before[k] == s.frames[k];
      } else {
        assert before[k] == mid[k - |s.frames|];
      }
    }
  }

  /** A loop that ends without an answer after the fifth pass streams the fixed apology. */
  lemma RunApologises(env: Env, message: string, earlier: seq<StepRow>)
    ensures var e := Loop(Start(earlier), env);
            var t := Run(env, message, earlier);
            && (!e.stop.Threw? && e.final == "" && e.iteration == MaxIterations
                ==> t.final == Apology && t.frames == e.frames + Deltas(Apology) + [DoneFrame])
            && (!t.threw ==> t.final != "" || t.iterations < MaxIterations)
  {
  }

  /**
   * An answer is stored as one assistant message when there is a conversation, and also as a
   * short-term memory of importance 0.5 when it is longer than 100 characters.
   */
  lemma RunPersists(env: Env, message: string, earlier: seq<StepRow>)
    ensures var t := Run(env, message, earlier);
            && |t.stored| <= 2
            && (t.stored != [] <==> !t.threw && t.final != "" && env.conv.Some?)
            && (t.stored != [] ==> t.stored[0] == AssistantMessage(env.conv.value, env.agent, t.final))
            && (|t.stored| == 2 <==> t.stored != [] && |t.final| > 100)
            && (|t.stored| == 2 ==> t.stored[1] == ShortTermMemory(env.agent, MemorySummary(message, t.final), 0.5))
  {
  }

  /** The context a pass would send: the base, then every history entry so far. */
  function ContextOf(s: LoopState, env: Env): seq<Message> {
    env.base + AssistantTurns(s.history)
  }

  /**
   * A tool step writes, in this order, the announcement, the reasoning, the tool call and its
   * result; it stores one step row with this step number, writes the result to every row of the
   * conversation with that number (the new row among them), and adds one history entry.
   */
  lemma ToolPassOrder(s: LoopState, env: Env, r: Reasoning)
    requires env.model(s.iteration + 1, ContextOf(s, env)) == Structured(r) && CallsTool(r.action)
    ensures var i := s.iteration + 1;
            var name := r.action.toolName.value;
            var input := InputOrEmpty(r.action.toolInput);
            var out := ToolResultText(env.tool(i, name, input));
            var p := Pass(s, env);
            var row := StepRow(env.conv, env.agent, i, r.thought, r.plan, r.criticism, r.action, None);
            && p.frames == s.frames + [IterationFrame(i, MaxIterations), ReasoningFrame(i, r),
                                       ToolCallFrame(name, input), ToolResultFrame(name, out)]
            && p.steps == ResultByStepNumber(s.steps + [row], env.conv, i, out)
            && (env.conv.Some? ==> p.steps[|s.steps|] == row.(result := Some(out)))
            && p.history == s.history + [ToolNote(r.thought, name, out)]
            && p.stop == s.stop
  {
  }

  /**
   * A pass adds at most one history entry, at the end, and adds one exactly for a tool step
   * that names its tool and for a `continue` step.
   */
  lemma PassHistory(s: LoopState, env: Env)
    ensures var p := Pass(s, env);
            var c := env.model(s.iteration + 1, ContextOf(s, env));
            && s.history <= p.history
            && |p.history| <= |s.history| + 1
            && (|p.history| == |s.history| + 1 <==>
                  c.Structured? && (CallsTool(c.reasoning.action) || c.reasoning.action.kind == "continue"))
  {
    var context := ContextOf(s, env);
    var s1 := Announce(s, context);
    AnswerHistory(s1, env, env.model(s1.iteration, context));
  }

  lemma AnswerHistory(s1: LoopState, env: Env, c: Completion)
    ensures var a := Answer(s1, env, c);
            && s1.history <= a.history
            && |a.history| <= |s1.history| + 1
            && (|a.history| == |s1.history| + 1 <==>
                  c.Structured? && (CallsTool(c.reasoning.action) || c.reasoning.action.kind == "continue"))
  {
    match c
    case Structured(r) =>
      var i := s1.iteration;
      var row := StepRow(env.conv, env.agent, i, r.thought, r.plan, r.criticism, r.action, None);
      ActHistory(s1.(steps := s1.steps + [row], frames := s1.frames + [ReasoningFrame(i, r)]), env, r);
    case _ =>
  }

  lemma ActHistory(s: LoopState, env: Env, r: Reasoning)
    ensures var a := Act(s, env, r);
            && s.history <= a.history
            && |a.history| <= |s.history| + 1
            && (|a.history| == |s.history| + 1 <==> CallsTool(r.action) || r.action.kind == "continue")
  {
  }

  /** Rate limits and payment errors announce one error and stop; other failures throw. */
  lemma PassFailures(s: LoopState, env: Env)
    ensures var p := Pass(s, env);
            var i := s.iteration + 1;
            match env.model(i, ContextOf(s, env))
            case NotOk(status) =>
              if status == 429 || status == 402 then
                && p.frames == s.frames + [IterationFrame(i, MaxIterations),
                                          ErrorFrame(if status == 429 then RateLimitText else PaymentText)]
                && p.stop == Broke && p.steps == s.steps
              else p.stop == Threw("AI gateway error: " + IntText(status))
            case Unparsable =>
              p.frames == s.frames + [IterationFrame(i, MaxIterations)] && p.steps == s.steps && p.stop == Broke
            case Unstructured(content) =>
              p.stop == Broke && p.steps == s.steps && p.final == (if Truthy(content) then content.value else s.final)
            case _ => true
  {
  }

  /** Every request a loop sends is the base context followed by the first history entries. */
  ghost predicate Grounded(sent: seq<seq<Message>>, base: seq<Message>, history: seq<string>) {
    forall j :: 0 <= j < |sent| ==> GroundedAt(sent[j], base, history)
  }

  ghost predicate GroundedAt(request: seq<Message>, base: seq<Message>, history: seq<string>) {
    exists n :: 0 <= n <= |history| && request == base + AssistantTurns(history[..n])
  }

  lemma {:induction false} LoopGrounded(s: LoopState, env: Env)
    requires Grounded(s.sent, env.base, s.history)
    ensures var e := Loop(s, env);
            Grounded(e.sent, env.base, e.history)
    decreases MaxIterations - s.iteration
  {
    if s.stop == Running && s.iteration < MaxIterations {
      var p := Pass(s, env);
      PassFrames(s, env);
      PassHistory(s, env);
      forall j | 0 <= j < |p.sent|
        ensures GroundedAt(p.sent[j], env.base, p.history)
      {
        if j < |s.sent| {
          var n :| 0 <= n <= |s.history| && s.sent[j] == env.base + AssistantTurns(s.history[..n]);
          assert p.history[..n] == s.history[..n];
          assert p.sent[j] == s.sent[j];
        } else {
          assert p.history[..|s.history|] == s.history;
          assert p.sent[j] == env.base + AssistantTurns(p.history[..|s.history|]);
        }
      }
      assert Grounded(p.sent, env.base, p.history);
      LoopGrounded(p, env);
    }
  }

  /**
   * The first request is the base context alone, and every later one is the base context
   * followed by history entries, as assistant turns, in the order the passes produced them.
   */
  lemma RunContexts(env: Env, message: string, earlier: seq<StepRow>)
    ensures var t := Run(env, message, earlier);
            var e := Loop(Start(earlier), env);
            && |t.sent| >= 1 && t.sent[0] == env.base
            && forall j :: 0 <= j < |t.sent| ==> GroundedAt(t.sent[j], env.base, e.history)
  {
    var s := Start(earlier);
    PassFrames(s, env);
    PassHistory(s, env);
    assert AssistantTurns([]) == [] && env.base + [] == env.base;
    var p := Pass(s, env);
    assert p.sent == [env.base];
    assert Grounded(p.sent, env.base, p.history) by {
      assert p.sent[0] == env.base + AssistantTurns(p.history[..0]);
      assert GroundedAt(p.sent[0], env.base, p.history);
    }
    LoopGrounded(p, env);
    RunIterations(env, message, earlier);
    LoopSentPrefix(p, env);
  }

  /**
   * When the loop is given the base context the code assembles, the first request is exactly
   * that context and every later request begins with it.
   */
  lemma RunRequests(env: Env, message: string, earlier: seq<StepRow>, agentPrompt: string,
                    memories: seq<Memories.Memory>, useMemory: bool, tools: Option<seq<Tool>>,
                    rows: seq<ChatRow>, now: nat)
    requires env.base == RequestBase(agentPrompt, memories, env.agent, useMemory, tools, rows, env.conv, message, now)
    ensures var t := Run(env, message, earlier);
            var b := RequestBase(agentPrompt, memories, env.agent, useMemory, tools, rows, env.conv, message, now);
            && |t.sent| >= 1 && t.sent[0] == b
            && forall j :: 0 <= j < |t.sent| ==> b <= t.sent[j]
  {
    RunContexts(env, message, earlier);
    var t := Run(env, message, earlier);
    var e := Loop(Start(earlier), env);
    forall j | 0 <= j < |t.sent| ensures env.base <= t.sent[j] {
      var n :| 0 <= n <= |e.history| && t.sent[j] == env.base + AssistantTurns(e.history[..n]);
    }
  }

  /**
   * As written, once the conversation holds 20 messages, no request of the run contains the
   * user's new message (unless an earlier user message had the same text).
   */
  lemma RunOmitsRequest(env: Env, message: string, earlier: seq<StepRow>, agentPrompt: string,
                        memories: seq<Memories.Memory>, useMemory: bool, tools: Option<seq<Tool>>,
                        rows: seq<ChatRow>, now: nat)
    requires env.conv.Some?
    requires env.base == RequestBase(agentPrompt, memories, env.agent, useMemory, tools, rows, env.conv, message, now)
    requires |Conversation(rows, env.conv)| >= HistoryLimit
    requires forall r :: r in rows && r.role == "user" ==> r.content != message
    ensures var t := Run(env, message, earlier);
            forall j :: 0 <= j < |t.sent| ==> Message("user", message) !in t.sent[j]
  {
    RequestBaseOmitsRequest(agentPrompt, memories, env.agent, useMemory, tools, rows, env.conv, message, now);
    RunContexts(env, message, earlier);
    var t := Run(env, message, earlier);
    var e := Loop(Start(earlier), env);
    forall j | 0 <= j < |t.sent| ensures Message("user", message) !in t.sent[j] {
      var n :| 0 <= n <= |e.history| && t.sent[j] == env.base + AssistantTurns(e.history[..n]);
      var a := AssistantTurns(e.history[..n]);
      assert Message("user", message) !in a;
    }
  }

  /** As written, once the conversation holds 20 messages, the request's context leaves the new message out. */
  lemma RequestBaseOmitsRequest(agentPrompt: string, memories: seq<Memories.Memory>, agent: nat, useMemory: bool,
                                tools: Option<seq<Tool>>, rows: seq<ChatRow>, conv: Option<nat>, message: string,
                                now: nat)
    requires conv.Some?
    requires |Conversation(rows, conv)| >= HistoryLimit
    requires forall r :: r in rows && r.role == "user" ==> r.content != message
    ensures Message("user", message) !in RequestBase(agentPrompt, memories, agent, useMemory, tools, rows, conv, message, now)
  {
    var b := RequestBase(agentPrompt, memories, agent, useMemory, tools, rows, conv, message, now);
    var req := ChatRow(conv, None, "user", message, now);
    var c := Conversation(rows, conv);
    ConversationWithRequest(rows, conv, message, now);
    var w := OldestWindow(WithRequest(rows, conv, message, now), conv);
    assert w == c[..HistoryLimit] by {
      assert (c + [req])[..HistoryLimit] == c[..HistoryLimit];
    }
    forall k | 0 <= k < |b| ensures b[k] != Message("user", message) {
      if k > 0 {
        assert b[k] == b[1..][k - 1] == Turns(w)[k - 1];
        assert w[k - 1] == c[k - 1] && c[k - 1] in multiset(c);
        assert c[k - 1] in rows;
      }
    }
  }

  /** The corrected base context ends with the user's new message. */
  lemma RequestBaseCorrectedEnds(agentPrompt: string, memories: seq<Memories.Memory>, agent: nat, useMemory: bool,
                                 tools: Option<seq<Tool>>, rows: seq<ChatRow>, conv: Option<nat>, message: string,
                                 now: nat)
    requires conv.Some?
    ensures var b := RequestBaseCorrected(agentPrompt, memories, agent, useMemory, tools, rows, conv, message, now);
            b[|b| - 1] == Message("user", message)
  {
    var prompt := SystemPrompt(agentPrompt, MemoryContext(memories, agent, useMemory), ToolsContext(tools));
    BaseContextEndsWithRequest(prompt, rows, conv, message, now);
  }

  /** Corrected, every request of the run contains the user's new message. */
  lemma RunCorrectedSendsRequest(env: Env, message: string, earlier: seq<StepRow>, agentPrompt: string,
                                 memories: seq<Memories.Memory>, useMemory: bool, tools: Option<seq<Tool>>,
                                 rows: seq<ChatRow>, now: nat)
    requires env.conv.Some?
    requires env.base
             == RequestBaseCorrected(agentPrompt, memories, env.agent, useMemory, tools, rows, env.conv, message, now)
    ensures var t := Run(env, message, earlier);
            forall j :: 0 <= j < |t.sent| ==> Message("user", message) in t.sent[j]
  {
    var b := env.base;
    RequestBaseCorrectedEnds(agentPrompt, memories, env.agent, useMemory, tools, rows, env.conv, message, now);
    RunContexts(env, message, earlier);
    var t := Run(env, message, earlier);
    var e := Loop(Start(earlier), env);
    forall j | 0 <= j < |t.sent| ensures Message("user", message) in t.sent[j] {
      var n :| 0 <= n <= |e.history| && t.sent[j] == b + AssistantTurns(e.history[..n]);
      assert t.sent[j][|b| - 1] == b[|b| - 1];
    }
  }

  lemma {:induction false} LoopSentPrefix(s: LoopState, env: Env)
    ensures s.sent <= Loop(s, env).sent
    decreases MaxIterations - s.iteration
  {
    if s.stop == Running && s.iteration < MaxIterations {
      PassFrames(s, env);
      LoopSentPrefix(Pass(s, env), env);
    }
  }

  /** What the loop does with a reasoning step (lines 320-401), once the step is stored. */
  method ActOn(s: LoopState, env: Env, r: Reasoning) returns (a: LoopState)
    ensures a == Act(s, env, r)
  {
    a := s;
    if CallsTool(r.action) {
      var name := r.action.toolName.value;
      var input := InputOrEmpty(r.action.toolInput);
      var frames := s.frames + [ToolCallFrame(name, input)];
      var out := ToolResultText(env.tool(s.iteration, name, input));
      var steps := ResultByStepNumber(s.steps, env.conv, s.iteration, out);
      frames := frames + [ToolResultFrame(name, out)];
      a := s.(frames := frames, steps := steps, history := s.history + [ToolNote(r.thought, name, out)]);
    } else if r.action.kind == "continue" {
      a := s.(history := s.history + [ContinueNote(r)]);
    } else if r.action.kind == "respond" {
      var final := OrElse(r.action.message, "");
      var frames := Stream(s.frames, final);
      a := s.(final := final, frames := frames, stop := Broke);
    }
  }

  /** One pass of the loop body (lines 250-401). */
  method RunPass(s: LoopState, env: Env) returns (p: LoopState)
    ensures p == Pass(s, env)
  {
    var iteration := s.iteration + 1;
    var frames := s.frames + [IterationFrame(iteration, MaxIterations)];
    var context := env.base + AssistantTurns(s.history);
    p := s.(iteration := iteration, frames := frames, sent := s.sent + [context]);
    match env.model(iteration, context)
    case NotOk(status) =>
      if status == 429 {
        p := p.(frames := frames + [ErrorFrame(RateLimitText)], stop := Broke);
      } else if status == 402 {
        p := p.(frames := frames + [ErrorFrame(PaymentText)], stop := Broke);
      } else {
        p := p.(stop := Threw("AI gateway error: " + IntText(status)));
      }
    case Failed(m) =>
      p := p.(stop := Threw(m.GetOr("Unknown error")));
    case Unstructured(content) =>
      if Truthy(content) {
        p := p.(final := content.value, frames := frames + [ReasoningFrame(iteration, Direct(content.value))]);
      }
      p := p.(stop := Broke);
    case Unparsable =>
      p := p.(stop := Broke);
    case Structured(r) =>
      var row := StepRow(env.conv, env.agent, iteration, r.thought, r.plan, r.criticism, r.action, None);
      p := ActOn(p.(steps := s.steps + [row], frames := frames + [ReasoningFrame(iteration, r)]), env, r);
  }

  /** The background task as the source writes it, step by step. */
  method RunLoop(env: Env, message: string, earlier: seq<StepRow>) returns (t: Transcript)
    ensures t == Run(env, message, earlier)
  {
    var s := Start(earlier);
    while s.stop == Running && s.iteration < MaxIterations
      invariant Loop(s, env) == Loop(Start(earlier), env)
      decreases MaxIterations - s.iteration
    {
      s := RunPass(s, env);
    }
    var frames := s.frames;
    var final := s.final;
    if s.stop.Threw? {
      frames := frames + [ErrorFrame(s.stop.message)];
      return Transcript(frames, s.steps, s.sent, [], final, s.iteration, true);
    }
    if final == "" && s.iteration >= MaxIterations {
      final := Apology;
      frames := Stream(frames, final);
    }
    var stored: seq<Stored> := [];
    if final != "" && env.conv.Some? {
      stored := [AssistantMessage(env.conv.value, env.agent, final)];
      if |final| > 100 {
        stored := stored + [ShortTermMemory(env.agent, MemorySummary(message, final), 0.5)];
      }
    }
    frames := frames + [DoneFrame];
    t := Transcript(frames, s.steps, s.sent, stored, final, s.iteration, false);
  }
}
