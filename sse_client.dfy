/**
 * The client side of the event stream (src/hooks/useAgentChat.ts): the hook's state, the
 * buffer that collects decoded chunks, the split into `\n\n`-terminated blocks and their
 * `event:`/`data:` lines, and what each kind of event does to the messages and the reasoning
 * steps shown to the user.
 *
 * `JSON.parse` is an oracle, `parse`, that gives back the fields the hook reads, or `None`
 * when the text is not JSON.  The empty text is never JSON, so a faithful oracle has
 * `parse("") == None`; `EmptyDataIgnored` states what a block without data then does.
 * Chunks arrive already decoded to text.
 */
module SseClient {
  import opened Wrappers
  import opened Text

  // ---- the wire format written by the server (supabase/functions/agent-chat/index.ts:238-240) ----

  function EventLine(event: string): string {
    "event: " + event
  }

  function DataLine(data: string): string {
    "data: " + data
  }

  /** The block of a named event: its `event:` line and its `data:` line. */
  function Block(event: string, data: string): string {
    EventLine(event) + "\n" + DataLine(data)
  }

  /** A named event on the wire: its block and a blank line. */
  function Wire(event: string, data: string): string {
    Block(event, data) + "\n\n"
  }

  /** A frame with data only (the answer pieces and `[DONE]`). */
  function DataWire(data: string): string {
    DataLine(data) + "\n\n"
  }

  // ---- blocks and lines ----

  predicate StartsWith(s: string, p: string) {
    p <= s
  }

  /**
   * Cuts every complete `\n\n`-terminated block off the front of `buffer`, in order; the
   * second component is what remains.
   */
  function SplitBlocks(buffer: string): (seq<string>, string)
    decreases |buffer|
  {
    var k := IndexOf(buffer, "\n\n");
    if k < 0 then ([], buffer)
    else
      var rest := SplitBlocks(buffer[k + 2..]);
      ([buffer[..k]] + rest.0, rest.1)
  }

  /** What remains holds no complete block. */
  lemma {:induction false} SplitBlocksRest(buffer: string)
    ensures IndexOf(SplitBlocks(buffer).1, "\n\n") == -1
    decreases |buffer|
  {
    var k := IndexOf(buffer, "\n\n");
    if k >= 0 {
      SplitBlocksRest(buffer[k + 2..]);
    }
  }

  /** The blocks and the remainder put back together give the buffer. */
  lemma {:induction false} SplitBlocksJoin(buffer: string)
    ensures var r := SplitBlocks(buffer);
            Join(r.0 + [r.1], "\n\n") == buffer
    decreases |buffer|
  {
    var k := IndexOf(buffer, "\n\n");
    if k >= 0 {
      var rest := SplitBlocks(buffer[k + 2..]);
      SplitBlocksJoin(buffer[k + 2..]);
      assert ([buffer[..k]] + rest.0 + [rest.1])[1..] == rest.0 + [rest.1];
      assert buffer == buffer[..k] + "\n\n" + buffer[k + 2..];
    }
  }

  /** A block's `event:` and `data:` after one more line: the last of each kind wins. */
  function FieldStep(fields: (string, string), line: string): (string, string) {
    if StartsWith(line, "event: ") then (line[7..], fields.1)
    else if StartsWith(line, "data: ") then (fields.0, line[6..])
    else fields
  }

  /** The fields after the given lines, starting from type `message` and empty data. */
  function Fields(lines: seq<string>): (string, string)
    decreases |lines|
  {
    if lines == [] then ("message", "") else FieldStep(Fields(lines[..|lines| - 1]), lines[|lines| - 1])
  }

  /** What the hook reads from one block. */
  function ParseBlock(block: string): (r: (string, string))
    ensures r == (LastWith(SplitLines(block), "event: ").GetOr("message"), LastWith(SplitLines(block), "data: ").GetOr(""))
  {
    FieldsAreLast(SplitLines(block));
    Fields(SplitLines(block))
  }

  /** The text after `p` on the last line that starts with `p`, if any. */
  function LastWith(lines: seq<string>, p: string): Option<string>
    decreases |lines|
  {
    if lines == [] then None
    else if StartsWith(lines[|lines| - 1], p) then Some(lines[|lines| - 1][|p|..])
    else LastWith(lines[..|lines| - 1], p)
  }

  /** The event type is the last `event: ` line (else `message`), the data the last `data: ` line (else empty). */
  lemma {:induction false} FieldsAreLast(lines: seq<string>)
    ensures Fields(lines) == (LastWith(lines, "event: ").GetOr("message"), LastWith(lines, "data: ").GetOr(""))
    decreases |lines|
  {
    if lines != [] {
      FieldsAreLast(lines[..|lines| - 1]);
      var line := lines[|lines| - 1];
      if StartsWith(line, "event: ") {
        assert !StartsWith(line, "data: ") by {
          assert line[0] == 'e';
        }
      }
    }
  }

  /** A text without newlines has no blank line. */
  lemma NoNewlineNoBlank(s: string)
    requires '\n' !in s
    ensures forall i :: 0 <= i <= |s| ==> !At(s, i, "\n\n")
  {
    forall i | 0 <= i && i + 2 <= |s| ensures !At(s, i, "\n\n") {
      assert s[i] in s;
      assert s[i..i + 2] == [s[i], s[i + 1]];
    }
  }

  /** Two newline-free lines joined by one newline have no blank line. */
  lemma NoBlankLineInside(x: string, y: string)
    requires '\n' !in x && '\n' !in y && y != []
    ensures forall i :: 0 <= i <= |x + "\n" + y| ==> !At(x + "\n" + y, i, "\n\n")
  {
    var s := x + "\n" + y;
    forall i | 0 <= i && i + 2 <= |s| ensures !At(s, i, "\n\n") {
      assert s[i..i + 2] == [s[i], s[i + 1]];
      if i < |x| {
        assert s[i] == x[i] && x[i] in x;
      } else if i == |x| {
        assert s[i + 1] == y[0] && y[0] in y;
      } else {
        assert s[i] == y[i - |x| - 1] && y[i - |x| - 1] in y;
      }
    }
  }

  /** The first blank line after a text that has none and does not end a line. */
  lemma FirstBlankLine(a: string, b: string)
    requires forall i :: 0 <= i <= |a| ==> !At(a, i, "\n\n")
    requires a == [] || a[|a| - 1] != '\n'
    ensures IndexOf(a + "\n\n" + b, "\n\n") == |a|
  {
    var s := a + "\n\n" + b;
    assert s[|a|..|a| + 2] == "\n\n";
    assert At(s, |a|, "\n\n");
    forall i | 0 <= i < |a| ensures !At(s, i, "\n\n") {
      assert s[i..i + 2] == [s[i], s[i + 1]];
      if i + 1 < |a| {
        assert !At(a, i, "\n\n");
        assert a[i..i + 2] == [a[i], a[i + 1]];
        assert s[i] == a[i] && s[i + 1] == a[i + 1];
      } else {
        assert s[i] == a[|a| - 1];
      }
    }
  }

  lemma LinesWithoutNewline(event: string, data: string)
    requires '\n' !in event && '\n' !in data
    ensures '\n' !in EventLine(event) && '\n' !in DataLine(data)
  {
    assert '\n' !in "event: " && '\n' !in "data: ";
  }

  /** An `event:` line is not a `data:` line, and each gives back its text. */
  lemma LinePrefixes(event: string, data: string)
    ensures StartsWith(EventLine(event), "event: ") && EventLine(event)[7..] == event
    ensures StartsWith(DataLine(data), "data: ") && DataLine(data)[6..] == data
    ensures !StartsWith(EventLine(event), "data: ") && !StartsWith(DataLine(data), "event: ")
  {
    assert EventLine(event)[0] == 'e' && DataLine(data)[0] == 'd';
  }

  /** Round trip, first half: a whole event on an empty buffer is exactly one block. */
  lemma WireBlocks(event: string, data: string)
    requires '\n' !in event && '\n' !in data
    ensures SplitBlocks(Wire(event, data)) == ([Block(event, data)], "")
  {
    var x := EventLine(event);
    var y := DataLine(data);
    var a := Block(event, data);
    LinesWithoutNewline(event, data);
    NoBlankLineInside(x, y);
    assert a[|a| - 1] == y[|y| - 1];
    FirstBlankLine(a, "");
    var w := Wire(event, data);
    assert w == a + "\n\n" + "";
    assert w[|a| + 2..] == "" && w[..|a|] == a;
    assert SplitBlocks("") == ([], "");
    SplitBlocksStep(w, |a|, a, "");
    assert [a] + [] == [a];
  }

  /** Round trip, second half: the block parses back to the event's type and data. */
  lemma BlockFields(event: string, data: string)
    requires '\n' !in event && '\n' !in data
    ensures ParseBlock(Block(event, data)) == (event, data)
  {
    var x := EventLine(event);
    var y := DataLine(data);
    LinesWithoutNewline(event, data);
    JoinSplitLines([x, y]);
    assert Join([x, y], "\n") == Block(event, data) by {
      assert [x, y][1..] == [y];
    }
    assert [x, y][..1] == [x] && [x][..0] == [];
    LinePrefixes(event, data);
    assert Fields([x]) == (event, "");
    assert Fields([x, y]) == FieldStep(Fields([x]), y);
  }

  /** A data-only frame is one block, parsed as a `message` with that data. */
  lemma DataWireRoundTrip(data: string)
    requires '\n' !in data
    ensures SplitBlocks(DataWire(data)) == ([DataLine(data)], "")
    ensures ParseBlock(DataLine(data)) == ("message", data)
  {
    var y := DataLine(data);
    LinesWithoutNewline("", data);
    NoNewlineNoBlank(y);
    FirstBlankLine(y, "");
    var w := DataWire(data);
    assert w == y + "\n\n" + "";
    assert w[|y| + 2..] == "" && w[..|y|] == y;
    assert SplitBlocks("") == ([], "");
    SplitBlocksStep(w, |y|, y, "");
    assert [y] + [] == [y];
    JoinSplitLines([y]);
    assert Join([y], "\n") == y;
    assert [y][..0] == [];
    LinePrefixes("", data);
    assert Fields([y]) == FieldStep(("message", ""), y);
  }

  /** The first occurrence in a text stays the first when more text follows. */
  lemma IndexOfExtend(x: string, y: string, p: string)
    requires IndexOf(x, p) >= 0
    ensures IndexOf(x + y, p) == IndexOf(x, p)
  {
    var k := IndexOf(x, p);
    assert (x + y)[k..k + |p|] == x[k..k + |p|];
    assert At(x + y, k, p);
    forall i | 0 <= i < k ensures !At(x + y, i, p) {
      assert !At(x, i, p);
      assert (x + y)[i..i + |p|] == x[i..i + |p|];
    }
  }

  /** One step of `SplitBlocks`. */
  lemma SplitBlocksStep(buffer: string, k: int, block: string, after: string)
    requires IndexOf(buffer, "\n\n") == k >= 0
    requires block == buffer[..k] && after == buffer[k + 2..]
    ensures SplitBlocks(buffer).0 == [block] + SplitBlocks(after).0
    ensures SplitBlocks(buffer).1 == SplitBlocks(after).1
  {
  }

  /** Cutting blocks from a longer buffer first cuts the blocks of its front part. */
  lemma {:induction false} SplitBlocksAppend(x: string, y: string)
    ensures SplitBlocks(x + y)
            == (SplitBlocks(x).0 + SplitBlocks(SplitBlocks(x).1 + y).0, SplitBlocks(SplitBlocks(x).1 + y).1)
    decreases |x|
  {
    if IndexOf(x, "\n\n") >= 0 {
      SplitBlocksAppendStep(x, y);
    } else {
      assert SplitBlocks(x) == ([], x);
      assert [] + SplitBlocks(x + y).0 == SplitBlocks(x + y).0;
    }
  }

  lemma Regroup<T>(a: seq<T>, b: seq<T>, c: seq<T>)
    ensures a + (b + c) == (a + b) + c
  {
  }

  lemma {:induction false} SplitBlocksAppendStep(x: string, y: string)
    requires IndexOf(x, "\n\n") >= 0
    ensures SplitBlocks(x + y)
            == (SplitBlocks(x).0 + SplitBlocks(SplitBlocks(x).1 + y).0, SplitBlocks(SplitBlocks(x).1 + y).1)
    decreases |x|, 0
  {
    var k := IndexOf(x, "\n\n");
    var block := x[..k];
    var t := x[k + 2..];
    var rest := SplitBlocks(t);
    var rest2 := SplitBlocks(rest.1 + y);
    var whole := SplitBlocks(x + y);
    assert whole.0 == [block] + SplitBlocks(t + y).0 && whole.1 == SplitBlocks(t + y).1 by {
      IndexOfExtend(x, y, "\n\n");
      assert (x + y)[k + 2..] == t + y;
      assert (x + y)[..k] == block;
      SplitBlocksStep(x + y, k, block, t + y);
    }
    var front := SplitBlocks(x);
    assert front.0 == [block] + rest.0 && front.1 == rest.1 by {
      SplitBlocksStep(x, k, block, t);
    }
    var after := SplitBlocks(t + y);
    assert after.0 == rest.0 + rest2.0 && after.1 == rest2.1 by {
      SplitBlocksAppend(t, y);
    }
    calc {
      whole.0;
      [block] + (rest.0 + rest2.0);
      { Regroup([block], rest.0, rest2.0); }
      front.0 + rest2.0;
    }
  }

  // ---- what the hook shows ----

  datatype ChatMessage = ChatMessage(role: string, content: string)

  /** `action` as the hook reads it. */
  datatype ActionView = ActionView(kind: Option<string>, toolName: Option<string>, toolInput: Option<string>)

  /** The fields of a parsed event body that the hook reads; `content` is `choices[0].delta.content`. */
  datatype Json = Json(step: Option<int>, action: Option<ActionView>, tool: Option<string>, input: Option<string>,
                       result: Option<string>, message: Option<string>, content: Option<string>)

  /** A reasoning step as displayed: the event body, its action as updated by `tool_call`, and the tool result. */
  datatype ClientStep = ClientStep(data: Json, action: Option<ActionView>, toolResult: Option<string>)

  /** The part of the hook's state that events change. */
  datatype Ui = Ui(messages: seq<ChatMessage>, steps: seq<ClientStep>, currentStep: Option<int>, thinking: bool)

  /** A delta's content, when present, is appended and shown as the last assistant message. */
  function Delta(ui: Ui, content: string, piece: Option<string>): (r: (Ui, string))
    ensures r.1 == content + (if Truthy(piece) then piece.value else "")
    ensures r.0.steps == ui.steps && r.0.currentStep == ui.currentStep && |r.0.messages| == |ui.messages|
  {
    if !Truthy(piece) then (ui, content)
    else
      var c := content + piece.value;
      var ms := ui.messages;
      var shown := if ms != [] && ms[|ms| - 1].role == "assistant" then ms[..|ms| - 1] + [ChatMessage("assistant", c)] else ms;
      (ui.(thinking := false, messages := shown), c)
  }

  /** The `catch` around an event: try the data once more as a content delta. */
  function Retry(ui: Ui, content: string, data: string, parse: string -> Option<Json>): (r: (Ui, string))
    ensures r.0.steps == ui.steps && r.0.currentStep == ui.currentStep && |r.0.messages| == |ui.messages|
    ensures content <= r.1
    ensures data == "" || data == "[DONE]" || parse(data).None? ==> r == (ui, content)
  {
    if data != "" && data != "[DONE]" && parse(data).Some? then Delta(ui, content, parse(data).value.content)
    else (ui, content)
  }

  /** `tool_call` replaces the tool name and input of the last step's action. */
  function WithTool(s: ClientStep, j: Json): ClientStep {
    var kind := if s.action.Some? then s.action.value.kind else None;
    s.(action := Some(ActionView(kind, j.tool, j.input)))
  }

  /** What one block does, given its event type and data. */
  function HandleEvent(ui: Ui, content: string, eventType: string, data: string, parse: string -> Option<Json>)
    : (r: (Ui, string))
    ensures data == "[DONE]" ==> r == (ui, content)
    ensures |r.0.messages| == |ui.messages| && content <= r.1
    ensures parse(data).Some? && eventType in ["iteration", "reasoning", "tool_call", "tool_result"] ==>
              r.1 == content && r.0.messages == ui.messages
  {
    if data == "[DONE]" then (ui, content)
    else if parse(data).None? then Retry(ui, content, data, parse)
    else
      var j := parse(data).value;
      var n := |ui.steps|;
      if eventType == "iteration" then (ui.(currentStep := j.step), content)
      else if eventType == "reasoning" then
        (ui.(steps := ui.steps + [ClientStep(j, j.action, None)],
             thinking := if j.action.Some? && j.action.value.kind == Some("respond") then false else ui.thinking),
         content)
      else if eventType == "tool_call" then
        (if n > 0 then ui.(steps := ui.steps[..n - 1] + [WithTool(ui.steps[n - 1], j)]) else ui, content)
      else if eventType == "tool_result" then
        (if n > 0 then ui.(steps := ui.steps[..n - 1] + [ui.steps[n - 1].(toolResult := j.result)]) else ui, content)
      else if eventType == "error" then Retry(ui, content, data, parse)
      else Delta(ui, content, j.content)
  }

  /** The blocks of a read, handled in order. */
  function ApplyBlocks(ui: Ui, content: string, blocks: seq<string>, parse: string -> Option<Json>): (r: (Ui, string))
    ensures |r.0.messages| == |ui.messages| && content <= r.1
    decreases |blocks|
  {
    if blocks == [] then (ui, content)
    else
      var (e, d) := ParseBlock(blocks[0]);
      var (u, c) := HandleEvent(ui, content, e, d, parse);
      ApplyBlocks(u, c, blocks[1..], parse)
  }

  lemma {:induction false} ApplyBlocksAppend(ui: Ui, content: string, a: seq<string>, b: seq<string>,
                                             parse: string -> Option<Json>)
    ensures var (u, c) := ApplyBlocks(ui, content, a, parse);
            ApplyBlocks(ui, content, a + b, parse) == ApplyBlocks(u, c, b, parse)
    decreases |a|
  {
    if a == [] {
      assert a + b == b;
    } else {
      assert (a + b)[0] == a[0] && (a + b)[1..] == a[1..] + b;
      var (e, d) := ParseBlock(a[0]);
      var (u, c) := HandleEvent(ui, content, e, d, parse);
      ApplyBlocksAppend(u, c, a[1..], b, parse);
    }
  }

  /** A single block is handled by its own type and data. */
  lemma ApplyOne(ui: Ui, content: string, block: string, parse: string -> Option<Json>)
    ensures ApplyBlocks(ui, content, [block], parse)
            == HandleEvent(ui, content, ParseBlock(block).0, ParseBlock(block).1, parse)
  {
    var h := HandleEvent(ui, content, ParseBlock(block).0, ParseBlock(block).1, parse);
    assert [block][1..] == [];
    assert ApplyBlocks(h.0, h.1, [], parse) == h;
  }

  /** Handling the blocks of a buffer is handling its first block, then those after it. */
  lemma ApplyFirstBlock(ui: Ui, content: string, buffer: string, k: int, block: string, after: string,
                        parse: string -> Option<Json>)
    requires IndexOf(buffer, "\n\n") == k >= 0
    requires block == buffer[..k] && after == buffer[k + 2..]
    ensures var h := HandleEvent(ui, content, ParseBlock(block).0, ParseBlock(block).1, parse);
            && ApplyBlocks(ui, content, SplitBlocks(buffer).0, parse) == ApplyBlocks(h.0, h.1, SplitBlocks(after).0, parse)
            && SplitBlocks(buffer).1 == SplitBlocks(after).1
  {
    SplitBlocksStep(buffer, k, block, after);
    var blocks := [block] + SplitBlocks(after).0;
    assert blocks[0] == block && blocks[1..] == SplitBlocks(after).0;
  }

  /** The state of one stream: what is shown, the content so far and the unprocessed buffer. */
  datatype Reading = Reading(ui: Ui, content: string, buffer: string)

  /** One read, handling only complete blocks: the buffer keeps the incomplete one. */
  function Feed(r: Reading, chunk: string, parse: string -> Option<Json>): (e: Reading)
    ensures IndexOf(e.buffer, "\n\n") == -1
    ensures |e.ui.messages| == |r.ui.messages| && r.content <= e.content
  {
    SplitBlocksRest(r.buffer + chunk);
    var (blocks, rest) := SplitBlocks(r.buffer + chunk);
    var (u, c) := ApplyBlocks(r.ui, r.content, blocks, parse);
    Reading(u, c, rest)
  }

  /**
   * Where a read ends makes no difference: two reads give what one read of both chunks gives,
   * so an event cut anywhere by the transport is still handled whole and once.
   */
  lemma FeedSplitAnywhere(r: Reading, c1: string, c2: string, parse: string -> Option<Json>)
    ensures Feed(Feed(r, c1, parse), c2, parse) == Feed(r, c1 + c2, parse)
  {
    var x := r.buffer + c1;
    SplitBlocksAppend(x, c2);
    assert x + c2 == r.buffer + (c1 + c2);
    var first := SplitBlocks(x);
    var second := SplitBlocks(first.1 + c2);
    assert SplitBlocks(r.buffer + (c1 + c2)) == (first.0 + second.0, second.1);
    ApplyBlocksAppend(r.ui, r.content, first.0, second.0, parse);
    var mid := Feed(r, c1, parse);
    assert mid.buffer == first.1;
    assert (mid.ui, mid.content) == ApplyBlocks(r.ui, r.content, first.0, parse);
  }

  /** A `[DONE]` block changes nothing. */
  lemma DoneIgnored(ui: Ui, content: string, eventType: string, parse: string -> Option<Json>)
    ensures HandleEvent(ui, content, eventType, "[DONE]", parse) == (ui, content)
  {
  }

  /** The last message is the assistant's, showing the content received so far. */
  predicate InSync(ui: Ui, content: string) {
    ui.messages != [] && ui.messages[|ui.messages| - 1] == ChatMessage("assistant", content)
  }

  /** Every event keeps the last message equal to the concatenated deltas, and only appends to them. */
  lemma HandleEventInSync(ui: Ui, content: string, eventType: string, data: string, parse: string -> Option<Json>)
    requires InSync(ui, content)
    ensures var (u, c) := HandleEvent(ui, content, eventType, data, parse);
            InSync(u, c) && content <= c && u.messages[..|u.messages| - 1] == ui.messages[..|ui.messages| - 1]
  {
  }

  lemma {:induction false} ApplyBlocksInSync(ui: Ui, content: string, blocks: seq<string>, parse: string -> Option<Json>)
    requires InSync(ui, content)
    ensures var (u, c) := ApplyBlocks(ui, content, blocks, parse);
            InSync(u, c) && content <= c && u.messages[..|u.messages| - 1] == ui.messages[..|ui.messages| - 1]
    decreases |blocks|
  {
    if blocks != [] {
      var (e, d) := ParseBlock(blocks[0]);
      HandleEventInSync(ui, content, e, d, parse);
      var (u, c) := HandleEvent(ui, content, e, d, parse);
      ApplyBlocksInSync(u, c, blocks[1..], parse);
    }
  }

  /**
   * The reasoning steps: `reasoning` appends one step, `iteration` sets the current step, and
   * `tool_call` and `tool_result` change the last step only, or nothing when there is none.
   */
  lemma StepEvents(ui: Ui, content: string, eventType: string, data: string, parse: string -> Option<Json>)
    requires data != "[DONE]" && parse(data).Some?
    ensures var (u, _) := HandleEvent(ui, content, eventType, data, parse);
            var j := parse(data).value;
            var n := |ui.steps|;
            && (eventType == "reasoning" ==> u.steps == ui.steps + [ClientStep(j, j.action, None)])
            && (eventType == "iteration" ==> u.currentStep == j.step && u.steps == ui.steps)
            && (eventType == "tool_call" || eventType == "tool_result" ==>
                  |u.steps| == n && u.steps[..if n > 0 then n - 1 else 0] == ui.steps[..if n > 0 then n - 1 else 0])
            && (eventType == "tool_result" && n > 0 ==> u.steps[n - 1] == ui.steps[n - 1].(toolResult := j.result))
            && (eventType == "tool_call" && n > 0 ==>
                  u.steps[n - 1].action.Some? && u.steps[n - 1].action.value.toolName == j.tool
                  && u.steps[n - 1].toolResult == ui.steps[n - 1].toolResult)
            && (eventType != "reasoning" && eventType != "tool_call" && eventType != "tool_result" ==> u.steps == ui.steps)
  {
  }

  /** A block without a `data: ` line changes nothing, whatever its type, when `""` does not parse. */
  lemma EmptyDataIgnored(ui: Ui, content: string, eventType: string, parse: string -> Option<Json>)
    requires parse("") == None
    ensures HandleEvent(ui, content, eventType, "", parse) == (ui, content)
  {
  }

  /** An `error` event is swallowed: it is only retried as a delta, and the stream goes on. */
  lemma ErrorEventSwallowed(ui: Ui, content: string, data: string, parse: string -> Option<Json>)
    ensures HandleEvent(ui, content, "error", data, parse) == Retry(ui, content, data, parse)
  {
  }

  // ---- the read as written (lines 206-232) ----

  /** After the blocks, the trailing loop also eats every complete line left in the buffer. */
  function EatLines(ui: Ui, content: string, buffer: string, parse: string -> Option<Json>): (r: Reading)
    ensures IndexOf(r.buffer, "\n") == -1
    ensures |r.ui.messages| == |ui.messages| && content <= r.content
    decreases |buffer|
  {
    var k := IndexOf(buffer, "\n");
    if k < 0 then Reading(ui, content, buffer)
    else
      var line := buffer[..k];
      var (u, c) := if StartsWith(line, "data: ") && line != "data: [DONE]" && parse(line[6..]).Some?
                    then Delta(ui, content, parse(line[6..]).value.content) else (ui, content);
      EatLines(u, c, buffer[k + 1..], parse)
  }

  /** As written, a loose `data: [DONE]` line is dropped without effect. */
  lemma EatLinesSkipsDone(ui: Ui, content: string, rest: string, parse: string -> Option<Json>)
    ensures EatLines(ui, content, "data: [DONE]" + "\n" + rest, parse) == EatLines(ui, content, rest, parse)
  {
    var line := "data: [DONE]";
    var s := line + "\n" + rest;
    FirstNewline(line, rest);
    assert s[..|line|] == line && s[|line| + 1..] == rest;
  }

  /** One read as the hook is written: complete blocks, then the loose lines of the remainder. */
  function FeedAsWritten(r: Reading, chunk: string, parse: string -> Option<Json>): (e: Reading)
    ensures IndexOf(e.buffer, "\n") == -1
    ensures |e.ui.messages| == |r.ui.messages| && r.content <= e.content
  {
    var (blocks, rest) := SplitBlocks(r.buffer + chunk);
    var (u, c) := ApplyBlocks(r.ui, r.content, blocks, parse);
    EatLines(u, c, rest, parse)
  }

  /** As written, a read that ends after an `event:` line eats that line on its own. */
  lemma AsWrittenEatsEventLine(r: Reading, event: string, parse: string -> Option<Json>)
    requires r.buffer == "" && '\n' !in event
    ensures FeedAsWritten(r, EventLine(event) + "\n", parse) == Reading(r.ui, r.content, "")
  {
    var x := EventLine(event);
    LinesWithoutNewline(event, "");
    LinePrefixes(event, "");
    var chunk := x + "\n";
    assert r.buffer + chunk == chunk;
    assert IndexOf(chunk, "\n\n") == -1 by {
      forall i | 0 <= i && i + 2 <= |chunk| ensures !At(chunk, i, "\n\n") {
        assert chunk[i..i + 2] == [chunk[i], chunk[i + 1]];
        assert chunk[i] == x[i] && x[i] in x;
      }
    }
    assert SplitBlocks(chunk) == ([], chunk);
    FirstNewline(x, "");
    assert chunk == x + "\n" + "";
    assert chunk[..|x|] == x && chunk[|x| + 1..] == "";
    assert IndexOf("", "\n") == -1;
    assert EatLines(r.ui, r.content, "", parse) == Reading(r.ui, r.content, "");
  }

  /** A whole frame on an empty buffer is handled as its block, as written as well as corrected. */
  lemma WholeFrame(r: Reading, event: string, data: string, parse: string -> Option<Json>)
    requires r.buffer == "" && '\n' !in event && '\n' !in data
    ensures FeedAsWritten(r, Wire(event, data), parse)
            == Reading(HandleEvent(r.ui, r.content, event, data, parse).0,
                       HandleEvent(r.ui, r.content, event, data, parse).1, "")
    ensures Feed(r, Wire(event, data), parse) == FeedAsWritten(r, Wire(event, data), parse)
  {
    var w := Wire(event, data);
    WireBlocks(event, data);
    BlockFields(event, data);
    assert r.buffer + w == w;
    var h := HandleEvent(r.ui, r.content, event, data, parse);
    ApplyOne(r.ui, r.content, Block(event, data), parse);
    assert ApplyBlocks(r.ui, r.content, SplitBlocks(r.buffer + w).0, parse) == h;
    assert IndexOf("", "\n") == -1;
    assert EatLines(h.0, h.1, "", parse) == Reading(h.0, h.1, "");
  }

  /**
   * As written, when a read ends right after the `event:` line of a frame, the frame's data
   * is later handled as a plain `message` block; whole, the same frame is handled by its type.
   */
  lemma AsWrittenSplitFrame(r: Reading, event: string, data: string, parse: string -> Option<Json>)
    requires r.buffer == ""
    requires '\n' !in event && '\n' !in data
    ensures EventLine(event) + "\n" + DataWire(data) == Wire(event, data)
    ensures FeedAsWritten(FeedAsWritten(r, EventLine(event) + "\n", parse), DataWire(data), parse)
              == Reading(HandleEvent(r.ui, r.content, "message", data, parse).0,
                         HandleEvent(r.ui, r.content, "message", data, parse).1, "")
    ensures FeedAsWritten(r, Wire(event, data), parse)
              == Reading(HandleEvent(r.ui, r.content, event, data, parse).0,
                         HandleEvent(r.ui, r.content, event, data, parse).1, "")
  {
    AsWrittenEatsEventLine(r, event, parse);
    WholeDataFrame(Reading(r.ui, r.content, ""), data, parse);
    WholeFrame(r, event, data, parse);
  }

  /** A whole data-only frame on an empty buffer is handled as a `message`. */
  lemma WholeDataFrame(r: Reading, data: string, parse: string -> Option<Json>)
    requires r.buffer == "" && '\n' !in data
    ensures FeedAsWritten(r, DataWire(data), parse)
            == Reading(HandleEvent(r.ui, r.content, "message", data, parse).0,
                       HandleEvent(r.ui, r.content, "message", data, parse).1, "")
  {
    var w := DataWire(data);
    DataWireRoundTrip(data);
    assert r.buffer + w == w;
    var h := HandleEvent(r.ui, r.content, "message", data, parse);
    ApplyOne(r.ui, r.content, DataLine(data), parse);
    assert ApplyBlocks(r.ui, r.content, SplitBlocks(r.buffer + w).0, parse) == h;
    assert IndexOf("", "\n") == -1;
    assert EatLines(h.0, h.1, "", parse) == Reading(h.0, h.1, "");
  }

  /** Concretely: an `iteration` frame split after its first line no longer moves the current step. */
  lemma AsWrittenLosesIteration(r: Reading, data: string, parse: string -> Option<Json>)
    requires r.buffer == ""
    requires '\n' !in data && data != "[DONE]"
    requires parse(data).Some? && parse(data).value.content.None? && parse(data).value.step != r.ui.currentStep
    ensures FeedAsWritten(FeedAsWritten(r, EventLine("iteration") + "\n", parse), DataWire(data), parse).ui.currentStep
            == r.ui.currentStep
    ensures FeedAsWritten(r, Wire("iteration", data), parse).ui.currentStep == parse(data).value.step
  {
    var e := "iteration";
    AsWrittenSplitFrame(r, e, data, parse);
    MessageKeepsStep(r.ui, r.content, data, parse);
  }

  /** A parsed `message` event moves no step. */
  lemma MessageKeepsStep(ui: Ui, content: string, data: string, parse: string -> Option<Json>)
    ensures HandleEvent(ui, content, "message", data, parse).0.currentStep == ui.currentStep
  {
    var m := "message";
    assert m != "iteration" && m != "reasoning" && m != "tool_call" && m != "tool_result" && m != "error" by {
      assert m[0] == 'm';
    }
  }

  /** Corrected, the same split frame is still handled by its type. */
  lemma SplitFrameKeepsType(r: Reading, event: string, data: string, parse: string -> Option<Json>)
    requires r.buffer == "" && '\n' !in event && '\n' !in data
    ensures Feed(Feed(r, EventLine(event) + "\n", parse), DataWire(data), parse)
            == Reading(HandleEvent(r.ui, r.content, event, data, parse).0,
                       HandleEvent(r.ui, r.content, event, data, parse).1, "")
  {
    var c1 := EventLine(event) + "\n";
    var c2 := DataWire(data);
    AsWrittenSplitFrame(r, event, data, parse);
    assert c1 + c2 == Wire(event, data);
    FeedSplitAnywhere(r, c1, c2, parse);
    WholeFrame(r, event, data, parse);
  }

  // ---- the hook ----

  /**
   * What `fetch` gives the hook: a refusal with the body's `error`, a body that cannot be read,
   * the chunks of a stream and the failure that ended it early, or a thrown failure (with its
   * message when it is an `Error`).
   */
  datatype Response =
    | Refused(error: Option<string>)
    | NoBody(conversation: Option<string>)
    | Streamed(conversation: Option<string>, chunks: seq<string>, failure: Option<string>)
    | Unreachable(message: Option<string>)

  /** The state of a `useAgentChat` hook; `errors` records the calls of `onError`. */
  class ChatHook {
    var messages: seq<ChatMessage>
    var isLoading: bool
    var conversationId: Option<string>
    var steps: seq<ClientStep>
    var currentStep: Option<int>
    var isThinking: bool
    var errors: seq<string>

    function View(): Ui
      reads this
    {
      Ui(messages, steps, currentStep, isThinking)
    }

    constructor (conversation: Option<string>)
      ensures messages == [] && steps == [] && currentStep == Some(0) && errors == []
      ensures !isLoading && !isThinking
      ensures conversationId == if Truthy(conversation) then conversation else None
    {
      messages := [];
      isLoading := false;
      conversationId := if Truthy(conversation) then conversation else None;
      steps := [];
      currentStep := Some(0);
      isThinking := false;
      errors := [];
    }

    /** `clearChat` (lines 247-252). */
    method ClearChat()
      modifies this
      ensures messages == [] && conversationId.None? && steps == [] && currentStep == Some(0)
      ensures isLoading == old(isLoading) && isThinking == old(isThinking) && errors == old(errors)
    {
      messages := [];
      conversationId := None;
      steps := [];
      currentStep := Some(0);
    }

    /** Shows a content delta (lines 166-178 and their two copies). */
    method ShowDelta(content: string, piece: Option<string>) returns (c: string)
      modifies this
      ensures (View(), c) == Delta(old(View()), content, piece)
      ensures isLoading == old(isLoading) && conversationId == old(conversationId) && errors == old(errors)
    {
      c := content;
      if Truthy(piece) {
        isThinking := false;
        c := content + piece.value;
        if messages != [] && messages[|messages| - 1].role == "assistant" {
          messages := messages[..|messages| - 1] + [ChatMessage("assistant", c)];
        }
      }
    }

    /** The `for (const line of lines)` loop (lines 106-116). */
    static method ReadFields(block: string) returns (eventType: string, eventData: string)
      ensures (eventType, eventData) == ParseBlock(block)
    {
      var lines := SplitLines(block);
      eventType := "message";
      eventData := "";
      for i := 0 to |lines|
        invariant (eventType, eventData) == Fields(lines[..i])
      {
        assert lines[..i + 1][..i] == lines[..i];
        var line := lines[i];
        if StartsWith(line, "event: ") {
          eventType := line[7..];
        } else if StartsWith(line, "data: ") {
          eventData := line[6..];
        }
      }
      assert lines[..|lines|] == lines;
    }

    /** One block (lines 105-203). */
    method HandleBlock(content: string, block: string, parse: string -> Option<Json>) returns (c: string)
      modifies this
      ensures var (e, d) := ParseBlock(block);
              (View(), c) == HandleEvent(old(View()), content, e, d, parse)
      ensures isLoading == old(isLoading) && conversationId == old(conversationId) && errors == old(errors)
    {
      var eventType, eventData := ReadFields(block);
      c := content;
      if eventData == "[DONE]" {
        return;
      }
      var parsed := parse(eventData);
      if parsed.None? {
        c := RetryDelta(content, eventData, parse);
        return;
      }
      var j := parsed.value;
      if eventType == "iteration" {
        currentStep := j.step;
      } else if eventType == "reasoning" {
        steps := steps + [ClientStep(j, j.action, None)];
        if j.action.Some? && j.action.value.kind == Some("respond") {
          isThinking := false;
        }
      } else if eventType == "tool_call" {
        if |steps| > 0 {
          steps := steps[..|steps| - 1] + [WithTool(steps[|steps| - 1], j)];
        }
      } else if eventType == "tool_result" {
        if |steps| > 0 {
          steps := steps[..|steps| - 1] + [steps[|steps| - 1].(toolResult := j.result)];
        }
      } else if eventType == "error" {
        c := RetryDelta(content, eventData, parse);
      } else {
        c := ShowDelta(content, j.content);
      }
    }

    /** The `catch` of an event (lines 181-203). */
    method RetryDelta(content: string, data: string, parse: string -> Option<Json>) returns (c: string)
      modifies this
      ensures (View(), c) == Retry(old(View()), content, data, parse)
      ensures isLoading == old(isLoading) && conversationId == old(conversationId) && errors == old(errors)
    {
      c := content;
      if data != "" && data != "[DONE]" && parse(data).Some? {
        c := ShowDelta(content, parse(data).value.content);
      }
    }

    /**
     * One read (lines 97-232): append the chunk, handle every complete block, then eat the
     * complete lines left in the buffer, showing those that carry a delta.
     */
    method Receive(buffer: string, content: string, chunk: string, parse: string -> Option<Json>)
      returns (rest: string, c: string)
      modifies this
      ensures Reading(View(), c, rest) == FeedAsWritten(Reading(old(View()), content, buffer), chunk, parse)
      ensures isLoading == old(isLoading) && conversationId == old(conversationId) && errors == old(errors)
    {
      var buf := buffer + chunk;
      c := content;
      while IndexOf(buf, "\n\n") != -1
        invariant EatLines(ApplyBlocks(View(), c, SplitBlocks(buf).0, parse).0,
                           ApplyBlocks(View(), c, SplitBlocks(buf).0, parse).1, SplitBlocks(buf).1, parse)
                  == FeedAsWritten(Reading(old(View()), content, buffer), chunk, parse)
        invariant isLoading == old(isLoading) && conversationId == old(conversationId) && errors == old(errors)
        decreases |buf|
      {
        ghost var before := (View(), c, buf);
        var k := IndexOf(buf, "\n\n");
        var block := buf[..k];
        buf := buf[k + 2..];
        c := HandleBlock(c, block, parse);
        ApplyFirstBlock(before.0, before.1, before.2, k, block, buf, parse);
      }
      assert SplitBlocks(buf) == ([], buf);
      while IndexOf(buf, "\n") != -1
        invariant EatLines(View(), c, buf, parse) == FeedAsWritten(Reading(old(View()), content, buffer), chunk, parse)
        invariant isLoading == old(isLoading) && conversationId == old(conversationId) && errors == old(errors)
        decreases |buf|
      {
        var k := IndexOf(buf, "\n");
        var line := buf[..k];
        buf := buf[k + 1..];
        if StartsWith(line, "data: ") && line != "data: [DONE]" && parse(line[6..]).Some? {
          c := ShowDelta(c, parse(line[6..]).value.content);
        }
      }
      rest := buf;
    }

    /** The read loop (lines 91-233): every chunk, on a buffer and a content that start empty. */
    method ReadStream(chunks: seq<string>, parse: string -> Option<Json>) returns (buffer: string, content: string)
      modifies this
      ensures Reading(View(), content, buffer) == FeedAllAsWritten(Reading(old(View()), "", ""), chunks, parse)
      ensures isLoading == old(isLoading) && conversationId == old(conversationId) && errors == old(errors)
    {
      buffer := "";
      content := "";
      var n := 0;
      assert chunks[0..] == chunks;
      while n < |chunks|
        invariant 0 <= n <= |chunks|
        invariant FeedAllAsWritten(Reading(View(), content, buffer), chunks[n..], parse)
                  == FeedAllAsWritten(Reading(old(View()), "", ""), chunks, parse)
        invariant isLoading == old(isLoading) && conversationId == old(conversationId) && errors == old(errors)
      {
        assert chunks[n..] == [chunks[n]] + chunks[n + 1..];
        buffer, content := Receive(buffer, content, chunks[n], parse);
        n := n + 1;
      }
    }

    /** `sendMessage` (lines 38-245), with the stream read to its end. */
    method SendMessage(message: string, response: Response, parse: string -> Option<Json>)
      modifies this
      ensures IsBlank(message) ==> unchanged(this)
      ensures !IsBlank(message) ==> !isLoading && !isThinking
      ensures !IsBlank(message) && !response.Streamed? ==>
                && errors == old(errors) + [FailureText(response)]
                && messages == NonEmpty(old(messages) + [ChatMessage("user", message)])
                && steps == [] && currentStep == Some(0)
      ensures !IsBlank(message) && response.Streamed? ==>
                var start := Reading(Ui(old(messages) + [ChatMessage("user", message)] + [ChatMessage("assistant", "")],
                                        [], Some(0), true), "", "");
                var end := FeedAllAsWritten(start, response.chunks, parse);
                && steps == end.ui.steps && currentStep == end.ui.currentStep
                && (response.failure.None? ==> messages == end.ui.messages && errors == old(errors))
                && (response.failure.Some? ==> messages == NonEmpty(end.ui.messages)
                                               && errors == old(errors) + [response.failure.value])
      ensures !IsBlank(message) ==> conversationId == Adopted(old(conversationId), response)
    {
      if IsBlank(message) {
        return;
      }
      messages := messages + [ChatMessage("user", message)];
      isLoading := true;
      isThinking := true;
      steps := [];
      currentStep := Some(0);
      match response {
      case Refused(error) =>
        Fail(OrElse(error, "Failed to get response"));
      case Unreachable(m) =>
        Fail(m.GetOr("Unknown error"));
      case NoBody(conversation) =>
        if Truthy(conversation) && conversationId.None? {
          conversationId := conversation;
        }
        Fail("No response body");
      case Streamed(conversation, chunks, failure) =>
        ReadReply(conversation, chunks, failure, parse);
      }
      isLoading := false;
      isThinking := false;
    }

    /**
     * A reply with a body (lines 86-233): adopt the conversation, add the empty assistant
     * message, read the stream, and report a failure that ends it early.
     */
    method ReadReply(conversation: Option<string>, chunks: seq<string>, failure: Option<string>,
                     parse: string -> Option<Json>)
      modifies this
      ensures var start := Reading(Ui(old(messages) + [ChatMessage("assistant", "")], old(steps),
                                      old(currentStep), old(isThinking)), "", "");
              var end := FeedAllAsWritten(start, chunks, parse);
              && steps == end.ui.steps && currentStep == end.ui.currentStep
              && (failure.None? ==> messages == end.ui.messages && errors == old(errors))
              && (failure.Some? ==> messages == NonEmpty(end.ui.messages) && errors == old(errors) + [failure.value])
      ensures isLoading == old(isLoading)
      ensures conversationId == if Truthy(conversation) && old(conversationId).None? then conversation
                                else old(conversationId)
    {
      if Truthy(conversation) && conversationId.None? {
        conversationId := conversation;
      }
      messages := messages + [ChatMessage("assistant", "")];
      var buffer, content := ReadStream(chunks, parse);
      if failure.Some? {
        Fail(failure.value);
      }
    }

    /** The outer `catch` (lines 234-238): report the error and drop the empty messages. */
    method Fail(message: string)
      modifies this
      ensures errors == old(errors) + [message]
      ensures messages == NonEmpty(old(messages))
      ensures steps == old(steps) && currentStep == old(currentStep) && isLoading == old(isLoading)
      ensures isThinking == old(isThinking) && conversationId == old(conversationId)
    {
      errors := errors + [message];
      messages := NonEmpty(messages);
    }
  }

  /**
   * The error a reply without a stream reports: the server's `error` field (or a fixed text),
   * the missing body, or the message of the thrown error.
   */
  function FailureText(response: Response): (r: string)
    requires !response.Streamed?
    ensures response.Refused? && Truthy(response.error) ==> r == response.error.value
    ensures response.Refused? && !Truthy(response.error) ==> r == "Failed to get response"
    ensures response.NoBody? ==> r == "No response body"
    ensures response.Unreachable? ==> r == response.message.GetOr("Unknown error")
  {
    match response
    case Refused(error) => OrElse(error, "Failed to get response")
    case NoBody(_) => "No response body"
    case Unreachable(m) => m.GetOr("Unknown error")
  }

  /** The conversation the hook keeps: the one the server names, when it had none. */
  function Adopted(current: Option<string>, response: Response): (r: Option<string>)
    ensures current.Some? ==> r == current
    ensures r.None? ==> current.None? && !(response.Streamed? && Truthy(response.conversation))
  {
    if (response.Streamed? || response.NoBody?) && Truthy(response.conversation) && current.None?
    then response.conversation else current
  }

  /** Every read of a stream, in order. */
  function FeedAll(r: Reading, chunks: seq<string>, parse: string -> Option<Json>): (e: Reading)
    ensures chunks != [] ==> IndexOf(e.buffer, "\n\n") == -1
    ensures |e.ui.messages| == |r.ui.messages| && r.content <= e.content
    decreases |chunks|
  {
    if chunks == [] then r else FeedAll(Feed(r, chunks[0], parse), chunks[1..], parse)
  }

  /** `messages.filter((m) => m.content !== "")`. */
  function NonEmpty(ms: seq<ChatMessage>): (r: seq<ChatMessage>)
    ensures forall i :: 0 <= i < |r| ==> r[i].content != ""
    ensures forall m :: m in ms && m.content != "" ==> m in r
  {
    if ms == [] then []
    else (if ms[0].content != "" then [ms[0]] else []) + NonEmpty(ms[1..])
  }

  /**
   * While a stream is read, the last message stays the assistant's and shows exactly the
   * content received so far; the messages before it do not change.
   */
  lemma {:induction false} FeedAllInSync(r: Reading, chunks: seq<string>, parse: string -> Option<Json>)
    requires InSync(r.ui, r.content)
    ensures var e := FeedAll(r, chunks, parse);
            InSync(e.ui, e.content) && r.content <= e.content
            && e.ui.messages[..|e.ui.messages| - 1] == r.ui.messages[..|r.ui.messages| - 1]
    decreases |chunks|
  {
    if chunks != [] {
      var (blocks, rest) := SplitBlocks(r.buffer + chunks[0]);
      ApplyBlocksInSync(r.ui, r.content, blocks, parse);
      FeedAllInSync(Feed(r, chunks[0], parse), chunks[1..], parse);
    }
  }

  /** Every read of a stream, as the hook is written. */
  function FeedAllAsWritten(r: Reading, chunks: seq<string>, parse: string -> Option<Json>): (e: Reading)
    ensures chunks != [] ==> IndexOf(e.buffer, "\n") == -1
    ensures |e.ui.messages| == |r.ui.messages| && r.content <= e.content
    decreases |chunks|
  {
    if chunks == [] then r else FeedAllAsWritten(FeedAsWritten(r, chunks[0], parse), chunks[1..], parse)
  }

  /** The line loop's deltas (lines 213-226) also keep the assistant message in sync with the content. */
  lemma {:induction false} EatLinesInSync(ui: Ui, content: string, buffer: string, parse: string -> Option<Json>)
    requires InSync(ui, content)
    ensures var e := EatLines(ui, content, buffer, parse);
            InSync(e.ui, e.content) && content <= e.content
            && e.ui.messages[..|e.ui.messages| - 1] == ui.messages[..|ui.messages| - 1]
    decreases |buffer|
  {
    var k := IndexOf(buffer, "\n");
    if k >= 0 {
      var line := buffer[..k];
      var (u, c) := if StartsWith(line, "data: ") && line != "data: [DONE]" && parse(line[6..]).Some?
                    then Delta(ui, content, parse(line[6..]).value.content) else (ui, content);
      assert InSync(u, c) && content <= c && u.messages[..|u.messages| - 1] == ui.messages[..|ui.messages| - 1];
      EatLinesInSync(u, c, buffer[k + 1..], parse);
    }
  }

  /** One read as written keeps the assistant message in sync. */
  lemma FeedAsWrittenInSync(r: Reading, chunk: string, parse: string -> Option<Json>)
    requires InSync(r.ui, r.content)
    ensures var e := FeedAsWritten(r, chunk, parse);
            InSync(e.ui, e.content) && r.content <= e.content
            && e.ui.messages[..|e.ui.messages| - 1] == r.ui.messages[..|r.ui.messages| - 1]
  {
    var (blocks, rest) := SplitBlocks(r.buffer + chunk);
    ApplyBlocksInSync(r.ui, r.content, blocks, parse);
    var (u, c) := ApplyBlocks(r.ui, r.content, blocks, parse);
    EatLinesInSync(u, c, rest, parse);
  }

  /**
   * As written too, while a stream is read the last message stays the assistant's and shows
   * exactly the content received so far, and the messages before it do not change.
   */
  lemma {:induction false} FeedAllAsWrittenInSync(r: Reading, chunks: seq<string>, parse: string -> Option<Json>)
    requires InSync(r.ui, r.content)
    ensures var e := FeedAllAsWritten(r, chunks, parse);
            InSync(e.ui, e.content) && r.content <= e.content
            && e.ui.messages[..|e.ui.messages| - 1] == r.ui.messages[..|r.ui.messages| - 1]
    decreases |chunks|
  {
    if chunks != [] {
      FeedAsWrittenInSync(r, chunks[0], parse);
      FeedAllAsWrittenInSync(FeedAsWritten(r, chunks[0], parse), chunks[1..], parse);
    }
  }
}
