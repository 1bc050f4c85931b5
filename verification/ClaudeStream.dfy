/**
 The live translator from OpenAI chunks to Claude events.  `State` and the functions on it say
 what the translator does; class `Translator` carries it out; `Client` is an independent reader
 of Claude events against which the output is judged.
 */
module ClaudeStream {
  import opened Text
  import opened Chunks

  datatype Start = TextStart | ToolStart(id: string, name: string)

  datatype Event =
    | MessageStart(id: string, model: string, inputTokens: int)
    | BlockStart(index: int, start: Start)
    | TextDelta(index: int, text: string)
    | JsonDelta(index: int, partial: string)
    | BlockStop(index: int)
    | MessageDelta(stopReason: string, outputTokens: int)
    | MessageStop

  // ---------- an independent client ----------

  datatype Block = Block(start: Start, open: bool, body: string)

  datatype Phase = Idle | Streaming | Closing | Done | Broken

  datatype Client = Client(phase: Phase, blocks: seq<Block>)

  const NEW_CLIENT := Client(Idle, [])

  predicate OpenBlock(c: Client, index: int, text: bool) {
    0 <= index < |c.blocks| && c.blocks[index].open && c.blocks[index].start.TextStart? == text
  }

  /**
   How a strict client takes one event.  It insists on one message_start first, on block indices
   0, 1, 2, ..., on deltas for open blocks of their kind, on at most one open text block, on every
   block being stopped once, and on message_delta then message_stop as the last two events.
   */
  function React(c: Client, e: Event): Client {
    match e
    case MessageStart(_, _, _) =>
      if c.phase.Idle? then c.(phase := Streaming) else c.(phase := Broken)
    case BlockStart(index, start) =>
      if c.phase.Streaming? && index == |c.blocks|
         && (start.TextStart? ==> OnlyOpenText(c.blocks, -1))
      then c.(blocks := c.blocks + [Block(start, true, "")])
      else c.(phase := Broken)
    case TextDelta(index, text) =>
      if c.phase.Streaming? && OpenBlock(c, index, true)
      then c.(blocks := c.blocks[index := c.blocks[index].(body := c.blocks[index].body + text)])
      else c.(phase := Broken)
    case JsonDelta(index, partial) =>
      if c.phase.Streaming? && OpenBlock(c, index, false)
      then c.(blocks := c.blocks[index := c.blocks[index].(body := c.blocks[index].body + partial)])
      else c.(phase := Broken)
    case BlockStop(index) =>
      if c.phase.Streaming? && 0 <= index < |c.blocks| && c.blocks[index].open
      then c.(blocks := c.blocks[index := c.blocks[index].(open := false)])
      else c.(phase := Broken)
    case MessageDelta(_, _) =>
      if c.phase.Streaming? && forall i :: 0 <= i < |c.blocks| ==> !c.blocks[i].open
      then c.(phase := Closing)
      else c.(phase := Broken)
    case MessageStop =>
      if c.phase.Closing? then c.(phase := Done) else c.(phase := Broken)
  }

  function Replay(events: seq<Event>): Client {
    if events == [] then NEW_CLIENT else React(Replay(events[..|events| - 1]), events[|events| - 1])
  }

  /** A client is content with an empty trace or with a complete message. */
  predicate Accepted(events: seq<Event>) {
    events == [] || Replay(events).phase.Done?
  }

  /** The text a client shows: the bodies of the text blocks, in block order. */
  function TextOf(blocks: seq<Block>): string {
    if blocks == [] then ""
    else
      var last := blocks[|blocks| - 1];
      TextOf(blocks[..|blocks| - 1]) + (if last.start.TextStart? then last.body else "")
  }

  /** The indices of the tool blocks, in block order. */
  function ToolPositions(blocks: seq<Block>): seq<nat> {
    if blocks == [] then []
    else
      var n := |blocks| - 1;
      ToolPositions(blocks[..n]) + (if blocks[n].start.ToolStart? then [n] else [])
  }

  // ---------- what the translator does ----------

  datatype ToolBlock = ToolBlock(openIndex: int, id: string, name: string, closed: bool)

  /** What the chunks say about the message as a whole. */
  datatype Header = Header(model: string, messageID: string, fallbackID: string, usage: Usage, finishReason: string)

  /** `client` is the client that has read `out`; it has no counterpart in the translator. */
  datatype State = State(
    header: Header,
    started: bool,
    textOpen: bool,
    textIndex: int,
    nextIndex: int,
    finished: bool,
    hasContent: bool,
    toolBlocks: map<int, ToolBlock>,
    toolBlockKeys: seq<int>,
    out: seq<Event>,
    client: Client)

  /** A new translator; `fallbackID` is the clock-based message id it would make up. */
  function Init(model: string, fallbackID: string): State {
    State(Header(model, "", fallbackID, map[], ""), false, false, 0, 0, false, false, map[], [], [], NEW_CLIENT)
  }

  function NonZero(n: int): int {
    if n > 0 then n else 100
  }

  function StopReason(reason: string): string {
    match TrimSpace(reason)
    case "length" => "end_turn"
    case "tool_calls" => "tool_use"
    case "stop" => "end_turn"
    case "" => "end_turn"
    case _ => reason
  }

  function Emit(s: State, e: Event): State {
    s.(out := s.out + [e], client := React(s.client, e))
  }

  function EnsureStarted(s: State): State {
    if s.started then s
    else Emit(s.(started := true), StartEvent(s.header))
  }

  function StartEvent(h: Header): Event {
    MessageStart(FirstNonEmpty(h.messageID, h.fallbackID), h.model, NonZero(LookupUsage(h.usage, "prompt_tokens")))
  }

  function DeltaEvent(h: Header): Event {
    MessageDelta(StopReason(h.finishReason), NonZero(LookupUsage(h.usage, "completion_tokens")))
  }

  function EnsureTextBlock(s: State): State {
    if s.textOpen then s
    else Emit(s.(textIndex := s.nextIndex, nextIndex := s.nextIndex + 1, textOpen := true),
              BlockStart(s.nextIndex, TextStart))
  }

  function CloseTextBlock(s: State): State {
    if s.textOpen then Emit(s.(textOpen := false), BlockStop(s.textIndex)) else s
  }

  function ConsumeText(s: State, content: string): State {
    if content == "" then s
    else
      var t := EnsureTextBlock(EnsureStarted(s.(hasContent := true)));
      Emit(t, TextDelta(t.textIndex, content))
  }

  function OpenTool(s: State, tc: ToolCall): State {
    if tc.index in s.toolBlocks then
      var b := s.toolBlocks[tc.index];
      s.(toolBlocks := s.toolBlocks[tc.index := b.(
        id := if b.id == "" && tc.id != "" then tc.id else b.id,
        name := if b.name == "" && tc.name != "" then tc.name else b.name)])
    else
      var b := ToolBlock(s.nextIndex, FirstNonEmpty(tc.id, "toolu_" + Decimal(tc.index)),
                         FirstNonEmpty(tc.name, "tool_" + Decimal(tc.index)), false);
      Emit(s.(toolBlocks := s.toolBlocks[tc.index := b], toolBlockKeys := s.toolBlockKeys + [tc.index],
              nextIndex := s.nextIndex + 1),
           BlockStart(b.openIndex, ToolStart(b.id, b.name)))
  }

  function ConsumeTool(s: State, tc: ToolCall): State {
    var t := OpenTool(s, tc);
    if tc.arguments == "" then t else Emit(t, JsonDelta(t.toolBlocks[tc.index].openIndex, tc.arguments))
  }

  function ConsumeTools(s: State, calls: seq<ToolCall>): State {
    if calls == [] then s else ConsumeTool(ConsumeTools(s, calls[..|calls| - 1]), calls[|calls| - 1])
  }

  /** The tool call fragments of a choice are dropped when all of them are blank. */
  function ConsumeCalls(s: State, c: Choice): State {
    if HasMeaningfulCall(c)
    then ConsumeTools(CloseTextBlock(EnsureStarted(s.(hasContent := true))), c.toolCalls)
    else s
  }

  function ConsumeChoice(s: State, c: Choice): State {
    var t := ConsumeCalls(ConsumeText(s, c.content), c);
    if c.finishReason == "" then t else t.(header := t.header.(finishReason := c.finishReason))
  }

  function ConsumeChoices(s: State, cs: seq<Choice>): State {
    if cs == [] then s else ConsumeChoice(ConsumeChoices(s, cs[..|cs| - 1]), cs[|cs| - 1])
  }

  function NoteChunk(h: Header, chunk: Chunk): Header {
    h.(model := if chunk.model != "" then FirstNonEmpty(h.model, chunk.model) else h.model,
       messageID := if chunk.id != "" then FirstNonEmpty(h.messageID, chunk.id) else h.messageID,
       usage := if chunk.usage.Some? then chunk.usage.value else h.usage)
  }

  function Consume(s: State, chunk: Chunk): State {
    ConsumeChoices(s.(header := NoteChunk(s.header, chunk)), chunk.choices)
  }

  /** Closes the first `n` tool blocks, in the order in which their indices were first seen. */
  function CloseTools(s: State, n: nat): State
    requires n <= |s.toolBlockKeys|
    ensures CloseTools(s, n).toolBlockKeys == s.toolBlockKeys
  {
    if n == 0 then s else CloseTool(CloseTools(s, n - 1), s.toolBlockKeys[n - 1])
  }

  function CloseTool(s: State, k: int): State {
    if k !in s.toolBlocks || s.toolBlocks[k].closed then s
    else Emit(s.(toolBlocks := s.toolBlocks[k := s.toolBlocks[k].(closed := true)]),
              BlockStop(s.toolBlocks[k].openIndex))
  }

  function Finish(s: State): State {
    if s.finished then s
    else if !s.hasContent && !s.started then s.(finished := true)
    else
      var t := CloseTextBlock(EnsureStarted(s));
      var u := CloseTools(t, |t.toolBlockKeys|);
      Complete(u, DeltaEvent(u.header))
  }

  function Complete(s: State, delta: Event): State {
    Emit(Emit(s.(finished := true), delta), MessageStop)
  }

  function Step(s: State, op: Op): State {
    match op
    case Feed(chunk) => Consume(s, chunk)
    case End => Finish(s)
  }

  function Run(s: State, ops: seq<Op>): State {
    if ops == [] then s else Step(Run(s, ops[..|ops| - 1]), ops[|ops| - 1])
  }

  lemma ToolsOneMore(s: State, calls: seq<ToolCall>, i: nat)
    requires i < |calls|
    ensures ConsumeTools(s, calls[..i + 1]) == ConsumeTool(ConsumeTools(s, calls[..i]), calls[i])
  {
    assert calls[..i + 1][..i] == calls[..i];
  }

  lemma ChoicesOneMore(s: State, cs: seq<Choice>, i: nat)
    requires i < |cs|
    ensures ConsumeChoices(s, cs[..i + 1]) == ConsumeChoice(ConsumeChoices(s, cs[..i]), cs[i])
  {
    assert cs[..i + 1][..i] == cs[..i];
  }

  // ---------- what a sequence of tool call fragments says ----------

  /** How a tool block starts: with the id and name of a fragment, or made-up ones if those are blank. */
  function StartOf(tc: ToolCall): Start {
    ToolStart(FirstNonEmpty(tc.id, "toolu_" + Decimal(tc.index)), FirstNonEmpty(tc.name, "tool_" + Decimal(tc.index)))
  }

  datatype Told = Told(start: Start, arguments: string)

  /** The tool indices in order of first appearance, and what is known about each. */
  datatype Summary = Summary(keys: seq<int>, tools: map<int, Told>)

  const NO_TOOLS := Summary([], map[])

  function NoteIndex(sum: Summary, tc: ToolCall): Summary {
    if tc.index in sum.tools then sum
    else Summary(sum.keys + [tc.index], sum.tools[tc.index := Told(StartOf(tc), "")])
  }

  function NoteArguments(sum: Summary, k: int, arguments: string): Summary {
    if arguments == "" || k !in sum.tools then sum
    else sum.(tools := sum.tools[k := sum.tools[k].(arguments := sum.tools[k].arguments + arguments)])
  }

  function Note(sum: Summary, tc: ToolCall): Summary {
    NoteArguments(NoteIndex(sum, tc), tc.index, tc.arguments)
  }

  function NoteAll(sum: Summary, calls: seq<ToolCall>): Summary {
    if calls == [] then sum else Note(NoteAll(sum, calls[..|calls| - 1]), calls[|calls| - 1])
  }

  function NoteChoices(sum: Summary, cs: seq<Choice>): Summary {
    if cs == [] then sum else NoteAll(NoteChoices(sum, cs[..|cs| - 1]), Kept(cs[|cs| - 1]))
  }

  /** The summary lists each index once, at its first appearance, with all its arguments joined. */
  lemma {:induction false} SummaryMeaning(calls: seq<ToolCall>)
    ensures var sum := NoteAll(NO_TOOLS, calls);
      && sum.keys == FirstSeen(calls)
      && (forall k :: k in sum.keys <==> k in sum.tools)
      && (forall k :: k in sum.tools ==> sum.tools[k].arguments == ArgsOf(calls, k))
      && (forall k :: k !in sum.tools ==> ArgsOf(calls, k) == "")
  {
    if calls != [] {
      var n := |calls| - 1;
      SummaryMeaning(calls[..n]);
      forall k { AppendNothing(ArgsOf(calls[..n], k)); }
    }
  }

  lemma {:induction false} NoteAllAppend(sum: Summary, a: seq<ToolCall>, b: seq<ToolCall>)
    ensures NoteAll(sum, a + b) == NoteAll(NoteAll(sum, a), b)
  {
    if b == [] {
      AppendNothing(a);
    } else {
      assert (a + b)[..|a + b| - 1] == a + b[..|b| - 1];
      NoteAllAppend(sum, a, b[..|b| - 1]);
    }
  }

  lemma {:induction false} NoteChoicesMeaning(sum: Summary, cs: seq<Choice>)
    ensures NoteChoices(sum, cs) == NoteAll(sum, KeptCalls(cs))
  {
    if cs != [] {
      var n := |cs| - 1;
      NoteChoicesMeaning(sum, cs[..n]);
      NoteAllAppend(sum, KeptCalls(cs[..n]), Kept(cs[n]));
    }
  }

  // ---------- the invariant between translator and client ----------

  /**
   The translator has consumed `text` and the tool call fragments summarized by `sum`, and the
   client that reads its output has exactly that content in open blocks.
   */
  ghost predicate Live(s: State, text: string, sum: Summary) {
    if s.started then Begun(s, text, sum) && (text != "" || sum != NO_TOOLS)
    else Untouched(s) && text == "" && sum == NO_TOOLS
  }

  /** No text block other than `index` is open. */
  predicate OnlyOpenText(blocks: seq<Block>, index: int) {
    forall i :: 0 <= i < |blocks| && blocks[i].open && blocks[i].start.TextStart? ==> i == index
  }

  ghost predicate Untouched(s: State) {
    && !s.started && !s.hasContent && !s.textOpen && s.nextIndex == 0
    && s.toolBlocks == map[] && s.toolBlockKeys == [] && s.out == [] && s.client == NEW_CLIENT
  }

  ghost predicate Begun(s: State, text: string, sum: Summary) {
    && s.hasContent && s.started && s.client.phase.Streaming? && s.out != []
    && s.nextIndex == |s.client.blocks|
    && (s.textOpen ==> s.textIndex == |s.client.blocks| - 1 && OpenBlock(s.client, s.textIndex, true))
    && OnlyOpenText(s.client.blocks, if s.textOpen then s.textIndex else -1)
    && TextOf(s.client.blocks) == text
    && s.toolBlockKeys == sum.keys
    && ToolsMatch(s.toolBlocks, s.client.blocks, sum)
  }

  /** The j-th tool block belongs to the j-th tool index seen, is open, and holds its arguments. */
  ghost predicate ToolsMatch(tools: map<int, ToolBlock>, blocks: seq<Block>, sum: Summary) {
    && tools.Keys == sum.tools.Keys
    && (forall k :: k in sum.keys <==> k in sum.tools)
    && (forall i, j :: 0 <= i < j < |sum.keys| ==> sum.keys[i] != sum.keys[j])
    && |ToolPositions(blocks)| == |sum.keys|
    && forall j :: 0 <= j < |sum.keys| ==> ToolMatches(tools, blocks, sum, sum.keys[j], ToolPositions(blocks)[j])
  }

  ghost predicate ToolMatches(tools: map<int, ToolBlock>, blocks: seq<Block>, sum: Summary, k: int, i: nat) {
    && k in tools && k in sum.tools && tools[k].openIndex == i < |blocks| && !tools[k].closed
    && blocks[i].start.ToolStart? && blocks[i] == Block(sum.tools[k].start, true, sum.tools[k].arguments)
  }

  // ---------- lemmas about the client ----------

  lemma AppendBlock(blocks: seq<Block>, b: Block)
    requires b.start.ToolStart? || b.body == ""
    ensures TextOf(blocks + [b]) == TextOf(blocks)
    ensures ToolPositions(blocks + [b]) == ToolPositions(blocks) + (if b.start.ToolStart? then [|blocks|] else [])
  {
    assert (blocks + [b])[..|blocks|] == blocks;
    AppendNothing(TextOf(blocks));
    AppendNothing(ToolPositions(blocks));
  }

  /** Changing a tool block's body, or whether a block is open, moves no block and keeps the text. */
  lemma {:induction false} TouchBlock(blocks: seq<Block>, i: nat, b: Block)
    requires i < |blocks| && b.start == blocks[i].start
    requires b.start.TextStart? ==> b.body == blocks[i].body
    ensures TextOf(blocks[i := b]) == TextOf(blocks)
    ensures ToolPositions(blocks[i := b]) == ToolPositions(blocks)
  {
    var n := |blocks| - 1;
    if i < n {
      assert blocks[i := b][..n] == blocks[..n][i := b];
      TouchBlock(blocks[..n], i, b);
    } else {
      assert blocks[i := b][..n] == blocks[..n];
    }
  }

  lemma ExtendLastText(blocks: seq<Block>, more: string)
    requires blocks != [] && blocks[|blocks| - 1].start.TextStart?
    ensures var n := |blocks| - 1;
      var longer := blocks[n := blocks[n].(body := blocks[n].body + more)];
      TextOf(longer) == TextOf(blocks) + more && ToolPositions(longer) == ToolPositions(blocks)
  {
    var n := |blocks| - 1;
    var longer := blocks[n := blocks[n].(body := blocks[n].body + more)];
    assert longer[..n] == blocks[..n];
  }

  lemma {:induction false} PositionsDiffer(blocks: seq<Block>)
    ensures forall j :: 0 <= j < |ToolPositions(blocks)| ==> ToolPositions(blocks)[j] < |blocks|
    ensures forall i, j :: 0 <= i < j < |ToolPositions(blocks)| ==> ToolPositions(blocks)[i] != ToolPositions(blocks)[j]
  {
    if blocks != [] {
      PositionsDiffer(blocks[..|blocks| - 1]);
    }
  }

  lemma {:induction false} EveryToolHasPosition(blocks: seq<Block>, i: nat)
    requires i < |blocks| && blocks[i].start.ToolStart?
    ensures i in ToolPositions(blocks)
  {
    var n := |blocks| - 1;
    if i < n {
      EveryToolHasPosition(blocks[..n], i);
    }
  }

  // ---------- each step keeps the invariant ----------

  lemma BeginKeeps(s: State, text: string, sum: Summary)
    requires Live(s, text, sum)
    ensures Begun(EnsureStarted(s.(hasContent := true)), text, sum)
  {
  }

  lemma OpenTextKeeps(s: State, text: string, sum: Summary)
    requires Begun(s, text, sum)
    ensures Begun(EnsureTextBlock(s), text, sum) && EnsureTextBlock(s).textOpen
  {
    var b := Block(TextStart, true, "");
    AppendBlock(s.client.blocks, b);
    if !s.textOpen {
      MatchWiderBlocks(s.toolBlocks, s.client.blocks, s.client.blocks + [b], sum);
    }
  }

  lemma CloseTextKeeps(s: State, text: string, sum: Summary)
    requires Begun(s, text, sum)
    ensures Begun(CloseTextBlock(s), text, sum) && !CloseTextBlock(s).textOpen
  {
    if s.textOpen {
      var b := s.client.blocks[s.textIndex].(open := false);
      TouchBlock(s.client.blocks, s.textIndex, b);
      MatchWiderBlocks(s.toolBlocks, s.client.blocks, s.client.blocks[s.textIndex := b], sum);
    }
  }

  lemma TextDeltaKeeps(s: State, text: string, sum: Summary, content: string)
    requires Begun(s, text, sum) && s.textOpen
    ensures Begun(Emit(s, TextDelta(s.textIndex, content)), text + content, sum)
  {
    ExtendLastText(s.client.blocks, content);
    MatchWiderBlocks(s.toolBlocks, s.client.blocks, React(s.client, TextDelta(s.textIndex, content)).blocks, sum);
  }

  lemma TextKeeps(s: State, text: string, sum: Summary, content: string)
    requires Live(s, text, sum)
    ensures Live(ConsumeText(s, content), text + content, sum)
  {
    if content == "" {
      AppendNothing(text);
    } else {
      BeginKeeps(s, text, sum);
      var t := EnsureStarted(s.(hasContent := true));
      OpenTextKeeps(t, text, sum);
      TextDeltaKeeps(EnsureTextBlock(t), text, sum, content);
    }
  }

  /** Changes to text blocks do not matter to the tool blocks. */
  lemma MatchWiderBlocks(tools: map<int, ToolBlock>, blocks: seq<Block>, after: seq<Block>, sum: Summary)
    requires ToolsMatch(tools, blocks, sum)
    requires |blocks| <= |after| && ToolPositions(after) == ToolPositions(blocks)
    requires forall i :: 0 <= i < |blocks| && blocks[i].start.ToolStart? ==> after[i] == blocks[i]
    ensures ToolsMatch(tools, after, sum)
  {
    forall j | 0 <= j < |sum.keys| ensures ToolMatches(tools, after, sum, sum.keys[j], ToolPositions(after)[j]) {
      assert ToolMatches(tools, blocks, sum, sum.keys[j], ToolPositions(blocks)[j]);
    }
  }

  /** A further fragment for a known tool index may fill in the block's id and name. */
  lemma MatchKnown(tools: map<int, ToolBlock>, blocks: seq<Block>, sum: Summary, k: int, b: ToolBlock)
    requires ToolsMatch(tools, blocks, sum)
    requires k in tools && b.openIndex == tools[k].openIndex && !b.closed
    ensures ToolsMatch(tools[k := b], blocks, sum)
  {
    forall j | 0 <= j < |sum.keys|
      ensures ToolMatches(tools[k := b], blocks, sum, sum.keys[j], ToolPositions(blocks)[j])
    {
      assert ToolMatches(tools, blocks, sum, sum.keys[j], ToolPositions(blocks)[j]);
    }
  }

  /** The first fragment for a new tool index opens the next block. */
  lemma MatchNew(tools: map<int, ToolBlock>, blocks: seq<Block>, sum: Summary, tc: ToolCall, b: ToolBlock)
    requires ToolsMatch(tools, blocks, sum) && ToolStart(b.id, b.name) == StartOf(tc)
    requires tc.index !in tools && b.openIndex == |blocks| && !b.closed
    ensures ToolsMatch(tools[tc.index := b], blocks + [Block(StartOf(tc), true, "")], NoteIndex(sum, tc))
  {
    var more, after := blocks + [Block(StartOf(tc), true, "")], NoteIndex(sum, tc);
    AppendBlock(blocks, Block(StartOf(tc), true, ""));
    forall j | 0 <= j < |after.keys|
      ensures ToolMatches(tools[tc.index := b], more, after, after.keys[j], ToolPositions(more)[j])
    {
      if j < |sum.keys| {
        assert ToolMatches(tools, blocks, sum, sum.keys[j], ToolPositions(blocks)[j]);
      }
    }
  }

  lemma ToolOf(tools: map<int, ToolBlock>, blocks: seq<Block>, sum: Summary, k: int)
    requires ToolsMatch(tools, blocks, sum) && k in sum.tools
    ensures k in tools && tools[k].openIndex >= 0 && ToolMatches(tools, blocks, sum, k, tools[k].openIndex)
    ensures forall j :: 0 <= j < |sum.keys| && sum.keys[j] != k ==> ToolPositions(blocks)[j] != tools[k].openIndex
  {
    var j0 :| 0 <= j0 < |sum.keys| && sum.keys[j0] == k;
    assert ToolMatches(tools, blocks, sum, sum.keys[j0], ToolPositions(blocks)[j0]);
    PositionsDiffer(blocks);
  }

  /** An argument fragment reaches the block of its tool index and no other. */
  lemma MatchDelta(tools: map<int, ToolBlock>, blocks: seq<Block>, sum: Summary, k: int, arguments: string)
    requires ToolsMatch(tools, blocks, sum) && k in sum.tools && arguments != ""
    ensures k in tools && tools[k].openIndex >= 0 && ToolMatches(tools, blocks, sum, k, tools[k].openIndex)
    ensures var i := tools[k].openIndex;
      ToolsMatch(tools, blocks[i := blocks[i].(body := blocks[i].body + arguments)], NoteArguments(sum, k, arguments))
  {
    ToolOf(tools, blocks, sum, k);
    var i := tools[k].openIndex;
    var b := blocks[i].(body := blocks[i].body + arguments);
    TouchBlock(blocks, i, b);
    var after := NoteArguments(sum, k, arguments);
    forall j | 0 <= j < |sum.keys|
      ensures ToolMatches(tools, blocks[i := b], after, sum.keys[j], ToolPositions(blocks)[j])
    {
      assert ToolMatches(tools, blocks, sum, sum.keys[j], ToolPositions(blocks)[j]);
    }
  }

  lemma NewToolKeeps(s: State, text: string, sum: Summary, tc: ToolCall)
    requires Begun(s, text, sum) && !s.textOpen && tc.index !in s.toolBlocks
    ensures Begun(OpenTool(s, tc), text, NoteIndex(sum, tc))
  {
    MatchNew(s.toolBlocks, s.client.blocks, sum, tc, OpenTool(s, tc).toolBlocks[tc.index]);
    AppendBlock(s.client.blocks, Block(StartOf(tc), true, ""));
  }

  lemma KnownToolKeeps(s: State, text: string, sum: Summary, tc: ToolCall)
    requires Begun(s, text, sum) && !s.textOpen && tc.index in s.toolBlocks
    ensures Begun(OpenTool(s, tc), text, NoteIndex(sum, tc))
  {
    MatchKnown(s.toolBlocks, s.client.blocks, sum, tc.index, OpenTool(s, tc).toolBlocks[tc.index]);
  }

  lemma OpenToolKeeps(s: State, text: string, sum: Summary, tc: ToolCall)
    requires Begun(s, text, sum) && !s.textOpen
    ensures Begun(OpenTool(s, tc), text, NoteIndex(sum, tc)) && !OpenTool(s, tc).textOpen
  {
    if tc.index in s.toolBlocks {
      KnownToolKeeps(s, text, sum, tc);
    } else {
      NewToolKeeps(s, text, sum, tc);
    }
  }

  lemma JsonDeltaKeeps(s: State, text: string, sum: Summary, k: int, arguments: string)
    requires Begun(s, text, sum) && !s.textOpen && k in sum.tools && arguments != ""
    ensures k in s.toolBlocks
    ensures Begun(Emit(s, JsonDelta(s.toolBlocks[k].openIndex, arguments)), text, NoteArguments(sum, k, arguments))
  {
    MatchDelta(s.toolBlocks, s.client.blocks, sum, k, arguments);
    var i := s.toolBlocks[k].openIndex;
    TouchBlock(s.client.blocks, i, s.client.blocks[i].(body := s.client.blocks[i].body + arguments));
  }

  lemma ToolKeeps(s: State, text: string, sum: Summary, tc: ToolCall)
    requires Begun(s, text, sum) && !s.textOpen
    ensures Begun(ConsumeTool(s, tc), text, Note(sum, tc)) && !ConsumeTool(s, tc).textOpen
  {
    OpenToolKeeps(s, text, sum, tc);
    if tc.arguments != "" {
      JsonDeltaKeeps(OpenTool(s, tc), text, NoteIndex(sum, tc), tc.index, tc.arguments);
    }
  }

  lemma {:induction false} ToolsKeep(s: State, text: string, sum: Summary, calls: seq<ToolCall>)
    requires Begun(s, text, sum) && !s.textOpen
    ensures Begun(ConsumeTools(s, calls), text, NoteAll(sum, calls)) && !ConsumeTools(s, calls).textOpen
  {
    if calls != [] {
      var n := |calls| - 1;
      ToolsKeep(s, text, sum, calls[..n]);
      ToolKeeps(ConsumeTools(s, calls[..n]), text, NoteAll(sum, calls[..n]), calls[n]);
    }
  }

  lemma SomethingNoted(sum: Summary, calls: seq<ToolCall>)
    requires calls != []
    ensures NoteAll(sum, calls) != NO_TOOLS
  {
    assert calls[|calls| - 1].index in NoteAll(sum, calls).tools;
  }

  lemma CallsKeep(s: State, text: string, sum: Summary, c: Choice)
    requires Live(s, text, sum)
    ensures Live(ConsumeCalls(s, c), text, NoteAll(sum, Kept(c)))
  {
    if HasMeaningfulCall(c) {
      BeginKeeps(s, text, sum);
      var t := EnsureStarted(s.(hasContent := true));
      CloseTextKeeps(t, text, sum);
      ToolsKeep(CloseTextBlock(t), text, sum, c.toolCalls);
      SomethingNoted(sum, c.toolCalls);
    }
  }

  lemma ChoiceKeeps(s: State, text: string, sum: Summary, c: Choice)
    requires Live(s, text, sum)
    ensures Live(ConsumeChoice(s, c), text + c.content, NoteAll(sum, Kept(c)))
  {
    TextKeeps(s, text, sum, c.content);
    CallsKeep(ConsumeText(s, c.content), text + c.content, sum, c);
  }

  lemma {:induction false} ChoicesKeep(s: State, text: string, sum: Summary, cs: seq<Choice>)
    requires Live(s, text, sum)
    ensures Live(ConsumeChoices(s, cs), text + SentText(cs), NoteChoices(sum, cs))
  {
    if cs == [] {
      AppendNothing(text);
    } else {
      var n := |cs| - 1;
      ChoicesKeep(s, text, sum, cs[..n]);
      ChoiceKeeps(ConsumeChoices(s, cs[..n]), text + SentText(cs[..n]), NoteChoices(sum, cs[..n]), cs[n]);
      AppendAppend(text, SentText(cs[..n]), cs[n].content);
    }
  }

  // ---------- finishing ----------

  /** The tool blocks of the first `n` keys are closed, and nothing else about the content differs. */
  ghost predicate ClosedUpTo(s: State, t: State, sum: Summary, n: nat) {
    && t == s.(toolBlocks := t.toolBlocks, out := t.out, client := t.client)
    && t.client.phase.Streaming? && t.out != []
    && t.toolBlocks.Keys == s.toolBlocks.Keys
    && SameContent(s.client.blocks, t.client.blocks)
    && (forall i :: 0 <= i < |t.client.blocks| && t.client.blocks[i].open ==> s.client.blocks[i].open)
    && n <= |sum.keys| == |ToolPositions(s.client.blocks)|
    && forall j :: 0 <= j < |sum.keys| ==> ToolClosed(t, sum.keys[j], ToolPositions(s.client.blocks)[j], j < n)
  }

  ghost predicate ToolClosed(t: State, k: int, i: nat, closed: bool) {
    && k in t.toolBlocks && t.toolBlocks[k].openIndex == i < |t.client.blocks|
    && t.toolBlocks[k].closed == closed && t.client.blocks[i].open == !closed
  }

  predicate SameContent(a: seq<Block>, b: seq<Block>) {
    |a| == |b| && forall i :: 0 <= i < |a| ==> a[i].start == b[i].start && a[i].body == b[i].body
  }

  lemma {:induction false} SameContentReads(a: seq<Block>, b: seq<Block>)
    requires SameContent(a, b)
    ensures TextOf(a) == TextOf(b) && ToolPositions(a) == ToolPositions(b)
  {
    if a != [] {
      SameContentReads(a[..|a| - 1], b[..|b| - 1]);
    }
  }

  /** Closing one block leaves the blocks of the other tool indices as they are. */
  lemma CloseToolOnly(t: State, k: int, i: nat)
    requires ToolClosed(t, k, i, false) && t.client.phase.Streaming?
    ensures var u := CloseTool(t, k);
      && u == t.(toolBlocks := t.toolBlocks[k := t.toolBlocks[k].(closed := true)], out := u.out, client := u.client)
      && u.client == t.client.(blocks := t.client.blocks[i := t.client.blocks[i].(open := false)]) && u.out != []
  {
  }

  lemma OthersStayClosed(t: State, k: int, i: nat, j: int, m: nat, closed: bool)
    requires ToolClosed(t, k, i, false) && t.client.phase.Streaming? && ToolClosed(t, j, m, closed) && j != k && m != i
    ensures ToolClosed(CloseTool(t, k), j, m, closed)
  {
    CloseToolOnly(t, k, i);
  }

  lemma CloseOne(s: State, t: State, sum: Summary, n: nat)
    requires ToolsMatch(s.toolBlocks, s.client.blocks, sum)
    requires 0 < n <= |sum.keys| && ClosedUpTo(s, t, sum, n - 1)
    ensures ClosedUpTo(s, CloseTool(t, sum.keys[n - 1]), sum, n)
  {
    var positions := ToolPositions(s.client.blocks);
    var k, i := sum.keys[n - 1], positions[n - 1];
    assert ToolClosed(t, k, i, false);
    CloseToolOnly(t, k, i);
    PositionsDiffer(s.client.blocks);
    forall j | 0 <= j < |sum.keys| ensures ToolClosed(CloseTool(t, k), sum.keys[j], positions[j], j < n) {
      assert ToolClosed(t, sum.keys[j], positions[j], j < n - 1);
      if j != n - 1 {
        OthersStayClosed(t, k, i, sum.keys[j], positions[j], j < n - 1);
      }
    }
  }

  lemma NoneClosed(s: State, text: string, sum: Summary)
    requires Begun(s, text, sum)
    ensures ClosedUpTo(s, s, sum, 0)
  {
    forall j | 0 <= j < |sum.keys| ensures ToolClosed(s, sum.keys[j], ToolPositions(s.client.blocks)[j], false) {
      assert ToolMatches(s.toolBlocks, s.client.blocks, sum, sum.keys[j], ToolPositions(s.client.blocks)[j]);
    }
  }

  lemma CloseNext(s: State, sum: Summary, n: nat)
    requires s.toolBlockKeys == sum.keys && 0 < n <= |sum.keys|
    ensures CloseTools(s, n) == CloseTool(CloseTools(s, n - 1), sum.keys[n - 1])
  {
  }

  lemma {:induction false} CloseToolsKeeps(s: State, sum: Summary, n: nat) returns (t: State)
    requires ToolsMatch(s.toolBlocks, s.client.blocks, sum) && s.toolBlockKeys == sum.keys
    requires ClosedUpTo(s, s, sum, 0) && n <= |sum.keys|
    ensures t == CloseTools(s, n) && ClosedUpTo(s, t, sum, n)
  {
    t := s;
    if n > 0 {
      var u := CloseToolsKeeps(s, sum, n - 1);
      CloseOne(s, u, sum, n);
      CloseNext(s, sum, n);
      t := CloseTool(u, sum.keys[n - 1]);
    }
  }

  lemma AllClosed(s: State, text: string, sum: Summary, t: State)
    requires Begun(s, text, sum) && !s.textOpen && ClosedUpTo(s, t, sum, |sum.keys|)
    ensures forall i :: 0 <= i < |t.client.blocks| ==> !t.client.blocks[i].open
  {
    forall i | 0 <= i < |t.client.blocks| ensures !t.client.blocks[i].open {
      if s.client.blocks[i].start.ToolStart? {
        EveryToolHasPosition(s.client.blocks, i);
        var j :| 0 <= j < |sum.keys| && ToolPositions(s.client.blocks)[j] == i;
        assert ToolClosed(t, sum.keys[j], ToolPositions(s.client.blocks)[j], true);
      }
    }
  }

  /** A client shows exactly this text, and the j-th tool block is that of the j-th tool index. */
  ghost predicate Delivered(c: Client, text: string, sum: Summary) {
    && TextOf(c.blocks) == text
    && |ToolPositions(c.blocks)| == |sum.keys|
    && forall j :: 0 <= j < |sum.keys| ==> DeliveredTool(c.blocks, ToolPositions(c.blocks)[j], sum, sum.keys[j])
  }

  ghost predicate DeliveredTool(blocks: seq<Block>, i: nat, sum: Summary, k: int) {
    i < |blocks| && k in sum.tools && blocks[i].start == sum.tools[k].start && blocks[i].body == sum.tools[k].arguments
  }

  lemma ClosedIsDelivered(s: State, text: string, sum: Summary, t: State)
    requires Begun(s, text, sum) && ClosedUpTo(s, t, sum, |sum.keys|)
    ensures Delivered(t.client, text, sum)
  {
    SameContentReads(s.client.blocks, t.client.blocks);
    forall j | 0 <= j < |sum.keys|
      ensures DeliveredTool(t.client.blocks, ToolPositions(t.client.blocks)[j], sum, sum.keys[j])
    {
      assert ToolMatches(s.toolBlocks, s.client.blocks, sum, sum.keys[j], ToolPositions(s.client.blocks)[j]);
    }
  }

  lemma CompleteIsDone(s: State, delta: Event)
    requires s.client.phase.Streaming? && delta.MessageDelta?
    requires forall i :: 0 <= i < |s.client.blocks| ==> !s.client.blocks[i].open
    ensures Complete(s, delta).client == Client(Done, s.client.blocks)
  {
  }

  /** What a translator has when it was finished after delivering this text and these tools. */
  ghost predicate Ended(t: State, text: string, sum: Summary) {
    && t.finished && t.started && t.client.phase.Done? && t.out != [] && Delivered(t.client, text, sum)
    && t.toolBlockKeys == sum.keys && !t.textOpen
    && forall k :: k in t.toolBlocks <==> k in t.toolBlockKeys
  }

  lemma FinishBegun(s: State, text: string, sum: Summary)
    requires Begun(s, text, sum) && !s.finished
    ensures Ended(Finish(s), text, sum)
  {
    CloseTextKeeps(s, text, sum);
    var t := CloseTextBlock(s);
    NoneClosed(t, text, sum);
    var u := CloseToolsKeeps(t, sum, |sum.keys|);
    AllClosed(t, text, sum, u);
    ClosedIsDelivered(t, text, sum, u);
    CompleteIsDone(u, DeltaEvent(u.header));
  }

  // ---------- the client that rides along is the client that replays the trace ----------

  /**
   From `s` to `t` the trace only grows, its client has read the new events, and a client that had
   finished objects to any.
   */
  ghost predicate Follows(s: State, t: State) {
    && |s.out| <= |t.out|
    && (|t.out| == |s.out| ==> t.out == s.out && t.client == s.client)
    && (|t.out| > |s.out| && (s.client.phase.Done? || s.client.phase.Broken?) ==> t.client.phase.Broken?)
    && (s.client == Replay(s.out) ==> t.client == Replay(t.out))
  }

  lemma EmitFollows(s: State, e: Event)
    ensures Follows(s, Emit(s, e)) && |Emit(s, e).out| > |s.out|
  {
    assert (s.out + [e])[..|s.out|] == s.out;
  }

  lemma StartFollows(s: State)
    ensures Follows(s, EnsureStarted(s))
  {
    if !s.started {
      EmitFollows(s.(started := true), StartEvent(s.header));
    }
  }

  lemma TextFollows(s: State, content: string)
    ensures Follows(s, ConsumeText(s, content))
    ensures content != "" ==> |ConsumeText(s, content).out| > |s.out|
  {
    if content != "" {
      var t := EnsureStarted(s.(hasContent := true));
      StartFollows(s.(hasContent := true));
      EmitFollows(t.(textIndex := t.nextIndex, nextIndex := t.nextIndex + 1, textOpen := true),
                  BlockStart(t.nextIndex, TextStart));
      var u := EnsureTextBlock(t);
      assert Follows(t, u);
      EmitFollows(u, TextDelta(u.textIndex, content));
    }
  }

  lemma CloseFollows(s: State)
    ensures Follows(s, CloseTextBlock(s))
  {
    EmitFollows(s.(textOpen := false), BlockStop(s.textIndex));
  }

  lemma OpenToolFollows(s: State, tc: ToolCall)
    ensures Follows(s, OpenTool(s, tc))
    ensures tc.index !in s.toolBlocks ==> |OpenTool(s, tc).out| > |s.out|
  {
    if tc.index !in s.toolBlocks {
      var b := OpenTool(s, tc).toolBlocks[tc.index];
      EmitFollows(s.(toolBlocks := s.toolBlocks[tc.index := b], toolBlockKeys := s.toolBlockKeys + [tc.index],
                     nextIndex := s.nextIndex + 1),
                  BlockStart(b.openIndex, ToolStart(b.id, b.name)));
    }
  }

  lemma ToolFollows(s: State, tc: ToolCall)
    ensures Follows(s, ConsumeTool(s, tc))
    ensures tc.index !in s.toolBlocks || tc.arguments != "" ==> |ConsumeTool(s, tc).out| > |s.out|
  {
    OpenToolFollows(s, tc);
    var t := OpenTool(s, tc);
    EmitFollows(t, JsonDelta(t.toolBlocks[tc.index].openIndex, tc.arguments));
  }

  lemma {:induction false} ToolsFollow(s: State, calls: seq<ToolCall>)
    ensures Follows(s, ConsumeTools(s, calls))
  {
    if calls != [] {
      ToolsFollow(s, calls[..|calls| - 1]);
      ToolFollows(ConsumeTools(s, calls[..|calls| - 1]), calls[|calls| - 1]);
    }
  }

  lemma CallsFollow(s: State, c: Choice)
    ensures Follows(s, ConsumeCalls(s, c))
  {
    if HasMeaningfulCall(c) {
      StartFollows(s.(hasContent := true));
      var t := EnsureStarted(s.(hasContent := true));
      CloseFollows(t);
      ToolsFollow(CloseTextBlock(t), c.toolCalls);
    }
  }

  lemma ChoiceFollows(s: State, c: Choice)
    ensures Follows(s, ConsumeChoice(s, c))
    ensures c.content != "" ==> |ConsumeChoice(s, c).out| > |s.out|
  {
    TextFollows(s, c.content);
    CallsFollow(ConsumeText(s, c.content), c);
  }

  lemma {:induction false} ChoicesFollow(s: State, cs: seq<Choice>)
    ensures Follows(s, ConsumeChoices(s, cs))
  {
    if cs != [] {
      ChoicesFollow(s, cs[..|cs| - 1]);
      ChoiceFollows(ConsumeChoices(s, cs[..|cs| - 1]), cs[|cs| - 1]);
    }
  }

  lemma CloseToolFollows(s: State, k: int)
    ensures Follows(s, CloseTool(s, k))
  {
    if k in s.toolBlocks {
      EmitFollows(s.(toolBlocks := s.toolBlocks[k := s.toolBlocks[k].(closed := true)]),
                  BlockStop(s.toolBlocks[k].openIndex));
    }
  }

  lemma {:induction false} CloseToolsFollow(s: State, n: nat)
    requires n <= |s.toolBlockKeys|
    ensures Follows(s, CloseTools(s, n))
  {
    if n > 0 {
      CloseToolsFollow(s, n - 1);
      CloseToolFollows(CloseTools(s, n - 1), s.toolBlockKeys[n - 1]);
    }
  }

  lemma CompleteFollows(s: State, delta: Event)
    ensures Follows(s, Complete(s, delta))
  {
    EmitFollows(s.(finished := true), delta);
    EmitFollows(Emit(s.(finished := true), delta), MessageStop);
  }

  lemma StepFollows(s: State, op: Op)
    ensures Follows(s, Step(s, op))
  {
    match op
    case Feed(chunk) => ChoicesFollow(s.(header := NoteChunk(s.header, chunk)), chunk.choices);
    case End =>
      if !s.finished && (s.hasContent || s.started) {
        StartFollows(s);
        CloseFollows(EnsureStarted(s));
        var t := CloseTextBlock(EnsureStarted(s));
        CloseToolsFollow(t, |t.toolBlockKeys|);
        var u := CloseTools(t, |t.toolBlockKeys|);
        CompleteFollows(u, DeltaEvent(u.header));
      }
  }

  lemma {:induction false} RunFollows(s: State, ops: seq<Op>)
    ensures Follows(s, Run(s, ops))
  {
    if ops != [] {
      RunFollows(s, ops[..|ops| - 1]);
      StepFollows(Run(s, ops[..|ops| - 1]), ops[|ops| - 1]);
    }
  }

  // ---------- chunks that change nothing once the stream has been finished ----------

  /** A choice with no text, whose kept fragments belong to known tools and carry no arguments. */
  predicate MuteChoice(keys: seq<int>, c: Choice) {
    c.content == "" && MuteCalls(keys, Kept(c))
  }

  predicate MuteCalls(keys: seq<int>, calls: seq<ToolCall>) {
    forall i :: 0 <= i < |calls| ==> MuteCall(keys, calls[i])
  }

  lemma MuteCallsLast(keys: seq<int>, calls: seq<ToolCall>)
    requires calls != []
    ensures MuteCalls(keys, calls) <==> MuteCalls(keys, calls[..|calls| - 1]) && MuteCall(keys, calls[|calls| - 1])
  {
    assert forall i :: 0 <= i < |calls| - 1 ==> calls[..|calls| - 1][i] == calls[i];
  }

  predicate MuteCall(keys: seq<int>, tc: ToolCall) {
    tc.index in keys && tc.arguments == ""
  }

  predicate MuteChoices(keys: seq<int>, cs: seq<Choice>) {
    forall i :: 0 <= i < |cs| ==> MuteChoice(keys, cs[i])
  }

  lemma MuteChoicesLast(keys: seq<int>, cs: seq<Choice>)
    requires cs != []
    ensures MuteChoices(keys, cs) <==> MuteChoices(keys, cs[..|cs| - 1]) && MuteChoice(keys, cs[|cs| - 1])
  {
    assert forall i :: 0 <= i < |cs| - 1 ==> cs[..|cs| - 1][i] == cs[i];
  }

  /** No text block is open, and there are tools only in a message that has begun. */
  ghost predicate Quiet(s: State) {
    && !s.textOpen && (s.started || s.toolBlockKeys == [])
    && forall k :: k in s.toolBlocks <==> k in s.toolBlockKeys
  }

  ghost predicate Unmoved(s: State, t: State) {
    && Quiet(t) && t.out == s.out && t.client == s.client && t.toolBlockKeys == s.toolBlockKeys
    && t.finished == s.finished
  }

  lemma {:induction false} MuteTools(s: State, calls: seq<ToolCall>)
    requires Quiet(s) && MuteCalls(s.toolBlockKeys, calls)
    ensures Unmoved(s, ConsumeTools(s, calls))
  {
    if calls != [] {
      MuteCallsLast(s.toolBlockKeys, calls);
      MuteTools(s, calls[..|calls| - 1]);
    }
  }

  lemma {:induction false} LoudTools(s: State, calls: seq<ToolCall>)
    requires Quiet(s) && !MuteCalls(s.toolBlockKeys, calls)
    ensures |ConsumeTools(s, calls).out| > |s.out|
  {
    var n := |calls| - 1;
    MuteCallsLast(s.toolBlockKeys, calls);
    ToolFollows(ConsumeTools(s, calls[..n]), calls[n]);
    if MuteCalls(s.toolBlockKeys, calls[..n]) {
      MuteTools(s, calls[..n]);
    } else {
      LoudTools(s, calls[..n]);
    }
  }

  lemma MuteOrLoudChoice(s: State, c: Choice)
    requires Quiet(s)
    ensures MuteChoice(s.toolBlockKeys, c) ==> Unmoved(s, ConsumeChoice(s, c))
    ensures !MuteChoice(s.toolBlockKeys, c) ==> |ConsumeChoice(s, c).out| > |s.out|
  {
    ChoiceFollows(s, c);
    if c.content == "" && HasMeaningfulCall(c) {
      var t := s.(hasContent := true);
      if MuteChoice(s.toolBlockKeys, c) {
        assert MuteCall(s.toolBlockKeys, Kept(c)[0]);
        MuteTools(t, c.toolCalls);
      } else {
        StartFollows(t);
        assert CloseTextBlock(EnsureStarted(t)) == EnsureStarted(t);
        LoudTools(EnsureStarted(t), c.toolCalls);
      }
    }
  }

  lemma {:induction false} MuteOrLoudChoices(s: State, cs: seq<Choice>)
    requires Quiet(s)
    ensures MuteChoices(s.toolBlockKeys, cs) ==> Unmoved(s, ConsumeChoices(s, cs))
    ensures !MuteChoices(s.toolBlockKeys, cs) ==> |ConsumeChoices(s, cs).out| > |s.out|
  {
    if cs != [] {
      var n := |cs| - 1;
      MuteChoicesLast(s.toolBlockKeys, cs);
      MuteOrLoudChoices(s, cs[..n]);
      if MuteChoices(s.toolBlockKeys, cs[..n]) {
        MuteOrLoudChoice(ConsumeChoices(s, cs[..n]), cs[n]);
      } else {
        ChoiceFollows(ConsumeChoices(s, cs[..n]), cs[n]);
      }
    }
  }

  predicate MuteOp(keys: seq<int>, op: Op) {
    op.Feed? ==> MuteChoices(keys, op.chunk.choices)
  }

  /** Feeding or finishing again after the stream was finished. */
  predicate AllMute(keys: seq<int>, ops: seq<Op>) {
    forall i :: 0 <= i < |ops| ==> MuteOp(keys, ops[i])
  }

  lemma MuteOrLoudStep(s: State, op: Op)
    requires Quiet(s) && s.finished
    ensures MuteOp(s.toolBlockKeys, op) ==> Unmoved(s, Step(s, op))
    ensures !MuteOp(s.toolBlockKeys, op) ==> |Step(s, op).out| > |s.out|
  {
    if op.Feed? {
      MuteOrLoudChoices(s.(header := NoteChunk(s.header, op.chunk)), op.chunk.choices);
    }
  }

  lemma AllMuteLast(keys: seq<int>, ops: seq<Op>)
    requires ops != []
    ensures AllMute(keys, ops) <==> AllMute(keys, ops[..|ops| - 1]) && MuteOp(keys, ops[|ops| - 1])
  {
    assert forall i :: 0 <= i < |ops| - 1 ==> ops[..|ops| - 1][i] == ops[i];
  }

  lemma {:induction false} MuteOrLoudRun(s: State, ops: seq<Op>)
    requires Quiet(s) && s.finished
    ensures AllMute(s.toolBlockKeys, ops) ==> Unmoved(s, Run(s, ops))
    ensures !AllMute(s.toolBlockKeys, ops) ==> |Run(s, ops).out| > |s.out|
  {
    if ops != [] {
      var n := |ops| - 1;
      MuteOrLoudRun(s, ops[..n]);
      AllMuteLast(s.toolBlockKeys, ops);
      if AllMute(s.toolBlockKeys, ops[..n]) {
        MuteOrLoudStep(Run(s, ops[..n]), ops[n]);
      } else {
        StepFollows(Run(s, ops[..n]), ops[n]);
      }
    }
  }

  // ---------- whole runs ----------

  /** What the chunks say about tools, as the client should get it. */
  function ToolsSent(chunks: seq<Chunk>): Summary {
    NoteAll(NO_TOOLS, KeptCalls(AllChoices(chunks)))
  }

  lemma {:induction false} FeedsKeep(s: State, chunks: seq<Chunk>)
    requires Untouched(s)
    ensures Live(Run(s, Feeds(chunks)), TextSent(chunks), ToolsSent(chunks))
    ensures Run(s, Feeds(chunks)).finished == s.finished
  {
    if chunks != [] {
      var n := |chunks| - 1;
      assert Feeds(chunks)[..n] == Feeds(chunks[..n]);
      FeedsKeep(s, chunks[..n]);
      FeedKeeps(Run(s, Feeds(chunks[..n])), TextSent(chunks[..n]), ToolsSent(chunks[..n]), chunks[n]);
      SentTextAppend(AllChoices(chunks[..n]), chunks[n].choices);
      KeptCallsAppend(AllChoices(chunks[..n]), chunks[n].choices);
      NoteAllAppend(NO_TOOLS, KeptCalls(AllChoices(chunks[..n])), KeptCalls(chunks[n].choices));
    }
  }

  lemma FeedKeeps(s: State, text: string, sum: Summary, chunk: Chunk)
    requires Live(s, text, sum)
    ensures Live(Consume(s, chunk), text + SentText(chunk.choices), NoteAll(sum, KeptCalls(chunk.choices)))
    ensures Consume(s, chunk).finished == s.finished
  {
    ChoicesKeep(s.(header := NoteChunk(s.header, chunk)), text, sum, chunk.choices);
    NoteChoicesMeaning(sum, chunk.choices);
    ChoicesFinished(s.(header := NoteChunk(s.header, chunk)), chunk.choices);
  }

  lemma {:induction false} ToolsFinished(s: State, calls: seq<ToolCall>)
    ensures ConsumeTools(s, calls).finished == s.finished
  {
    if calls != [] {
      ToolsFinished(s, calls[..|calls| - 1]);
    }
  }

  lemma TextFinished(s: State, content: string)
    ensures ConsumeText(s, content).finished == s.finished
  {
  }

  lemma CallsFinished(s: State, c: Choice)
    ensures ConsumeCalls(s, c).finished == s.finished
  {
    ToolsFinished(CloseTextBlock(EnsureStarted(s.(hasContent := true))), c.toolCalls);
  }

  lemma ChoiceFinished(s: State, c: Choice)
    ensures ConsumeChoice(s, c).finished == s.finished
  {
    TextFinished(s, c.content);
    CallsFinished(ConsumeText(s, c.content), c);
  }

  lemma {:induction false} ChoicesFinished(s: State, cs: seq<Choice>)
    ensures ConsumeChoices(s, cs).finished == s.finished
  {
    if cs != [] {
      ChoicesFinished(s, cs[..|cs| - 1]);
      ChoiceFinished(ConsumeChoices(s, cs[..|cs| - 1]), cs[|cs| - 1]);
    }
  }

  lemma {:induction false} RunAppend(s: State, a: seq<Op>, b: seq<Op>)
    ensures Run(s, a + b) == Run(Run(s, a), b)
  {
    if b == [] {
      AppendNothing(a);
    } else {
      assert (a + b)[..|a + b| - 1] == a + b[..|b| - 1];
      RunAppend(s, a, b[..|b| - 1]);
    }
  }

  /** The state after the chunks of a stream and the first End. */
  function AfterEnd(model: string, fallbackID: string, chunks: seq<Chunk>): State {
    Finish(Run(Init(model, fallbackID), Feeds(chunks)))
  }

  /**
   The trace serves the chunks: it is empty when they carry neither text nor a kept fragment;
   otherwise a strict client accepts it, shows exactly the concatenated text, and has, for the j-th
   tool index in order of first appearance, a j-th tool block with the id and name of its first
   fragment and the concatenation of its arguments.
   */
  ghost predicate Serves(out: seq<Event>, chunks: seq<Chunk>) {
    && Accepted(out)
    && (out == [] <==> TextSent(chunks) == "" && KeptCalls(AllChoices(chunks)) == [])
    && (out != [] ==> Delivered(Replay(out), TextSent(chunks), ToolsSent(chunks)))
  }

  /** What a complete stream sends serves its chunks. */
  lemma CompleteStream(model: string, fallbackID: string, chunks: seq<Chunk>)
    ensures var t := AfterEnd(model, fallbackID, chunks);
      && Serves(t.out, chunks)
      && Quiet(t) && t.finished && t.toolBlockKeys == FirstSeen(KeptCalls(AllChoices(chunks)))
      && t.client == Replay(t.out)
      && (t.out == [] ==> Untouched(t.(finished := false)))
      && (t.hasContent || t.started <==> t.out != [])
  {
    var s := Init(model, fallbackID);
    FeedsKeep(s, chunks);
    RunFollows(s, Feeds(chunks));
    SummaryMeaning(KeptCalls(AllChoices(chunks)));
    var live := Run(s, Feeds(chunks));
    StepFollows(live, End);
    if live.started {
      FinishBegun(live, TextSent(chunks), ToolsSent(chunks));
    } else if KeptCalls(AllChoices(chunks)) != [] {
      SomethingNoted(NO_TOOLS, KeptCalls(AllChoices(chunks)));
    }
  }

  lemma LiveIsStreaming(s: State, text: string, sum: Summary)
    requires Live(s, text, sum)
    ensures s.out == [] <==> text == "" && sum == NO_TOOLS
    ensures s.out != [] ==> s.client.phase.Streaming?
  {
  }

  /** Without an End the message stays open as soon as it has begun. */
  lemma UnfinishedStream(model: string, fallbackID: string, chunks: seq<Chunk>)
    ensures var t := Run(Init(model, fallbackID), Feeds(chunks));
      && (t.out == [] <==> TextSent(chunks) == "" && KeptCalls(AllChoices(chunks)) == [])
      && (t.out != [] ==> !Accepted(t.out))
  {
    var s := Init(model, fallbackID);
    FeedsKeep(s, chunks);
    LiveIsStreaming(Run(s, Feeds(chunks)), TextSent(chunks), ToolsSent(chunks));
    RunFollows(s, Feeds(chunks));
    if KeptCalls(AllChoices(chunks)) != [] {
      SomethingNoted(NO_TOOLS, KeptCalls(AllChoices(chunks)));
    }
  }

  lemma FedWhileFinished(s: State, text: string, sum: Summary, ops: seq<Op>) returns (text': string, sum': Summary)
    requires Live(s, text, sum) && s.finished
    ensures Live(Run(s, ops), text', sum') && Run(s, ops).finished
  {
    if ops == [] {
      return text, sum;
    }
    var n := |ops| - 1;
    text', sum' := FedWhileFinished(s, text, sum, ops[..n]);
    if ops[n].Feed? {
      FeedKeeps(Run(s, ops[..n]), text', sum', ops[n].chunk);
      text', sum' := text' + SentText(ops[n].chunk.choices), NoteAll(sum', KeptCalls(ops[n].chunk.choices));
    }
  }

  /** Every run that finishes the stream at least once: the chunks before the first End, and the rest. */
  function WholeRun(model: string, fallbackID: string, chunks: seq<Chunk>, rest: seq<Op>): State {
    Run(Init(model, fallbackID), Feeds(chunks) + [End] + rest)
  }

  lemma WholeRunSplits(model: string, fallbackID: string, chunks: seq<Chunk>, rest: seq<Op>)
    ensures WholeRun(model, fallbackID, chunks, rest) == Run(AfterEnd(model, fallbackID, chunks), rest)
  {
    var s := Init(model, fallbackID);
    RunAppend(s, Feeds(chunks) + [End], rest);
    assert (Feeds(chunks) + [End])[..|Feeds(chunks)|] == Feeds(chunks);
  }

  /**
   Exactly which runs leave a well-formed trace.  Neither Consume nor the relay stops at the end
   of the stream, so a chunk that still carries text, arguments or a new tool after the first End
   breaks the trace; if there is none, further Ends and chunks change nothing.
   */
  lemma TraceGrammar(model: string, fallbackID: string, chunks: seq<Chunk>, rest: seq<Op>)
    ensures Accepted(WholeRun(model, fallbackID, chunks, rest).out) <==>
            AllMute(FirstSeen(KeptCalls(AllChoices(chunks))), rest)
    ensures AllMute(FirstSeen(KeptCalls(AllChoices(chunks))), rest) ==>
              WholeRun(model, fallbackID, chunks, rest).out == AfterEnd(model, fallbackID, chunks).out
  {
    var t := AfterEnd(model, fallbackID, chunks);
    var u := Run(t, rest);
    CompleteStream(model, fallbackID, chunks);
    WholeRunSplits(model, fallbackID, chunks, rest);
    MuteOrLoudRun(t, rest);
    RunFollows(t, rest);
    if !AllMute(t.toolBlockKeys, rest) && t.out == [] {
      var text, sum := FedWhileFinished(t, "", NO_TOOLS, rest);
      assert u.started;
    }
  }

  /** A stream whose producer sends one more text fragment after [DONE]. */
  lemma LateTextBreaksTheTrace(model: string, fallbackID: string)
    ensures var late := Chunk("", "", [Choice("x", [], "")], None);
      !Accepted(WholeRun(model, fallbackID, [late], [Feed(late)]).out)
  {
    var late := Chunk("", "", [Choice("x", [], "")], None);
    TraceGrammar(model, fallbackID, [late], [Feed(late)]);
    assert !MuteChoice(FirstSeen(KeptCalls(AllChoices([late]))), late.choices[0]);
    assert !MuteOp(FirstSeen(KeptCalls(AllChoices([late]))), [Feed(late)][0]);
  }
}
