/**
 The live translator from OpenAI chunks to Gemini events.  Text goes out at once; tool call
 fragments are gathered per tool index and go out as whole function calls when the stream ends.
 */
module GeminiStream {
  import opened Text
  import opened Chunks
  import opened Sorting

  /** `arguments` is the joined raw text; its decoding as JSON is not modelled. */
  datatype Call = Call(name: string, arguments: string)

  /** A mapped finish reason: STOP, or the upper-case form of any other reason. */
  datatype Reason = Stop | Upper(reason: string)

  datatype Event =
    | TextPart(model: string, text: string)
    | FunctionCall(model: string, call: Call)
    | Final(model: string, reason: Reason, promptTokens: int, candidatesTokens: int, totalTokens: int)

  // ---------- an independent client ----------

  datatype Phase = Idle | Texting | Calling | Done | Broken

  datatype Client = Client(phase: Phase, text: string, calls: seq<Call>)

  const NEW_CLIENT := Client(Idle, "", [])

  /** A strict client takes texts, then function calls, then one final event, and nothing after it. */
  function React(c: Client, e: Event): Client {
    match e
    case TextPart(_, text) =>
      if c.phase.Idle? || c.phase.Texting? then c.(phase := Texting, text := c.text + text) else c.(phase := Broken)
    case FunctionCall(_, call) =>
      if c.phase.Done? || c.phase.Broken? then c.(phase := Broken) else c.(phase := Calling, calls := c.calls + [call])
    case Final(_, _, _, _, _) =>
      if c.phase.Done? || c.phase.Broken? then c.(phase := Broken) else c.(phase := Done)
  }

  function Replay(events: seq<Event>): Client {
    if events == [] then NEW_CLIENT else React(Replay(events[..|events| - 1]), events[|events| - 1])
  }

  predicate Accepted(events: seq<Event>) {
    events == [] || Replay(events).phase.Done?
  }

  // ---------- what the translator does ----------

  /** The tool indices in order of first appearance, and what was gathered for each. */
  datatype Gathered = Gathered(keys: seq<int>, calls: map<int, Call>)

  const NOTHING := Gathered([], map[])

  function GatherName(g: Gathered, k: int, name: string): Gathered {
    if k !in g.calls then Gathered(g.keys + [k], g.calls[k := Call(name, "")])
    else if g.calls[k].name == "" then g.(calls := g.calls[k := g.calls[k].(name := name)])
    else g
  }

  function GatherArguments(g: Gathered, k: int, arguments: string): Gathered {
    if arguments == "" || k !in g.calls then g
    else g.(calls := g.calls[k := g.calls[k].(arguments := g.calls[k].arguments + arguments)])
  }

  function Gather(g: Gathered, tc: ToolCall): Gathered {
    GatherArguments(GatherName(g, tc.index, tc.name), tc.index, tc.arguments)
  }

  function GatherAll(g: Gathered, calls: seq<ToolCall>): Gathered {
    if calls == [] then g else Gather(GatherAll(g, calls[..|calls| - 1]), calls[|calls| - 1])
  }

  predicate SomeArguments(calls: seq<ToolCall>) {
    exists i :: 0 <= i < |calls| && calls[i].arguments != ""
  }

  /** `client` is the client that has read `out`; it has no counterpart in the translator. */
  datatype State = State(
    model: string,
    usage: Usage,
    finishReason: string,
    started: bool,
    finished: bool,
    hasContent: bool,
    gathered: Gathered,
    out: seq<Event>,
    client: Client)

  function Init(model: string): State {
    State(model, map[], "", false, false, false, NOTHING, [], NEW_CLIENT)
  }

  function MapReason(reason: string): Reason {
    match TrimSpace(reason)
    case "length" => Stop
    case "tool_calls" => Stop
    case "stop" => Stop
    case "" => Stop
    case _ => Upper(reason)
  }

  function Emit(s: State, e: Event): State {
    s.(started := true, out := s.out + [e], client := React(s.client, e))
  }

  function ConsumeText(s: State, content: string): State {
    if content == "" then s else Emit(s.(hasContent := true), TextPart(s.model, content))
  }

  function ConsumeTools(s: State, calls: seq<ToolCall>): State {
    s.(gathered := GatherAll(s.gathered, calls), hasContent := s.hasContent || SomeArguments(calls))
  }

  function ConsumeChoice(s: State, c: Choice): State {
    var t := ConsumeTools(ConsumeText(s, c.content), c.toolCalls);
    if c.finishReason == "" then t else t.(finishReason := c.finishReason)
  }

  function ConsumeChoices(s: State, cs: seq<Choice>): State {
    if cs == [] then s else ConsumeChoice(ConsumeChoices(s, cs[..|cs| - 1]), cs[|cs| - 1])
  }

  function NoteChunk(s: State, chunk: Chunk): State {
    s.(model := if chunk.model != "" then FirstNonEmpty(s.model, chunk.model) else s.model,
       usage := if chunk.usage.Some? then chunk.usage.value else s.usage)
  }

  function Consume(s: State, chunk: Chunk): State {
    ConsumeChoices(NoteChunk(s, chunk), chunk.choices)
  }

  function EmitCall(s: State, k: int): State {
    if k in s.gathered.calls then Emit(s, FunctionCall(s.model, s.gathered.calls[k])) else s
  }

  function EmitCalls(s: State, keys: seq<int>): State {
    if keys == [] then s else EmitCall(EmitCalls(s, keys[..|keys| - 1]), keys[|keys| - 1])
  }

  function FinalEvent(s: State): Event {
    Final(s.model, MapReason(s.finishReason), LookupUsage(s.usage, "prompt_tokens"),
          LookupUsage(s.usage, "completion_tokens"), LookupUsage(s.usage, "total_tokens"))
  }

  function SortKeys(s: State): State {
    s.(gathered := s.gathered.(keys := Sorted(s.gathered.keys)))
  }

  function Finish(s: State): State {
    if s.finished then s
    else if !s.hasContent && !s.started then s.(finished := true)
    else
      var t := EmitCalls(SortKeys(s), Sorted(s.gathered.keys));
      Emit(t, FinalEvent(t)).(finished := true)
  }

  function Step(s: State, op: Op): State {
    match op
    case Feed(chunk) => Consume(s, chunk)
    case End => Finish(s)
  }

  function Run(s: State, ops: seq<Op>): State {
    if ops == [] then s else Step(Run(s, ops[..|ops| - 1]), ops[|ops| - 1])
  }

  lemma ChoicesOneMore(s: State, cs: seq<Choice>, i: nat)
    requires i < |cs|
    ensures ConsumeChoices(s, cs[..i + 1]) == ConsumeChoice(ConsumeChoices(s, cs[..i]), cs[i])
  {
    assert cs[..i + 1][..i] == cs[..i];
  }

  lemma ToolsOneMore(g: Gathered, calls: seq<ToolCall>, i: nat)
    requires i < |calls|
    ensures GatherAll(g, calls[..i + 1]) == Gather(GatherAll(g, calls[..i]), calls[i])
    ensures SomeArguments(calls[..i + 1]) <==> SomeArguments(calls[..i]) || calls[i].arguments != ""
  {
    var longer, shorter := calls[..i + 1], calls[..i];
    assert longer[..i] == shorter;
    if SomeArguments(shorter) {
      var j :| 0 <= j < i && shorter[j].arguments != "";
      assert longer[j].arguments != "";
    }
    assert longer[i] == calls[i];
  }

  lemma EmitCallsOneMore(s: State, keys: seq<int>, i: nat)
    requires i < |keys|
    ensures EmitCalls(s, keys[..i + 1]) == EmitCall(EmitCalls(s, keys[..i]), keys[i])
  {
    assert keys[..i + 1][..i] == keys[..i];
  }

  // ---------- what was gathered ----------

  /** What the fragments for one tool index add up to. */
  function CallOf(calls: seq<ToolCall>, k: int): Call {
    Call(NameOf(calls, k), ArgsOf(calls, k))
  }

  ghost predicate IsCallOf(c: Call, calls: seq<ToolCall>, k: int) {
    c == CallOf(calls, k)
  }

  /** Every index is listed once, with its first non-empty name and all its arguments joined. */
  ghost predicate Means(g: Gathered, calls: seq<ToolCall>) {
    && g.keys == FirstSeen(calls)
    && (forall k :: k in g.keys <==> k in g.calls)
    && forall k :: k in g.calls ==> IsCallOf(g.calls[k], calls, k)
  }

  lemma GatherOne(g: Gathered, calls: seq<ToolCall>, tc: ToolCall)
    requires Means(g, calls)
    ensures Means(Gather(g, tc), calls + [tc])
  {
    OneMoreFragment(calls, tc, tc.index);
    var after := Gather(g, tc);
    forall k | k in after.calls ensures IsCallOf(after.calls[k], calls + [tc], k) {
      OneMoreFragment(calls, tc, k);
      if k in g.calls {
        assert IsCallOf(g.calls[k], calls, k);
        AppendNothing(g.calls[k].arguments);
      } else {
        NothingSaid(calls, k);
      }
    }
  }

  lemma {:induction false} GatherMeaning(calls: seq<ToolCall>)
    ensures Means(GatherAll(NOTHING, calls), calls)
  {
    if calls != [] {
      var n := |calls| - 1;
      GatherMeaning(calls[..n]);
      GatherOne(GatherAll(NOTHING, calls[..n]), calls[..n], calls[n]);
      assert calls == calls[..n] + [calls[n]];
    }
  }

  lemma {:induction false} GatherAllAppend(g: Gathered, a: seq<ToolCall>, b: seq<ToolCall>)
    ensures GatherAll(g, a + b) == GatherAll(GatherAll(g, a), b)
    ensures SomeArguments(a + b) <==> SomeArguments(a) || SomeArguments(b)
  {
    if b == [] {
      AppendNothing(a);
    } else {
      var n := |b| - 1;
      assert (a + b)[..|a + b| - 1] == a + b[..n];
      GatherAllAppend(g, a, b[..n]);
      ToolsOneMore(g, a + b, |a + b| - 1);
      ToolsOneMore(g, b, n);
      assert b[..n + 1] == b && (a + b)[..|a + b| - 1 + 1] == a + b;
    }
  }

  // ---------- the invariant while chunks come in ----------

  ghost predicate Live(s: State, text: string, calls: seq<ToolCall>) {
    && s.gathered == GatherAll(NOTHING, calls)
    && s.hasContent == (text != "" || SomeArguments(calls))
    && s.started == (text != "")
    && (s.out == [] <==> text == "")
    && s.client == Client(if text == "" then Idle else Texting, text, [])
    && s.client == Replay(s.out)
  }

  lemma ReplayEmit(s: State, e: Event)
    requires s.client == Replay(s.out)
    ensures Emit(s, e).client == Replay(Emit(s, e).out)
  {
    assert (s.out + [e])[..|s.out|] == s.out;
  }

  lemma TextKeeps(s: State, text: string, calls: seq<ToolCall>, content: string)
    requires Live(s, text, calls)
    ensures Live(ConsumeText(s, content), text + content, calls)
  {
    if content == "" {
      AppendNothing(text);
    } else {
      ReplayEmit(s.(hasContent := true), TextPart(s.model, content));
    }
  }

  lemma ToolsKeep(s: State, text: string, calls: seq<ToolCall>, more: seq<ToolCall>)
    requires Live(s, text, calls)
    ensures Live(ConsumeTools(s, more), text, calls + more)
  {
    GatherAllAppend(NOTHING, calls, more);
  }

  lemma ChoiceKeeps(s: State, text: string, calls: seq<ToolCall>, c: Choice)
    requires Live(s, text, calls)
    ensures Live(ConsumeChoice(s, c), text + c.content, calls + c.toolCalls)
    ensures ConsumeChoice(s, c).finished == s.finished
  {
    TextKeeps(s, text, calls, c.content);
    ToolsKeep(ConsumeText(s, c.content), text + c.content, calls, c.toolCalls);
  }

  lemma {:induction false} ChoicesKeep(s: State, text: string, calls: seq<ToolCall>, cs: seq<Choice>)
    requires Live(s, text, calls)
    ensures Live(ConsumeChoices(s, cs), text + SentText(cs), calls + SentCalls(cs))
    ensures ConsumeChoices(s, cs).finished == s.finished
  {
    if cs == [] {
      AppendNothing(text);
      AppendNothing(calls);
    } else {
      var n := |cs| - 1;
      ChoicesKeep(s, text, calls, cs[..n]);
      ChoiceKeeps(ConsumeChoices(s, cs[..n]), text + SentText(cs[..n]), calls + SentCalls(cs[..n]), cs[n]);
      AppendAppend(text, SentText(cs[..n]), cs[n].content);
      AppendAppend(calls, SentCalls(cs[..n]), cs[n].toolCalls);
    }
  }

  lemma {:induction false} FeedsKeep(model: string, chunks: seq<Chunk>)
    ensures var s := Run(Init(model), Feeds(chunks));
      Live(s, TextSent(chunks), SentCalls(AllChoices(chunks))) && !s.finished
  {
    if chunks != [] {
      var n := |chunks| - 1;
      assert Feeds(chunks)[..n] == Feeds(chunks[..n]);
      FeedsKeep(model, chunks[..n]);
      var s := Run(Init(model), Feeds(chunks[..n]));
      ChoicesKeep(NoteChunk(s, chunks[n]), TextSent(chunks[..n]), SentCalls(AllChoices(chunks[..n])),
                  chunks[n].choices);
      SentTextAppend(AllChoices(chunks[..n]), chunks[n].choices);
      SentCallsAppend(AllChoices(chunks[..n]), chunks[n].choices);
    }
  }

  // ---------- the end of the stream ----------

  /** The function calls for these tool indices, in this order. */
  function CallsFor(calls: seq<ToolCall>, keys: seq<int>): seq<Call> {
    if keys == [] then [] else CallsFor(calls, keys[..|keys| - 1]) + [CallOf(calls, keys[|keys| - 1])]
  }

  ghost predicate Holds(gathered: map<int, Call>, calls: seq<ToolCall>, keys: seq<int>) {
    forall i :: 0 <= i < |keys| ==> keys[i] in gathered && gathered[keys[i]] == CallOf(calls, keys[i])
  }

  lemma GatheredKeys(calls: seq<ToolCall>)
    ensures GatherAll(NOTHING, calls).keys == FirstSeen(calls)
    ensures Holds(GatherAll(NOTHING, calls).calls, calls, Sorted(FirstSeen(calls)))
  {
    GatherMeaning(calls);
    FirstSeenFacts(calls);
    SortedSorts(FirstSeen(calls));
    var keys := Sorted(FirstSeen(calls));
    var g := GatherAll(NOTHING, calls);
    forall i | 0 <= i < |keys| ensures keys[i] in g.calls && g.calls[keys[i]] == CallOf(calls, keys[i]) {
      var k := keys[i];
      assert k in keys;
      assert IsCallOf(g.calls[k], calls, k);
    }
  }

  lemma {:induction false} EmitCallsDelivers(s: State, keys: seq<int>, calls: seq<ToolCall>)
    requires s.client.phase in {Idle, Texting} && s.client.calls == [] && s.client == Replay(s.out)
    requires Holds(s.gathered.calls, calls, keys)
    ensures var t := EmitCalls(s, keys);
      && t == s.(started := t.started, out := t.out, client := t.client)
      && t.client == Client(if keys == [] then s.client.phase else Calling, s.client.text, CallsFor(calls, keys))
      && t.client == Replay(t.out)
  {
    if keys != [] {
      var n := |keys| - 1;
      EmitCallsDelivers(s, keys[..n], calls);
      var t := EmitCalls(s, keys[..n]);
      ReplayEmit(t, FunctionCall(t.model, t.gathered.calls[keys[n]]));
    }
  }

  /** The state after the chunks of a stream and the first End. */
  function AfterEnd(model: string, chunks: seq<Chunk>): State {
    Finish(Run(Init(model), Feeds(chunks)))
  }

  /** Whether the chunks carry anything that makes the translator emit. */
  predicate Substance(chunks: seq<Chunk>) {
    TextSent(chunks) != "" || SomeArguments(SentCalls(AllChoices(chunks)))
  }

  /** The tool indices that a client is sent, in order. */
  function KeysSent(chunks: seq<Chunk>): seq<int> {
    Sorted(FirstSeen(SentCalls(AllChoices(chunks))))
  }

  /** They are the indices that occur, each once, in ascending order. */
  lemma KeysSentMeaning(chunks: seq<Chunk>)
    ensures Ascending(KeysSent(chunks))
    ensures forall k :: k in KeysSent(chunks) <==> Occurs(SentCalls(AllChoices(chunks)), k)
  {
    var calls := SentCalls(AllChoices(chunks));
    FirstSeenFacts(calls);
    SortedSorts(FirstSeen(calls));
    forall k ensures k in FirstSeen(calls) <==> Occurs(calls, k) {
    }
  }

  /** Some fragment is for this tool index. */
  predicate Occurs(calls: seq<ToolCall>, k: int) {
    exists i :: 0 <= i < |calls| && calls[i].index == k
  }

  lemma SealDelivers(s: State, e: Event)
    requires !s.client.phase.Done? && !s.client.phase.Broken? && s.client == Replay(s.out) && e.Final?
    ensures Emit(s, e).client == s.client.(phase := Done) && Emit(s, e).client == Replay(Emit(s, e).out)
  {
    ReplayEmit(s, e);
  }

  lemma FinishDelivers(s: State, text: string, calls: seq<ToolCall>)
    requires Live(s, text, calls) && !s.finished && s.hasContent
    ensures var t := Finish(s);
      && t.finished && t.started && t.out != [] && t.client == Replay(t.out)
      && t.client == Client(Done, text, CallsFor(calls, Sorted(FirstSeen(calls))))
  {
    GatheredKeys(calls);
    EmitCallsDelivers(SortKeys(s), Sorted(s.gathered.keys), calls);
    var t := EmitCalls(SortKeys(s), Sorted(s.gathered.keys));
    SealDelivers(t, FinalEvent(t));
  }

  /**
   The trace serves the chunks: it is empty when they carry neither text nor arguments; otherwise a
   strict client accepts it, has exactly the concatenated text, and has one function call per tool
   index that was seen, in ascending order of the indices, each with its first non-empty name and
   every argument fragment.
   */
  ghost predicate Serves(out: seq<Event>, chunks: seq<Chunk>) {
    && Accepted(out)
    && (out == [] <==> !Substance(chunks))
    && (Substance(chunks) ==>
          Replay(out) == Client(Done, TextSent(chunks), CallsFor(SentCalls(AllChoices(chunks)), KeysSent(chunks))))
  }

  /** What a complete stream sends serves its chunks. */
  lemma CompleteStream(model: string, chunks: seq<Chunk>)
    ensures var t := AfterEnd(model, chunks);
      && Serves(t.out, chunks) && t.finished && t.client == Replay(t.out)
      && (t.hasContent || t.started <==> t.out != [])
  {
    FeedsKeep(model, chunks);
    if Substance(chunks) {
      FinishDelivers(Run(Init(model), Feeds(chunks)), TextSent(chunks), SentCalls(AllChoices(chunks)));
    }
  }

  // ---------- after the end ----------

  predicate SilentOp(op: Op) {
    op.Feed? ==> SentText(op.chunk.choices) == ""
  }

  predicate Silent(ops: seq<Op>) {
    forall i :: 0 <= i < |ops| ==> SilentOp(ops[i])
  }

  /** A finished translator whose client is satisfied. */
  ghost predicate Rests(s: State) {
    s.finished && s.client == Replay(s.out) && Accepted(s.out)
  }

  /** A finished translator that has sent text behind the final event, or without one to come. */
  ghost predicate Spoilt(s: State) {
    s.finished && s.client == Replay(s.out) && s.out != [] && s.client.phase in {Texting, Broken}
  }

  lemma LateChoice(s: State, c: Choice)
    requires Rests(s) || Spoilt(s)
    ensures Rests(s) && c.content == "" ==> Rests(ConsumeChoice(s, c)) && ConsumeChoice(s, c).out == s.out
    ensures Spoilt(s) || c.content != "" ==> Spoilt(ConsumeChoice(s, c))
  {
    if c.content != "" {
      ReplayEmit(s.(hasContent := true), TextPart(s.model, c.content));
    }
  }

  lemma {:induction false} LateChoices(s: State, cs: seq<Choice>)
    requires Rests(s) || Spoilt(s)
    ensures Rests(s) && SentText(cs) == "" ==> Rests(ConsumeChoices(s, cs)) && ConsumeChoices(s, cs).out == s.out
    ensures Spoilt(s) || SentText(cs) != "" ==> Spoilt(ConsumeChoices(s, cs))
  {
    if cs != [] {
      LateChoices(s, cs[..|cs| - 1]);
      LateChoice(ConsumeChoices(s, cs[..|cs| - 1]), cs[|cs| - 1]);
    }
  }

  lemma LateStep(s: State, op: Op)
    requires Rests(s) || Spoilt(s)
    ensures Rests(s) && SilentOp(op) ==> Rests(Step(s, op)) && Step(s, op).out == s.out
    ensures Spoilt(s) || !SilentOp(op) ==> Spoilt(Step(s, op))
  {
    if op.Feed? {
      LateChoices(NoteChunk(s, op.chunk), op.chunk.choices);
    }
  }

  lemma {:induction false} LateRun(s: State, ops: seq<Op>)
    requires Rests(s)
    ensures Silent(ops) ==> Rests(Run(s, ops)) && Run(s, ops).out == s.out
    ensures !Silent(ops) ==> Spoilt(Run(s, ops))
  {
    if ops != [] {
      var n := |ops| - 1;
      LateRun(s, ops[..n]);
      assert Silent(ops) <==> Silent(ops[..n]) && SilentOp(ops[n]) by {
        assert forall i :: 0 <= i < n ==> ops[..n][i] == ops[i];
      }
      LateStep(Run(s, ops[..n]), ops[n]);
    }
  }

  lemma {:induction false} RunAppend(s: State, a: seq<Op>, b: seq<Op>)
    ensures Run(s, a + b) == Run(Run(s, a), b)
  {
    if b == [] {
      AppendNothing(a);
    } else {
      assert (a + b)[..|a + b| - 1] == a + b[..|b| - 1];
      RunAppend(s, a, b[..|b| - 1]);
    }
  }

  /**
   Exactly which runs leave a well-formed trace: those that carry no text after the first End.
   Tool call fragments that arrive then are dropped without a trace.
   */
  lemma TraceGrammar(model: string, chunks: seq<Chunk>, rest: seq<Op>)
    ensures Accepted(Run(Init(model), Feeds(chunks) + [End] + rest).out) <==> Silent(rest)
    ensures Silent(rest) ==> Run(Init(model), Feeds(chunks) + [End] + rest).out == AfterEnd(model, chunks).out
  {
    RunAppend(Init(model), Feeds(chunks) + [End], rest);
    assert (Feeds(chunks) + [End])[..|Feeds(chunks)|] == Feeds(chunks);
    CompleteStream(model, chunks);
    LateRun(AfterEnd(model, chunks), rest);
  }
}
