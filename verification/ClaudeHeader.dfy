/** What the first event and the last but one of a Claude stream say about the message as a whole. */
module ClaudeHeader {
  import opened Text
  import opened Chunks
  import opened ClaudeStream

  // ---------- the header ----------

  lemma {:induction false} ToolsHeader(s: State, calls: seq<ToolCall>)
    ensures ConsumeTools(s, calls).header == s.header
  {
    if calls != [] {
      ToolsHeader(s, calls[..|calls| - 1]);
    }
  }

  lemma ChoiceHeader(s: State, c: Choice)
    ensures ConsumeChoice(s, c).header ==
            s.header.(finishReason := if c.finishReason != "" then c.finishReason else s.header.finishReason)
  {
    var t := ConsumeText(s, c.content);
    assert t.header == s.header;
    if HasMeaningfulCall(c) {
      ToolsHeader(CloseTextBlock(EnsureStarted(t.(hasContent := true))), c.toolCalls);
    }
  }

  lemma {:induction false} ChoicesHeader(s: State, cs: seq<Choice>)
    ensures ConsumeChoices(s, cs).header ==
            s.header.(finishReason := if LastReason(cs) != "" then LastReason(cs) else s.header.finishReason)
  {
    if cs != [] {
      ChoicesHeader(s, cs[..|cs| - 1]);
      ChoiceHeader(ConsumeChoices(s, cs[..|cs| - 1]), cs[|cs| - 1]);
    }
  }

  /** What the header says of the message after these chunks. */
  ghost predicate HeaderOf(h: Header, model: string, fallbackID: string, chunks: seq<Chunk>) {
    ModelIs(model, chunks, h.model) && h.fallbackID == fallbackID && h.usage == LastUsage(chunks)
  }

  lemma NoteHeader(h: Header, model: string, fallbackID: string, chunks: seq<Chunk>)
    requires chunks != [] && HeaderOf(h, model, fallbackID, chunks[..|chunks| - 1])
    ensures HeaderOf(NoteChunk(h, chunks[|chunks| - 1]), model, fallbackID, chunks)
  {
  }

  lemma {:induction false} FeedsHeader(model: string, fallbackID: string, chunks: seq<Chunk>)
    ensures HeaderOf(Run(Init(model, fallbackID), Feeds(chunks)).header, model, fallbackID, chunks)
  {
    if chunks != [] {
      var before, c := chunks[..|chunks| - 1], chunks[|chunks| - 1];
      var s := Run(Init(model, fallbackID), Feeds(before));
      FeedsHeader(model, fallbackID, before);
      LastFeed(Init(model, fallbackID), chunks);
      FeedHeader(s, c);
      NoteHeader(s.header, model, fallbackID, chunks);
    }
  }

  lemma NoteID(h: Header, chunks: seq<Chunk>)
    requires chunks != [] && h.messageID == FirstID(chunks[..|chunks| - 1])
    ensures NoteChunk(h, chunks[|chunks| - 1]).messageID == FirstID(chunks)
  {
    FirstIDIsFirst(chunks[..|chunks| - 1]);
  }

  lemma {:induction false} FeedsID(model: string, fallbackID: string, chunks: seq<Chunk>)
    ensures Run(Init(model, fallbackID), Feeds(chunks)).header.messageID == FirstID(chunks)
  {
    if chunks != [] {
      var before, c := chunks[..|chunks| - 1], chunks[|chunks| - 1];
      var s := Run(Init(model, fallbackID), Feeds(before));
      FeedsID(model, fallbackID, before);
      LastFeed(Init(model, fallbackID), chunks);
      FeedHeader(s, c);
      NoteID(s.header, chunks);
    }
  }

  lemma {:induction false} FeedsReason(model: string, fallbackID: string, chunks: seq<Chunk>)
    ensures Run(Init(model, fallbackID), Feeds(chunks)).header.finishReason == LastReason(AllChoices(chunks))
  {
    if chunks != [] {
      var before, c := chunks[..|chunks| - 1], chunks[|chunks| - 1];
      FeedsReason(model, fallbackID, before);
      LastFeed(Init(model, fallbackID), chunks);
      FeedHeader(Run(Init(model, fallbackID), Feeds(before)), c);
      LastReasonAppend(AllChoices(before), c.choices);
    }
  }

  lemma FeedHeader(s: State, chunk: Chunk)
    ensures var h, r := NoteChunk(s.header, chunk), LastReason(chunk.choices);
      Consume(s, chunk).header == h.(finishReason := if r != "" then r else s.header.finishReason)
  {
    ChoicesHeader(s.(header := NoteChunk(s.header, chunk)), chunk.choices);
  }

  // ---------- the last event but one ----------

  /** The stop reason that a finish reason stands for. */
  ghost predicate StopsFor(finishReason: string, stopReason: string) {
    var trimmed := TrimSpace(finishReason);
    if trimmed == "tool_calls" then stopReason == "tool_use"
    else if trimmed == "length" || trimmed == "stop" || trimmed == "" then stopReason == "end_turn"
    else stopReason == finishReason
  }

  /** A number of tokens, where 100 stands for one that is not known. */
  ghost predicate TokensFor(usage: Usage, key: string, n: int) {
    if key in usage && usage[key] > 0 then n == usage[key] else n == 100
  }

  lemma {:induction false} CloseToolsHeader(s: State, n: nat)
    requires n <= |s.toolBlockKeys|
    ensures CloseTools(s, n).header == s.header
  {
    if n > 0 {
      CloseToolsHeader(s, n - 1);
    }
  }

  /**
   However a stream is cut into chunks: the last event but one gives the reason for the last finish
   reason that is not empty, and the completion tokens of the last usage.
   */
  lemma DeltaMeaning(model: string, fallbackID: string, chunks: seq<Chunk>)
    requires AfterEnd(model, fallbackID, chunks).out != []
    ensures var out := AfterEnd(model, fallbackID, chunks).out;
      && |out| >= 2 && out[|out| - 1].MessageStop? && out[|out| - 2].MessageDelta?
      && StopsFor(LastReason(AllChoices(chunks)), out[|out| - 2].stopReason)
      && TokensFor(LastUsage(chunks), "completion_tokens", out[|out| - 2].outputTokens)
  {
    var s := Run(Init(model, fallbackID), Feeds(chunks));
    FeedsHeader(model, fallbackID, chunks);
    FeedsReason(model, fallbackID, chunks);
    FedSilently(model, fallbackID, chunks);
    FinishSends(s);
    DeltaSays(s.header);
  }

  lemma FedSilently(model: string, fallbackID: string, chunks: seq<Chunk>)
    ensures var s := Run(Init(model, fallbackID), Feeds(chunks));
      !s.finished && (!s.hasContent && !s.started ==> s.out == [])
  {
    FeedsKeep(Init(model, fallbackID), chunks);
  }

  lemma DeltaSays(h: Header)
    ensures DeltaEvent(h).MessageDelta? && StopsFor(h.finishReason, DeltaEvent(h).stopReason)
    ensures TokensFor(h.usage, "completion_tokens", DeltaEvent(h).outputTokens)
  {
  }

  lemma FinishSends(s: State)
    requires !s.finished
    ensures if s.hasContent || s.started then EndsWith(Finish(s).out, s.header) else Finish(s).out == s.out
  {
    if s.hasContent || s.started {
      var t := CloseTextBlock(EnsureStarted(s));
      CloseToolsHeader(t, |t.toolBlockKeys|);
      var u := CloseTools(t, |t.toolBlockKeys|);
      assert Finish(s).out == u.out + [DeltaEvent(s.header)] + [MessageStop];
    }
  }

  ghost predicate EndsWith(out: seq<Event>, h: Header) {
    |out| >= 2 && out[|out| - 1].MessageStop? && out[|out| - 2] == DeltaEvent(h)
  }

  // ---------- the first event ----------

  ghost predicate Candid(s: State) {
    s.started <==> s.out != []
  }

  /** What a message starts with; the finish reason has no part in it. */
  predicate SameStart(h: Header, h': Header) {
    h' == h.(finishReason := h'.finishReason)
  }

  /** From `s` to `t` the first event stays, and a message that starts does so with the header of `s`. */
  ghost predicate Onward(s: State, t: State) {
    && Candid(t) && SameStart(s.header, t.header)
    && (s.started && s.out != [] ==> t.started && t.out[0] == s.out[0])
    && (!s.started && t.started ==> t.out[0] == StartEvent(s.header))
  }

  lemma OnwardOn(s: State, t: State, u: State)
    requires Candid(s) && Onward(s, t) && Onward(t, u)
    ensures Onward(s, u)
  {
  }

  lemma EmitOnward(s: State, t: State, e: Event)
    requires Candid(s) && s.started && t.started && t.out == s.out && t.header == s.header
    ensures Onward(s, Emit(t, e))
  {
  }

  lemma StartOnward(s: State)
    requires Candid(s)
    ensures Onward(s, EnsureStarted(s)) && EnsureStarted(s).started
  {
  }

  lemma TextOnward(s: State, content: string)
    requires Candid(s)
    ensures Onward(s, ConsumeText(s, content))
  {
    if content != "" {
      var r := EnsureStarted(s.(hasContent := true));
      StartOnward(s.(hasContent := true));
      var t := EnsureTextBlock(r);
      assert Onward(r, t);
      EmitOnward(t, t, TextDelta(t.textIndex, content));
      OnwardOn(r, t, ConsumeText(s, content));
      OnwardOn(s.(hasContent := true), r, ConsumeText(s, content));
    }
  }

  lemma ToolOnward(s: State, tc: ToolCall)
    requires Candid(s) && s.started
    ensures Onward(s, ConsumeTool(s, tc))
  {
    var t := OpenTool(s, tc);
    assert Onward(s, t);
    if tc.arguments != "" {
      EmitOnward(t, t, JsonDelta(t.toolBlocks[tc.index].openIndex, tc.arguments));
      OnwardOn(s, t, ConsumeTool(s, tc));
    }
  }

  lemma {:induction false} ToolsOnward(s: State, calls: seq<ToolCall>)
    requires Candid(s) && s.started
    ensures Onward(s, ConsumeTools(s, calls))
  {
    if calls != [] {
      var n := |calls| - 1;
      ToolsOnward(s, calls[..n]);
      ToolOnward(ConsumeTools(s, calls[..n]), calls[n]);
      OnwardOn(s, ConsumeTools(s, calls[..n]), ConsumeTools(s, calls));
    }
  }

  lemma CallsOnward(s: State, c: Choice)
    requires Candid(s)
    ensures Onward(s, ConsumeCalls(s, c))
  {
    if HasMeaningfulCall(c) {
      var r := s.(hasContent := true);
      var t := EnsureStarted(r);
      StartOnward(r);
      assert Onward(t, CloseTextBlock(t));
      ToolsOnward(CloseTextBlock(t), c.toolCalls);
      OnwardOn(t, CloseTextBlock(t), ConsumeCalls(s, c));
      OnwardOn(r, t, ConsumeCalls(s, c));
    }
  }

  lemma ChoiceOnward(s: State, c: Choice)
    requires Candid(s)
    ensures Onward(s, ConsumeChoice(s, c))
  {
    var t := ConsumeText(s, c.content);
    TextOnward(s, c.content);
    CallsOnward(t, c);
    OnwardOn(s, t, ConsumeCalls(t, c));
    OnwardOn(s, ConsumeCalls(t, c), ConsumeChoice(s, c));
  }

  lemma {:induction false} ChoicesOnward(s: State, cs: seq<Choice>)
    requires Candid(s)
    ensures Onward(s, ConsumeChoices(s, cs))
  {
    if cs != [] {
      var n := |cs| - 1;
      ChoicesOnward(s, cs[..n]);
      ChoiceOnward(ConsumeChoices(s, cs[..n]), cs[n]);
      OnwardOn(s, ConsumeChoices(s, cs[..n]), ConsumeChoices(s, cs));
    }
  }

  lemma {:induction false} CloseToolsOnward(s: State, n: nat)
    requires Candid(s) && s.started && n <= |s.toolBlockKeys|
    ensures Onward(s, CloseTools(s, n))
  {
    if n > 0 {
      var t := CloseTools(s, n - 1);
      CloseToolsOnward(s, n - 1);
      assert Onward(t, CloseTool(t, s.toolBlockKeys[n - 1]));
      OnwardOn(s, t, CloseTools(s, n));
    }
  }

  lemma FinishOnward(s: State)
    requires Candid(s)
    ensures Onward(s, Finish(s))
  {
    if !s.finished && (s.hasContent || s.started) {
      var r := EnsureStarted(s);
      StartOnward(s);
      var t := CloseTextBlock(r);
      assert Onward(r, t);
      OnwardOn(s, r, t);
      CloseToolsOnward(t, |t.toolBlockKeys|);
      var u := CloseTools(t, |t.toolBlockKeys|);
      OnwardOn(s, t, u);
      var v := Emit(u.(finished := true), DeltaEvent(u.header));
      assert Onward(u, v) && Onward(v, Emit(v, MessageStop));
      OnwardOn(u, v, Finish(s));
      OnwardOn(s, u, Finish(s));
    }
  }

  /** Once a message has started its first event stays, whatever chunks follow. */
  lemma {:induction false} StartStays(s: State, ops: seq<Op>)
    requires Candid(s)
    ensures Candid(Run(s, ops)) && (s.out != [] ==> Run(s, ops).out != [] && Run(s, ops).out[0] == s.out[0])
  {
    if ops != [] {
      var n := |ops| - 1;
      var t := Run(s, ops[..n]);
      StartStays(s, ops[..n]);
      match ops[n]
      case Feed(chunk) => ChoicesOnward(t.(header := NoteChunk(t.header, chunk)), chunk.choices);
      case End => FinishOnward(t);
    }
  }

  /** The id of a message: the first of the chunks' that is not blank, or the one of the request, or none. */
  ghost predicate IdIs(fallbackID: string, chunks: seq<Chunk>, id: string) {
    var first := FirstID(chunks);
    if TrimSpace(first) != "" then id == first
    else if TrimSpace(fallbackID) != "" then id == fallbackID
    else id == ""
  }

  /** Whether chunks carry anything that a Claude client is sent. */
  predicate Loud(chunks: seq<Chunk>) {
    TextSent(chunks) != "" || KeptCalls(AllChoices(chunks)) != []
  }

  /**
   However a stream is cut into chunks: if chunk n is the first that brings anything, the first event
   has the first id and the first model that is not blank among the chunks up to it, and the prompt
   tokens of the last usage among them.
   */
  lemma StartMeaning(model: string, fallbackID: string, chunks: seq<Chunk>, n: nat)
    requires n < |chunks| && !Loud(chunks[..n]) && Loud(chunks[..n + 1])
    ensures var out := AfterEnd(model, fallbackID, chunks).out;
      && out != [] && out[0].MessageStart?
      && IdIs(fallbackID, chunks[..n + 1], out[0].id)
      && ModelIs(model, chunks[..n + 1], out[0].model)
      && TokensFor(LastUsage(chunks[..n + 1]), "prompt_tokens", out[0].inputTokens)
  {
    var h := FirstEvent(model, fallbackID, chunks, n);
    StartSays(h);
    BlankMeansTrimmedAway(h.messageID);
    BlankMeansTrimmedAway(fallbackID);
  }

  lemma FirstEvent(model: string, fallbackID: string, chunks: seq<Chunk>, n: nat) returns (h: Header)
    requires n < |chunks| && !Loud(chunks[..n]) && Loud(chunks[..n + 1])
    ensures var out := AfterEnd(model, fallbackID, chunks).out; out != [] && out[0] == StartEvent(h)
    ensures StartsWith(h, model, fallbackID, chunks[..n + 1])
  {
    var s := Init(model, fallbackID);
    UnfinishedStream(model, fallbackID, chunks[..n]);
    UnfinishedStream(model, fallbackID, chunks[..n + 1]);
    assert chunks[..n + 1][..n] == chunks[..n];
    h := FirstStarts(model, fallbackID, chunks[..n + 1]);
    StartStays(Run(s, Feeds(chunks[..n + 1])), Feeds(chunks[n + 1..]) + [End]);
    SplitFeeds(s, chunks, n + 1);
  }

  /** The header that a message starts with. */
  ghost predicate StartsWith(h: Header, model: string, fallbackID: string, chunks: seq<Chunk>) {
    HeaderOf(h, model, fallbackID, chunks) && h.messageID == FirstID(chunks)
  }

  lemma FirstStarts(model: string, fallbackID: string, chunks: seq<Chunk>) returns (h: Header)
    requires chunks != []
    requires Run(Init(model, fallbackID), Feeds(chunks[..|chunks| - 1])).out == []
    requires Run(Init(model, fallbackID), Feeds(chunks)).out != []
    ensures var t := Run(Init(model, fallbackID), Feeds(chunks));
      Candid(t) && t.started && t.out[0] == StartEvent(h)
    ensures StartsWith(h, model, fallbackID, chunks)
  {
    var before, c := chunks[..|chunks| - 1], chunks[|chunks| - 1];
    var s := Run(Init(model, fallbackID), Feeds(before));
    h := NoteChunk(s.header, c);
    StartStays(Init(model, fallbackID), Feeds(before));
    FeedOnward(s, c);
    LastFeed(Init(model, fallbackID), chunks);
    StartHeader(model, fallbackID, chunks, s.header);
  }

  lemma StartHeader(model: string, fallbackID: string, chunks: seq<Chunk>, h: Header)
    requires chunks != [] && h == Run(Init(model, fallbackID), Feeds(chunks[..|chunks| - 1])).header
    ensures StartsWith(NoteChunk(h, chunks[|chunks| - 1]), model, fallbackID, chunks)
  {
    FeedsHeader(model, fallbackID, chunks[..|chunks| - 1]);
    FeedsID(model, fallbackID, chunks[..|chunks| - 1]);
    NoteHeader(h, model, fallbackID, chunks);
    NoteID(h, chunks);
  }

  lemma LastFeed(s: State, chunks: seq<Chunk>)
    requires chunks != []
    ensures Run(s, Feeds(chunks)) == Consume(Run(s, Feeds(chunks[..|chunks| - 1])), chunks[|chunks| - 1])
  {
    assert Feeds(chunks)[..|chunks| - 1] == Feeds(chunks[..|chunks| - 1]);
  }

  lemma FeedOnward(s: State, chunk: Chunk)
    requires Candid(s) && s.out == []
    ensures var t := Consume(s, chunk);
      Candid(t) && (t.out != [] ==> t.started && t.out[0] == StartEvent(NoteChunk(s.header, chunk)))
  {
    ChoicesOnward(s.(header := NoteChunk(s.header, chunk)), chunk.choices);
  }

  lemma SplitFeeds(s: State, chunks: seq<Chunk>, n: nat)
    requires n <= |chunks|
    ensures Finish(Run(s, Feeds(chunks))) == Run(Run(s, Feeds(chunks[..n])), Feeds(chunks[n..]) + [End])
  {
    assert Feeds(chunks) == Feeds(chunks[..n]) + Feeds(chunks[n..]);
    RunAppend(s, Feeds(chunks[..n]), Feeds(chunks[n..]));
    var rest := Feeds(chunks[n..]) + [End];
    assert rest[..|rest| - 1] == Feeds(chunks[n..]);
  }

  lemma StartSays(h: Header)
    ensures StartEvent(h).MessageStart? && StartEvent(h).model == h.model
    ensures StartEvent(h).id ==
            if !Blank(h.messageID) then h.messageID else if !Blank(h.fallbackID) then h.fallbackID else ""
    ensures TokensFor(h.usage, "prompt_tokens", StartEvent(h).inputTokens)
  {
  }

  // ---------- tool blocks ----------

  /** What the first fragment for an index makes of the block that it opens. */
  ghost predicate Introduces(tc: ToolCall, start: Start) {
    && start.ToolStart?
    && start.id == (if TrimSpace(tc.id) != "" then tc.id else "toolu_" + Decimal(tc.index))
    && start.name == (if TrimSpace(tc.name) != "" then tc.name else "tool_" + Decimal(tc.index))
  }

  lemma StartIntroduced(tc: ToolCall)
    ensures Introduces(tc, StartOf(tc))
  {
    BlankMeansTrimmedAway(tc.id);
    BlankMeansTrimmedAway(tc.name);
    var id, name := "toolu_" + Decimal(tc.index), "tool_" + Decimal(tc.index);
    assert id[0] == 't' && name[0] == 't' && !Blank(id) && !Blank(name);
  }

  lemma NotedStart(sum: Summary, tc: ToolCall, k: int)
    ensures k in sum.tools ==> k in Note(sum, tc).tools && Note(sum, tc).tools[k].start == sum.tools[k].start
    ensures k !in sum.tools && k == tc.index ==> k in Note(sum, tc).tools && Note(sum, tc).tools[k].start == StartOf(tc)
  {
  }

  lemma {:induction false} StartsNoted(calls: seq<ToolCall>, k: int)
    requires k in FirstSeen(calls)
    ensures var sum := NoteAll(NO_TOOLS, calls);
      && k in sum.tools && FragmentFor(calls, k).index == k
      && sum.tools[k].start == StartOf(FragmentFor(calls, k))
  {
    var n := |calls| - 1;
    SummaryMeaning(calls[..n]);
    NotedStart(NoteAll(NO_TOOLS, calls[..n]), calls[n], k);
    if k in FirstSeen(calls[..n]) {
      StartsNoted(calls[..n], k);
    }
  }

  /**
   What a client sees of the tool calls: the j-th tool block is that of the j-th index to appear, it
   has the id and the name of the first fragment or made-up ones, and all arguments joined.
   */
  lemma ToolMeaning(model: string, fallbackID: string, chunks: seq<Chunk>, j: nat)
    requires j < |FirstSeen(KeptCalls(AllChoices(chunks)))|
    ensures var blocks := Replay(AfterEnd(model, fallbackID, chunks).out).blocks;
      var calls := KeptCalls(AllChoices(chunks));
      var k := FirstSeen(calls)[j];
      && j < |ToolPositions(blocks)| && ToolPositions(blocks)[j] < |blocks|
      && Introduces(FragmentFor(calls, k), blocks[ToolPositions(blocks)[j]].start)
      && blocks[ToolPositions(blocks)[j]].body == ArgsOf(calls, k)
  {
    var calls := KeptCalls(AllChoices(chunks));
    CompleteStream(model, fallbackID, chunks);
    SummaryMeaning(calls);
    StartsNoted(calls, FirstSeen(calls)[j]);
    StartIntroduced(FragmentFor(calls, FirstSeen(calls)[j]));
    var blocks := Replay(AfterEnd(model, fallbackID, chunks).out).blocks;
    assert DeliveredTool(blocks, ToolPositions(blocks)[j], ToolsSent(chunks), ToolsSent(chunks).keys[j]);
  }
}
