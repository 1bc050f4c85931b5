/**
 What a Responses client is told, piece by piece: the arguments of every call, the object, and the
 assistant message that is stored, for streams and for whole results.
 */
module ResponsesContents {
  import opened Text
  import opened Chunks
  import opened Sorting
  import opened ResponsesObject
  import opened ResponsesStream
  import opened ResponsesEquivalence

  // ---------- arguments ----------

  /**
   How arguments are passed on: blank ones as an empty object, JSON as it prints, and anything else
   as it came.
   */
  ghost predicate PassedOn(codec: Codec, sent: string, delivered: string) {
    if TrimSpace(sent) == "" then delivered == "{}"
    else match codec.reparse(TrimSpace(sent))
      case None => delivered == sent
      case Some(printed) => delivered == printed
  }

  lemma NormalizePassesOn(codec: Codec, sent: string)
    ensures PassedOn(codec, sent, Normalize(codec, sent))
  {
  }

  lemma NormalizeTwicePassesOn(codec: Codec, sent: string)
    requires Lawful(codec)
    ensures PassedOn(codec, sent, Normalize(codec, Normalize(codec, sent)))
  {
    NormalizeIdempotent(codec, sent);
    NormalizePassesOn(codec, sent);
  }

  /** What the client shows for one tool index: the joined fragments, and at the end the arguments passed on. */
  ghost predicate ShownFor(codec: Codec, item: Shown, calls: seq<ToolCall>, k: int) {
    && item.call.Some? && IdFor(item.call.value, FirstIdOf(calls, k)) && item.stage.Closed?
    && item.body == ArgsOf(calls, k) && item.name == NameOf(calls, k)
    && PassedOn(codec, ArgsOf(calls, k), item.final)
  }

  /** The id that the upstream gave, or a made-up one. */
  ghost predicate IdFor(id: Id, given: string) {
    if TrimSpace(given) == "" then id.Made? else id == Given(given)
  }

  /** Every tool index of a complete stream has its item, with the arguments passed on. */
  lemma CallsArePassedOn(codec: Codec, model: string, chunks: seq<Chunk>, k: int)
    requires k in FirstSeen(SentCalls(AllChoices(chunks)))
    ensures var c := Replay(AfterEnd(codec, model, chunks).out);
      exists id :: id in c.items && ShownFor(codec, c.items[id], SentCalls(AllChoices(chunks)), k)
  {
    var calls := SentCalls(AllChoices(chunks));
    CompleteStream(codec, model, chunks);
    var t := AfterEnd(codec, model, chunks);
    assert Substance(chunks) by {
      assert calls != [];
    }
    assert k in t.calls && Holds(t.calls[k], calls, k);
    assert CallDone(codec, t.calls[k], t.client.items, true);
    NormalizePassesOn(codec, t.calls[k].arguments);
    BlankMeansTrimmedAway(FirstIdOf(calls, k));
    assert ShownFor(codec, t.client.items[t.calls[k].itemID], calls, k);
  }

  // ---------- the model and the usage ----------

  ghost predicate Knows(s: State, model: string, chunks: seq<Chunk>) {
    ModelIs(model, chunks, s.model) && s.usage == LastUsage(chunks)
  }

  lemma OneMoreKnown(s: State, model: string, chunks: seq<Chunk>)
    requires chunks != [] && Knows(s, model, chunks[..|chunks| - 1])
    ensures Knows(Consume(s, chunks[|chunks| - 1]), model, chunks)
  {
    var c := chunks[|chunks| - 1];
    ChoicesHead(NoteChunk(s, c), c.choices);
  }

  lemma {:induction false} FeedsKnow(codec: Codec, model: string, chunks: seq<Chunk>)
    ensures Knows(Run(codec, Init(model), Feeds(chunks)), model, chunks)
  {
    if chunks != [] {
      var before := chunks[..|chunks| - 1];
      FeedsKnow(codec, model, before);
      LastFeed(codec, Init(model), chunks);
      OneMoreKnown(Run(codec, Init(model), Feeds(before)), model, chunks);
    }
  }

  lemma LastFeed(codec: Codec, s: State, chunks: seq<Chunk>)
    requires chunks != []
    ensures Run(codec, s, Feeds(chunks)) ==
            Consume(Run(codec, s, Feeds(chunks[..|chunks| - 1])), chunks[|chunks| - 1])
  {
    assert Feeds(chunks)[..|chunks| - 1] == Feeds(chunks[..|chunks| - 1]);
  }

  // ---------- the object ----------

  /** The text of a message item: one part with the trimmed text, or none. */
  ghost predicate TextIs(o: Output, text: string) {
    o.MessageOut? && o.content == if TrimSpace(text) == "" then [] else [TrimSpace(text)]
  }

  /** A function call item for one tool index. */
  ghost predicate CallIs(codec: Codec, o: Output, name: string, arguments: string, id: string) {
    o.CallOut? && o.name == name && PassedOn(codec, arguments, o.arguments) && IdFor(o.callID, id)
  }

  ghost predicate CountsAre(r: Response, usage: Usage) {
    && Reports(usage, "prompt_tokens", r.inputTokens) && Reports(usage, "completion_tokens", r.outputTokens)
    && Reports(usage, "total_tokens", r.totalTokens)
  }

  /** The items of the calls, by ascending index. */
  ghost predicate CallsAre(codec: Codec, out: seq<Output>, calls: seq<ToolCall>, keys: seq<int>) {
    && |out| == |keys|
    && forall j :: 0 <= j < |keys| ==>
         CallIs(codec, out[j], NameOf(calls, keys[j]), ArgsOf(calls, keys[j]), FirstIdOf(calls, keys[j]))
  }

  /** The items of a stream: the message, if there is any text, and then the calls. */
  ghost predicate ItemsAre(codec: Codec, output: seq<Output>, text: string, calls: seq<ToolCall>) {
    var n := if text != "" then 1 else 0;
    && |output| >= n && (n == 1 ==> TextIs(output[0], text))
    && CallsAre(codec, output[n..], calls, Sorted(FirstSeen(calls)))
  }

  lemma CallsListed(codec: Codec, s: State, calls: seq<ToolCall>)
    requires Gathered(s.calls, s.indexes, calls)
    ensures CallsAre(codec, CallsOut(codec, s.calls, Sorted(s.indexes)), calls, Sorted(FirstSeen(calls)))
  {
    var keys := Sorted(s.indexes);
    GatheredHold(s, calls);
    CallsOutAt(codec, s.calls, keys);
    var out := CallsOut(codec, s.calls, keys);
    forall j | 0 <= j < |keys|
      ensures CallIs(codec, out[j], NameOf(calls, keys[j]), ArgsOf(calls, keys[j]), FirstIdOf(calls, keys[j]))
    {
      assert out[j] == CallOutAt(codec, s.calls, keys[j]) && Holds(s.calls[keys[j]], calls, keys[j]);
      NormalizePassesOn(codec, s.calls[keys[j]].arguments);
      BlankMeansTrimmedAway(FirstIdOf(calls, keys[j]));
    }
  }

  lemma ItemsListed(codec: Codec, id: Id, text: string, out: seq<Output>, calls: seq<ToolCall>)
    requires CallsAre(codec, out, calls, Sorted(FirstSeen(calls)))
    ensures var head := if text != "" then [MessageOut(id, Parts(TrimSpace(text)))] else [];
      ItemsAre(codec, head + out, text, calls)
  {
    var head := if text != "" then [MessageOut(id, Parts(TrimSpace(text)))] else [];
    assert (head + out)[|head|..] == out;
  }

  lemma ObjectItems(codec: Codec, s: State, text: string, calls: seq<ToolCall>)
    requires Gathered(s.calls, s.indexes, calls) && s.messageText == text && s.messageStarted == (text != "")
    ensures ItemsAre(codec, Object(codec, s).output, text, calls) && Object(codec, s).outputText == TrimSpace(text)
  {
    CallsListed(codec, s, calls);
    ItemsListed(codec, s.messageItemID, text, CallsOut(codec, s.calls, Sorted(s.indexes)), calls);
  }

  /** The object that ends a stream, told by what was sent. */
  lemma StreamedObject(codec: Codec, model: string, chunks: seq<Chunk>)
    requires Substance(chunks)
    ensures var response := Replay(AfterEnd(codec, model, chunks).out).response;
      && response.Some?
      && ModelIs(model, chunks, response.value.model) && CountsAre(response.value, LastUsage(chunks))
      && response.value.outputText == TrimSpace(TextSent(chunks))
      && ItemsAre(codec, response.value.output, TextSent(chunks), SentCalls(AllChoices(chunks)))
  {
    var t := AfterEnd(codec, model, chunks);
    CompleteStream(codec, model, chunks);
    EndKnows(codec, model, chunks);
    ObjectItems(codec, t, TextSent(chunks), SentCalls(AllChoices(chunks)));
  }

  lemma EndKnows(codec: Codec, model: string, chunks: seq<Chunk>)
    ensures Knows(AfterEnd(codec, model, chunks), model, chunks)
  {
    var s := Run(codec, Init(model), Feeds(chunks));
    FeedsKnow(codec, model, chunks);
    FeedsKeep(codec, model, chunks);
    if s.started {
      FinishDelivers(codec, s, TextSent(chunks), SentCalls(AllChoices(chunks)));
    }
  }

  /** The item of the object is one that the client was shown, with the same call, name and arguments, or text. */
  ghost predicate ShowsItem(items: map<Id, Shown>, o: Output) {
    && o.id in items && items[o.id].stage.Closed?
    && match o
       case MessageOut(id, _) => items[id].call == None && TextIs(o, items[id].body)
       case CallOut(id, callID, name, arguments) =>
         items[id].call == Some(callID) && name == items[id].name && arguments == items[id].final
  }

  lemma CallItemsShown(codec: Codec, s: State, keys: seq<int>)
    requires CallKeys(s, keys) && forall k :: k in s.calls ==> CallDone(codec, s.calls[k], s.client.items, true)
    ensures forall o :: o in CallsOut(codec, s.calls, keys) ==> ShowsItem(s.client.items, o)
  {
    CallsOutAt(codec, s.calls, keys);
    forall o | o in CallsOut(codec, s.calls, keys) ensures ShowsItem(s.client.items, o) {
      var j :| 0 <= j < |keys| && CallsOut(codec, s.calls, keys)[j] == o;
      assert CallDone(codec, s.calls[keys[j]], s.client.items, true);
    }
  }

  /** Every item of the object that ends a stream is an item that the client was shown. */
  lemma StreamedItems(codec: Codec, model: string, chunks: seq<Chunk>)
    requires Substance(chunks)
    ensures var c := Replay(AfterEnd(codec, model, chunks).out);
      c.response.Some? && forall o :: o in c.response.value.output ==> ShowsItem(c.items, o)
  {
    var t := AfterEnd(codec, model, chunks);
    CompleteStream(codec, model, chunks);
    SortedKeys(t, SentCalls(AllChoices(chunks)));
    CallItemsShown(codec, t, Sorted(t.indexes));
  }

  // ---------- the stored message ----------

  /** A call of the stored message. */
  ghost predicate SaidIs(codec: Codec, c: ConversationCall, kind: string, name: string, arguments: string, id: string) {
    c.kind == kind && c.name == name && PassedOn(codec, arguments, c.arguments) && IdFor(c.id, id)
  }

  /** The calls of the stored message, by ascending index. */
  ghost predicate AllSaid(codec: Codec, said: seq<ConversationCall>, calls: seq<ToolCall>, keys: seq<int>) {
    && |said| == |keys|
    && forall j :: 0 <= j < |keys| ==> SaidAt(codec, said, calls, keys, j)
  }

  /** The assistant message that a stream stores, told by what was sent. */
  lemma StreamedMessage(codec: Codec, model: string, chunks: seq<Chunk>)
    requires Lawful(codec) && Substance(chunks)
    ensures var stored := AfterEnd(codec, model, chunks).stored;
      var calls := SentCalls(AllChoices(chunks));
      && stored.Some? && stored.value.assistant.content == TrimSpace(TextSent(chunks))
      && AllSaid(codec, stored.value.assistant.calls, calls, Sorted(FirstSeen(calls)))
  {
    var t, calls := AfterEnd(codec, model, chunks), SentCalls(AllChoices(chunks));
    CompleteStream(codec, model, chunks);
    TrimSpaceIdempotent(TextSent(chunks));
    MessageCalls(codec, t, calls);
  }

  lemma MessageCalls(codec: Codec, s: State, calls: seq<ToolCall>)
    requires Lawful(codec) && Gathered(s.calls, s.indexes, calls)
    ensures AllSaid(codec, Assisted(codec, s).calls, calls, Sorted(FirstSeen(calls)))
  {
    GatheredHold(s, calls);
    var keys := Sorted(s.indexes);
    CallsSaidAt(codec, s.calls, keys);
    forall j | 0 <= j < |keys|
      ensures SaidAt(codec, ConversationCalls(codec, CallsSaid(codec, s.calls, keys), s.clock), calls, keys, j)
    {
      OneCallSaid(codec, s.calls, calls, keys, s.clock, j);
    }
  }

  ghost predicate SaidAt(codec: Codec, said: seq<ConversationCall>, calls: seq<ToolCall>, keys: seq<int>, j: nat) {
    && j < |said| && j < |keys|
    && SaidIs(codec, said[j], "function", NameOf(calls, keys[j]), ArgsOf(calls, keys[j]), FirstIdOf(calls, keys[j]))
  }

  lemma OneCallSaid(codec: Codec, gathered: map<int, FunctionCall>, calls: seq<ToolCall>, keys: seq<int>, n: nat,
        j: nat)
    requires Lawful(codec) && AllHold(gathered, calls, keys) && j < |keys|
    ensures SaidAt(codec, ConversationCalls(codec, CallsSaid(codec, gathered, keys), n), calls, keys, j)
  {
    CallsSaidAt(codec, gathered, keys);
    CallSaidIs(codec, gathered[keys[j]], calls, keys[j], n + j);
  }

  lemma CallSaidIs(codec: Codec, c: FunctionCall, calls: seq<ToolCall>, k: int, n: nat)
    requires Lawful(codec) && Holds(c, calls, k)
    ensures var payload := PayloadCall(c.callID, "function", c.name, Normalize(codec, c.arguments));
      SaidIs(codec, ConversationCallOf(codec, payload, n), "function", NameOf(calls, k), ArgsOf(calls, k),
             FirstIdOf(calls, k))
  {
    NormalizeTwicePassesOn(codec, c.arguments);
    BlankMeansTrimmedAway(FirstIdOf(calls, k));
    assert !Blank("function") by {
      assert "function"[0] == 'f';
    }
  }

  // ---------- whole results ----------

  /** The object that is rendered from a whole result. */
  lemma RenderedObject(codec: Codec, requestedModel: string, up: Upstream, n: nat)
    requires forall j :: 0 <= j < |up.calls| ==> up.calls[j].id.Given?
    ensures var r := FromResult(codec, requestedModel, up, n);
      var m := if TrimSpace(up.content) != "" || up.calls == [] then 1 else 0;
      && (TrimSpace(requestedModel) != "" ==> r.model == TrimSpace(requestedModel))
      && (TrimSpace(requestedModel) == "" && TrimSpace(up.model) != "" ==> r.model == up.model)
      && r.outputText == TrimSpace(up.content) && CountsAre(r, up.usage)
      && |r.output| == m + |up.calls| && (m == 1 ==> TextIs(r.output[0], up.content))
      && forall j :: 0 <= j < |up.calls| ==>
           CallIs(codec, r.output[m + j], up.calls[j].name, up.calls[j].arguments, up.calls[j].id.text)
  {
    TrimSpaceIdempotent(up.content);
    TrimSpaceIdempotent(requestedModel);
    BlankMeansTrimmedAway(TrimSpace(requestedModel));
    BlankMeansTrimmedAway(up.model);
    forall j | 0 <= j < |up.calls|
      ensures CallIs(codec, CallOutputs(codec, up.calls, n + 1)[j], up.calls[j].name, up.calls[j].arguments,
                     up.calls[j].id.text)
    {
      NormalizePassesOn(codec, up.calls[j].arguments);
      BlankMeansTrimmedAway(up.calls[j].id.text);
    }
  }

  /** The assistant message that is stored for a whole result. */
  lemma RenderedMessage(codec: Codec, content: string, calls: seq<PayloadCall>, n: nat, j: nat)
    requires j < |calls| && calls[j].id.Given?
    ensures var a := AssistantOf(codec, content, calls, n);
      && a.content == TrimSpace(content) && |a.calls| == |calls|
      && SaidIs(codec, a.calls[j], if TrimSpace(calls[j].kind) == "" then "function" else calls[j].kind,
                calls[j].name, calls[j].arguments, calls[j].id.text)
  {
    NormalizePassesOn(codec, calls[j].arguments);
    BlankMeansTrimmedAway(calls[j].id.text);
    BlankMeansTrimmedAway(calls[j].kind);
    assert !Blank("function") by {
      assert "function"[0] == 'f';
    }
  }

  // ---------- what counts as content ----------

  ghost predicate Speaks(c: Choice) {
    c.content != "" || AnySays(c.toolCalls)
  }

  ghost predicate AnySays(calls: seq<ToolCall>) {
    exists i :: 0 <= i < |calls| && Says(calls[i])
  }

  ghost predicate AnySpeaks(cs: seq<Choice>) {
    exists i :: 0 <= i < |cs| && Speaks(cs[i])
  }

  ghost predicate Spoken(ops: seq<Op>) {
    exists i :: 0 <= i < |ops| && Speaking(ops[i])
  }

  ghost predicate Speaking(op: Op) {
    op.Feed? && AnySpeaks(op.chunk.choices)
  }

  lemma LastSays(calls: seq<ToolCall>)
    requires calls != []
    ensures AnySays(calls) <==> AnySays(calls[..|calls| - 1]) || Says(calls[|calls| - 1])
  {
    assert forall i :: 0 <= i < |calls| - 1 ==> calls[..|calls| - 1][i] == calls[i];
  }

  lemma LastSpeaks(cs: seq<Choice>)
    requires cs != []
    ensures AnySpeaks(cs) <==> AnySpeaks(cs[..|cs| - 1]) || Speaks(cs[|cs| - 1])
  {
    assert forall i :: 0 <= i < |cs| - 1 ==> cs[..|cs| - 1][i] == cs[i];
  }

  lemma LastSpeaking(ops: seq<Op>)
    requires ops != []
    ensures Spoken(ops) <==> Spoken(ops[..|ops| - 1]) || Speaking(ops[|ops| - 1])
  {
    assert forall i :: 0 <= i < |ops| - 1 ==> ops[..|ops| - 1][i] == ops[i];
  }

  lemma ToolSays(s: State, tc: ToolCall)
    ensures ConsumeTool(s, tc).hasContent <==> s.hasContent || Says(tc)
  {
    SaysMeaning(tc);
  }

  lemma {:induction false} ToolsSay(s: State, calls: seq<ToolCall>)
    ensures ConsumeTools(s, calls).hasContent <==> s.hasContent || AnySays(calls)
  {
    if calls != [] {
      ToolsSay(s, calls[..|calls| - 1]);
      ToolSays(ConsumeTools(s, calls[..|calls| - 1]), calls[|calls| - 1]);
      LastSays(calls);
    }
  }

  lemma ChoiceSpeaks(s: State, c: Choice)
    ensures ConsumeChoice(s, c).hasContent <==> s.hasContent || Speaks(c)
  {
    assert ConsumeText(s, c.content).hasContent <==> s.hasContent || c.content != "";
    ToolsSay(ConsumeText(s, c.content), c.toolCalls);
  }

  lemma {:induction false} ChoicesSpeak(s: State, cs: seq<Choice>)
    ensures ConsumeChoices(s, cs).hasContent <==> s.hasContent || AnySpeaks(cs)
  {
    if cs != [] {
      ChoicesSpeak(s, cs[..|cs| - 1]);
      ChoiceSpeaks(ConsumeChoices(s, cs[..|cs| - 1]), cs[|cs| - 1]);
      LastSpeaks(cs);
    }
  }

  lemma {:induction false} ClosingSaysNothing(codec: Codec, s: State, keys: seq<int>)
    ensures CloseCalls(codec, s, keys).hasContent == s.hasContent
  {
    if keys != [] {
      ClosingSaysNothing(codec, s, keys[..|keys| - 1]);
    }
  }

  lemma FinishSaysNothing(codec: Codec, s: State)
    ensures Finish(codec, s).hasContent == s.hasContent
  {
    ClosingSaysNothing(codec, CloseMessage(s), Sorted(s.indexes));
  }

  /** The translator has seen content exactly if some choice had text or a fragment that is not blank. */
  lemma {:induction false} ContentMeaning(codec: Codec, model: string, ops: seq<Op>)
    ensures Run(codec, Init(model), ops).hasContent <==> Spoken(ops)
  {
    if ops != [] {
      var t := Run(codec, Init(model), ops[..|ops| - 1]);
      ContentMeaning(codec, model, ops[..|ops| - 1]);
      LastSpeaking(ops);
      match ops[|ops| - 1]
      case Feed(chunk) => ChoicesSpeak(NoteChunk(t, chunk), chunk.choices);
      case End => FinishSaysNothing(codec, t);
    }
  }

  // ---------- the order in which calls are done ----------

  /** The calls that are done, in the order of their events. */
  function DoneCalls(out: seq<Event>): seq<Id> {
    if out == [] then []
    else
      var e := out[|out| - 1];
      DoneCalls(out[..|out| - 1]) + (if e.ItemDone? && e.item.CallItem? then [e.itemID] else [])
  }

  lemma DoneByPush(s: State, e: Event)
    ensures DoneCalls(Push(s, e).out) == DoneCalls(s.out) + (if e.ItemDone? && e.item.CallItem? then [e.itemID] else [])
  {
    assert (s.out + [e])[..|s.out|] == s.out;
  }

  lemma DoneByEmit(s: State, e: Event)
    ensures DoneCalls(Emit(s, e).out) == DoneCalls(s.out) + (if e.ItemDone? && e.item.CallItem? then [e.itemID] else [])
  {
    if !s.started {
      DoneByPush(s, Created(s.model));
      AppendNothing(DoneCalls(s.out));
    }
    DoneByPush(Start(s), e);
  }

  lemma TextDoesNone(s: State, content: string)
    ensures DoneCalls(ConsumeText(s, content).out) == DoneCalls(s.out)
  {
    if content != "" {
      var r := s.(hasContent := true);
      if !s.messageStarted {
        var u := StartMessage(r);
        DoneByEmit(u, ItemAdded(0, Made(r.clock), MessageItem));
        DoneByEmit(Emit(u, ItemAdded(0, Made(r.clock), MessageItem)), PartAdded(Made(r.clock), 0));
      }
      var t := OpenMessage(r);
      DoneByEmit(t.(messageText := t.messageText + content), TextDelta(t.messageItemID, t.messageOutputIndex, content));
    }
  }

  lemma ToolDoesNone(s: State, tc: ToolCall)
    ensures DoneCalls(ConsumeTool(s, tc).out) == DoneCalls(s.out)
  {
    var r := s.(hasContent := s.hasContent || Meaningful(tc));
    if tc.index !in r.calls {
      var c := NewCall(r, tc);
      DoneByEmit(StartCall(r, tc), ItemAdded(c.outputIndex, c.itemID, CallItem(c.callID, c.name)));
    }
    ArgumentsDoNone(OpenCall(r, tc), tc);
  }

  lemma ArgumentsDoNone(s: State, tc: ToolCall)
    requires tc.index in s.calls
    ensures DoneCalls(AddArguments(s, tc).out) == DoneCalls(s.out)
  {
    var c := FillIn(s.calls[tc.index], tc);
    DoneByEmit(s.(calls := s.calls[tc.index := c]), ArgsDelta(c.itemID, c.outputIndex, c.callID, tc.arguments));
  }

  lemma {:induction false} ToolsDoNone(s: State, calls: seq<ToolCall>)
    ensures DoneCalls(ConsumeTools(s, calls).out) == DoneCalls(s.out)
  {
    if calls != [] {
      ToolsDoNone(s, calls[..|calls| - 1]);
      ToolDoesNone(ConsumeTools(s, calls[..|calls| - 1]), calls[|calls| - 1]);
    }
  }

  lemma {:induction false} ChoicesDoNone(s: State, cs: seq<Choice>)
    ensures DoneCalls(ConsumeChoices(s, cs).out) == DoneCalls(s.out)
  {
    if cs != [] {
      var t, c := ConsumeChoices(s, cs[..|cs| - 1]), cs[|cs| - 1];
      ChoicesDoNone(s, cs[..|cs| - 1]);
      TextDoesNone(t, c.content);
      ToolsDoNone(ConsumeText(t, c.content), c.toolCalls);
    }
  }

  lemma {:induction false} FeedsDoNone(codec: Codec, model: string, chunks: seq<Chunk>)
    ensures DoneCalls(Run(codec, Init(model), Feeds(chunks)).out) == []
  {
    if chunks != [] {
      var before, c := chunks[..|chunks| - 1], chunks[|chunks| - 1];
      FeedsDoNone(codec, model, before);
      LastFeed(codec, Init(model), chunks);
      ChoicesDoNone(NoteChunk(Run(codec, Init(model), Feeds(before)), c), c.choices);
    }
  }

  lemma MessageDoesNone(s: State)
    ensures DoneCalls(CloseMessage(s).out) == DoneCalls(s.out)
  {
    if s.messageStarted {
      var id, o, text := s.messageItemID, s.messageOutputIndex, s.messageText;
      var t := Emit(s, TextDone(id, o, text));
      DoneByEmit(s, TextDone(id, o, text));
      DoneByEmit(t, PartDone(id, o, text));
      DoneByEmit(Emit(t, PartDone(id, o, text)), ItemDone(o, id, MessageItem, text));
    }
  }

  /** The items of the calls for these tool indices. */
  function ItemsOf(calls: map<int, FunctionCall>, keys: seq<int>): seq<Id>
    requires forall j :: 0 <= j < |keys| ==> keys[j] in calls
  {
    if keys == [] then [] else ItemsOf(calls, keys[..|keys| - 1]) + [calls[keys[|keys| - 1]].itemID]
  }

  lemma {:induction false} CallsDoneInOrder(codec: Codec, s: State, keys: seq<int>)
    requires forall j :: 0 <= j < |keys| ==> keys[j] in s.calls
    ensures CloseCalls(codec, s, keys).calls == s.calls
    ensures DoneCalls(CloseCalls(codec, s, keys).out) == DoneCalls(s.out) + ItemsOf(s.calls, keys)
  {
    if keys == [] {
      AppendNothing(DoneCalls(s.out));
    } else {
      var t, k := CloseCalls(codec, s, keys[..|keys| - 1]), keys[|keys| - 1];
      CallsDoneInOrder(codec, s, keys[..|keys| - 1]);
      var c := t.calls[k];
      var done := ArgsDone(c.itemID, c.outputIndex, c.callID, c.name, Normalize(codec, c.arguments));
      DoneByEmit(t, done);
      DoneByEmit(Emit(t, done),
                 ItemDone(c.outputIndex, c.itemID, CallItem(c.callID, c.name), Normalize(codec, c.arguments)));
      AppendAppend(DoneCalls(s.out), ItemsOf(s.calls, keys[..|keys| - 1]), [c.itemID]);
    }
  }

  /** Over a complete stream the calls are done once each, by ascending tool index. */
  lemma CallsAreDone(codec: Codec, model: string, chunks: seq<Chunk>)
    requires Substance(chunks)
    ensures var t, keys := AfterEnd(codec, model, chunks), Sorted(FirstSeen(SentCalls(AllChoices(chunks))));
      && (forall j :: 0 <= j < |keys| ==> keys[j] in t.calls)
      && DoneCalls(t.out) == ItemsOf(t.calls, keys)
  {
    var s := Run(codec, Init(model), Feeds(chunks));
    var keys := Sorted(s.indexes);
    FeedsKeep(codec, model, chunks);
    FeedsDoNone(codec, model, chunks);
    SortedKeys(s, SentCalls(AllChoices(chunks)));
    MessageDoesNone(s);
    CallsDoneInOrder(codec, CloseMessage(s), keys);
    CompletingDoesNone(codec, CloseCalls(codec, CloseMessage(s), keys));
  }

  lemma CompletingDoesNone(codec: Codec, s: State)
    ensures DoneCalls(Complete(codec, s).out) == DoneCalls(s.out) && Complete(codec, s).calls == s.calls
  {
    var t := s.(stored := Some(Stored(Object(codec, s), Assisted(codec, s))), completed := true);
    DoneByEmit(t, Completed(Object(codec, s)));
    DoneByPush(Emit(t, Completed(Object(codec, s))), DoneMark);
  }

  // ---------- the events that name the model ----------

  ghost predicate Names(e: Event, model: string) {
    && (e.Created? ==> e.model == model) && (e.Failed? ==> e.model == model)
    && (e.Completed? ==> e.response.model == model)
  }

  ghost predicate About(s: State, model: string) {
    s.model == model && forall i :: 0 <= i < |s.out| ==> Names(s.out[i], model)
  }

  lemma PushAbout(s: State, e: Event, model: string)
    requires About(s, model) && Names(e, model)
    ensures About(Push(s, e), model)
  {
  }

  lemma EmitAbout(s: State, e: Event, model: string)
    requires About(s, model) && Names(e, model)
    ensures About(Emit(s, e), model)
  {
    if !s.started {
      PushAbout(s, Created(s.model), model);
    }
    assert About(Start(s), model);
    PushAbout(Start(s), e, model);
  }

  lemma TextAbout(s: State, content: string, model: string)
    requires About(s, model)
    ensures About(ConsumeText(s, content), model)
  {
    if content != "" {
      var r := s.(hasContent := true);
      if !s.messageStarted {
        var u := StartMessage(r);
        EmitAbout(u, ItemAdded(0, Made(r.clock), MessageItem), model);
        EmitAbout(Emit(u, ItemAdded(0, Made(r.clock), MessageItem)), PartAdded(Made(r.clock), 0), model);
      }
      var t := OpenMessage(r);
      EmitAbout(t.(messageText := t.messageText + content),
                TextDelta(t.messageItemID, t.messageOutputIndex, content), model);
    }
  }

  lemma ToolAbout(s: State, tc: ToolCall, model: string)
    requires About(s, model)
    ensures About(ConsumeTool(s, tc), model)
  {
    var r := s.(hasContent := s.hasContent || Meaningful(tc));
    if tc.index !in r.calls {
      var c := NewCall(r, tc);
      EmitAbout(StartCall(r, tc), ItemAdded(c.outputIndex, c.itemID, CallItem(c.callID, c.name)), model);
    }
    var t := OpenCall(r, tc);
    ArgumentsAbout(t, tc, model);
  }

  lemma ArgumentsAbout(s: State, tc: ToolCall, model: string)
    requires About(s, model) && tc.index in s.calls
    ensures About(AddArguments(s, tc), model)
  {
    var c := FillIn(s.calls[tc.index], tc);
    EmitAbout(s.(calls := s.calls[tc.index := c]), ArgsDelta(c.itemID, c.outputIndex, c.callID, tc.arguments), model);
  }

  lemma {:induction false} ToolsAbout(s: State, calls: seq<ToolCall>, model: string)
    requires About(s, model)
    ensures About(ConsumeTools(s, calls), model)
  {
    if calls != [] {
      ToolsAbout(s, calls[..|calls| - 1], model);
      ToolAbout(ConsumeTools(s, calls[..|calls| - 1]), calls[|calls| - 1], model);
    }
  }

  lemma {:induction false} ChoicesAbout(s: State, cs: seq<Choice>, model: string)
    requires About(s, model)
    ensures About(ConsumeChoices(s, cs), model)
  {
    if cs != [] {
      var t, c := ConsumeChoices(s, cs[..|cs| - 1]), cs[|cs| - 1];
      ChoicesAbout(s, cs[..|cs| - 1], model);
      TextAbout(t, c.content, model);
      ToolsAbout(ConsumeText(t, c.content), c.toolCalls, model);
    }
  }

  lemma MessageAbout(s: State, model: string)
    requires About(s, model)
    ensures About(CloseMessage(s), model)
  {
    if s.messageStarted {
      var id, o, text := s.messageItemID, s.messageOutputIndex, s.messageText;
      var t := Emit(s, TextDone(id, o, text));
      EmitAbout(s, TextDone(id, o, text), model);
      EmitAbout(t, PartDone(id, o, text), model);
      EmitAbout(Emit(t, PartDone(id, o, text)), ItemDone(o, id, MessageItem, text), model);
    }
  }

  lemma {:induction false} CallsAbout(codec: Codec, s: State, keys: seq<int>, model: string)
    requires About(s, model)
    ensures About(CloseCalls(codec, s, keys), model)
  {
    if keys != [] {
      var t, k := CloseCalls(codec, s, keys[..|keys| - 1]), keys[|keys| - 1];
      CallsAbout(codec, s, keys[..|keys| - 1], model);
      if k in t.calls {
        var c := t.calls[k];
        var arguments := Normalize(codec, c.arguments);
        var done := ArgsDone(c.itemID, c.outputIndex, c.callID, c.name, arguments);
        EmitAbout(t, done, model);
        EmitAbout(Emit(t, done), ItemDone(c.outputIndex, c.itemID, CallItem(c.callID, c.name), arguments), model);
      }
    }
  }

  lemma FinishAbout(codec: Codec, s: State, model: string)
    requires About(s, model)
    ensures About(Finish(codec, s), model)
  {
    MessageAbout(s, model);
    CallsAbout(codec, CloseMessage(s), Sorted(s.indexes), model);
    CompleteAbout(codec, CloseCalls(codec, CloseMessage(s), Sorted(s.indexes)), model);
  }

  lemma CompleteAbout(codec: Codec, s: State, model: string)
    requires About(s, model)
    ensures About(Complete(codec, s), model)
  {
    var t := s.(stored := Some(Stored(Object(codec, s), Assisted(codec, s))), completed := true);
    EmitAbout(t, Completed(Object(codec, s)), model);
    PushAbout(Emit(t, Completed(Object(codec, s))), DoneMark, model);
  }

  lemma {:induction false} RunAbout(codec: Codec, s: State, ops: seq<Op>, model: string)
    requires !Blank(model) && About(s, model)
    ensures About(Run(codec, s, ops), model)
  {
    if ops != [] {
      var t, op := Run(codec, s, ops[..|ops| - 1]), ops[|ops| - 1];
      RunAbout(codec, s, ops[..|ops| - 1], model);
      match op
      case Feed(chunk) => ChoicesAbout(NoteChunk(t, chunk), chunk.choices, model);
      case End => FinishAbout(codec, t, model);
    }
  }

  /**
   Whatever is done to the translator, every event that names a model names the one that was
   requested, if one was; and an error is told to the client as it was reported.
   */
  lemma EventsNameTheModel(codec: Codec, model: string, ops: seq<Op>, message: string)
    requires !Blank(model)
    ensures var s := Run(codec, Init(model), ops);
      var out := Fail(s, message).out;
      && (forall i :: 0 <= i < |s.out| ==> Names(s.out[i], model))
      && |out| >= 2 && out[|out| - 2] == Failed(model, message) && out[|out| - 1] == DoneMark
  {
    RunAbout(codec, Init(model), ops, model);
  }
}
