/**
 Streaming and non-streaming agree: however a message is cut into chunks, the Responses stream
 ends with the object and the stored assistant message that the whole message would have given.
 */
module ResponsesEquivalence {
  import opened Text
  import opened Chunks
  import opened Sorting
  import opened ResponsesObject
  import opened ResponsesStream

  /** The tool indices of a stream, in the order in which the finished calls are listed. */
  function CallOrder(chunks: seq<Chunk>): seq<int> {
    Sorted(FirstSeen(SentCalls(AllChoices(chunks))))
  }

  /** The fragments for tool index `k` add up to the call `c`; which of them carries its id is left open. */
  predicate AddUpTo(sent: seq<ToolCall>, k: int, c: PayloadCall) {
    NameOf(sent, k) == c.name && ArgsOf(sent, k) == c.arguments && c.id.Given?
  }

  /** The first fragment for the index carries the id of the call, if that has one. */
  predicate IdFirst(sent: seq<ToolCall>, k: int, c: PayloadCall)
    requires c.id.Given?
  {
    FirstIdOf(sent, k) == c.id.text || (Blank(FirstIdOf(sent, k)) && Blank(c.id.text))
  }

  predicate AllIdsFirst(sent: seq<ToolCall>, keys: seq<int>, calls: seq<PayloadCall>)
    requires AddUp(sent, keys, calls)
  {
    forall j :: 0 <= j < |calls| ==> AddUpTo(sent, keys[j], calls[j]) && IdFirst(sent, keys[j], calls[j])
  }

  /** The condition under which the stream knows the ids of the calls. */
  ghost predicate IdsComeFirst(up: Upstream, chunks: seq<Chunk>)
    requires Fragments(up, chunks)
  {
    AllIdsFirst(SentCalls(AllChoices(chunks)), CallOrder(chunks), up.calls)
  }

  /** The chunks are a fragmentation of the message: same text, same usage, and calls in array order. */
  ghost predicate Fragments(up: Upstream, chunks: seq<Chunk>) {
    && TextSent(chunks) == up.content && LastUsage(chunks) == up.usage
    && AddUp(SentCalls(AllChoices(chunks)), CallOrder(chunks), up.calls)
  }

  predicate AddUp(sent: seq<ToolCall>, keys: seq<int>, calls: seq<PayloadCall>) {
    |keys| == |calls| && forall j :: 0 <= j < |keys| ==> AddUpTo(sent, keys[j], calls[j])
  }

  // ---------- the model and the usage ----------

  predicate SameHead(s: State, t: State) {
    t.model == s.model && t.usage == s.usage
  }

  lemma ArgumentsHead(s: State, tc: ToolCall)
    requires tc.index in s.calls
    ensures SameHead(s, AddArguments(s, tc))
  {
  }

  lemma ToolHead(s: State, tc: ToolCall)
    ensures SameHead(s, ConsumeTool(s, tc))
  {
    var t := s.(hasContent := s.hasContent || Meaningful(tc));
    ArgumentsHead(OpenCall(t, tc), tc);
  }

  lemma {:induction false} ToolsHead(s: State, calls: seq<ToolCall>)
    ensures SameHead(s, ConsumeTools(s, calls))
  {
    if calls != [] {
      ToolsHead(s, calls[..|calls| - 1]);
      ToolHead(ConsumeTools(s, calls[..|calls| - 1]), calls[|calls| - 1]);
    }
  }

  lemma {:induction false} ChoicesHead(s: State, cs: seq<Choice>)
    ensures SameHead(s, ConsumeChoices(s, cs))
  {
    if cs != [] {
      var t, c := ConsumeChoices(s, cs[..|cs| - 1]), cs[|cs| - 1];
      ChoicesHead(s, cs[..|cs| - 1]);
      ToolsHead(ConsumeText(t, c.content), c.toolCalls);
    }
  }

  lemma {:induction false} FeedsHead(codec: Codec, model: string, chunks: seq<Chunk>)
    requires !Blank(model)
    ensures var s := Run(codec, Init(model), Feeds(chunks));
      s.model == model && s.usage == LastUsage(chunks)
  {
    if chunks != [] {
      var n := |chunks| - 1;
      assert Feeds(chunks)[..n] == Feeds(chunks[..n]);
      FeedsHead(codec, model, chunks[..n]);
      ChoicesHead(NoteChunk(Run(codec, Init(model), Feeds(chunks[..n])), chunks[n]), chunks[n].choices);
    }
  }

  // ---------- the calls ----------

  predicate AllIn(calls: map<int, FunctionCall>, keys: seq<int>) {
    forall j :: 0 <= j < |keys| ==> keys[j] in calls
  }

  function CallOutAt(codec: Codec, calls: map<int, FunctionCall>, k: int): Output
    requires k in calls
  {
    CallOut(calls[k].itemID, calls[k].callID, calls[k].name, Normalize(codec, calls[k].arguments))
  }

  lemma {:induction false} CallsOutAt(codec: Codec, calls: map<int, FunctionCall>, keys: seq<int>)
    requires AllIn(calls, keys)
    ensures |CallsOut(codec, calls, keys)| == |keys|
    ensures forall j :: 0 <= j < |keys| ==> CallsOut(codec, calls, keys)[j] == CallOutAt(codec, calls, keys[j])
  {
    if keys != [] {
      CallsOutAt(codec, calls, keys[..|keys| - 1]);
    }
  }

  function CallSaidAt(codec: Codec, calls: map<int, FunctionCall>, k: int): PayloadCall
    requires k in calls
  {
    PayloadCall(calls[k].callID, "function", calls[k].name, Normalize(codec, calls[k].arguments))
  }

  lemma {:induction false} CallsSaidAt(codec: Codec, calls: map<int, FunctionCall>, keys: seq<int>)
    requires AllIn(calls, keys)
    ensures |CallsSaid(codec, calls, keys)| == |keys|
    ensures forall j :: 0 <= j < |keys| ==> CallsSaid(codec, calls, keys)[j] == CallSaidAt(codec, calls, keys[j])
  {
    if keys != [] {
      CallsSaidAt(codec, calls, keys[..|keys| - 1]);
    }
  }

  ghost predicate AllHold(calls: map<int, FunctionCall>, sent: seq<ToolCall>, keys: seq<int>) {
    AllIn(calls, keys) && forall j :: 0 <= j < |keys| ==> Holds(calls[keys[j]], sent, keys[j])
  }

  lemma GatheredHold(s: State, sent: seq<ToolCall>)
    requires Gathered(s.calls, s.indexes, sent)
    ensures AllHold(s.calls, sent, Sorted(s.indexes))
  {
    SortedKeys(s, sent);
    var keys := Sorted(s.indexes);
    forall j | 0 <= j < |keys| ensures Holds(s.calls[keys[j]], sent, keys[j]) {
      var k := keys[j];
      assert k in s.calls;
    }
  }

  lemma CallsAgree(codec: Codec, gathered: map<int, FunctionCall>, keys: seq<int>, sent: seq<ToolCall>,
                   calls: seq<PayloadCall>, n: nat)
    requires AllHold(gathered, sent, keys) && AddUp(sent, keys, calls)
    ensures var a, b := CallsOut(codec, gathered, keys), CallOutputs(codec, calls, n);
      |a| == |b| == |calls| && (AllSame(a, b) <==> AllIdsFirst(sent, keys, calls))
  {
    CallsOutAt(codec, gathered, keys);
    var a, b := CallsOut(codec, gathered, keys), CallOutputs(codec, calls, n);
    forall j | 0 <= j < |a| ensures SameOutput(a[j], b[j]) <==> IdFirst(sent, keys[j], calls[j]) {
      CallAgrees(codec, gathered, keys, sent, calls, n, j);
    }
  }

  /** A call is the same in both ways if and only if its first fragment carries its id. */
  lemma CallAgrees(codec: Codec, gathered: map<int, FunctionCall>, keys: seq<int>, sent: seq<ToolCall>,
                   calls: seq<PayloadCall>, n: nat, j: nat)
    requires AllHold(gathered, sent, keys) && AddUp(sent, keys, calls) && j < |calls|
    ensures AddUpTo(sent, keys[j], calls[j])
    ensures SameOutput(CallOutAt(codec, gathered, keys[j]), CallOutputs(codec, calls, n)[j]) <==>
              IdFirst(sent, keys[j], calls[j])
  {
    assert Holds(gathered[keys[j]], sent, keys[j]);
  }

  ghost predicate AllSame(a: seq<Output>, b: seq<Output>) {
    |a| == |b| && forall j :: 0 <= j < |a| ==> SameOutput(a[j], b[j])
  }

  /** The condition under which a message item is rendered in both ways or in neither. */
  predicate MessageAgrees(up: Upstream) {
    up.content != "" <==> (!Blank(up.content) || up.calls == [])
  }

  lemma OutputsAgree(head: seq<Output>, head': seq<Output>, a: seq<Output>, b: seq<Output>)
    requires |head| <= 1 && |head'| <= 1
    requires |head| == |head'| == 1 ==> SameOutput(head[0], head'[0])
    requires |a| == |b|
    ensures AllSame(head + a, head' + b) <==> |head| == |head'| && AllSame(a, b)
  {
    if |head| == |head'| {
      forall j | 0 <= j < |a| ensures (head + a)[|head| + j] == a[j] && (head' + b)[|head| + j] == b[j] {
      }
      if AllSame(a, b) {
        forall j | 0 <= j < |head + a| ensures SameOutput((head + a)[j], (head' + b)[j]) {
          assert j >= |head| ==> SameOutput(a[j - |head|], b[j - |head|]);
        }
      } else {
        var j :| 0 <= j < |a| && !SameOutput(a[j], b[j]);
        assert !SameOutput((head + a)[|head| + j], (head' + b)[|head| + j]);
      }
    }
  }

  lemma ObjectsAgree(codec: Codec, model: string, s: State, sent: seq<ToolCall>, up: Upstream, n: nat)
    requires Gathered(s.calls, s.indexes, sent)
    requires AddUp(sent, Sorted(s.indexes), up.calls)
    requires s.messageText == up.content && s.messageStarted == (up.content != "")
    requires s.model == model == TrimSpace(model) && !Blank(model) && s.usage == up.usage
    ensures SameResponse(Object(codec, s), FromResult(codec, model, up, n)) <==>
              MessageAgrees(up) && AllIdsFirst(sent, Sorted(s.indexes), up.calls)
  {
    var a, b := Object(codec, s), FromResult(codec, model, up, n);
    TrimSpaceIdempotent(up.content);
    BlankMeansTrimmedAway(up.content);
    GatheredHold(s, sent);
    CallsAgree(codec, s.calls, Sorted(s.indexes), sent, up.calls, n + 1);
    var text := TrimSpace(up.content);
    var head := if s.messageStarted then [MessageOut(s.messageItemID, Parts(text))] else [];
    var head' := if text != "" || up.calls == [] then [MessageOut(Made(n), Parts(text))] else [];
    OutputsAgree(head, head', CallsOut(codec, s.calls, Sorted(s.indexes)), CallOutputs(codec, up.calls, n + 1));
    assert a.output == head + CallsOut(codec, s.calls, Sorted(s.indexes));
    assert b.output == head' + CallOutputs(codec, up.calls, n + 1);
    assert SameResponse(a, b) <==> AllSame(a.output, b.output);
  }

  // ---------- the stored assistant message ----------

  /** The conversation keeps the type of a call, while the stream stores "function". */
  predicate FunctionKinds(up: Upstream) {
    forall j :: 0 <= j < |up.calls| ==> FunctionKind(up.calls[j])
  }

  predicate FunctionKind(c: PayloadCall) {
    Blank(c.kind) || c.kind == "function"
  }

  lemma ConversationAgreesAt(codec: Codec, gathered: map<int, FunctionCall>, keys: seq<int>, sent: seq<ToolCall>,
                             calls: seq<PayloadCall>, said: seq<PayloadCall>, m: nat, n: nat, j: nat)
    requires Lawful(codec) && AllHold(gathered, sent, keys) && AddUp(sent, keys, calls)
    requires j < |keys| == |said| && said[j] == CallSaidAt(codec, gathered, keys[j])
    ensures AddUpTo(sent, keys[j], calls[j])
    ensures SameCall(ConversationCalls(codec, said, m)[j], ConversationCalls(codec, calls, n)[j]) <==>
              FunctionKind(calls[j]) && IdFirst(sent, keys[j], calls[j])
  {
    assert Holds(gathered[keys[j]], sent, keys[j]);
    NormalizeIdempotent(codec, calls[j].arguments);
  }

  lemma ConversationsAgree(codec: Codec, gathered: map<int, FunctionCall>, keys: seq<int>, sent: seq<ToolCall>,
                           calls: seq<PayloadCall>, m: nat, n: nat)
    requires Lawful(codec) && AllHold(gathered, sent, keys) && AddUp(sent, keys, calls)
    ensures var a, b := ConversationCalls(codec, CallsSaid(codec, gathered, keys), m),
                        ConversationCalls(codec, calls, n);
      && |a| == |b| == |calls|
      && forall j :: 0 <= j < |a| ==>
           && AddUpTo(sent, keys[j], calls[j])
           && (SameCall(a[j], b[j]) <==> FunctionKind(calls[j]) && IdFirst(sent, keys[j], calls[j]))
  {
    CallsSaidAt(codec, gathered, keys);
    var said := CallsSaid(codec, gathered, keys);
    var a, b := ConversationCalls(codec, said, m), ConversationCalls(codec, calls, n);
    forall j | 0 <= j < |a|
      ensures AddUpTo(sent, keys[j], calls[j])
      ensures SameCall(a[j], b[j]) <==> FunctionKind(calls[j]) && IdFirst(sent, keys[j], calls[j])
    {
      ConversationAgreesAt(codec, gathered, keys, sent, calls, said, m, n, j);
    }
  }

  lemma AssistantsAgree(codec: Codec, s: State, sent: seq<ToolCall>, up: Upstream, n: nat)
    requires Lawful(codec) && Gathered(s.calls, s.indexes, sent) && s.messageText == up.content
    requires AddUp(sent, Sorted(s.indexes), up.calls)
    ensures SameAssistant(Assisted(codec, s), AssistantOf(codec, TrimSpace(up.content), up.calls, n)) <==>
              FunctionKinds(up) && AllIdsFirst(sent, Sorted(s.indexes), up.calls)
  {
    GatheredHold(s, sent);
    ConversationsAgree(codec, s.calls, Sorted(s.indexes), sent, up.calls, s.clock, n);
  }

  /**
   Streaming equals non-streaming, up to made-up identifiers.  For every fragmentation of a
   message the stream's object is the object of the whole message exactly when both or neither
   have a message item (MessageAgrees): a stream makes one for any text that is not empty, while
   the whole message has one if its text is not blank or it has no calls; and when the first
   fragment of every call carries the id, because a later id is not looked at (IdsComeFirst).  The
   stored assistant messages agree exactly when every call is of type "function" or of no type, and
   its id comes first.  `requestedModel` is what the request handler passes: trimmed and not empty.
   */
  lemma StreamEqualsResult(codec: Codec, requestedModel: string, up: Upstream, chunks: seq<Chunk>, n: nat)
    requires Lawful(codec) && Fragments(up, chunks)
    requires requestedModel != "" && TrimSpace(requestedModel) == requestedModel
    ensures var t := AfterEnd(codec, requestedModel, chunks);
      && (SameResponse(Object(codec, t), FromResult(codec, requestedModel, up, n)) <==>
          MessageAgrees(up) && IdsComeFirst(up, chunks))
      && (SameAssistant(Assisted(codec, t), AssistantOf(codec, TrimSpace(up.content), up.calls, n)) <==>
          FunctionKinds(up) && IdsComeFirst(up, chunks))
      && (Substance(chunks) ==> t.client.response == Some(Object(codec, t))
                                && t.stored == Some(Stored(Object(codec, t), Assisted(codec, t))))
  {
    var s, sent := Run(codec, Init(requestedModel), Feeds(chunks)), SentCalls(AllChoices(chunks));
    BlankMeansTrimmedAway(requestedModel);
    FeedsHead(codec, requestedModel, chunks);
    FeedsKeep(codec, requestedModel, chunks);
    if s.started {
      FinishDelivers(codec, s, TextSent(chunks), sent);
    }
    var t := AfterEnd(codec, requestedModel, chunks);
    assert t == s.(stored := t.stored, completed := true, out := t.out, client := t.client);
    ObjectsAgree(codec, requestedModel, t, sent, up, n);
    AssistantsAgree(codec, t, sent, up, n);
  }

  const ONE_CALL := ToolCall(0, "a", "", "f", "{}")

  /** One space of text beside one call, in one chunk. */
  const BLANK_BESIDE_CALL := [Chunk("", "", [Choice(" ", [ONE_CALL], "")], None)]

  const BLANK_BESIDE_CALL_RESULT := Upstream("", " ", [PayloadCall(Given("a"), "", "f", "{}")], map[])

  lemma OneChoice(c: Choice)
    ensures var chunks := [Chunk("", "", [c], None)];
      SentCalls(AllChoices(chunks)) == c.toolCalls && TextSent(chunks) == c.content && LastUsage(chunks) == map[]
  {
    var chunks := [Chunk("", "", [c], None)];
    assert chunks[..0] == [] && AllChoices(chunks) == [c];
    assert [c][..0] == [] && SentText([]) == "" && SentCalls([]) == [];
    assert SentText([c]) == SentText([c][..0]) + c.content && SentCalls([c]) == SentCalls([c][..0]) + c.toolCalls;
    assert "" + c.content == c.content && [] + c.toolCalls == c.toolCalls;
  }

  lemma OneFragment(tc: ToolCall)
    ensures var calls := [tc];
      && FirstSeen(calls) == [tc.index] && FirstIdOf(calls, tc.index) == tc.id
      && NameOf(calls, tc.index) == tc.name && ArgsOf(calls, tc.index) == tc.arguments
  {
    OneMoreFragment([], tc, tc.index);
    assert [] + [tc] == [tc] && [] + [tc.index] == [tc.index] && "" + tc.arguments == tc.arguments;
  }

  lemma BlankBesideCallFragments()
    ensures Fragments(BLANK_BESIDE_CALL_RESULT, BLANK_BESIDE_CALL)
  {
    OneChoice(Choice(" ", [ONE_CALL], ""));
    OneFragment(ONE_CALL);
    assert [0][..0] == [] && Sorted([0]) == [0];
    assert AddUpTo([ONE_CALL], 0, BLANK_BESIDE_CALL_RESULT.calls[0]);
  }

  /** For it the stream renders a message item, and the whole result does not. */
  lemma BlankTextBesideACallDiffers(codec: Codec, requestedModel: string, n: nat)
    requires Lawful(codec) && requestedModel != "" && TrimSpace(requestedModel) == requestedModel
    ensures !SameResponse(Object(codec, AfterEnd(codec, requestedModel, BLANK_BESIDE_CALL)),
                          FromResult(codec, requestedModel, BLANK_BESIDE_CALL_RESULT, n))
  {
    BlankBesideCallFragments();
    assert !MessageAgrees(BLANK_BESIDE_CALL_RESULT) by {
      assert Blank(" ");
    }
    StreamEqualsResult(codec, requestedModel, BLANK_BESIDE_CALL_RESULT, BLANK_BESIDE_CALL, n);
  }

  const NAME_FRAGMENT := ToolCall(0, "", "", "f", "")
  const ID_FRAGMENT := ToolCall(0, "a", "", "", "{}")

  /** A call whose second fragment carries its id. */
  const LATE_ID := [Chunk("", "", [Choice("", [NAME_FRAGMENT, ID_FRAGMENT], "")], None)]

  const LATE_ID_RESULT := Upstream("", "", [PayloadCall(Given("a"), "", "f", "{}")], map[])

  lemma LateIdFragments()
    ensures Fragments(LATE_ID_RESULT, LATE_ID) && !IdsComeFirst(LATE_ID_RESULT, LATE_ID)
  {
    var calls := [NAME_FRAGMENT, ID_FRAGMENT];
    OneChoice(Choice("", calls, ""));
    LateIdCalls();
    assert [0][..0] == [] && Sorted([0]) == [0];
    assert AddUpTo(calls, 0, LATE_ID_RESULT.calls[0]);
    assert !Blank("a") by {
      assert !IsSpace("a"[0]);
    }
    assert !IdFirst(calls, 0, LATE_ID_RESULT.calls[0]);
  }

  lemma LateIdCalls()
    ensures var calls := [NAME_FRAGMENT, ID_FRAGMENT];
      FirstSeen(calls) == [0] && NameOf(calls, 0) == "f" && ArgsOf(calls, 0) == "{}" && FirstIdOf(calls, 0) == ""
  {
    OneFragment(NAME_FRAGMENT);
    OneMoreFragment([NAME_FRAGMENT], ID_FRAGMENT, 0);
    assert [NAME_FRAGMENT] + [ID_FRAGMENT] == [NAME_FRAGMENT, ID_FRAGMENT] && "" + "{}" == "{}";
  }

  /** The stream keeps an id that it made up, in the object as in the stored message. */
  lemma LateIdIsLost(codec: Codec, requestedModel: string, n: nat)
    requires Lawful(codec) && requestedModel != "" && TrimSpace(requestedModel) == requestedModel
    ensures var t := AfterEnd(codec, requestedModel, LATE_ID);
      && !SameResponse(Object(codec, t), FromResult(codec, requestedModel, LATE_ID_RESULT, n))
      && !SameAssistant(Assisted(codec, t), AssistantOf(codec, TrimSpace(""), LATE_ID_RESULT.calls, n))
  {
    LateIdFragments();
    StreamEqualsResult(codec, requestedModel, LATE_ID_RESULT, LATE_ID, n);
  }
}
