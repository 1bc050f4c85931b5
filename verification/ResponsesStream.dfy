/**
 The translator from OpenAI chunks to the events of the Responses API.  `State` and the functions
 on it say what the translator does; `Client` is an independent reader of the events.
 */
module ResponsesStream {
  import opened Text
  import opened Chunks
  import opened Sorting
  import opened ResponsesObject

  datatype Item = MessageItem | CallItem(callID: Id, name: string)

  datatype Event =
    | Created(model: string)
    | ItemAdded(outputIndex: int, itemID: Id, item: Item)
    | PartAdded(itemID: Id, outputIndex: int)
    | TextDelta(itemID: Id, outputIndex: int, delta: string)
    | TextDone(itemID: Id, outputIndex: int, text: string)
    | PartDone(itemID: Id, outputIndex: int, text: string)
    | ArgsDelta(itemID: Id, outputIndex: int, callID: Id, delta: string)
    | ArgsDone(itemID: Id, outputIndex: int, callID: Id, name: string, arguments: string)
    | ItemDone(outputIndex: int, itemID: Id, item: Item, content: string)
    | Completed(response: Response)
    | Failed(model: string, message: string)
    | DoneMark

  // ---------- an independent client ----------

  datatype Stage = Fresh | PartOpen | BodyDone | PartClosed | Closed

  /** An item as a client shows it; `call` is the call id of a function call. */
  datatype Shown = Shown(outputIndex: int, call: Option<Id>, stage: Stage, body: string, name: string, final: string)

  datatype Phase = Idle | Streaming | Ending | Done | Broken

  datatype Client = Client(phase: Phase, items: map<Id, Shown>, response: Option<Response>)

  const NEW_CLIENT := Client(Idle, map[], None)

  predicate At(c: Client, id: Id, outputIndex: int, call: Option<Id>, stage: Stage) {
    && c.phase.Streaming? && id in c.items
    && c.items[id].outputIndex == outputIndex && c.items[id].call == call && c.items[id].stage == stage
  }

  predicate NoMessage(c: Client) {
    forall id :: id in c.items ==> c.items[id].call.Some?
  }

  predicate AllClosed(c: Client) {
    forall id :: id in c.items ==> c.items[id].stage.Closed?
  }

  function Put(c: Client, id: Id, shown: Shown): Client {
    c.(items := c.items[id := shown])
  }

  function Refuse(c: Client): Client {
    c.(phase := Broken)
  }

  /**
   How a strict client takes one event.  response.created comes first and once.  Each item is
   added under a new id, at most one of them a message, before anything else is said about it; a
   message's text is finished with exactly the deltas received, its part and the message itself
   likewise; a call's arguments are finished once, and the call with the same name and arguments.
   The response completes, or fails, last, and [DONE] follows.
   */
  function React(c: Client, e: Event): Client {
    match e
    case Created(_) =>
      if c.phase.Idle? then c.(phase := Streaming) else Refuse(c)
    case ItemAdded(o, id, MessageItem) =>
      if c.phase.Streaming? && id !in c.items && NoMessage(c) then Put(c, id, Shown(o, None, Fresh, "", "", ""))
      else Refuse(c)
    case ItemAdded(o, id, CallItem(callID, name)) =>
      if c.phase.Streaming? && id !in c.items then Put(c, id, Shown(o, Some(callID), Fresh, "", name, ""))
      else Refuse(c)
    case PartAdded(id, o) =>
      if At(c, id, o, None, Fresh) then Put(c, id, c.items[id].(stage := PartOpen)) else Refuse(c)
    case TextDelta(id, o, delta) =>
      if At(c, id, o, None, PartOpen) then Put(c, id, c.items[id].(body := c.items[id].body + delta)) else Refuse(c)
    case TextDone(id, o, text) =>
      if At(c, id, o, None, PartOpen) && text == c.items[id].body then Put(c, id, c.items[id].(stage := BodyDone))
      else Refuse(c)
    case PartDone(id, o, text) =>
      if At(c, id, o, None, BodyDone) && text == c.items[id].body then Put(c, id, c.items[id].(stage := PartClosed))
      else Refuse(c)
    case ArgsDelta(id, o, callID, delta) =>
      if At(c, id, o, Some(callID), Fresh) then Put(c, id, c.items[id].(body := c.items[id].body + delta))
      else Refuse(c)
    case ArgsDone(id, o, callID, name, arguments) =>
      if At(c, id, o, Some(callID), Fresh)
      then Put(c, id, c.items[id].(stage := BodyDone, name := name, final := arguments)) else Refuse(c)
    case ItemDone(o, id, MessageItem, content) =>
      if At(c, id, o, None, PartClosed) && content == c.items[id].body
      then Put(c, id, c.items[id].(stage := Closed)) else Refuse(c)
    case ItemDone(o, id, CallItem(callID, name), content) =>
      if At(c, id, o, Some(callID), BodyDone) && name == c.items[id].name && content == c.items[id].final
      then Put(c, id, c.items[id].(stage := Closed)) else Refuse(c)
    case Completed(response) =>
      if c.phase.Streaming? && AllClosed(c) then c.(phase := Ending, response := Some(response)) else Refuse(c)
    case Failed(_, _) =>
      if c.phase.Streaming? then c.(phase := Ending) else Refuse(c)
    case DoneMark =>
      if c.phase.Ending? then c.(phase := Done) else Refuse(c)
  }

  function Replay(events: seq<Event>): Client {
    if events == [] then NEW_CLIENT else React(Replay(events[..|events| - 1]), events[|events| - 1])
  }

  predicate Accepted(events: seq<Event>) {
    events == [] || Replay(events).phase.Done?
  }

  // ---------- what the translator does ----------

  /** `announced` is the name that the call was announced with; it has no counterpart in the translator. */
  datatype FunctionCall = FunctionCall(
    outputIndex: int,
    itemID: Id,
    callID: Id,
    announced: string,
    name: string,
    arguments: string)

  /** What Finish stores beside what it sends. */
  datatype Stored = Stored(response: Response, assistant: Assistant)

  /**
   `client` is the client that has read `out`, `clock` counts the clock readings; neither is a field of
   the translator.
   */
  datatype State = State(
    model: string,
    usage: Usage,
    finishReason: string,
    started: bool,
    completed: bool,
    hasContent: bool,
    messageStarted: bool,
    messageText: string,
    messageItemID: Id,
    messageOutputIndex: int,
    calls: map<int, FunctionCall>,
    indexes: seq<int>,
    stored: Option<Stored>,
    clock: nat,
    out: seq<Event>,
    client: Client)

  function Init(requestedModel: string): State {
    State(requestedModel, map[], "", false, false, false, false, "", Given(""), -1, map[], [], None, 0, [], NEW_CLIENT)
  }

  function Push(s: State, e: Event): State {
    s.(out := s.out + [e], client := React(s.client, e))
  }

  /** Anything that is emitted is preceded by response.created. */
  function Emit(s: State, e: Event): State {
    Push(Start(s), e)
  }

  function Start(s: State): State {
    s.(started := true,
       out := if s.started then s.out else s.out + [Created(s.model)],
       client := if s.started then s.client else React(s.client, Created(s.model)))
  }

  function OpenMessage(s: State): State {
    if s.messageStarted then s
    else Emit(Emit(StartMessage(s), ItemAdded(0, Made(s.clock), MessageItem)), PartAdded(Made(s.clock), 0))
  }

  function StartMessage(s: State): State {
    s.(messageStarted := true, messageOutputIndex := 0, messageItemID := Made(s.clock), clock := s.clock + 1)
  }

  function ConsumeText(s: State, content: string): State {
    if content == "" then s
    else
      var t := OpenMessage(s.(hasContent := true));
      Emit(t.(messageText := t.messageText + content), TextDelta(t.messageItemID, t.messageOutputIndex, content))
  }

  function NextOutputIndex(s: State): int {
    (if s.messageStarted then 1 else 0) + |s.indexes|
  }

  /** The function call that the first fragment for a tool index starts. */
  function NewCall(s: State, tc: ToolCall): FunctionCall {
    FunctionCall(NextOutputIndex(s), Made(s.clock), FirstId(Given(tc.id), s.clock + 1), tc.name, tc.name, "")
  }

  function OpenCall(s: State, tc: ToolCall): State {
    if tc.index in s.calls then s
    else
      var c := NewCall(s, tc);
      Emit(StartCall(s, tc), ItemAdded(c.outputIndex, c.itemID, CallItem(c.callID, c.name)))
  }

  function StartCall(s: State, tc: ToolCall): State {
    s.(calls := s.calls[tc.index := NewCall(s, tc)], indexes := s.indexes + [tc.index], clock := s.clock + 2)
  }

  /** A later fragment may fill in the name; the call id is never empty, so it is never filled in. */
  function FillIn(c: FunctionCall, tc: ToolCall): FunctionCall {
    c.(name := if c.name == "" then tc.name else c.name,
       callID := if c.callID == Given("") && tc.id != "" then Given(tc.id) else c.callID,
       arguments := c.arguments + tc.arguments)
  }

  function TakeFragment(s: State, tc: ToolCall, hasContent: bool): State {
    AddArguments(OpenCall(s.(hasContent := hasContent), tc), tc)
  }

  function ConsumeTool(s: State, tc: ToolCall): State {
    TakeFragment(s, tc, s.hasContent || Meaningful(tc))
  }

  function AddArguments(s: State, tc: ToolCall): State
    requires tc.index in s.calls
  {
    var c := FillIn(s.calls[tc.index], tc);
    var t := s.(calls := s.calls[tc.index := c]);
    if tc.arguments == "" then t else Emit(t, ArgsDelta(c.itemID, c.outputIndex, c.callID, tc.arguments))
  }

  function ConsumeTools(s: State, calls: seq<ToolCall>): State {
    if calls == [] then s else ConsumeTool(ConsumeTools(s, calls[..|calls| - 1]), calls[|calls| - 1])
  }

  function ConsumeChoice(s: State, c: Choice): State {
    var t := ConsumeTools(ConsumeText(s, c.content), c.toolCalls);
    if c.finishReason == "" then t else t.(finishReason := c.finishReason)
  }

  function ConsumeChoices(s: State, cs: seq<Choice>): State {
    if cs == [] then s else ConsumeChoice(ConsumeChoices(s, cs[..|cs| - 1]), cs[|cs| - 1])
  }

  function NoteChunk(s: State, chunk: Chunk): State {
    s.(model := if chunk.model != "" then FirstNonEmpty(s.model, chunk.model) else s.model,
       usage := if chunk.usage.Some? then chunk.usage.value else s.usage)
  }

  function Consume(s: State, chunk: Chunk): State {
    ConsumeChoices(NoteChunk(s, chunk), chunk.choices)
  }

  function CloseMessage(s: State): State {
    if !s.messageStarted then s
    else
      var id, o, text := s.messageItemID, s.messageOutputIndex, s.messageText;
      Emit(Emit(Emit(s, TextDone(id, o, text)), PartDone(id, o, text)), ItemDone(o, id, MessageItem, text))
  }

  function CloseCall(codec: Codec, s: State, k: int): State {
    if k !in s.calls then s
    else
      var c := s.calls[k];
      var arguments := Normalize(codec, c.arguments);
      Emit(Emit(s, ArgsDone(c.itemID, c.outputIndex, c.callID, c.name, arguments)),
           ItemDone(c.outputIndex, c.itemID, CallItem(c.callID, c.name), arguments))
  }

  function CloseCalls(codec: Codec, s: State, keys: seq<int>): State {
    if keys == [] then s else CloseCall(codec, CloseCalls(codec, s, keys[..|keys| - 1]), keys[|keys| - 1])
  }

  function CallsOut(codec: Codec, calls: map<int, FunctionCall>, keys: seq<int>): seq<Output> {
    if keys == [] then []
    else
      var k := keys[|keys| - 1];
      CallsOut(codec, calls, keys[..|keys| - 1]) +
      (if k in calls then [CallOut(calls[k].itemID, calls[k].callID, calls[k].name,
                                   Normalize(codec, calls[k].arguments))] else [])
  }

  /** buildResponseObject */
  function Object(codec: Codec, s: State): Response {
    var text := TrimSpace(s.messageText);
    Response(s.model, (if s.messageStarted then [MessageOut(s.messageItemID, Parts(text))] else [])
             + CallsOut(codec, s.calls, Sorted(s.indexes)),
             text, LookupUsage(s.usage, "prompt_tokens"), LookupUsage(s.usage, "completion_tokens"),
             LookupUsage(s.usage, "total_tokens"))
  }

  function CallsSaid(codec: Codec, calls: map<int, FunctionCall>, keys: seq<int>): seq<PayloadCall> {
    if keys == [] then []
    else
      var k := keys[|keys| - 1];
      CallsSaid(codec, calls, keys[..|keys| - 1]) +
      (if k in calls then [PayloadCall(calls[k].callID, "function", calls[k].name,
                                       Normalize(codec, calls[k].arguments))] else [])
  }

  /** assistantConversationMessage */
  function Assisted(codec: Codec, s: State): Assistant {
    AssistantOf(codec, TrimSpace(s.messageText), CallsSaid(codec, s.calls, Sorted(s.indexes)), s.clock)
  }

  function Complete(codec: Codec, s: State): State {
    var t := s.(stored := Some(Stored(Object(codec, s), Assisted(codec, s))), completed := true);
    Push(Emit(t, Completed(Object(codec, s))), DoneMark)
  }

  function Finish(codec: Codec, s: State): State {
    if s.completed then s
    else if !s.hasContent && !s.started then s.(completed := true)
    else Complete(codec, CloseCalls(codec, CloseMessage(s), Sorted(s.indexes)))
  }

  function Fail(s: State, message: string): State {
    Push(Emit(s, Failed(s.model, message)), DoneMark)
  }

  function Step(codec: Codec, s: State, op: Op): State {
    match op
    case Feed(chunk) => Consume(s, chunk)
    case End => Finish(codec, s)
  }

  function Run(codec: Codec, s: State, ops: seq<Op>): State {
    if ops == [] then s else Step(codec, Run(codec, s, ops[..|ops| - 1]), ops[|ops| - 1])
  }

  lemma ToolsOneMore(s: State, calls: seq<ToolCall>, i: nat)
    requires i < |calls|
    ensures ConsumeTools(s, calls[..i + 1]) == ConsumeTool(ConsumeTools(s, calls[..i]), calls[i])
  {
    assert calls[..i + 1][..i] == calls[..i];
  }

  lemma ChoicesOneMore(s: State, cs: seq<Choice>, i: nat)
    requires i < |cs|
    ensures ConsumeChoices(s, cs[..i + 1]) == ConsumeChoice(ConsumeChoices(s, cs[..i]), cs[i])
  {
    assert cs[..i + 1][..i] == cs[..i];
  }

  lemma CloseCallsOneMore(codec: Codec, s: State, keys: seq<int>, i: nat)
    requires i < |keys|
    ensures CloseCalls(codec, s, keys[..i + 1]) == CloseCall(codec, CloseCalls(codec, s, keys[..i]), keys[i])
  {
    assert keys[..i + 1][..i] == keys[..i];
  }

  // ---------- what has been gathered ----------

  /** A function call holds what the fragments for its tool index say. */
  ghost predicate Holds(c: FunctionCall, calls: seq<ToolCall>, k: int) {
    && c.announced == FirstNameOf(calls, k) && c.name == NameOf(calls, k) && c.arguments == ArgsOf(calls, k)
    && (if Blank(FirstIdOf(calls, k)) then c.callID.Made? else c.callID == Given(FirstIdOf(calls, k)))
  }

  ghost predicate Gathered(gathered: map<int, FunctionCall>, indexes: seq<int>, calls: seq<ToolCall>) {
    && indexes == FirstSeen(calls)
    && (forall k :: k in gathered <==> k in indexes)
    && forall k :: k in gathered ==> Holds(gathered[k], calls, k)
  }

  lemma HoldsMore(c: FunctionCall, calls: seq<ToolCall>, tc: ToolCall, k: int)
    requires Holds(c, calls, k) && k in FirstSeen(calls)
    ensures Holds(if tc.index == k then FillIn(c, tc) else c, calls + [tc], k)
  {
    OneMoreFragment(calls, tc, k);
    if tc.index == k && c.callID == Given("") {
      assert false;
    }
  }

  lemma HoldsNew(s: State, calls: seq<ToolCall>, tc: ToolCall)
    requires tc.index !in FirstSeen(calls)
    ensures Holds(FillIn(NewCall(s, tc), tc), calls + [tc], tc.index)
  {
    NothingSaid(calls, tc.index);
    OneMoreFragment(calls, tc, tc.index);
  }

  /** The call that a fragment belongs to, before the fragment is taken into account. */
  function Before(s: State, tc: ToolCall): FunctionCall {
    if tc.index in s.calls then s.calls[tc.index] else NewCall(s, tc)
  }

  lemma CallOpened(s: State, tc: ToolCall)
    ensures var t := OpenCall(s, tc);
      && t.calls == s.calls[tc.index := Before(s, tc)]
      && t.indexes == if tc.index in s.calls then s.indexes else s.indexes + [tc.index]
  {
  }

  lemma ArgumentsAdded(s: State, tc: ToolCall)
    requires tc.index in s.calls
    ensures var t := AddArguments(s, tc);
      && t.calls == s.calls[tc.index := FillIn(s.calls[tc.index], tc)]
      && t.indexes == s.indexes
  {
    var c := FillIn(s.calls[tc.index], tc);
    EmitFrame(s.(calls := s.calls[tc.index := c]), ArgsDelta(c.itemID, c.outputIndex, c.callID, tc.arguments));
  }

  /** Sending an event changes nothing that was gathered. */
  lemma EmitFrame(s: State, e: Event)
    ensures var t := Emit(s, e); t == s.(started := true, out := t.out, client := t.client)
  {
  }

  lemma FragmentTaken(s: State, tc: ToolCall, hasContent: bool)
    ensures var t := TakeFragment(s, tc, hasContent);
      && t.calls == s.calls[tc.index := FillIn(Before(s, tc), tc)]
      && t.indexes == if tc.index in s.calls then s.indexes else s.indexes + [tc.index]
  {
    CallOpened(s.(hasContent := hasContent), tc);
    ArgumentsAdded(OpenCall(s.(hasContent := hasContent), tc), tc);
  }

  lemma GatherTool(s: State, calls: seq<ToolCall>, tc: ToolCall)
    requires Gathered(s.calls, s.indexes, calls)
    ensures Gathered(ConsumeTool(s, tc).calls, ConsumeTool(s, tc).indexes, calls + [tc])
  {
    FragmentTaken(s, tc, s.hasContent || Meaningful(tc));
    OneMoreFragment(calls, tc, tc.index);
    var after := s.calls[tc.index := FillIn(Before(s, tc), tc)];
    forall k | k in after ensures Holds(after[k], calls + [tc], k) {
      if k in s.calls {
        HoldsMore(s.calls[k], calls, tc, k);
      } else {
        HoldsNew(s, calls, tc);
      }
    }
  }

  // ---------- the invariant between translator and client ----------

  ghost predicate CallShown(c: FunctionCall, items: map<Id, Shown>) {
    c.itemID in items && items[c.itemID] == Shown(c.outputIndex, Some(c.callID), Fresh, c.arguments, c.announced, "")
  }

  ghost predicate MessageShown(s: State, stage: Stage) {
    && s.messageItemID in s.client.items
    && s.client.items[s.messageItemID] == Shown(s.messageOutputIndex, None, stage, s.messageText, "", "")
  }

  predicate Older(id: Id, clock: nat) {
    id.Made? && id.n < clock
  }

  ghost predicate Known(s: State, id: Id) {
    (s.messageStarted && id == s.messageItemID) || exists k :: k in s.calls && s.calls[k].itemID == id
  }

  /** Every item has its own id. */
  ghost predicate OwnIds(s: State) {
    && (forall k :: k in s.calls ==>
        Older(s.calls[k].itemID, s.clock) && (s.messageStarted ==> s.calls[k].itemID != s.messageItemID))
    && (s.messageStarted ==> Older(s.messageItemID, s.clock))
    && forall j, k :: j in s.calls && k in s.calls && s.calls[j].itemID == s.calls[k].itemID ==> j == k
  }

  ghost predicate CallsShown(calls: map<int, FunctionCall>, items: map<Id, Shown>) {
    forall k :: k in calls ==> CallShown(calls[k], items)
  }

  /** The client shows the message and the calls, and nothing else. */
  ghost predicate Mirrored(s: State) {
    && CallsShown(s.calls, s.client.items)
    && (s.messageStarted ==> MessageShown(s, PartOpen))
    && forall id :: id in s.client.items ==> Known(s, id)
  }

  /** The response has begun, and the client shows everything so far. */
  ghost predicate Open(s: State) {
    && s.started && s.out != [] && s.client == Replay(s.out)
    && s.client.phase.Streaming? && s.client.response.None?
    && OwnIds(s) && Mirrored(s)
    && (s.messageStarted ==> s.messageOutputIndex == 0)
  }

  ghost predicate Unopened(s: State) {
    && !s.started && s.out == [] && s.client == NEW_CLIENT && !s.messageStarted && s.calls == map[] && s.indexes == []
  }

  /** The translator has consumed `text` and the fragments `calls`, and the client shows them. */
  ghost predicate Live(s: State, text: string, calls: seq<ToolCall>) {
    && Gathered(s.calls, s.indexes, calls) && s.messageText == text && s.messageStarted == (text != "")
    && (if s.started then Open(s) && (text != "" || calls != [])
        else Unopened(s) && !s.hasContent && text == "" && calls == [])
  }

  // ---------- emitting ----------

  lemma PushReplays(s: State, e: Event)
    requires s.client == Replay(s.out)
    ensures Push(s, e).client == Replay(Push(s, e).out)
  {
    assert (s.out + [e])[..|s.out|] == s.out;
  }

  lemma StartReplays(s: State)
    requires s.client == Replay(s.out)
    ensures Start(s).client == Replay(Start(s).out)
    ensures s.client.phase.Idle? && !s.started ==> Start(s).client == s.client.(phase := Streaming)
  {
    PushReplays(s, Created(s.model));
  }

  lemma EmitReplays(s: State, e: Event)
    requires s.client == Replay(s.out)
    ensures Emit(s, e).client == Replay(Emit(s, e).out) && Emit(s, e).out != []
  {
    StartReplays(s);
    PushReplays(Start(s), e);
  }

  // ---------- each step keeps the invariant ----------

  lemma NewId(s: State, n: nat)
    requires Open(s) && n >= s.clock
    ensures Made(n) !in s.client.items
  {
    assert Made(n) in s.client.items ==> Known(s, Made(n));
  }

  lemma StartKeeps(s: State)
    requires Open(s) || Unopened(s)
    ensures Open(Start(s))
  {
    StartReplays(s);
    if s.started {
      assert Start(s) == s;
    }
  }

  /** Only the client's items and the trace change when events about items are taken well. */
  ghost predicate Showed(s: State, t: State, id: Id, shown: Shown) {
    && t == s.(out := t.out, client := s.client.(items := s.client.items[id := shown]))
    && t.out != [] && t.client == Replay(t.out)
  }

  lemma MessageAddedShown(s: State, id: Id)
    requires s.started && s.client.phase.Streaming? && s.client == Replay(s.out) && id !in s.client.items
             && NoMessage(s.client)
    ensures Showed(s, Emit(s, ItemAdded(0, id, MessageItem)), id, Shown(0, None, Fresh, "", "", ""))
  {
    EmitReplays(s, ItemAdded(0, id, MessageItem));
  }

  lemma PartAddedShown(s: State, id: Id)
    requires s.started && s.client.phase.Streaming? && s.client == Replay(s.out)
    requires id in s.client.items && s.client.items[id] == Shown(0, None, Fresh, "", "", "")
    ensures Showed(s, Emit(s, PartAdded(id, 0)), id, Shown(0, None, PartOpen, "", "", ""))
  {
    EmitReplays(s, PartAdded(id, 0));
  }

  lemma MessageOpened(s: State)
    requires Open(s) && !s.messageStarted
    ensures var id, t := Made(s.clock), OpenMessage(s);
      Showed(StartMessage(s), t,
             id, Shown(0, None, PartOpen, "", "", ""))
  {
    NewId(s, s.clock);
    var id := Made(s.clock);
    forall i | i in s.client.items ensures s.client.items[i].call.Some? {
      assert Known(s, i);
    }
    var t := StartMessage(s);
    MessageAddedShown(t, id);
    var u := Emit(t, ItemAdded(0, id, MessageItem));
    PartAddedShown(u, id);
    assert u.client.items[id := Shown(0, None, PartOpen, "", "", "")] ==
        s.client.items[id := Shown(0, None, PartOpen, "", "", "")];
  }

  lemma OpenMessageKeeps(s: State)
    requires Open(s) && !s.messageStarted && s.messageText == ""
    ensures Open(OpenMessage(s)) && OpenMessage(s).messageStarted
  {
    MessageOpened(s);
    NewId(s, s.clock);
    var t := OpenMessage(s);
    forall k | k in t.calls ensures CallShown(t.calls[k], t.client.items) {
      assert CallShown(s.calls[k], s.client.items);
    }
    forall i | i in t.client.items ensures Known(t, i) {
      assert i != t.messageItemID ==> Known(s, i);
    }
  }

  lemma OpenMessageStarts(s: State)
    ensures !s.messageStarted ==> OpenMessage(s) == OpenMessage(Start(s))
    ensures OpenMessage(s).hasContent == s.hasContent && OpenMessage(s).messageText == s.messageText
    ensures OpenMessage(s).calls == s.calls && OpenMessage(s).indexes == s.indexes
  {
  }

  lemma TextDeltaShown(s: State, content: string)
    requires s.started && s.client.phase.Streaming? && s.client == Replay(s.out) && MessageShown(s, PartOpen)
    ensures var t := s.(messageText := s.messageText + content);
      Showed(t, Emit(t, TextDelta(s.messageItemID, s.messageOutputIndex, content)),
             s.messageItemID, Shown(s.messageOutputIndex, None, PartOpen, s.messageText + content, "", ""))
  {
    var t := s.(messageText := s.messageText + content);
    EmitReplays(t, TextDelta(s.messageItemID, s.messageOutputIndex, content));
  }

  lemma TextDeltaKeeps(s: State, content: string)
    requires Open(s) && s.messageStarted
    ensures Open(Emit(s.(messageText := s.messageText + content),
                      TextDelta(s.messageItemID, s.messageOutputIndex, content)))
  {
    TextDeltaShown(s, content);
    var t := Emit(s.(messageText := s.messageText + content),
                  TextDelta(s.messageItemID, s.messageOutputIndex, content));
    forall k | k in t.calls ensures CallShown(t.calls[k], t.client.items) {
      assert CallShown(s.calls[k], s.client.items);
    }
    forall i | i in t.client.items ensures Known(t, i) {
      assert Known(s, i);
    }
  }

  lemma TextKeeps(s: State, text: string, calls: seq<ToolCall>, content: string)
    requires Live(s, text, calls)
    ensures Live(ConsumeText(s, content), text + content, calls)
  {
    if content == "" {
      AppendNothing(text);
    } else {
      var t := s.(hasContent := true);
      MessageReady(t);
      OpenMessageStarts(t);
      TextDeltaKeeps(OpenMessage(t), content);
      var u := OpenMessage(t);
      EmitFrame(u.(messageText := u.messageText + content), TextDelta(u.messageItemID, u.messageOutputIndex, content));
    }
  }

  lemma MessageReady(s: State)
    requires Open(s) || Unopened(s)
    requires !s.messageStarted ==> s.messageText == ""
    ensures Open(OpenMessage(s)) && OpenMessage(s).messageStarted
  {
    OpenMessageStarts(s);
    StartKeeps(s);
    if !s.messageStarted {
      OpenMessageKeeps(Start(s));
    }
  }

  lemma CallAddedShown(s: State, o: int, id: Id, callID: Id, name: string)
    requires s.started && s.client.phase.Streaming? && s.client == Replay(s.out) && id !in s.client.items
    ensures Showed(s, Emit(s, ItemAdded(o, id, CallItem(callID, name))), id,
                   Shown(o, Some(callID), Fresh, "", name, ""))
  {
    EmitReplays(s, ItemAdded(o, id, CallItem(callID, name)));
  }

  lemma OpenCallKeeps(s: State, tc: ToolCall)
    requires Open(s) && tc.index !in s.calls
    ensures Open(OpenCall(s, tc))
  {
    NewId(s, s.clock);
    var c, t := NewCall(s, tc), OpenCall(s, tc);
    CallAddedShown(StartCall(s, tc),
                   c.outputIndex, c.itemID, c.callID, c.name);
    OneCallShown(s.calls, s.client.items, tc.index, c, t.client.items);
    forall i | i in t.client.items ensures Known(t, i) {
      if i == c.itemID {
        assert t.calls[tc.index].itemID == i;
      } else {
        KnownMore(s, t, i);
      }
    }
  }

  lemma KnownMore(s: State, t: State, id: Id)
    requires Known(s, id) && t.messageStarted == s.messageStarted && t.messageItemID == s.messageItemID
    requires forall k :: k in s.calls ==> k in t.calls && t.calls[k].itemID == s.calls[k].itemID
    ensures Known(t, id)
  {
    if !(s.messageStarted && id == s.messageItemID) {
      var k :| k in s.calls && s.calls[k].itemID == id;
      assert t.calls[k].itemID == id;
    }
  }

  lemma OpenCallStarts(s: State, tc: ToolCall)
    ensures tc.index !in s.calls ==> OpenCall(s, tc) == OpenCall(Start(s), tc)
  {
  }

  lemma ArgsDeltaShown(s: State, k: int, c: FunctionCall, more: string)
    requires s.started && s.client.phase.Streaming? && s.client == Replay(s.out)
    requires k in s.calls && CallShown(s.calls[k], s.client.items)
    requires c.outputIndex == s.calls[k].outputIndex && c.itemID == s.calls[k].itemID && c.callID == s.calls[k].callID
    requires c.announced == s.calls[k].announced
    requires c.arguments == s.calls[k].arguments + more
    ensures var t := s.(calls := s.calls[k := c]);
      Showed(t, Emit(t, ArgsDelta(c.itemID, c.outputIndex, c.callID, more)),
             c.itemID, Shown(c.outputIndex, Some(c.callID), Fresh, c.arguments, c.announced, ""))
  {
    EmitReplays(s.(calls := s.calls[k := c]), ArgsDelta(c.itemID, c.outputIndex, c.callID, more));
  }

  /** A change to one call and to its item leaves the other calls as they are shown. */
  lemma OneCallShown(calls: map<int, FunctionCall>, items: map<Id, Shown>, k: int, c: FunctionCall,
                     after: map<Id, Shown>)
    requires CallsShown(calls, items) && CallShown(c, after)
    requires after == items[c.itemID := after[c.itemID]]
    requires forall j :: j in calls && j != k ==> calls[j].itemID != c.itemID
    ensures CallsShown(calls[k := c], after)
  {
    var more := calls[k := c];
    forall j | j in more ensures CallShown(more[j], after) {
      if j != k {
        assert CallShown(calls[j], items);
      }
    }
  }

  lemma CallFilledIn(s: State, k: int, c: FunctionCall)
    requires Open(s) && k in s.calls
    requires c.itemID == s.calls[k].itemID && c.outputIndex == s.calls[k].outputIndex && c.callID == s.calls[k].callID
    requires c.announced == s.calls[k].announced
    requires c.arguments == s.calls[k].arguments
    ensures Open(s.(calls := s.calls[k := c]))
  {
    var t := s.(calls := s.calls[k := c]);
    assert CallShown(s.calls[k], s.client.items);
    OneCallShown(s.calls, s.client.items, k, c, s.client.items);
    forall i | i in s.client.items ensures Known(t, i) {
      KnownMore(s, t, i);
    }
  }

  lemma ArgsDeltaKeeps(s: State, k: int, c: FunctionCall, more: string)
    requires Open(s) && k in s.calls
    requires c.itemID == s.calls[k].itemID && c.outputIndex == s.calls[k].outputIndex && c.callID == s.calls[k].callID
    requires c.announced == s.calls[k].announced
    requires c.arguments == s.calls[k].arguments + more
    ensures Open(Emit(s.(calls := s.calls[k := c]), ArgsDelta(c.itemID, c.outputIndex, c.callID, more)))
  {
    assert CallShown(s.calls[k], s.client.items);
    ArgsDeltaShown(s, k, c, more);
    var t := Emit(s.(calls := s.calls[k := c]), ArgsDelta(c.itemID, c.outputIndex, c.callID, more));
    OneCallShown(s.calls, s.client.items, k, c, t.client.items);
    forall i | i in t.client.items ensures Known(t, i) {
      KnownMore(s, t, i);
    }
  }

  lemma AddArgumentsKeeps(s: State, tc: ToolCall)
    requires Open(s) && tc.index in s.calls && s.calls[tc.index].callID != Given("")
    ensures Open(AddArguments(s, tc))
  {
    var c := FillIn(s.calls[tc.index], tc);
    if tc.arguments == "" {
      AppendNothing(s.calls[tc.index].arguments);
      CallFilledIn(s, tc.index, c);
    } else {
      ArgsDeltaKeeps(s, tc.index, c, tc.arguments);
    }
  }

  lemma FragmentKeeps(s: State, tc: ToolCall, hasContent: bool)
    requires Open(s) || Unopened(s)
    requires forall k :: k in s.calls ==> s.calls[k].callID != Given("")
    ensures Open(TakeFragment(s, tc, hasContent))
  {
    var t := s.(hasContent := hasContent);
    CallIsOpen(t, tc);
    AddArgumentsKeeps(OpenCall(t, tc), tc);
  }

  lemma CallIsOpen(s: State, tc: ToolCall)
    requires Open(s) || Unopened(s)
    requires forall k :: k in s.calls ==> s.calls[k].callID != Given("")
    ensures var t := OpenCall(s, tc); Open(t) && tc.index in t.calls && t.calls[tc.index].callID != Given("")
  {
    CallOpened(s, tc);
    OpenCallStarts(s, tc);
    StartKeeps(s);
    if tc.index !in s.calls {
      OpenCallKeeps(Start(s), tc);
    }
  }

  lemma GivenIdsShown(s: State, calls: seq<ToolCall>)
    requires Gathered(s.calls, s.indexes, calls)
    ensures forall k :: k in s.calls ==> s.calls[k].callID != Given("")
  {
    forall k | k in s.calls ensures s.calls[k].callID != Given("") {
      assert Holds(s.calls[k], calls, k);
    }
  }

  lemma OpenCallFrame(s: State, tc: ToolCall)
    ensures var t := OpenCall(s, tc);
      t.messageText == s.messageText && t.messageStarted == s.messageStarted && t.completed == s.completed
  {
  }

  lemma FragmentFrame(s: State, tc: ToolCall, hasContent: bool)
    ensures var t := TakeFragment(s, tc, hasContent);
      t.messageText == s.messageText && t.messageStarted == s.messageStarted && t.completed == s.completed
  {
    OpenCallFrame(s.(hasContent := hasContent), tc);
    ArgumentsFrame(OpenCall(s.(hasContent := hasContent), tc), tc);
  }

  lemma ArgumentsFrame(s: State, tc: ToolCall)
    requires tc.index in s.calls
    ensures var t := AddArguments(s, tc);
      t.messageText == s.messageText && t.messageStarted == s.messageStarted && t.completed == s.completed
  {
    var c := FillIn(s.calls[tc.index], tc);
    EmitFrame(s.(calls := s.calls[tc.index := c]), ArgsDelta(c.itemID, c.outputIndex, c.callID, tc.arguments));
  }

  lemma ToolKeeps(s: State, text: string, calls: seq<ToolCall>, tc: ToolCall)
    requires Live(s, text, calls)
    ensures Live(ConsumeTool(s, tc), text, calls + [tc]) && ConsumeTool(s, tc).completed == s.completed
  {
    GivenIdsShown(s, calls);
    FragmentKeeps(s, tc, s.hasContent || Meaningful(tc));
    FragmentFrame(s, tc, s.hasContent || Meaningful(tc));
    GatherTool(s, calls, tc);
  }

  lemma {:induction false} ToolsKeep(s: State, text: string, calls: seq<ToolCall>, more: seq<ToolCall>)
    requires Live(s, text, calls)
    ensures Live(ConsumeTools(s, more), text, calls + more) && ConsumeTools(s, more).completed == s.completed
  {
    if more == [] {
      AppendNothing(calls);
    } else {
      var n := |more| - 1;
      ToolsKeep(s, text, calls, more[..n]);
      ToolKeeps(ConsumeTools(s, more[..n]), text, calls + more[..n], more[n]);
      AppendLast(calls, more);
    }
  }

  lemma TextCompletes(s: State, content: string)
    ensures ConsumeText(s, content).completed == s.completed
  {
    assert OpenMessage(s.(hasContent := true)).completed == s.completed;
  }

  lemma ChoiceKeeps(s: State, text: string, calls: seq<ToolCall>, c: Choice)
    requires Live(s, text, calls)
    ensures Live(ConsumeChoice(s, c), text + c.content, calls + c.toolCalls)
            && ConsumeChoice(s, c).completed == s.completed
  {
    TextKeeps(s, text, calls, c.content);
    TextCompletes(s, c.content);
    ToolsKeep(ConsumeText(s, c.content), text + c.content, calls, c.toolCalls);
    var t := ConsumeTools(ConsumeText(s, c.content), c.toolCalls);
    FinishReasonKeeps(t, text + c.content, calls + c.toolCalls, c.finishReason);
  }

  lemma FinishReasonKeeps(s: State, text: string, calls: seq<ToolCall>, reason: string)
    requires Live(s, text, calls)
    ensures Live(s.(finishReason := reason), text, calls)
  {
    SameItems(s, s.(finishReason := reason));
  }

  lemma NotedKeeps(s: State, text: string, calls: seq<ToolCall>, chunk: Chunk)
    requires Live(s, text, calls)
    ensures Live(NoteChunk(s, chunk), text, calls)
  {
    SameItems(s, NoteChunk(s, chunk));
  }

  lemma SameItems(s: State, t: State)
    requires t == s.(model := t.model, usage := t.usage, finishReason := t.finishReason)
    ensures Open(s) ==> Open(t)
  {
    if Open(s) {
      forall i | i in s.client.items ensures Known(t, i) {
        KnownMore(s, t, i);
      }
    }
  }

  lemma {:induction false} ChoicesKeep(s: State, text: string, calls: seq<ToolCall>, cs: seq<Choice>)
    requires Live(s, text, calls)
    ensures Live(ConsumeChoices(s, cs), text + SentText(cs), calls + SentCalls(cs))
            && ConsumeChoices(s, cs).completed == s.completed
  {
    if cs == [] {
      AppendNothing(text);
      AppendNothing(calls);
    } else {
      var n := |cs| - 1;
      ChoicesKeep(s, text, calls, cs[..n]);
      ChoiceKeeps(ConsumeChoices(s, cs[..n]), text + SentText(cs[..n]), calls + SentCalls(cs[..n]), cs[n]);
      AppendAppend(text, SentText(cs[..n]), cs[n].content);
      AppendAppend(calls, SentCalls(cs[..n]), cs[n].toolCalls);
    }
  }

  lemma {:induction false} FeedsKeep(codec: Codec, model: string, chunks: seq<Chunk>)
    ensures var s := Run(codec, Init(model), Feeds(chunks));
      Live(s, TextSent(chunks), SentCalls(AllChoices(chunks))) && !s.completed
  {
    if chunks != [] {
      var n := |chunks| - 1;
      assert Feeds(chunks)[..n] == Feeds(chunks[..n]);
      FeedsKeep(codec, model, chunks[..n]);
      var s := Run(codec, Init(model), Feeds(chunks[..n]));
      NotedKeeps(s, TextSent(chunks[..n]), SentCalls(AllChoices(chunks[..n])), chunks[n]);
      ChoicesKeep(NoteChunk(s, chunks[n]), TextSent(chunks[..n]), SentCalls(AllChoices(chunks[..n])),
                  chunks[n].choices);
      SentTextAppend(AllChoices(chunks[..n]), chunks[n].choices);
      SentCallsAppend(AllChoices(chunks[..n]), chunks[n].choices);
    }
  }

  // ---------- finishing ----------

  /** The item of a finished call: its arguments are the joined fragments, and normalized when done. */
  function DoneCall(codec: Codec, c: FunctionCall): Shown {
    Shown(c.outputIndex, Some(c.callID), Closed, c.arguments, c.name, Normalize(codec, c.arguments))
  }

  ghost predicate CallDone(codec: Codec, c: FunctionCall, items: map<Id, Shown>, done: bool) {
    if done then c.itemID in items && items[c.itemID] == DoneCall(codec, c) else CallShown(c, items)
  }

  ghost predicate MessageDone(s: State, items: map<Id, Shown>) {
    s.messageStarted ==>
      s.messageItemID in items && items[s.messageItemID] ==
          Shown(s.messageOutputIndex, None, Closed, s.messageText, "", "")
  }

  /** The message and the calls of the first `n` keys are closed, and only the client has moved. */
  ghost predicate ClosedUpTo(codec: Codec, s: State, t: State, keys: seq<int>, n: nat) {
    && t == s.(out := t.out, client := s.client.(items := t.client.items))
    && t.out != [] && t.client == Replay(t.out)
    && t.client.items.Keys == s.client.items.Keys
    && MessageDone(s, t.client.items)
    && n <= |keys|
    && forall j :: 0 <= j < |keys| ==> keys[j] in s.calls && CallDone(codec, s.calls[keys[j]], t.client.items, j < n)
  }

  lemma ShowedTwice(s: State, t: State, u: State, id: Id, a: Shown, b: Shown)
    requires Showed(s, t, id, a) && Showed(t, u, id, b)
    ensures Showed(s, u, id, b)
  {
    assert s.client.items[id := a][id := b] == s.client.items[id := b];
  }

  lemma TextDoneShown(s: State, id: Id, shown: Shown)
    requires s.started && s.client == Replay(s.out) && At(s.client, id, shown.outputIndex, None, PartOpen)
             && s.client.items[id] == shown
    ensures Showed(s, Emit(s, TextDone(id, shown.outputIndex, shown.body)), id, shown.(stage := BodyDone))
  {
    EmitReplays(s, TextDone(id, shown.outputIndex, shown.body));
  }

  lemma PartDoneShown(s: State, id: Id, shown: Shown)
    requires s.started && s.client == Replay(s.out) && At(s.client, id, shown.outputIndex, None, BodyDone)
             && s.client.items[id] == shown
    ensures Showed(s, Emit(s, PartDone(id, shown.outputIndex, shown.body)), id, shown.(stage := PartClosed))
  {
    EmitReplays(s, PartDone(id, shown.outputIndex, shown.body));
  }

  lemma MessageDoneShown(s: State, id: Id, shown: Shown)
    requires s.started && s.client == Replay(s.out) && At(s.client, id, shown.outputIndex, None, PartClosed)
             && s.client.items[id] == shown
    ensures Showed(s, Emit(s, ItemDone(shown.outputIndex, id, MessageItem, shown.body)), id, shown.(stage := Closed))
  {
    EmitReplays(s, ItemDone(shown.outputIndex, id, MessageItem, shown.body));
  }

  lemma MessageClosed(s: State)
    requires s.started && s.client.phase.Streaming? && s.client == Replay(s.out) && s.messageStarted
             && MessageShown(s, PartOpen)
    ensures Showed(s, CloseMessage(s), s.messageItemID,
                   Shown(s.messageOutputIndex, None, Closed, s.messageText, "", ""))
  {
    var id, o, text := s.messageItemID, s.messageOutputIndex, s.messageText;
    var shown := Shown(o, None, PartOpen, text, "", "");
    var t := Emit(s, TextDone(id, o, text));
    var u := Emit(t, PartDone(id, o, text));
    TextDoneShown(s, id, shown);
    PartDoneShown(t, id, shown.(stage := BodyDone));
    ShowedTwice(s, t, u, id, shown.(stage := BodyDone), shown.(stage := PartClosed));
    MessageDoneShown(u, id, shown.(stage := PartClosed));
    ShowedTwice(s, u, CloseMessage(s), id, shown.(stage := PartClosed), shown.(stage := Closed));
  }

  lemma ArgsDoneShown(s: State, id: Id, callID: Id, shown: Shown, name: string, arguments: string)
    requires s.started && s.client == Replay(s.out) && At(s.client, id, shown.outputIndex, Some(callID), Fresh)
             && s.client.items[id] == shown
    ensures Showed(s, Emit(s, ArgsDone(id, shown.outputIndex, callID, name, arguments)), id,
                   shown.(stage := BodyDone, name := name, final := arguments))
  {
    EmitReplays(s, ArgsDone(id, shown.outputIndex, callID, name, arguments));
  }

  lemma CallDoneShown(s: State, id: Id, callID: Id, shown: Shown)
    requires s.started && s.client == Replay(s.out) && At(s.client, id, shown.outputIndex, Some(callID), BodyDone)
             && s.client.items[id] == shown
    ensures Showed(s, Emit(s, ItemDone(shown.outputIndex, id, CallItem(callID, shown.name), shown.final)), id,
                   shown.(stage := Closed))
  {
    EmitReplays(s, ItemDone(shown.outputIndex, id, CallItem(callID, shown.name), shown.final));
  }

  lemma CallClosed(codec: Codec, s: State, k: int)
    requires s.started && s.client.phase.Streaming? && s.client == Replay(s.out) && k in s.calls
             && CallShown(s.calls[k], s.client.items)
    ensures Showed(s, CloseCall(codec, s, k), s.calls[k].itemID, DoneCall(codec, s.calls[k]))
  {
    var c := s.calls[k];
    var arguments := Normalize(codec, c.arguments);
    var done := Shown(c.outputIndex, Some(c.callID), BodyDone, c.arguments, c.name, arguments);
    ArgsDoneShown(s, c.itemID, c.callID, Shown(c.outputIndex, Some(c.callID), Fresh, c.arguments, c.announced, ""),
                  c.name, arguments);
    var t := Emit(s, ArgsDone(c.itemID, c.outputIndex, c.callID, c.name, arguments));
    CallDoneShown(t, c.itemID, c.callID, done);
    ShowedTwice(s, t, CloseCall(codec, s, k), c.itemID, done, DoneCall(codec, c));
  }

  /** No key is listed twice, and every key is that of a call. */
  ghost predicate CallKeys(s: State, keys: seq<int>) {
    && (forall j :: 0 <= j < |keys| ==> keys[j] in s.calls)
    && forall i, j :: 0 <= i < j < |keys| ==> keys[i] != keys[j]
  }

  lemma NothingClosed(codec: Codec, s: State, keys: seq<int>)
    requires Open(s) && CallKeys(s, keys)
    ensures ClosedUpTo(codec, s, CloseMessage(s), keys, 0)
  {
    if s.messageStarted {
      MessageClosed(s);
    }
    var t := CloseMessage(s);
    forall j | 0 <= j < |keys| ensures CallDone(codec, s.calls[keys[j]], t.client.items, false) {
      var k := keys[j];
      assert k in s.calls && CallShown(s.calls[k], s.client.items);
    }
  }

  lemma OneMoreClosed(codec: Codec, s: State, t: State, keys: seq<int>, n: nat)
    requires Open(s) && CallKeys(s, keys) && ClosedUpTo(codec, s, t, keys, n) && n < |keys|
    ensures ClosedUpTo(codec, s, CloseCall(codec, t, keys[n]), keys, n + 1)
  {
    var k := keys[n];
    assert CallDone(codec, s.calls[keys[n]], t.client.items, n < n);
    CallClosed(codec, t, k);
    var u := CloseCall(codec, t, k);
    forall j | 0 <= j < |keys| ensures CallDone(codec, s.calls[keys[j]], u.client.items, j < n + 1) {
      assert CallDone(codec, s.calls[keys[j]], t.client.items, j < n);
      assert j != n ==> keys[j] != keys[n];
    }
  }

  lemma {:induction false} CallsClosed(codec: Codec, s: State, m: State, keys: seq<int>, n: nat)
    requires Open(s) && CallKeys(s, keys) && ClosedUpTo(codec, s, m, keys, 0) && n <= |keys|
    ensures ClosedUpTo(codec, s, CloseCalls(codec, m, keys[..n]), keys, n)
  {
    if n > 0 {
      CallsClosed(codec, s, m, keys, n - 1);
      CloseCallsOneMore(codec, m, keys, n - 1);
      OneMoreClosed(codec, s, CloseCalls(codec, m, keys[..n - 1]), keys, n - 1);
    }
  }

  /** What a client has in the end: the text, each tool index's call under an item of its own, and the object. */
  ghost predicate Delivered(codec: Codec, t: State, text: string, calls: seq<ToolCall>) {
    && Gathered(t.calls, t.indexes, calls) && OwnIds(t)
    && t.messageText == text && t.messageStarted == (text != "")
    && MessageDone(t, t.client.items)
    && (forall k :: k in t.calls ==> CallDone(codec, t.calls[k], t.client.items, true))
    && (forall id :: id in t.client.items ==> Known(t, id))
    && t.client.response == Some(Object(codec, t))
    && t.stored == Some(Stored(Object(codec, t), Assisted(codec, t)))
  }

  lemma SortedKeys(s: State, calls: seq<ToolCall>)
    requires Gathered(s.calls, s.indexes, calls)
    ensures CallKeys(s, Sorted(s.indexes)) && forall k :: k in s.calls <==> k in Sorted(s.indexes)
  {
    FirstSeenFacts(calls);
    SortedSorts(s.indexes);
    forall j | 0 <= j < |Sorted(s.indexes)| ensures Sorted(s.indexes)[j] in s.calls {
      assert Sorted(s.indexes)[j] in Sorted(s.indexes);
    }
  }

  lemma EveryCallDone(codec: Codec, s: State, t: State, keys: seq<int>, k: int)
    requires ClosedUpTo(codec, s, t, keys, |keys|) && k in keys
    ensures k in s.calls && CallDone(codec, s.calls[k], t.client.items, true)
  {
    var j :| 0 <= j < |keys| && keys[j] == k;
    assert CallDone(codec, s.calls[keys[j]], t.client.items, j < |keys|);
  }

  lemma EverythingClosed(codec: Codec, s: State, t: State, keys: seq<int>)
    requires Open(s) && ClosedUpTo(codec, s, t, keys, |keys|) && forall k :: k in s.calls <==> k in keys
    ensures AllClosed(t.client)
    ensures forall k :: k in s.calls ==> CallDone(codec, s.calls[k], t.client.items, true)
  {
    forall k | k in s.calls ensures CallDone(codec, s.calls[k], t.client.items, true) {
      EveryCallDone(codec, s, t, keys, k);
    }
    forall id | id in t.client.items ensures t.client.items[id].stage.Closed? {
      assert Known(s, id);
      if !(s.messageStarted && id == s.messageItemID) {
        var k :| k in s.calls && s.calls[k].itemID == id;
        assert CallDone(codec, s.calls[k], t.client.items, true);
      }
    }
  }

  lemma CompleteEnds(codec: Codec, s: State)
    requires s.started && s.client.phase.Streaming? && AllClosed(s.client) && s.client == Replay(s.out)
    ensures var t := Complete(codec, s);
      && t.client == Client(Done, s.client.items, Some(Object(codec, s))) && t.client == Replay(t.out) && t.out != []
      && t == s.(stored := Some(Stored(Object(codec, s), Assisted(codec, s))), completed := true, out := t.out,
                 client := t.client)
  {
    var t := s.(stored := Some(Stored(Object(codec, s), Assisted(codec, s))), completed := true);
    EmitReplays(t, Completed(Object(codec, s)));
    PushReplays(Emit(t, Completed(Object(codec, s))), DoneMark);
  }

  /** The object and the assistant message depend on what was gathered alone. */
  lemma ObjectOf(codec: Codec, s: State, t: State)
    requires t == s.(out := t.out, client := t.client, stored := t.stored, completed := t.completed)
    ensures Object(codec, t) == Object(codec, s) && Assisted(codec, t) == Assisted(codec, s)
  {
  }

  lemma FinishDelivers(codec: Codec, s: State, text: string, calls: seq<ToolCall>)
    requires Live(s, text, calls) && s.started && !s.completed
    ensures var t := Finish(codec, s);
      && Delivered(codec, t, text, calls) && t.completed && t.client.phase.Done? && t.client == Replay(t.out)
      && t.out != [] && t.started
      && t == s.(stored := t.stored, completed := true, out := t.out, client := t.client)
  {
    var closed := AllItemsClosed(codec, s, text, calls);
    CompleteEnds(codec, closed);
    var t := Finish(codec, s);
    ObjectOf(codec, closed, t);
    StillKnown(s, t);
  }

  lemma AllItemsClosed(codec: Codec, s: State, text: string, calls: seq<ToolCall>) returns (closed: State)
    requires Live(s, text, calls) && s.started
    ensures closed == CloseCalls(codec, CloseMessage(s), Sorted(s.indexes))
    ensures closed == s.(out := closed.out, client := s.client.(items := closed.client.items))
    ensures closed.client == Replay(closed.out) && closed.client.items.Keys == s.client.items.Keys
    ensures AllClosed(closed.client) && MessageDone(s, closed.client.items)
    ensures forall k :: k in s.calls ==> CallDone(codec, s.calls[k], closed.client.items, true)
  {
    var keys := Sorted(s.indexes);
    SortedKeys(s, calls);
    NothingClosed(codec, s, keys);
    CallsClosed(codec, s, CloseMessage(s), keys, |keys|);
    assert keys[..|keys|] == keys;
    closed := CloseCalls(codec, CloseMessage(s), keys);
    EverythingClosed(codec, s, closed, keys);
  }

  lemma StillKnown(s: State, t: State)
    requires Mirrored(s) && t.client.items.Keys == s.client.items.Keys
    requires t.messageStarted == s.messageStarted && t.messageItemID == s.messageItemID && t.calls == s.calls
    ensures forall id :: id in t.client.items ==> Known(t, id)
  {
    forall id | id in t.client.items ensures Known(t, id) {
      KnownMore(s, t, id);
    }
  }

  /** The state after the chunks of a stream and the first End. */
  function AfterEnd(codec: Codec, model: string, chunks: seq<Chunk>): State {
    Finish(codec, Run(codec, Init(model), Feeds(chunks)))
  }

  /** Whether the chunks make the translator emit anything: any text, or any tool call fragment at all. */
  predicate Substance(chunks: seq<Chunk>) {
    TextSent(chunks) != "" || SentCalls(AllChoices(chunks)) != []
  }

  /**
   The trace serves the chunks: it is empty for chunks without text and fragments; otherwise a
   strict client accepts it, and has exactly the text, the calls and the object that Finish stored.
   */
  ghost predicate Serves(codec: Codec, t: State, chunks: seq<Chunk>) {
    && Accepted(t.out)
    && (t.out == [] <==> !Substance(chunks))
    && (Substance(chunks) ==> Delivered(codec, t, TextSent(chunks), SentCalls(AllChoices(chunks))))
  }

  /** What a complete stream sends serves its chunks. */
  lemma CompleteStream(codec: Codec, model: string, chunks: seq<Chunk>)
    ensures var t := AfterEnd(codec, model, chunks);
      && Serves(codec, t, chunks) && t.completed && t.client == Replay(t.out)
      && Gathered(t.calls, t.indexes, SentCalls(AllChoices(chunks)))
      && (t.out == [] ==> Unopened(t)) && (t.out != [] ==> t.started)
      && (t.hasContent || t.started <==> t.out != [])
  {
    FeedsKeep(codec, model, chunks);
    var s := Run(codec, Init(model), Feeds(chunks));
    if s.started {
      FinishDelivers(codec, s, TextSent(chunks), SentCalls(AllChoices(chunks)));
    }
  }

  /**
   A stream that breaks off: when the relay reports an error before the stream was finished, the
   client sees response.failed with the message and [DONE], and accepts the trace.
   */
  lemma FailedStream(codec: Codec, model: string, chunks: seq<Chunk>, message: string)
    ensures var t := Fail(Run(codec, Init(model), Feeds(chunks)), message);
      && Accepted(t.out) && t.client == Replay(t.out) && t.client.response.None?
      && |t.out| >= 2 && t.out[|t.out| - 1].DoneMark?
      && t.out[|t.out| - 2].Failed? && t.out[|t.out| - 2].message == message
  {
    FeedsKeep(codec, model, chunks);
    FailEnds(Run(codec, Init(model), Feeds(chunks)), message);
  }

  lemma FailEnds(s: State, message: string)
    requires if s.started then s.client.phase.Streaming? else s.client.phase.Idle?
    requires s.client == Replay(s.out) && s.client.response.None?
    ensures var t := Fail(s, message);
      t.client.phase.Done? && t.client == Replay(t.out) && t.client.response.None?
  {
    StartReplays(s);
    EmitReplays(s, Failed(s.model, message));
    PushReplays(Emit(s, Failed(s.model, message)), DoneMark);
  }

  // ---------- after the end ----------

  /** A fragment for a known tool index that carries no arguments. */
  predicate MuteCall(keys: seq<int>, tc: ToolCall) {
    tc.index in keys && tc.arguments == ""
  }

  predicate MuteChoice(keys: seq<int>, c: Choice) {
    c.content == "" && MuteCalls(keys, c.toolCalls)
  }

  predicate MuteCalls(keys: seq<int>, calls: seq<ToolCall>) {
    forall i :: 0 <= i < |calls| ==> MuteCall(keys, calls[i])
  }

  predicate MuteOp(keys: seq<int>, op: Op) {
    op.Feed? ==> MuteChoices(keys, op.chunk.choices)
  }

  predicate MuteChoices(keys: seq<int>, cs: seq<Choice>) {
    forall i :: 0 <= i < |cs| ==> MuteChoice(keys, cs[i])
  }

  predicate AllMute(keys: seq<int>, ops: seq<Op>) {
    forall i :: 0 <= i < |ops| ==> MuteOp(keys, ops[i])
  }

  /** A finished translator whose client is satisfied. */
  ghost predicate Rests(s: State) {
    && s.completed && s.client == Replay(s.out)
    && (if s.started then s.out != [] && s.client.phase.Done? else s.out == [] && s.client.phase.Idle?)
    && forall k :: k in s.calls <==> k in s.indexes
  }

  /** A finished translator that has gone on emitting. */
  ghost predicate Spoilt(s: State) {
    && s.completed && s.started && s.client == Replay(s.out) && s.out != [] && s.client.phase in {Streaming, Broken}
  }

  /** The client has seen the end of the response, or objected to something; it will not be satisfied by more. */
  ghost predicate Beyond(s: State) {
    s.started && (s.client.phase.Done? || s.client.phase.Broken?)
  }

  /** Either nothing was emitted and the same indices are known, or the trace is spoilt. */
  ghost predicate Same(s: State, t: State) {
    Rests(t) && t.out == s.out && t.indexes == s.indexes
  }

  predicate AboutItems(e: Event) {
    !e.Created? && !e.Completed? && !e.Failed? && !e.DoneMark?
  }

  lemma LateEmit(s: State, e: Event)
    requires s.completed && s.client == Replay(s.out) && AboutItems(e)
    requires if s.started then s.client.phase in {Done, Streaming, Broken} else s.client.phase.Idle?
    ensures Spoilt(Emit(s, e)) && (Beyond(s) ==> Beyond(Emit(s, e)))
  {
    StartReplays(s);
    EmitReplays(s, e);
  }

  lemma LateText(s: State, content: string)
    requires Rests(s) || Spoilt(s)
    ensures if content == "" then ConsumeText(s, content) == s else Spoilt(ConsumeText(s, content))
    ensures Beyond(s) ==> Beyond(ConsumeText(s, content))
  {
    if content != "" {
      var t := s.(hasContent := true);
      if !t.messageStarted {
        var id := Made(t.clock);
        var u := StartMessage(t);
        LateEmit(u, ItemAdded(0, id, MessageItem));
        LateEmit(Emit(u, ItemAdded(0, id, MessageItem)), PartAdded(id, 0));
      }
      var v := OpenMessage(t);
      LateEmit(v.(messageText := v.messageText + content), TextDelta(v.messageItemID, v.messageOutputIndex, content));
    }
  }

  lemma LateOpenCall(s: State, tc: ToolCall)
    requires Rests(s) || Spoilt(s)
    ensures if tc.index in s.calls then OpenCall(s, tc) == s else Spoilt(OpenCall(s, tc))
    ensures Beyond(s) ==> Beyond(OpenCall(s, tc))
  {
    if tc.index !in s.calls {
      var c := NewCall(s, tc);
      LateEmit(StartCall(s, tc),
               ItemAdded(c.outputIndex, c.itemID, CallItem(c.callID, c.name)));
    }
  }

  lemma LateArguments(s: State, tc: ToolCall)
    requires (Rests(s) || Spoilt(s)) && tc.index in s.calls
    ensures Rests(s) && tc.arguments == "" ==> Same(s, AddArguments(s, tc))
    ensures Spoilt(s) || tc.arguments != "" ==> Spoilt(AddArguments(s, tc))
    ensures Beyond(s) ==> Beyond(AddArguments(s, tc))
  {
    if tc.arguments != "" {
      var c := FillIn(s.calls[tc.index], tc);
      LateEmit(s.(calls := s.calls[tc.index := c]), ArgsDelta(c.itemID, c.outputIndex, c.callID, tc.arguments));
    }
  }

  lemma LateTool(s: State, tc: ToolCall)
    requires Rests(s) || Spoilt(s)
    ensures Rests(s) && MuteCall(s.indexes, tc) ==> Same(s, ConsumeTool(s, tc))
    ensures Spoilt(s) || !MuteCall(s.indexes, tc) ==> Spoilt(ConsumeTool(s, tc))
    ensures Beyond(s) ==> Beyond(ConsumeTool(s, tc))
  {
    LateFragment(s.(hasContent := s.hasContent || Meaningful(tc)), tc);
  }

  lemma LateFragment(s: State, tc: ToolCall)
    requires Rests(s) || Spoilt(s)
    ensures var t := AddArguments(OpenCall(s, tc), tc);
      && (Rests(s) && MuteCall(s.indexes, tc) ==> Same(s, t))
      && (Spoilt(s) || !MuteCall(s.indexes, tc) ==> Spoilt(t))
      && (Beyond(s) ==> Beyond(t))
  {
    LateOpenCall(s, tc);
    LateArguments(OpenCall(s, tc), tc);
  }

  lemma MuteCallsLast(keys: seq<int>, calls: seq<ToolCall>)
    requires calls != []
    ensures MuteCalls(keys, calls) <==> MuteCalls(keys, calls[..|calls| - 1]) && MuteCall(keys, calls[|calls| - 1])
  {
    var n := |calls| - 1;
    assert forall i :: 0 <= i < n ==> calls[..n][i] == calls[i];
  }

  lemma {:induction false} LateTools(s: State, calls: seq<ToolCall>)
    requires Rests(s) || Spoilt(s)
    ensures Rests(s) && MuteCalls(s.indexes, calls) ==> Same(s, ConsumeTools(s, calls))
    ensures Spoilt(s) || !MuteCalls(s.indexes, calls) ==> Spoilt(ConsumeTools(s, calls))
    ensures Beyond(s) ==> Beyond(ConsumeTools(s, calls))
  {
    if calls != [] {
      var n := |calls| - 1;
      LateTools(s, calls[..n]);
      MuteCallsLast(s.indexes, calls);
      LateTool(ConsumeTools(s, calls[..n]), calls[n]);
    }
  }

  lemma LateChoice(s: State, c: Choice)
    requires Rests(s) || Spoilt(s)
    ensures Rests(s) && MuteChoice(s.indexes, c) ==> Same(s, ConsumeChoice(s, c))
    ensures Spoilt(s) || !MuteChoice(s.indexes, c) ==> Spoilt(ConsumeChoice(s, c))
    ensures Beyond(s) ==> Beyond(ConsumeChoice(s, c))
  {
    LateText(s, c.content);
    LateTools(ConsumeText(s, c.content), c.toolCalls);
  }

  lemma MuteChoicesLast(keys: seq<int>, cs: seq<Choice>)
    requires cs != []
    ensures MuteChoices(keys, cs) <==> MuteChoices(keys, cs[..|cs| - 1]) && MuteChoice(keys, cs[|cs| - 1])
  {
    var n := |cs| - 1;
    assert forall i :: 0 <= i < n ==> cs[..n][i] == cs[i];
  }

  lemma {:induction false} LateChoices(s: State, cs: seq<Choice>)
    requires Rests(s) || Spoilt(s)
    ensures Rests(s) && MuteChoices(s.indexes, cs) ==> Same(s, ConsumeChoices(s, cs))
    ensures Spoilt(s) || !MuteChoices(s.indexes, cs) ==> Spoilt(ConsumeChoices(s, cs))
    ensures Beyond(s) ==> Beyond(ConsumeChoices(s, cs))
  {
    if cs != [] {
      var n := |cs| - 1;
      LateChoices(s, cs[..n]);
      MuteChoicesLast(s.indexes, cs);
      LateChoice(ConsumeChoices(s, cs[..n]), cs[n]);
    }
  }

  lemma LateStep(codec: Codec, s: State, op: Op)
    requires Rests(s) || Spoilt(s)
    ensures Rests(s) && MuteOp(s.indexes, op) ==> Same(s, Step(codec, s, op))
    ensures Spoilt(s) || !MuteOp(s.indexes, op) ==> Spoilt(Step(codec, s, op))
    ensures Beyond(s) ==> Beyond(Step(codec, s, op))
  {
    if op.Feed? {
      LateChoices(NoteChunk(s, op.chunk), op.chunk.choices);
    }
  }

  lemma AllMuteLast(keys: seq<int>, ops: seq<Op>)
    requires ops != []
    ensures AllMute(keys, ops) <==> AllMute(keys, ops[..|ops| - 1]) && MuteOp(keys, ops[|ops| - 1])
  {
    var n := |ops| - 1;
    assert forall i :: 0 <= i < n ==> ops[..n][i] == ops[i];
  }

  lemma {:induction false} LateRun(codec: Codec, s: State, ops: seq<Op>)
    requires Rests(s)
    ensures AllMute(s.indexes, ops) ==> Same(s, Run(codec, s, ops))
    ensures !AllMute(s.indexes, ops) ==> Spoilt(Run(codec, s, ops))
    ensures Beyond(s) ==> Beyond(Run(codec, s, ops))
  {
    if ops != [] {
      var n := |ops| - 1;
      LateRun(codec, s, ops[..n]);
      AllMuteLast(s.indexes, ops);
      LateStep(codec, Run(codec, s, ops[..n]), ops[n]);
    }
  }

  lemma {:induction false} RunAppend(codec: Codec, s: State, a: seq<Op>, b: seq<Op>)
    ensures Run(codec, s, a + b) == Run(codec, Run(codec, s, a), b)
  {
    if b == [] {
      AppendNothing(a);
    } else {
      assert (a + b)[..|a + b| - 1] == a + b[..|b| - 1];
      RunAppend(codec, s, a, b[..|b| - 1]);
    }
  }

  /**
   Exactly which runs leave a well-formed trace: Consume does not look at whether the stream was
   finished, so the trace is spoilt by the first chunk behind the first End that carries text,
   arguments, or a fragment for a tool index not seen before.
   */
  lemma TraceGrammar(codec: Codec, model: string, chunks: seq<Chunk>, rest: seq<Op>)
    ensures var t := Run(codec, Init(model), Feeds(chunks) + [End] + rest);
      && (Accepted(t.out) <==> AllMute(FirstSeen(SentCalls(AllChoices(chunks))), rest))
      && (Accepted(t.out) ==> t.out == AfterEnd(codec, model, chunks).out)
  {
    RunAppend(codec, Init(model), Feeds(chunks) + [End], rest);
    assert (Feeds(chunks) + [End])[..|Feeds(chunks)|] == Feeds(chunks);
    CompleteStream(codec, model, chunks);
    LateRun(codec, AfterEnd(codec, model, chunks), rest);
  }

  // ---------- errors behind the end ----------

  lemma LiveWhileCompleted(codec: Codec, s: State, text: string, calls: seq<ToolCall>, ops: seq<Op>)
    returns (text': string, calls': seq<ToolCall>)
    requires Live(s, text, calls) && s.completed
    ensures Live(Run(codec, s, ops), text', calls') && Run(codec, s, ops).completed
  {
    if ops == [] {
      return text, calls;
    }
    var n := |ops| - 1;
    text', calls' := LiveWhileCompleted(codec, s, text, calls, ops[..n]);
    if ops[n].Feed? {
      var t, chunk := Run(codec, s, ops[..n]), ops[n].chunk;
      NotedKeeps(t, text', calls', chunk);
      ChoicesKeep(NoteChunk(t, chunk), text', calls', chunk.choices);
      text', calls' := text' + SentText(chunk.choices), calls' + SentCalls(chunk.choices);
    }
  }

  lemma ErrorTooLate(s: State, message: string)
    requires Beyond(s) && s.client == Replay(s.out)
    ensures !Accepted(Fail(s, message).out)
  {
    EmitReplays(s, Failed(s.model, message));
    PushReplays(Emit(s, Failed(s.model, message)), DoneMark);
  }

  /**
   An error behind the end of the stream, such as one for bad JSON behind [DONE], spoils the trace
   if and only if the stream had anything to send before its end.
   */
  lemma FailedTooLate(codec: Codec, model: string, chunks: seq<Chunk>, rest: seq<Op>, message: string)
    ensures Accepted(Fail(Run(codec, Init(model), Feeds(chunks) + [End] + rest), message).out) <==> !Substance(chunks)
  {
    var s := AfterEnd(codec, model, chunks);
    RunAppend(codec, Init(model), Feeds(chunks) + [End], rest);
    assert (Feeds(chunks) + [End])[..|Feeds(chunks)|] == Feeds(chunks);
    CompleteStream(codec, model, chunks);
    if Substance(chunks) {
      LateRun(codec, s, rest);
      ErrorTooLate(Run(codec, s, rest), message);
    } else {
      FeedsKeep(codec, model, chunks);
      var text, calls := LiveWhileCompleted(codec, s, "", [], rest);
      FailEnds(Run(codec, s, rest), message);
    }
  }
}
