/**
 The response object and the stored assistant message, as they are built from a whole upstream
 result.  The streaming translator builds the same two things from what it has gathered.
 */
module ResponsesObject {
  import opened Text
  import opened Chunks

  /** An identifier: one the upstream gave, or one made from the n-th reading of the clock. */
  datatype Id = Given(text: string) | Made(n: nat)

  /** json.Unmarshal followed by json.Marshal; None for text that is not JSON. */
  datatype Codec = Codec(reparse: string -> Option<string>)

  /** What is used of JSON: printed text is trimmed, not empty, and reads back as itself. */
  ghost predicate Lawful(codec: Codec) {
    && codec.reparse("{}") == Some("{}")
    && forall s :: codec.reparse(s).Some? ==> Printed(codec, codec.reparse(s).value)
  }

  ghost predicate Printed(codec: Codec, b: string) {
    b != "" && Trimmed(b) && codec.reparse(b) == Some(b)
  }

  /** normalizeJSONString */
  function Normalize(codec: Codec, raw: string): string {
    if TrimSpace(raw) == "" then "{}"
    else match codec.reparse(TrimSpace(raw))
      case None => raw
      case Some(b) => b
  }

  /** The streaming translator normalizes arguments twice; that is the same as once. */
  lemma NormalizeIdempotent(codec: Codec, raw: string)
    requires Lawful(codec)
    ensures Normalize(codec, Normalize(codec, raw)) == Normalize(codec, raw)
  {
    var once := Normalize(codec, raw);
    if TrimSpace(raw) == "" {
      TrimmedIsFixed("{}");
    } else if codec.reparse(TrimSpace(raw)).Some? {
      assert Printed(codec, codec.reparse(TrimSpace(raw)).value);
      TrimmedIsFixed(once);
    }
  }

  datatype PayloadCall = PayloadCall(id: Id, kind: string, name: string, arguments: string)

  datatype Upstream = Upstream(model: string, content: string, calls: seq<PayloadCall>, usage: Usage)

  datatype Output =
    | MessageOut(id: Id, content: seq<string>)
    | CallOut(id: Id, callID: Id, name: string, arguments: string)

  datatype Response = Response(
    model: string,
    output: seq<Output>,
    outputText: string,
    inputTokens: int,
    outputTokens: int,
    totalTokens: int)

  datatype ConversationCall = ConversationCall(id: Id, kind: string, name: string, arguments: string)

  /** An assistant turn of the stored conversation; it has no tool_calls field when `calls` is empty. */
  datatype Assistant = Assistant(content: string, calls: seq<ConversationCall>)

  /** firstNonEmpty of an identifier and a made-up one. */
  function FirstId(id: Id, n: nat): Id {
    if id.Given? && Blank(id.text) then Made(n) else id
  }

  /** The text of an output message: a part, unless it is empty. */
  function Parts(text: string): seq<string> {
    if text == "" then [] else [text]
  }

  function CallOutput(codec: Codec, c: PayloadCall, n: nat): Output {
    CallOut(Made(n), FirstId(c.id, n + 1), c.name, Normalize(codec, c.arguments))
  }

  function CallOutputs(codec: Codec, calls: seq<PayloadCall>, n: nat): seq<Output> {
    seq(|calls|, i requires 0 <= i < |calls| => CallOutput(codec, calls[i], n + 2 * i))
  }

  function ConversationCallOf(codec: Codec, c: PayloadCall, n: nat): ConversationCall {
    ConversationCall(FirstId(c.id, n), FirstNonEmpty(c.kind, "function"), c.name, Normalize(codec, c.arguments))
  }

  function ConversationCalls(codec: Codec, calls: seq<PayloadCall>, n: nat): seq<ConversationCall> {
    seq(|calls|, i requires 0 <= i < |calls| => ConversationCallOf(codec, calls[i], n + i))
  }

  function AssistantOf(codec: Codec, content: string, calls: seq<PayloadCall>, n: nat): Assistant {
    Assistant(TrimSpace(content), ConversationCalls(codec, calls, n))
  }

  /** The response object of a whole upstream result; `n` is the number of clock readings so far. */
  function FromResult(codec: Codec, requestedModel: string, up: Upstream, n: nat): Response {
    var text := TrimSpace(TrimSpace(up.content));
    var message := if text != "" || up.calls == [] then [MessageOut(Made(n), Parts(text))] else [];
    Response(FirstNonEmpty(TrimSpace(requestedModel), up.model), message + CallOutputs(codec, up.calls, n + 1), text,
             LookupUsage(up.usage, "prompt_tokens"), LookupUsage(up.usage, "completion_tokens"),
             LookupUsage(up.usage, "total_tokens"))
  }

  /** buildResponsesObjectFromOpenAIResult, after the JSON of the result has been decoded. */
  method BuildResponse(codec: Codec, requestedModel: string, up: Upstream, clock: nat)
    returns (response: Response, clock': nat)
    ensures response == FromResult(codec, requestedModel, up, clock)
    ensures clock' == clock + 1 + 2 * |up.calls|
  {
    var text := TrimSpace(TrimSpace(up.content));
    var output := [];
    if text != "" || |up.calls| == 0 {
      output := output + [MessageOut(Made(clock), Parts(text))];
    }
    ghost var message := output;
    clock' := clock + 1;
    for i := 0 to |up.calls|
      invariant clock' == clock + 1 + 2 * i
      invariant output == message + CallOutputs(codec, up.calls[..i], clock + 1)
    {
      var c := up.calls[i];
      ghost var done := CallOutputs(codec, up.calls[..i], clock + 1);
      assert CallOutputs(codec, up.calls[..i + 1], clock + 1) == done + [CallOutput(codec, c, clock')];
      AppendAppend(message, done, [CallOutput(codec, c, clock')]);
      output := output + [CallOut(Made(clock'), FirstId(c.id, clock' + 1), c.name, Normalize(codec, c.arguments))];
      clock' := clock' + 2;
    }
    assert up.calls[..|up.calls|] == up.calls;
    response := Response(FirstNonEmpty(TrimSpace(requestedModel), up.model), output, text,
                         LookupUsage(up.usage, "prompt_tokens"), LookupUsage(up.usage, "completion_tokens"),
                         LookupUsage(up.usage, "total_tokens"));
  }

  /** buildAssistantConversationMessage and buildConversationToolCalls. */
  method BuildAssistant(codec: Codec, content: string, calls: seq<PayloadCall>, clock: nat)
    returns (assistant: Assistant)
    ensures assistant == AssistantOf(codec, content, calls, clock)
  {
    var items := [];
    for i := 0 to |calls|
      invariant items == ConversationCalls(codec, calls[..i], clock)
    {
      var c := calls[i];
      items := items + [ConversationCall(FirstId(c.id, clock + i), FirstNonEmpty(c.kind, "function"), c.name,
                                         Normalize(codec, c.arguments))];
    }
    assert calls[..|calls|] == calls;
    assistant := Assistant(TrimSpace(content), items);
  }

  // ---------- equality up to made-up identifiers ----------

  predicate SameId(a: Id, b: Id) {
    a == b || (a.Made? && b.Made?)
  }

  predicate SameOutput(a: Output, b: Output) {
    match (a, b)
    case (MessageOut(_, x), MessageOut(_, y)) => x == y
    case (CallOut(_, i, x, u), CallOut(_, j, y, v)) => SameId(i, j) && x == y && u == v
    case _ => false
  }

  predicate SameResponse(a: Response, b: Response) {
    && a.model == b.model && a.outputText == b.outputText
    && a.inputTokens == b.inputTokens && a.outputTokens == b.outputTokens && a.totalTokens == b.totalTokens
    && |a.output| == |b.output| && forall i :: 0 <= i < |a.output| ==> SameOutput(a.output[i], b.output[i])
  }

  predicate SameCall(a: ConversationCall, b: ConversationCall) {
    SameId(a.id, b.id) && a.kind == b.kind && a.name == b.name && a.arguments == b.arguments
  }

  predicate SameAssistant(a: Assistant, b: Assistant) {
    && a.content == b.content
    && |a.calls| == |b.calls| && forall i :: 0 <= i < |a.calls| ==> SameCall(a.calls[i], b.calls[i])
  }
}
