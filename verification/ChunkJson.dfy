/** JSON values, and how json.Unmarshal makes a chunk of one. */
module ChunkJson {
  import opened Text
  import opened Chunks

  /** A JSON value; numbers are whole, object keys are compared exactly. */
  datatype Json = Null | Bool(b: bool) | Num(n: int) | Str(s: string) | Arr(items: seq<Json>) | Obj(fields: seq<Field>)

  datatype Field = Field(key: string, value: Json)

  /** The value of a key; a key that is absent reads as null, as a nil interface does. */
  function Lookup(fields: seq<Field>, key: string): Json {
    if fields == [] then Null
    else if fields[|fields| - 1].key == key then fields[|fields| - 1].value
    else Lookup(fields[..|fields| - 1], key)
  }

  /** The field that counts for its key: the last one. */
  predicate Current(fields: seq<Field>, i: int) {
    0 <= i < |fields| && forall k :: i < k < |fields| ==> fields[k].key != fields[i].key
  }

  lemma {:induction false} LookupIsField(fields: seq<Field>, key: string)
    ensures Lookup(fields, key) == Null ||
            exists i :: Current(fields, i) && fields[i].key == key && fields[i].value == Lookup(fields, key)
  {
    if fields != [] {
      var n := |fields| - 1;
      if fields[n].key == key {
        assert Current(fields, n);
      } else {
        LookupIsField(fields[..n], key);
        if i :| Current(fields[..n], i) && fields[i].key == key && fields[i].value == Lookup(fields[..n], key) {
          assert forall k :: i < k < n ==> fields[..n][k] == fields[k];
          assert Current(fields, i);
        }
      }
    }
  }

  predicate HasKey(fields: seq<Field>, key: string) {
    exists i :: 0 <= i < |fields| && fields[i].key == key
  }

  // ---------- decoding into a chunk; None is a type error ----------

  function DecodeString(j: Json): Option<string> {
    match j
    case Null => Some("")
    case Str(s) => Some(s)
    case _ => None
  }

  function DecodeInt(j: Json): Option<int> {
    match j
    case Null => Some(0)
    case Num(n) => Some(n)
    case _ => None
  }

  /** null leaves a struct as it is: an object without fields. */
  function DecodeFields(j: Json): Option<seq<Field>> {
    match j
    case Null => Some([])
    case Obj(fields) => Some(fields)
    case _ => None
  }

  function DecodeItems(j: Json): Option<seq<Json>> {
    match j
    case Null => Some([])
    case Arr(items) => Some(items)
    case _ => None
  }

  function DecodeToolCall(j: Json): Option<ToolCall> {
    match DecodeFields(j)
    case None => None
    case Some(f) =>
      var index, id, kind := DecodeInt(Lookup(f, "index")), DecodeString(Lookup(f, "id")),
          DecodeString(Lookup(f, "type"));
      match DecodeFields(Lookup(f, "function"))
      case None => None
      case Some(g) =>
        var name, arguments := DecodeString(Lookup(g, "name")), DecodeString(Lookup(g, "arguments"));
        if index.Some? && id.Some? && kind.Some? && name.Some? && arguments.Some?
        then Some(ToolCall(index.value, id.value, kind.value, name.value, arguments.value))
        else None
  }

  function DecodeToolCalls(items: seq<Json>): Option<seq<ToolCall>> {
    if items == [] then Some([])
    else
      var before, last := DecodeToolCalls(items[..|items| - 1]), DecodeToolCall(items[|items| - 1]);
      if before.Some? && last.Some? then Some(before.value + [last.value]) else None
  }

  function DecodeChoice(j: Json): Option<Choice> {
    match DecodeFields(j)
    case None => None
    case Some(f) =>
      var index, reason := DecodeInt(Lookup(f, "index")), DecodeString(Lookup(f, "finish_reason"));
      match DecodeFields(Lookup(f, "delta"))
      case None => None
      case Some(d) =>
        var role, content, items := DecodeString(Lookup(d, "role")), DecodeString(Lookup(d, "content")),
            DecodeItems(Lookup(d, "tool_calls"));
        if index.Some? && reason.Some? && role.Some? && content.Some? && items.Some?
           && DecodeToolCalls(items.value).Some?
        then Some(Choice(content.value, DecodeToolCalls(items.value).value, reason.value))
        else None
  }

  function DecodeChoices(items: seq<Json>): Option<seq<Choice>> {
    if items == [] then Some([])
    else
      var before, last := DecodeChoices(items[..|items| - 1]), DecodeChoice(items[|items| - 1]);
      if before.Some? && last.Some? then Some(before.value + [last.value]) else None
  }

  /** The counts in a usage object; values that are not numbers are not modelled. */
  function Counts(fields: seq<Field>): Usage {
    if fields == [] then map[]
    else
      var before, last := Counts(fields[..|fields| - 1]), fields[|fields| - 1];
      if last.value.Num? then before[last.key := last.value.n] else before - {last.key}
  }

  function DecodeUsage(j: Json): Option<Option<Usage>> {
    match j
    case Null => Some(None)
    case Obj(fields) => Some(Some(Counts(fields)))
    case _ => None
  }

  function DecodeChunk(j: Json): Option<Chunk> {
    match DecodeFields(j)
    case None => None
    case Some(f) =>
      var id, model, usage := DecodeString(Lookup(f, "id")), DecodeString(Lookup(f, "model")),
          DecodeUsage(Lookup(f, "usage"));
      match DecodeItems(Lookup(f, "choices"))
      case None => None
      case Some(items) =>
        var choices := DecodeChoices(items);
        if id.Some? && model.Some? && usage.Some? && choices.Some?
        then Some(Chunk(id.value, model.value, choices.value, usage.value))
        else None
  }

  // ---------- chunks as JSON ----------

  /** A chunk as an upstream writes it; its usage is passed as JSON. */
  function EncodeChunk(c: Chunk, usage: Json): Json {
    Obj([Field("id", Str(c.id)), Field("model", Str(c.model)), Field("choices", Arr(EncodeChoices(c.choices))),
         Field("usage", usage)])
  }

  function EncodeChoices(choices: seq<Choice>): seq<Json> {
    if choices == [] then [] else EncodeChoices(choices[..|choices| - 1]) + [EncodeChoice(choices[|choices| - 1])]
  }

  function EncodeChoice(c: Choice): Json {
    Obj([Field("index", Num(0)), Field("delta", Obj(EncodeDelta(c))), Field("finish_reason", Str(c.finishReason))])
  }

  function EncodeDelta(c: Choice): seq<Field> {
    [Field("role", Str("assistant")), Field("content", Str(c.content)),
     Field("tool_calls", Arr(EncodeToolCalls(c.toolCalls)))]
  }

  function EncodeToolCalls(calls: seq<ToolCall>): seq<Json> {
    if calls == [] then [] else EncodeToolCalls(calls[..|calls| - 1]) + [EncodeToolCall(calls[|calls| - 1])]
  }

  function EncodeToolCall(tc: ToolCall): Json {
    Obj([Field("index", Num(tc.index)), Field("id", Str(tc.id)), Field("type", Str(tc.kind)),
         Field("function", Obj([Field("name", Str(tc.name)), Field("arguments", Str(tc.arguments))]))])
  }

  lemma LookupLast(fields: seq<Field>, last: Field, key: string)
    ensures Lookup(fields + [last], key) == if last.key == key then last.value else Lookup(fields, key)
  {
    assert (fields + [last])[..|fields|] == fields;
  }

  lemma LookupOfTwo(a: Field, b: Field, key: string)
    ensures Lookup([a, b], key) == if b.key == key then b.value else if a.key == key then a.value else Null
  {
    assert [a, b] == [a] + [b] && [a] == [] + [a];
    LookupLast([a], b, key);
    LookupLast([], a, key);
  }

  lemma LookupOfThree(a: Field, b: Field, c: Field, key: string)
    ensures Lookup([a, b, c], key) == if c.key == key then c.value else Lookup([a, b], key)
  {
    assert [a, b, c] == [a, b] + [c];
    LookupLast([a, b], c, key);
  }

  lemma LookupOfFour(a: Field, b: Field, c: Field, d: Field, key: string)
    ensures Lookup([a, b, c, d], key) == if d.key == key then d.value else Lookup([a, b, c], key)
  {
    assert [a, b, c, d] == [a, b, c] + [d];
    LookupLast([a, b, c], d, key);
  }

  lemma ToolCallRoundTrip(tc: ToolCall)
    ensures DecodeToolCall(EncodeToolCall(tc)) == Some(tc)
  {
    var f := EncodeToolCall(tc).fields;
    var name, arguments := Field("name", Str(tc.name)), Field("arguments", Str(tc.arguments));
    var g := Obj([name, arguments]);
    var index, id, kind := Field("index", Num(tc.index)), Field("id", Str(tc.id)), Field("type", Str(tc.kind));
    forall key: string
      ensures Lookup(f, key) == if key == "function" then g else if key == "type" then Str(tc.kind)
              else if key == "id" then Str(tc.id) else if key == "index" then Num(tc.index) else Null
      ensures Lookup(g.fields, key) ==
              if key == "arguments" then Str(tc.arguments) else if key == "name" then Str(tc.name) else Null
    {
      LookupOfFour(index, id, kind, Field("function", g), key);
      LookupOfThree(index, id, kind, key);
      LookupOfTwo(index, id, key);
      LookupOfTwo(name, arguments, key);
    }
  }

  lemma {:induction false} ToolCallsRoundTrip(calls: seq<ToolCall>)
    ensures DecodeToolCalls(EncodeToolCalls(calls)) == Some(calls)
  {
    if calls != [] {
      var before, last := calls[..|calls| - 1], calls[|calls| - 1];
      ToolCallsRoundTrip(before);
      ToolCallRoundTrip(last);
      assert (EncodeToolCalls(before) + [EncodeToolCall(last)])[..|EncodeToolCalls(before)|] == EncodeToolCalls(before);
      assert before + [last] == calls;
    }
  }

  lemma DeltaFields(c: Choice, key: string)
    ensures Lookup(EncodeDelta(c), key) == if key == "tool_calls" then Arr(EncodeToolCalls(c.toolCalls))
            else if key == "content" then Str(c.content) else if key == "role" then Str("assistant") else Null
  {
    var role, content := Field("role", Str("assistant")), Field("content", Str(c.content));
    LookupOfThree(role, content, Field("tool_calls", Arr(EncodeToolCalls(c.toolCalls))), key);
    LookupOfTwo(role, content, key);
  }

  lemma ChoiceFields(c: Choice, key: string)
    ensures Lookup(EncodeChoice(c).fields, key) == if key == "finish_reason" then Str(c.finishReason)
            else if key == "delta" then Obj(EncodeDelta(c)) else if key == "index" then Num(0) else Null
  {
    var index, delta := Field("index", Num(0)), Field("delta", Obj(EncodeDelta(c)));
    LookupOfThree(index, delta, Field("finish_reason", Str(c.finishReason)), key);
    LookupOfTwo(index, delta, key);
  }

  lemma DifferentKeys()
    ensures "index" != "delta" && "content" != "tool_calls" && "id" != "model" && "usage" != "model"
    ensures "choices" != "message" && "delta" != "message"
  {
    assert "index"[0] == 'i' && "delta"[0] == 'd' && "usage"[0] == 'u' && "model"[0] == 'm';
    assert "choices"[0] == 'c' && "message"[0] == 'm';
  }

  lemma ChoiceRoundTrip(c: Choice)
    ensures DecodeChoice(EncodeChoice(c)) == Some(c)
  {
    DifferentKeys();
    ChoiceFields(c, "index");
    ChoiceFields(c, "finish_reason");
    ChoiceFields(c, "delta");
    DeltaFields(c, "role");
    DeltaFields(c, "content");
    DeltaFields(c, "tool_calls");
    ToolCallsRoundTrip(c.toolCalls);
  }

  lemma {:induction false} ChoicesRoundTrip(choices: seq<Choice>)
    ensures DecodeChoices(EncodeChoices(choices)) == Some(choices)
  {
    if choices != [] {
      var before, last := choices[..|choices| - 1], choices[|choices| - 1];
      ChoicesRoundTrip(before);
      ChoiceRoundTrip(last);
      assert (EncodeChoices(before) + [EncodeChoice(last)])[..|EncodeChoices(before)|] == EncodeChoices(before);
      assert before + [last] == choices;
    }
  }

  lemma ChunkFields(c: Chunk, usage: Json, key: string)
    ensures Lookup(EncodeChunk(c, usage).fields, key) == if key == "usage" then usage
            else if key == "choices" then Arr(EncodeChoices(c.choices)) else if key == "model" then Str(c.model)
            else if key == "id" then Str(c.id) else Null
  {
    var id, model := Field("id", Str(c.id)), Field("model", Str(c.model));
    var choices := Field("choices", Arr(EncodeChoices(c.choices)));
    LookupOfFour(id, model, choices, Field("usage", usage), key);
    LookupOfThree(id, model, choices, key);
    LookupOfTwo(id, model, key);
  }

  /** Decoding undoes encoding: every field of a chunk is read from where an upstream writes it. */
  lemma ChunkRoundTrip(c: Chunk, usage: Json)
    requires DecodeUsage(usage) == Some(c.usage)
    ensures DecodeChunk(EncodeChunk(c, usage)) == Some(c)
  {
    DifferentKeys();
    ChunkFields(c, usage, "id");
    ChunkFields(c, usage, "model");
    ChunkFields(c, usage, "choices");
    ChunkFields(c, usage, "usage");
    ChoicesRoundTrip(c.choices);
  }

  /** A usage reports what the last field of a key says. */
  lemma {:induction false} UsageReports(fields: seq<Field>, key: string)
    ensures DecodeUsage(Obj(fields)).Some? && DecodeUsage(Obj(fields)).value.Some?
    ensures var n := LookupUsage(DecodeUsage(Obj(fields)).value.value, key);
      n == if Lookup(fields, key).Num? then Lookup(fields, key).n else 0
  {
    if fields != [] {
      UsageReports(fields[..|fields| - 1], key);
    }
  }
}
