/**
 The guard that looks at the first bytes of an upstream stream before a key is settled on.  It
 cuts lines by its own scanner and inspects payloads as JSON trees, while the relay will cut and
 decode the same bytes in its own way.
 */
module StreamGuard {
  import opened Text
  import opened Chunks
  import opened ChunkJson
  import opened SseFraming
  import opened Relay
  import Claude = ClaudeStream
  import Gemini = GeminiStream
  import Responses = ResponsesStream
  import ResponsesObject

  // ---------- what counts as meaningful ----------

  /** valueHasMeaningfulDelta */
  predicate HasDelta(j: Json, skipRole: bool) {
    match j
    case Null => false
    case Str(s) => s != ""
    case Arr(items) => |items| > 0
    case Obj(fields) =>
      exists i :: 0 <= i < |fields| && Current(fields, i) && !(skipRole && fields[i].key == "role") &&
                  HasDelta(fields[i].value, false)
    case Bool(_) => true
    case Num(_) => true
  }

  /** Something that is neither null, nor empty, nor an object. */
  predicate Substantial(j: Json) {
    match j
    case Null => false
    case Obj(fields) => false
    case Str(s) => s != ""
    case Arr(items) => items != []
    case Bool(_) => true
    case Num(_) => true
  }

  /** A path of fields to something substantial; it may have to avoid a role at its first step. */
  ghost predicate LeadsTo(j: Json, path: seq<int>, skipRole: bool)
    decreases |path|
  {
    if path == [] then Substantial(j)
    else
      && j.Obj? && Current(j.fields, path[0]) && !(skipRole && j.fields[path[0]].key == "role")
      && LeadsTo(j.fields[path[0]].value, path[1..], false)
  }

  ghost predicate LeadsSomewhere(j: Json, skipRole: bool) {
    exists path :: LeadsTo(j, path, skipRole)
  }

  /** A delta is meaningful exactly if there is something substantial in it. */
  lemma {:induction false} HasDeltaMeaning(j: Json, skipRole: bool)
    ensures HasDelta(j, skipRole) <==> LeadsSomewhere(j, skipRole)
    decreases j
  {
    if j.Obj? {
      forall i | 0 <= i < |j.fields| && Current(j.fields, i)
        ensures HasDelta(j.fields[i].value, false) <==> LeadsSomewhere(j.fields[i].value, false)
      {
        HasDeltaMeaning(j.fields[i].value, false);
      }
      FieldsMeaning(j, skipRole);
    } else {
      assert Substantial(j) ==> LeadsTo(j, [], skipRole);
    }
  }

  lemma FieldsMeaning(j: Json, skipRole: bool)
    requires j.Obj?
    ensures LeadsSomewhere(j, skipRole) <==>
            exists i :: 0 <= i < |j.fields| && Current(j.fields, i) && !(skipRole && j.fields[i].key == "role") &&
                        LeadsSomewhere(j.fields[i].value, false)
  {
    if path :| LeadsTo(j, path, skipRole) {
      assert path != [] && LeadsTo(j.fields[path[0]].value, path[1..], false);
    }
    forall i |
      && 0 <= i < |j.fields| && Current(j.fields, i) && !(skipRole && j.fields[i].key == "role")
      && LeadsSomewhere(j.fields[i].value, false)
      ensures LeadsSomewhere(j, skipRole)
    {
      var path :| LeadsTo(j.fields[i].value, path, false);
      assert ([i] + path)[1..] == path;
      assert LeadsTo(j, [i] + path, skipRole);
    }
  }

  predicate ChoiceHasDelta(j: Json) {
    j.Obj? && (HasDelta(Lookup(j.fields, "message"), true) || HasDelta(Lookup(j.fields, "delta"), true))
  }

  /** The inspection of the JSON tree of a payload. */
  predicate TreeMeaningful(j: Json) {
    match j
    case Null => false
    case Obj(fields) =>
      HasKey(fields, "error") ||
      (Lookup(fields, "choices").Arr? &&
       exists i :: 0 <= i < |Lookup(fields, "choices").items| && ChoiceHasDelta(Lookup(fields, "choices").items[i]))
    case _ => true
  }

  /** A choice counts if its message or its delta leads to something besides a role. */
  ghost predicate CountsFor(j: Json) {
    j.Obj? && (LeadsSomewhere(Lookup(j.fields, "message"), true) || LeadsSomewhere(Lookup(j.fields, "delta"), true))
  }

  /** What makes a JSON object count: an error, or a list of choices one of which does. */
  lemma TreeMeaning(fields: seq<Field>)
    ensures TreeMeaningful(Obj(fields)) <==>
            || (exists i :: 0 <= i < |fields| && fields[i].key == "error")
            || (Lookup(fields, "choices").Arr? &&
                exists i :: 0 <= i < |Lookup(fields, "choices").items| && CountsFor(Lookup(fields, "choices").items[i]))
  {
    if Lookup(fields, "choices").Arr? {
      var items := Lookup(fields, "choices").items;
      forall i | 0 <= i < |items| ensures ChoiceHasDelta(items[i]) <==> CountsFor(items[i]) {
        ChoiceCounts(items[i]);
      }
    }
  }

  lemma ChoiceCounts(j: Json)
    ensures ChoiceHasDelta(j) <==> CountsFor(j)
  {
    if j.Obj? {
      HasDeltaMeaning(Lookup(j.fields, "message"), true);
      HasDeltaMeaning(Lookup(j.fields, "delta"), true);
    }
  }

  predicate ChunkMeaningful(chunk: Chunk) {
    exists i :: 0 <= i < |chunk.choices| && (chunk.choices[i].content != "" || HasMeaningfulCall(chunk.choices[i]))
  }

  /** openAIStreamPayloadHasMeaningfulDelta, for a trimmed payload */
  predicate PayloadMeaningful(unmarshal: string -> Option<Json>, payload: string) {
    payload != "" && payload != "[DONE]" &&
    match unmarshal(payload)
    case None => true
    case Some(j) => (DecodeChunk(j).Some? && ChunkMeaningful(DecodeChunk(j).value)) || TreeMeaningful(j)
  }

  predicate AnyMeaningful(unmarshal: string -> Option<Json>, payloads: seq<string>) {
    exists i :: 0 <= i < |payloads| && PayloadMeaningful(unmarshal, payloads[i])
  }

  // ---------- the scanner ----------

  /** The payloads that the guard sees: an unterminated last line stops it before it flushes. */
  function Seen(data: string): seq<string> {
    var p := Scan(NEW, data);
    if TrimNewlines(p.line) == "" then Flush(p).payloads else p.payloads
  }

  /** strings.Split(data, "\n") */
  function Split(data: string): (pieces: seq<string>)
    ensures pieces != []
  {
    if data == "" then [""]
    else
      var before, c := Split(data[..|data| - 1]), data[|data| - 1];
      if c == '\n' then before + [""] else before[|before| - 1 := before[|before| - 1] + [c]]
  }

  /** Taking the lines one by one is scanning the characters. */
  lemma {:induction false} SplitScans(data: string)
    ensures var pieces := Split(data);
      Scan(NEW, data) == TakeLines(NEW, pieces[..|pieces| - 1]).(line := pieces[|pieces| - 1])
  {
    if data != "" {
      var before, c := Split(data[..|data| - 1]), data[|data| - 1];
      SplitScans(data[..|data| - 1]);
      var done := before[..|before| - 1];
      if c == '\n' {
        assert (before + [""])[..|before|] == before;
        LinesKeepPartial(NEW, done);
      } else {
        assert Split(data)[..|before| - 1] == done;
      }
    }
  }

  lemma {:induction false} LinesKeepPartial(p: Parser, lines: seq<string>)
    ensures TakeLines(p, lines).line == p.line
  {
    if lines != [] {
      LinesKeepPartial(p, lines[..|lines| - 1]);
    }
  }

  method InspectPayload(unmarshal: string -> Option<Json>, dataLines: seq<string>, ghost p: Parser, meaningful: bool,
                        done: bool)
    returns (meaningful': bool, done': bool)
    requires p.pending == dataLines && Found(unmarshal, p.payloads, meaningful, done)
    ensures Found(unmarshal, Flush(p).payloads, meaningful', done')
  {
    meaningful', done' := meaningful, done;
    if |dataLines| == 0 {
      assert TrimSpace("") == "";
      return;
    }
    var payload := TrimSpace(JoinLines(dataLines));
    if payload == "" {
      return;
    }
    OneMorePayload(unmarshal, p.payloads, payload);
    if payload == "[DONE]" {
      done' := true;
      return;
    }
    if PayloadMeaningful(unmarshal, payload) {
      meaningful' := true;
    }
  }

  /** The flags say whether these payloads hold something meaningful, and whether [DONE] is among them. */
  ghost predicate Found(unmarshal: string -> Option<Json>, payloads: seq<string>, meaningful: bool, done: bool) {
    meaningful == AnyMeaningful(unmarshal, payloads) && done == ("[DONE]" in payloads)
  }

  lemma OneMorePayload(unmarshal: string -> Option<Json>, payloads: seq<string>, payload: string)
    ensures AnyMeaningful(unmarshal, payloads + [payload]) <==>
              AnyMeaningful(unmarshal, payloads) || PayloadMeaningful(unmarshal, payload)
  {
    var more := payloads + [payload];
    assert forall i :: 0 <= i < |payloads| ==> more[i] == payloads[i];
    assert more[|payloads|] == payload;
    if i :| 0 <= i < |payloads| && PayloadMeaningful(unmarshal, payloads[i]) {
      assert PayloadMeaningful(unmarshal, more[i]);
    }
  }

  method InspectLine(unmarshal: string -> Option<Json>, line: string, dataLines: seq<string>, ghost p: Parser,
                     meaningful: bool, done: bool)
    returns (dataLines': seq<string>, meaningful': bool, done': bool)
    requires p.pending == dataLines && Found(unmarshal, p.payloads, meaningful, done)
    ensures TakeLine(p, line).pending == dataLines' && Found(unmarshal, TakeLine(p, line).payloads, meaningful', done')
  {
    dataLines', meaningful', done' := dataLines, meaningful, done;
    var trimmed := TrimNewlines(line);
    if trimmed == "" {
      meaningful', done' := InspectPayload(unmarshal, dataLines, p, meaningful, done);
      dataLines' := [];
    } else if HasPrefix(trimmed, "data:") {
      dataLines' := dataLines + [TrimSpace(trimmed[5..])];
    }
  }

  /** The scanner has taken these lines. */
  ghost predicate InStep(unmarshal: string -> Option<Json>, lines: seq<string>, dataLines: seq<string>,
                         meaningful: bool, done: bool) {
    var p := TakeLines(NEW, lines);
    p.pending == dataLines && Found(unmarshal, p.payloads, meaningful, done)
  }

  lemma TakeOneMore(lines: seq<string>, i: nat)
    requires i < |lines|
    ensures TakeLines(NEW, lines[..i + 1]) == TakeLine(TakeLines(NEW, lines[..i]), lines[i])
  {
    assert lines[..i + 1][..i] == lines[..i];
  }

  /** The guard sees all lines if the last piece is empty, and all but the last piece otherwise. */
  lemma SeenLines(data: string)
    ensures var lines := Split(data);
      var n := |lines| - 1;
      && Seen(data) == TakeLines(NEW, if TrimNewlines(lines[n]) == "" then lines else lines[..n]).payloads
      && (data != "" && data[|data| - 1] == '\n' ==> lines[n] == "")
  {
    SplitScans(data);
    var lines := Split(data);
    TakeOneMore(lines, |lines| - 1);
    assert lines[..|lines|] == lines;
  }

  /**
   inspectOpenAIStreamPrefetch: whether the payloads that the guard sees hold anything meaningful,
   and whether [DONE] is among them.
   */
  method Inspect(unmarshal: string -> Option<Json>, data: string) returns (meaningful: bool, done: bool)
    ensures meaningful == AnyMeaningful(unmarshal, Seen(data))
    ensures done == ("[DONE]" in Seen(data))
  {
    if TrimSpace(data) == "" {
      BlankMeansTrimmedAway(data);
      BlankShowsNothing(data);
      return false, false;
    }
    SeenLines(data);
    meaningful, done := false, false;
    var dataLines := [];
    var lines := Split(data);
    for i := 0 to |lines|
      invariant InStep(unmarshal, lines[..i], dataLines, meaningful, done)
      invariant i == |lines| ==> TrimNewlines(lines[i - 1]) == ""
    {
      if i == |lines| - 1 && TrimNewlines(lines[i]) != "" && data[|data| - 1] != '\n' {
        return;
      }
      TakeOneMore(lines, i);
      dataLines, meaningful, done :=
          InspectLine(unmarshal, lines[i], dataLines, TakeLines(NEW, lines[..i]), meaningful, done);
    }
    assert lines[..|lines|] == lines;
  }

  /** White space shows the scanner nothing. */
  lemma {:induction false} BlankLines(data: string)
    requires Blank(data)
    ensures var p := Scan(NEW, data); p.pending == [] && p.payloads == [] && Blank(p.line)
  {
    if data != "" {
      var p := Scan(NEW, data[..|data| - 1]);
      BlankLines(data[..|data| - 1]);
      BlankLine(p.(line := ""), p.line);
    }
  }

  lemma {:induction false} TrimNewlinesPrefix(s: string)
    ensures TrimNewlines(s) <= s
  {
    if TrimNewlines(s) != s {
      TrimNewlinesPrefix(s[..|s| - 1]);
    }
  }

  lemma PrefixStarts(s: string, p: string)
    requires HasPrefix(s, p) && p != ""
    ensures s[0] == p[0]
  {
    assert s[..|p|][0] == s[0];
  }

  lemma BlankLine(p: Parser, line: string)
    requires p.pending == [] && Blank(line)
    ensures TakeLine(p, line) == p
  {
    TrimNewlinesPrefix(line);
    var trimmed := TrimNewlines(line);
    assert trimmed != "" ==> trimmed[0] == line[0] && IsSpace(line[0]);
    if HasPrefix(trimmed, "data:") {
      PrefixStarts(trimmed, "data:");
    }
  }

  lemma BlankShowsNothing(data: string)
    requires Blank(data)
    ensures Seen(data) == []
  {
    BlankLines(data);
  }

  // ---------- the guard and the relay cut the same payloads ----------

  /** What an unterminated last line leaves pending at the end of the input. */
  function Residue(data: string): string {
    var p := Scan(NEW, data);
    if TrimNewlines(p.line) == "" then "" else TrimSpace(JoinLines(TakeLine(p.(line := ""), p.line).pending))
  }

  /**
   The guard sees exactly the payloads that the relay dispatches, unless an unterminated last
   line leaves something pending; then it misses exactly that payload.
   */
  lemma CutAlike(data: string)
    ensures Parse(data) == Seen(data) + (if Residue(data) == "" then [] else [Residue(data)])
    ensures Parse(data) == Seen(data) <==> Residue(data) == ""
  {
    var p := Scan(NEW, data);
    var q := p.(line := "");
    assert TrimSpace(JoinLines([])) == "";
    if TrimNewlines(p.line) == "" {
      assert Flush(Flush(q)).payloads == Flush(q).payloads;
    }
  }

  /** In particular on every input that ends with a newline. */
  lemma TerminatedCutAlike(data: string)
    requires data != "" && data[|data| - 1] == '\n'
    ensures Parse(data) == Seen(data)
  {
    SeenLines(data);
    SplitScans(data);
    CutAlike(data);
  }

  /** A last line without a newline escapes the guard, yet the relay dispatches it. */
  lemma UnterminatedLineEscapes()
    ensures Seen("data: x") == [] && Parse("data: x") == ["x"]
  {
    var data := "data: x";
    ScanText(NEW, data);
    assert "" + data == data;
    assert data[|data| - 1] == 'x' && TrimNewlines(data) == data;
    assert data[..5] == "data:" && data[5..] == " " + "x";
    TrimPrepended("x");
    assert Residue(data) == TrimSpace("x") by {
      assert [] + ["x"] == ["x"];
    }
    TrimmedIsFixed("x");
    CutAlike(data);
    AppendNothing(Seen(data));
  }

  // ---------- a verdict of "nothing meaningful" is sound ----------

  predicate SilentChoice(c: Choice) {
    c.content == "" && c.toolCalls == []
  }

  predicate SilentChoices(cs: seq<Choice>) {
    forall i :: 0 <= i < |cs| ==> SilentChoice(cs[i])
  }

  predicate SilentOp(op: Op) {
    op.Feed? ==> SilentChoices(op.chunk.choices)
  }

  predicate SilentOps(ops: seq<Op>) {
    forall i :: 0 <= i < |ops| ==> SilentOp(ops[i])
  }

  /** A field of a delta without meaning has no meaning either. */
  lemma FieldHasNoDelta(fields: seq<Field>, key: string)
    requires !HasDelta(Obj(fields), true) && key != "role"
    ensures !HasDelta(Lookup(fields, key), false)
  {
    LookupIsField(fields, key);
  }

  lemma {:induction false} ToolCallsDecoded(items: seq<Json>)
    requires DecodeToolCalls(items).Some?
    ensures |DecodeToolCalls(items).value| == |items|
  {
    if items != [] {
      ToolCallsDecoded(items[..|items| - 1]);
    }
  }

  lemma ChoiceDecodesSilent(j: Json)
    requires !ChoiceHasDelta(j) && DecodeChoice(j).Some?
    ensures SilentChoice(DecodeChoice(j).value)
  {
    var f := DecodeFields(j).value;
    var d := DecodeFields(Lookup(f, "delta")).value;
    if j.Obj? && Lookup(f, "delta").Obj? {
      FieldHasNoDelta(d, "content");
      FieldHasNoDelta(d, "tool_calls");
    }
    ToolCallsDecoded(DecodeItems(Lookup(d, "tool_calls")).value);
  }

  lemma {:induction false} ChoicesDecodeSilent(items: seq<Json>)
    requires DecodeChoices(items).Some? && forall i :: 0 <= i < |items| ==> !ChoiceHasDelta(items[i])
    ensures SilentChoices(DecodeChoices(items).value)
  {
    if items != [] {
      ChoicesDecodeSilent(items[..|items| - 1]);
      ChoiceDecodesSilent(items[|items| - 1]);
    }
  }

  lemma TreeDecodesSilent(j: Json)
    requires !TreeMeaningful(j) && DecodeChunk(j).Some?
    ensures SilentChoices(DecodeChunk(j).value.choices)
  {
    var f := DecodeFields(j).value;
    ChoicesDecodeSilent(DecodeItems(Lookup(f, "choices")).value);
  }

  // ---------- the verdict on single payloads ----------

  /** What is not a JSON object, and what reports an error, is left to the relay. */
  lemma SurfacedPayload(unmarshal: string -> Option<Json>, payload: string)
    requires payload != "" && payload != "[DONE]"
    requires match unmarshal(payload)
      case None => true
      case Some(j) => j != Null && (j.Obj? ==> exists i :: 0 <= i < |j.fields| && j.fields[i].key == "error")
    ensures PayloadMeaningful(unmarshal, payload)
  {
  }

  lemma {:induction false} CallsEncoded(calls: seq<ToolCall>)
    ensures |EncodeToolCalls(calls)| == |calls|
  {
    if calls != [] {
      CallsEncoded(calls[..|calls| - 1]);
    }
  }

  lemma DeltaEncodedSpeaks(c: Choice)
    ensures HasDelta(Obj(EncodeDelta(c)), true) <==> !SilentChoice(c)
  {
    var delta := EncodeDelta(c);
    CallsEncoded(c.toolCalls);
    assert delta[0].key == "role" && delta[1].key == "content" && delta[2].key == "tool_calls";
    assert HasDelta(delta[1].value, false) <==> c.content != "";
    assert HasDelta(delta[2].value, false) <==> c.toolCalls != [];
    assert Current(delta, 1) && Current(delta, 2);
  }

  lemma ChoiceEncodedSpeaks(c: Choice)
    ensures ChoiceHasDelta(EncodeChoice(c)) <==> !SilentChoice(c)
  {
    ChoiceFields(c, "message");
    ChoiceFields(c, "delta");
    DifferentKeys();
    DeltaEncodedSpeaks(c);
  }

  lemma {:induction false} ChoicesEncodedSpeak(choices: seq<Choice>)
    ensures AnySpeaks(EncodeChoices(choices)) <==> !SilentChoices(choices)
  {
    if choices != [] {
      var before, last := choices[..|choices| - 1], choices[|choices| - 1];
      ChoicesEncodedSpeak(before);
      ChoiceEncodedSpeaks(last);
      OneMoreChoice(EncodeChoices(before), EncodeChoice(last));
      assert SilentChoices(choices) <==> SilentChoices(before) && SilentChoice(last);
    }
  }

  ghost predicate AnySpeaks(items: seq<Json>) {
    exists i :: 0 <= i < |items| && ChoiceHasDelta(items[i])
  }

  lemma OneMoreChoice(items: seq<Json>, last: Json)
    ensures AnySpeaks(items + [last]) <==> AnySpeaks(items) || ChoiceHasDelta(last)
  {
    var more := items + [last];
    assert more[|items|] == last;
    if i :| 0 <= i < |items| && ChoiceHasDelta(items[i]) {
      assert ChoiceHasDelta(more[i]);
    }
  }

  lemma NoErrorEncoded(c: Chunk, usage: Json)
    ensures !HasKey(EncodeChunk(c, usage).fields, "error")
  {
    assert "error"[0] == 'e' && "model"[0] == 'm' && "usage"[0] == 'u';
  }

  lemma TreeEncodedSpeaks(c: Chunk, usage: Json)
    ensures TreeMeaningful(EncodeChunk(c, usage)) <==> !SilentChoices(c.choices)
  {
    ChunkFields(c, usage, "choices");
    DifferentKeys();
    NoErrorEncoded(c, usage);
    ChoicesEncodedSpeak(c.choices);
  }

  /** A chunk as an upstream writes it counts exactly if one of its choices has text or a tool call fragment. */
  lemma EncodedVerdict(unmarshal: string -> Option<Json>, payload: string, c: Chunk, usage: Json)
    requires payload != "" && payload != "[DONE]" && unmarshal(payload) == Some(EncodeChunk(c, usage))
    requires DecodeUsage(usage) == Some(c.usage)
    ensures PayloadMeaningful(unmarshal, payload) <==>
            exists i :: 0 <= i < |c.choices| && (c.choices[i].content != "" || c.choices[i].toolCalls != [])
  {
    ChunkRoundTrip(c, usage);
    TreeEncodedSpeaks(c, usage);
    assert ChunkMeaningful(c) ==> !SilentChoices(c.choices);
  }

  /** json.Unmarshal into a chunk: parse, then decode. */
  function DecoderOf(unmarshal: string -> Option<Json>): Decoder {
    payload => match unmarshal(payload)
      case None => None
      case Some(j) => DecodeChunk(j)
  }

  lemma PayloadDecodesSilent(unmarshal: string -> Option<Json>, payload: string)
    requires payload != "" && payload != "[DONE]" && !PayloadMeaningful(unmarshal, payload)
    requires DecoderOf(unmarshal)(payload).Some?
    ensures SilentChoices(DecoderOf(unmarshal)(payload).value.choices)
  {
    TreeDecodesSilent(unmarshal(payload).value);
  }

  lemma {:induction false} SilentDispatch(unmarshal: string -> Option<Json>, payloads: seq<string>)
    requires AllDispatchable(payloads) && !AnyMeaningful(unmarshal, payloads)
    ensures SilentOps(Dispatch(DecoderOf(unmarshal), payloads).ops)
  {
    if payloads != [] {
      var n := |payloads| - 1;
      assert payloads == payloads[..n] + [payloads[n]];
      OneMorePayload(unmarshal, payloads[..n], payloads[n]);
      SilentDispatch(unmarshal, payloads[..n]);
      assert Dispatchable(payloads[n]);
      if payloads[n] != "[DONE]" && DecoderOf(unmarshal)(payloads[n]).Some? {
        PayloadDecodesSilent(unmarshal, payloads[n]);
      }
    }
  }

  lemma SilentResult(unmarshal: string -> Option<Json>, data: string, ending: Ending)
    requires !AnyMeaningful(unmarshal, Parse(data))
    ensures SilentOps(Result(DecoderOf(unmarshal), data, ending).ops)
  {
    var p := LastLine(Scan(NEW, data));
    ParseDispatches(data);
    SilentDispatch(unmarshal, Parse(data));
    LineExtends(p, "");
    assert AllDispatchable(p.payloads) by {
      assert forall i :: 0 <= i < |p.payloads| ==> p.payloads[i] == Parse(data)[..|p.payloads|][i];
      assert forall i :: 0 <= i < |Parse(data)| ==> Dispatchable(Parse(data)[i]);
    }
    SilentDispatch(unmarshal, p.payloads);
  }

  // ---------- what silent operations do to the translators ----------

  lemma {:induction false} ClaudeSilentChoices(s: Claude.State, cs: seq<Choice>)
    requires Claude.Untouched(s) && SilentChoices(cs)
    ensures Claude.Untouched(Claude.ConsumeChoices(s, cs))
  {
    if cs != [] {
      ClaudeSilentChoices(s, cs[..|cs| - 1]);
      assert SilentChoice(cs[|cs| - 1]);
    }
  }

  lemma {:induction false} ClaudeSilent(s: Claude.State, ops: seq<Op>)
    requires Claude.Untouched(s) && SilentOps(ops)
    ensures Claude.Untouched(Claude.Run(s, ops))
  {
    if ops != [] {
      var op := ops[|ops| - 1];
      ClaudeSilent(s, ops[..|ops| - 1]);
      assert SilentOp(op);
      if op.Feed? {
        var t := Claude.Run(s, ops[..|ops| - 1]);
        ClaudeSilentChoices(t.(header := Claude.NoteChunk(t.header, op.chunk)), op.chunk.choices);
      }
    }
  }

  ghost predicate GeminiUntouched(s: Gemini.State) {
    !s.started && !s.hasContent && s.out == []
  }

  lemma {:induction false} GeminiSilentChoices(s: Gemini.State, cs: seq<Choice>)
    requires GeminiUntouched(s) && SilentChoices(cs)
    ensures GeminiUntouched(Gemini.ConsumeChoices(s, cs))
  {
    if cs != [] {
      GeminiSilentChoices(s, cs[..|cs| - 1]);
      assert SilentChoice(cs[|cs| - 1]);
    }
  }

  lemma {:induction false} GeminiSilent(s: Gemini.State, ops: seq<Op>)
    requires GeminiUntouched(s) && SilentOps(ops)
    ensures GeminiUntouched(Gemini.Run(s, ops))
  {
    if ops != [] {
      var op := ops[|ops| - 1];
      GeminiSilent(s, ops[..|ops| - 1]);
      assert SilentOp(op);
      if op.Feed? {
        GeminiSilentChoices(Gemini.NoteChunk(Gemini.Run(s, ops[..|ops| - 1]), op.chunk), op.chunk.choices);
      }
    }
  }

  ghost predicate ResponsesUntouched(s: Responses.State) {
    !s.started && !s.hasContent && s.out == []
  }

  lemma {:induction false} ResponsesSilentChoices(s: Responses.State, cs: seq<Choice>)
    requires ResponsesUntouched(s) && SilentChoices(cs)
    ensures ResponsesUntouched(Responses.ConsumeChoices(s, cs))
  {
    if cs != [] {
      ResponsesSilentChoices(s, cs[..|cs| - 1]);
      assert SilentChoice(cs[|cs| - 1]);
    }
  }

  lemma {:induction false} ResponsesSilent(codec: ResponsesObject.Codec, s: Responses.State, ops: seq<Op>)
    requires ResponsesUntouched(s) && SilentOps(ops)
    ensures ResponsesUntouched(Responses.Run(codec, s, ops))
  {
    if ops != [] {
      var op := ops[|ops| - 1];
      ResponsesSilent(codec, s, ops[..|ops| - 1]);
      assert SilentOp(op);
      if op.Feed? {
        ResponsesSilentChoices(Responses.NoteChunk(Responses.Run(codec, s, ops[..|ops| - 1]), op.chunk),
                               op.chunk.choices);
      }
    }
  }

  /**
   The verdict is sound: when the guard finds nothing meaningful in bytes that end with a newline,
   then relaying those bytes makes none of the three translators emit anything, and each of them
   reports that it has neither started nor seen content.
   */
  lemma VerdictIsSound(unmarshal: string -> Option<Json>, data: string, ending: Ending, model: string,
                       fallbackID: string,
                       codec: ResponsesObject.Codec)
    requires data != "" && data[|data| - 1] == '\n' && !AnyMeaningful(unmarshal, Seen(data))
    ensures var ops := Result(DecoderOf(unmarshal), data, ending).ops;
      && Claude.Untouched(Claude.Run(Claude.Init(model, fallbackID), ops))
      && GeminiUntouched(Gemini.Run(Gemini.Init(model), ops))
      && ResponsesUntouched(Responses.Run(codec, Responses.Init(model), ops))
  {
    TerminatedCutAlike(data);
    SilentResult(unmarshal, data, ending);
    var ops := Result(DecoderOf(unmarshal), data, ending).ops;
    ClaudeSilent(Claude.Init(model, fallbackID), ops);
    GeminiSilent(Gemini.Init(model), ops);
    ResponsesSilent(codec, Responses.Init(model), ops);
  }
}
