/**
 What a translator reports when the relay returns, and what that says about the events it has sent.
 The retry loops take a report of an empty stream for leave to try another key.
 */
module StreamReports {
  import opened Text
  import opened Chunks
  import opened Relay
  import opened ResponsesObject
  import opened Sorting
  import Claude = ClaudeStream
  import Gemini = GeminiStream
  import Responses = ResponsesStream

  /** What the translator of an attempt has done when the relay returns; `failed` says that a payload did not decode. */
  datatype Report = Report(started: bool, hasContent: bool, events: nat, failed: bool)

  /** A fresh translator. */
  datatype Protocol =
    | ClaudeProtocol(model: string, fallbackID: string)
    | GeminiProtocol(model: string)
    | ResponsesProtocol(codec: Codec, model: string)

  function ReportOf(p: Protocol, r: Relayed): Report {
    match p
    case ClaudeProtocol(model, fallbackID) =>
      var t := Claude.Run(Claude.Init(model, fallbackID), r.ops);
      Report(t.started, t.hasContent, |t.out|, r.failed)
    case GeminiProtocol(model) =>
      var t := Gemini.Run(Gemini.Init(model), r.ops);
      Report(t.started, t.hasContent, |t.out|, r.failed)
    case ResponsesProtocol(codec, model) =>
      var t := Responses.Run(codec, Responses.Init(model), r.ops);
      Report(t.started, t.hasContent, |t.out|, r.failed)
  }

  /** errStreamEmptyContent */
  predicate ReportsEmpty(r: Report) {
    !r.failed && !r.hasContent && !r.started
  }

  // ---------- Claude ----------

  /** The translator has started exactly if it has sent something, and content makes it start. */
  ghost predicate ClaudeCandid(s: Claude.State) {
    (s.started <==> s.out != []) && (s.hasContent ==> s.started)
  }

  lemma {:induction false} ClaudeToolsCandid(s: Claude.State, calls: seq<ToolCall>)
    requires ClaudeCandid(s) && s.started
    ensures ClaudeCandid(Claude.ConsumeTools(s, calls))
  {
    if calls != [] {
      var t := Claude.ConsumeTools(s, calls[..|calls| - 1]);
      ClaudeToolsCandid(s, calls[..|calls| - 1]);
      ClaudeToolsStayStarted(s, calls[..|calls| - 1]);
      Claude.ToolFollows(t, calls[|calls| - 1]);
    }
  }

  lemma {:induction false} ClaudeToolsStayStarted(s: Claude.State, calls: seq<ToolCall>)
    requires s.started
    ensures Claude.ConsumeTools(s, calls).started
  {
    if calls != [] {
      ClaudeToolsStayStarted(s, calls[..|calls| - 1]);
    }
  }

  lemma ClaudeChoiceCandid(s: Claude.State, c: Choice)
    requires ClaudeCandid(s)
    ensures ClaudeCandid(Claude.ConsumeChoice(s, c))
  {
    var t := Claude.ConsumeText(s, c.content);
    assert ClaudeCandid(t);
    if HasMeaningfulCall(c) {
      ClaudeToolsCandid(Claude.CloseTextBlock(Claude.EnsureStarted(t.(hasContent := true))), c.toolCalls);
    }
  }

  lemma {:induction false} ClaudeChoicesCandid(s: Claude.State, cs: seq<Choice>)
    requires ClaudeCandid(s)
    ensures ClaudeCandid(Claude.ConsumeChoices(s, cs))
  {
    if cs != [] {
      ClaudeChoicesCandid(s, cs[..|cs| - 1]);
      ClaudeChoiceCandid(Claude.ConsumeChoices(s, cs[..|cs| - 1]), cs[|cs| - 1]);
    }
  }

  lemma {:induction false} ClaudeCloseCandid(s: Claude.State, n: nat)
    requires ClaudeCandid(s) && s.started && n <= |s.toolBlockKeys|
    ensures ClaudeCandid(Claude.CloseTools(s, n)) && Claude.CloseTools(s, n).started
  {
    if n > 0 {
      ClaudeCloseCandid(s, n - 1);
    }
  }

  lemma {:induction false} ClaudeRunCandid(s: Claude.State, ops: seq<Op>)
    requires ClaudeCandid(s)
    ensures ClaudeCandid(Claude.Run(s, ops))
  {
    if ops != [] {
      var t, op := Claude.Run(s, ops[..|ops| - 1]), ops[|ops| - 1];
      ClaudeRunCandid(s, ops[..|ops| - 1]);
      match op
      case Feed(chunk) => ClaudeChoicesCandid(t.(header := Claude.NoteChunk(t.header, chunk)), chunk.choices);
      case End =>
        if !t.finished && (t.hasContent || t.started) {
          var u := Claude.CloseTextBlock(Claude.EnsureStarted(t));
          ClaudeCloseCandid(u, |u.toolBlockKeys|);
        }
    }
  }

  // ---------- Responses ----------

  ghost predicate ResponsesCandid(s: Responses.State) {
    (s.started <==> s.out != []) && (s.hasContent ==> s.started) && forall k :: k in s.calls ==> s.started
  }

  lemma ResponsesToolCandid(s: Responses.State, tc: ToolCall)
    requires ResponsesCandid(s)
    ensures ResponsesCandid(Responses.ConsumeTool(s, tc))
  {
    var t := s.(hasContent := s.hasContent || Meaningful(tc));
    ResponsesCallOpened(t, tc);
    ResponsesArgumentsCandid(Responses.OpenCall(t, tc), tc);
  }

  lemma ResponsesArgumentsCandid(s: Responses.State, tc: ToolCall)
    requires s.started && s.out != [] && tc.index in s.calls
    ensures ResponsesCandid(Responses.AddArguments(s, tc))
  {
  }

  lemma ResponsesCallOpened(s: Responses.State, tc: ToolCall)
    requires (s.started <==> s.out != []) && forall k :: k in s.calls ==> s.started
    ensures Responses.OpenCall(s, tc).started && Responses.OpenCall(s, tc).out != []
  {
  }

  lemma {:induction false} ResponsesToolsCandid(s: Responses.State, calls: seq<ToolCall>)
    requires ResponsesCandid(s)
    ensures ResponsesCandid(Responses.ConsumeTools(s, calls))
  {
    if calls != [] {
      ResponsesToolsCandid(s, calls[..|calls| - 1]);
      ResponsesToolCandid(Responses.ConsumeTools(s, calls[..|calls| - 1]), calls[|calls| - 1]);
    }
  }

  lemma ResponsesTextCandid(s: Responses.State, content: string)
    requires ResponsesCandid(s)
    ensures ResponsesCandid(Responses.ConsumeText(s, content))
  {
  }

  lemma {:induction false} ResponsesChoicesCandid(s: Responses.State, cs: seq<Choice>)
    requires ResponsesCandid(s)
    ensures ResponsesCandid(Responses.ConsumeChoices(s, cs))
  {
    if cs != [] {
      var t, c := Responses.ConsumeChoices(s, cs[..|cs| - 1]), cs[|cs| - 1];
      ResponsesChoicesCandid(s, cs[..|cs| - 1]);
      ResponsesTextCandid(t, c.content);
      ResponsesToolsCandid(Responses.ConsumeText(t, c.content), c.toolCalls);
    }
  }

  lemma ResponsesFinishCandid(codec: Codec, s: Responses.State)
    requires ResponsesCandid(s)
    ensures ResponsesCandid(Responses.Finish(codec, s))
  {
    if !s.completed && (s.hasContent || s.started) {
      var u := Responses.CloseCalls(codec, Responses.CloseMessage(s), Sorted(s.indexes));
      assert Responses.Complete(codec, u).started && Responses.Complete(codec, u).out != [];
    }
  }

  lemma {:induction false} ResponsesRunCandid(codec: Codec, s: Responses.State, ops: seq<Op>)
    requires ResponsesCandid(s)
    ensures ResponsesCandid(Responses.Run(codec, s, ops))
  {
    if ops != [] {
      var t, op := Responses.Run(codec, s, ops[..|ops| - 1]), ops[|ops| - 1];
      ResponsesRunCandid(codec, s, ops[..|ops| - 1]);
      match op
      case Feed(chunk) => ResponsesChoicesCandid(Responses.NoteChunk(t, chunk), chunk.choices);
      case End => ResponsesFinishCandid(codec, t);
    }
  }

  // ---------- Gemini ----------

  ghost predicate GeminiCandid(s: Gemini.State) {
    s.started <==> s.out != []
  }

  lemma GeminiChoiceContent(s: Gemini.State, c: Choice)
    ensures var t := Gemini.ConsumeChoice(s, c);
      && t.hasContent == (s.hasContent || c.content != "" || Gemini.SomeArguments(c.toolCalls))
      && t.started == (s.started || c.content != "")
      && t.finished == s.finished && (GeminiCandid(s) ==> GeminiCandid(t))
  {
  }

  lemma ArgumentsAppend(a: seq<ToolCall>, b: seq<ToolCall>)
    ensures Gemini.SomeArguments(a + b) <==> Gemini.SomeArguments(a) || Gemini.SomeArguments(b)
  {
    Gemini.GatherAllAppend(Gemini.NOTHING, a, b);
  }

  /** Content is text or arguments; only text starts the translator at once. */
  lemma {:induction false} GeminiChoicesContent(s: Gemini.State, cs: seq<Choice>)
    ensures var t := Gemini.ConsumeChoices(s, cs);
      && t.hasContent == (s.hasContent || SentText(cs) != "" || Gemini.SomeArguments(SentCalls(cs)))
      && t.started == (s.started || SentText(cs) != "")
      && t.finished == s.finished && (GeminiCandid(s) ==> GeminiCandid(t))
  {
    if cs != [] {
      var n := |cs| - 1;
      GeminiChoicesContent(s, cs[..n]);
      GeminiChoiceContent(Gemini.ConsumeChoices(s, cs[..n]), cs[n]);
      ArgumentsAppend(SentCalls(cs[..n]), cs[n].toolCalls);
    }
  }

  lemma GeminiFinishCandid(s: Gemini.State)
    requires GeminiCandid(s)
    ensures GeminiCandid(Gemini.Finish(s))
  {
  }

  lemma {:induction false} GeminiRunCandid(s: Gemini.State, ops: seq<Op>)
    requires GeminiCandid(s)
    ensures GeminiCandid(Gemini.Run(s, ops))
  {
    if ops != [] {
      var t, op := Gemini.Run(s, ops[..|ops| - 1]), ops[|ops| - 1];
      GeminiRunCandid(s, ops[..|ops| - 1]);
      match op
      case Feed(chunk) => GeminiChoicesContent(Gemini.NoteChunk(t, chunk), chunk.choices);
      case End => GeminiFinishCandid(t);
    }
  }

  /** The operation brings arguments of some tool call. */
  predicate BringsArguments(op: Op) {
    op.Feed? && Gemini.SomeArguments(SentCalls(op.chunk.choices))
  }

  predicate NoArguments(ops: seq<Op>) {
    forall i :: 0 <= i < |ops| ==> !BringsArguments(ops[i])
  }

  lemma LastOp(ops: seq<Op>)
    requires ops != []
    ensures NoArguments(ops) <==> NoArguments(ops[..|ops| - 1]) && !BringsArguments(ops[|ops| - 1])
    ensures Gemini.Silent(ops) <==> Gemini.Silent(ops[..|ops| - 1]) && Gemini.SilentOp(ops[|ops| - 1])
  {
    assert forall i :: 0 <= i < |ops| - 1 ==> ops[..|ops| - 1][i] == ops[i];
  }

  /** What arrives behind the end of the stream without text starts nothing, but may count as content. */
  lemma {:induction false} GeminiLateContent(s: Gemini.State, rest: seq<Op>)
    requires s.finished && Gemini.Silent(rest)
    ensures var t := Gemini.Run(s, rest);
      t.finished && t.started == s.started && t.hasContent == (s.hasContent || !NoArguments(rest))
  {
    if rest != [] {
      var n := |rest| - 1;
      LastOp(rest);
      GeminiLateContent(s, rest[..n]);
      if rest[n].Feed? {
        GeminiChoicesContent(Gemini.NoteChunk(Gemini.Run(s, rest[..n]), rest[n].chunk), rest[n].chunk.choices);
      }
    }
  }

  /**
   The report of a Gemini stream says "empty" exactly if nothing was sent, unless arguments arrive
   only behind the first End: then nothing was sent, yet the stream counts as one with content, and
   no other key is tried.
   */
  lemma GeminiReportExact(model: string, chunks: seq<Chunk>, rest: seq<Op>)
    ensures var t := Gemini.Run(Gemini.Init(model), Feeds(chunks) + [End] + rest);
      (t.out == [] <==> !t.hasContent && !t.started) <==>
      (Gemini.Substance(chunks) || !Gemini.Silent(rest) || NoArguments(rest))
  {
    var s := Gemini.AfterEnd(model, chunks);
    Gemini.RunAppend(Gemini.Init(model), Feeds(chunks) + [End], rest);
    assert (Feeds(chunks) + [End])[..|Feeds(chunks)|] == Feeds(chunks);
    Gemini.CompleteStream(model, chunks);
    GeminiRunCandid(Gemini.Init(model), Feeds(chunks) + [End] + rest);
    Gemini.LateRun(s, rest);
    if Gemini.Silent(rest) {
      GeminiLateContent(s, rest);
      GeminiRunCandid(Gemini.Init(model), Feeds(chunks) + [End]);
    }
  }

  /** Such a stream: its only fragment of arguments arrives behind [DONE]. */
  lemma GeminiLateArguments(model: string)
    ensures var late := Chunk("", "", [Choice("", [ToolCall(0, "", "", "f", "{}")], "")], None);
      var t := Gemini.Run(Gemini.Init(model), Feeds([]) + [End] + [Feed(late)]);
      t.out == [] && (t.hasContent || t.started)
  {
    var tc := ToolCall(0, "", "", "f", "{}");
    var choice := Choice("", [tc], "");
    var rest := [Feed(Chunk("", "", [choice], None))];
    assert SentCalls([choice]) == [tc];
    assert Gemini.SomeArguments([tc]) by {
      assert [tc][0].arguments != "";
    }
    assert BringsArguments(rest[0]);
    assert SentText([choice]) == "";
    assert Gemini.Silent(rest) && !Gemini.Substance([]);
    GeminiReportExact(model, [], rest);
    Gemini.TraceGrammar(model, [], rest);
    Gemini.CompleteStream(model, []);
  }

  // ---------- all three ----------

  /** Whatever the relay did, a translator has started exactly if it has sent something. */
  lemma StartedMeansSent(p: Protocol, r: Relayed)
    ensures ReportOf(p, r).started <==> ReportOf(p, r).events > 0
    ensures !p.GeminiProtocol? && ReportOf(p, r).hasContent ==> ReportOf(p, r).started
  {
    match p
    case ClaudeProtocol(model, fallbackID) => ClaudeRunCandid(Claude.Init(model, fallbackID), r.ops);
    case GeminiProtocol(model) => GeminiRunCandid(Gemini.Init(model), r.ops);
    case ResponsesProtocol(codec, model) => ResponsesRunCandid(codec, Responses.Init(model), r.ops);
  }

  /** What the retry loops see of a translator: what it reports for what the relay has done to it. */
  datatype Reporter = Reporter(report: Relayed -> Report)

  /** It has started exactly if it has sent something, and passes a failure on. */
  ghost predicate Candid(t: Reporter) {
    forall r :: (t.report(r).started <==> t.report(r).events > 0) && t.report(r).failed == r.failed
  }

  type Translator = t: Reporter | Candid(t) ghost witness Reporter((r: Relayed) => Report(false, false, 0, r.failed))

  /** The three translators are such. */
  function TranslatorOf(p: Protocol): (t: Translator)
    ensures forall r :: t.report(r) == ReportOf(p, r)
  {
    ProtocolsAreCandid(p);
    Reporter((r: Relayed) => ReportOf(p, r))
  }

  lemma ProtocolsAreCandid(p: Protocol)
    ensures Candid(Reporter((r: Relayed) => ReportOf(p, r)))
  {
    forall r: Relayed
      ensures (ReportOf(p, r).started <==> ReportOf(p, r).events > 0) && ReportOf(p, r).failed == r.failed
    {
      StartedMeansSent(p, r);
    }
  }

  /** For Claude and Responses an empty stream is reported exactly if nothing was sent and nothing failed. */
  lemma EmptyMeansNothingSent(p: Protocol, r: Relayed)
    requires !p.GeminiProtocol?
    ensures ReportsEmpty(ReportOf(p, r)) <==> !r.failed && ReportOf(p, r).events == 0
  {
    StartedMeansSent(p, r);
  }

  /** The silent fallback finishes a translator that has consumed nothing: the client is sent no event. */
  lemma FallbackSendsNothing(p: Protocol)
    ensures ReportOf(p, Relayed([End], false)) == Report(false, false, 0, false)
  {
    assert [End][..0] == [];
    match p
    case ClaudeProtocol(model, fallbackID) =>
      assert Claude.Run(Claude.Init(model, fallbackID), [End]) == Claude.Finish(Claude.Init(model, fallbackID));
    case GeminiProtocol(model) =>
      assert Gemini.Run(Gemini.Init(model), [End]) == Gemini.Finish(Gemini.Init(model));
    case ResponsesProtocol(codec, model) =>
      assert Responses.Run(codec, Responses.Init(model), [End]) == Responses.Finish(codec, Responses.Init(model));
  }
}
