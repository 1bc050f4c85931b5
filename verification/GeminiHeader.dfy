/** What the final event of a Gemini stream says, and which model all its events name. */
module GeminiHeader {
  import opened Text
  import opened Chunks
  import opened Sorting
  import opened GeminiStream

  lemma ChoiceFields(s: State, c: Choice)
    ensures var t := ConsumeChoice(s, c);
      && t.model == s.model && t.usage == s.usage
      && t.finishReason == if c.finishReason != "" then c.finishReason else s.finishReason
  {
  }

  lemma {:induction false} ChoicesFields(s: State, cs: seq<Choice>)
    ensures var t := ConsumeChoices(s, cs);
      && t.model == s.model && t.usage == s.usage
      && t.finishReason == if LastReason(cs) != "" then LastReason(cs) else s.finishReason
  {
    if cs != [] {
      ChoicesFields(s, cs[..|cs| - 1]);
      ChoiceFields(ConsumeChoices(s, cs[..|cs| - 1]), cs[|cs| - 1]);
    }
  }

  /** What the translator knows about the stream as a whole after these chunks. */
  ghost predicate Knows(s: State, model: string, chunks: seq<Chunk>) {
    ModelIs(model, chunks, s.model) && s.usage == LastUsage(chunks)
  }

  lemma OneMoreKnown(s: State, model: string, chunks: seq<Chunk>)
    requires chunks != [] && Knows(s, model, chunks[..|chunks| - 1])
    ensures Knows(Consume(s, chunks[|chunks| - 1]), model, chunks)
  {
    var c := chunks[|chunks| - 1];
    ChoicesFields(NoteChunk(s, c), c.choices);
  }

  lemma {:induction false} FeedsKnow(model: string, chunks: seq<Chunk>)
    ensures Knows(Run(Init(model), Feeds(chunks)), model, chunks)
  {
    if chunks != [] {
      var before := chunks[..|chunks| - 1];
      FeedsKnow(model, before);
      LastFeed(Init(model), chunks);
      OneMoreKnown(Run(Init(model), Feeds(before)), model, chunks);
    }
  }

  lemma {:induction false} FeedsReason(model: string, chunks: seq<Chunk>)
    ensures Run(Init(model), Feeds(chunks)).finishReason == LastReason(AllChoices(chunks))
  {
    if chunks != [] {
      var before, c := chunks[..|chunks| - 1], chunks[|chunks| - 1];
      FeedsReason(model, before);
      LastFeed(Init(model), chunks);
      ChoicesFields(NoteChunk(Run(Init(model), Feeds(before)), c), c.choices);
      LastReasonAppend(AllChoices(before), c.choices);
    }
  }

  lemma LastFeed(s: State, chunks: seq<Chunk>)
    requires chunks != []
    ensures Run(s, Feeds(chunks)) == Consume(Run(s, Feeds(chunks[..|chunks| - 1])), chunks[|chunks| - 1])
  {
    assert Feeds(chunks)[..|chunks| - 1] == Feeds(chunks[..|chunks| - 1]);
  }

  // ---------- the final event ----------

  /** The reason that Gemini clients are given: STOP for the ones that OpenAI ends a turn with. */
  ghost predicate EndsFor(finishReason: string, reason: Reason) {
    var trimmed := TrimSpace(finishReason);
    if trimmed == "length" || trimmed == "tool_calls" || trimmed == "stop" || trimmed == "" then reason == Stop
    else reason == Upper(finishReason)
  }

  ghost predicate FinalFor(e: Event, s: State) {
    && e.Final? && e.model == s.model && EndsFor(s.finishReason, e.reason)
    && Reports(s.usage, "prompt_tokens", e.promptTokens)
    && Reports(s.usage, "completion_tokens", e.candidatesTokens)
    && Reports(s.usage, "total_tokens", e.totalTokens)
  }

  lemma {:induction false} EmitCallsFields(s: State, keys: seq<int>)
    ensures var t := EmitCalls(s, keys);
      t.model == s.model && t.usage == s.usage && t.finishReason == s.finishReason
  {
    if keys != [] {
      EmitCallsFields(s, keys[..|keys| - 1]);
    }
  }

  lemma FinishSends(s: State)
    requires !s.finished && (s.hasContent || s.started)
    ensures Finish(s).out != [] && FinalFor(Finish(s).out[|Finish(s).out| - 1], s)
  {
    var t := EmitCalls(SortKeys(s), Sorted(s.gathered.keys));
    EmitCallsFields(SortKeys(s), Sorted(s.gathered.keys));
    assert Finish(s).out == t.out + [FinalEvent(t)];
  }

  /**
   However a stream is cut into chunks: the last event names the first model that is not blank, gives
   the reason for the last finish reason that is not empty, and the counts of the last usage.
   */
  lemma FinalMeaning(model: string, chunks: seq<Chunk>)
    requires Substance(chunks)
    ensures var out := AfterEnd(model, chunks).out;
      && out != [] && out[|out| - 1].Final?
      && ModelIs(model, chunks, out[|out| - 1].model)
      && EndsFor(LastReason(AllChoices(chunks)), out[|out| - 1].reason)
      && Reports(LastUsage(chunks), "prompt_tokens", out[|out| - 1].promptTokens)
      && Reports(LastUsage(chunks), "completion_tokens", out[|out| - 1].candidatesTokens)
      && Reports(LastUsage(chunks), "total_tokens", out[|out| - 1].totalTokens)
  {
    FeedsKnow(model, chunks);
    FeedsReason(model, chunks);
    FeedsKeep(model, chunks);
    FinishSends(Run(Init(model), Feeds(chunks)));
  }

  // ---------- the model of every event ----------

  function ModelOf(e: Event): string {
    e.model
  }

  ghost predicate AllAbout(out: seq<Event>, model: string) {
    forall i :: 0 <= i < |out| ==> ModelOf(out[i]) == model
  }

  ghost predicate About(s: State, model: string) {
    s.model == model && AllAbout(s.out, model)
  }

  lemma EmitAbout(s: State, e: Event, model: string)
    requires About(s, model) && ModelOf(e) == model
    ensures About(Emit(s, e), model)
  {
  }

  lemma ChoiceAbout(s: State, c: Choice, model: string)
    requires About(s, model)
    ensures About(ConsumeChoice(s, c), model)
  {
    if c.content != "" {
      EmitAbout(s.(hasContent := true), TextPart(s.model, c.content), model);
    }
  }

  lemma {:induction false} ChoicesAbout(s: State, cs: seq<Choice>, model: string)
    requires About(s, model)
    ensures About(ConsumeChoices(s, cs), model)
  {
    if cs != [] {
      ChoicesAbout(s, cs[..|cs| - 1], model);
      ChoiceAbout(ConsumeChoices(s, cs[..|cs| - 1]), cs[|cs| - 1], model);
    }
  }

  lemma {:induction false} EmitCallsAbout(s: State, keys: seq<int>, model: string)
    requires About(s, model)
    ensures About(EmitCalls(s, keys), model)
  {
    if keys != [] {
      var t, k := EmitCalls(s, keys[..|keys| - 1]), keys[|keys| - 1];
      EmitCallsAbout(s, keys[..|keys| - 1], model);
      if k in t.gathered.calls {
        EmitAbout(t, FunctionCall(t.model, t.gathered.calls[k]), model);
      }
    }
  }

  lemma FinishAbout(s: State, model: string)
    requires About(s, model)
    ensures About(Finish(s), model)
  {
    var t := EmitCalls(SortKeys(s), Sorted(s.gathered.keys));
    EmitCallsAbout(SortKeys(s), Sorted(s.gathered.keys), model);
    EmitAbout(t, FinalEvent(t), model);
  }

  lemma {:induction false} RunAbout(s: State, ops: seq<Op>, model: string)
    requires !Blank(model) && About(s, model)
    ensures About(Run(s, ops), model)
  {
    if ops != [] {
      var t, op := Run(s, ops[..|ops| - 1]), ops[|ops| - 1];
      RunAbout(s, ops[..|ops| - 1], model);
      match op
      case Feed(chunk) => ChoicesAbout(NoteChunk(t, chunk), chunk.choices, model);
      case End => FinishAbout(t, model);
    }
  }

  /** Whatever is done to the translator, every event names the model that was requested, if one was. */
  lemma EventsNameTheModel(model: string, ops: seq<Op>)
    requires !Blank(model)
    ensures AllAbout(Run(Init(model), ops).out, model)
  {
    RunAbout(Init(model), ops, model);
  }
}
