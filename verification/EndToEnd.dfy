/**
 From upstream bytes to client events: the parser, the relay and the three translators together,
 for any bytes, decoder and ending.
 */
module EndToEnd {
  import opened Text
  import opened Chunks
  import opened SseFraming
  import opened Relay
  import Claude = ClaudeStream
  import Gemini = GeminiStream
  import Responses = ResponsesStream
  import ResponsesObject

  // ---------- the first end of a stream ----------

  predicate HasEnd(ops: seq<Op>) {
    exists i :: 0 <= i < |ops| && ops[i].End?
  }

  /** The chunks fed before the first End. */
  function ChunksBefore(ops: seq<Op>): seq<Chunk> {
    if ops == [] then []
    else
      var n := |ops| - 1;
      if HasEnd(ops[..n]) || ops[n].End? then ChunksBefore(ops[..n]) else ChunksBefore(ops[..n]) + [ops[n].chunk]
  }

  /** What follows the first End. */
  function Behind(ops: seq<Op>): seq<Op> {
    if ops == [] then []
    else
      var n := |ops| - 1;
      if HasEnd(ops[..n]) then Behind(ops[..n]) + [ops[n]] else []
  }

  lemma HasEndLast(ops: seq<Op>)
    requires ops != []
    ensures HasEnd(ops) <==> HasEnd(ops[..|ops| - 1]) || ops[|ops| - 1].End?
  {
    var n := |ops| - 1;
    assert forall i :: 0 <= i < n ==> ops[..n][i] == ops[i];
    if i :| 0 <= i < n && ops[..n][i].End? {
      assert ops[i].End?;
    }
  }

  /** Any operations are chunks, the first End, and whatever follows; or chunks alone. */
  lemma {:induction false} SplitAtEnd(ops: seq<Op>)
    ensures if HasEnd(ops) then ops == Feeds(ChunksBefore(ops)) + [End] + Behind(ops)
            else ops == Feeds(ChunksBefore(ops))
  {
    if ops != [] {
      var n := |ops| - 1;
      SplitAtEnd(ops[..n]);
      HasEndLast(ops);
      assert ops == ops[..n] + [ops[n]];
      if HasEnd(ops[..n]) {
        AppendAppend(Feeds(ChunksBefore(ops[..n])) + [End], Behind(ops[..n]), [ops[n]]);
      } else if !ops[n].End? {
        assert Feeds(ChunksBefore(ops)) == Feeds(ChunksBefore(ops[..n])) + [ops[n]];
      }
    }
  }

  // ---------- what the relay does ----------

  /** A stream that does not fail is finished, if not by [DONE], then by the relay. */
  lemma RelayFinishes(decode: Decoder, data: string, ending: Ending)
    ensures !Result(decode, data, ending).failed ==> HasEnd(Result(decode, data, ending).ops)
  {
    var r := Result(decode, data, ending);
    if !r.failed {
      assert r.ops[|r.ops| - 1] == End;
    }
  }

  /**
   The payloads whose errors count: all of them at an orderly end; otherwise those that were
   complete before it, because an error of the pending one is ignored then.
   */
  function Answerable(data: string, ending: Ending): seq<string> {
    if ending == AtEof then Parse(data) else LastLine(Scan(NEW, data)).payloads
  }

  /** The pending payload, if there is one, comes last. */
  lemma AnswerableFirst(data: string, ending: Ending)
    ensures Extends(Answerable(data, ending), Parse(data)) && |Parse(data)| <= |Answerable(data, ending)| + 1
  {
    LineExtends(LastLine(Scan(NEW, data)), "");
  }

  lemma {:induction false} DispatchFails(decode: Decoder, payloads: seq<string>)
    ensures Dispatch(decode, payloads).failed <==> !AllUnderstood(decode, payloads)
  {
    if payloads != [] {
      var n := |payloads| - 1;
      DispatchFails(decode, payloads[..n]);
      assert forall i :: 0 <= i < n ==> payloads[..n][i] == payloads[i];
    }
  }

  /** From the bytes: the relay fails if and only if some payload whose errors count is not understood. */
  lemma RelayFailsExactly(decode: Decoder, data: string, ending: Ending)
    ensures Result(decode, data, ending).failed <==> !AllUnderstood(decode, Answerable(data, ending))
  {
    var p := LastLine(Scan(NEW, data));
    DispatchFails(decode, p.payloads);
    DispatchFails(decode, Parse(data));
    LineExtends(p, "");
    if Dispatch(decode, p.payloads).failed {
      FailureExtends(decode, p.payloads, Parse(data));
    }
  }

  /** What it has done by then are the payloads before the first such one. */
  lemma RelayFails(decode: Decoder, data: string, ending: Ending, bad: nat)
    requires bad < |Answerable(data, ending)| && AllUnderstood(decode, Answerable(data, ending)[..bad])
    requires !Understood(decode, Answerable(data, ending)[bad])
    ensures Result(decode, data, ending) == Relayed(Dispatch(decode, Parse(data)[..bad]).ops, true)
  {
    var p := LastLine(Scan(NEW, data));
    AnswerableFirst(data, ending);
    RelayFailsExactly(decode, data, ending);
    assert Answerable(data, ending)[..bad] == Parse(data)[..bad];
    DispatchUntil(decode, Answerable(data, ending), bad);
    if ending == AtEof && Dispatch(decode, p.payloads).failed {
      LineExtends(p, "");
      FailureExtends(decode, p.payloads, Parse(data));
    }
  }

  /** Otherwise it has done the payloads, as far as they are understood, and finished the stream. */
  lemma RelaySucceeds(decode: Decoder, data: string, ending: Ending)
    requires AllUnderstood(decode, Answerable(data, ending))
    ensures Result(decode, data, ending) == Relayed(Dispatch(decode, Parse(data)).ops + [End], false)
  {
    var p := LastLine(Scan(NEW, data));
    RelayFailsExactly(decode, data, ending);
    LineExtends(p, "");
    if Dispatch(decode, p.payloads).failed {
      FailureExtends(decode, p.payloads, Parse(data));
      DispatchFails(decode, Answerable(data, ending));
    }
  }

  // ---------- Claude ----------

  /**
   The stream was finished and nothing behind its first End makes the translator emit; or it was
   given up unfinished, and nothing before that made it emit.
   */
  ghost predicate ClaudeContent(ops: seq<Op>) {
    var chunks := ChunksBefore(ops);
    if HasEnd(ops) then Claude.AllMute(FirstSeen(KeptCalls(AllChoices(chunks))), Behind(ops))
    else TextSent(chunks) == "" && KeptCalls(AllChoices(chunks)) == []
  }

  /**
   Exactly which streams leave a Claude client content, for any bytes, decoder and ending.  A
   content client has the text and the tool calls of the chunks before the first End, or nothing
   when they carry none.
   */
  lemma ClaudeEndToEnd(decode: Decoder, data: string, ending: Ending, model: string, fallbackID: string)
    ensures var ops := Result(decode, data, ending).ops;
      var t := Claude.Run(Claude.Init(model, fallbackID), ops);
      && (Claude.Accepted(t.out) <==> ClaudeContent(ops))
      && (Claude.Accepted(t.out) ==> Claude.Serves(t.out, ChunksBefore(ops)))
  {
    var ops := Result(decode, data, ending).ops;
    SplitAtEnd(ops);
    if HasEnd(ops) {
      Claude.TraceGrammar(model, fallbackID, ChunksBefore(ops), Behind(ops));
      Claude.CompleteStream(model, fallbackID, ChunksBefore(ops));
    } else {
      Claude.UnfinishedStream(model, fallbackID, ChunksBefore(ops));
    }
  }

  // ---------- Gemini ----------

  ghost predicate GeminiContent(ops: seq<Op>) {
    if HasEnd(ops) then Gemini.Silent(Behind(ops)) else TextSent(ChunksBefore(ops)) == ""
  }

  /** The same for a Gemini client, who gets nothing of an unfinished stream that is content with it. */
  lemma GeminiEndToEnd(decode: Decoder, data: string, ending: Ending, model: string)
    ensures var ops := Result(decode, data, ending).ops;
      var t := Gemini.Run(Gemini.Init(model), ops);
      && (Gemini.Accepted(t.out) <==> GeminiContent(ops))
      && (Gemini.Accepted(t.out) ==> if HasEnd(ops) then Gemini.Serves(t.out, ChunksBefore(ops)) else t.out == [])
  {
    var ops := Result(decode, data, ending).ops;
    SplitAtEnd(ops);
    if HasEnd(ops) {
      Gemini.TraceGrammar(model, ChunksBefore(ops), Behind(ops));
      Gemini.CompleteStream(model, ChunksBefore(ops));
    } else {
      Gemini.FeedsKeep(model, ChunksBefore(ops));
    }
  }

  // ---------- Responses ----------

  /** What a Responses client is sent: after a failure the caller of the relay calls Error. */
  function ResponsesTrace(codec: ResponsesObject.Codec, model: string, r: Relayed,
                          message: string): seq<Responses.Event> {
    var t := Responses.Run(codec, Responses.Init(model), r.ops);
    if r.failed then Responses.Fail(t, message).out else t.out
  }

  /** A failure is well reported unless it comes behind the end of a stream that had something to send. */
  ghost predicate ResponsesContent(r: Relayed) {
    var chunks := ChunksBefore(r.ops);
    if !HasEnd(r.ops) then true
    else if r.failed then !Responses.Substance(chunks)
    else Responses.AllMute(FirstSeen(SentCalls(AllChoices(chunks))), Behind(r.ops))
  }

  /** The same for a Responses client. */
  lemma ResponsesEndToEnd(decode: Decoder, codec: ResponsesObject.Codec, data: string, ending: Ending, model: string,
                          message: string)
    ensures var r := Result(decode, data, ending);
      var chunks := ChunksBefore(r.ops);
      && (Responses.Accepted(ResponsesTrace(codec, model, r, message)) <==> ResponsesContent(r))
      && (ResponsesContent(r) && !r.failed ==>
            && ResponsesTrace(codec, model, r, message) == Responses.AfterEnd(codec, model, chunks).out
            && Responses.Serves(codec, Responses.AfterEnd(codec, model, chunks), chunks))
  {
    var r := Result(decode, data, ending);
    var chunks := ChunksBefore(r.ops);
    RelayFinishes(decode, data, ending);
    SplitAtEnd(r.ops);
    if !HasEnd(r.ops) {
      Responses.FailedStream(codec, model, chunks, message);
    } else if r.failed {
      Responses.FailedTooLate(codec, model, chunks, Behind(r.ops), message);
    } else {
      Responses.TraceGrammar(codec, model, chunks, Behind(r.ops));
      Responses.CompleteStream(codec, model, chunks);
    }
  }

  // ---------- streams as they should be, and one that is not ----------

  /** The payloads are those of the chunks, with or without [DONE] behind them. */
  ghost predicate Carries(decode: Decoder, payloads: seq<string>, chunks: seq<Chunk>) {
    && |chunks| <= |payloads| <= |chunks| + 1
    && (|payloads| > |chunks| ==> payloads[|chunks|] == "[DONE]")
    && forall i :: 0 <= i < |chunks| ==> payloads[i] != "[DONE]" && decode(payloads[i]) == Some(chunks[i])
  }

  /** How often a stream is finished: by its [DONE], if there is one, and by the relay. */
  function Ends(payloads: seq<string>, chunks: seq<Chunk>): (ends: seq<Op>)
    ensures ends != [] && forall i :: 0 <= i < |ends| ==> ends[i].End?
  {
    if |payloads| > |chunks| then [End, End] else [End]
  }

  lemma StreamRelayed(decode: Decoder, data: string, chunks: seq<Chunk>, ending: Ending)
    requires Carries(decode, Parse(data), chunks)
    ensures Result(decode, data, ending) == Relayed(Feeds(chunks) + Ends(Parse(data), chunks), false)
  {
    PayloadsDispatched(decode, Parse(data), chunks);
    AnswerableFirst(data, ending);
    assert forall i :: 0 <= i < |Answerable(data, ending)| ==> Answerable(data, ending)[i] == Parse(data)[i];
    RelaySucceeds(decode, data, ending);
  }

  lemma PayloadsDispatched(decode: Decoder, payloads: seq<string>, chunks: seq<Chunk>)
    requires Carries(decode, payloads, chunks)
    ensures AllUnderstood(decode, payloads)
    ensures Dispatch(decode, payloads).ops + [End] == Feeds(chunks) + Ends(payloads, chunks)
  {
    forall i | 0 <= i < |payloads| ensures Understood(decode, payloads[i]) {
      assert i < |chunks| ==> decode(payloads[i]) == Some(chunks[i]);
    }
    DispatchAll(decode, payloads);
    var ops := Dispatch(decode, payloads).ops;
    forall i | 0 <= i < |chunks| ensures ops[i] == Feeds(chunks)[i] {
      assert payloads[i] != "[DONE]" && decode(payloads[i]) == Some(chunks[i]);
    }
    if |payloads| > |chunks| {
      assert ops == Feeds(chunks) + [End];
      AppendAppend(Feeds(chunks), [End], [End]);
    } else {
      assert ops == Feeds(chunks);
    }
  }

  lemma {:induction false} SplitOfEnds(chunks: seq<Chunk>, ends: seq<Op>)
    requires forall i :: 0 <= i < |ends| ==> ends[i].End?
    ensures ChunksBefore(Feeds(chunks) + ends) == chunks
    ensures HasEnd(Feeds(chunks) + ends) <==> ends != []
    ensures forall i :: 0 <= i < |Behind(Feeds(chunks) + ends)| ==> Behind(Feeds(chunks) + ends)[i].End?
  {
    var ops := Feeds(chunks) + ends;
    if ends != [] {
      var n := |ends| - 1;
      assert ops[..|ops| - 1] == Feeds(chunks) + ends[..n];
      SplitOfEnds(chunks, ends[..n]);
      assert ops[|ops| - 1].End?;
    } else if chunks != [] {
      var n := |chunks| - 1;
      assert ops == Feeds(chunks) && ops[..n] == Feeds(chunks[..n]) + [];
      SplitOfEnds(chunks[..n], []);
    }
  }

  /** What the relay does to a translator for bytes that carry chunks as they should. */
  lemma CleanStreamSplits(decode: Decoder, data: string, chunks: seq<Chunk>, ending: Ending)
    requires Carries(decode, Parse(data), chunks)
    ensures var r := Result(decode, data, ending);
      && !r.failed && HasEnd(r.ops) && ChunksBefore(r.ops) == chunks
      && forall i :: 0 <= i < |Behind(r.ops)| ==> Behind(r.ops)[i].End?
  {
    StreamRelayed(decode, data, chunks, ending);
    SplitOfEnds(chunks, Ends(Parse(data), chunks));
  }

  /** Bytes that carry chunks as they should serve a Claude client ... */
  lemma CleanStreamServesClaude(decode: Decoder, data: string, chunks: seq<Chunk>, ending: Ending, model: string,
                                fallbackID: string)
    requires Carries(decode, Parse(data), chunks)
    ensures Claude.Serves(Claude.Run(Claude.Init(model, fallbackID), Result(decode, data, ending).ops).out, chunks)
  {
    CleanStreamSplits(decode, data, chunks, ending);
    ClaudeEndToEnd(decode, data, ending, model, fallbackID);
  }

  /** ... and a Gemini client ... */
  lemma CleanStreamServesGemini(decode: Decoder, data: string, chunks: seq<Chunk>, ending: Ending, model: string)
    requires Carries(decode, Parse(data), chunks)
    ensures Gemini.Serves(Gemini.Run(Gemini.Init(model), Result(decode, data, ending).ops).out, chunks)
  {
    CleanStreamSplits(decode, data, chunks, ending);
    GeminiEndToEnd(decode, data, ending, model);
  }

  /** ... and a Responses client. */
  lemma CleanStreamServesResponses(decode: Decoder, codec: ResponsesObject.Codec, data: string, chunks: seq<Chunk>,
                                   ending: Ending, model: string, message: string)
    requires Carries(decode, Parse(data), chunks)
    ensures var t := Responses.AfterEnd(codec, model, chunks);
      && ResponsesTrace(codec, model, Result(decode, data, ending), message) == t.out
      && Responses.Serves(codec, t, chunks)
  {
    CleanStreamSplits(decode, data, chunks, ending);
    ResponsesEndToEnd(decode, codec, data, ending, model, message);
  }

  /** Chunks encoded one by one and printed as frames, however the lines end, with comments anywhere between them. */
  lemma PrintedStreamCarries(decode: Decoder, frames: seq<Frame>, crlf: nat -> bool, chunks: seq<Chunk>)
    requires AllPrintable(frames) && Carries(decode, PayloadsOf(frames), chunks)
    ensures Carries(decode, Parse(Print(frames, crlf)), chunks)
  {
    PrintThenParse(frames, crlf);
  }

  /** A frame with text, and one whose payload does not decode. */
  function BrokenStream(good: string, bad: string, crlf: nat -> bool): string {
    Print(Frames([good, bad]), crlf)
  }

  lemma BrokenStreamParses(good: string, bad: string, crlf: nat -> bool)
    requires OneLine(good) && OneLine(bad)
    ensures Parse(BrokenStream(good, bad, crlf)) == [good, bad]
  {
    FramesCarry([good, bad]);
    PrintThenParse(Frames([good, bad]), crlf);
  }

  lemma BrokenStreamRelayed(decode: Decoder, good: string, bad: string, crlf: nat -> bool, chunk: Chunk)
    requires OneLine(good) && OneLine(bad) && good != "[DONE]" && bad != "[DONE]"
    requires decode(good) == Some(chunk) && decode(bad).None?
    ensures Result(decode, BrokenStream(good, bad, crlf), AtEof) == Relayed([Feed(chunk)], true)
  {
    var data := BrokenStream(good, bad, crlf);
    BrokenStreamParses(good, bad, crlf);
    assert Parse(data)[..1] == [good] && Answerable(data, AtEof) == [good, bad];
    RelayFails(decode, data, AtEof, 1);
    DispatchAll(decode, [good]);
  }

  /**
   Such a stream leaves Claude and Gemini clients with an open message: the relay returns the error
   of the second payload without finishing the stream, and its caller takes it to be finished.  A
   Responses client is sent response.failed.
   */
  lemma BrokenStreamStaysOpen(decode: Decoder, codec: ResponsesObject.Codec, good: string, bad: string,
                              crlf: nat -> bool, chunk: Chunk, model: string, fallbackID: string, message: string)
    requires OneLine(good) && OneLine(bad) && good != "[DONE]" && bad != "[DONE]"
    requires decode(good) == Some(chunk) && decode(bad).None? && TextSent([chunk]) != ""
    ensures var r := Result(decode, BrokenStream(good, bad, crlf), AtEof);
      && !Claude.Accepted(Claude.Run(Claude.Init(model, fallbackID), r.ops).out)
      && !Gemini.Accepted(Gemini.Run(Gemini.Init(model), r.ops).out)
      && Responses.Accepted(ResponsesTrace(codec, model, r, message))
  {
    var data := BrokenStream(good, bad, crlf);
    BrokenStreamRelayed(decode, good, bad, crlf, chunk);
    var ops := Result(decode, data, AtEof).ops;
    assert !HasEnd(ops) && ops[..0] == [] && ChunksBefore(ops) == [chunk];
    ClaudeEndToEnd(decode, data, AtEof, model, fallbackID);
    GeminiEndToEnd(decode, data, AtEof, model);
    ResponsesEndToEnd(decode, codec, data, AtEof, model, message);
  }

  const GREETING := "{\"choices\":[{\"delta\":{\"content\":\"hi\"}}]}"
  const CUT_OFF := "{\"choices\":["

  lemma NoLineEnds()
    ensures '\n' !in GREETING && '\n' !in CUT_OFF
  {
  }

  lemma NotDone(payload: string)
    requires payload != "" && payload[0] == '{'
    ensures payload != "[DONE]"
  {
    assert "[DONE]"[0] == '[';
  }

  lemma BothPrintable()
    ensures OneLine(GREETING) && GREETING != "[DONE]"
    ensures OneLine(CUT_OFF) && CUT_OFF != "[DONE]"
  {
    NoLineEnds();
    assert GREETING[0] == '{' && GREETING[|GREETING| - 1] == '}';
    assert CUT_OFF[0] == '{' && CUT_OFF[|CUT_OFF| - 1] == '[';
    NotDone(GREETING);
    NotDone(CUT_OFF);
  }

  /** For one, JSON that was cut off behind a greeting. */
  lemma CutJsonStaysOpen(decode: Decoder, codec: ResponsesObject.Codec, crlf: nat -> bool, model: string,
                         fallbackID: string)
    requires decode(GREETING) == Some(Chunk("", "", [Choice("hi", [], "")], None)) && decode(CUT_OFF).None?
    ensures var r := Result(decode, BrokenStream(GREETING, CUT_OFF, crlf), AtEof);
      !Claude.Accepted(Claude.Run(Claude.Init(model, fallbackID), r.ops).out)
  {
    var chunk := Chunk("", "", [Choice("hi", [], "")], None);
    BothPrintable();
    GreetingText(chunk);
    BrokenStreamStaysOpen(decode, codec, GREETING, CUT_OFF, crlf, chunk, model, fallbackID, "");
  }

  lemma GreetingText(chunk: Chunk)
    requires chunk.choices == [Choice("hi", [], "")]
    ensures TextSent([chunk]) != ""
  {
    assert [chunk][..0] == [] && AllChoices([chunk]) == chunk.choices;
    assert SentText(chunk.choices) == "hi";
  }
}
