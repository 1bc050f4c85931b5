/**
 The relay loop that reads an upstream stream line by line and drives a translator.  A translator
 is only ever fed chunks and told that the stream has ended, so what the relay does to it is a
 sequence of `Op`s.
 */
module Relay {
  import opened Text
  import opened Chunks
  import opened SseFraming

  /** What was done to the translator, and whether the relay gave up because a payload did not decode. */
  datatype Relayed = Relayed(ops: seq<Op>, failed: bool)

  /** json.Unmarshal into an OpenAI chunk. */
  type Decoder = string -> Option<Chunk>

  function DispatchOne(decode: Decoder, r: Relayed, payload: string): Relayed {
    if r.failed then r
    else if payload == "[DONE]" then r.(ops := r.ops + [End])
    else match decode(payload)
      case None => r.(failed := true)
      case Some(chunk) => r.(ops := r.ops + [Feed(chunk)])
  }

  function Dispatch(decode: Decoder, payloads: seq<string>): Relayed {
    if payloads == [] then Relayed([], false)
    else DispatchOne(decode, Dispatch(decode, payloads[..|payloads| - 1]), payloads[|payloads| - 1])
  }

  /** Whether the relay can act on a payload, and what it then does to the translator. */
  predicate Understood(decode: Decoder, payload: string) {
    payload == "[DONE]" || decode(payload).Some?
  }

  function OpOf(decode: Decoder, payload: string): Op
    requires Understood(decode, payload)
  {
    if payload == "[DONE]" then End else Feed(decode(payload).value)
  }

  predicate AllUnderstood(decode: Decoder, payloads: seq<string>) {
    forall i :: 0 <= i < |payloads| ==> Understood(decode, payloads[i])
  }

  /** Payloads that are all understood are dispatched one by one. */
  lemma {:induction false} DispatchAll(decode: Decoder, payloads: seq<string>)
    requires AllUnderstood(decode, payloads)
    ensures var r := Dispatch(decode, payloads);
      && !r.failed && |r.ops| == |payloads|
      && forall i :: 0 <= i < |payloads| ==> r.ops[i] == OpOf(decode, payloads[i])
  {
    if payloads != [] {
      var n := |payloads| - 1;
      assert Understood(decode, payloads[n]);
      assert forall i :: 0 <= i < n ==> payloads[..n][i] == payloads[i];
      DispatchAll(decode, payloads[..n]);
    }
  }

  /** The first payload that is not understood ends the dispatching: whatever follows it is not looked at. */
  lemma {:induction false} DispatchUntil(decode: Decoder, payloads: seq<string>, bad: nat)
    requires bad < |payloads| && AllUnderstood(decode, payloads[..bad]) && !Understood(decode, payloads[bad])
    ensures Dispatch(decode, payloads) == Dispatch(decode, payloads[..bad]).(failed := true)
    decreases |payloads|
  {
    var n := |payloads| - 1;
    DispatchAll(decode, payloads[..bad]);
    if bad < n {
      assert payloads[..n][..bad] == payloads[..bad];
      DispatchUntil(decode, payloads[..n], bad);
    }
  }

  /** How a stream ends: orderly, by a read error, or by silence or cancellation between two lines. */
  datatype Ending = AtEof | AtError | Interrupted

  /**
   What the relay does for an input and an ending.  A payload that does not decode stops it at
   once; only if that is the pending payload at a disorderly end is the stream finished nevertheless.
   */
  function Result(decode: Decoder, data: string, ending: Ending): Relayed {
    Ended(decode, LastLine(Scan(NEW, data)), ending)
  }

  /** The same, when the parser has taken the last line. */
  function Ended(decode: Decoder, p: Parser, ending: Ending): Relayed {
    var head := Dispatch(decode, p.payloads);
    if head.failed then head else Conclude(Dispatch(decode, Flush(p).payloads), ending)
  }

  function Conclude(all: Relayed, ending: Ending): Relayed {
    if all.failed && ending == AtEof then all else Relayed(all.ops + [End], false)
  }

  // ---------- what comes after a failure does not matter ----------

  lemma {:induction false} FailureStays(decode: Decoder, a: seq<string>, b: seq<string>)
    requires Dispatch(decode, a).failed
    ensures Dispatch(decode, a + b) == Dispatch(decode, a)
  {
    if b == [] {
      AppendNothing(a);
    } else {
      assert (a + b)[..|a + b| - 1] == a + b[..|b| - 1];
      FailureStays(decode, a, b[..|b| - 1]);
    }
  }

  predicate Extends(a: seq<string>, b: seq<string>) {
    |a| <= |b| && b[..|a|] == a
  }

  lemma FailureExtends(decode: Decoder, a: seq<string>, b: seq<string>)
    requires Extends(a, b) && Dispatch(decode, a).failed
    ensures Dispatch(decode, b) == Dispatch(decode, a)
  {
    assert b == a + b[|a|..];
    FailureStays(decode, a, b[|a|..]);
  }

  lemma LineExtends(p: Parser, line: string)
    ensures Extends(p.payloads, TakeLine(p, line).payloads) && Extends(p.payloads, Flush(p).payloads)
  {
  }

  lemma {:induction false} ScanExtends(p: Parser, data: string)
    ensures Extends(p.payloads, Scan(p, data).payloads)
  {
    if data != "" {
      var q := Scan(p, data[..|data| - 1]);
      ScanExtends(p, data[..|data| - 1]);
      LineExtends(q.(line := ""), q.line);
    }
  }

  /** A failure on a prefix of the input is the result for the whole input. */
  lemma EarlyFailure(decode: Decoder, before: string, after: string, ending: Ending)
    requires Dispatch(decode, Scan(NEW, before).payloads).failed
    ensures Result(decode, before + after, ending) == Dispatch(decode, Scan(NEW, before).payloads)
  {
    ScanAppend(NEW, before, after);
    var p, q := Scan(NEW, before), Scan(NEW, before + after);
    ScanExtends(p, after);
    LineExtends(q.(line := ""), q.line);
    FailureExtends(decode, p.payloads, LastLine(q).payloads);
  }

  // ---------- the reader ----------

  datatype Status = More | Eof | Fail

  function Concat(chunks: seq<string>): string {
    if chunks == [] then "" else chunks[0] + Concat(chunks[1..])
  }

  /** A bufio.Reader over a body whose reads return these pieces, and then end or fail. */
  class LineReader {
    var buffer: string
    var pieces: seq<string>
    const fails: bool

    ghost function Contents(): string
      reads this
    {
      buffer + Concat(pieces)
    }

    constructor (pieces: seq<string>, fails: bool)
      ensures Contents() == Concat(pieces) && this.fails == fails
    {
      this.buffer, this.pieces, this.fails := "", pieces, fails;
      new;
      assert Contents() == Concat(pieces);
    }

    /** ReadString('\n'): a line with its terminator, or what is left when the body is at its end. */
    method ReadString() returns (line: string, status: Status)
      modifies this
      ensures old(Contents()) == line + Contents()
      ensures status.More? ==> line != "" && line[|line| - 1] == '\n' && '\n' !in line[..|line| - 1]
      ensures !status.More? ==> '\n' !in line && Contents() == "" && status == if fails then Fail else Eof
    {
      var scanned := 0;
      while true
        invariant scanned <= |buffer| && '\n' !in buffer[..scanned]
        invariant Contents() == old(Contents())
        decreases |pieces|, |buffer| - scanned
      {
        if scanned < |buffer| {
          if buffer[scanned] == '\n' {
            assert buffer[..scanned + 1][..scanned] == buffer[..scanned];
            assert buffer == buffer[..scanned + 1] + buffer[scanned + 1..];
            line, buffer := buffer[..scanned + 1], buffer[scanned + 1..];
            AppendAppend(line, buffer, Concat(pieces));
            return line, More;
          }
          assert buffer[..scanned + 1] == buffer[..scanned] + [buffer[scanned]];
          scanned := scanned + 1;
        } else if pieces == [] {
          line := buffer;
          buffer := "";
          return line, if fails then Fail else Eof;
        } else {
          AppendAppend(buffer, pieces[0], Concat(pieces[1..]));
          assert (buffer + pieces[0])[..scanned] == buffer[..scanned];
          buffer, pieces := buffer + pieces[0], pieces[1..];
        }
      }
    }
  }

  // ---------- the relay ----------

  /** Dispatches the pending data lines, if they amount to a payload. */
  method FlushData(decode: Decoder, dataLines: seq<string>, ops: seq<Op>, ghost p: Parser)
    returns (after: seq<Op>, failed: bool)
    requires p.pending == dataLines && Dispatch(decode, p.payloads) == Relayed(ops, false)
    ensures Dispatch(decode, Flush(p).payloads) == Relayed(after, failed)
    ensures failed ==> after == ops
  {
    after, failed := ops, false;
    if |dataLines| == 0 {
      assert TrimSpace("") == "";
      return;
    }
    var payload := TrimSpace(JoinLines(dataLines));
    if payload == "" {
      return;
    }
    assert (p.payloads + [payload])[..|p.payloads|] == p.payloads;
    if payload == "[DONE]" {
      after := after + [End];
      return;
    }
    match decode(payload)
    case None => failed := true;
    case Some(chunk) => after := after + [Feed(chunk)];
  }

  /** One line: an empty one flushes, a data line is kept, anything else is ignored. */
  method HandleLine(decode: Decoder, line: string, dataLines: seq<string>, ops: seq<Op>, ghost p: Parser)
    returns (lines: seq<string>, after: seq<Op>, failed: bool)
    requires p.pending == dataLines && Dispatch(decode, p.payloads) == Relayed(ops, false)
    ensures Dispatch(decode, TakeLine(p, line).payloads) == Relayed(after, failed)
    ensures lines == TakeLine(p, line).pending
  {
    lines, after, failed := dataLines, ops, false;
    var trimmed := TrimNewlines(line);
    if trimmed == "" {
      after, failed := FlushData(decode, lines, after, p);
      lines := [];
    } else if HasPrefix(trimmed, "data:") {
      lines := lines + [TrimSpace(trimmed[5..])];
    }
  }

  lemma TerminatedLine(p: Parser, line: string)
    requires p.line == "" && line != "" && line[|line| - 1] == '\n' && '\n' !in line[..|line| - 1]
    ensures Scan(p, line) == TakeLine(p, line) && TakeLine(p, line).line == ""
  {
    assert line == line[..|line| - 1] + "\n";
    ScanLine(p, line[..|line| - 1]);
  }

  lemma UnterminatedLine(p: Parser, line: string)
    requires p.line == "" && '\n' !in line
    ensures LastLine(Scan(p, line)) == if line == "" then p else TakeLine(p, line)
  {
    ScanText(p, line);
    assert "" + line == line;
    assert p.(line := line).(line := "") == p;
  }

  /** The end of the body: what is left of it is a last line, and then what is pending is dispatched. */
  method HandleEnd(decode: Decoder, line: string, status: Status, dataLines: seq<string>, ops: seq<Op>, ghost p: Parser)
    returns (after: seq<Op>, failed: bool)
    requires p.pending == dataLines && Dispatch(decode, p.payloads) == Relayed(ops, false) && !status.More?
    ensures Relayed(after, failed) ==
            Ended(decode, if line == "" then p else TakeLine(p, line), if status.Eof? then AtEof else AtError)
  {
    var lines := dataLines;
    after, failed := ops, false;
    if |line| > 0 {
      lines, after, failed := HandleLine(decode, line, lines, after, p);
      if failed {
        return;
      }
    }
    after, failed := FlushData(decode, lines, after, if line == "" then p else TakeLine(p, line));
    if failed && status.Eof? {
      return;
    }
    after, failed := after + [End], false;
  }

  /** The parser has consumed this much, at the end of a line, and the relay has dispatched what it found. */
  ghost predicate InStep(decode: Decoder, consumed: string, dataLines: seq<string>, ops: seq<Op>) {
    var p := Scan(NEW, consumed);
    && p.line == "" && p.pending == dataLines && Dispatch(decode, p.payloads) == Relayed(ops, false)
    && (consumed != "" ==> consumed[|consumed| - 1] == '\n')
  }

  /**
   The relay loop.  `quiet` says before which line the stream falls silent for too long, or the
   client goes away.  What it does is a function of the bytes it has consumed: all of them, unless
   it was interrupted, and then a number of whole lines.  In particular it does not depend on how
   the body's reads cut the bytes into pieces.
   */
  method Run(reader: LineReader, decode: Decoder, quiet: nat -> bool)
    returns (ops: seq<Op>, failed: bool, ghost consumed: string, ghost ending: Ending)
    modifies reader
    ensures Relayed(ops, failed) == Result(decode, consumed, ending)
    ensures consumed <= old(reader.Contents())
    ensures ending.Interrupted?
            || (consumed == old(reader.Contents()) && ending == if reader.fails then AtError else AtEof)
    ensures (forall n: nat :: !quiet(n)) ==> !ending.Interrupted?
    ensures ending.Interrupted? && consumed != "" ==> consumed[|consumed| - 1] == '\n'
  {
    ghost var data := reader.Contents();
    var dataLines := [];
    var n := 0;
    ops, consumed := [], "";
    while true
      invariant data == consumed + reader.Contents()
      invariant InStep(decode, consumed, dataLines, ops)
      decreases |reader.Contents()|
    {
      ghost var p := Scan(NEW, consumed);
      if quiet(n) {
        var flushed, unread := FlushData(decode, dataLines, ops, p);
        return flushed + [End], false, consumed, Interrupted;
      }
      n := n + 1;
      var line, status := reader.ReadString();
      ending := if reader.fails then AtError else AtEof;
      ghost var rest := reader.Contents();
      AppendAppend(consumed, line, rest);
      ScanAppend(NEW, consumed, line);
      if !status.More? {
        UnterminatedLine(p, line);
        AppendNothing(consumed + line);
        ops, failed := HandleEnd(decode, line, status, dataLines, ops, p);
        return ops, failed, data, ending;
      }
      TerminatedLine(p, line);
      dataLines, ops, failed := HandleLine(decode, line, dataLines, ops, p);
      consumed := consumed + line;
      if failed {
        EarlyFailure(decode, consumed, rest, ending);
        return ops, true, data, ending;
      }
    }
  }
}
