/**
 Server-sent events as the gateway prints and parses them.  Following section 9.2.6 of the WHATWG
 HTML Living Standard, an event's data lines are joined by newlines and dispatched at an empty
 line; unlike it, the gateway trims every data line and every payload, drops blank payloads,
 and dispatches what is pending at the end of the input.
 */
module SseFraming {
  import opened Text
  import opened Chunks

  /** strings.TrimRight(s, "\r\n") */
  function TrimNewlines(s: string): string {
    if s != "" && (s[|s| - 1] == '\r' || s[|s| - 1] == '\n') then TrimNewlines(s[..|s| - 1]) else s
  }

  /** The parser between two characters: the line read so far, the pending data lines, and the payloads dispatched. */
  datatype Parser = Parser(line: string, pending: seq<string>, payloads: seq<string>)

  const NEW := Parser("", [], [])

  function Flush(p: Parser): Parser {
    var payload := TrimSpace(JoinLines(p.pending));
    p.(pending := [], payloads := if payload == "" then p.payloads else p.payloads + [payload])
  }

  /** One line, with or without its line terminator. */
  function TakeLine(p: Parser, line: string): Parser {
    var trimmed := TrimNewlines(line);
    if trimmed == "" then Flush(p)
    else if HasPrefix(trimmed, "data:") then p.(pending := p.pending + [TrimSpace(trimmed[5..])])
    else p
  }

  function TakeChar(p: Parser, c: char): Parser {
    if c == '\n' then TakeLine(p.(line := ""), p.line) else p.(line := p.line + [c])
  }

  function Scan(p: Parser, data: string): Parser {
    if data == "" then p else TakeChar(Scan(p, data[..|data| - 1]), data[|data| - 1])
  }

  /** The end of the input: an unterminated last line counts as a line. */
  function LastLine(p: Parser): Parser {
    if p.line == "" then p else TakeLine(p.(line := ""), p.line)
  }

  /** All payloads of an input that has ended. */
  function Parse(data: string): seq<string> {
    Flush(LastLine(Scan(NEW, data))).payloads
  }

  /** Scanning two pieces one after the other is scanning them joined: read boundaries do not matter. */
  lemma {:induction false} ScanAppend(p: Parser, a: string, b: string)
    ensures Scan(p, a + b) == Scan(Scan(p, a), b)
  {
    if b == "" {
      AppendNothing(a);
    } else {
      assert (a + b)[..|a + b| - 1] == a + b[..|b| - 1];
      ScanAppend(p, a, b[..|b| - 1]);
    }
  }

  lemma {:induction false} ScanText(p: Parser, text: string)
    requires '\n' !in text
    ensures Scan(p, text) == p.(line := p.line + text)
  {
    if text == "" {
      AppendNothing(p.line);
    } else {
      ScanText(p, text[..|text| - 1]);
      AppendLast(p.line, text);
    }
  }

  /** A terminated line is taken as a whole, whether or not its terminator is passed along. */
  lemma ScanLine(p: Parser, text: string)
    requires '\n' !in text && p.line == ""
    ensures Scan(p, text + "\n") == TakeLine(p, text) == TakeLine(p, text + "\n")
  {
    ScanTerminated(p, text);
    TrimTerminated(text);
  }

  lemma ScanTerminated(p: Parser, text: string)
    requires '\n' !in text && p.line == ""
    ensures Scan(p, text + "\n") == TakeLine(p, text)
  {
    assert (text + "\n")[..|text|] == text;
    ScanText(p, text);
    assert "" + text == text;
  }

  lemma TrimTerminated(text: string)
    ensures TrimNewlines(text + "\n") == TrimNewlines(text)
  {
    assert (text + "\n")[..|text|] == text;
  }

  // ---------- the printer ----------

  /** A line of a frame: a data field, or anything else, such as an event name or a comment. */
  datatype FrameLine = Data(text: string) | Other(text: string)

  /** The fields of a frame; an empty line ends it. */
  type Frame = seq<FrameLine>

  predicate Proper(f: FrameLine) {
    && '\n' !in f.text
    && (f.Other? ==> !HasPrefix(f.text, "data:") && exists i :: 0 <= i < |f.text| && f.text[i] != '\r')
  }

  predicate AllProper(frame: Frame) {
    forall i :: 0 <= i < |frame| ==> Proper(frame[i])
  }

  predicate AllPrintable(frames: seq<Frame>) {
    forall i :: 0 <= i < |frames| ==> AllProper(frames[i])
  }

  function LineOf(f: FrameLine): string {
    if f.Data? then "data:" + f.text else f.text
  }

  function FieldLines(frame: Frame): seq<string> {
    if frame == [] then [] else FieldLines(frame[..|frame| - 1]) + [LineOf(frame[|frame| - 1])]
  }

  function Lines(frames: seq<Frame>): seq<string> {
    if frames == [] then [] else Lines(frames[..|frames| - 1]) + FieldLines(frames[|frames| - 1]) + [""]
  }

  /** Lines as bytes: `crlf` says which of them end in "\r\n" instead of "\n". */
  function PrintLines(lines: seq<string>, crlf: nat -> bool): string {
    if lines == [] then ""
    else
      var n := |lines| - 1;
      PrintLines(lines[..n], crlf) + lines[n] + (if crlf(n) then "\r\n" else "\n")
  }

  function Print(frames: seq<Frame>, crlf: nat -> bool): string {
    PrintLines(Lines(frames), crlf)
  }

  // ---------- what frames carry ----------

  /** The texts of the data fields. */
  function DataOf(frame: Frame): seq<string> {
    if frame == [] then []
    else DataOf(frame[..|frame| - 1]) + (if frame[|frame| - 1].Data? then [frame[|frame| - 1].text] else [])
  }

  /** The texts, each trimmed, joined by newlines. */
  function Joined(texts: seq<string>): string {
    if texts == [] then ""
    else
      var n := |texts| - 1;
      (if n == 0 then "" else Joined(texts[..n]) + "\n") + TrimSpace(texts[n])
  }

  /** The payloads: what the data fields of each frame say together, if that is not blank. */
  function PayloadsOf(frames: seq<Frame>): seq<string> {
    if frames == [] then []
    else
      var payload := TrimSpace(Joined(DataOf(frames[|frames| - 1])));
      PayloadsOf(frames[..|frames| - 1]) + (if payload == "" then [] else [payload])
  }

  // ---------- lines ----------

  function TakeLines(p: Parser, lines: seq<string>): Parser {
    if lines == [] then p else TakeLine(TakeLines(p, lines[..|lines| - 1]), lines[|lines| - 1])
  }

  predicate NoNewlines(lines: seq<string>) {
    forall i :: 0 <= i < |lines| ==> '\n' !in lines[i]
  }

  lemma CarriageReturn(p: Parser, text: string)
    ensures TakeLine(p, text + "\r") == TakeLine(p, text)
  {
    assert (text + "\r")[..|text|] == text;
  }

  /** However the lines end, the parser takes them one by one. */
  lemma {:induction false} LinesScanned(p: Parser, lines: seq<string>, crlf: nat -> bool)
    requires NoNewlines(lines) && p.line == ""
    ensures Scan(p, PrintLines(lines, crlf)) == TakeLines(p, lines) && TakeLines(p, lines).line == ""
  {
    if lines != [] {
      var n := |lines| - 1;
      LinesScanned(p, lines[..n], crlf);
      var q := TakeLines(p, lines[..n]);
      var end := if crlf(n) then "\r\n" else "\n";
      AppendAppend(PrintLines(lines[..n], crlf), lines[n], end);
      ScanAppend(p, PrintLines(lines[..n], crlf), lines[n] + end);
      LineScanned(q, lines[n], crlf(n));
    }
  }

  lemma LineScanned(p: Parser, text: string, carriage: bool)
    requires '\n' !in text && p.line == ""
    ensures Scan(p, text + (if carriage then "\r\n" else "\n")) == TakeLine(p, text) && TakeLine(p, text).line == ""
  {
    if carriage {
      assert text + "\r\n" == (text + "\r") + "\n";
      ScanLine(p, text + "\r");
      CarriageReturn(p, text);
    } else {
      ScanLine(p, text);
    }
  }

  lemma {:induction false} TakeLinesAppend(p: Parser, a: seq<string>, b: seq<string>)
    ensures TakeLines(p, a + b) == TakeLines(TakeLines(p, a), b)
  {
    if b == [] {
      AppendNothing(a);
    } else {
      assert (a + b)[..|a + b| - 1] == a + b[..|b| - 1];
      TakeLinesAppend(p, a, b[..|b| - 1]);
    }
  }

  // ---------- one field ----------

  /** White space at the end does not survive trimming. */
  lemma {:induction false} TrimAppended(s: string, c: char)
    requires IsSpace(c)
    ensures TrimSpace(s + [c]) == TrimSpace(s)
  {
    if s == "" {
      assert [c][1..] == "" && s + [c] == [c];
    } else if IsSpace(s[0]) {
      assert (s + [c])[1..] == s[1..] + [c];
      TrimAppended(s[1..], c);
    } else {
      assert (s + [c])[..|s|] == s;
    }
  }

  lemma TrimPrepended(s: string)
    ensures TrimSpace(" " + s) == TrimSpace(s)
  {
    assert (" " + s)[1..] == s;
  }

  /** The line end goes with the white space, and the field name stays. */
  lemma {:induction false} DataTrimmed(text: string)
    ensures var line := TrimNewlines("data:" + text);
      HasPrefix(line, "data:") && TrimSpace(line[5..]) == TrimSpace(text)
  {
    var line := "data:" + text;
    if text != "" && (text[|text| - 1] == '\r' || text[|text| - 1] == '\n') {
      var n := |text| - 1;
      DataTrimmed(text[..n]);
      assert line[..|line| - 1] == "data:" + text[..n];
      TrimAppended(text[..n], text[n]);
      assert text[..n] + [text[n]] == text;
    } else {
      assert line[|line| - 1] == if text == "" then ':' else text[|text| - 1];
      assert line[..5] == "data:" && line[5..] == text;
    }
  }

  lemma {:induction false} NotTrimmedAway(text: string, i: nat)
    requires i < |text| && text[i] != '\r' && text[i] != '\n'
    ensures TrimNewlines(text) != "" && TrimNewlines(text) <= text
  {
    var n := |text| - 1;
    if text[n] == '\r' || text[n] == '\n' {
      NotTrimmedAway(text[..n], i);
    }
  }

  lemma PrefixCarries(s: string, t: string, p: string)
    requires t <= s && HasPrefix(t, p)
    ensures HasPrefix(s, p)
  {
    assert s[..|p|] == t[..|p|];
  }

  lemma FieldTaken(p: Parser, f: FrameLine)
    requires Proper(f)
    ensures TakeLine(p, LineOf(f)) == if f.Data? then p.(pending := p.pending + [TrimSpace(f.text)]) else p
  {
    if f.Data? {
      DataTrimmed(f.text);
    } else {
      var i :| 0 <= i < |f.text| && f.text[i] != '\r';
      NotTrimmedAway(f.text, i);
      var line := TrimNewlines(f.text);
      if HasPrefix(line, "data:") {
        PrefixCarries(f.text, line, "data:");
      }
    }
  }

  function Trims(texts: seq<string>): seq<string> {
    if texts == [] then [] else Trims(texts[..|texts| - 1]) + [TrimSpace(texts[|texts| - 1])]
  }

  lemma {:induction false} FieldsTaken(p: Parser, frame: Frame)
    requires AllProper(frame)
    ensures TakeLines(p, FieldLines(frame)) == p.(pending := p.pending + Trims(DataOf(frame)))
  {
    if frame == [] {
      AppendNothing(p.pending);
    } else {
      var n := |frame| - 1;
      var before, f := frame[..n], frame[n];
      FieldsTaken(p, before);
      FieldTaken(p.(pending := p.pending + Trims(DataOf(before))), f);
      assert FieldLines(frame)[..|FieldLines(frame)| - 1] == FieldLines(before);
      if f.Data? {
        assert DataOf(frame)[..|DataOf(frame)| - 1] == DataOf(before);
        AppendAppend(p.pending, Trims(DataOf(before)), [TrimSpace(f.text)]);
      } else {
        AppendNothing(DataOf(before));
      }
    }
  }

  // ---------- one frame ----------

  lemma {:induction false} JoinLast(lines: seq<string>, last: string)
    requires lines != []
    ensures JoinLines(lines + [last]) == JoinLines(lines) + "\n" + last
  {
    assert (lines + [last])[1..] == lines[1..] + [last];
    if |lines| > 1 {
      JoinLast(lines[1..], last);
      AppendAppend(lines[0] + "\n", JoinLines(lines[1..]), "\n" + last);
      AppendAppend(JoinLines(lines[1..]), "\n", last);
      AppendAppend(JoinLines(lines), "\n", last);
    } else {
      assert lines + [last] == [lines[0], last];
    }
  }

  lemma {:induction false} TrimsJoined(texts: seq<string>)
    ensures JoinLines(Trims(texts)) == Joined(texts) && (Trims(texts) == [] <==> texts == [])
  {
    if texts != [] {
      var n := |texts| - 1;
      TrimsJoined(texts[..n]);
      if n > 0 {
        JoinLast(Trims(texts[..n]), TrimSpace(texts[n]));
      }
    }
  }

  /** Between two frames. */
  predicate AtBoundary(p: Parser) {
    p.line == "" && p.pending == []
  }

  /** Several data lines of a frame are one payload: the trimmed texts joined by newlines. */
  lemma FrameTaken(p: Parser, frame: Frame)
    requires AllProper(frame) && AtBoundary(p)
    ensures var payload := TrimSpace(Joined(DataOf(frame)));
      Flush(TakeLines(p, FieldLines(frame))) ==
      p.(payloads := if payload == "" then p.payloads else p.payloads + [payload])
  {
    FieldsTaken(p, frame);
    TrimsJoined(DataOf(frame));
    assert [] + Trims(DataOf(frame)) == Trims(DataOf(frame));
  }

  lemma EmptyLine(p: Parser, lines: seq<string>)
    ensures TakeLines(p, lines + [""]) == Flush(TakeLines(p, lines))
  {
    assert (lines + [""])[..|lines|] == lines;
  }

  lemma {:induction false} FramesTaken(frames: seq<Frame>)
    requires AllPrintable(frames)
    ensures TakeLines(NEW, Lines(frames)) == Parser("", [], PayloadsOf(frames))
  {
    if frames != [] {
      var n := |frames| - 1;
      FramesTaken(frames[..n]);
      var p := TakeLines(NEW, Lines(frames[..n]));
      assert AllProper(frames[n]);
      AppendAppend(Lines(frames[..n]), FieldLines(frames[n]), [""]);
      TakeLinesAppend(NEW, Lines(frames[..n]), FieldLines(frames[n]) + [""]);
      EmptyLine(p, FieldLines(frames[n]));
      FrameTaken(p, frames[n]);
      AppendNothing(PayloadsOf(frames[..n]));
    }
  }

  lemma {:induction false} FieldLinesWhole(frame: Frame)
    requires AllProper(frame)
    ensures NoNewlines(FieldLines(frame))
  {
    if frame != [] {
      FieldLinesWhole(frame[..|frame| - 1]);
      assert Proper(frame[|frame| - 1]);
    }
  }

  lemma {:induction false} LinesWhole(frames: seq<Frame>)
    requires AllPrintable(frames)
    ensures NoNewlines(Lines(frames))
  {
    if frames != [] {
      LinesWhole(frames[..|frames| - 1]);
      assert AllProper(frames[|frames| - 1]);
      FieldLinesWhole(frames[|frames| - 1]);
    }
  }

  /** The parser undoes the printer, whatever else stands in the frames and however each line ends. */
  lemma PrintThenParse(frames: seq<Frame>, crlf: nat -> bool)
    requires AllPrintable(frames)
    ensures Parse(Print(frames, crlf)) == PayloadsOf(frames)
  {
    LinesWhole(frames);
    LinesScanned(NEW, Lines(frames), crlf);
    FramesTaken(frames);
  }

  /** A last frame that no empty line ends is dispatched at the end of the input. */
  lemma OpenFrameCounts(frames: seq<Frame>, last: Frame, crlf: nat -> bool)
    requires AllPrintable(frames + [last])
    ensures Parse(PrintLines(Lines(frames) + FieldLines(last), crlf)) == PayloadsOf(frames + [last])
  {
    var lines := Lines(frames) + FieldLines(last);
    assert (frames + [last])[..|frames|] == frames && (frames + [last])[|frames|] == last;
    assert forall i :: 0 <= i < |frames| ==> (frames + [last])[i] == frames[i];
    LinesWhole(frames);
    FieldLinesWhole(last);
    LinesScanned(NEW, lines, crlf);
    TakeLinesAppend(NEW, Lines(frames), FieldLines(last));
    FramesTaken(frames);
    FrameTaken(TakeLines(NEW, Lines(frames)), last);
    AppendNothing(PayloadsOf(frames));
  }

  /** Whether the last line is terminated does not matter. */
  lemma LastLineCounts(lines: seq<string>, last: string, crlf: nat -> bool)
    requires NoNewlines(lines + [last])
    ensures Parse(PrintLines(lines, crlf) + last) == Parse(PrintLines(lines + [last], crlf))
  {
    assert (lines + [last])[|lines|] == last && (lines + [last])[..|lines|] == lines;
    assert forall i :: 0 <= i < |lines| ==> (lines + [last])[i] == lines[i];
    LinesScanned(NEW, lines, crlf);
    LinesScanned(NEW, lines + [last], crlf);
    var p := TakeLines(NEW, lines);
    ScanAppend(NEW, PrintLines(lines, crlf), last);
    ScanText(p, last);
    assert "" + last == last && p.(line := last).(line := "") == p;
    assert TrimSpace("") == "";
  }

  // ---------- the frames of the gateway ----------

  /** What the gateway writes for a payload: perhaps the name of the event, and one data field. */
  function Written(event: Option<string>, payload: string): Frame {
    (if event.Some? then [Other("event: " + event.value)] else []) + [Data(" " + payload)]
  }

  const KEEP_ALIVE: Frame := [Other(": keep-alive")]

  lemma KeepAliveIsSilent()
    ensures AllProper(KEEP_ALIVE) && DataOf(KEEP_ALIVE) == []
  {
    assert ": keep-alive"[0] == ':' && "data:"[0] == 'd';
    assert KEEP_ALIVE[..0] == [];
  }

  lemma OneData(payload: string)
    ensures DataOf([Data(" " + payload)]) == [" " + payload]
  {
    assert [Data(" " + payload)][..0] == [];
  }

  /** An event of one line is carried as it is. */
  lemma WrittenCarries(event: Option<string>, payload: string)
    requires '\n' !in payload && (event.Some? ==> '\n' !in event.value)
    ensures AllProper(Written(event, payload)) && DataOf(Written(event, payload)) == [" " + payload]
  {
    OneData(payload);
    if event.Some? {
      var line, frame := "event: " + event.value, Written(event, payload);
      assert line[0] == 'e' && "data:"[0] == 'd' && line[..5][0] == 'e';
      assert frame == [Other(line), Data(" " + payload)];
      assert frame[..1] == [Other(line)] && frame[..1][..0] == [];
    }
  }

  lemma OneTextJoined(payload: string)
    requires Trimmed(payload)
    ensures TrimSpace(Joined([" " + payload])) == payload
  {
    TrimPrepended(payload);
    TrimmedIsFixed(payload);
    assert [" " + payload][..0] == [] && "" + payload == payload;
  }

  // ---------- what is dispatched ----------

  predicate Dispatchable(payload: string) {
    payload != "" && Trimmed(payload)
  }

  predicate AllDispatchable(payloads: seq<string>) {
    forall i :: 0 <= i < |payloads| ==> Dispatchable(payloads[i])
  }

  lemma FlushDispatches(p: Parser)
    requires AllDispatchable(p.payloads)
    ensures AllDispatchable(Flush(p).payloads)
  {
    TrimSpaceIsTrimmed(JoinLines(p.pending));
  }

  lemma LineDispatches(p: Parser, line: string)
    requires AllDispatchable(p.payloads)
    ensures AllDispatchable(TakeLine(p, line).payloads)
  {
    FlushDispatches(p);
  }

  lemma {:induction false} ScanDispatches(p: Parser, data: string)
    requires AllDispatchable(p.payloads)
    ensures AllDispatchable(Scan(p, data).payloads)
  {
    if data != "" {
      var q := Scan(p, data[..|data| - 1]);
      ScanDispatches(p, data[..|data| - 1]);
      LineDispatches(q.(line := ""), q.line);
    }
  }

  /** Every payload that is dispatched is trimmed and not empty, whatever the input. */
  lemma ParseDispatches(data: string)
    ensures AllDispatchable(Parse(data))
  {
    var p := Scan(NEW, data);
    ScanDispatches(NEW, data);
    LineDispatches(p.(line := ""), p.line);
    FlushDispatches(LastLine(p));
  }

  function Frames(payloads: seq<string>): seq<Frame> {
    if payloads == [] then [] else Frames(payloads[..|payloads| - 1]) + [Written(None, payloads[|payloads| - 1])]
  }

  predicate OneLine(payload: string) {
    Dispatchable(payload) && '\n' !in payload
  }

  predicate AllOneLine(payloads: seq<string>) {
    forall i :: 0 <= i < |payloads| ==> OneLine(payloads[i])
  }

  lemma MorePrintable(frames: seq<Frame>, event: Option<string>, payload: string)
    requires AllPrintable(frames) && OneLine(payload) && (event.Some? ==> '\n' !in event.value)
    ensures AllPrintable(frames + [Written(event, payload)])
    ensures PayloadsOf(frames + [Written(event, payload)]) == PayloadsOf(frames) + [payload]
  {
    WrittenCarries(event, payload);
    OneTextJoined(payload);
    assert (frames + [Written(event, payload)])[..|frames|] == frames;
  }

  /** The frames carry the payloads, one each. */
  ghost predicate Carried(frames: seq<Frame>, payloads: seq<string>) {
    AllPrintable(frames) && PayloadsOf(frames) == payloads
  }

  lemma OneMoreCarried(frames: seq<Frame>, payloads: seq<string>)
    requires payloads != [] && Carried(frames, payloads[..|payloads| - 1]) && OneLine(payloads[|payloads| - 1])
    ensures Carried(frames + [Written(None, payloads[|payloads| - 1])], payloads)
  {
    MorePrintable(frames, None, payloads[|payloads| - 1]);
  }

  lemma {:induction false} FramesCarry(payloads: seq<string>)
    requires AllOneLine(payloads)
    ensures Carried(Frames(payloads), payloads)
  {
    if payloads != [] {
      FramesCarry(payloads[..|payloads| - 1]);
      OneMoreCarried(Frames(payloads[..|payloads| - 1]), payloads);
    }
  }

  /** Whatever was parsed, printed as frames and parsed again, gives the same payloads, if none of them spans lines. */
  lemma ParsePrintParse(data: string, crlf: nat -> bool)
    requires forall i :: 0 <= i < |Parse(data)| ==> '\n' !in Parse(data)[i]
    ensures Parse(Print(Frames(Parse(data)), crlf)) == Parse(data)
  {
    ParseDispatches(data);
    assert forall i :: 0 <= i < |Parse(data)| ==> Dispatchable(Parse(data)[i]);
    FramesCarry(Parse(data));
    PrintThenParse(Frames(Parse(data)), crlf);
  }
}
