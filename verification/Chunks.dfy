/** Decoded chunks of an OpenAI chat-completion stream, and what a sequence of them carries. */
module Chunks {
  import opened Text

  datatype ToolCall = ToolCall(index: int, id: string, kind: string, name: string, arguments: string)

  datatype Choice = Choice(content: string, toolCalls: seq<ToolCall>, finishReason: string)

  type Usage = map<string, int>

  datatype Chunk = Chunk(id: string, model: string, choices: seq<Choice>, usage: Option<Usage>)

  /** What happens to a translator: it is fed a chunk, or told that the stream has ended. */
  datatype Op = Feed(chunk: Chunk) | End

  function LookupUsage(usage: Usage, key: string): int {
    if key in usage then usage[key] else 0
  }

  /** A tool call fragment with at least one field that is not blank. */
  predicate Meaningful(tc: ToolCall) {
    !Blank(tc.id) || !Blank(tc.kind) || !Blank(tc.name) || !Blank(tc.arguments)
  }

  predicate HasMeaningfulCall(c: Choice) {
    exists i :: 0 <= i < |c.toolCalls| && Meaningful(c.toolCalls[i])
  }

  /** All choices of a sequence of chunks, in order. */
  function AllChoices(chunks: seq<Chunk>): seq<Choice> {
    if chunks == [] then [] else AllChoices(chunks[..|chunks| - 1]) + chunks[|chunks| - 1].choices
  }

  /** The text that the choices carry. */
  function SentText(choices: seq<Choice>): string {
    if choices == [] then "" else SentText(choices[..|choices| - 1]) + choices[|choices| - 1].content
  }

  /** The text that the chunks carry. */
  function TextSent(chunks: seq<Chunk>): string {
    SentText(AllChoices(chunks))
  }

  /** The usage that the last chunk with a usage reports. */
  function LastUsage(chunks: seq<Chunk>): Usage {
    if chunks == [] then map[]
    else if chunks[|chunks| - 1].usage.Some? then chunks[|chunks| - 1].usage.value
    else LastUsage(chunks[..|chunks| - 1])
  }

  /** The last finish reason that is not empty. */
  function LastReason(choices: seq<Choice>): string {
    if choices == [] then ""
    else if choices[|choices| - 1].finishReason != "" then choices[|choices| - 1].finishReason
    else LastReason(choices[..|choices| - 1])
  }

  lemma {:induction false} LastReasonAppend(a: seq<Choice>, b: seq<Choice>)
    ensures LastReason(a + b) == if LastReason(b) != "" then LastReason(b) else LastReason(a)
  {
    if b == [] {
      assert a + b == a;
    } else {
      assert (a + b)[..|a + b| - 1] == a + b[..|b| - 1];
      LastReasonAppend(a, b[..|b| - 1]);
    }
  }

  /** The model that was requested or, if that is blank, the first one of the chunks that is not blank. */
  function FirstModel(requested: string, chunks: seq<Chunk>): string {
    if chunks == [] then requested
    else
      var before, last := FirstModel(requested, chunks[..|chunks| - 1]), chunks[|chunks| - 1].model;
      if Blank(before) && !Blank(last) then last else before
  }

  /** The first id that is not blank, or the empty one. */
  function FirstID(chunks: seq<Chunk>): string {
    if chunks == [] then ""
    else
      var before, last := FirstID(chunks[..|chunks| - 1]), chunks[|chunks| - 1].id;
      if Blank(before) && !Blank(last) then last else before
  }

  ghost predicate FirstNonBlank(ss: seq<string>, i: int) {
    0 <= i < |ss| && TrimSpace(ss[i]) != "" && forall j :: 0 <= j < i ==> TrimSpace(ss[j]) == ""
  }

  function Models(chunks: seq<Chunk>): seq<string> {
    seq(|chunks|, i requires 0 <= i < |chunks| => chunks[i].model)
  }

  function ChunkIds(chunks: seq<Chunk>): seq<string> {
    seq(|chunks|, i requires 0 <= i < |chunks| => chunks[i].id)
  }

  /** It is the first model that is not blank, and blank only if all of them are. */
  lemma {:induction false} FirstModelIsFirst(requested: string, chunks: seq<Chunk>)
    ensures var r := FirstModel(requested, chunks);
      && (TrimSpace(requested) != "" ==> r == requested)
      && (TrimSpace(requested) == "" && TrimSpace(r) != "" ==>
            exists i :: FirstNonBlank(Models(chunks), i) && r == Models(chunks)[i])
      && (TrimSpace(r) == "" ==> forall i :: 0 <= i < |chunks| ==> TrimSpace(chunks[i].model) == "")
  {
    BlankMeansTrimmedAway(requested);
    if chunks != [] {
      var n := |chunks| - 1;
      var before := FirstModel(requested, chunks[..n]);
      FirstModelIsFirst(requested, chunks[..n]);
      BlankMeansTrimmedAway(before);
      BlankMeansTrimmedAway(chunks[n].model);
      assert forall i :: 0 <= i < n ==> chunks[..n][i] == chunks[i] && Models(chunks[..n])[i] == Models(chunks)[i];
      if TrimSpace(requested) == "" && TrimSpace(before) != "" {
        var i :| FirstNonBlank(Models(chunks[..n]), i) && before == Models(chunks[..n])[i];
        assert FirstNonBlank(Models(chunks), i);
      } else if TrimSpace(before) == "" && TrimSpace(chunks[n].model) != "" {
        assert FirstNonBlank(Models(chunks), n);
      }
    }
  }

  /** It is the first id that is not blank, and empty if all of them are blank. */
  lemma {:induction false} FirstIDIsFirst(chunks: seq<Chunk>)
    ensures var r := FirstID(chunks);
      && (r != "" ==> exists i :: FirstNonBlank(ChunkIds(chunks), i) && r == ChunkIds(chunks)[i])
      && (r != "" ==> !Blank(r))
      && (r == "" ==> forall i :: 0 <= i < |chunks| ==> TrimSpace(chunks[i].id) == "")
  {
    if chunks != [] {
      var n := |chunks| - 1;
      var before := FirstID(chunks[..n]);
      FirstIDIsFirst(chunks[..n]);
      BlankMeansTrimmedAway(before);
      BlankMeansTrimmedAway(chunks[n].id);
      assert forall i :: 0 <= i < n ==> chunks[..n][i] == chunks[i] && ChunkIds(chunks[..n])[i] == ChunkIds(chunks)[i];
      if before != "" {
        var i :| FirstNonBlank(ChunkIds(chunks[..n]), i) && before == ChunkIds(chunks[..n])[i];
        assert FirstNonBlank(ChunkIds(chunks), i);
      } else if TrimSpace(chunks[n].id) != "" {
        assert FirstNonBlank(ChunkIds(chunks), n);
      }
    }
  }

  /** The number that a usage reports for a key, or 0. */
  ghost predicate Reports(usage: Usage, key: string, n: int) {
    if key in usage then n == usage[key] else n == 0
  }

  /** The model that is named for a stream: the first that is not blank, or a blank one. */
  ghost predicate ModelIs(requested: string, chunks: seq<Chunk>, model: string) {
    var first := FirstModel(requested, chunks);
    if Blank(first) then Blank(model) else model == first
  }

  /** A stream of chunks, as a translator meets it. */
  function Feeds(chunks: seq<Chunk>): seq<Op> {
    seq(|chunks|, i requires 0 <= i < |chunks| => Feed(chunks[i]))
  }

  /** The fragments of a choice that count: none, if all of them are blank. */
  function Kept(c: Choice): seq<ToolCall> {
    if HasMeaningfulCall(c) then c.toolCalls else []
  }

  /** The tool call fragments of the choices, without the choices whose fragments are all blank. */
  function KeptCalls(choices: seq<Choice>): seq<ToolCall> {
    if choices == [] then [] else KeptCalls(choices[..|choices| - 1]) + Kept(choices[|choices| - 1])
  }

  /** All tool call fragments of the choices. */
  function SentCalls(choices: seq<Choice>): seq<ToolCall> {
    if choices == [] then [] else SentCalls(choices[..|choices| - 1]) + choices[|choices| - 1].toolCalls
  }

  /** The argument fragments for one tool index, joined. */
  function ArgsOf(calls: seq<ToolCall>, index: int): string {
    if calls == [] then ""
    else
      var last := calls[|calls| - 1];
      ArgsOf(calls[..|calls| - 1], index) + (if last.index == index then last.arguments else "")
  }

  /** The first non-empty name among the fragments for one tool index. */
  function NameOf(calls: seq<ToolCall>, index: int): string {
    if calls == [] then ""
    else
      var before, last := NameOf(calls[..|calls| - 1], index), calls[|calls| - 1];
      if before == "" && last.index == index then last.name else before
  }

  /** The tool indices in order of first appearance. */
  function FirstSeen(calls: seq<ToolCall>): seq<int> {
    if calls == [] then []
    else
      var before, last := FirstSeen(calls[..|calls| - 1]), calls[|calls| - 1].index;
      if last in before then before else before + [last]
  }

  /** The id that the first fragment for a tool index carries. */
  function FirstIdOf(calls: seq<ToolCall>, index: int): string {
    if calls == [] then ""
    else
      var before, last := calls[..|calls| - 1], calls[|calls| - 1];
      if last.index == index && index !in FirstSeen(before) then last.id else FirstIdOf(before, index)
  }

  /** The name that the first fragment for a tool index carries. */
  function FirstNameOf(calls: seq<ToolCall>, index: int): string {
    if calls == [] then ""
    else
      var before, last := calls[..|calls| - 1], calls[|calls| - 1];
      if last.index == index && index !in FirstSeen(before) then last.name else FirstNameOf(before, index)
  }

  /** The first fragment for a tool index. */
  function FragmentFor(calls: seq<ToolCall>, k: int): ToolCall
    requires k in FirstSeen(calls)
  {
    var before := calls[..|calls| - 1];
    if k in FirstSeen(before) then FragmentFor(before, k) else calls[|calls| - 1]
  }

  /** Fragments are lost exactly if nothing but white space is in any field of any fragment of their choice. */
  lemma KeptMeaning(c: Choice)
    ensures if exists i :: 0 <= i < |c.toolCalls| && Says(c.toolCalls[i]) then Kept(c) == c.toolCalls else Kept(c) == []
  {
    forall i | 0 <= i < |c.toolCalls| ensures Says(c.toolCalls[i]) <==> Meaningful(c.toolCalls[i]) {
      SaysMeaning(c.toolCalls[i]);
    }
  }

  lemma SaysMeaning(tc: ToolCall)
    ensures Says(tc) <==> Meaningful(tc)
  {
    BlankMeansTrimmedAway(tc.id);
    BlankMeansTrimmedAway(tc.kind);
    BlankMeansTrimmedAway(tc.name);
    BlankMeansTrimmedAway(tc.arguments);
  }

  predicate Says(tc: ToolCall) {
    TrimSpace(tc.id) != "" || TrimSpace(tc.kind) != "" || TrimSpace(tc.name) != "" || TrimSpace(tc.arguments) != ""
  }

  lemma {:induction false} FirstSeenFacts(calls: seq<ToolCall>)
    ensures forall k :: k in FirstSeen(calls) <==> exists i :: 0 <= i < |calls| && calls[i].index == k
    ensures forall i, j :: 0 <= i < j < |FirstSeen(calls)| ==> FirstSeen(calls)[i] != FirstSeen(calls)[j]
  {
    if calls != [] {
      var n := |calls| - 1;
      FirstSeenFacts(calls[..n]);
      assert forall i :: 0 <= i < |calls| ==> calls[i] == if i < n then calls[..n][i] else calls[n];
    }
  }

  /** An index without fragments has no name, no arguments and no id. */
  lemma {:induction false} NothingSaid(calls: seq<ToolCall>, k: int)
    requires k !in FirstSeen(calls)
    ensures NameOf(calls, k) == "" && ArgsOf(calls, k) == "" && FirstIdOf(calls, k) == ""
  {
    if calls != [] {
      NothingSaid(calls[..|calls| - 1], k);
    }
  }

  /** What one more fragment adds. */
  lemma OneMoreFragment(calls: seq<ToolCall>, tc: ToolCall, k: int)
    ensures FirstSeen(calls + [tc]) == if tc.index in FirstSeen(calls) then FirstSeen(calls)
            else FirstSeen(calls) + [tc.index]
    ensures NameOf(calls + [tc], k) == if NameOf(calls, k) == "" && tc.index == k then tc.name else NameOf(calls, k)
    ensures ArgsOf(calls + [tc], k) == if tc.index == k then ArgsOf(calls, k) + tc.arguments else ArgsOf(calls, k)
    ensures FirstIdOf(calls + [tc], k) == if tc.index == k && k !in FirstSeen(calls) then tc.id else FirstIdOf(calls, k)
    ensures FirstNameOf(calls + [tc], k) ==
            if tc.index == k && k !in FirstSeen(calls) then tc.name else FirstNameOf(calls, k)
  {
    assert (calls + [tc])[..|calls|] == calls;
    AppendNothing(ArgsOf(calls, k));
  }

  lemma AppendLast<T>(a: seq<T>, b: seq<T>)
    requires b != []
    ensures a + b[..|b| - 1] + [b[|b| - 1]] == a + b
  {
  }

  lemma AppendAppend<T>(a: seq<T>, b: seq<T>, c: seq<T>)
    ensures a + b + c == a + (b + c)
  {
  }

  lemma AppendNothing<T>(a: seq<T>)
    ensures a + [] == a
  {
  }

  lemma {:induction false} SentTextAppend(a: seq<Choice>, b: seq<Choice>)
    ensures SentText(a + b) == SentText(a) + SentText(b)
  {
    if b == [] {
      assert a + b == a;
    } else {
      assert (a + b)[..|a + b| - 1] == a + b[..|b| - 1];
      SentTextAppend(a, b[..|b| - 1]);
    }
  }

  lemma {:induction false} KeptCallsAppend(a: seq<Choice>, b: seq<Choice>)
    ensures KeptCalls(a + b) == KeptCalls(a) + KeptCalls(b)
  {
    if b == [] {
      assert a + b == a;
    } else {
      assert (a + b)[..|a + b| - 1] == a + b[..|b| - 1];
      KeptCallsAppend(a, b[..|b| - 1]);
      AppendAppend(KeptCalls(a), KeptCalls(b[..|b| - 1]), Kept(b[|b| - 1]));
    }
  }

  lemma {:induction false} SentCallsAppend(a: seq<Choice>, b: seq<Choice>)
    ensures SentCalls(a + b) == SentCalls(a) + SentCalls(b)
  {
    if b == [] {
      assert a + b == a;
    } else {
      assert (a + b)[..|a + b| - 1] == a + b[..|b| - 1];
      SentCallsAppend(a, b[..|b| - 1]);
    }
  }
}
