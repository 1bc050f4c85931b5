/**
 The output indices of the Responses stream.  The message is always item 0, while a function call
 takes the number of items before it; the two agree unless the text starts behind a function call.
 */
module ResponsesOutputIndexes {
  import opened Text
  import opened Chunks
  import opened Sorting
  import opened ResponsesObject
  import opened ResponsesStream

  /** The number of tool indices seen before the first text. */
  function Bare(cs: seq<Choice>): nat {
    if SentText(cs) == "" then |FirstSeen(SentCalls(cs))|
    else Bare(cs[..|cs| - 1])
  }

  /** Some choice carries a tool call fragment before any text, and text follows. */
  predicate ToolBeforeText(cs: seq<Choice>) {
    SentText(cs) != "" && exists i :: 0 <= i < |cs| && BareTool(cs, i)
  }

  predicate BareTool(cs: seq<Choice>, i: nat)
    requires i < |cs|
  {
    cs[i].toolCalls != [] && SentText(cs[..i + 1]) == ""
  }

  lemma {:induction false} NoToolsYet(cs: seq<Choice>)
    ensures SentCalls(cs) == [] <==> forall i :: 0 <= i < |cs| ==> cs[i].toolCalls == []
  {
    if cs != [] {
      var n := |cs| - 1;
      NoToolsYet(cs[..n]);
      assert forall i :: 0 <= i < n ==> cs[..n][i] == cs[i];
    }
  }

  lemma {:induction false} QuietPrefix(cs: seq<Choice>, i: nat)
    requires i <= |cs| && SentText(cs) == ""
    ensures SentText(cs[..i]) == ""
  {
    var n := |cs| - 1;
    if i <= n {
      QuietPrefix(cs[..n], i);
      assert cs[..n][..i] == cs[..i];
    } else {
      assert cs[..i] == cs;
    }
  }

  lemma FragmentsSeen(calls: seq<ToolCall>)
    ensures FirstSeen(calls) == [] <==> calls == []
  {
    FirstSeenFacts(calls);
    if calls != [] {
      assert calls[0].index in FirstSeen(calls);
    }
  }

  lemma {:induction false} BareMeaning(cs: seq<Choice>)
    ensures Bare(cs) > 0 <==> exists i :: 0 <= i < |cs| && BareTool(cs, i)
  {
    var n := |cs| - 1;
    if SentText(cs) == "" {
      NoToolsYet(cs);
      FragmentsSeen(SentCalls(cs));
      forall i | 0 <= i < |cs| ensures BareTool(cs, i) <==> cs[i].toolCalls != [] {
        QuietPrefix(cs, i + 1);
      }
      if SentCalls(cs) != [] {
        var i :| 0 <= i < |cs| && cs[i].toolCalls != [];
        assert BareTool(cs, i);
      }
    } else {
      BareMeaning(cs[..n]);
      forall i | 0 <= i < n ensures BareTool(cs[..n], i) <==> BareTool(cs, i) {
        assert cs[..n][..i + 1] == cs[..i + 1];
      }
      assert cs[..n + 1] == cs;
      if i :| 0 <= i < n && BareTool(cs[..n], i) {
        assert BareTool(cs, i);
      }
      if i :| 0 <= i < |cs| && BareTool(cs, i) {
        assert i < n && BareTool(cs[..n], i);
      }
    }
  }

  // ---------- the numbers that function calls get ----------

  /** The first `bare` function calls are numbered from 0, the others behind the message. */
  ghost predicate Numbered(s: State, bare: nat) {
    && bare <= |s.indexes| && (!s.messageStarted ==> bare == |s.indexes|)
    && forall i :: 0 <= i < |s.indexes| ==> NumberedAt(s.calls, s.indexes, bare, i)
  }

  ghost predicate NumberedAt(calls: map<int, FunctionCall>, indexes: seq<int>, bare: nat, i: nat)
    requires i < |indexes|
  {
    indexes[i] in calls && calls[indexes[i]].outputIndex == if i < bare then i else i + 1
  }

  lemma ToolNumbers(s: State, bare: nat, tc: ToolCall)
    requires Numbered(s, bare)
    ensures var t := ConsumeTool(s, tc);
      t.messageStarted == s.messageStarted && Numbered(t, if s.messageStarted then bare else |t.indexes|)
  {
    var content := s.hasContent || Meaningful(tc);
    FragmentTaken(s, tc, content);
    FragmentFrame(s, tc, content);
    var t := ConsumeTool(s, tc);
    var now := if s.messageStarted then bare else |t.indexes|;
    forall i | 0 <= i < |t.indexes| ensures NumberedAt(t.calls, t.indexes, now, i) {
      if i < |s.indexes| {
        assert NumberedAt(s.calls, s.indexes, bare, i);
      }
    }
  }

  lemma {:induction false} ToolsNumber(s: State, bare: nat, calls: seq<ToolCall>)
    requires Numbered(s, bare)
    ensures var t := ConsumeTools(s, calls);
      t.messageStarted == s.messageStarted && Numbered(t, if s.messageStarted then bare else |t.indexes|)
  {
    if calls != [] {
      var n := |calls| - 1;
      ToolsNumber(s, bare, calls[..n]);
      var t := ConsumeTools(s, calls[..n]);
      ToolNumbers(t, if s.messageStarted then bare else |t.indexes|, calls[n]);
    }
  }

  lemma TextNumbers(s: State, bare: nat, content: string)
    requires Numbered(s, bare)
    ensures Numbered(ConsumeText(s, content), bare)
  {
    if content != "" {
      OpenMessageStarts(s.(hasContent := true));
      var t := ConsumeText(s, content);
      forall i | 0 <= i < |t.indexes| ensures NumberedAt(t.calls, t.indexes, bare, i) {
        assert NumberedAt(s.calls, s.indexes, bare, i);
      }
    }
  }

  lemma ChoiceNumbers(s: State, bare: nat, c: Choice)
    requires Numbered(s, bare)
    ensures var t := ConsumeChoice(s, c); Numbered(t, if t.messageStarted then bare else |t.indexes|)
  {
    TextNumbers(s, bare, c.content);
    ToolsNumber(ConsumeText(s, c.content), bare, c.toolCalls);
    var t, u := ConsumeTools(ConsumeText(s, c.content), c.toolCalls), ConsumeChoice(s, c);
    var now := if t.messageStarted then bare else |t.indexes|;
    forall i | 0 <= i < |u.indexes| ensures NumberedAt(u.calls, u.indexes, now, i) {
      assert NumberedAt(t.calls, t.indexes, now, i);
    }
  }

  lemma {:induction false} ChoicesNumber(s: State, before: seq<Choice>, cs: seq<Choice>)
    requires Live(s, SentText(before), SentCalls(before)) && Numbered(s, Bare(before))
    ensures Live(ConsumeChoices(s, cs), SentText(before + cs), SentCalls(before + cs))
    ensures Numbered(ConsumeChoices(s, cs), Bare(before + cs))
  {
    ChoicesKeep(s, SentText(before), SentCalls(before), cs);
    SentTextAppend(before, cs);
    SentCallsAppend(before, cs);
    if cs == [] {
      AppendNothing(before);
    } else {
      var n := |cs| - 1;
      ChoicesNumber(s, before, cs[..n]);
      assert (before + cs)[..|before + cs| - 1] == before + cs[..n];
      ChoiceNumbers(ConsumeChoices(s, cs[..n]), Bare(before + cs[..n]), cs[n]);
    }
  }

  lemma {:induction false} FeedsNumber(codec: Codec, model: string, chunks: seq<Chunk>)
    ensures Numbered(Run(codec, Init(model), Feeds(chunks)), Bare(AllChoices(chunks)))
  {
    if chunks != [] {
      var n := |chunks| - 1;
      assert Feeds(chunks)[..n] == Feeds(chunks[..n]);
      FeedsNumber(codec, model, chunks[..n]);
      FeedsKeep(codec, model, chunks[..n]);
      var s := Run(codec, Init(model), Feeds(chunks[..n]));
      NotedKeeps(s, TextSent(chunks[..n]), SentCalls(AllChoices(chunks[..n])), chunks[n]);
      assert Numbered(NoteChunk(s, chunks[n]), Bare(AllChoices(chunks[..n])));
      ChoicesNumber(NoteChunk(s, chunks[n]), AllChoices(chunks[..n]), chunks[n].choices);
    }
  }

  // ---------- whether a client can tell items apart by their numbers ----------

  ghost predicate Distinct(items: map<Id, Shown>) {
    forall i, j :: i in items && j in items && i != j ==> items[i].outputIndex != items[j].outputIndex
  }

  /** The number of an item, found through the translator's own tables. */
  lemma NumberOf(codec: Codec, t: State, text: string, calls: seq<ToolCall>, bare: nat, id: Id) returns (i: int)
    requires Delivered(codec, t, text, calls) && Numbered(t, bare) && (t.messageStarted ==> t.messageOutputIndex == 0)
    requires id in t.client.items
    ensures i == -1 ==> t.messageStarted && id == t.messageItemID && t.client.items[id].outputIndex == 0
    ensures i != -1 ==> 0 <= i < |t.indexes| && t.indexes[i] in t.calls && t.calls[t.indexes[i]].itemID == id
                        && t.client.items[id].outputIndex == if i < bare then i else i + 1
  {
    assert Known(t, id);
    if t.messageStarted && id == t.messageItemID {
      i := -1;
    } else {
      var k :| k in t.calls && t.calls[k].itemID == id;
      i :| 0 <= i < |t.indexes| && t.indexes[i] == k;
      assert NumberedAt(t.calls, t.indexes, bare, i);
      assert CallDone(codec, t.calls[k], t.client.items, true);
    }
  }

  lemma NumbersDiffer(codec: Codec, t: State, text: string, calls: seq<ToolCall>, bare: nat)
    requires Delivered(codec, t, text, calls) && Numbered(t, bare) && (t.messageStarted ==> t.messageOutputIndex == 0)
    requires text == "" || bare == 0
    ensures Distinct(t.client.items)
  {
    forall a, b | a in t.client.items && b in t.client.items && a != b
      ensures t.client.items[a].outputIndex != t.client.items[b].outputIndex
    {
      var i := NumberOf(codec, t, text, calls, bare, a);
      var j := NumberOf(codec, t, text, calls, bare, b);
    }
  }

  lemma NumbersCollide(codec: Codec, t: State, text: string, calls: seq<ToolCall>, bare: nat)
    requires Delivered(codec, t, text, calls) && Numbered(t, bare) && (t.messageStarted ==> t.messageOutputIndex == 0)
    requires text != "" && bare > 0
    ensures !Distinct(t.client.items)
  {
    assert NumberedAt(t.calls, t.indexes, bare, 0);
    var k := t.indexes[0];
    var a, b := t.calls[k].itemID, t.messageItemID;
    assert OwnIds(t) && a != b;
    assert CallDone(codec, t.calls[k], t.client.items, true);
    assert t.client.items[a].outputIndex == 0;
    assert t.client.items[b].outputIndex == 0;
  }

  /**
   In a complete stream the items' output indices are pairwise distinct, unless a choice with a
   tool call fragment comes before the first text; then the message and the first call share 0.
   */
  lemma OutputIndexes(codec: Codec, model: string, chunks: seq<Chunk>)
    requires Substance(chunks)
    ensures Distinct(AfterEnd(codec, model, chunks).client.items) <==> !ToolBeforeText(AllChoices(chunks))
  {
    FeedsKeep(codec, model, chunks);
    FeedsNumber(codec, model, chunks);
    var s, sent := Run(codec, Init(model), Feeds(chunks)), SentCalls(AllChoices(chunks));
    FinishDelivers(codec, s, TextSent(chunks), sent);
    var t, bare := AfterEnd(codec, model, chunks), Bare(AllChoices(chunks));
    BareMeaning(AllChoices(chunks));
    assert Numbered(t, bare);
    if TextSent(chunks) != "" && bare > 0 {
      NumbersCollide(codec, t, TextSent(chunks), sent, bare);
    } else {
      NumbersDiffer(codec, t, TextSent(chunks), sent, bare);
    }
  }
}
