/**
 The Claude translator as the object that the relay drives: its fields, updated in place, and its
 loops over choices, tool calls and open blocks, proved to do what `ClaudeStream` says.
 */
module ClaudeTranslator {
  import opened Text
  import opened Chunks
  import Spec = ClaudeStream

  method AnyMeaningful(c: Choice) returns (found: bool)
    ensures found == HasMeaningfulCall(c)
  {
    for i := 0 to |c.toolCalls|
      invariant forall j :: 0 <= j < i ==> !Meaningful(c.toolCalls[j])
    {
      if Meaningful(c.toolCalls[i]) {
        return true;
      }
    }
    return false;
  }

  class Translator {
    var model: string
    var messageID: string
    const fallbackID: string
    var usage: Usage
    var finishReason: string
    var started: bool
    var textOpen: bool
    var textIndex: int
    var nextIndex: int
    var finished: bool
    var hasContent: bool
    var toolBlocks: map<int, Spec.ToolBlock>
    var toolBlockKeys: seq<int>
    var out: seq<Spec.Event>
    ghost var client: Spec.Client

    ghost function View(): Spec.State
      reads this
    {
      Spec.State(Spec.Header(model, messageID, fallbackID, usage, finishReason), started, textOpen, textIndex,
                 nextIndex,
                 finished, hasContent, toolBlocks, toolBlockKeys, out, client)
    }

    constructor (model: string, fallbackID: string)
      ensures View() == Spec.Init(model, fallbackID)
    {
      this.model, this.fallbackID := model, fallbackID;
      messageID, usage, finishReason := "", map[], "";
      started, textOpen, textIndex, nextIndex, finished, hasContent := false, false, 0, 0, false, false;
      toolBlocks, toolBlockKeys, out, client := map[], [], [], Spec.NEW_CLIENT;
    }

    method Emit(e: Spec.Event)
      modifies this`out, this`client
      ensures View() == Spec.Emit(old(View()), e)
    {
      out := out + [e];
      client := Spec.React(client, e);
    }

    method EnsureStarted()
      modifies this`started, this`out, this`client
      ensures View() == Spec.EnsureStarted(old(View()))
    {
      if started {
        return;
      }
      started := true;
      Emit(Spec.MessageStart(FirstNonEmpty(messageID, fallbackID), model,
                             Spec.NonZero(LookupUsage(usage, "prompt_tokens"))));
    }

    method EnsureTextBlock()
      modifies this`textIndex, this`nextIndex, this`textOpen, this`out, this`client
      ensures View() == Spec.EnsureTextBlock(old(View()))
    {
      if textOpen {
        return;
      }
      textIndex := nextIndex;
      nextIndex := nextIndex + 1;
      textOpen := true;
      Emit(Spec.BlockStart(textIndex, Spec.TextStart));
    }

    method CloseTextBlock()
      modifies this`textOpen, this`out, this`client
      ensures View() == Spec.CloseTextBlock(old(View()))
    {
      if !textOpen {
        return;
      }
      textOpen := false;
      Emit(Spec.BlockStop(textIndex));
    }

    method ConsumeToolCall(tc: ToolCall)
      modifies this`toolBlocks, this`toolBlockKeys, this`nextIndex, this`out, this`client
      ensures View() == Spec.ConsumeTool(old(View()), tc)
    {
      var block: Spec.ToolBlock;
      if tc.index !in toolBlocks {
        block := Spec.ToolBlock(nextIndex, FirstNonEmpty(tc.id, "toolu_" + Decimal(tc.index)),
                                FirstNonEmpty(tc.name, "tool_" + Decimal(tc.index)), false);
        toolBlocks := toolBlocks[tc.index := block];
        toolBlockKeys := toolBlockKeys + [tc.index];
        nextIndex := nextIndex + 1;
        Emit(Spec.BlockStart(block.openIndex, Spec.ToolStart(block.id, block.name)));
      } else {
        block := toolBlocks[tc.index];
        if block.id == "" && tc.id != "" {
          block := block.(id := tc.id);
        }
        if block.name == "" && tc.name != "" {
          block := block.(name := tc.name);
        }
        toolBlocks := toolBlocks[tc.index := block];
      }
      assert View() == Spec.OpenTool(old(View()), tc);
      if tc.arguments != "" {
        Emit(Spec.JsonDelta(block.openIndex, tc.arguments));
      }
    }

    method ConsumeText(content: string)
      requires content != ""
      modifies this
      ensures View() == Spec.ConsumeText(old(View()), content)
    {
      hasContent := true;
      EnsureStarted();
      EnsureTextBlock();
      Emit(Spec.TextDelta(textIndex, content));
    }

    method ConsumeToolCalls(calls: seq<ToolCall>)
      modifies this`toolBlocks, this`toolBlockKeys, this`nextIndex, this`out, this`client
      ensures View() == Spec.ConsumeTools(old(View()), calls)
    {
      for i := 0 to |calls|
        invariant View() == Spec.ConsumeTools(old(View()), calls[..i])
      {
        Spec.ToolsOneMore(old(View()), calls, i);
        ConsumeToolCall(calls[i]);
      }
      assert calls[..|calls|] == calls;
    }

    method ConsumeCalls(c: Choice)
      modifies this
      ensures View() == Spec.ConsumeCalls(old(View()), c)
    {
      var meaningful := AnyMeaningful(c);
      if meaningful {
        hasContent := true;
        EnsureStarted();
        if textOpen {
          CloseTextBlock();
        }
        ConsumeToolCalls(c.toolCalls);
      }
    }

    method ConsumeChoice(c: Choice)
      modifies this
      ensures View() == Spec.ConsumeChoice(old(View()), c)
    {
      if c.content != "" {
        ConsumeText(c.content);
      }
      if |c.toolCalls| > 0 {
        ConsumeCalls(c);
      }
      if c.finishReason != "" {
        finishReason := c.finishReason;
      }
    }

    method NoteChunk(chunk: Chunk)
      modifies this`model, this`messageID, this`usage
      ensures View() == old(View()).(header := Spec.NoteChunk(old(View()).header, chunk))
    {
      if chunk.model != "" {
        model := FirstNonEmpty(model, chunk.model);
      }
      if chunk.id != "" {
        messageID := FirstNonEmpty(messageID, chunk.id);
      }
      if chunk.usage.Some? {
        usage := chunk.usage.value;
      }
    }

    method ConsumeChoices(cs: seq<Choice>)
      modifies this
      ensures View() == Spec.ConsumeChoices(old(View()), cs)
    {
      for i := 0 to |cs|
        invariant View() == Spec.ConsumeChoices(old(View()), cs[..i])
      {
        Spec.ChoicesOneMore(old(View()), cs, i);
        ConsumeChoice(cs[i]);
      }
      assert cs[..|cs|] == cs;
    }

    method Consume(chunk: Chunk)
      modifies this
      ensures View() == Spec.Consume(old(View()), chunk)
    {
      NoteChunk(chunk);
      ConsumeChoices(chunk.choices);
    }

    method CloseToolBlock(key: int)
      modifies this`toolBlocks, this`out, this`client
      ensures View() == Spec.CloseTool(old(View()), key)
    {
      if key !in toolBlocks || toolBlocks[key].closed {
        return;
      }
      Emit(Spec.BlockStop(toolBlocks[key].openIndex));
      toolBlocks := toolBlocks[key := toolBlocks[key].(closed := true)];
    }

    method CloseToolBlocks()
      modifies this`toolBlocks, this`out, this`client
      ensures View() == Spec.CloseTools(old(View()), |toolBlockKeys|)
    {
      for n := 0 to |toolBlockKeys|
        invariant View() == Spec.CloseTools(old(View()), n)
      {
        CloseToolBlock(toolBlockKeys[n]);
      }
    }

    method Finish()
      modifies this
      ensures View() == Spec.Finish(old(View()))
    {
      if finished {
        return;
      }
      if !hasContent && !started {
        finished := true;
        return;
      }
      EnsureStarted();
      if textOpen {
        CloseTextBlock();
      }
      CloseToolBlocks();
      Emit(Spec.MessageDelta(Spec.StopReason(finishReason), Spec.NonZero(LookupUsage(usage, "completion_tokens"))));
      Emit(Spec.MessageStop);
      finished := true;
    }
  }
}
