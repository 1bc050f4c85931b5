/**
 The Responses translator as the object that the relay drives, proved to do what
 `ResponsesStream` says.
 */
module ResponsesTranslator {
  import opened Text
  import opened Chunks
  import opened Sorting
  import opened ResponsesObject
  import Spec = ResponsesStream

  class Translator {
    const codec: Codec
    var model: string
    var usage: Usage
    var finishReason: string
    var headersWritten: bool
    var completed: bool
    var hasContent: bool
    var messageStarted: bool
    var messageText: string
    var messageItemID: Id
    var messageOutputIndex: int
    var functionCalls: map<int, Spec.FunctionCall>
    var functionIndexes: seq<int>
    var stored: Option<Spec.Stored>
    var clock: nat
    var out: seq<Spec.Event>
    ghost var client: Spec.Client

    ghost function View(): Spec.State
      reads this
    {
      Spec.State(model, usage, finishReason, headersWritten, completed, hasContent, messageStarted, messageText,
                 messageItemID,
                 messageOutputIndex, functionCalls, functionIndexes, stored, clock, out, client)
    }

    constructor (codec: Codec, requestedModel: string)
      ensures View() == Spec.Init(requestedModel) && this.codec == codec
    {
      this.codec := codec;
      model, usage, finishReason := requestedModel, map[], "";
      headersWritten, completed, hasContent := false, false, false;
      messageStarted, messageText, messageItemID, messageOutputIndex := false, "", Given(""), -1;
      functionCalls, functionIndexes, stored, clock, out, client := map[], [], None, 0, [], Spec.NEW_CLIENT;
    }

    method Write(e: Spec.Event)
      modifies this`out, this`client
      ensures View() == Spec.Push(old(View()), e)
    {
      out := out + [e];
      client := Spec.React(client, e);
    }

    method EmitEvent(e: Spec.Event)
      modifies this`headersWritten, this`out, this`client
      ensures View() == Spec.Emit(old(View()), e)
    {
      if !headersWritten {
        headersWritten := true;
        Write(Spec.Created(model));
      }
      Write(e);
    }

    method MakeId() returns (id: Id)
      modifies this`clock
      ensures id == Made(old(clock)) && clock == old(clock) + 1
    {
      id := Made(clock);
      clock := clock + 1;
    }

    method StartMessage()
      modifies this`messageStarted, this`messageOutputIndex, this`messageItemID, this`clock
      ensures View() == Spec.StartMessage(old(View()))
    {
      messageStarted := true;
      messageOutputIndex := 0;
      messageItemID := MakeId();
    }

    method EnsureMessageItem()
      modifies this`messageStarted, this`messageOutputIndex, this`messageItemID, this`clock, this`headersWritten,
      this`out, this`client
      ensures View() == Spec.OpenMessage(old(View()))
    {
      if messageStarted {
        return;
      }
      StartMessage();
      var id, outputIndex := messageItemID, messageOutputIndex;
      EmitEvent(Spec.ItemAdded(outputIndex, id, Spec.MessageItem));
      EmitEvent(Spec.PartAdded(id, outputIndex));
    }

    method ConsumeText(content: string)
      requires content != ""
      modifies this
      ensures View() == Spec.ConsumeText(old(View()), content)
    {
      hasContent := true;
      EnsureMessageItem();
      messageText := messageText + content;
      EmitEvent(Spec.TextDelta(messageItemID, messageOutputIndex, content));
    }

    function NextFunctionOutputIndex(): int
      reads this
    {
      (if messageStarted then 1 else 0) + |functionIndexes|
    }

    method StartCall(tc: ToolCall) returns (call: Spec.FunctionCall)
      modifies this`functionCalls, this`functionIndexes, this`clock
      ensures View() == Spec.StartCall(old(View()), tc)
      ensures call == Spec.NewCall(old(View()), tc)
    {
      var outputIndex := NextFunctionOutputIndex();
      var itemID := MakeId();
      var madeID := MakeId();
      call := Spec.FunctionCall(outputIndex, itemID, FirstId(Given(tc.id), madeID.n), tc.name, tc.name, "");
      functionCalls := functionCalls[tc.index := call];
      functionIndexes := functionIndexes + [tc.index];
    }

    method OpenCall(tc: ToolCall)
      modifies this`functionCalls, this`functionIndexes, this`clock, this`headersWritten, this`out, this`client
      ensures View() == Spec.OpenCall(old(View()), tc)
      ensures tc.index in functionCalls
    {
      if tc.index in functionCalls {
        return;
      }
      var call := StartCall(tc);
      EmitEvent(Spec.ItemAdded(call.outputIndex, call.itemID, Spec.CallItem(call.callID, call.name)));
    }

    method AddArguments(tc: ToolCall)
      requires tc.index in functionCalls
      modifies this`functionCalls, this`headersWritten, this`out, this`client
      ensures View() == Spec.AddArguments(old(View()), tc)
    {
      var call := functionCalls[tc.index];
      if call.name == "" && tc.name != "" {
        call := call.(name := tc.name);
      }
      if call.callID == Given("") && tc.id != "" {
        call := call.(callID := Given(tc.id));
      }
      AppendNothing(call.arguments);
      functionCalls := functionCalls[tc.index := call.(arguments := call.arguments + tc.arguments)];
      if tc.arguments != "" {
        EmitEvent(Spec.ArgsDelta(call.itemID, call.outputIndex, call.callID, tc.arguments));
      }
    }

    method TakeFragment(tc: ToolCall, content: bool)
      modifies this
      ensures View() == Spec.TakeFragment(old(View()), tc, content)
    {
      ghost var s := old(View()).(hasContent := content);
      hasContent := content;
      OpenCall(tc);
      assert View() == Spec.OpenCall(s, tc);
      AddArguments(tc);
    }

    method ConsumeToolCall(tc: ToolCall)
      modifies this
      ensures View() == Spec.ConsumeTool(old(View()), tc)
    {
      TakeFragment(tc, hasContent || Meaningful(tc));
    }

    method ConsumeToolCalls(calls: seq<ToolCall>)
      modifies this
      ensures View() == Spec.ConsumeTools(old(View()), calls)
    {
      for i := 0 to |calls|
        invariant View() == Spec.ConsumeTools(old(View()), calls[..i])
      {
        Spec.ToolsOneMore(old(View()), calls, i);
        ConsumeToolCall(calls[i]);
      }
      assert calls[..|calls|] == calls;
    }

    method ConsumeChoice(c: Choice)
      modifies this
      ensures View() == Spec.ConsumeChoice(old(View()), c)
    {
      if c.content != "" {
        ConsumeText(c.content);
      }
      ConsumeToolCalls(c.toolCalls);
      if c.finishReason != "" {
        finishReason := c.finishReason;
      }
    }

    method ConsumeChoices(cs: seq<Choice>)
      modifies this
      ensures View() == Spec.ConsumeChoices(old(View()), cs)
    {
      for i := 0 to |cs|
        invariant View() == Spec.ConsumeChoices(old(View()), cs[..i])
      {
        Spec.ChoicesOneMore(old(View()), cs, i);
        ConsumeChoice(cs[i]);
      }
      assert cs[..|cs|] == cs;
    }

    method Consume(chunk: Chunk)
      modifies this
      ensures View() == Spec.Consume(old(View()), chunk)
    {
      if chunk.model != "" {
        model := FirstNonEmpty(model, chunk.model);
      }
      if chunk.usage.Some? {
        usage := chunk.usage.value;
      }
      ConsumeChoices(chunk.choices);
    }

    method CloseMessage()
      modifies this`headersWritten, this`out, this`client
      ensures View() == Spec.CloseMessage(old(View()))
    {
      if messageStarted {
        var text := messageText;
        EmitEvent(Spec.TextDone(messageItemID, messageOutputIndex, text));
        EmitEvent(Spec.PartDone(messageItemID, messageOutputIndex, text));
        EmitEvent(Spec.ItemDone(messageOutputIndex, messageItemID, Spec.MessageItem, text));
      }
    }

    method CloseCall(index: int)
      modifies this`headersWritten, this`out, this`client
      ensures View() == Spec.CloseCall(codec, old(View()), index)
    {
      if index !in functionCalls {
        return;
      }
      var call := functionCalls[index];
      var arguments := Normalize(codec, call.arguments);
      EmitEvent(Spec.ArgsDone(call.itemID, call.outputIndex, call.callID, call.name, arguments));
      EmitEvent(Spec.ItemDone(call.outputIndex, call.itemID, Spec.CallItem(call.callID, call.name), arguments));
    }

    method CloseCalls()
      modifies this`headersWritten, this`out, this`client
      ensures View() == Spec.CloseCalls(codec, old(View()), Sorted(functionIndexes))
    {
      var indexes := Sorted(functionIndexes);
      for i := 0 to |indexes|
        invariant View() == Spec.CloseCalls(codec, old(View()), indexes[..i])
      {
        Spec.CloseCallsOneMore(codec, old(View()), indexes, i);
        CloseCall(indexes[i]);
      }
      assert indexes[..|indexes|] == indexes;
    }

    method BuildResponseObject() returns (response: Response)
      ensures response == Spec.Object(codec, View())
    {
      var text := TrimSpace(messageText);
      var output := [];
      if messageStarted {
        output := output + [MessageOut(messageItemID, Parts(text))];
      }
      ghost var head := output;
      var indexes := Sorted(functionIndexes);
      for i := 0 to |indexes|
        invariant output == head + Spec.CallsOut(codec, functionCalls, indexes[..i])
      {
        assert indexes[..i + 1][..i] == indexes[..i];
        if indexes[i] in functionCalls {
          var call := functionCalls[indexes[i]];
          ghost var before := output;
          output := output + [CallOut(call.itemID, call.callID, call.name, Normalize(codec, call.arguments))];
          AppendAppend(head, Spec.CallsOut(codec, functionCalls, indexes[..i]), [output[|output| - 1]]);
        }
      }
      assert indexes[..|indexes|] == indexes;
      response := Response(model, output, text, LookupUsage(usage, "prompt_tokens"),
                           LookupUsage(usage, "completion_tokens"), LookupUsage(usage, "total_tokens"));
    }

    method AssistantConversationMessage() returns (assistant: Assistant)
      ensures assistant == Spec.Assisted(codec, View())
    {
      var calls := [];
      var indexes := Sorted(functionIndexes);
      for i := 0 to |indexes|
        invariant calls == Spec.CallsSaid(codec, functionCalls, indexes[..i])
      {
        assert indexes[..i + 1][..i] == indexes[..i];
        if indexes[i] in functionCalls {
          var call := functionCalls[indexes[i]];
          calls := calls + [PayloadCall(call.callID, "function", call.name, Normalize(codec, call.arguments))];
        }
      }
      assert indexes[..|indexes|] == indexes;
      assistant := BuildAssistant(codec, TrimSpace(messageText), calls, clock);
    }

    method Finish()
      modifies this
      ensures View() == Spec.Finish(codec, old(View()))
    {
      if completed {
        return;
      }
      if !hasContent && !headersWritten {
        completed := true;
        return;
      }
      CloseMessage();
      CloseCalls();
      Complete();
    }

    method Complete()
      modifies this
      ensures View() == Spec.Complete(codec, old(View()))
    {
      var response := BuildResponseObject();
      var assistant := AssistantConversationMessage();
      stored := Some(Spec.Stored(response, assistant));
      completed := true;
      EmitEvent(Spec.Completed(response));
      Write(Spec.DoneMark);
    }

    method Error(message: string)
      modifies this`headersWritten, this`out, this`client
      ensures View() == Spec.Fail(old(View()), message)
    {
      EmitEvent(Spec.Failed(model, message));
      Write(Spec.DoneMark);
    }
  }
}
