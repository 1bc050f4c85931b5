/**
 The Gemini translator as the object that the relay drives, proved to do what `GeminiStream` says.
 */
module GeminiTranslator {
  import opened Text
  import opened Chunks
  import Sorting
  import Spec = GeminiStream

  class Translator {
    var model: string
    var usage: Usage
    var finishReason: string
    var started: bool
    var finished: bool
    var hasContent: bool
    var toolCalls: map<int, Spec.Call>
    var toolCallKeys: seq<int>
    var out: seq<Spec.Event>
    ghost var client: Spec.Client

    ghost function View(): Spec.State
      reads this
    {
      Spec.State(model, usage, finishReason, started, finished, hasContent, Gathered(), out, client)
    }

    ghost function Gathered(): Spec.Gathered
      reads this
    {
      Spec.Gathered(toolCallKeys, toolCalls)
    }

    constructor (model: string)
      ensures View() == Spec.Init(model)
    {
      this.model, usage, finishReason := model, map[], "";
      started, finished, hasContent := false, false, false;
      toolCalls, toolCallKeys, out, client := map[], [], [], Spec.NEW_CLIENT;
    }

    method Emit(e: Spec.Event)
      modifies this`started, this`out, this`client
      ensures View() == Spec.Emit(old(View()), e)
    {
      if !started {
        started := true;
      }
      out := out + [e];
      client := Spec.React(client, e);
    }

    method GatherToolCall(tc: ToolCall)
      modifies this`toolCalls, this`toolCallKeys, this`hasContent
      ensures Gathered() == Spec.Gather(old(Gathered()), tc)
      ensures hasContent == (old(hasContent) || tc.arguments != "")
    {
      if tc.index !in toolCalls {
        toolCalls := toolCalls[tc.index := Spec.Call(tc.name, "")];
        toolCallKeys := toolCallKeys + [tc.index];
      }
      var state := toolCalls[tc.index];
      if state.name == "" && tc.name != "" {
        state := state.(name := tc.name);
      }
      if tc.arguments != "" {
        state := state.(arguments := state.arguments + tc.arguments);
        hasContent := true;
      }
      toolCalls := toolCalls[tc.index := state];
    }

    method ConsumeToolCalls(calls: seq<ToolCall>)
      modifies this`toolCalls, this`toolCallKeys, this`hasContent
      ensures View() == Spec.ConsumeTools(old(View()), calls)
    {
      for i := 0 to |calls|
        invariant Gathered() == Spec.GatherAll(old(Gathered()), calls[..i])
        invariant hasContent == (old(hasContent) || Spec.SomeArguments(calls[..i]))
      {
        Spec.ToolsOneMore(old(Gathered()), calls, i);
        GatherToolCall(calls[i]);
      }
      assert calls[..|calls|] == calls;
    }

    method ConsumeChoice(c: Choice)
      modifies this
      ensures View() == Spec.ConsumeChoice(old(View()), c)
    {
      if c.content != "" {
        hasContent := true;
        Emit(Spec.TextPart(model, c.content));
      }
      ConsumeToolCalls(c.toolCalls);
      if c.finishReason != "" {
        finishReason := c.finishReason;
      }
    }

    method ConsumeChoices(cs: seq<Choice>)
      modifies this
      ensures View() == Spec.ConsumeChoices(old(View()), cs)
    {
      for i := 0 to |cs|
        invariant View() == Spec.ConsumeChoices(old(View()), cs[..i])
      {
        Spec.ChoicesOneMore(old(View()), cs, i);
        ConsumeChoice(cs[i]);
      }
      assert cs[..|cs|] == cs;
    }

    method Consume(chunk: Chunk)
      modifies this
      ensures View() == Spec.Consume(old(View()), chunk)
    {
      if chunk.model != "" {
        model := FirstNonEmpty(model, chunk.model);
      }
      if chunk.usage.Some? {
        usage := chunk.usage.value;
      }
      ConsumeChoices(chunk.choices);
    }

    method EmitCalls()
      modifies this`started, this`out, this`client
      ensures View() == Spec.EmitCalls(old(View()), toolCallKeys)
    {
      for i := 0 to |toolCallKeys|
        invariant View() == Spec.EmitCalls(old(View()), toolCallKeys[..i])
      {
        Spec.EmitCallsOneMore(old(View()), toolCallKeys, i);
        if toolCallKeys[i] in toolCalls {
          Emit(Spec.FunctionCall(model, toolCalls[toolCallKeys[i]]));
        }
      }
      assert toolCallKeys[..|toolCallKeys|] == toolCallKeys;
    }

    method Finish()
      modifies this
      ensures View() == Spec.Finish(old(View()))
    {
      if finished {
        return;
      }
      if !hasContent && !started {
        finished := true;
        return;
      }
      toolCallKeys := Sorting.Sorted(toolCallKeys);
      EmitCalls();
      Emit(Spec.Final(model, Spec.MapReason(finishReason), LookupUsage(usage, "prompt_tokens"),
                      LookupUsage(usage, "completion_tokens"), LookupUsage(usage, "total_tokens")));
      finished := true;
    }
  }
}
