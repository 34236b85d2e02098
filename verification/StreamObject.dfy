/**
 `streamState` as the object it is: fields updated event by event, proved to compute the functions of module Stream.
*/
module StreamObject {
  import opened Options
  import opened Events
  import opened Stream
  import Text

  class StreamState {
    const operation: Operation
    const model: string
    var text: string
    var reasoning: string
    var tools: seq<Tool>
    var toolByKey: map<string, nat>
    var usage: Usage
    var usageSeen: bool
    var blockOpen: bool
    var blockKind: BlockKind
    var blockIndex: nat
    var blockToolID: string
    var responseNextOutput: nat
    var responseTextStarted: bool
    var responseTextIndex: nat
    var responseMessageID: string
    var responseReasoningStart: bool
    var responseReasoningIndex: nat
    var responseReasoningID: string
    var written: seq<Frame>

    ghost function Rec(): Recorder
      reads this
    {
      Recorder(text, reasoning, tools, toolByKey, usage, usageSeen)
    }

    ghost function Value(): State
      reads this
    {
      State(operation, model, Rec(), Blocks(blockOpen, blockKind, blockIndex, blockToolID),
            Outputs(responseNextOutput,
                    if responseTextStarted then Some(Slot(responseTextIndex, responseMessageID)) else None,
                    if responseReasoningStart then Some(Slot(responseReasoningIndex, responseReasoningID)) else None),
            written)
    }

    constructor (operation: Operation, model: string)
      ensures Value() == Start(operation, model)
    {
      this.operation, this.model := operation, model;
      text, reasoning, tools, toolByKey, usage, usageSeen := "", "", [], map[], NO_USAGE, false;
      blockOpen, blockKind, blockIndex, blockToolID := false, NoBlock, 0, "";
      responseNextOutput, responseTextStarted, responseReasoningStart := 0, false, false;
      responseTextIndex, responseMessageID, responseReasoningIndex, responseReasoningID := 0, "", 0, "";
      written := StartFrames(operation, model);
    }

    /** The position of the tool, as a pointer in the source; -1 when the event is no tool call. */
    method Record(e: Event, random: string) returns (tool: int)
      requires Rec().Valid()
      modifies `text, `reasoning, `tools, `toolByKey, `usage, `usageSeen
      ensures Rec() == Stream.Record(old(Rec()), e, random)
      ensures tool == if e.ToolCall? then old(ToolIndex(Rec(), e)) else -1
    {
      tool := -1;
      match e {
        case TextDelta(t) => text := text + t;
        case ReasoningDelta(t) => reasoning := reasoning + t;
        case Image(_) => text := text + MediaText(e);
        case Video(_) => text := text + MediaText(e);
        case UsageReport(u) => usage, usageSeen := u, true;
        case ToolCall(_, _, _, _, _) => tool := RecordCall(e, random);
        case _ =>
      }
    }

    /** Recording changes nothing but the record. */
    method RecordOnly(e: Event, random: string) returns (tool: int)
      requires Rec().Valid()
      modifies `text, `reasoning, `tools, `toolByKey, `usage, `usageSeen
      ensures Value() == old(Value()).(rec := Stream.Record(old(Rec()), e, random))
      ensures tool == if e.ToolCall? then old(ToolIndex(Rec(), e)) else -1
    {
      tool := Record(e, random);
    }

    method RecordCall(e: Event, random: string) returns (tool: nat)
      requires Rec().Valid() && e.ToolCall?
      modifies `tools, `toolByKey
      ensures Rec() == RecordTool(old(Rec()), e, random) && tool == old(ToolIndex(Rec(), e))
    {
      ghost var before := Rec();
      var key := ToolKey(e);
      if key !in toolByKey {
        var created := NewTool(Recorder(text, reasoning, tools, toolByKey, usage, usageSeen), e, random);
        toolByKey := toolByKey[key := |tools|][created.id := |tools|];
        tools := tools + [created];
      }
      assert Rec() == Lookup(before, e, random);
      tool := toolByKey[key];
      var t := tools[tool];
      if e.itemId != "" {
        t := t.(itemId := e.itemId);
        toolByKey := toolByKey[e.itemId := tool];
      }
      if e.name != "" {
        t := t.(name := e.name);
      }
      t := t.(arguments := t.arguments + e.arguments);
      tools := tools[tool := t];
    }

    method EnsureResponseText(random: string)
      modifies `responseTextStarted, `responseTextIndex, `responseNextOutput, `responseMessageID, `written
      ensures Value() == EnsureText(old(Value()), random)
    {
      if !responseTextStarted {
        responseTextStarted, responseTextIndex := true, responseNextOutput;
        responseNextOutput := responseNextOutput + 1;
        responseMessageID := "msg_" + random;
        written := written + [ItemAdded(responseTextIndex, MessageItem(responseMessageID, "", false)),
                              ContentPartAdded(responseTextIndex, responseMessageID)];
      }
    }

    method EnsureResponseReasoning(random: string)
      modifies `responseReasoningStart, `responseReasoningIndex, `responseNextOutput, `responseReasoningID, `written
      ensures Value() == EnsureReasoning(old(Value()), random)
    {
      if !responseReasoningStart {
        responseReasoningStart, responseReasoningIndex := true, responseNextOutput;
        responseNextOutput := responseNextOutput + 1;
        responseReasoningID := "rs_" + random;
        written := written + [ItemAdded(responseReasoningIndex, ReasoningItem(responseReasoningID, "", false)),
                              SummaryPartAdded(responseReasoningIndex, responseReasoningID)];
      }
    }

    method ResponsesToolEvent(tool: nat, arguments: string)
      requires tool < |tools|
      modifies `tools, `responseNextOutput, `written
      ensures Value() == WriteArguments(old(Value()), tool, arguments)
    {
      if tools[tool].outputIndex < 0 {
        tools := tools[tool := tools[tool].(outputIndex := responseNextOutput)];
        responseNextOutput := responseNextOutput + 1;
        var t := tools[tool];
        written := written + [ItemAdded(t.outputIndex, CallItem(t.itemId, t.id, t.name, "", false))];
      }
      if arguments != "" {
        written := written + [ArgumentsDelta(tools[tool].outputIndex, tools[tool].itemId, arguments)];
      }
    }

    method ResponsesTextEvent(delta: string, random: string)
      modifies `responseTextStarted, `responseTextIndex, `responseNextOutput, `responseMessageID, `written
      ensures Value() == WriteText(old(Value()), delta, random)
    {
      EnsureResponseText(random);
      written := written + [OutputTextDelta(responseTextIndex, responseMessageID, delta)];
    }

    method ResponsesReasoningEvent(delta: string, random: string)
      modifies `responseReasoningStart, `responseReasoningIndex, `responseNextOutput, `responseReasoningID, `written
      ensures Value() == WriteReasoning(old(Value()), delta, random)
    {
      EnsureResponseReasoning(random);
      written := written + [SummaryTextDelta(responseReasoningIndex, responseReasoningID, delta)];
    }

    method ResponsesEvent(e: Event, tool: int, random: string)
      requires e.ToolCall? ==> 0 <= tool < |tools|
      modifies `tools, `responseTextStarted, `responseTextIndex, `responseNextOutput, `responseMessageID,
               `responseReasoningStart, `responseReasoningIndex, `responseReasoningID, `written
      ensures Value() == Stream.ResponsesEvent(old(Value()), e, if e.ToolCall? then tool else 0, random)
    {
      match e {
        case TextDelta(t) => ResponsesTextEvent(t, random);
        case ReasoningDelta(t) => ResponsesReasoningEvent(t, random);
        case Image(_) => ResponsesTextEvent(MediaText(e), random);
        case Video(_) => ResponsesTextEvent(MediaText(e), random);
        case ToolCall(_, _, _, arguments, _) => ResponsesToolEvent(tool, arguments);
        case _ =>
      }
    }

    method CloseBlock()
      modifies `blockOpen, `blockToolID, `blockIndex, `written
      ensures Value() == Stream.CloseBlock(old(Value()))
    {
      if blockOpen {
        written := written + [BlockStop(blockIndex)];
        blockOpen, blockToolID, blockIndex := false, "", blockIndex + 1;
      }
    }

    method MessagesToolEvent(t: Tool, arguments: string)
      modifies `blockOpen, `blockKind, `blockToolID, `blockIndex, `written
      ensures Value() == WriteToolBlock(old(Value()), t, arguments)
    {
      StartToolBlock(t);
      if arguments != "" {
        written := written + [BlockDelta(blockIndex, ToolBlock, arguments)];
      }
    }

    method StartToolBlock(t: Tool)
      modifies `blockOpen, `blockKind, `blockToolID, `blockIndex, `written
      ensures Value() == OpenToolBlock(old(Value()), t)
    {
      if !blockOpen || blockKind != ToolBlock || blockToolID != t.id {
        CloseBlock();
        StartBlock(ToolBlock, t.id, t.id, t.name);
      }
    }

    method StartBlock(kind: BlockKind, toolID: string, id: string, name: string)
      modifies `blockOpen, `blockKind, `blockToolID, `written
      ensures var s := old(Value());
              Value() == Write(s.(blocks := Blocks(true, kind, s.blocks.index, toolID)),
                               [BlockStart(s.blocks.index, kind, id, name)])
    {
      written := written + [BlockStart(blockIndex, kind, id, name)];
      blockOpen, blockKind, blockToolID := true, kind, toolID;
    }

    method MessagesTextEvent(kind: BlockKind, delta: string)
      modifies `blockOpen, `blockKind, `blockToolID, `blockIndex, `written
      ensures Value() == WriteBlock(old(Value()), kind, delta)
    {
      if !blockOpen || blockKind != kind {
        CloseBlock();
        StartBlock(kind, blockToolID, "", "");
      }
      written := written + [BlockDelta(blockIndex, kind, delta)];
    }

    method MessagesEvent(e: Event, tool: int)
      requires e.ToolCall? ==> 0 <= tool < |tools|
      modifies `blockOpen, `blockKind, `blockToolID, `blockIndex, `written
      ensures Value() == Stream.MessagesEvent(old(Value()), e, if e.ToolCall? then tool else 0)
    {
      match e {
        case TextDelta(t) => MessagesTextEvent(TextBlock, t);
        case ReasoningDelta(t) => MessagesTextEvent(ThinkingBlock, t);
        case Image(_) => MessagesTextEvent(TextBlock, MediaText(e));
        case Video(_) => MessagesTextEvent(TextBlock, MediaText(e));
        case ToolCall(_, _, _, arguments, _) => MessagesToolEvent(tools[tool], arguments);
        case _ =>
      }
    }

    method HandleEvent(e: Event, random: string)
      requires Rec().Valid()
      modifies this
      ensures Value() == Handle(old(Value()), e, random) && Rec().Valid()
    {
      ghost var s := Value();
      var tool := RecordOnly(e, random);
      WriteEvent(e, tool, random);
      HandleIs(s, e, random, Value());
    }

    method WriteEvent(e: Event, tool: int, random: string)
      requires e.ToolCall? ==> 0 <= tool < |tools|
      modifies `tools, `responseTextStarted, `responseTextIndex, `responseNextOutput, `responseMessageID,
               `responseReasoningStart, `responseReasoningIndex, `responseReasoningID,
               `blockOpen, `blockKind, `blockToolID, `blockIndex, `written
      ensures var k := if e.ToolCall? then tool else 0;
              Value() == if operation.Responses? then Stream.ResponsesEvent(old(Value()), e, k, random)
                         else Stream.MessagesEvent(old(Value()), e, k)
    {
      if operation.Responses? {
        ResponsesEvent(e, tool, random);
      } else {
        MessagesEvent(e, tool);
      }
    }

    /** Closes reasoning and text and fills their slots. */
    method FinishItems(output: seq<Option<Item>>) returns (filled: seq<Option<Item>>)
      modifies `written
      ensures written == old(written) + (FinishReasoningFrames(Value().outputs.reasoning, reasoning) +
                                         FinishTextFrames(Value().outputs.text, text))
      ensures filled == FillTexts(output, Value())
    {
      filled := output;
      if responseReasoningStart {
        written := written + FinishReasoningFrames(Some(Slot(responseReasoningIndex, responseReasoningID)), reasoning);
        filled := Fill(filled, responseReasoningIndex, ReasoningItem(responseReasoningID, reasoning, true));
      }
      if responseTextStarted {
        written := written + FinishTextFrames(Some(Slot(responseTextIndex, responseMessageID)), text);
        filled := Fill(filled, responseTextIndex, MessageItem(responseMessageID, text, true));
      }
    }

    /** Closes every tool, in order, and fills its slot. */
    method FinishTools(output: seq<Option<Item>>) returns (filled: seq<Option<Item>>)
      modifies `written
      ensures written == old(written) + FinishToolFrames(tools) && filled == FillTools(output, tools)
    {
      filled := output;
      for i := 0 to |tools|
        invariant written == old(written) + FinishToolFrames(tools[..i]) && filled == FillTools(output, tools[..i])
      {
        var t := tools[i];
        assert tools[..i + 1][..i] == tools[..i];
        if t.outputIndex >= 0 {
          written := written + [ArgumentsDone(t.outputIndex, t.itemId, DefaultArguments(t.arguments)),
                                ItemDone(t.outputIndex, CompletedTool(t))];
        }
        filled := Fill(filled, t.outputIndex, CompletedTool(t));
      }
      assert tools[..|tools|] == tools;
    }

    method FinishResponses()
      requires operation.Responses?
      modifies `written
      ensures Value() == Stream.Finish(old(Value()))
    {
      ghost var s := Value();
      var output := FinishItems(NoItems(responseNextOutput));
      ghost var texts := FinishReasoningFrames(s.outputs.reasoning, reasoning) + FinishTextFrames(s.outputs.text, text);
      assert written == s.written + texts;
      output := FinishTools(output);
      assert written == s.written + texts + FinishToolFrames(tools);
      Text.Regroup(s.written, texts, FinishToolFrames(tools));
      written := written + [Completed(model, output, usage), DoneMarker];
      Text.Regroup(s.written, ItemDoneFrames(s), [Completed(model, output, usage), DoneMarker]);
    }

    method Finish()
      modifies `written, `blockOpen, `blockToolID, `blockIndex
      ensures Value() == Stream.Finish(old(Value()))
    {
      if operation.Responses? {
        FinishResponses();
      } else {
        CloseBlock();
        written := written + [MessageDelta(if |tools| > 0 then "tool_use" else "end_turn", usage.outputTokens),
                              MessageStop];
      }
    }
  }

  lemma HandleIs(s: State, e: Event, random: string, r: State)
    requires s.rec.Valid()
    requires var k, recorded := if e.ToolCall? then ToolIndex(s.rec, e)
                                else 0, s.(rec := Stream.Record(s.rec, e, random));
             r == if s.operation.Responses? then Stream.ResponsesEvent(recorded, e, k, random)
                  else Stream.MessagesEvent(recorded, e, k)
    ensures r == Handle(s, e, random) && r.rec.Valid()
  {
  }

  /** Driving the object over a list of events gives the run the theorems are about. */
  method RunStream(operation: Operation, model: string, es: seq<Event>, randoms: seq<string>) returns (s: StreamState)
    requires |randoms| == |es|
    ensures fresh(s) && s.Value() == Stream.Finish(Run(operation, model, es, randoms))
  {
    s := new StreamState(operation, model);
    for i := 0 to |es|
      invariant s.Rec().Valid() && s.Value() == Run(operation, model, es[..i], randoms[..i])
    {
      assert es[..i + 1][..i] == es[..i] && randoms[..i + 1][..i] == randoms[..i];
      s.HandleEvent(es[i], randoms[i]);
    }
    assert es[..|es|] == es && randoms[..|es|] == randoms;
    s.Finish();
  }
}
