/**
 The streaming encoder: `streamState` of the gateway in its Responses and Messages modes.

 The encoder is given twice.  `Start`, `Handle` and `Finish` are functions on the value `State`; the class
 `StreamState` updates fields event by event as the source does and is proved to compute those functions.
 Frames are the JSON payloads the encoder writes, as values; `random` stands for the random part of the ID
 that one event may generate.
 */
module Stream {
  import opened Options
  import opened Events
  import Text

  datatype Operation = Responses | Messages

  datatype Tool = Tool(id: string, itemId: string, name: string, outputIndex: int, arguments: string)

  datatype BlockKind = NoBlock | TextBlock | ThinkingBlock | ToolBlock

  /** One entry of a Responses `output` array; `completed` is its status. */
  datatype Item =
    | MessageItem(id: string, text: string, completed: bool)
    | ReasoningItem(id: string, text: string, completed: bool)
    | CallItem(id: string, callId: string, name: string, arguments: string, completed: bool)

  datatype Frame =
    // Responses frames
    | Created(model: string)
    | ItemAdded(slot: int, item: Item)
    | ContentPartAdded(slot: int, itemId: string)
    | SummaryPartAdded(slot: int, itemId: string)
    | OutputTextDelta(slot: int, itemId: string, delta: string)
    | SummaryTextDelta(slot: int, itemId: string, delta: string)
    | ArgumentsDelta(slot: int, itemId: string, delta: string)
    | SummaryTextDone(slot: int, itemId: string, text: string)
    | SummaryPartDone(slot: int, itemId: string, text: string)
    | OutputTextDone(slot: int, itemId: string, text: string)
    | ContentPartDone(slot: int, itemId: string, text: string)
    | ArgumentsDone(slot: int, itemId: string, arguments: string)
    | ItemDone(slot: int, item: Item)
    | Completed(model: string, output: seq<Option<Item>>, usage: Usage)
    | DoneMarker
    // Messages frames
    | MessageStart(model: string)
    | Ping
    | BlockStart(index: int, kind: BlockKind, toolId: string, toolName: string)
    | BlockDelta(index: int, kind: BlockKind, delta: string)
    | BlockStop(index: int)
    | MessageDelta(stopReason: string, outputTokens: int)
    | MessageStop

  /** What `record` keeps: the answer so far, whatever the mode. */
  datatype Recorder = Recorder(
    text: string, reasoning: string, tools: seq<Tool>, byKey: map<string, nat>, usage: Usage, usageSeen: bool)
  {
    /** Every key of the lookup table leads to a recorded tool. */
    predicate Valid() {
      forall key | key in byKey :: byKey[key] < |tools|
    }
  }

  /** The open content block of Messages mode. */
  datatype Blocks = Blocks(open: bool, kind: BlockKind, index: nat, toolId: string)

  /** The output slot and item ID of a started text or reasoning item. */
  datatype Slot = Slot(index: nat, id: string)

  /** The output slots handed out in Responses mode. */
  datatype Outputs = Outputs(next: nat, text: Option<Slot>, reasoning: Option<Slot>)

  datatype State = State(operation: Operation, model: string, rec: Recorder, blocks: Blocks, outputs: Outputs,
                         written: seq<Frame>)

  /** strings.TrimSpace(value) == "" ? "{}" : value */
  function DefaultArguments(value: string): string {
    if Text.TrimSpace(value) == "" then "{}" else value
  }

  function StartFrames(operation: Operation, model: string): seq<Frame> {
    if operation.Responses? then [Created(model)] else [MessageStart(model), Ping]
  }

  function Start(operation: Operation, model: string): (s: State)
    ensures s.rec.Valid()
  {
    State(operation, model, Recorder("", "", [], map[], NO_USAGE, false), Blocks(false, NoBlock, 0, ""),
          Outputs(0, None, None), StartFrames(operation, model))
  }

  function Write(s: State, frames: seq<Frame>): State {
    s.(written := s.written + frames)
  }

  // ---- record ----

  function ToolKey(e: Event): string
    requires e.ToolCall?
  {
    if e.id != "" then e.id else "index:" + Text.DecimalInt(e.index)
  }

  function NewTool(r: Recorder, e: Event, random: string): Tool
    requires e.ToolCall?
  {
    Tool(if e.id != "" then e.id else "call_" + Text.Decimal(|r.tools|),
         if e.itemId != "" then e.itemId else "fc_" + random, e.name, -1, "")
  }

  /** The tool table after the lookup of an event, with the tool created when its key is unknown. */
  function Lookup(r: Recorder, e: Event, random: string): (r': Recorder)
    requires r.Valid() && e.ToolCall?
    ensures r'.Valid() && ToolKey(e) in r'.byKey
  {
    if ToolKey(e) in r.byKey then r else
    var tool := NewTool(r, e, random);
    r.(tools := r.tools + [tool], byKey := r.byKey[ToolKey(e) := |r.tools|][tool.id := |r.tools|])
  }

  function UpdatedTool(t: Tool, e: Event): Tool
    requires e.ToolCall?
  {
    t.(itemId := if e.itemId != "" then e.itemId else t.itemId,
       name := if e.name != "" then e.name else t.name,
       arguments := t.arguments + e.arguments)
  }

  /** The position of the tool an event is recorded on. */
  function ToolIndex(r: Recorder, e: Event): (k: nat)
    requires r.Valid() && e.ToolCall?
    ensures k <= |r.tools|
  {
    if ToolKey(e) in r.byKey then r.byKey[ToolKey(e)] else |r.tools|
  }

  function RecordTool(r: Recorder, e: Event, random: string): (r': Recorder)
    requires r.Valid() && e.ToolCall?
    ensures r'.Valid() && ToolIndex(r, e) < |r'.tools|
  {
    var found := Lookup(r, e, random);
    var k := ToolIndex(r, e);
    found.(tools := found.tools[k := UpdatedTool(found.tools[k], e)],
           byKey := if e.itemId != "" then found.byKey[e.itemId := k] else found.byKey)
  }

  function Record(r: Recorder, e: Event, random: string): (r': Recorder)
    requires r.Valid()
    ensures r'.Valid()
    ensures e.ToolCall? ==> ToolIndex(r, e) < |r'.tools|
  {
    match e
    case TextDelta(t) => r.(text := r.text + t)
    case ReasoningDelta(t) => r.(reasoning := r.reasoning + t)
    case Image(_) => r.(text := r.text + MediaText(e))
    case Video(_) => r.(text := r.text + MediaText(e))
    case UsageReport(u) => r.(usage := u, usageSeen := true)
    case ToolCall(_, _, _, _, _) => RecordTool(r, e, random)
    case _ => r
  }

  // ---- Responses mode ----

  function EnsureText(s: State, random: string): (r: State)
    ensures r.outputs.text.Some?
  {
    if s.outputs.text.Some? then s else
    var n, id := s.outputs.next, "msg_" + random;
    Write(s.(outputs := s.outputs.(text := Some(Slot(n, id)), next := n + 1)),
          [ItemAdded(n, MessageItem(id, "", false)), ContentPartAdded(n, id)])
  }

  function EnsureReasoning(s: State, random: string): (r: State)
    ensures r.outputs.reasoning.Some?
  {
    if s.outputs.reasoning.Some? then s else
    var n, id := s.outputs.next, "rs_" + random;
    Write(s.(outputs := s.outputs.(reasoning := Some(Slot(n, id)), next := n + 1)),
          [ItemAdded(n, ReasoningItem(id, "", false)), SummaryPartAdded(n, id)])
  }

  function EnsureSlot(s: State, k: nat): (r: State)
    requires k < |s.rec.tools|
    ensures |r.rec.tools| == |s.rec.tools|
  {
    var t, n := s.rec.tools[k], s.outputs.next;
    if t.outputIndex >= 0 then s else
    Write(s.(rec := s.rec.(tools := s.rec.tools[k := t.(outputIndex := n)]), outputs := s.outputs.(next := n + 1)),
          [ItemAdded(n, CallItem(t.itemId, t.id, t.name, "", false))])
  }

  function WriteText(s: State, delta: string, random: string): State {
    var r := EnsureText(s, random);
    Write(r, [OutputTextDelta(r.outputs.text.value.index, r.outputs.text.value.id, delta)])
  }

  function WriteReasoning(s: State, delta: string, random: string): State {
    var r := EnsureReasoning(s, random);
    Write(r, [SummaryTextDelta(r.outputs.reasoning.value.index, r.outputs.reasoning.value.id, delta)])
  }

  function WriteArguments(s: State, k: nat, delta: string): State
    requires k < |s.rec.tools|
  {
    var r := EnsureSlot(s, k);
    if delta == "" then r
    else Write(r, [ArgumentsDelta(r.rec.tools[k].outputIndex, r.rec.tools[k].itemId, delta)])
  }

  /** responsesEvent: the frames written after an event has been recorded. */
  function ResponsesEvent(s: State, e: Event, k: nat, random: string): State
    requires e.ToolCall? ==> k < |s.rec.tools|
  {
    match e
    case TextDelta(t) => WriteText(s, t, random)
    case ReasoningDelta(t) => WriteReasoning(s, t, random)
    case Image(_) => WriteText(s, MediaText(e), random)
    case Video(_) => WriteText(s, MediaText(e), random)
    case ToolCall(_, _, _, arguments, _) => WriteArguments(s, k, arguments)
    case _ => s
  }

  // ---- Messages mode ----

  function CloseBlock(s: State): State {
    if !s.blocks.open then s else
    Write(s.(blocks := s.blocks.(open := false, toolId := "", index := s.blocks.index + 1)),
          [BlockStop(s.blocks.index)])
  }

  function OpenToolBlock(s: State, tool: Tool): State {
    if s.blocks.open && s.blocks.kind.ToolBlock? && s.blocks.toolId == tool.id then s else
    var r := CloseBlock(s);
    Write(r.(blocks := Blocks(true, ToolBlock, r.blocks.index, tool.id)),
          [BlockStart(r.blocks.index, ToolBlock, tool.id, tool.name)])
  }

  function OpenBlock(s: State, kind: BlockKind): State {
    if s.blocks.open && s.blocks.kind == kind then s else
    var r := CloseBlock(s);
    Write(r.(blocks := r.blocks.(open := true, kind := kind)), [BlockStart(r.blocks.index, kind, "", "")])
  }

  function WriteBlock(s: State, kind: BlockKind, delta: string): State {
    var r := OpenBlock(s, kind);
    Write(r, [BlockDelta(r.blocks.index, kind, delta)])
  }

  function WriteToolBlock(s: State, tool: Tool, delta: string): State {
    var r := OpenToolBlock(s, tool);
    if delta == "" then r else Write(r, [BlockDelta(r.blocks.index, ToolBlock, delta)])
  }

  /** messagesEvent: the frames written after an event has been recorded. */
  function MessagesEvent(s: State, e: Event, k: nat): State
    requires e.ToolCall? ==> k < |s.rec.tools|
  {
    match e
    case TextDelta(t) => WriteBlock(s, TextBlock, t)
    case ReasoningDelta(t) => WriteBlock(s, ThinkingBlock, t)
    case Image(_) => WriteBlock(s, TextBlock, MediaText(e))
    case Video(_) => WriteBlock(s, TextBlock, MediaText(e))
    case ToolCall(_, _, _, arguments, _) => WriteToolBlock(s, s.rec.tools[k], arguments)
    case _ => s
  }

  // ---- one event, a run, the end ----

  function Handle(s: State, e: Event, random: string): (r: State)
    requires s.rec.Valid()
    ensures r.rec.Valid() && r.operation == s.operation && r.model == s.model
  {
    var k := if e.ToolCall? then ToolIndex(s.rec, e) else 0;
    var recorded := s.(rec := Record(s.rec, e, random));
    if s.operation.Responses? then ResponsesEvent(recorded, e, k, random) else MessagesEvent(recorded, e, k)
  }

  /** The state after a list of events; `randoms[i]` is the random part available to event i. */
  function Run(operation: Operation, model: string, es: seq<Event>, randoms: seq<string>): (s: State)
    requires |randoms| == |es|
    ensures s.rec.Valid() && s.operation == operation && s.model == model
  {
    if es == [] then Start(operation, model) else
    Handle(Run(operation, model, es[..|es| - 1], randoms[..|es| - 1]), es[|es| - 1], randoms[|es| - 1])
  }

  function CompletedTool(t: Tool): Item {
    CallItem(t.itemId, t.id, t.name, DefaultArguments(t.arguments), true)
  }

  function FinishReasoningFrames(slot: Option<Slot>, text: string): seq<Frame> {
    if slot.None? then [] else
    [SummaryTextDone(slot.value.index, slot.value.id, text),
     SummaryPartDone(slot.value.index, slot.value.id, text),
     ItemDone(slot.value.index, ReasoningItem(slot.value.id, text, true))]
  }

  function FinishTextFrames(slot: Option<Slot>, text: string): seq<Frame> {
    if slot.None? then [] else
    [OutputTextDone(slot.value.index, slot.value.id, text),
     ContentPartDone(slot.value.index, slot.value.id, text),
     ItemDone(slot.value.index, MessageItem(slot.value.id, text, true))]
  }

  function FinishToolFrames(tools: seq<Tool>): seq<Frame> {
    if tools == [] then [] else
    var t := tools[|tools| - 1];
    FinishToolFrames(tools[..|tools| - 1]) +
    if t.outputIndex < 0 then [] else
      [ArgumentsDone(t.outputIndex, t.itemId, DefaultArguments(t.arguments)), ItemDone(t.outputIndex, CompletedTool(t))]
  }

  function Fill(output: seq<Option<Item>>, slot: int, item: Item): (r: seq<Option<Item>>)
    ensures |r| == |output|
  {
    if 0 <= slot < |output| then output[slot := Some(item)] else output
  }

  function FillTools(output: seq<Option<Item>>, tools: seq<Tool>): (r: seq<Option<Item>>)
    ensures |r| == |output|
  {
    if tools == [] then output else
    var t := tools[|tools| - 1];
    Fill(FillTools(output, tools[..|tools| - 1]), t.outputIndex, CompletedTool(t))
  }

  function FillTexts(output: seq<Option<Item>>, s: State): (r: seq<Option<Item>>)
    ensures |r| == |output|
  {
    var o := s.outputs;
    var o1 := if o.reasoning.Some? then Fill(output, o.reasoning.value.index,
                                             ReasoningItem(o.reasoning.value.id, s.rec.reasoning, true)) else output;
    if o.text.Some? then Fill(o1, o.text.value.index, MessageItem(o.text.value.id, s.rec.text, true)) else o1
  }

  function NoItems(n: nat): (r: seq<Option<Item>>)
    ensures |r| == n
  {
    seq(n, _ => None)
  }

  /** The `output` array of the final frame. */
  function Output(s: State): (r: seq<Option<Item>>)
    ensures |r| == s.outputs.next
  {
    FillTools(FillTexts(NoItems(s.outputs.next), s), s.rec.tools)
  }

  function ItemDoneFrames(s: State): seq<Frame> {
    FinishReasoningFrames(s.outputs.reasoning, s.rec.reasoning) + FinishTextFrames(s.outputs.text, s.rec.text) +
    FinishToolFrames(s.rec.tools)
  }

  function StopReason(r: Recorder): string {
    if |r.tools| > 0 then "tool_use" else "end_turn"
  }

  function Finish(s: State): State {
    if s.operation.Responses? then
      Write(s, ItemDoneFrames(s) + [Completed(s.model, Output(s), s.rec.usage), DoneMarker])
    else
      Write(CloseBlock(s), [MessageDelta(StopReason(s.rec), s.rec.usage.outputTokens), MessageStop])
  }

  // ---- facts about recording that hold in every mode ----

  /** Writing frames changes output slots only, never what was recorded. */
  lemma HandleRecords(s: State, e: Event, random: string)
    requires s.rec.Valid()
    ensures SameRecord(Handle(s, e, random).rec, Record(s.rec, e, random))
  {
    var recorded, k := s.(rec := Record(s.rec, e, random)), if e.ToolCall? then ToolIndex(s.rec, e) else 0;
    if s.operation.Responses? {
      ResponsesRecords(recorded, e, k, random);
    } else {
      MessagesRecords(recorded, e, k);
    }
  }

  /** The same record, whatever output slots the tools have. */
  predicate SameRecord(a: Recorder, b: Recorder) {
    && a.text == b.text && a.reasoning == b.reasoning && a.byKey == b.byKey && a.usage == b.usage &&
       a.usageSeen == b.usageSeen
    && |a.tools| == |b.tools| && forall k | 0 <= k < |b.tools| ::
       a.tools[k].(outputIndex := -1) == b.tools[k].(outputIndex := -1)
  }

  lemma ResponsesRecords(s: State, e: Event, k: nat, random: string)
    requires e.ToolCall? ==> k < |s.rec.tools|
    ensures SameRecord(ResponsesEvent(s, e, k, random).rec, s.rec)
  {
  }

  lemma MessagesRecords(s: State, e: Event, k: nat)
    requires e.ToolCall? ==> k < |s.rec.tools|
    ensures MessagesEvent(s, e, k).rec == s.rec
  {
  }

  predicate DistinctIds(tools: seq<Tool>) {
    forall j, k | 0 <= j < k < |tools| :: tools[j].id != tools[k].id
  }

  predicate IdsBound(r: Recorder) {
    r.Valid() && DistinctIds(r.tools) && forall k | 0 <= k < |r.tools| :: r.tools[k].id in r.byKey
  }

  lemma RecordKeepsIds(r: Recorder, e: Event, random: string)
    requires IdsBound(r) && (e.ToolCall? ==> e.id != "")
    ensures IdsBound(Record(r, e, random))
  {
  }

  // ---- what is recorded, without the frames ----

  lemma SameRecordTrans(a: Recorder, b: Recorder, c: Recorder)
    requires SameRecord(a, b) && (SameRecord(b, c) || SameRecord(c, b))
    ensures SameRecord(a, c)
  {
  }

  lemma SameRecordStep(a: Recorder, b: Recorder, e: Event, random: string)
    requires a.Valid() && b.Valid() && SameRecord(a, b)
    ensures SameRecord(Record(a, e, random), Record(b, e, random))
  {
    if e.ToolCall? {
      SameLookup(a, b, e, random);
      var k := ToolIndex(a, e);
      var found, other := Lookup(a, e, random), Lookup(b, e, random);
      assert found.tools[k].(outputIndex := -1) == other.tools[k].(outputIndex := -1);
    }
  }

  lemma SameLookup(a: Recorder, b: Recorder, e: Event, random: string)
    requires a.Valid() && b.Valid() && SameRecord(a, b) && e.ToolCall?
    ensures SameRecord(Lookup(a, e, random), Lookup(b, e, random)) &&
            ToolIndex(a, e) == ToolIndex(b, e)
  {
  }

  /** The events recorded one after the other. */
  function Recorded(es: seq<Event>, randoms: seq<string>): (r: Recorder)
    requires |randoms| == |es|
    ensures r.Valid()
  {
    if es == [] then Recorder("", "", [], map[], NO_USAGE, false)
    else Record(Recorded(es[..|es| - 1], randoms[..|es| - 1]), es[|es| - 1], randoms[|es| - 1])
  }

  /** Every stream records the same, but for the output slots. */
  lemma {:induction false} RunRecords(operation: Operation, model: string, es: seq<Event>, randoms: seq<string>)
    requires |randoms| == |es|
    ensures SameRecord(Run(operation, model, es, randoms).rec, Recorded(es, randoms))
  {
    if es != [] {
      var init, rs, e, random := es[..|es| - 1], randoms[..|es| - 1], es[|es| - 1], randoms[|es| - 1];
      var s := Run(operation, model, init, rs);
      RunRecords(operation, model, init, rs);
      HandleRecords(s, e, random);
      SameRecordStep(s.rec, Recorded(init, rs), e, random);
      SameRecordTrans(Handle(s, e, random).rec, Record(s.rec, e, random), Recorded(es, randoms));
    }
  }

  /** A Messages stream hands out no output slots. */
  lemma {:induction false} MessagesRunRecords(model: string, es: seq<Event>, randoms: seq<string>)
    requires |randoms| == |es|
    ensures Run(Messages, model, es, randoms).rec == Recorded(es, randoms)
  {
    if es != [] {
      var init, rs := es[..|es| - 1], randoms[..|es| - 1];
      MessagesRunRecords(model, init, rs);
      MessagesHandled(Run(Messages, model, init, rs), es[|es| - 1], randoms[|es| - 1]);
    }
  }

  lemma MessagesHandled(s: State, e: Event, random: string)
    requires s.operation.Messages? && s.rec.Valid()
    ensures Handle(s, e, random).rec == Record(s.rec, e, random)
  {
  }
}
