/**
 Content blocks of a Messages stream, seen by a strict client.

 The client accepts blocks numbered 0, 1, 2, ... with at most one open, deltas only inside an open block of their own
 kind, and one message_delta and message_stop after the last block is closed.  It collects text, thinking and, per tool
 ID, the partial JSON of all blocks of that tool.
 */
module MessagesBlocks {
  import opened Options
  import opened Events
  import opened Stream
  import Text

  datatype OpenBlockOf = OpenBlockOf(kind: BlockKind, toolId: string)

  datatype Phase = Body | Stopped(reason: string) | Finished(reason: string)

  datatype Client = Reject |
    Reading(next: nat, open: Option<OpenBlockOf>, text: string, thinking: string, inputs: map<string, string>,
            phase: Phase)

  function Input(inputs: map<string, string>, id: string): string {
    if id in inputs then inputs[id] else ""
  }

  function Delta(c: Client, delta: string): Client
    requires c.Reading? && c.open.Some?
  {
    match c.open.value.kind
    case TextBlock => c.(text := c.text + delta)
    case ThinkingBlock => c.(thinking := c.thinking + delta)
    case ToolBlock => c.(inputs := c.inputs[c.open.value.toolId := Input(c.inputs, c.open.value.toolId) + delta])
    case NoBlock => Reject
  }

  function Read(c: Client, f: Frame): Client {
    if c.Reject? then Reject else
    match c.phase
    case Finished(_) => Reject
    case Stopped(reason) => if f.MessageStop? then c.(phase := Finished(reason)) else Reject
    case Body =>
      match f
      case MessageStart(_) => c
      case Ping => c
      case BlockStart(index, kind, toolId, _) =>
        if c.open.None? && index == c.next then c.(open := Some(OpenBlockOf(kind, toolId))) else Reject
      case BlockDelta(index, kind, delta) =>
        if c.open.Some? && index == c.next && kind == c.open.value.kind then Delta(c, delta) else Reject
      case BlockStop(index) =>
        if c.open.Some? && index == c.next then c.(open := None, next := c.next + 1) else Reject
      case MessageDelta(reason, _) => if c.open.None? then c.(phase := Stopped(reason)) else Reject
      case _ => Reject
  }

  function ReadAll(fs: seq<Frame>): Client {
    if fs == [] then Reading(0, None, "", "", map[], Body) else Read(ReadAll(fs[..|fs| - 1]), fs[|fs| - 1])
  }

  lemma {:induction false} ReadAppend(fs: seq<Frame>, f: Frame)
    ensures ReadAll(fs + [f]) == Read(ReadAll(fs), f)
  {
    assert (fs + [f])[..|fs|] == fs;
  }

  // ---- the invariant ----

  /** The length of all arguments recorded under an ID. */
  function Share(tools: seq<Tool>, id: string): nat {
    if tools == [] then 0
    else Share(tools[..|tools| - 1], id) + if tools[|tools| - 1].id == id then |tools[|tools| - 1].arguments| else 0
  }

  /** No other tool has the ID of tool k. */
  predicate Alone(tools: seq<Tool>, k: nat)
    requires k < |tools|
  {
    forall j | 0 <= j < |tools| && j != k :: tools[j].id != tools[k].id
  }

  /** Under each ID the client has all arguments of the tools with that ID; for a tool alone, in order. */
  ghost predicate InputsFit(inputs: map<string, string>, tools: seq<Tool>) {
    && (forall id :: |Input(inputs, id)| == Share(tools, id))
    && (forall k | 0 <= k < |tools| && Alone(tools, k) :: Input(inputs, tools[k].id) == tools[k].arguments)
  }

  /** The client has the same block open as the encoder, and is between two frames of the body. */
  predicate Idle(c: Client, b: Blocks) {
    && c.Reading? && c.phase.Body? && c.next == b.index
    && (if b.open then b.kind != NoBlock && c.open == Some(OpenBlockOf(b.kind, b.toolId)) else c.open.None?)
    && (!b.open ==> b.toolId == "") && (b.open && b.kind != ToolBlock ==> b.toolId == "")
  }

  ghost predicate Inv(s: State) {
    var c := ReadAll(s.written);
    && s.operation.Messages? && s.rec.Valid() && Idle(c, s.blocks)
    && c.text == s.rec.text && c.thinking == s.rec.reasoning && InputsFit(c.inputs, s.rec.tools)
  }

  /** Same collected contents. */
  predicate SameContents(c: Client, d: Client) {
    c.Reading? && d.Reading? && c.text == d.text && c.thinking == d.thinking && c.inputs == d.inputs
  }

  lemma CloseBlockReads(s: State)
    requires Idle(ReadAll(s.written), s.blocks)
    ensures var r := CloseBlock(s);
            Idle(ReadAll(r.written), r.blocks) && !r.blocks.open && SameContents(ReadAll(r.written), ReadAll(s.written))
  {
    if s.blocks.open {
      ReadAppend(s.written, BlockStop(s.blocks.index));
    }
  }

  lemma OpenBlockReads(s: State, kind: BlockKind)
    requires Idle(ReadAll(s.written), s.blocks) && (kind.TextBlock? || kind.ThinkingBlock?)
    ensures var r := OpenBlock(s, kind);
            && Idle(ReadAll(r.written), r.blocks) && r.blocks.open && r.blocks.kind == kind
            && SameContents(ReadAll(r.written), ReadAll(s.written))
  {
    if !(s.blocks.open && s.blocks.kind == kind) {
      CloseBlockReads(s);
      var r := CloseBlock(s);
      ReadAppend(r.written, BlockStart(r.blocks.index, kind, "", ""));
      StartRead(ReadAll(r.written), r.blocks, kind, "", "");
    }
  }

  /** A closed client takes the start of the next block. */
  lemma StartRead(c: Client, b: Blocks, kind: BlockKind, toolId: string, name: string)
    requires Idle(c, b) && !b.open
    ensures Read(c, BlockStart(b.index, kind, toolId, name)) == c.(open := Some(OpenBlockOf(kind, toolId)))
  {
  }

  /** An open client takes a delta of its own kind. */
  lemma DeltaRead(c: Client, b: Blocks, delta: string)
    requires Idle(c, b) && b.open
    ensures Read(c, BlockDelta(b.index, b.kind, delta)) == Delta(c, delta)
  {
  }

  lemma OpenToolBlockReads(s: State, tool: Tool)
    requires Idle(ReadAll(s.written), s.blocks)
    ensures var r := OpenToolBlock(s, tool);
            && Idle(ReadAll(r.written), r.blocks) && r.blocks.open && r.blocks.kind == ToolBlock &&
               r.blocks.toolId == tool.id
            && SameContents(ReadAll(r.written), ReadAll(s.written))
  {
    if !(s.blocks.open && s.blocks.kind.ToolBlock? && s.blocks.toolId == tool.id) {
      CloseBlockReads(s);
      var r := CloseBlock(s);
      ReadAppend(r.written, BlockStart(r.blocks.index, ToolBlock, tool.id, tool.name));
    }
  }

  lemma TextKeeps(s: State, delta: string)
    requires Inv(s)
    ensures Inv(WriteBlock(s.(rec := s.rec.(text := s.rec.text + delta)), TextBlock, delta))
  {
    var r := s.(rec := s.rec.(text := s.rec.text + delta));
    OpenBlockReads(r, TextBlock);
    var q := OpenBlock(r, TextBlock);
    ReadAppend(q.written, BlockDelta(q.blocks.index, TextBlock, delta));
    DeltaRead(ReadAll(q.written), q.blocks, delta);
  }

  lemma ThinkingKeeps(s: State, delta: string)
    requires Inv(s)
    ensures Inv(WriteBlock(s.(rec := s.rec.(reasoning := s.rec.reasoning + delta)), ThinkingBlock, delta))
  {
    var r := s.(rec := s.rec.(reasoning := s.rec.reasoning + delta));
    OpenBlockReads(r, ThinkingBlock);
    var q := OpenBlock(r, ThinkingBlock);
    ReadAppend(q.written, BlockDelta(q.blocks.index, ThinkingBlock, delta));
    DeltaRead(ReadAll(q.written), q.blocks, delta);
  }

  lemma {:induction false} ShareUpdate(tools: seq<Tool>, k: nat, t: Tool, id: string)
    requires k < |tools| && t.id == tools[k].id
    ensures Share(tools[k := t], id) ==
            Share(tools, id) + if id == t.id then |t.arguments| - |tools[k].arguments| else 0
  {
    var n := |tools| - 1;
    if k < n {
      assert tools[k := t][..n] == tools[..n][k := t];
      ShareUpdate(tools[..n], k, t, id);
    } else {
      assert tools[k := t][..n] == tools[..n];
    }
  }

  lemma {:induction false} ShareOfStrangers(tools: seq<Tool>, id: string)
    requires forall j | 0 <= j < |tools| :: tools[j].id != id
    ensures Share(tools, id) == 0
  {
    if tools != [] {
      ShareOfStrangers(tools[..|tools| - 1], id);
    }
  }

  lemma {:induction false} ShareOfOne(tools: seq<Tool>, k: nat)
    requires k < |tools|
    ensures Share(tools, tools[k].id) >= |tools[k].arguments|
  {
    var n := |tools| - 1;
    if k < n {
      ShareOfOne(tools[..n], k);
    }
  }

  lemma {:induction false} ShareOfTwo(tools: seq<Tool>, j: nat, k: nat)
    requires j < k < |tools| && tools[j].id == tools[k].id
    ensures Share(tools, tools[k].id) >= |tools[j].arguments| + |tools[k].arguments|
  {
    var n := |tools| - 1;
    if k < n {
      ShareOfTwo(tools[..n], j, k);
    } else {
      ShareOfOne(tools[..n], j);
    }
  }

  /** A fragment recorded on tool k and collected under its ID. */
  lemma ToolInput(inputs: map<string, string>, tools: seq<Tool>, k: nat, t: Tool, delta: string)
    requires InputsFit(inputs, tools) && k < |tools| && t.id == tools[k].id && t.arguments == tools[k].arguments + delta
    ensures InputsFit(Grown(inputs, t.id, delta), tools[k := t])
  {
    var tools', inputs' := tools[k := t], Grown(inputs, t.id, delta);
    assert delta == "" ==> Input(inputs, t.id) + delta == Input(inputs, t.id);
    forall id
      ensures |Input(inputs', id)| == Share(tools', id)
    {
      ShareUpdate(tools, k, t, id);
    }
    forall j | 0 <= j < |tools'| && Alone(tools', j)
      ensures Input(inputs', tools'[j].id) == tools'[j].arguments
    {
      AloneBefore(tools, k, t, j);
    }
  }

  lemma AloneBefore(tools: seq<Tool>, k: nat, t: Tool, j: nat)
    requires k < |tools| && j < |tools| && t.id == tools[k].id && Alone(tools[k := t], j)
    ensures Alone(tools, j) && tools[k := t][j].id == tools[j].id && (j != k ==> tools[j].id != t.id)
  {
    forall i | 0 <= i < |tools| && i != j
      ensures tools[i].id != tools[j].id
    {
      assert tools[k := t][i].id == tools[i].id && tools[k := t][j].id == tools[j].id;
    }
  }

  lemma FreshInput(inputs: map<string, string>, tools: seq<Tool>, t: Tool)
    requires InputsFit(inputs, tools) && t.arguments == ""
    ensures InputsFit(inputs, tools + [t])
  {
    var tools', n := tools + [t], |tools|;
    assert tools'[..n] == tools;
    forall k | 0 <= k < |tools'| && Alone(tools', k)
      ensures Input(inputs, tools'[k].id) == tools'[k].arguments
    {
      if k < n {
        forall j | 0 <= j < n && j != k
          ensures tools[j].id != tools[k].id
        {
          assert tools'[j].id != tools'[k].id;
        }
        assert Alone(tools, k);
      } else {
        forall j | 0 <= j < n
          ensures tools[j].id != t.id
        {
          assert tools'[j].id != tools'[k].id;
        }
        ShareOfStrangers(tools, t.id);
      }
    }
  }

  lemma ToolKeeps(s: State, e: Event, random: string)
    requires Inv(s) && e.ToolCall?
    ensures Inv(Handle(s, e, random))
  {
    var rec, k := RecordTool(s.rec, e, random), ToolIndex(s.rec, e);
    ToolHandled(s, e, random);
    ToolRecorded(s.rec, ReadAll(s.written).inputs, e, random);
    ToolBlockReads(s.(rec := rec), rec.tools[k], e.arguments);
  }

  lemma ToolHandled(s: State, e: Event, random: string)
    requires s.operation.Messages? && s.rec.Valid() && e.ToolCall?
    ensures var rec := RecordTool(s.rec, e, random);
            && Handle(s, e, random) == WriteToolBlock(s.(rec := rec), rec.tools[ToolIndex(s.rec, e)], e.arguments)
            && Handle(s, e, random).rec == rec && rec.text == s.rec.text && rec.reasoning == s.rec.reasoning
  {
  }

  /** The inputs a client has after a fragment of a tool. */
  function Grown(inputs: map<string, string>, id: string, delta: string): map<string, string> {
    if delta == "" then inputs else inputs[id := Input(inputs, id) + delta]
  }

  lemma ToolRecorded(r: Recorder, inputs: map<string, string>, e: Event, random: string)
    requires r.Valid() && e.ToolCall? && InputsFit(inputs, r.tools)
    ensures InputsFit(Grown(inputs, RecordedOn(r, e, random), e.arguments), RecordTool(r, e, random).tools)
  {
    if ToolKey(e) !in r.byKey {
      FreshInput(inputs, r.tools, NewTool(r, e, random));
    }
    var rec, k := RecordTool(r, e, random), ToolIndex(r, e);
    ToolInput(inputs, Lookup(r, e, random).tools, k, rec.tools[k], e.arguments);
  }

  /** The ID of the tool on which a call event is recorded. */
  function RecordedOn(r: Recorder, e: Event, random: string): string
    requires r.Valid() && e.ToolCall?
  {
    RecordTool(r, e, random).tools[ToolIndex(r, e)].id
  }

  lemma ToolBlockReads(s: State, t: Tool, delta: string)
    requires Idle(ReadAll(s.written), s.blocks)
    ensures var c, r := ReadAll(s.written), WriteToolBlock(s, t, delta);
            var d := ReadAll(r.written);
            Idle(d, r.blocks) && d.text == c.text && d.thinking == c.thinking &&
            d.inputs == Grown(c.inputs, t.id, delta)
  {
    OpenToolBlockReads(s, t);
    var q := OpenToolBlock(s, t);
    if delta != "" {
      ReadAppend(q.written, BlockDelta(q.blocks.index, ToolBlock, delta));
      DeltaRead(ReadAll(q.written), q.blocks, delta);
    }
  }

  lemma HandleKeeps(s: State, e: Event, random: string)
    requires Inv(s)
    ensures Inv(Handle(s, e, random))
  {
    match e
    case TextDelta(t) => TextKeeps(s, t);
    case ReasoningDelta(t) => ThinkingKeeps(s, t);
    case Image(_) => TextKeeps(s, MediaText(e));
    case Video(_) => TextKeeps(s, MediaText(e));
    case ToolCall(_, _, _, _, _) => ToolKeeps(s, e, random);
    case _ =>
  }

  lemma {:induction false} ReachableBlocks(model: string, es: seq<Event>, randoms: seq<string>)
    requires |randoms| == |es|
    ensures Inv(Run(Messages, model, es, randoms))
  {
    if es == [] {
      ReadAppend([], MessageStart(model));
      ReadAppend([MessageStart(model)], Ping);
      assert [MessageStart(model)] + [Ping] == [MessageStart(model), Ping];
    } else {
      ReachableBlocks(model, es[..|es| - 1], randoms[..|es| - 1]);
      HandleKeeps(Run(Messages, model, es[..|es| - 1], randoms[..|es| - 1]), es[|es| - 1], randoms[|es| - 1]);
    }
  }

  // ---- what a client collects ----

  /** All fragments of the events recorded on a tool with this ID, in order. */
  function Fragments(es: seq<Event>, randoms: seq<string>, id: string): string
    requires |randoms| == |es|
  {
    if es == [] then "" else
    var init, rs, e, random := es[..|es| - 1], randoms[..|es| - 1], es[|es| - 1], randoms[|es| - 1];
    Fragments(init, rs, id) +
    if e.ToolCall? && RecordedOn(Recorded(init, rs), e, random) == id then e.arguments else ""
  }

  /** One event adds its arguments under the ID it is recorded on, and nothing else. */
  lemma InputsAfter(s: State, e: Event, random: string, id: string)
    requires Inv(s)
    ensures var c, d := ReadAll(s.written), ReadAll(Handle(s, e, random).written);
            && d.Reading?
            && Input(d.inputs, id) ==
               Input(c.inputs, id) + if e.ToolCall? && RecordedOn(s.rec, e, random) == id then e.arguments else ""
  {
    if e.ToolCall? {
      var rec, k := RecordTool(s.rec, e, random), ToolIndex(s.rec, e);
      ToolHandled(s, e, random);
      ToolBlockReads(s.(rec := rec), rec.tools[k], e.arguments);
    } else if e.TextDelta? || e.ReasoningDelta? || e.Image? || e.Video? {
      var kind, delta := if e.ReasoningDelta? then ThinkingBlock else TextBlock, DeltaOf(e);
      TextHandled(s, e, random);
      BlockInputs(s.(rec := Record(s.rec, e, random)), kind, delta);
    }
    AddNothing(ReadAll(s.written).inputs, id);
  }

  lemma AddNothing(inputs: map<string, string>, id: string)
    ensures Input(inputs, id) + "" == Input(inputs, id)
  {
  }

  /** The text a text, reasoning or media event writes. */
  function DeltaOf(e: Event): string
    requires e.TextDelta? || e.ReasoningDelta? || e.Image? || e.Video?
  {
    if e.TextDelta? || e.ReasoningDelta? then e.text else MediaText(e)
  }

  lemma TextHandled(s: State, e: Event, random: string)
    requires s.operation.Messages? && s.rec.Valid() && (e.TextDelta? || e.ReasoningDelta? || e.Image? || e.Video?)
    ensures Handle(s, e, random) ==
            WriteBlock(s.(rec := Record(s.rec, e, random)),
                       if e.ReasoningDelta? then ThinkingBlock else TextBlock, DeltaOf(e))
  {
  }

  lemma BlockInputs(s: State, kind: BlockKind, delta: string)
    requires Idle(ReadAll(s.written), s.blocks) && (kind.TextBlock? || kind.ThinkingBlock?)
    ensures var d := ReadAll(WriteBlock(s, kind, delta).written); d.Reading? && d.inputs == ReadAll(s.written).inputs
  {
    OpenBlockReads(s, kind);
    var q := OpenBlock(s, kind);
    ReadAppend(q.written, BlockDelta(q.blocks.index, kind, delta));
    DeltaRead(ReadAll(q.written), q.blocks, delta);
  }

  lemma {:induction false} CollectsFragments(model: string, es: seq<Event>, randoms: seq<string>, id: string)
    requires |randoms| == |es|
    ensures var c := ReadAll(Run(Messages, model, es, randoms).written);
            c.Reading? && Input(c.inputs, id) == Fragments(es, randoms, id)
  {
    ReachableBlocks(model, es, randoms);
    if es != [] {
      var init, rs := es[..|es| - 1], randoms[..|es| - 1];
      CollectsFragments(model, init, rs, id);
      ReachableBlocks(model, init, rs);
      MessagesRunRecords(model, init, rs);
      InputsAfter(Run(Messages, model, init, rs), es[|es| - 1], randoms[|es| - 1], id);
    } else {
      ReadAppend([], MessageStart(model));
      ReadAppend([MessageStart(model)], Ping);
      assert [MessageStart(model)] + [Ping] == [MessageStart(model), Ping];
    }
  }

  /** Tools that share an ID have no arguments. */
  predicate NoClash(tools: seq<Tool>) {
    forall j, k | 0 <= j < k < |tools| && tools[j].id == tools[k].id ::
      tools[j].arguments == "" && tools[k].arguments == ""
  }

  /** Under the ID of every tool the client has that tool's arguments. */
  predicate InputsMatch(inputs: map<string, string>, tools: seq<Tool>) {
    forall k | 0 <= k < |tools| :: Input(inputs, tools[k].id) == tools[k].arguments
  }

  /** Seen through a finished stream, every tool ID yields its tool's arguments. */
  predicate ArgumentsArrive(model: string, es: seq<Event>, randoms: seq<string>)
    requires |randoms| == |es|
  {
    var s := Run(Messages, model, es, randoms);
    var c := ReadAll(Finish(s).written);
    c.Reading? && InputsMatch(c.inputs, s.rec.tools)
  }

  lemma InputsMatchIff(inputs: map<string, string>, tools: seq<Tool>)
    requires InputsFit(inputs, tools)
    ensures InputsMatch(inputs, tools) <==> NoClash(tools)
  {
    if InputsMatch(inputs, tools) {
      forall j, k | 0 <= j < k < |tools| && tools[j].id == tools[k].id
        ensures tools[j].arguments == "" && tools[k].arguments == ""
      {
        ShareOfTwo(tools, j, k);
        assert |Input(inputs, tools[k].id)| == |tools[j].arguments| == |tools[k].arguments|;
      }
    } else {
      var k :| 0 <= k < |tools| && Input(inputs, tools[k].id) != tools[k].arguments;
      var j :| 0 <= j < |tools| && j != k && tools[j].id == tools[k].id;
      if NoClash(tools) {
        assert tools[k].arguments == "";
        EmptyShare(tools, tools[k].id);
      }
    }
  }

  /** If all tools with an ID have empty arguments, the ID has no share. */
  lemma {:induction false} EmptyShare(tools: seq<Tool>, id: string)
    requires forall j | 0 <= j < |tools| && tools[j].id == id :: tools[j].arguments == ""
    ensures Share(tools, id) == 0
  {
    if tools != [] {
      EmptyShare(tools[..|tools| - 1], id);
    }
  }

  /**
   The strict client accepts every finished Messages stream: blocks are well bracketed, the text and thinking deltas add
   up to the recorded text and reasoning, the stop reason tells whether a tool was called, and the blocks of each tool
   ID add up to the fragments recorded under that ID.  These are the arguments of every tool if and only if tools that
   share an ID have no arguments.
   */
  lemma {:induction false} ClientAccepts(model: string, es: seq<Event>, randoms: seq<string>)
    requires |randoms| == |es|
    ensures var s := Run(Messages, model, es, randoms);
            var c := ReadAll(Finish(s).written);
            && c.Reading? && c.open.None? && c.text == s.rec.text && c.thinking == s.rec.reasoning
            && c.phase == Finished(if s.rec.tools == [] then "end_turn" else "tool_use")
            && (forall id :: Input(c.inputs, id) == Fragments(es, randoms, id))
            && (ArgumentsArrive(model, es, randoms) <==> NoClash(Recorded(es, randoms).tools))
  {
    var s := Run(Messages, model, es, randoms);
    ReachableBlocks(model, es, randoms);
    FinishReads(s);
    InputsMatchIff(ReadAll(s.written).inputs, s.rec.tools);
    MessagesRunRecords(model, es, randoms);
    forall id
      ensures Input(ReadAll(Finish(s).written).inputs, id) == Fragments(es, randoms, id)
    {
      CollectsFragments(model, es, randoms, id);
    }
  }

  lemma FinishReads(s: State)
    requires Inv(s)
    ensures var c := ReadAll(Finish(s).written);
            SameContents(c, ReadAll(s.written)) && c.open.None? && c.phase == Finished(StopReason(s.rec))
  {
    CloseBlockReads(s);
    var r := CloseBlock(s);
    var delta := MessageDelta(StopReason(s.rec), s.rec.usage.outputTokens);
    ReadAppend(r.written, delta);
    ReadAppend(r.written + [delta], MessageStop);
    assert Finish(s).written == r.written + [delta] + [MessageStop];
  }

  // ---- when tool IDs are distinct ----

  /** Every call that carries its own ID gets its own entry. */
  lemma {:induction false} NonEmptyIdsAreDistinct(operation: Operation, model: string, es: seq<Event>,
                                                  randoms: seq<string>)
    requires |randoms| == |es|
    requires forall e | e in es && e.ToolCall? :: e.id != ""
    ensures IdsBound(Run(operation, model, es, randoms).rec)
  {
    if es != [] {
      var s, e, random := Run(operation, model, es[..|es| - 1], randoms[..|es| - 1]), es[|es| - 1], randoms[|es| - 1];
      NonEmptyIdsAreDistinct(operation, model, es[..|es| - 1], randoms[..|es| - 1]);
      RecordKeepsIds(s.rec, e, random);
      HandleRecords(s, e, random);
      var r, h := Record(s.rec, e, random), Handle(s, e, random).rec;
      forall k | 0 <= k < |h.tools|
        ensures h.tools[k].id == r.tools[k].id
      {
        assert h.tools[k].(outputIndex := -1) == r.tools[k].(outputIndex := -1);
      }
    }
  }

  /** When every call event carries an ID, the blocks of each tool ID add up to that tool's arguments. */
  lemma {:induction false} NamedCallsMatch(model: string, es: seq<Event>, randoms: seq<string>)
    requires |randoms| == |es| && forall e | e in es && e.ToolCall? :: e.id != ""
    ensures ArgumentsArrive(model, es, randoms)
  {
    NonEmptyIdsAreDistinct(Messages, model, es, randoms);
    MessagesRunRecords(model, es, randoms);
    ClientAccepts(model, es, randoms);
  }

  lemma {:induction false} ArriveIff(model: string, es: seq<Event>, randoms: seq<string>)
    requires |randoms| == |es|
    ensures ArgumentsArrive(model, es, randoms) <==> NoClash(Recorded(es, randoms).tools)
  {
    ClientAccepts(model, es, randoms);
  }

  /** A call without an ID can be given the ID of an earlier call; then the client has neither's arguments. */
  lemma EmptyIdCanCollide(model: string, a: Event, b: Event)
    requires a == ToolCall("call_1", "fc_a", "f", "x", 0) && b == ToolCall("", "fc_b", "g", "y", 5)
    ensures !ArgumentsArrive(model, [a, b], ["", ""])
  {
    ArriveIff(model, [a, b], ["", ""]);
    CollidingCalls(a, b);
  }

  lemma {:induction false} CollidingCalls(a: Event, b: Event)
    requires a == ToolCall("call_1", "fc_a", "f", "x", 0) && b == ToolCall("", "fc_b", "g", "y", 5)
    ensures !NoClash(Recorded([a, b], ["", ""]).tools)
  {
    assert [a, b][..1] == [a] && ["", ""][..1] == [""];
    FirstCall(a);
    SecondCall(Recorded([a], [""]), b);
  }

  lemma {:induction false} FirstCall(a: Event)
    requires a == ToolCall("call_1", "fc_a", "f", "x", 0)
    ensures OneCall(Recorded([a], [""]))
  {
    assert [a][..0] == [] && [""][..0] == [];
  }

  /** One tool was recorded, with ID "call_1" and some arguments. */
  predicate OneCall(r: Recorder) {
    && r.byKey == map["call_1" := 0, "fc_a" := 0]
    && |r.tools| == 1 && r.tools[0].id == "call_1" && r.tools[0].arguments == "x"
  }

  lemma SecondCall(r: Recorder, b: Event)
    requires r.Valid() && OneCall(r) && b == ToolCall("", "fc_b", "g", "y", 5)
    ensures !NoClash(Record(r, b, "").tools)
  {
    var key, rec := ToolKey(b), Record(r, b, "");
    assert key !in r.byKey by {
      assert key[0] == 'i' && "call_1"[0] == 'c' && "fc_a"[0] == 'f';
    }
    assert Text.Decimal(1) == "1" && NewTool(r, b, "").id == "call_1";
    assert rec.tools[0].id == rec.tools[1].id;
  }
}
