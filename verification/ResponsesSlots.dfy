/**
 Output slots of a Responses stream, seen by a strict client.

 The client accepts a frame only where the protocol allows it: items are added at slots 0, 1, 2, ..., deltas go to
 an open item of their own kind, every closing frame repeats exactly what was streamed (with "{}" for blank
 arguments), every item is closed once, and the final frame lists all of them.  Theorem `ClientAccepts` says that
 this client accepts every finished stream and has then read the recorded answer.
 */
module ResponsesSlots {
  import opened Options
  import opened Events
  import opened Stream

  /** What an item is; a call also has its ordinal among the calls. */
  datatype Kind = Message | Thinking | Call(ordinal: nat, callId: string)

  datatype Entry = Entry(kind: Kind, content: string, done: Option<Item>)

  datatype Client = Reject | Reading(entries: seq<Entry>, calls: nat, closed: bool)

  function ItemContent(item: Item): string {
    if item.CallItem? then item.arguments else item.text
  }

  function KindOf(item: Item, calls: nat): Kind {
    match item
    case MessageItem(_, _, _) => Message
    case ReasoningItem(_, _, _) => Thinking
    case CallItem(_, callId, _, _, _) => Call(calls, callId)
  }

  predicate SameKind(item: Item, kind: Kind) {
    match item
    case MessageItem(_, _, _) => kind.Message?
    case ReasoningItem(_, _, _) => kind.Thinking?
    case CallItem(_, callId, _, _, _) => kind.Call? && kind.callId == callId
  }

  /** The closing text of an entry. */
  function Closed(e: Entry): string {
    if e.kind.Call? then DefaultArguments(e.content) else e.content
  }

  function Add(c: Client, slot: int, item: Item): Client
    requires c.Reading?
  {
    if slot != |c.entries| || item.completed || ItemContent(item) != "" then Reject
    else Reading(c.entries + [Entry(KindOf(item, c.calls), "", None)], c.calls + if item.CallItem? then 1 else 0, false)
  }

  /** The slot holds an open item for which `ok` holds. */
  predicate Open(c: Client, slot: int, ok: Kind -> bool)
    requires c.Reading?
  {
    0 <= slot < |c.entries| && c.entries[slot].done.None? && ok(c.entries[slot].kind)
  }

  function Delta(c: Client, slot: int, ok: Kind -> bool, delta: string): Client
    requires c.Reading?
  {
    if !Open(c, slot, ok) then Reject
    else c.(entries := c.entries[slot := c.entries[slot].(content := c.entries[slot].content + delta)])
  }

  function Check(c: Client, slot: int, ok: Kind -> bool, text: string): Client
    requires c.Reading?
  {
    if Open(c, slot, ok) && Closed(c.entries[slot]) == text then c else Reject
  }

  function CloseItem(c: Client, slot: int, item: Item): Client
    requires c.Reading?
  {
    if Open(c, slot, (kind: Kind) => SameKind(item, kind)) && item.completed &&
       ItemContent(item) == Closed(c.entries[slot])
    then c.(entries := c.entries[slot := c.entries[slot].(done := Some(item))])
    else Reject
  }

  predicate AllDone(entries: seq<Entry>, output: seq<Option<Item>>) {
    |output| == |entries| && forall i | 0 <= i < |entries| :: entries[i].done.Some? && entries[i].done == output[i]
  }

  const IsMessage: Kind -> bool := (kind: Kind) => kind.Message?
  const IsThinking: Kind -> bool := (kind: Kind) => kind.Thinking?
  const IsCall: Kind -> bool := (kind: Kind) => kind.Call?

  function Read(c: Client, f: Frame): Client {
    if c.Reject? then Reject
    else if c.closed then (if f.DoneMarker? then c else Reject) else
    match f
    case Created(_) => c
    case ItemAdded(slot, item) => Add(c, slot, item)
    case ContentPartAdded(slot, _) => Check(c, slot, IsMessage, "")
    case SummaryPartAdded(slot, _) => Check(c, slot, IsThinking, "")
    case OutputTextDelta(slot, _, delta) => Delta(c, slot, IsMessage, delta)
    case SummaryTextDelta(slot, _, delta) => Delta(c, slot, IsThinking, delta)
    case ArgumentsDelta(slot, _, delta) => Delta(c, slot, IsCall, delta)
    case SummaryTextDone(slot, _, text) => Check(c, slot, IsThinking, text)
    case SummaryPartDone(slot, _, text) => Check(c, slot, IsThinking, text)
    case OutputTextDone(slot, _, text) => Check(c, slot, IsMessage, text)
    case ContentPartDone(slot, _, text) => Check(c, slot, IsMessage, text)
    case ArgumentsDone(slot, _, arguments) => Check(c, slot, IsCall, arguments)
    case ItemDone(slot, item) => CloseItem(c, slot, item)
    case Completed(_, output, _) => if AllDone(c.entries, output) then c.(closed := true) else Reject
    case _ => Reject
  }

  function ReadAll(fs: seq<Frame>): Client {
    if fs == [] then Reading([], 0, false) else Read(ReadAll(fs[..|fs| - 1]), fs[|fs| - 1])
  }

  lemma {:induction false} ReadAppend(fs: seq<Frame>, f: Frame)
    ensures ReadAll(fs + [f]) == Read(ReadAll(fs), f)
  {
    assert (fs + [f])[..|fs|] == fs;
  }

  lemma {:induction false} ReadAppend2(fs: seq<Frame>, f: Frame, g: Frame)
    ensures ReadAll(fs + [f, g]) == Read(Read(ReadAll(fs), f), g)
  {
    assert fs + [f, g] == (fs + [f]) + [g];
    ReadAppend(fs, f);
    ReadAppend(fs + [f], g);
  }

  // ---- the invariant: the client's entries and the encoder's owners are the same thing ----

  predicate TextAt(slot: Option<Slot>, kind: Kind, text: string, es: seq<Entry>) {
    if slot.Some? then slot.value.index < |es| && es[slot.value.index] == Entry(kind, text, None) else text == ""
  }

  predicate ToolAt(t: Tool, k: nat, es: seq<Entry>) {
    0 <= t.outputIndex < |es| && es[t.outputIndex] == Entry(Call(k, t.id), t.arguments, None)
  }

  predicate Owner(kind: Kind, i: nat, o: Outputs, tools: seq<Tool>) {
    match kind
    case Message => o.text.Some? && o.text.value.index == i
    case Thinking => o.reasoning.Some? && o.reasoning.value.index == i
    case Call(k, _) => k < |tools| && tools[k].outputIndex == i
  }

  predicate Tracks(c: Client, rec: Recorder, o: Outputs) {
    && c.Reading? && !c.closed && c.calls == |rec.tools| && |c.entries| == o.next
    && TextAt(o.text, Message, rec.text, c.entries)
    && TextAt(o.reasoning, Thinking, rec.reasoning, c.entries)
    && (forall k | 0 <= k < |rec.tools| :: ToolAt(rec.tools[k], k, c.entries))
    && (forall i | 0 <= i < |c.entries| :: Owner(c.entries[i].kind, i, o, rec.tools))
  }

  predicate Inv(s: State) {
    s.operation.Responses? && s.rec.Valid() && Tracks(ReadAll(s.written), s.rec, s.outputs)
  }

  lemma EnsureTextKeeps(s: State, random: string)
    requires Inv(s)
    ensures Inv(EnsureText(s, random))
  {
    if s.outputs.text.None? {
      var n, id := s.outputs.next, "msg_" + random;
      ReadAppend2(s.written, ItemAdded(n, MessageItem(id, "", false)), ContentPartAdded(n, id));
    }
  }

  lemma EnsureReasoningKeeps(s: State, random: string)
    requires Inv(s)
    ensures Inv(EnsureReasoning(s, random))
  {
    if s.outputs.reasoning.None? {
      var n, id := s.outputs.next, "rs_" + random;
      ReadAppend2(s.written, ItemAdded(n, ReasoningItem(id, "", false)), SummaryPartAdded(n, id));
    }
  }

  /** A text delta is recorded and streamed together. */
  lemma TextKeeps(s: State, delta: string, random: string)
    requires Inv(s)
    ensures Inv(WriteText(s.(rec := s.rec.(text := s.rec.text + delta)), delta, random))
  {
    EnsureTextKeeps(s, random);
    var r := EnsureText(s, random);
    TracksText(ReadAll(r.written), r.rec, r.outputs, delta);
    ReadAppend(r.written, OutputTextDelta(r.outputs.text.value.index, r.outputs.text.value.id, delta));
  }

  /** The client's view of growing text. */
  lemma TracksText(c: Client, rec: Recorder, o: Outputs, delta: string)
    requires Tracks(c, rec, o) && o.text.Some?
    ensures Tracks(Delta(c, o.text.value.index, IsMessage, delta), rec.(text := rec.text + delta), o)
  {
    var es := Delta(c, o.text.value.index, IsMessage, delta).entries;
    forall k | 0 <= k < |rec.tools|
      ensures ToolAt(rec.tools[k], k, es)
    {
      assert ToolAt(rec.tools[k], k, c.entries);
    }
    forall i | 0 <= i < |es|
      ensures Owner(es[i].kind, i, o, rec.tools)
    {
      assert Owner(c.entries[i].kind, i, o, rec.tools);
    }
  }

  /** The client's view of growing reasoning. */
  lemma TracksReasoning(c: Client, rec: Recorder, o: Outputs, delta: string)
    requires Tracks(c, rec, o) && o.reasoning.Some?
    ensures Tracks(Delta(c, o.reasoning.value.index, IsThinking, delta), rec.(reasoning := rec.reasoning + delta), o)
  {
    var es := Delta(c, o.reasoning.value.index, IsThinking, delta).entries;
    forall k | 0 <= k < |rec.tools|
      ensures ToolAt(rec.tools[k], k, es)
    {
      assert ToolAt(rec.tools[k], k, c.entries);
    }
    forall i | 0 <= i < |es|
      ensures Owner(es[i].kind, i, o, rec.tools)
    {
      assert Owner(c.entries[i].kind, i, o, rec.tools);
    }
  }

  lemma ReasoningKeeps(s: State, delta: string, random: string)
    requires Inv(s)
    ensures Inv(WriteReasoning(s.(rec := s.rec.(reasoning := s.rec.reasoning + delta)), delta, random))
  {
    EnsureReasoningKeeps(s, random);
    var r := EnsureReasoning(s, random);
    TracksReasoning(ReadAll(r.written), r.rec, r.outputs, delta);
    ReadAppend(r.written, SummaryTextDelta(r.outputs.reasoning.value.index, r.outputs.reasoning.value.id, delta));
  }

  /** The client's view of a tool whose arguments grow. */
  lemma TracksDelta(c: Client, rec: Recorder, o: Outputs, k: nat, t: Tool, rec': Recorder)
    requires Tracks(c, rec, o) && k < |rec.tools|
    requires t.id == rec.tools[k].id && t.outputIndex == rec.tools[k].outputIndex &&
             rec.tools[k].arguments <= t.arguments
    requires rec'.tools == rec.tools[k := t] && rec'.text == rec.text && rec'.reasoning == rec.reasoning
    ensures Tracks(Delta(c, t.outputIndex, IsCall, t.arguments[|rec.tools[k].arguments|..]), rec', o)
  {
    assert ToolAt(rec.tools[k], k, c.entries);
    assert rec.tools[k].arguments + t.arguments[|rec.tools[k].arguments|..] == t.arguments;
    var es := Delta(c, t.outputIndex, IsCall, t.arguments[|rec.tools[k].arguments|..]).entries;
    assert es == c.entries[t.outputIndex := Entry(Call(k, t.id), t.arguments, None)];
    forall j | 0 <= j < |rec'.tools|
      ensures ToolAt(rec'.tools[j], j, es)
    {
      assert ToolAt(rec.tools[j], j, c.entries);
    }
    forall i | 0 <= i < |es|
      ensures Owner(es[i].kind, i, o, rec'.tools)
    {
      assert Owner(c.entries[i].kind, i, o, rec.tools);
    }
  }

  /** The client's view of a new tool. */
  lemma TracksAdd(c: Client, rec: Recorder, o: Outputs, t: Tool, rec': Recorder, name: string)
    requires Tracks(c, rec, o) && t.outputIndex == o.next && t.arguments == ""
    requires rec'.tools == rec.tools + [t] && rec'.text == rec.text && rec'.reasoning == rec.reasoning
    ensures Tracks(Add(c, o.next, CallItem(t.itemId, t.id, name, "", false)), rec', o.(next := o.next + 1))
  {
    var es := c.entries + [Entry(Call(c.calls, t.id), "", None)];
    forall j | 0 <= j < |rec'.tools|
      ensures ToolAt(rec'.tools[j], j, es)
    {
      if j < |rec.tools| {
        assert ToolAt(rec.tools[j], j, c.entries);
      }
    }
    forall i | 0 <= i < |es|
      ensures Owner(es[i].kind, i, o.(next := o.next + 1), rec'.tools)
    {
      if i < |c.entries| {
        assert Owner(c.entries[i].kind, i, o, rec.tools);
      }
    }
  }

  /** A known tool: its arguments grow and the same fragment is streamed into its slot. */
  lemma KnownToolKeeps(s: State, e: Event, random: string)
    requires Inv(s) && e.ToolCall? && ToolKey(e) in s.rec.byKey
    ensures Inv(Handle(s, e, random))
  {
    var k := ToolIndex(s.rec, e);
    var t := s.rec.tools[k];
    var t' := UpdatedTool(t, e);
    var rec := RecordTool(s.rec, e, random);
    assert ToolAt(t, k, ReadAll(s.written).entries);
    assert rec.tools == s.rec.tools[k := t'];
    assert t'.arguments[|t.arguments|..] == e.arguments;
    TracksDelta(ReadAll(s.written), s.rec, s.outputs, k, t', rec);
    KnownHandled(s, e, random);
    if e.arguments == "" {
      EmptyDelta(ReadAll(s.written), t.outputIndex);
    } else {
      ReadAppend(s.written, ArgumentsDelta(t.outputIndex, t'.itemId, e.arguments));
    }
  }

  lemma KnownHandled(s: State, e: Event, random: string)
    requires s.operation.Responses? && s.rec.Valid() && e.ToolCall? && ToolKey(e) in s.rec.byKey
    requires s.rec.tools[ToolIndex(s.rec, e)].outputIndex >= 0
    ensures var r, t := Handle(s, e, random), s.rec.tools[ToolIndex(s.rec, e)];
            && r.rec == RecordTool(s.rec, e, random) && r.outputs == s.outputs
            && r.written == if e.arguments == "" then s.written
                            else s.written + [ArgumentsDelta(t.outputIndex, UpdatedTool(t, e).itemId, e.arguments)]
  {
  }

  /** A new tool takes the next slot. */
  lemma FreshToolKeeps(s: State, e: Event, random: string)
    requires Inv(s) && e.ToolCall? && ToolKey(e) !in s.rec.byKey
    ensures Inv(Handle(s, e, random))
  {
    var n, t := s.outputs.next, UpdatedTool(NewTool(s.rec, e, random), e);
    var r := s.(rec := RecordTool(s.rec, e, random));
    assert r.rec.tools == s.rec.tools + [t];
    var q := EnsureSlot(r, |s.rec.tools|);
    assert q.rec.tools == s.rec.tools + [t.(outputIndex := n)];
    assert t.arguments == e.arguments;
    SlotAdded(s, t, q.rec);
    FirstDelta(s, t, q.rec);
  }

  /** The frame that announces tool t in the next slot. */
  function Announcing(s: State, t: Tool): Frame {
    ItemAdded(s.outputs.next, CallItem(t.itemId, t.id, t.name, "", false))
  }

  /** Tool t in the next slot, before any arguments. */
  function Bare(s: State, t: Tool): Recorder {
    s.rec.(tools := s.rec.tools + [t.(outputIndex := s.outputs.next, arguments := "")])
  }

  lemma SlotAdded(s: State, t: Tool, rec: Recorder)
    requires Inv(s) && rec.tools == s.rec.tools + [t.(outputIndex := s.outputs.next)] && rec.text == s.rec.text &&
             rec.reasoning == s.rec.reasoning
    ensures Tracks(ReadAll(s.written + [Announcing(s, t)]), Bare(s, t), s.outputs.(next := s.outputs.next + 1))
  {
    ReadAppend(s.written, Announcing(s, t));
    TracksAdd(ReadAll(s.written), s.rec, s.outputs, t.(outputIndex := s.outputs.next, arguments := ""), Bare(s, t),
              t.name);
  }

  /** The first fragment of a new tool, if it has one. */
  lemma FirstDelta(s: State, t: Tool, rec: Recorder)
    requires rec.tools == s.rec.tools + [t.(outputIndex := s.outputs.next)] && rec.text == s.rec.text &&
             rec.reasoning == s.rec.reasoning
    requires Tracks(ReadAll(s.written + [Announcing(s, t)]), Bare(s, t), s.outputs.(next := s.outputs.next + 1))
    ensures var fs := s.written + [Announcing(s, t)];
            Tracks(ReadAll(if t.arguments == "" then fs
                           else fs + [ArgumentsDelta(s.outputs.next, t.itemId, t.arguments)]), rec,
                                s.outputs.(next := s.outputs.next + 1))
  {
    var n, k, fs, o := s.outputs.next, |s.rec.tools|, s.written + [Announcing(s, t)],
                       s.outputs.(next := s.outputs.next + 1);
    var bare := Bare(s, t);
    assert rec.tools == bare.tools[k := t.(outputIndex := n)];
    assert t.arguments[0..] == t.arguments;
    assert ToolAt(bare.tools[k], k, ReadAll(fs).entries);
    TracksDelta(ReadAll(fs), bare, o, k, t.(outputIndex := n), rec);
    if t.arguments == "" {
      EmptyDelta(ReadAll(fs), n);
    } else {
      ReadAppend(fs, ArgumentsDelta(n, t.itemId, t.arguments));
    }
  }

  lemma EmptyDelta(c: Client, n: int)
    requires c.Reading? && 0 <= n < |c.entries| && Delta(c, n, IsCall, "").Reading?
    ensures Delta(c, n, IsCall, "") == c
  {
    assert c.entries[n].content + "" == c.entries[n].content;
  }

  lemma HandleKeeps(s: State, e: Event, random: string)
    requires Inv(s)
    ensures Inv(Handle(s, e, random))
  {
    match e
    case TextDelta(t) => TextKeeps(s, t, random);
    case ReasoningDelta(t) => ReasoningKeeps(s, t, random);
    case Image(_) => TextKeeps(s, MediaText(e), random);
    case Video(_) => TextKeeps(s, MediaText(e), random);
    case ToolCall(_, _, _, _, _) =>
      if ToolKey(e) in s.rec.byKey {
        KnownToolKeeps(s, e, random);
      } else {
        FreshToolKeeps(s, e, random);
      }
    case _ =>
  }

  /** In every reachable state the slots handed out are exactly 0..next-1, one owner each. */
  lemma {:induction false} ReachableSlots(model: string, es: seq<Event>, randoms: seq<string>)
    requires |randoms| == |es|
    ensures Inv(Run(Responses, model, es, randoms))
  {
    if es == [] {
      ReadAppend([], Created(model));
    } else {
      ReachableSlots(model, es[..|es| - 1], randoms[..|es| - 1]);
      HandleKeeps(Run(Responses, model, es[..|es| - 1], randoms[..|es| - 1]), es[|es| - 1], randoms[|es| - 1]);
    }
  }

  // ---- the end of the stream ----

  function ReadFrom(c: Client, fs: seq<Frame>): Client {
    if fs == [] then c else Read(ReadFrom(c, fs[..|fs| - 1]), fs[|fs| - 1])
  }

  lemma {:induction false} ReadConcat(c: Client, a: seq<Frame>, b: seq<Frame>)
    ensures ReadFrom(c, a + b) == ReadFrom(ReadFrom(c, a), b)
  {
    if b == [] {
      assert a + b == a;
    } else {
      ReadConcat(c, a, b[..|b| - 1]);
      assert (a + b)[..|a + b| - 1] == a + b[..|b| - 1];
    }
  }

  lemma {:induction false} ReadAllIsReadFrom(fs: seq<Frame>)
    ensures ReadAll(fs) == ReadFrom(Reading([], 0, false), fs)
  {
    if fs != [] {
      ReadAllIsReadFrom(fs[..|fs| - 1]);
    }
  }

  lemma {:induction false} Read3(c: Client, f: Frame, g: Frame, h: Frame)
    ensures ReadFrom(c, [f, g, h]) == Read(Read(Read(c, f), g), h)
  {
    Read2(c, f, g);
    assert [f, g, h][..2] == [f, g];
  }

  lemma {:induction false} Read2(c: Client, f: Frame, g: Frame)
    ensures ReadFrom(c, [f, g]) == Read(Read(c, f), g)
  {
    assert [f, g][..1] == [f];
    assert ReadFrom(c, [f]) == Read(ReadFrom(c, [f][..0]), f);
  }

  /** The completed item of a slot, by the kind of its owner. */
  function Final(s: State, kind: Kind): Option<Item> {
    match kind
    case Message => if s.outputs.text.Some? then Some(MessageItem(s.outputs.text.value.id, s.rec.text, true)) else None
    case Thinking =>
      if s.outputs.reasoning.Some? then Some(ReasoningItem(s.outputs.reasoning.value.id, s.rec.reasoning, true))
      else None
    case Call(k, _) => if k < |s.rec.tools| then Some(CompletedTool(s.rec.tools[k])) else None
  }

  /** How far `finishResponses` has come: reasoning closed, text closed, tools before `tools` closed. */
  datatype Progress = Progress(reasoning: bool, text: bool, tools: nat)

  predicate Reached(kind: Kind, p: Progress) {
    match kind
    case Message => p.text
    case Thinking => p.reasoning
    case Call(k, _) => k < p.tools
  }

  function Mark(es: seq<Entry>, s: State, p: Progress): (r: seq<Entry>)
    ensures |r| == |es|
  {
    seq(|es|, i requires 0 <= i < |es| =>
      if Reached(es[i].kind, p) then es[i].(done := Final(s, es[i].kind)) else es[i])
  }

  function At(s: State, p: Progress): Client
  {
    var c := ReadAll(s.written);
    if c.Reject? then Reject else c.(entries := Mark(c.entries, s, p))
  }

  lemma AtStart(s: State)
    requires Inv(s)
    ensures At(s, Progress(false, false, 0)) == ReadAll(s.written)
  {
    var es := ReadAll(s.written).entries;
    assert Mark(es, s, Progress(false, false, 0)) == es;
  }

  lemma CloseReasoning(s: State)
    requires Inv(s)
    ensures ReadFrom(At(s, Progress(false, false, 0)), FinishReasoningFrames(s.outputs.reasoning, s.rec.reasoning))
         == At(s, Progress(true, false, 0))
  {
    var es, p, q := ReadAll(s.written).entries, Progress(false, false, 0), Progress(true, false, 0);
    var slot := s.outputs.reasoning;
    if slot.None? {
      assert forall i | 0 <= i < |es| :: Owner(es[i].kind, i, s.outputs, s.rec.tools);
      assert Mark(es, s, p) == Mark(es, s, q);
    } else {
      CloseReasoningAt(s, slot.value.index, slot.value.id);
    }
  }

  lemma CloseReasoningAt(s: State, i: nat, id: string)
    requires Inv(s) && s.outputs.reasoning == Some(Slot(i, id))
    ensures ReadFrom(At(s, Progress(false, false, 0)), FinishReasoningFrames(s.outputs.reasoning, s.rec.reasoning))
         == At(s, Progress(true, false, 0))
  {
    var es, p, q := ReadAll(s.written).entries, Progress(false, false, 0), Progress(true, false, 0);
    OnlyOwner(s, i);
    OneMarked(s, i, p, q);
    Read3(At(s, p), SummaryTextDone(i, id, s.rec.reasoning), SummaryPartDone(i, id, s.rec.reasoning),
          ItemDone(i, ReasoningItem(id, s.rec.reasoning, true)));
  }

  /** Between two stages that differ at one slot only, exactly that entry gets its item. */
  lemma OneMarked(s: State, i: nat, p: Progress, q: Progress)
    requires Inv(s) && i < s.outputs.next
    requires var es := ReadAll(s.written).entries;
             !Reached(es[i].kind, p) && Reached(es[i].kind, q) &&
             forall j | 0 <= j < |es| && j != i :: Reached(es[j].kind, p) == Reached(es[j].kind, q)
    ensures var es := ReadAll(s.written).entries;
            Mark(es, s, p)[i] == es[i] && Mark(es, s, q) == Mark(es, s, p)[i := es[i].(done := Final(s, es[i].kind))]
  {
  }

  lemma CloseText(s: State)
    requires Inv(s)
    ensures ReadFrom(At(s, Progress(true, false, 0)), FinishTextFrames(s.outputs.text, s.rec.text))
         == At(s, Progress(true, true, 0))
  {
    var es, p, q := ReadAll(s.written).entries, Progress(true, false, 0), Progress(true, true, 0);
    var slot := s.outputs.text;
    if slot.None? {
      assert forall i | 0 <= i < |es| :: Owner(es[i].kind, i, s.outputs, s.rec.tools);
      assert Mark(es, s, p) == Mark(es, s, q);
    } else {
      CloseTextAt(s, slot.value.index, slot.value.id);
    }
  }

  lemma CloseTextAt(s: State, i: nat, id: string)
    requires Inv(s) && s.outputs.text == Some(Slot(i, id))
    ensures ReadFrom(At(s, Progress(true, false, 0)), FinishTextFrames(s.outputs.text, s.rec.text))
         == At(s, Progress(true, true, 0))
  {
    var es, p, q := ReadAll(s.written).entries, Progress(true, false, 0), Progress(true, true, 0);
    OnlyOwner(s, i);
    OneMarked(s, i, p, q);
    Read3(At(s, p), OutputTextDone(i, id, s.rec.text), ContentPartDone(i, id, s.rec.text),
          ItemDone(i, MessageItem(id, s.rec.text, true)));
  }

  /** No two slots have the same owner. */
  lemma OnlyOwner(s: State, i: nat)
    requires Inv(s) && i < s.outputs.next
    ensures var es := ReadAll(s.written).entries;
            forall j | 0 <= j < |es| && j != i ::
              if es[i].kind.Call? then !(es[j].kind.Call? && es[j].kind.ordinal == es[i].kind.ordinal)
              else es[j].kind != es[i].kind
  {
    var es := ReadAll(s.written).entries;
    forall j | 0 <= j < |es|
      ensures Owner(es[j].kind, j, s.outputs, s.rec.tools)
    {
    }
  }

  lemma {:induction false} CloseTools(s: State, m: nat)
    requires Inv(s) && m <= |s.rec.tools|
    ensures ReadFrom(At(s, Progress(true, true, 0)), FinishToolFrames(s.rec.tools[..m])) ==
            At(s, Progress(true, true, m))
  {
    if m > 0 {
      CloseTools(s, m - 1);
      var t := s.rec.tools[m - 1];
      assert s.rec.tools[..m][..m - 1] == s.rec.tools[..m - 1];
      CloseTool(s, m - 1);
      ReadConcat(At(s, Progress(true, true, 0)), FinishToolFrames(s.rec.tools[..m - 1]),
                 [ArgumentsDone(t.outputIndex, t.itemId, DefaultArguments(t.arguments)),
                  ItemDone(t.outputIndex, CompletedTool(t))]);
    }
  }

  lemma CloseTool(s: State, k: nat)
    requires Inv(s) && k < |s.rec.tools|
    ensures var t := s.rec.tools[k];
            t.outputIndex >= 0 &&
            ReadFrom(At(s, Progress(true, true, k)),
                     [ArgumentsDone(t.outputIndex, t.itemId, DefaultArguments(t.arguments)),
                      ItemDone(t.outputIndex, CompletedTool(t))])
            == At(s, Progress(true, true, k + 1))
  {
    var es, t := ReadAll(s.written).entries, s.rec.tools[k];
    assert ToolAt(t, k, es);
    OnlyOwner(s, t.outputIndex);
    OneMarked(s, t.outputIndex, Progress(true, true, k), Progress(true, true, k + 1));
    Read2(At(s, Progress(true, true, k)), ArgumentsDone(t.outputIndex, t.itemId, DefaultArguments(t.arguments)),
          ItemDone(t.outputIndex, CompletedTool(t)));
  }

  /** The final output array holds, at every slot, the completed item of its owner. */
  lemma OutputIsFinal(s: State)
    requires Inv(s)
    ensures var es := ReadAll(s.written).entries;
            forall i | 0 <= i < |es| :: Output(s)[i] == Final(s, es[i].kind) && Final(s, es[i].kind).Some?
  {
    var es, o := ReadAll(s.written).entries, s.outputs;
    var o2 := FillTexts(NoItems(o.next), s);
    assert s.rec.tools[..|s.rec.tools|] == s.rec.tools;
    forall i | 0 <= i < |es|
      ensures Output(s)[i] == Final(s, es[i].kind) && Final(s, es[i].kind).Some?
    {
      assert Owner(es[i].kind, i, o, s.rec.tools);
      var owner := if es[i].kind.Call? then es[i].kind.ordinal else -1;
      forall j | 0 <= j < |s.rec.tools|
        ensures s.rec.tools[j].outputIndex == i <==> j == owner
      {
        assert ToolAt(s.rec.tools[j], j, es);
      }
      FilledAt(s.rec.tools, o2, |s.rec.tools|, i, owner);
    }
  }

  lemma {:induction false} FilledAt(tools: seq<Tool>, output: seq<Option<Item>>, m: nat, i: nat, owner: int)
    requires m <= |tools| && i < |output| && -1 <= owner < |tools|
    requires forall j | 0 <= j < |tools| :: tools[j].outputIndex == i <==> j == owner
    ensures FillTools(output, tools[..m])[i] == if 0 <= owner < m then Some(CompletedTool(tools[owner])) else output[i]
  {
    if m > 0 {
      FilledAt(tools, output, m - 1, i, owner);
      assert tools[..m][..m - 1] == tools[..m - 1];
    }
  }

  lemma FinishReads(s: State)
    requires Inv(s)
    ensures var es := ReadAll(s.written).entries;
            ReadAll(Finish(s).written) == Reading(Mark(es, s, Progress(true, true, |s.rec.tools|)), |s.rec.tools|, true)
  {
    var c0, all := Reading([], 0, false), Progress(true, true, |s.rec.tools|);
    var last := [Completed(s.model, Output(s), s.rec.usage), DoneMarker];
    ReadAllIsReadFrom(s.written);
    ReadAllIsReadFrom(Finish(s).written);
    assert Finish(s).written == s.written + ItemDoneFrames(s) + last;
    ReadConcat(c0, s.written, ItemDoneFrames(s));
    ReadConcat(c0, s.written + ItemDoneFrames(s), last);
    ItemsRead(s);
    Read2(At(s, all), last[0], last[1]);
    CompletedAccepted(s);
  }

  lemma CompletedAccepted(s: State)
    requires Inv(s)
    ensures var c := At(s, Progress(true, true, |s.rec.tools|));
            c.Reading? && Read(c, Completed(s.model, Output(s), s.rec.usage)) == c.(closed := true)
  {
    EverythingDone(s);
  }

  lemma EverythingDone(s: State)
    requires Inv(s)
    ensures AllDone(Mark(ReadAll(s.written).entries, s, Progress(true, true, |s.rec.tools|)), Output(s))
  {
    OutputIsFinal(s);
    AllMarked(s);
    var entries := Mark(ReadAll(s.written).entries, s, Progress(true, true, |s.rec.tools|));
    assert forall i | 0 <= i < |entries| :: entries[i].done.Some? && entries[i].done == Output(s)[i];
  }

  lemma ItemsRead(s: State)
    requires Inv(s)
    ensures ReadFrom(ReadAll(s.written), ItemDoneFrames(s)) == At(s, Progress(true, true, |s.rec.tools|))
  {
    var fr, ft, fk := FinishReasoningFrames(s.outputs.reasoning, s.rec.reasoning),
                      FinishTextFrames(s.outputs.text, s.rec.text), FinishToolFrames(s.rec.tools);
    AtStart(s);
    CloseReasoning(s);
    CloseText(s);
    assert s.rec.tools[..|s.rec.tools|] == s.rec.tools;
    CloseTools(s, |s.rec.tools|);
    ReadConcat(ReadAll(s.written), fr, ft);
    ReadConcat(ReadAll(s.written), fr + ft, fk);
  }

  /** Some entry is of this kind. */
  predicate Present(es: seq<Entry>, kind: Kind) {
    exists i :: 0 <= i < |es| && es[i].kind == kind
  }

  /** Recorded text, reasoning and tools have entries of their own. */
  predicate AllPresent(es: seq<Entry>, rec: Recorder) {
    && (rec.text != "" ==> Present(es, Message)) && (rec.reasoning != "" ==> Present(es, Thinking))
    && (forall k | 0 <= k < |rec.tools| :: Present(es, Call(k, rec.tools[k].id)))
  }

  lemma EntriesPresent(s: State, marked: seq<Entry>)
    requires Inv(s) && |marked| == |ReadAll(s.written).entries|
    requires forall i | 0 <= i < |marked| :: marked[i].kind == ReadAll(s.written).entries[i].kind
    ensures AllPresent(marked, s.rec)
  {
    if s.rec.text != "" {
      assert marked[s.outputs.text.value.index].kind == Message;
    }
    if s.rec.reasoning != "" {
      assert marked[s.outputs.reasoning.value.index].kind == Thinking;
    }
    forall k | 0 <= k < |s.rec.tools|
      ensures Present(marked, Call(k, s.rec.tools[k].id))
    {
      assert ToolAt(s.rec.tools[k], k, ReadAll(s.written).entries);
      assert marked[s.rec.tools[k].outputIndex].kind == Call(k, s.rec.tools[k].id);
    }
  }

  /**
   The strict client accepts every finished Responses stream.  It then holds one closed entry per slot, equal to the
   final `output` array; the message entry reads as the recorded text, the reasoning entry as the recorded reasoning,
   and the k-th call as tool k with its arguments.  Text, reasoning and every tool have their entries, and the final
   frame carries the recorded usage.
   */
  lemma {:induction false} ClientAccepts(model: string, es: seq<Event>, randoms: seq<string>)
    requires |randoms| == |es|
    ensures var s := Run(Responses, model, es, randoms);
            var c := ReadAll(Finish(s).written);
            && c.Reading? && c.closed && |c.entries| == s.outputs.next && c.calls == |s.rec.tools|
            && (forall i | 0 <= i < |c.entries| :: c.entries[i].done.Some? && c.entries[i].done == Output(s)[i])
            && (forall i | 0 <= i < |c.entries| ::
                  match c.entries[i].kind
                  case Message => c.entries[i].content == s.rec.text
                  case Thinking => c.entries[i].content == s.rec.reasoning
                  case Call(k, id) => k < |s.rec.tools| && id == s.rec.tools[k].id &&
                                      c.entries[i].content == s.rec.tools[k].arguments)
            && AllPresent(c.entries, s.rec)
            && (exists fs :: Finish(s).written == fs + [Completed(model, Output(s), s.rec.usage), DoneMarker])
  {
    var s := Run(Responses, model, es, randoms);
    ReachableSlots(model, es, randoms);
    assert Finish(s).written == (s.written + ItemDoneFrames(s)) +
           [Completed(model, Output(s), s.rec.usage), DoneMarker];
    FinishReads(s);
    OutputIsFinal(s);
    AllMarked(s);
    EntriesPresent(s, ReadAll(Finish(s).written).entries);
  }

  lemma AllMarked(s: State)
    requires Inv(s)
    ensures var es := ReadAll(s.written).entries;
            var marked := Mark(es, s, Progress(true, true, |s.rec.tools|));
            forall i | 0 <= i < |es| ::
              && marked[i] == es[i].(done := Final(s, es[i].kind))
              && match es[i].kind
                 case Message => es[i].content == s.rec.text
                 case Thinking => es[i].content == s.rec.reasoning
                 case Call(k, id) => k < |s.rec.tools| && id == s.rec.tools[k].id &&
                                     es[i].content == s.rec.tools[k].arguments
  {
    var es := ReadAll(s.written).entries;
    forall i | 0 <= i < |es|
      ensures Owner(es[i].kind, i, s.outputs, s.rec.tools)
      ensures es[i].kind.Call? ==> ToolAt(s.rec.tools[es[i].kind.ordinal], es[i].kind.ordinal, es)
    {
      assert Owner(es[i].kind, i, s.outputs, s.rec.tools);
    }
  }
}
