/**
 Item IDs of a Responses stream: every part, delta and closing frame names the item that was announced at its slot,
 exactly when no call changes its item ID in a way that shows.
 */
module ResponsesIds {
  import opened Options
  import opened Events
  import opened Stream
  import Slots = ResponsesSlots
  import Text

  /** The ID announced at each slot. */
  type Announced = map<int, string>

  function Announce(m: Announced, f: Frame): Announced {
    if f.ItemAdded? then m[f.slot := f.item.id] else m
  }

  function AnnouncedBy(fs: seq<Frame>): Announced {
    if fs == [] then map[] else Announce(AnnouncedBy(fs[..|fs| - 1]), fs[|fs| - 1])
  }

  predicate Names(m: Announced, slot: int, id: string) {
    slot in m && m[slot] == id
  }

  /** The frame carries the ID announced at its slot. */
  predicate Carries(m: Announced, f: Frame) {
    match f
    case ContentPartAdded(slot, id) => Names(m, slot, id)
    case SummaryPartAdded(slot, id) => Names(m, slot, id)
    case OutputTextDelta(slot, id, _) => Names(m, slot, id)
    case SummaryTextDelta(slot, id, _) => Names(m, slot, id)
    case ArgumentsDelta(slot, id, _) => Names(m, slot, id)
    case SummaryTextDone(slot, id, _) => Names(m, slot, id)
    case SummaryPartDone(slot, id, _) => Names(m, slot, id)
    case OutputTextDone(slot, id, _) => Names(m, slot, id)
    case ContentPartDone(slot, id, _) => Names(m, slot, id)
    case ArgumentsDone(slot, id, _) => Names(m, slot, id)
    case ItemDone(slot, item) => Names(m, slot, item.id)
    case _ => true
  }

  predicate IdsAgree(fs: seq<Frame>) {
    fs == [] || (IdsAgree(fs[..|fs| - 1]) && Carries(AnnouncedBy(fs[..|fs| - 1]), fs[|fs| - 1]))
  }

  lemma {:induction false} AgreeAppend(fs: seq<Frame>, f: Frame)
    ensures IdsAgree(fs + [f]) <==> IdsAgree(fs) && Carries(AnnouncedBy(fs), f)
    ensures AnnouncedBy(fs + [f]) == Announce(AnnouncedBy(fs), f)
  {
    assert (fs + [f])[..|fs|] == fs;
  }

  // ---- what the events say ----

  /** The event creates a tool. */
  predicate Creates(r: Recorder, e: Event) {
    e.ToolCall? && ToolKey(e) !in r.byKey
  }

  /** The item IDs with which the tools are announced. */
  function FirstIds(es: seq<Event>, randoms: seq<string>): seq<string>
    requires |randoms| == |es|
  {
    if es == [] then [] else
    var init, rs := es[..|es| - 1], randoms[..|es| - 1];
    NextIds(FirstIds(init, rs), Recorded(init, rs), es[|es| - 1], randoms[|es| - 1])
  }

  function NextIds(ids: seq<string>, r: Recorder, e: Event, random: string): seq<string> {
    if Creates(r, e) then ids + [UpdatedTool(NewTool(r, e, random), e).itemId] else ids
  }

  /** A fragment of a known tool is recorded under the ID the tool was announced with. */
  predicate SteadyStep(ids: seq<string>, r: Recorder, e: Event)
    requires r.Valid()
  {
    e.ToolCall? && !Creates(r, e) && e.arguments != "" ==>
      var k := ToolIndex(r, e); k < |ids| && UpdatedTool(r.tools[k], e).itemId == ids[k]
  }

  predicate Steady(es: seq<Event>, randoms: seq<string>)
    requires |randoms| == |es|
  {
    es == [] ||
    var init, rs := es[..|es| - 1], randoms[..|es| - 1];
    Steady(init, rs) && SteadyStep(FirstIds(init, rs), Recorded(init, rs), es[|es| - 1])
  }

  /** Output slots do not matter to either. */
  lemma SlotsDoNotMatter(ids: seq<string>, a: Recorder, b: Recorder, e: Event, random: string)
    requires a.Valid() && b.Valid() && SameRecord(a, b)
    ensures NextIds(ids, a, e, random) == NextIds(ids, b, e, random)
    ensures SteadyStep(ids, a, e) <==> SteadyStep(ids, b, e)
  {
    if e.ToolCall? && !Creates(a, e) {
      var k := ToolIndex(a, e);
      assert a.tools[k].(outputIndex := -1) == b.tools[k].(outputIndex := -1);
    }
  }

  lemma EndsAlike(ids: seq<string>, a: Recorder, b: Recorder)
    requires SameRecord(a, b)
    ensures EndsSteady(ids, a.tools) <==> EndsSteady(ids, b.tools)
  {
    forall k | 0 <= k < |a.tools|
      ensures a.tools[k].itemId == b.tools[k].itemId
    {
      assert a.tools[k].(outputIndex := -1) == b.tools[k].(outputIndex := -1);
    }
  }

  predicate EndsSteady(ids: seq<string>, tools: seq<Tool>) {
    |ids| == |tools| && forall k | 0 <= k < |tools| :: tools[k].itemId == ids[k]
  }

  // ---- the invariant ----

  predicate SlotNamed(m: Announced, slot: Option<Slot>) {
    slot.Some? ==> Names(m, slot.value.index, slot.value.id)
  }

  predicate Tracked(s: State, ids: seq<string>) {
    var m := AnnouncedBy(s.written);
    && |ids| == |s.rec.tools|
    && SlotNamed(m, s.outputs.text) && SlotNamed(m, s.outputs.reasoning)
    && (forall k | 0 <= k < |ids| :: Names(m, s.rec.tools[k].outputIndex, ids[k]))
    && (forall slot | slot in m :: slot < s.outputs.next)
  }

  /** One step keeps the invariant, and keeps the agreement exactly when it is steady. */
  ghost predicate StepAgrees(s: State, r: State, ids: seq<string>, ids': seq<string>, steady: bool) {
    Tracked(r, ids') && (IdsAgree(r.written) <==> IdsAgree(s.written) && steady)
  }

  lemma OpenText(s: State, random: string, ids: seq<string>)
    requires Tracked(s, ids)
    ensures StepAgrees(s, EnsureText(s, random), ids, ids, true)
  {
    if s.outputs.text.None? {
      var n, id := s.outputs.next, "msg_" + random;
      AgreeAppend(s.written, ItemAdded(n, MessageItem(id, "", false)));
      AgreeAppend(s.written + [ItemAdded(n, MessageItem(id, "", false))], ContentPartAdded(n, id));
      Two(s.written, ItemAdded(n, MessageItem(id, "", false)), ContentPartAdded(n, id));
    }
  }

  lemma OpenReasoning(s: State, random: string, ids: seq<string>)
    requires Tracked(s, ids)
    ensures StepAgrees(s, EnsureReasoning(s, random), ids, ids, true)
  {
    if s.outputs.reasoning.None? {
      var n, id := s.outputs.next, "rs_" + random;
      AgreeAppend(s.written, ItemAdded(n, ReasoningItem(id, "", false)));
      AgreeAppend(s.written + [ItemAdded(n, ReasoningItem(id, "", false))], SummaryPartAdded(n, id));
      Two(s.written, ItemAdded(n, ReasoningItem(id, "", false)), SummaryPartAdded(n, id));
    }
  }

  lemma Two(fs: seq<Frame>, f: Frame, g: Frame)
    ensures fs + [f, g] == fs + [f] + [g]
  {
  }

  /** A frame that announces nothing keeps the invariant, and the agreement exactly when it carries its ID. */
  lemma WriteOne(s: State, f: Frame, ids: seq<string>)
    requires Tracked(s, ids) && !f.ItemAdded?
    ensures StepAgrees(s, Write(s, [f]), ids, ids, Carries(AnnouncedBy(s.written), f))
  {
    AgreeAppend(s.written, f);
  }

  lemma TextStep(s: State, delta: string, random: string, ids: seq<string>)
    requires Tracked(s, ids)
    ensures StepAgrees(s, WriteText(s, delta, random), ids, ids, true)
  {
    OpenText(s, random, ids);
    var r := EnsureText(s, random);
    WriteOne(r, OutputTextDelta(r.outputs.text.value.index, r.outputs.text.value.id, delta), ids);
  }

  lemma ReasoningStep(s: State, delta: string, random: string, ids: seq<string>)
    requires Tracked(s, ids)
    ensures StepAgrees(s, WriteReasoning(s, delta, random), ids, ids, true)
  {
    OpenReasoning(s, random, ids);
    var r := EnsureReasoning(s, random);
    WriteOne(r, SummaryTextDelta(r.outputs.reasoning.value.index, r.outputs.reasoning.value.id, delta), ids);
  }

  /** A known tool: its fragment carries the ID the tool has now. */
  lemma KnownStep(s: State, e: Event, random: string, ids: seq<string>)
    requires Slots.Inv(s) && Tracked(s, ids) && e.ToolCall? && !Creates(s.rec, e)
    ensures StepAgrees(s, Handle(s, e, random), ids, ids, SteadyStep(ids, s.rec, e))
  {
    var k, rec := ToolIndex(s.rec, e), RecordTool(s.rec, e, random);
    assert Slots.ToolAt(s.rec.tools[k], k, Slots.ReadAll(s.written).entries);
    var t := UpdatedTool(s.rec.tools[k], e);
    assert rec.tools == s.rec.tools[k := t];
    var q := s.(rec := rec);
    assert Tracked(q, ids);
    assert EnsureSlot(q, k) == q;
    if e.arguments != "" {
      WriteOne(q, ArgumentsDelta(t.outputIndex, t.itemId, e.arguments), ids);
      assert Names(AnnouncedBy(s.written), s.rec.tools[k].outputIndex, ids[k]);
    }
  }

  /** A new tool is announced under its ID. */
  lemma NewStep(s: State, e: Event, random: string, ids: seq<string>)
    requires Slots.Inv(s) && Tracked(s, ids) && Creates(s.rec, e)
    ensures StepAgrees(s, Handle(s, e, random), ids, NextIds(ids, s.rec, e, random), true)
  {
    var t, q := UpdatedTool(NewTool(s.rec, e, random), e), NewOpened(s, e, random);
    NewHandled(s, e, random);
    AgreeAppend(s.written, Announcement(t, s.outputs.next));
    NewlyTracked(s, q, t.itemId, ids);
    if e.arguments != "" {
      WriteOne(q, ArgumentsDelta(s.outputs.next, t.itemId, e.arguments), ids + [t.itemId]);
    }
  }

  function Announcement(t: Tool, slot: nat): Frame {
    ItemAdded(slot, CallItem(t.itemId, t.id, t.name, "", false))
  }

  /** The state after a new tool was announced. */
  function NewOpened(s: State, e: Event, random: string): State
    requires s.rec.Valid() && Creates(s.rec, e)
  {
    EnsureSlot(s.(rec := RecordTool(s.rec, e, random)), |s.rec.tools|)
  }

  lemma NewHandled(s: State, e: Event, random: string)
    requires s.operation.Responses? && s.rec.Valid() && Creates(s.rec, e)
    ensures var t, q, n := UpdatedTool(NewTool(s.rec, e, random), e), NewOpened(s, e, random), s.outputs.next;
            && q.written == s.written + [Announcement(t, n)] && q.outputs == s.outputs.(next := n + 1)
            && q.rec.tools == s.rec.tools + [t.(outputIndex := n)]
            && Handle(s, e, random) ==
               if e.arguments == "" then q else Write(q, [ArgumentsDelta(n, t.itemId, e.arguments)])
  {
    assert RecordTool(s.rec, e, random).tools == s.rec.tools + [UpdatedTool(NewTool(s.rec, e, random), e)];
  }

  lemma NewlyTracked(s: State, q: State, id: string, ids: seq<string>)
    requires Slots.Inv(s) && Tracked(s, ids) && |q.rec.tools| == |s.rec.tools| + 1
    requires AnnouncedBy(q.written) == AnnouncedBy(s.written)[s.outputs.next := id]
    requires q.outputs == s.outputs.(next := s.outputs.next + 1) &&
             q.rec.tools[|s.rec.tools|].outputIndex == s.outputs.next
    requires forall k | 0 <= k < |s.rec.tools| :: q.rec.tools[k] == s.rec.tools[k]
    ensures Tracked(q, ids + [id])
  {
    var m := AnnouncedBy(q.written);
    forall k | 0 <= k < |ids + [id]|
      ensures Names(m, q.rec.tools[k].outputIndex, (ids + [id])[k])
    {
      if k < |ids| {
        assert Names(AnnouncedBy(s.written), s.rec.tools[k].outputIndex, ids[k]);
      }
    }
  }

  lemma HandleStep(s: State, e: Event, random: string, ids: seq<string>)
    requires Slots.Inv(s) && Tracked(s, ids)
    ensures StepAgrees(s, Handle(s, e, random), ids, NextIds(ids, s.rec, e, random), SteadyStep(ids, s.rec, e))
  {
    var recorded := s.(rec := Record(s.rec, e, random));
    match e
    case TextDelta(t) => TextStep(recorded, t, random, ids);
    case ReasoningDelta(t) => ReasoningStep(recorded, t, random, ids);
    case Image(_) => TextStep(recorded, MediaText(e), random, ids);
    case Video(_) => TextStep(recorded, MediaText(e), random, ids);
    case ToolCall(_, _, _, _, _) =>
      if Creates(s.rec, e) {
        NewStep(s, e, random, ids);
      } else {
        KnownStep(s, e, random, ids);
      }
    case _ =>
  }

  lemma {:induction false} RunAgrees(model: string, es: seq<Event>, randoms: seq<string>)
    requires |randoms| == |es|
    ensures var s := Run(Responses, model, es, randoms);
            Tracked(s, FirstIds(es, randoms)) && (IdsAgree(s.written) <==> Steady(es, randoms))
  {
    if es == [] {
      AgreeAppend([], Created(model));
    } else {
      var init, rs := es[..|es| - 1], randoms[..|es| - 1];
      RunAgrees(model, init, rs);
      Slots.ReachableSlots(model, init, rs);
      RunRecords(Responses, model, init, rs);
      var s := Run(Responses, model, init, rs);
      SlotsDoNotMatter(FirstIds(init, rs), s.rec, Recorded(init, rs), es[|es| - 1], randoms[|es| - 1]);
      HandleStep(s, es[|es| - 1], randoms[|es| - 1], FirstIds(init, rs));
    }
  }

  // ---- the end ----

  predicate AllCarry(m: Announced, gs: seq<Frame>) {
    forall g | g in gs :: Carries(m, g)
  }

  predicate NoneAdds(gs: seq<Frame>) {
    forall g | g in gs :: !g.ItemAdded?
  }

  lemma CarryConcat(m: Announced, a: seq<Frame>, b: seq<Frame>)
    ensures AllCarry(m, a + b) <==> AllCarry(m, a) && AllCarry(m, b)
    ensures NoneAdds(a + b) <==> NoneAdds(a) && NoneAdds(b)
  {
    assert forall g | g in a || g in b :: g in a + b;
  }

  /** Frames that announce nothing agree exactly if each carries the ID of its slot. */
  lemma {:induction false} AgreeConcat(fs: seq<Frame>, gs: seq<Frame>)
    requires NoneAdds(gs)
    ensures AnnouncedBy(fs + gs) == AnnouncedBy(fs)
    ensures IdsAgree(fs + gs) <==> IdsAgree(fs) && AllCarry(AnnouncedBy(fs), gs)
  {
    if gs == [] {
      assert fs + gs == fs;
    } else {
      var init, g := gs[..|gs| - 1], gs[|gs| - 1];
      assert gs == init + [g];
      CarryConcat(AnnouncedBy(fs), init, [g]);
      AgreeConcat(fs, init);
      AgreeAppend(fs + init, g);
      assert fs + gs == fs + init + [g];
    }
  }

  /** The closing frames of one tool. */
  function ToolEnding(t: Tool): seq<Frame> {
    [ArgumentsDone(t.outputIndex, t.itemId, DefaultArguments(t.arguments)), ItemDone(t.outputIndex, CompletedTool(t))]
  }

  lemma ToolCarries(m: Announced, t: Tool, id: string)
    requires Names(m, t.outputIndex, id)
    ensures NoneAdds(ToolEnding(t)) && (AllCarry(m, ToolEnding(t)) <==> t.itemId == id)
  {
    assert ToolEnding(t)[1] in ToolEnding(t);
  }

  /** The closing frames of the tools carry their IDs exactly if the tools end as they were announced. */
  lemma {:induction false} ToolsCarry(m: Announced, tools: seq<Tool>, ids: seq<string>)
    requires |ids| == |tools|
    requires forall k | 0 <= k < |tools| :: Names(m, tools[k].outputIndex, ids[k]) && tools[k].outputIndex >= 0
    ensures NoneAdds(FinishToolFrames(tools)) && (AllCarry(m, FinishToolFrames(tools)) <==> EndsSteady(ids, tools))
  {
    if tools != [] {
      var n := |tools| - 1;
      ToolsCarry(m, tools[..n], ids[..n]);
      ToolCarries(m, tools[n], ids[n]);
      CarryConcat(m, FinishToolFrames(tools[..n]), ToolEnding(tools[n]));
      EndsSteadyLast(ids, tools);
    }
  }

  lemma EndsSteadyLast(ids: seq<string>, tools: seq<Tool>)
    requires |ids| == |tools| > 0
    ensures var n := |tools| - 1;
            EndsSteady(ids, tools) <==> EndsSteady(ids[..n], tools[..n]) && tools[n].itemId == ids[n]
  {
  }

  /** The closing frames of reasoning and text. */
  function TextEnding(s: State): seq<Frame> {
    FinishReasoningFrames(s.outputs.reasoning, s.rec.reasoning) + FinishTextFrames(s.outputs.text, s.rec.text)
  }

  lemma TextsCarry(s: State, ids: seq<string>)
    requires Tracked(s, ids)
    ensures NoneAdds(TextEnding(s)) && AllCarry(AnnouncedBy(s.written), TextEnding(s))
  {
  }

  /**
   In a finished stream every part, delta and closing frame carries the ID announced at its slot, if and only if every
   fragment of a call was recorded under the item ID its call was announced with, and every call ends with that ID.
   */
  lemma {:induction false} IdsAgreeIff(model: string, es: seq<Event>, randoms: seq<string>)
    requires |randoms| == |es|
    ensures var s := Run(Responses, model, es, randoms);
            IdsAgree(Finish(s).written) <==>
            Steady(es, randoms) && EndsSteady(FirstIds(es, randoms), Recorded(es, randoms).tools)
  {
    RunAgrees(model, es, randoms);
    Slots.ReachableSlots(model, es, randoms);
    RunRecords(Responses, model, es, randoms);
    EndsAlike(FirstIds(es, randoms), Run(Responses, model, es, randoms).rec, Recorded(es, randoms));
    FinishAgrees(Run(Responses, model, es, randoms), FirstIds(es, randoms));
  }

  lemma FinishAgrees(s: State, ids: seq<string>)
    requires Slots.Inv(s) && Tracked(s, ids)
    ensures IdsAgree(Finish(s).written) <==> IdsAgree(s.written) && EndsSteady(ids, s.rec.tools)
  {
    SlotsTaken(s);
    TextsCarry(s, ids);
    ToolsCarry(AnnouncedBy(s.written), s.rec.tools, ids);
    EndingAgrees(s.written, TextEnding(s), FinishToolFrames(s.rec.tools),
                 [Completed(s.model, Output(s), s.rec.usage), DoneMarker]);
    Text.Regroup(s.written, TextEnding(s), FinishToolFrames(s.rec.tools));
    Text.Regroup(s.written, ItemDoneFrames(s), [Completed(s.model, Output(s), s.rec.usage), DoneMarker]);
  }

  lemma SlotsTaken(s: State)
    requires Slots.Inv(s)
    ensures forall k | 0 <= k < |s.rec.tools| :: s.rec.tools[k].outputIndex >= 0
  {
    forall k | 0 <= k < |s.rec.tools|
      ensures s.rec.tools[k].outputIndex >= 0
    {
      assert Slots.ToolAt(s.rec.tools[k], k, Slots.ReadAll(s.written).entries);
    }
  }

  lemma {:induction false} EndingAgrees(fs: seq<Frame>, texts: seq<Frame>, tools: seq<Frame>, ending: seq<Frame>)
    requires NoneAdds(texts) && NoneAdds(tools) && AllCarry(AnnouncedBy(fs), texts)
    requires forall g | g in ending :: g.Completed? || g.DoneMarker?
    ensures IdsAgree(fs + texts + tools + ending) <==> IdsAgree(fs) && AllCarry(AnnouncedBy(fs), tools)
  {
    AgreeConcat(fs, texts);
    AgreeConcat(fs + texts, tools);
    AgreeConcat(fs + texts + tools, ending);
  }
}
