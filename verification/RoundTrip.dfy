/** Responses encoding, framing and parsing undo each other. */
module RoundTrip {
  import opened Options
  import opened Events
  import Accumulate
  import Text
  import opened Parser
  import opened ParserCalls
  import Slots = ResponsesSlots
  import Stream
  import opened Encoding

  const NO_NAMES: map<string, string> := map[]

  // ---- the frames of a stream as frames of its tool calls ----

  function Info(t: Stream.Tool): CallInfo {
    CallInfo(t.itemId, t.id, t.outputIndex)
  }

  /** The position of the call that owns a slot. */
  function FindSlot(calls: seq<CallInfo>, slot: int): nat {
    if calls == [] || calls[0].slot == slot then 0 else 1 + FindSlot(calls[1..], slot)
  }

  lemma {:induction false} FindSlotIs(calls: seq<CallInfo>, k: nat)
    requires DistinctCalls(calls) && k < |calls|
    ensures FindSlot(calls, calls[k].slot) == k
  {
    if k > 0 {
      assert calls[0].slot != calls[k].slot;
      FindSlotIs(calls[1..], k - 1);
    }
  }

  function WireOf(calls: seq<CallInfo>, f: Stream.Frame, responseId: string): Wire {
    var p := Encode(f, responseId);
    if f.ItemAdded? && f.item.CallItem? then OnCall(FindSlot(calls, f.slot), Added(f.item.name), p)
    else if f.ItemDone? && f.item.CallItem?
    then OnCall(FindSlot(calls, f.slot), ItemClosed(f.item.name, f.item.arguments), p)
    else if f.ArgumentsDelta? then OnCall(FindSlot(calls, f.slot), Delta(f.delta), p)
    else if f.ArgumentsDone? then OnCall(FindSlot(calls, f.slot), AllArguments(f.arguments), p)
    else Plain(p)
  }

  function Wires(calls: seq<CallInfo>, fs: seq<Stream.Frame>, responseId: string): (ws: seq<Wire>)
    ensures |ws| == |fs|
  {
    if fs == [] then [] else Wires(calls, fs[..|fs| - 1], responseId) + [WireOf(calls, fs[|fs| - 1], responseId)]
  }

  lemma {:induction false} WiresAppend(calls: seq<CallInfo>, fs: seq<Stream.Frame>, f: Stream.Frame, responseId: string)
    ensures Wires(calls, fs + [f], responseId) == Wires(calls, fs, responseId) + [WireOf(calls, f, responseId)]
  {
    assert (fs + [f])[..|fs|] == fs;
  }

  // ---- what the automata know while the stream is open ----

  /** One call as its automaton sees it: its arguments so far, under the name it was announced with. */
  datatype Track = Track(name: string, arguments: string)

  function TrackAuto(t: Track): Auto {
    Running(t.arguments != "", t.name, t.arguments, t.name)
  }

  predicate Tracked(calls: seq<CallInfo>, ws: seq<Wire>, tracks: seq<Track>) {
    && |tracks| <= |calls| && WellFormed(calls, NO_NAMES, ws)
    && (forall k | 0 <= k < |tracks| :: AutoOf(NO_NAMES, ws, k) == TrackAuto(tracks[k]))
    && (forall k | |tracks| <= k < |calls| :: AutoOf(NO_NAMES, ws, k) == Idle)
    && |StartedIds(calls, NO_NAMES, ws)| == |tracks|
    && (forall k | 0 <= k < |tracks| :: StartedIds(calls, NO_NAMES, ws)[k] == calls[k].callId)
  }

  lemma TrackQuiet(calls: seq<CallInfo>, ws: seq<Wire>, tracks: seq<Track>, p: Payload)
    requires Tracked(calls, ws, tracks) && Quiet(p)
    ensures Tracked(calls, ws + [Plain(p)], tracks)
  {
    assert (ws + [Plain(p)])[..|ws|] == ws;
    assert StartedIds(calls, NO_NAMES, ws + [Plain(p)]) == StartedIds(calls, NO_NAMES, ws);
  }

  lemma TrackAdded(calls: seq<CallInfo>, ws: seq<Wire>, tracks: seq<Track>, name: string, p: Payload)
    requires Tracked(calls, ws, tracks) && |tracks| < |calls| && Shows(p, calls[|tracks|], Added(name))
    ensures Tracked(calls, ws + [OnCall(|tracks|, Added(name), p)], tracks + [Track(name, "")])
  {
    var w := OnCall(|tracks|, Added(name), p);
    assert (ws + [w])[..|ws|] == ws;
    assert StartedIds(calls, NO_NAMES, ws + [w]) == StartedIds(calls, NO_NAMES, ws) + [calls[|tracks|].callId];
  }

  lemma TrackDelta(calls: seq<CallInfo>, ws: seq<Wire>, tracks: seq<Track>, k: nat, delta: string, p: Payload)
    requires Tracked(calls, ws, tracks) && k < |tracks| && Shows(p, calls[k], Delta(delta)) && p.itemId.Some? &&
             delta != ""
    ensures Tracked(calls, ws + [OnCall(k, Delta(delta), p)],
                    tracks[k := tracks[k].(arguments := tracks[k].arguments + delta)])
  {
    var w := OnCall(k, Delta(delta), p);
    assert (ws + [w])[..|ws|] == ws;
    assert AutoOf(NO_NAMES, ws, k) == TrackAuto(tracks[k]);
    assert StartedIds(calls, NO_NAMES, ws + [w]) == StartedIds(calls, NO_NAMES, ws);
    var t := tracks[k].(arguments := tracks[k].arguments + delta);
    assert t.arguments != "";
    assert AutoStep(NO_NAMES, TrackAuto(tracks[k]), Delta(delta)) == TrackAuto(t);
    forall j | 0 <= j < |calls| && j != k
      ensures AutoOf(NO_NAMES, ws + [w], j) == AutoOf(NO_NAMES, ws, j)
    {
    }
  }

  // ---- the invariant of an open stream ----

  /** Calls and items carry IDs, calls and items correspond, and nothing is taken for another call. */
  predicate StableIds(es: seq<Event>) {
    && Accumulate.CleanIds(es) && NoMedia(es)
    && (forall e | e in es && e.ToolCall? :: e.itemId != "")
    && (forall e, f | e in es && f in es && e.ToolCall? && f.ToolCall? :: e.id == f.id <==> e.itemId == f.itemId)
  }

  /** Every tool has the item ID of its events. */
  ghost predicate Sourced(tools: seq<Stream.Tool>, all: seq<Event>) {
    forall k | 0 <= k < |tools| :: HasSource(tools[k], all)
  }

  ghost predicate HasSource(t: Stream.Tool, all: seq<Event>) {
    exists e :: e in all && e.ToolCall? && e.id == t.id && e.itemId == t.itemId
  }

  predicate Table(tools: seq<Stream.Tool>, calls: seq<CallInfo>) {
    |tools| <= |calls| && forall k | 0 <= k < |tools| :: calls[k] == Info(tools[k])
  }

  function Tracks(tools: seq<Stream.Tool>, es: seq<Event>): (ts: seq<Track>)
    ensures |ts| == |tools|
  {
    seq(|tools|, k requires 0 <= k < |tools| => Track(FirstNameOf(es, tools[k].id), tools[k].arguments))
  }

  /** Read frame by frame, the frames show these calls, this text and this reasoning. */
  predicate Reads(calls: seq<CallInfo>, fs: seq<Stream.Frame>, responseId: string, tracks: seq<Track>, text: string,
                  reasoning: string) {
    var ws := Wires(calls, fs, responseId);
    Tracked(calls, ws, tracks) && TextOf(QuietAll(ws)) == text && ReasoningOf(QuietAll(ws)) == reasoning
  }

  predicate Encoded(fs: seq<Stream.Frame>, rec: Stream.Recorder, es: seq<Event>, calls: seq<CallInfo>,
                    responseId: string) {
    Reads(calls, fs, responseId, Tracks(rec.tools, es), rec.text, rec.reasoning)
  }

  /** A frame that is about no tool call. */
  lemma TextFrame(calls: seq<CallInfo>, fs: seq<Stream.Frame>, f: Stream.Frame, responseId: string, tracks: seq<Track>,
                  text: string, reasoning: string)
    requires IsText(f) && Reads(calls, fs, responseId, tracks, text, reasoning)
    ensures Reads(calls, fs + [f], responseId, tracks, text + DeltaText(f), reasoning + DeltaReasoning(f))
  {
    WiresAppend(calls, fs, f, responseId);
    TextFramesAreQuiet(f, responseId);
    TextFrameEvents(f, responseId);
    var ws, p := Wires(calls, fs, responseId), Encode(f, responseId);
    IsPlain(calls, f, responseId);
    TrackQuiet(calls, ws, tracks, p);
    assert (ws + [Plain(p)])[..|ws|] == ws;
    TextOfConcat(QuietAll(ws), QuietEvents(p));
  }

  lemma IsPlain(calls: seq<CallInfo>, f: Stream.Frame, responseId: string)
    requires IsText(f)
    ensures WireOf(calls, f, responseId) == Plain(Encode(f, responseId))
  {
  }

  lemma AddedFrame(calls: seq<CallInfo>, fs: seq<Stream.Frame>, t: Stream.Tool, responseId: string, tracks: seq<Track>,
                   text: string, reasoning: string)
    requires DistinctCalls(calls) && Reads(calls, fs, responseId, tracks, text, reasoning)
    requires |tracks| < |calls| && calls[|tracks|] == Info(t)
    ensures var f := Stream.ItemAdded(t.outputIndex, Stream.CallItem(t.itemId, t.id, t.name, "", false));
            Reads(calls, fs + [f], responseId, tracks + [Track(t.name, "")], text, reasoning)
  {
    var f := Stream.ItemAdded(t.outputIndex, Stream.CallItem(t.itemId, t.id, t.name, "", false));
    WiresAppend(calls, fs, f, responseId);
    FindSlotIs(calls, |tracks|);
    var ws, p := Wires(calls, fs, responseId), Encode(f, responseId);
    TrackAdded(calls, ws, tracks, t.name, p);
    ToolsAreNotQuiet(ws, OnCall(|tracks|, Added(t.name), p));
  }

  lemma DeltaFrame(calls: seq<CallInfo>, fs: seq<Stream.Frame>, k: nat, delta: string, responseId: string,
                   tracks: seq<Track>, text: string, reasoning: string)
    requires DistinctCalls(calls) && Reads(calls, fs, responseId, tracks, text, reasoning) && k < |tracks| <= |calls| &&
             delta != ""
    ensures var f := Stream.ArgumentsDelta(calls[k].slot, calls[k].itemId, delta);
            Reads(calls, fs + [f], responseId, tracks[k := tracks[k].(arguments := tracks[k].arguments + delta)], text,
                  reasoning)
  {
    var f := Stream.ArgumentsDelta(calls[k].slot, calls[k].itemId, delta);
    WiresAppend(calls, fs, f, responseId);
    FindSlotIs(calls, k);
    var ws, p := Wires(calls, fs, responseId), Encode(f, responseId);
    ShowsDelta(calls[k], delta, responseId);
    TrackDelta(calls, ws, tracks, k, delta, p);
    ToolsAreNotQuiet(ws, OnCall(k, Delta(delta), p));
  }

  lemma ShowsDelta(info: CallInfo, delta: string, responseId: string)
    ensures var p := Encode(Stream.ArgumentsDelta(info.slot, info.itemId, delta), responseId);
            Shows(p, info, Delta(delta)) && p.itemId.Some?
  {
  }

  // ---- one event ----

  /** What is known of the encoder after the events `es`, a prefix of `all`. */
  ghost predicate Known(s: Stream.State, es: seq<Event>, all: seq<Event>) {
    Slots.Inv(s) && Accumulate.Follows(s.rec, es, all) && Sourced(s.rec.tools, all) && StableIds(all)
  }

  /** Names of announced calls do not change. */
  lemma TracksStay(tools: seq<Stream.Tool>, es: seq<Event>, e: Event)
    requires Accumulate.StreamObserved(tools, es)
    ensures Tracks(tools, es + [e]) == Tracks(tools, es)
  {
    assert (es + [e])[..|es|] == es;
    forall k | 0 <= k < |tools|
      ensures FirstNameOf(es + [e], tools[k].id) == FirstNameOf(es, tools[k].id)
    {
      assert tools[k].id == CallIds(es)[k];
    }
  }

  function DeltaTexts(gs: seq<Stream.Frame>): string {
    if gs == [] then "" else DeltaTexts(gs[..|gs| - 1]) + DeltaText(gs[|gs| - 1])
  }

  function DeltaReasonings(gs: seq<Stream.Frame>): string {
    if gs == [] then "" else DeltaReasonings(gs[..|gs| - 1]) + DeltaReasoning(gs[|gs| - 1])
  }

  /** Several frames that are about no tool call. */
  lemma {:induction false} TextFrames(calls: seq<CallInfo>, fs: seq<Stream.Frame>, gs: seq<Stream.Frame>,
                                      responseId: string,
                                      tracks: seq<Track>, text: string, reasoning: string)
    requires (forall g | g in gs :: IsText(g)) && Reads(calls, fs, responseId, tracks, text, reasoning)
    ensures Reads(calls, fs + gs, responseId, tracks, text + DeltaTexts(gs), reasoning + DeltaReasonings(gs))
  {
    if gs == [] {
      assert fs + gs == fs && text + "" == text && reasoning + "" == reasoning;
    } else {
      var init, g := gs[..|gs| - 1], gs[|gs| - 1];
      assert g in gs;
      TextFrames(calls, fs, init, responseId, tracks, text, reasoning);
      TextFrame(calls, fs + init, g, responseId, tracks, text + DeltaTexts(init), reasoning + DeltaReasonings(init));
      LastFrame(fs, gs, text, reasoning);
    }
  }

  lemma {:induction false} LastFrame(fs: seq<Stream.Frame>, gs: seq<Stream.Frame>, text: string, reasoning: string)
    requires gs != []
    ensures var init, g := gs[..|gs| - 1], gs[|gs| - 1];
            && fs + gs == fs + init + [g]
            && text + DeltaTexts(gs) == text + DeltaTexts(init) + DeltaText(g)
            && reasoning + DeltaReasonings(gs) == reasoning + DeltaReasonings(init) + DeltaReasoning(g)
  {
    var init, g := gs[..|gs| - 1], gs[|gs| - 1];
    assert gs == init + [g];
    Text.Regroup(fs, init, [g]);
    Text.Regroup(text, DeltaTexts(init), DeltaText(g));
    Text.Regroup(reasoning, DeltaReasonings(init), DeltaReasoning(g));
  }

  lemma {:induction false} PushTexts(fs: seq<Stream.Frame>, gs: seq<Stream.Frame>, rec: Stream.Recorder,
                                     rec': Stream.Recorder, es: seq<Event>, es': seq<Event>,
                  calls: seq<CallInfo>, responseId: string)
    requires Encoded(fs, rec, es, calls, responseId) && forall g | g in gs :: IsText(g)
    requires Tracks(rec'.tools, es') == Tracks(rec.tools, es)
    requires rec'.text == rec.text + DeltaTexts(gs) && rec'.reasoning == rec.reasoning + DeltaReasonings(gs)
    ensures Encoded(fs + gs, rec', es', calls, responseId)
  {
    TextFrames(calls, fs, gs, responseId, Tracks(rec.tools, es), rec.text, rec.reasoning);
  }

  // The frames of one delta: the item is opened first if need be.
  function TextOpening(s: Stream.State, random: string): seq<Stream.Frame> {
    var n, id := s.outputs.next, "msg_" + random;
    if s.outputs.text.Some? then [] else [Stream.ItemAdded(n, Stream.MessageItem(id, "", false)),
                                          Stream.ContentPartAdded(n, id)]
  }

  function TextDeltaFrame(s: Stream.State, delta: string, random: string): Stream.Frame {
    if s.outputs.text.Some? then Stream.OutputTextDelta(s.outputs.text.value.index, s.outputs.text.value.id, delta)
    else Stream.OutputTextDelta(s.outputs.next, "msg_" + random, delta)
  }

  lemma TextWritten(s: Stream.State, delta: string, random: string)
    ensures var r, gs := Stream.WriteText(s, delta, random),
            TextOpening(s, random) + [TextDeltaFrame(s, delta, random)];
            && r.written == s.written + gs && r.rec == s.rec && (forall g | g in gs :: IsText(g))
            && DeltaTexts(gs) == delta && DeltaReasonings(gs) == ""
  {
    SilentThen(TextOpening(s, random), TextDeltaFrame(s, delta, random));
    TextFramesWritten(s, delta, random);
    TextsThen(TextOpening(s, random), TextDeltaFrame(s, delta, random));
    Text.Regroup(s.written, TextOpening(s, random), [TextDeltaFrame(s, delta, random)]);
  }

  lemma TextFramesWritten(s: Stream.State, delta: string, random: string)
    ensures var r := Stream.WriteText(s, delta, random);
            r.written == s.written + TextOpening(s, random) + [TextDeltaFrame(s, delta, random)] && r.rec == s.rec
  {
  }

  function ReasoningOpening(s: Stream.State, random: string): seq<Stream.Frame> {
    var n, id := s.outputs.next, "rs_" + random;
    if s.outputs.reasoning.Some? then [] else [Stream.ItemAdded(n, Stream.ReasoningItem(id, "", false)),
                                               Stream.SummaryPartAdded(n, id)]
  }

  function ReasoningDeltaFrame(s: Stream.State, delta: string, random: string): Stream.Frame {
    if s.outputs.reasoning.Some?
    then Stream.SummaryTextDelta(s.outputs.reasoning.value.index, s.outputs.reasoning.value.id, delta)
    else Stream.SummaryTextDelta(s.outputs.next, "rs_" + random, delta)
  }

  lemma ReasoningWritten(s: Stream.State, delta: string, random: string)
    ensures var r, gs := Stream.WriteReasoning(s, delta, random),
            ReasoningOpening(s, random) + [ReasoningDeltaFrame(s, delta, random)];
            && r.written == s.written + gs && r.rec == s.rec && (forall g | g in gs :: IsText(g))
            && DeltaReasonings(gs) == delta && DeltaTexts(gs) == ""
  {
    SilentThen(ReasoningOpening(s, random), ReasoningDeltaFrame(s, delta, random));
    ReasoningFramesWritten(s, delta, random);
    TextsThen(ReasoningOpening(s, random), ReasoningDeltaFrame(s, delta, random));
    Text.Regroup(s.written, ReasoningOpening(s, random), [ReasoningDeltaFrame(s, delta, random)]);
  }

  lemma ReasoningFramesWritten(s: Stream.State, delta: string, random: string)
    ensures var r := Stream.WriteReasoning(s, delta, random);
            r.written == s.written + ReasoningOpening(s, random) + [ReasoningDeltaFrame(s, delta, random)] &&
            r.rec == s.rec
  {
  }

  lemma EncodeText(s: Stream.State, es: seq<Event>, e: Event, delta: string, random: string, calls: seq<CallInfo>,
                   responseId: string)
    requires Encoded(s.written, s.rec, es, calls, responseId) && Accumulate.StreamObserved(s.rec.tools, es)
    ensures var r := Stream.WriteText(s.(rec := s.rec.(text := s.rec.text + delta)), delta, random);
            Encoded(r.written, r.rec, es + [e], calls, responseId)
  {
    TracksStay(s.rec.tools, es, e);
    var q := s.(rec := s.rec.(text := s.rec.text + delta));
    TextWritten(q, delta, random);
    assert s.rec.reasoning + "" == s.rec.reasoning;
    PushTexts(s.written, TextOpening(q, random) + [TextDeltaFrame(q, delta, random)], s.rec, q.rec, es, es + [e], calls,
              responseId);
  }

  lemma EncodeReasoning(s: Stream.State, es: seq<Event>, e: Event, delta: string, random: string, calls: seq<CallInfo>,
                        responseId: string)
    requires Encoded(s.written, s.rec, es, calls, responseId) && Accumulate.StreamObserved(s.rec.tools, es)
    ensures var r := Stream.WriteReasoning(s.(rec := s.rec.(reasoning := s.rec.reasoning + delta)), delta, random);
            Encoded(r.written, r.rec, es + [e], calls, responseId)
  {
    TracksStay(s.rec.tools, es, e);
    var q := s.(rec := s.rec.(reasoning := s.rec.reasoning + delta));
    ReasoningWritten(q, delta, random);
    assert s.rec.text + "" == s.rec.text;
    PushTexts(s.written, ReasoningOpening(q, random) + [ReasoningDeltaFrame(q, delta, random)], s.rec, q.rec, es,
              es + [e], calls, responseId);
  }

  lemma {:induction false} Silent(gs: seq<Stream.Frame>)
    requires forall g | g in gs :: !g.OutputTextDelta? && !g.SummaryTextDelta?
    ensures DeltaTexts(gs) == "" && DeltaReasonings(gs) == ""
  {
    if gs != [] {
      assert gs[|gs| - 1] in gs;
      Silent(gs[..|gs| - 1]);
    }
  }

  lemma TextsThen(gs: seq<Stream.Frame>, f: Stream.Frame)
    requires IsText(f) && forall g | g in gs :: IsText(g)
    ensures forall g | g in gs + [f] :: IsText(g)
  {
  }

  lemma {:induction false} SilentThen(gs: seq<Stream.Frame>, f: Stream.Frame)
    requires forall g | g in gs :: !g.OutputTextDelta? && !g.SummaryTextDelta?
    ensures DeltaTexts(gs + [f]) == DeltaText(f) && DeltaReasonings(gs + [f]) == DeltaReasoning(f)
  {
    Silent(gs);
    assert (gs + [f])[..|gs|] == gs;
  }

  /** A tool that was announced keeps its IDs and its slot. */
  lemma KnownTool(s: Stream.State, es: seq<Event>, e: Event, random: string, all: seq<Event>)
    requires Known(s, es, all) && e in all && e.ToolCall? && e.id in s.rec.byKey
    ensures var k := Stream.ToolIndex(s.rec, e);
            && k < |s.rec.tools| && s.rec.tools[k].id == e.id &&
               Info(Stream.UpdatedTool(s.rec.tools[k], e)) == Info(s.rec.tools[k])
            && s.rec.tools[k].outputIndex >= 0
            && Stream.Handle(s, e, random).rec.tools == s.rec.tools[k := Stream.UpdatedTool(s.rec.tools[k], e)]
            && Stream.Handle(s, e, random).written == s.written +
                 (if e.arguments == "" then []
                  else [Stream.ArgumentsDelta(s.rec.tools[k].outputIndex, s.rec.tools[k].itemId, e.arguments)])
  {
    var k := Stream.ToolIndex(s.rec, e);
    assert s.rec.tools[k].id == e.id;
    assert Slots.ToolAt(s.rec.tools[k], k, Slots.ReadAll(s.written).entries);
    var f :| f in all && f.ToolCall? && f.id == s.rec.tools[k].id && f.itemId == s.rec.tools[k].itemId;
    assert e.itemId == f.itemId;
    assert s.written + [] == s.written;
  }

  lemma EncodeKnown(s: Stream.State, es: seq<Event>, e: Event, random: string, all: seq<Event>, calls: seq<CallInfo>,
                    responseId: string)
    requires Known(s, es, all) && e in all && e.ToolCall? && e.id in s.rec.byKey
    requires DistinctCalls(calls) && Table(s.rec.tools, calls) && Encoded(s.written, s.rec, es, calls, responseId)
    ensures var r := Stream.Handle(s, e, random);
            Encoded(r.written, r.rec, es + [e], calls, responseId)
  {
    KnownTool(s, es, e, random, all);
    ToolKeepsAnswer(s, e, random);
    FragmentEncoded(s.written, s.rec, Stream.Handle(s, e, random).rec, es, e, Stream.ToolIndex(s.rec, e), calls,
                    responseId);
  }

  lemma ToolKeepsAnswer(s: Stream.State, e: Event, random: string)
    requires s.rec.Valid() && e.ToolCall?
    ensures var r := Stream.Handle(s, e, random); r.rec.text == s.rec.text && r.rec.reasoning == s.rec.reasoning
  {
    Stream.HandleRecords(s, e, random);
  }

  lemma TracksGrow(tools: seq<Stream.Tool>, es: seq<Event>, e: Event, k: nat)
    requires e.ToolCall? && k < |tools| && Accumulate.StreamObserved(tools, es)
    ensures var tracks := Tracks(tools, es);
            var after := Tracks(tools[k := Stream.UpdatedTool(tools[k], e)], es + [e]);
            && after == tracks[k := tracks[k].(arguments := tracks[k].arguments + e.arguments)]
            && (e.arguments == "" ==> after == tracks)
  {
    TracksStay(tools, es, e);
    assert e.arguments == "" ==> tools[k].arguments + e.arguments == tools[k].arguments;
  }

  /** One more fragment for call k. */
  lemma FragmentEncoded(fs: seq<Stream.Frame>, rec: Stream.Recorder, rec': Stream.Recorder, es: seq<Event>, e: Event,
                        k: nat,
                        calls: seq<CallInfo>, responseId: string)
    requires e.ToolCall? && k < |rec.tools| && Accumulate.StreamObserved(rec.tools, es)
    requires rec'.tools == rec.tools[k := Stream.UpdatedTool(rec.tools[k], e)] && rec'.text == rec.text &&
             rec'.reasoning == rec.reasoning
    requires DistinctCalls(calls) && Table(rec.tools, calls) && Encoded(fs, rec, es, calls, responseId)
    ensures var gs := if e.arguments == "" then []
                      else [Stream.ArgumentsDelta(rec.tools[k].outputIndex, rec.tools[k].itemId, e.arguments)];
            Encoded(fs + gs, rec', es + [e], calls, responseId)
  {
    TracksGrow(rec.tools, es, e, k);
    var tracks := Tracks(rec.tools, es);
    if e.arguments == "" {
      assert fs + [] == fs;
    } else {
      assert calls[k] == Info(rec.tools[k]);
      DeltaFrame(calls, fs, k, e.arguments, responseId, tracks, rec.text, rec.reasoning);
    }
  }

  /** A new tool takes the next slot and is announced under the name of its first event. */
  lemma {:induction false} FreshTool(s: Stream.State, es: seq<Event>, e: Event, random: string, all: seq<Event>)
    requires Known(s, es, all) && e in all && e.ToolCall? && e.id !in s.rec.byKey
    ensures var t := Stream.Tool(e.id, e.itemId, e.name, s.outputs.next, e.arguments);
            && Stream.Handle(s, e, random).rec.tools == s.rec.tools + [t]
            && Stream.Handle(s, e, random).written == s.written + AnnounceFrames(t)
            && e.id !in CallIds(es)
  {
    forall k | 0 <= k < |s.rec.tools|
      ensures CallIds(es)[k] != e.id
    {
      assert s.rec.tools[k].id in s.rec.byKey;
    }
    NewToolHandled(s, e, random);
  }

  lemma NewToolHandled(s: Stream.State, e: Event, random: string)
    requires s.operation.Responses? && s.rec.Valid() && e.ToolCall? && e.id != "" && e.itemId != "" &&
             e.id !in s.rec.byKey
    ensures var t := Stream.Tool(e.id, e.itemId, e.name, s.outputs.next, e.arguments);
            && Stream.Handle(s, e, random).rec.tools == s.rec.tools + [t]
            && Stream.Handle(s, e, random).written == s.written + AnnounceFrames(t)
  {
    var bare := Stream.Tool(e.id, e.itemId, e.name, -1, e.arguments);
    var rec := Stream.RecordTool(s.rec, e, random);
    assert "" + e.arguments == e.arguments;
    assert rec.tools == s.rec.tools + [bare];
    NewToolWritten(s.(rec := rec), |s.rec.tools|, e.arguments);
  }

  /** A tool without a slot is announced, with its first fragment if it has one. */
  lemma NewToolWritten(s: Stream.State, k: nat, delta: string)
    requires k < |s.rec.tools| && s.rec.tools[k].outputIndex < 0 && s.rec.tools[k].arguments == delta
    ensures var t := s.rec.tools[k].(outputIndex := s.outputs.next);
            var r := Stream.WriteArguments(s, k, delta);
            r.rec.tools == s.rec.tools[k := t] && r.written == s.written + AnnounceFrames(t)
  {
    var t := s.rec.tools[k].(outputIndex := s.outputs.next);
    var added := Stream.ItemAdded(s.outputs.next, Stream.CallItem(t.itemId, t.id, t.name, "", false));
    assert s.written + [added] + [] == s.written + [added];
  }

  /** The frames that announce a tool and stream its first fragment. */
  function AnnounceFrames(t: Stream.Tool): seq<Stream.Frame> {
    [Stream.ItemAdded(t.outputIndex, Stream.CallItem(t.itemId, t.id, t.name, "", false))] +
    if t.arguments == "" then [] else [Stream.ArgumentsDelta(t.outputIndex, t.itemId, t.arguments)]
  }

  lemma PushAnnounce(calls: seq<CallInfo>, fs: seq<Stream.Frame>, t: Stream.Tool, responseId: string,
                     tracks: seq<Track>, text: string, reasoning: string)
    requires DistinctCalls(calls) && Reads(calls, fs, responseId, tracks, text, reasoning)
    requires |tracks| < |calls| && calls[|tracks|] == Info(t)
    ensures Reads(calls, fs + AnnounceFrames(t), responseId, tracks + [Track(t.name, t.arguments)], text, reasoning)
  {
    var added := Stream.ItemAdded(t.outputIndex, Stream.CallItem(t.itemId, t.id, t.name, "", false));
    AddedFrame(calls, fs, t, responseId, tracks, text, reasoning);
    if t.arguments == "" {
      assert fs + AnnounceFrames(t) == fs + [added];
    } else {
      Text.Regroup(fs, [added], [Stream.ArgumentsDelta(t.outputIndex, t.itemId, t.arguments)]);
      DeltaFrame(calls, fs + [added], |tracks|, t.arguments, responseId, tracks + [Track(t.name, "")], text, reasoning);
      assert "" + t.arguments == t.arguments;
      ReplaceLast(tracks, Track(t.name, ""), Track(t.name, t.arguments));
    }
  }

  lemma ReplaceLast(tracks: seq<Track>, a: Track, b: Track)
    ensures (tracks + [a])[|tracks| := b] == tracks + [b]
  {
  }

  lemma EncodeFresh(s: Stream.State, es: seq<Event>, e: Event, random: string, all: seq<Event>, calls: seq<CallInfo>,
                    responseId: string)
    requires Known(s, es, all) && e in all && e.ToolCall? && e.id !in s.rec.byKey
    requires DistinctCalls(calls) && Table(Stream.Handle(s, e, random).rec.tools, calls) &&
             Encoded(s.written, s.rec, es, calls, responseId)
    ensures var r := Stream.Handle(s, e, random);
            Encoded(r.written, r.rec, es + [e], calls, responseId)
  {
    FreshTool(s, es, e, random, all);
    var n, r := |s.rec.tools|, Stream.Handle(s, e, random);
    var t := r.rec.tools[n];
    FreshTrack(s.rec.tools, t, es, e);
    assert calls[n] == Info(t);
    PushAnnounce(calls, s.written, t, responseId, Tracks(s.rec.tools, es), s.rec.text, s.rec.reasoning);
  }

  lemma {:induction false} FreshTrack(tools: seq<Stream.Tool>, t: Stream.Tool, es: seq<Event>, e: Event)
    requires Accumulate.StreamObserved(tools, es) && e.ToolCall? && e.id !in CallIds(es) && t.id == e.id
    ensures Tracks(tools + [t], es + [e]) == Tracks(tools, es) + [Track(e.name, t.arguments)]
  {
    TracksStay(tools, es, e);
    assert (es + [e])[..|es|] == es;
  }

  // ---- any run ----

  lemma EncodeEvent(s: Stream.State, es: seq<Event>, e: Event, random: string, all: seq<Event>, calls: seq<CallInfo>,
                    responseId: string)
    requires Known(s, es, all) && e in all && DistinctCalls(calls) &&
             Table(Stream.Handle(s, e, random).rec.tools, calls)
    requires Encoded(s.written, s.rec, es, calls, responseId)
    ensures var r := Stream.Handle(s, e, random);
            Encoded(r.written, r.rec, es + [e], calls, responseId)
  {
    match e
    case TextDelta(t) => EncodeText(s, es, e, t, random, calls, responseId);
    case ReasoningDelta(t) => EncodeReasoning(s, es, e, t, random, calls, responseId);
    case ToolCall(_, _, _, _, _) =>
      TableBefore(s, es, e, random, all, calls);
      if e.id in s.rec.byKey {
        EncodeKnown(s, es, e, random, all, calls, responseId);
      } else {
        EncodeFresh(s, es, e, random, all, calls, responseId);
      }
    case _ => TracksStay(s.rec.tools, es, e);
  }

  /** IDs and slots of a tool never change, so the table of the whole run also fits every prefix. */
  lemma TableBefore(s: Stream.State, es: seq<Event>, e: Event, random: string, all: seq<Event>, calls: seq<CallInfo>)
    requires Known(s, es, all) && e in all && Table(Stream.Handle(s, e, random).rec.tools, calls)
    ensures Table(s.rec.tools, calls)
  {
    if e.ToolCall? {
      var r := Stream.Handle(s, e, random);
      if e.id in s.rec.byKey {
        KnownTool(s, es, e, random, all);
        forall k | 0 <= k < |s.rec.tools|
          ensures calls[k] == Info(s.rec.tools[k])
        {
          assert calls[k] == Info(r.rec.tools[k]);
        }
      } else {
        FreshTool(s, es, e, random, all);
        forall k | 0 <= k < |s.rec.tools|
          ensures calls[k] == Info(s.rec.tools[k])
        {
          assert r.rec.tools[k] == s.rec.tools[k];
        }
      }
    } else {
      Stream.HandleRecords(s, e, random);
      SameTools(s, e, random);
    }
  }

  lemma SameTools(s: Stream.State, e: Event, random: string)
    requires s.rec.Valid() && s.operation.Responses? && !e.ToolCall?
    ensures Stream.Handle(s, e, random).rec.tools == s.rec.tools
  {
  }

  lemma SourcedAfter(s: Stream.State, es: seq<Event>, e: Event, random: string, all: seq<Event>)
    requires Known(s, es, all) && e in all
    ensures Sourced(Stream.Handle(s, e, random).rec.tools, all)
  {
    var r := Stream.Handle(s, e, random);
    if e.ToolCall? {
      if e.id in s.rec.byKey {
        KnownTool(s, es, e, random, all);
      } else {
        FreshTool(s, es, e, random, all);
        assert r.rec.tools[|s.rec.tools|].id == e.id;
      }
    } else {
      SameTools(s, e, random);
    }
  }

  lemma {:induction false} RunKnown(model: string, es: seq<Event>, randoms: seq<string>, all: seq<Event>)
    requires |randoms| == |es| && StableIds(all) && forall e | e in es :: e in all
    ensures Known(Stream.Run(Stream.Responses, model, es, randoms), es, all)
  {
    Slots.ReachableSlots(model, es, randoms);
    Accumulate.StreamObserves(Stream.Responses, model, es, randoms, all);
    if es != [] {
      RunKnown(model, es[..|es| - 1], randoms[..|es| - 1], all);
      SourcedAfter(Stream.Run(Stream.Responses, model, es[..|es| - 1], randoms[..|es| - 1]), es[..|es| - 1],
                   es[|es| - 1], randoms[|es| - 1], all);
    }
  }

  lemma {:induction false} RunEncoded(model: string, es: seq<Event>, randoms: seq<string>, all: seq<Event>,
                                      calls: seq<CallInfo>, responseId: string)
    requires |randoms| == |es| && StableIds(all) && (forall e | e in es :: e in all) && DistinctCalls(calls)
    requires Table(Stream.Run(Stream.Responses, model, es, randoms).rec.tools, calls)
    ensures var s := Stream.Run(Stream.Responses, model, es, randoms);
            Encoded(s.written, s.rec, es, calls, responseId)
  {
    if es == [] {
      StartEncoded(model, calls, responseId);
    } else {
      TableOfInit(model, es, randoms, all, calls);
      RunEncoded(model, es[..|es| - 1], randoms[..|es| - 1], all, calls, responseId);
      EncodedNext(model, es, randoms, all, calls, responseId);
    }
  }

  lemma {:induction false} TableOfInit(model: string, es: seq<Event>, randoms: seq<string>, all: seq<Event>,
                                       calls: seq<CallInfo>)
    requires |randoms| == |es| > 0 && StableIds(all) && forall e | e in es :: e in all
    requires Table(Stream.Run(Stream.Responses, model, es, randoms).rec.tools, calls)
    ensures Table(Stream.Run(Stream.Responses, model, es[..|es| - 1], randoms[..|es| - 1]).rec.tools, calls)
  {
    var init, rs := es[..|es| - 1], randoms[..|es| - 1];
    RunKnown(model, init, rs, all);
    TableBefore(Stream.Run(Stream.Responses, model, init, rs), init, es[|es| - 1], randoms[|es| - 1], all, calls);
  }

  lemma {:induction false} EncodedNext(model: string, es: seq<Event>, randoms: seq<string>, all: seq<Event>,
                                       calls: seq<CallInfo>, responseId: string)
    requires |randoms| == |es| > 0 && StableIds(all) && (forall e | e in es :: e in all) && DistinctCalls(calls)
    requires Table(Stream.Run(Stream.Responses, model, es, randoms).rec.tools, calls)
    requires var s := Stream.Run(Stream.Responses, model, es[..|es| - 1], randoms[..|es| - 1]);
             Encoded(s.written, s.rec, es[..|es| - 1], calls, responseId)
    ensures var s := Stream.Run(Stream.Responses, model, es, randoms);
            Encoded(s.written, s.rec, es, calls, responseId)
  {
    var init, rs, e, random := es[..|es| - 1], randoms[..|es| - 1], es[|es| - 1], randoms[|es| - 1];
    var s := Stream.Run(Stream.Responses, model, init, rs);
    LastIn(es, all);
    RunKnown(model, init, rs, all);
    RunLast(model, es, randoms);
    HandledEncoded(s, Stream.Run(Stream.Responses, model, es, randoms), init, es, e, random, all, calls, responseId);
  }

  lemma LastIn(es: seq<Event>, all: seq<Event>)
    requires es != [] && forall e | e in es :: e in all
    ensures var init, e := es[..|es| - 1], es[|es| - 1];
            init + [e] == es && e in all && forall f | f in init :: f in all
  {
    assert forall f | f in es[..|es| - 1] :: f in es;
  }

  lemma {:induction false} RunLast(model: string, es: seq<Event>, randoms: seq<string>)
    requires |randoms| == |es| > 0
    ensures var n := |es| - 1;
            Stream.Run(Stream.Responses, model, es, randoms) ==
            Stream.Handle(Stream.Run(Stream.Responses, model, es[..n], randoms[..n]), es[n], randoms[n])
  {
  }

  lemma {:induction false} HandledEncoded(s: Stream.State, r: Stream.State, init: seq<Event>, es: seq<Event>, e: Event,
                                          random: string,
                                          all: seq<Event>, calls: seq<CallInfo>, responseId: string)
    requires Known(s, init, all) && r == Stream.Handle(s, e, random) && e in all && StableIds(all) &&
             DistinctCalls(calls)
    requires Table(r.rec.tools, calls) && Encoded(s.written, s.rec, init, calls, responseId) && es == init + [e]
    ensures Encoded(r.written, r.rec, es, calls, responseId)
  {
    EncodeEvent(s, init, e, random, all, calls, responseId);
  }

  lemma StartEncoded(model: string, calls: seq<CallInfo>, responseId: string)
    ensures var s := Stream.Start(Stream.Responses, model);
            Encoded(s.written, s.rec, [], calls, responseId)
  {
    var s := Stream.Start(Stream.Responses, model);
    assert Tracks(s.rec.tools, []) == [];
    NothingRead(calls, responseId);
    TextFrame(calls, [], Stream.Created(model), responseId, [], "", "");
    assert [] + [Stream.Created(model)] == [Stream.Created(model)];
  }

  lemma {:induction false} NothingRead(calls: seq<CallInfo>, responseId: string)
    ensures Reads(calls, [], responseId, [], "", "")
  {
    assert Wires(calls, [], responseId) == [];
  }

  /** The table of the tools of a run. */
  function Calls(tools: seq<Stream.Tool>): (calls: seq<CallInfo>)
    ensures Table(tools, calls) && |calls| == |tools|
  {
    seq(|tools|, k requires 0 <= k < |tools| => Info(tools[k]))
  }

  lemma SourcesDiffer(t: Stream.Tool, u: Stream.Tool, all: seq<Event>)
    requires StableIds(all) && HasSource(t, all) && HasSource(u, all)
    ensures t.id != "" && t.itemId != "" && (t.id == u.id <==> t.itemId == u.itemId)
  {
    var e :| e in all && e.ToolCall? && e.id == t.id && e.itemId == t.itemId;
    var f :| f in all && f.ToolCall? && f.id == u.id && f.itemId == u.itemId;
  }

  lemma CallsDistinct(s: Stream.State, es: seq<Event>, all: seq<Event>)
    requires Known(s, es, all)
    ensures DistinctCalls(Calls(s.rec.tools))
  {
    var ts := s.rec.tools;
    forall k | 0 <= k < |ts|
      ensures ts[k].id != "" && ts[k].itemId != ""
    {
      assert HasSource(ts[k], all);
      SourcesDiffer(ts[k], ts[k], all);
    }
    forall j, k | 0 <= j < k < |ts|
      ensures ts[j].id != ts[k].id && ts[j].itemId != ts[k].itemId && ts[j].outputIndex != ts[k].outputIndex
    {
      assert HasSource(ts[j], all) && HasSource(ts[k], all);
      SourcesDiffer(ts[j], ts[k], all);
      assert Slots.ToolAt(ts[j], j, Slots.ReadAll(s.written).entries) &&
             Slots.ToolAt(ts[k], k, Slots.ReadAll(s.written).entries);
    }
  }
}
