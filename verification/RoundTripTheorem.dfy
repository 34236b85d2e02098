/** The end of a Responses stream, and the round trip of whole streams. */
module RoundTripTheorem {
  import opened Options
  import opened Events
  import Accumulate
  import Text
  import opened Parser
  import opened ParserCalls
  import Slots = ResponsesSlots
  import Stream
  import opened Encoding
  import opened RoundTrip

  // ---- closing the calls ----

  /** Arguments as a client reads them back: none at all come back as an empty object. */
  function Filled(arguments: string): string {
    if arguments == "" then "{}" else arguments
  }

  predicate Settled(a: Auto, t: Track) {
    a.Running? && a.seen && a.emitted == Filled(t.arguments) && a.shown == t.name
  }

  predicate Closed(calls: seq<CallInfo>, ws: seq<Wire>, tracks: seq<Track>, m: nat) {
    && m <= |tracks| <= |calls| && WellFormed(calls, NO_NAMES, ws)
    && (forall k | 0 <= k < m :: Settled(AutoOf(NO_NAMES, ws, k), tracks[k]))
    && (forall k | m <= k < |tracks| :: AutoOf(NO_NAMES, ws, k) == TrackAuto(tracks[k]))
    && |StartedIds(calls, NO_NAMES, ws)| == |tracks|
    && (forall k | 0 <= k < |tracks| :: StartedIds(calls, NO_NAMES, ws)[k] == calls[k].callId)
  }

  lemma BlankArguments()
    ensures Stream.DefaultArguments("") == "{}"
  {
  }

  /** What the automaton does with the two closing frames of a call. */
  lemma CloseAuto(t: Track, name: string)
    ensures var all := Stream.DefaultArguments(t.arguments);
            Settled(AutoStep(NO_NAMES, AutoStep(NO_NAMES, TrackAuto(t), AllArguments(all)), ItemClosed(name, all)), t)
  {
    BlankArguments();
    assert "" + "{}" == "{}";
  }

  lemma CloseCall(calls: seq<CallInfo>, ws: seq<Wire>, tracks: seq<Track>, m: nat, name: string, p: Payload, q: Payload)
    requires Closed(calls, ws, tracks, m) && m < |tracks|
    requires var all := Stream.DefaultArguments(tracks[m].arguments);
             Shows(p, calls[m], AllArguments(all)) && p.itemId.Some? && Shows(q, calls[m], ItemClosed(name, all))
    ensures var all := Stream.DefaultArguments(tracks[m].arguments);
            Closed(calls, ws + [OnCall(m, AllArguments(all), p)] + [OnCall(m, ItemClosed(name, all), q)], tracks, m + 1)
  {
    var all := Stream.DefaultArguments(tracks[m].arguments);
    var v, w := OnCall(m, AllArguments(all), p), OnCall(m, ItemClosed(name, all), q);
    assert (ws + [v])[..|ws|] == ws;
    assert (ws + [v] + [w])[..|ws + [v]|] == ws + [v];
    CloseAuto(tracks[m], name);
    assert AutoOf(NO_NAMES, ws, m) == TrackAuto(tracks[m]);
    var a := AutoStep(NO_NAMES, TrackAuto(tracks[m]), AllArguments(all));
    assert AutoOf(NO_NAMES, ws + [v], m) == a && a.Running?;
    assert AutoOf(NO_NAMES, ws + [v] + [w], m) == AutoStep(NO_NAMES, a, ItemClosed(name, all));
    forall k | 0 <= k < |tracks| && k != m
      ensures AutoOf(NO_NAMES, ws + [v] + [w], k) == AutoOf(NO_NAMES, ws, k)
    {
      assert AutoOf(NO_NAMES, ws + [v], k) == AutoOf(NO_NAMES, ws, k);
    }
    assert StartedIds(calls, NO_NAMES, ws + [v]) == StartedIds(calls, NO_NAMES, ws);
    assert StartedIds(calls, NO_NAMES, ws + [v] + [w]) == StartedIds(calls, NO_NAMES, ws + [v]);
  }

  predicate ReadsClosed(calls: seq<CallInfo>, fs: seq<Stream.Frame>, responseId: string, tracks: seq<Track>, m: nat,
                        text: string, reasoning: string) {
    var ws := Wires(calls, fs, responseId);
    Closed(calls, ws, tracks, m) && TextOf(QuietAll(ws)) == text && ReasoningOf(QuietAll(ws)) == reasoning
  }

  /** The closing frames of one tool. */
  function ToolClosing(t: Stream.Tool): seq<Stream.Frame> {
    [Stream.ArgumentsDone(t.outputIndex, t.itemId, Stream.DefaultArguments(t.arguments))] +
    [Stream.ItemDone(t.outputIndex, Stream.CompletedTool(t))]
  }

  lemma CloseTool(calls: seq<CallInfo>, fs: seq<Stream.Frame>, t: Stream.Tool, responseId: string, tracks: seq<Track>,
                  m: nat, text: string, reasoning: string)
    requires DistinctCalls(calls) && ReadsClosed(calls, fs, responseId, tracks, m, text, reasoning)
    requires m < |tracks| <= |calls| && calls[m] == Info(t) && tracks[m].arguments == t.arguments
    ensures ReadsClosed(calls, fs + ToolClosing(t), responseId, tracks, m + 1, text, reasoning)
  {
    ClosingWires(calls, fs, t, responseId, m);
    ClosingShows(t, responseId);
    CloseWires(calls, Wires(calls, fs, responseId), tracks, m, t.name, t.arguments,
               FirstClosing(t, m, responseId).payload, SecondClosing(t, m, responseId).payload);
  }

  lemma ClosingShows(t: Stream.Tool, responseId: string)
    ensures var all := Stream.DefaultArguments(t.arguments);
            && Shows(FirstClosing(t, 0, responseId).payload, Info(t), AllArguments(all)) &&
               FirstClosing(t, 0, responseId).payload.itemId.Some?
            && Shows(SecondClosing(t, 0, responseId).payload, Info(t), ItemClosed(t.name, all))
  {
  }

  lemma {:induction false} CloseWires(calls: seq<CallInfo>, ws: seq<Wire>, tracks: seq<Track>, m: nat, name: string,
                                      arguments: string, p: Payload, q: Payload)
    requires Closed(calls, ws, tracks, m) && m < |tracks| && tracks[m].arguments == arguments
    requires var all := Stream.DefaultArguments(arguments);
             Shows(p, calls[m], AllArguments(all)) && p.itemId.Some? && Shows(q, calls[m], ItemClosed(name, all))
    ensures var all := Stream.DefaultArguments(arguments);
            var ws' := ws + [OnCall(m, AllArguments(all), p)] + [OnCall(m, ItemClosed(name, all), q)];
            Closed(calls, ws', tracks, m + 1) && QuietAll(ws') == QuietAll(ws)
  {
    var all := Stream.DefaultArguments(arguments);
    CloseCall(calls, ws, tracks, m, name, p, q);
    ToolsAreNotQuiet(ws, OnCall(m, AllArguments(all), p));
    ToolsAreNotQuiet(ws + [OnCall(m, AllArguments(all), p)], OnCall(m, ItemClosed(name, all), q));
  }

  function FirstClosing(t: Stream.Tool, m: nat, responseId: string): Wire {
    var all := Stream.DefaultArguments(t.arguments);
    OnCall(m, AllArguments(all), Encode(Stream.ArgumentsDone(t.outputIndex, t.itemId, all), responseId))
  }

  function SecondClosing(t: Stream.Tool, m: nat, responseId: string): Wire {
    OnCall(m, ItemClosed(t.name, Stream.DefaultArguments(t.arguments)),
           Encode(Stream.ItemDone(t.outputIndex, Stream.CompletedTool(t)), responseId))
  }

  /** The closing frames of a tool, as the parser's client sees them. */
  lemma {:induction false} ClosingWires(calls: seq<CallInfo>, fs: seq<Stream.Frame>, t: Stream.Tool, responseId: string,
                                        m: nat)
    requires DistinctCalls(calls) && m < |calls| && calls[m] == Info(t)
    ensures Wires(calls, fs + ToolClosing(t), responseId) == Wires(calls, fs, responseId) +
            [FirstClosing(t, m, responseId)] + [SecondClosing(t, m, responseId)]
  {
    var f := Stream.ArgumentsDone(t.outputIndex, t.itemId, Stream.DefaultArguments(t.arguments));
    var g := Stream.ItemDone(t.outputIndex, Stream.CompletedTool(t));
    FindSlotIs(calls, m);
    WiresAppend(calls, fs, f, responseId);
    WiresAppend(calls, fs + [f], g, responseId);
    Text.Regroup(fs, [f], [g]);
  }

  lemma {:induction false} CloseTools(calls: seq<CallInfo>, fs: seq<Stream.Frame>, tools: seq<Stream.Tool>,
                                      responseId: string,
                                      tracks: seq<Track>, m: nat, text: string, reasoning: string)
    requires DistinctCalls(calls) && ReadsClosed(calls, fs, responseId, tracks, 0, text, reasoning)
    requires m <= |tools| == |tracks| <= |calls| && Table(tools, calls)
    requires forall k | 0 <= k < |tools| :: tracks[k].arguments == tools[k].arguments && tools[k].outputIndex >= 0
    ensures ReadsClosed(calls, fs + Stream.FinishToolFrames(tools[..m]), responseId, tracks, m, text, reasoning)
  {
    if m == 0 {
      assert fs + Stream.FinishToolFrames(tools[..0]) == fs;
    } else {
      CloseTools(calls, fs, tools, responseId, tracks, m - 1, text, reasoning);
      assert tools[..m][..m - 1] == tools[..m - 1];
      var before := Stream.FinishToolFrames(tools[..m - 1]);
      CloseTool(calls, fs + before, tools[m - 1], responseId, tracks, m - 1, text, reasoning);
      FinishLast(tools, m);
      Text.Regroup(fs, before, ToolClosing(tools[m - 1]));
    }
  }

  lemma FinishLast(tools: seq<Stream.Tool>, m: nat)
    requires 0 < m <= |tools| && tools[m - 1].outputIndex >= 0
    ensures Stream.FinishToolFrames(tools[..m]) == Stream.FinishToolFrames(tools[..m - 1]) + ToolClosing(tools[m - 1])
  {
    assert tools[..m][..m - 1] == tools[..m - 1];
  }

  /** The closing frames of text and reasoning. */
  function TextClosing(s: Stream.State): seq<Stream.Frame> {
    Stream.FinishReasoningFrames(s.outputs.reasoning, s.rec.reasoning) +
    Stream.FinishTextFrames(s.outputs.text, s.rec.text)
  }

  lemma TextClosingSilent(s: Stream.State)
    ensures (forall g | g in TextClosing(s) :: IsText(g)) && DeltaTexts(TextClosing(s)) == "" &&
            DeltaReasonings(TextClosing(s)) == ""
  {
    Silent(TextClosing(s));
  }

  /** All frames of a finished stream but the last two. */
  function Body(s: Stream.State): seq<Stream.Frame> {
    s.written + Stream.ItemDoneFrames(s)
  }

  lemma BodyReads(s: Stream.State, es: seq<Event>, all: seq<Event>, calls: seq<CallInfo>, responseId: string)
    requires Known(s, es, all) && calls == Calls(s.rec.tools) && DistinctCalls(calls) &&
             Encoded(s.written, s.rec, es, calls, responseId)
    ensures ReadsClosed(calls, Body(s), responseId, Tracks(s.rec.tools, es), |s.rec.tools|, s.rec.text, s.rec.reasoning)
  {
    TextsClosed(s, es, calls, responseId);
    KnownTools(s, es, all);
    AllToolsClosed(calls, s.written + TextClosing(s), s.rec.tools, es, responseId, s.rec.text, s.rec.reasoning);
    Text.Regroup(s.written, TextClosing(s), Stream.FinishToolFrames(s.rec.tools));
  }

  lemma KnownTools(s: Stream.State, es: seq<Event>, all: seq<Event>)
    requires Known(s, es, all)
    ensures (forall k | 0 <= k < |s.rec.tools| :: s.rec.tools[k].outputIndex >= 0) &&
            Accumulate.StreamObserved(s.rec.tools, es)
  {
    SlotsNonNegative(s);
  }

  lemma {:induction false} AllToolsClosed(calls: seq<CallInfo>, fs: seq<Stream.Frame>, tools: seq<Stream.Tool>,
                                          es: seq<Event>, responseId: string, text: string, reasoning: string)
    requires calls == Calls(tools) && DistinctCalls(calls) && (forall k | 0 <= k < |tools| :: tools[k].outputIndex >= 0)
    requires Accumulate.StreamObserved(tools, es)
    requires ReadsClosed(calls, fs, responseId, Tracks(tools, es), 0, text, reasoning)
    ensures ReadsClosed(calls, fs + Stream.FinishToolFrames(tools), responseId, Tracks(tools, es), |tools|, text,
                        reasoning)
  {
    CloseTools(calls, fs, tools, responseId, Tracks(tools, es), |tools|, text, reasoning);
    assert tools[..|tools|] == tools;
  }

  lemma TextsClosed(s: Stream.State, es: seq<Event>, calls: seq<CallInfo>, responseId: string)
    requires Encoded(s.written, s.rec, es, calls, responseId)
    ensures ReadsClosed(calls, s.written + TextClosing(s), responseId, Tracks(s.rec.tools, es), 0, s.rec.text,
                        s.rec.reasoning)
  {
    TextClosingSilent(s);
    TextFrames(calls, s.written, TextClosing(s), responseId, Tracks(s.rec.tools, es), s.rec.text, s.rec.reasoning);
    assert s.rec.text + "" == s.rec.text && s.rec.reasoning + "" == s.rec.reasoning;
  }

  lemma SlotsNonNegative(s: Stream.State)
    requires Slots.Inv(s)
    ensures forall k | 0 <= k < |s.rec.tools| :: s.rec.tools[k].outputIndex >= 0
  {
    forall k | 0 <= k < |s.rec.tools|
      ensures s.rec.tools[k].outputIndex >= 0
    {
      assert Slots.ToolAt(s.rec.tools[k], k, Slots.ReadAll(s.written).entries);
    }
  }

  // ---- parsing a whole stream ----

  function FrameMessage(f: Stream.Frame, responseId: string): Message {
    if f.DoneMarker? then Message("", DoneText) else Message(FrameName(f), Object(Encode(f, responseId)))
  }

  function FrameMessages(fs: seq<Stream.Frame>, responseId: string): (ms: seq<Message>)
    ensures |ms| == |fs|
  {
    if fs == [] then [] else FrameMessages(fs[..|fs| - 1], responseId) + [FrameMessage(fs[|fs| - 1], responseId)]
  }

  /** A payload that states its type is parsed without its event name. */
  lemma NameIrrelevant(p: ParserState, f: Stream.Frame, responseId: string)
    requires p.Valid() && !f.DoneMarker?
    ensures ParsePayload(p, FrameName(f), Encode(f, responseId)) == ParsePayload(p, "", Encode(f, responseId))
  {
    FrameHasType(f, responseId);
    TypedNameIrrelevant(p, FrameName(f), Encode(f, responseId));
  }

  lemma FrameHasType(f: Stream.Frame, responseId: string)
    requires !f.DoneMarker?
    ensures !Encode(f, responseId).typ.Absent?
  {
    assert Encode(f, responseId).typ == FrameType(f);
  }

  lemma TypedNameIrrelevant(p: ParserState, name: string, payload: Payload)
    requires p.Valid() && !payload.typ.Absent?
    ensures ParsePayload(p, name, payload) == ParsePayload(p, "", payload)
  {
  }

  lemma {:induction false} NamesIrrelevant(calls: seq<CallInfo>, p: ParserState, fs: seq<Stream.Frame>,
                                           responseId: string)
    requires p.Valid() && forall f | f in fs :: !f.DoneMarker?
    ensures ParseAll(p, FrameMessages(fs, responseId)) == ParseAll(p, Messages(Wires(calls, fs, responseId)))
  {
    var ws := Wires(calls, fs, responseId);
    if fs == [] {
      assert Messages(ws) == [] == FrameMessages(fs, responseId);
    } else {
      var init, f := fs[..|fs| - 1], fs[|fs| - 1];
      assert f in fs;
      NamesIrrelevant(calls, p, init, responseId);
      assert ws[..|ws| - 1] == Wires(calls, init, responseId);
      ParseLast(p, ws);
      assert FrameMessages(fs, responseId)[..|fs| - 1] == FrameMessages(init, responseId);
      var r := ParseAll(p, FrameMessages(init, responseId));
      NameIrrelevant(r.parser, f, responseId);
      WirePayload(calls, f, responseId);
    }
  }

  lemma WirePayload(calls: seq<CallInfo>, f: Stream.Frame, responseId: string)
    ensures WireOf(calls, f, responseId).payload == Encode(f, responseId)
  {
  }

  /** The usage object of the final frame is read back unchanged. */
  lemma UsageReadBack(u: Usage)
    ensures ReadUsage(WireUsage(u)) == u
  {
  }

  lemma CompletedRead(r: Parsed, model: string, output: seq<Option<Stream.Item>>, usage: Usage, responseId: string)
    requires r.parser.Valid() && !r.parser.done
    ensures var f := Stream.Completed(model, output, usage);
            var r1 := Parse(r.parser, FrameName(f), Object(Encode(f, responseId)));
            r1.events == [UsageReport(usage)] + [Done] && r1.parser.done
  {
    UsageReadBack(usage);
  }

  lemma LastTwo(r: Parsed, model: string, output: seq<Option<Stream.Item>>, usage: Usage, responseId: string)
    requires r.parser.Valid() && !r.parser.done
    ensures var f := Stream.Completed(model, output, usage);
            var r1 := Parse(r.parser, FrameName(f), Object(Encode(f, responseId)));
            && r1.events == [UsageReport(usage)] + [Done]
            && Parse(r1.parser, "", DoneText).events == []
  {
    CompletedRead(r, model, output, usage, responseId);
  }

  lemma {:induction false} ParseAppend(p: ParserState, ms: seq<Message>, m: Message)
    requires p.Valid()
    ensures var r := ParseAll(p, ms);
            ParseAll(p, ms + [m]).events == r.events + Parse(r.parser, m.eventName, m.data).events
    ensures ParseAll(p, ms + [m]).parser == Parse(ParseAll(p, ms).parser, m.eventName, m.data).parser
  {
    assert (ms + [m])[..|ms|] == ms;
  }

  lemma {:induction false} MessagesAppend(fs: seq<Stream.Frame>, f: Stream.Frame, responseId: string)
    ensures FrameMessages(fs + [f], responseId) == FrameMessages(fs, responseId) + [FrameMessage(f, responseId)]
  {
    assert (fs + [f])[..|fs|] == fs;
  }

  lemma {:induction false} FinishMessages(s: Stream.State, responseId: string)
    requires s.operation.Responses?
    ensures FrameMessages(Stream.Finish(s).written, responseId)
            == FrameMessages(Body(s), responseId) +
               [FrameMessage(Stream.Completed(s.model, Stream.Output(s), s.rec.usage), responseId)]
               + [Message("", DoneText)]
  {
    var body, f := Body(s), Stream.Completed(s.model, Stream.Output(s), s.rec.usage);
    FinishIs(s);
    MessagesAppendTwo(body, f, Stream.DoneMarker, responseId);
  }

  lemma FinishIs(s: Stream.State)
    requires s.operation.Responses?
    ensures Stream.Finish(s).written == Body(s) + [Stream.Completed(s.model, Stream.Output(s), s.rec.usage)] +
            [Stream.DoneMarker]
  {
    var f := Stream.Completed(s.model, Stream.Output(s), s.rec.usage);
    Text.Regroup(s.written, Stream.ItemDoneFrames(s), [f, Stream.DoneMarker]);
    Text.Regroup(Body(s), [f], [Stream.DoneMarker]);
  }

  lemma {:induction false} MessagesAppendTwo(fs: seq<Stream.Frame>, f: Stream.Frame, g: Stream.Frame,
                                             responseId: string)
    ensures FrameMessages(fs + [f] + [g], responseId)
            == FrameMessages(fs, responseId) + [FrameMessage(f, responseId)] + [FrameMessage(g, responseId)]
  {
    MessagesAppend(fs, f, responseId);
    MessagesAppend(fs + [f], g, responseId);
  }

  lemma {:induction false} ParseAppendTwo(p: ParserState, ms: seq<Message>, m: Message, n: Message, first: seq<Event>)
    requires p.Valid()
    requires var r := ParseAll(p, ms);
             var r1 := Parse(r.parser, m.eventName, m.data);
             r1.events == first && Parse(r1.parser, n.eventName, n.data).events == []
    ensures ParseAll(p, ms + [m] + [n]).events == ParseAll(p, ms).events + first
  {
    ParseAppend(p, ms, m);
    ParseAppend(p, ms + [m], n);
  }

  /** The events parsed from a finished stream: those of its body, the usage, and Done. */
  lemma {:induction false} ParsedStream(s: Stream.State, responseId: string)
    requires s.operation.Responses?
    requires var r := ParseAll(NewParser(NO_NAMES), FrameMessages(Body(s), responseId)); !r.parser.done
    ensures var r := ParseAll(NewParser(NO_NAMES), FrameMessages(Body(s), responseId));
            ParseAll(NewParser(NO_NAMES), FrameMessages(Stream.Finish(s).written, responseId)).events
            == r.events + ([UsageReport(s.rec.usage)] + [Done])
  {
    ParsedEnding(NewParser(NO_NAMES), FrameMessages(Body(s), responseId), s.model, Stream.Output(s), s.rec.usage,
                 responseId);
    FinishMessages(s, responseId);
  }

  lemma {:induction false} ParsedEnding(p: ParserState, ms: seq<Message>, model: string,
                                        output: seq<Option<Stream.Item>>, usage: Usage, responseId: string)
    requires p.Valid() && !ParseAll(p, ms).parser.done
    ensures ParseAll(p, ms + [FrameMessage(Stream.Completed(model, output, usage), responseId)] +
                     [Message("", DoneText)]).events
            == ParseAll(p, ms).events + ([UsageReport(usage)] + [Done])
  {
    var f := Stream.Completed(model, output, usage);
    LastTwo(ParseAll(p, ms), model, output, usage, responseId);
    ParseAppendTwo(p, ms, FrameMessage(f, responseId), Message("", DoneText), [UsageReport(usage)] + [Done]);
  }

  lemma {:induction false} EndingObserved(es: seq<Event>, usage: Usage, id: string)
    ensures var out := es + ([UsageReport(usage)] + [Done]);
            && TextOf(out) == TextOf(es) && ReasoningOf(out) == ReasoningOf(es) && CallIds(out) == CallIds(es)
            && ArgumentsOf(out, id) == ArgumentsOf(es, id) && NameOf(out, id) == NameOf(es, id) && UsageOf(out) == usage
            && (NoMedia(out) <==> NoMedia(es))
  {
    var ending := [UsageReport(usage)] + [Done];
    var out := es + ending;
    NoToolsAppended(es, ending, id);
    TextOfConcat(es, ending);
    NoTextIn(ending);
    NoMediaConcat(es, ending);
    assert out[..|out| - 1] == es + [UsageReport(usage)];
    assert UsageOf(es + [UsageReport(usage)]) == usage;
  }

  /** The recovered events show what the original events show, apart from blank arguments and late names. */
  ghost predicate SameAnswer(out: seq<Event>, es: seq<Event>) {
    && TextOf(out) == TextOf(es) && ReasoningOf(out) == ReasoningOf(es) && UsageOf(out) == UsageOf(es)
    && CallIds(out) == CallIds(es)
    && forall id | id in CallIds(es) :: ArgumentsOf(out, id) == Filled(ArgumentsOf(es, id)) &&
                                        NameOf(out, id) == FirstNameOf(es, id)
  }

  /**
   Payload round trip: encoding a media-free event list as a Responses stream and parsing the payloads recovers the
   text, the reasoning, the usage and the ordered calls with their arguments ("{}" for none) and the name of their first
   event.
   */
  lemma {:induction false} PayloadRoundTrip(model: string, es: seq<Event>, randoms: seq<string>, responseId: string)
    requires |randoms| == |es| && StableIds(es)
    ensures var s := Stream.Run(Stream.Responses, model, es, randoms);
            SameAnswer(ParseAll(NewParser(NO_NAMES), FrameMessages(Stream.Finish(s).written, responseId)).events, es)
  {
    var s := Stream.Run(Stream.Responses, model, es, randoms);
    var calls := Calls(s.rec.tools);
    RunKnown(model, es, randoms, es);
    CallsDistinct(s, es, es);
    RunEncoded(model, es, randoms, es, calls, responseId);
    BodyReads(s, es, es, calls, responseId);
    BodyParsed(s, es, calls, responseId);
    BodyObserved(s, es, calls, responseId);
  }

  lemma {:induction false} BodyParsed(s: Stream.State, es: seq<Event>, calls: seq<CallInfo>, responseId: string)
    requires Known(s, es, es) && calls == Calls(s.rec.tools) && DistinctCalls(calls)
    requires ReadsClosed(calls, Body(s), responseId, Tracks(s.rec.tools, es), |s.rec.tools|, s.rec.text,
                         s.rec.reasoning)
    ensures AllRead(calls, NO_NAMES, Wires(calls, Body(s), responseId),
                    ParseAll(NewParser(NO_NAMES), FrameMessages(Body(s), responseId)))
  {
    NoMarkers(s, es);
    CallsAreIndependent(calls, NO_NAMES, Wires(calls, Body(s), responseId));
    NamesIrrelevant(calls, NewParser(NO_NAMES), Body(s), responseId);
  }

  /** No frame before the last one is the end marker: the strict client would reject it. */
  lemma NoMarkers(s: Stream.State, es: seq<Event>)
    requires Slots.Inv(s)
    ensures forall f | f in Body(s) :: !f.DoneMarker?
  {
    Slots.ReadAllIsReadFrom(s.written);
    Slots.ItemsRead(s);
    Slots.ReadConcat(Slots.Reading([], 0, false), s.written, Stream.ItemDoneFrames(s));
    OpenMeansNoMarker(Slots.Reading([], 0, false), Body(s));
  }

  lemma {:induction false} OpenMeansNoMarker(c: Slots.Client, fs: seq<Stream.Frame>)
    requires Slots.ReadFrom(c, fs).Reading? && !Slots.ReadFrom(c, fs).closed
    ensures forall f | f in fs :: !f.DoneMarker?
  {
    if fs != [] {
      var init := fs[..|fs| - 1];
      OpenMeansNoMarker(c, init);
      assert forall f | f in fs :: f in init || f == fs[|fs| - 1];
    }
  }

  lemma {:induction false} BodyObserved(s: Stream.State, es: seq<Event>, calls: seq<CallInfo>, responseId: string)
    requires Known(s, es, es) && calls == Calls(s.rec.tools)
    requires ReadsClosed(calls, Body(s), responseId, Tracks(s.rec.tools, es), |s.rec.tools|, s.rec.text,
                         s.rec.reasoning)
    requires AllRead(calls, NO_NAMES, Wires(calls, Body(s), responseId),
                     ParseAll(NewParser(NO_NAMES), FrameMessages(Body(s), responseId)))
    ensures SameAnswer(ParseAll(NewParser(NO_NAMES), FrameMessages(Stream.Finish(s).written, responseId)).events, es)
  {
    var r := ParseAll(NewParser(NO_NAMES), FrameMessages(Body(s), responseId));
    ParsedStream(s, responseId);
    KnownAnswer(s, es);
    EventsObserved(s, es, calls, responseId, r);
  }

  /** The recorder holds the answer of the events. */
  predicate Recorded(s: Stream.State, es: seq<Event>) {
    && Accumulate.StreamObserved(s.rec.tools, es)
    && s.rec.text == TextOf(es) && s.rec.reasoning == ReasoningOf(es) && s.rec.usage == UsageOf(es)
  }

  lemma KnownAnswer(s: Stream.State, es: seq<Event>)
    requires Known(s, es, es)
    ensures Recorded(s, es)
  {
  }

  lemma {:induction false} EventsObserved(s: Stream.State, es: seq<Event>, calls: seq<CallInfo>, responseId: string,
                                          r: Parsed)
    requires Recorded(s, es) && calls == Calls(s.rec.tools)
    requires ReadsClosed(calls, Body(s), responseId, Tracks(s.rec.tools, es), |s.rec.tools|, s.rec.text,
                         s.rec.reasoning)
    requires AllRead(calls, NO_NAMES, Wires(calls, Body(s), responseId), r)
    ensures SameAnswer(r.events + ([UsageReport(s.rec.usage)] + [Done]), es)
  {
    IdsInOrder(s, es, calls, Wires(calls, Body(s), responseId));
    forall id | id in CallIds(es)
      ensures ArgumentsOf(r.events, id) == Filled(ArgumentsOf(es, id)) && NameOf(r.events, id) == FirstNameOf(es, id)
    {
      var k :| 0 <= k < |CallIds(es)| && CallIds(es)[k] == id;
      CallObserved(s, es, calls, responseId, r, k);
    }
    AnswerWithEnding(r.events, es, s.rec.usage);
  }

  lemma {:induction false} AnswerWithEnding(out: seq<Event>, es: seq<Event>, usage: Usage)
    requires TextOf(out) == TextOf(es) && ReasoningOf(out) == ReasoningOf(es) && UsageOf(es) == usage &&
             CallIds(out) == CallIds(es)
    requires forall id | id in CallIds(es) :: ArgumentsOf(out, id) == Filled(ArgumentsOf(es, id)) &&
                                              NameOf(out, id) == FirstNameOf(es, id)
    ensures SameAnswer(out + ([UsageReport(usage)] + [Done]), es)
  {
    EndingObserved(out, usage, "");
    forall id | id in CallIds(es)
      ensures var all := out + ([UsageReport(usage)] + [Done]);
              ArgumentsOf(all, id) == Filled(ArgumentsOf(es, id)) && NameOf(all, id) == FirstNameOf(es, id)
    {
      EndingObserved(out, usage, id);
    }
  }

  lemma {:induction false} IdsInOrder(s: Stream.State, es: seq<Event>, calls: seq<CallInfo>, ws: seq<Wire>)
    requires Accumulate.StreamObserved(s.rec.tools, es) && calls == Calls(s.rec.tools)
    requires Closed(calls, ws, Tracks(s.rec.tools, es), |s.rec.tools|)
    ensures StartedIds(calls, NO_NAMES, ws) == CallIds(es)
  {
  }

  lemma {:induction false} CallObserved(s: Stream.State, es: seq<Event>, calls: seq<CallInfo>, responseId: string,
                                        r: Parsed, k: nat)
    requires Accumulate.StreamObserved(s.rec.tools, es) && calls == Calls(s.rec.tools) && k < |CallIds(es)|
    requires ReadsClosed(calls, Body(s), responseId, Tracks(s.rec.tools, es), |s.rec.tools|, s.rec.text,
                         s.rec.reasoning)
    requires AllRead(calls, NO_NAMES, Wires(calls, Body(s), responseId), r)
    ensures var id := CallIds(es)[k];
            ArgumentsOf(r.events, id) == Filled(ArgumentsOf(es, id)) && NameOf(r.events, id) == FirstNameOf(es, id)
  {
    var ws, tracks := Wires(calls, Body(s), responseId), Tracks(s.rec.tools, es);
    assert CallRead(r, calls[k], AutoOf(NO_NAMES, ws, k), SlotShown(ws, k));
    assert Settled(AutoOf(NO_NAMES, ws, k), tracks[k]);
  }

  // ---- when links in the text look like media ----

  lemma {:induction false} MediaFreeIff(leaves: seq<Leaf>)
    ensures NoMedia(MediaEvents(leaves)) <==> forall leaf | leaf in leaves :: MediaOf(leaf) == []
  {
    if leaves != [] {
      MediaFreeIff(leaves[1..]);
      NoMediaConcat(MediaOf(leaves[0]), MediaEvents(leaves[1..]));
      assert forall leaf | leaf in leaves :: leaf == leaves[0] || leaf in leaves[1..];
      if MediaOf(leaves[0]) != [] {
        assert MediaOf(leaves[0])[0] in MediaOf(leaves[0]);
      }
    }
  }

  /** Text that does not begin with an "h" is no link. */
  predicate NotLink(value: string) {
    value == "" || value[0] != 'h'
  }

  lemma NotLinkNoMedia(key: string, value: string)
    requires NotLink(value)
    ensures MediaOf(Leaf(key, value)) == []
  {
    if |value| >= 4 {
      assert value[..4][0] == value[0] && "http"[0] == 'h';
    }
  }

  predicate OpeningItem(item: Stream.Item) {
    !item.completed && NotLink(item.id)
  }

  /** Frames of an open stream carry no free text but the model name and deltas. */
  predicate OpenFrame(f: Stream.Frame, model: string) {
    match f
    case Created(m) => m == model
    case ItemAdded(_, item) => item.CallItem? || OpeningItem(item)
    case ContentPartAdded(_, id) => NotLink(id)
    case SummaryPartAdded(_, id) => NotLink(id)
    case OutputTextDelta(_, _, _) => true
    case SummaryTextDelta(_, _, _) => true
    case ArgumentsDelta(_, _, _) => true
    case _ => false
  }

  predicate IdsNotLinks(o: Stream.Outputs) {
    (o.text.Some? ==> NotLink(o.text.value.id)) && (o.reasoning.Some? ==> NotLink(o.reasoning.value.id))
  }

  lemma OpenFramesStep(s: Stream.State, e: Event, random: string)
    requires s.rec.Valid() && s.operation.Responses? && AllOpen(s, s.model)
    ensures var r := Stream.Handle(s, e, random); AllOpen(r, s.model) && s.written <= r.written
  {
    match e
    case TextDelta(t) => OpenText(s.(rec := Stream.Record(s.rec, e, random)), t, random);
    case Image(_) => OpenText(s.(rec := Stream.Record(s.rec, e, random)), MediaText(e), random);
    case Video(_) => OpenText(s.(rec := Stream.Record(s.rec, e, random)), MediaText(e), random);
    case ReasoningDelta(t) => OpenReasoning(s.(rec := Stream.Record(s.rec, e, random)), t, random);
    case _ =>
  }

  predicate AllOpen(s: Stream.State, model: string) {
    (forall f | f in s.written :: OpenFrame(f, model)) && IdsNotLinks(s.outputs)
  }

  lemma OpenText(s: Stream.State, delta: string, random: string)
    requires AllOpen(s, s.model)
    ensures var r := Stream.WriteText(s, delta, random); AllOpen(r, s.model) && s.written <= r.written
  {
    assert ("msg_" + random)[0] == 'm';
  }

  lemma OpenReasoning(s: Stream.State, delta: string, random: string)
    requires AllOpen(s, s.model)
    ensures var r := Stream.WriteReasoning(s, delta, random); AllOpen(r, s.model) && s.written <= r.written
  {
    assert ("rs_" + random)[0] == 'r';
  }

  lemma {:induction false} OpenFrames(model: string, es: seq<Event>, randoms: seq<string>)
    requires |randoms| == |es|
    ensures var s := Stream.Run(Stream.Responses, model, es, randoms);
            (forall f | f in s.written :: OpenFrame(f, model)) && IdsNotLinks(s.outputs) &&
            [Stream.Created(model)] <= s.written
  {
    if es != [] {
      OpenFrames(model, es[..|es| - 1], randoms[..|es| - 1]);
      OpenFramesStep(Stream.Run(Stream.Responses, model, es[..|es| - 1], randoms[..|es| - 1]), es[|es| - 1],
                     randoms[|es| - 1]);
    }
  }

  /** Only one string of the list can be a link. */
  lemma {:induction false} OneFreeLeaf(leaves: seq<Leaf>, i: nat)
    requires i < |leaves| && forall j | 0 <= j < |leaves| && j != i :: NotLink(leaves[j].value)
    ensures NoMedia(MediaEvents(leaves)) <==> MediaOf(leaves[i]) == []
  {
    MediaFreeIff(leaves);
    forall leaf | leaf in leaves
      ensures leaf == leaves[i] || MediaOf(leaf) == []
    {
      var j :| 0 <= j < |leaves| && leaves[j] == leaf;
      if j != i {
        NotLinkNoMedia(leaf.key, leaf.value);
      }
    }
  }

  lemma OpenFrameMedia(f: Stream.Frame, model: string, responseId: string)
    requires OpenFrame(f, model) && IsText(f) && NotLink(responseId)
    ensures NoMedia(QuietEvents(Encode(f, responseId))) <==> (f.Created? ==> MediaOf(Leaf("model", model)) == [])
  {
    if f.OutputTextDelta? || f.SummaryTextDelta? {
      DeltaEvents(f, responseId);
    } else {
      OtherTextEvents(f, responseId);
      OpenLeaves(f, model, responseId);
    }
  }

  lemma OpenLeaves(f: Stream.Frame, model: string, responseId: string)
    requires OpenFrame(f, model) && IsText(f) && NotLink(responseId) && !f.OutputTextDelta? && !f.SummaryTextDelta?
    ensures NoMedia(MediaEvents(FrameLeaves(f, responseId))) <==> (f.Created? ==> MediaOf(Leaf("model", model)) == [])
  {
    var leaves := FrameLeaves(f, responseId);
    if f.Created? {
      OneFreeLeaf(leaves, 4);
    } else {
      OneFreeLeaf(leaves, 1);
      NotLinkNoMedia(leaves[1].key, leaves[1].value);
    }
  }

  /** The closing frames of text and reasoning. */
  predicate CloseFrame(f: Stream.Frame, text: string) {
    match f
    case SummaryTextDone(_, id, t) => NotLink(id) && t == text
    case SummaryPartDone(_, id, t) => NotLink(id) && t == text
    case OutputTextDone(_, id, t) => NotLink(id) && t == text
    case ContentPartDone(_, id, t) => NotLink(id) && t == text
    case ItemDone(_, item) => !item.CallItem? && item.completed && NotLink(item.id) && item.text == text
    case _ => false
  }

  lemma ItemCloseLeaves(item: Stream.Item, slot: int, text: string, responseId: string)
    requires CloseFrame(Stream.ItemDone(slot, item), text) && NotLink(responseId)
    ensures NoMedia(MediaEvents(FrameLeaves(Stream.ItemDone(slot, item), responseId))) <==>
            MediaOf(Leaf("text", text)) == []
  {
    var leaves, first := FrameLeaves(Stream.ItemDone(slot, item), responseId),
                         [Leaf("type", "response.output_item.done"), Leaf("response_id", responseId),
                          Leaf("id", item.id)];
    if item.MessageItem? {
      assert leaves == first + [Leaf("type", "message"), Leaf("role", "assistant"), Leaf("status", "completed"),
                                Leaf("type", "output_text"), Leaf("text", text)];
      OneFreeLeaf(leaves, 7);
    } else {
      assert leaves == first + [Leaf("type", "reasoning"), Leaf("status", "completed"), Leaf("type", "summary_text"),
                                Leaf("text", text)];
      OneFreeLeaf(leaves, 6);
    }
  }

  lemma PartCloseLeaves(f: Stream.Frame, text: string, responseId: string)
    requires CloseFrame(f, text) && !f.ItemDone? && NotLink(responseId)
    ensures NoMedia(MediaEvents(FrameLeaves(f, responseId))) <==> MediaOf(Leaf("text", text)) == []
  {
    OneFreeLeaf(FrameLeaves(f, responseId), 4);
  }

  lemma CloseFrameMedia(f: Stream.Frame, text: string, responseId: string)
    requires CloseFrame(f, text) && NotLink(responseId)
    ensures IsText(f) && (NoMedia(QuietEvents(Encode(f, responseId))) <==> MediaOf(Leaf("text", text)) == [])
  {
    OtherTextEvents(f, responseId);
    if f.ItemDone? {
      ItemCloseLeaves(f.item, f.slot, text, responseId);
    } else {
      PartCloseLeaves(f, text, responseId);
    }
  }

  predicate IsTool(f: Stream.Frame) {
    f.ArgumentsDelta? || f.ArgumentsDone? || ((f.ItemAdded? || f.ItemDone?) && f.item.CallItem?)
  }

  ghost predicate CleanFrame(f: Stream.Frame, responseId: string) {
    IsText(f) ==> NoMedia(QuietEvents(Encode(f, responseId)))
  }

  ghost predicate All<T>(s: seq<T>, ok: T -> bool) {
    s == [] || (All(s[..|s| - 1], ok) && ok(s[|s| - 1]))
  }

  lemma {:induction false} AllIs<T>(s: seq<T>, ok: T -> bool)
    ensures All(s, ok) <==> forall i | 0 <= i < |s| :: ok(s[i])
  {
    if s != [] {
      AllIs(s[..|s| - 1], ok);
    }
  }

  ghost function Cleanness(responseId: string): Stream.Frame -> bool {
    (f: Stream.Frame) => CleanFrame(f, responseId)
  }

  ghost predicate CleanFrames(fs: seq<Stream.Frame>, responseId: string) {
    All(fs, Cleanness(responseId))
  }

  lemma {:induction false} QuietMedia(calls: seq<CallInfo>, fs: seq<Stream.Frame>, responseId: string)
    requires forall f | f in fs :: IsText(f) || IsTool(f)
    ensures NoMedia(QuietAll(Wires(calls, fs, responseId))) <==> CleanFrames(fs, responseId)
  {
    if fs != [] {
      var init, f := fs[..|fs| - 1], fs[|fs| - 1];
      assert f in fs;
      QuietMedia(calls, init, responseId);
      QuietLast(calls, fs, responseId);
      FrameMedia(calls, f, responseId);
      NoMediaConcat(QuietAll(Wires(calls, init, responseId)), QuietOf(calls, f, responseId));
      assert Cleanness(responseId)(f) == CleanFrame(f, responseId);
    }
  }

  /** What a frame contributes outside the calls. */
  function QuietOf(calls: seq<CallInfo>, f: Stream.Frame, responseId: string): seq<Event> {
    if WireOf(calls, f, responseId).Plain? then QuietEvents(Encode(f, responseId)) else []
  }

  lemma FrameMedia(calls: seq<CallInfo>, f: Stream.Frame, responseId: string)
    requires IsText(f) || IsTool(f)
    ensures NoMedia(QuietOf(calls, f, responseId)) <==> CleanFrame(f, responseId)
  {
  }

  lemma {:induction false} QuietLast(calls: seq<CallInfo>, fs: seq<Stream.Frame>, responseId: string)
    requires fs != []
    ensures var f := fs[|fs| - 1];
            QuietAll(Wires(calls, fs, responseId)) ==
            QuietAll(Wires(calls, fs[..|fs| - 1], responseId)) + QuietOf(calls, f, responseId)
  {
    WirePayload(calls, fs[|fs| - 1], responseId);
    assert Wires(calls, fs, responseId)[..|fs| - 1] == Wires(calls, fs[..|fs| - 1], responseId);
  }

  /** Model name, text and reasoning: none of them is a link that the media walk would pick up. */
  predicate LinkFree(model: string, text: string, reasoning: string) {
    MediaOf(Leaf("model", model)) == [] && MediaOf(Leaf("text", text)) == [] && MediaOf(Leaf("text", reasoning)) == []
  }

  lemma {:induction false} ToolFramesNotText(tools: seq<Stream.Tool>)
    ensures forall f | f in Stream.FinishToolFrames(tools) ::
              (f.ArgumentsDone? || (f.ItemDone? && f.item.CallItem?)) && !IsText(f)
  {
    if tools != [] {
      ToolFramesNotText(tools[..|tools| - 1]);
    }
  }

  lemma EmptyTextIsNoLink()
    ensures MediaOf(Leaf("text", "")) == []
  {
    NotLinkNoMedia("text", "");
  }

  lemma TextClosingFrames(s: Stream.State, f: Stream.Frame)
    requires IdsNotLinks(s.outputs) && f in TextClosing(s)
    ensures (s.outputs.reasoning.Some? && CloseFrame(f, s.rec.reasoning)) ||
            (s.outputs.text.Some? && CloseFrame(f, s.rec.text))
  {
  }

  lemma TextClosingContains(s: Stream.State)
    requires IdsNotLinks(s.outputs)
    ensures s.outputs.reasoning.Some? ==> exists f :: f in TextClosing(s) && CloseFrame(f, s.rec.reasoning)
    ensures s.outputs.text.Some? ==> exists f :: f in TextClosing(s) && CloseFrame(f, s.rec.text)
  {
    if s.outputs.reasoning.Some? {
      var f := Stream.FinishReasoningFrames(s.outputs.reasoning, s.rec.reasoning)[0];
      assert f in TextClosing(s) && CloseFrame(f, s.rec.reasoning);
    }
    if s.outputs.text.Some? {
      var f := Stream.FinishTextFrames(s.outputs.text, s.rec.text)[0];
      assert f in TextClosing(s) && CloseFrame(f, s.rec.text);
    }
  }

  /** What is known of the frames of a finished stream besides its calls. */
  ghost predicate FramesKnown(s: Stream.State, responseId: string) {
    && Slots.Inv(s) && (forall f | f in s.written :: OpenFrame(f, s.model)) && IdsNotLinks(s.outputs)
    && [Stream.Created(s.model)] <= s.written && NotLink(responseId)
  }

  lemma BodySplit(s: Stream.State, f: Stream.Frame)
    requires IsText(f)
    ensures f in Body(s) <==> f in s.written || f in TextClosing(s)
  {
    ToolFramesNotText(s.rec.tools);
    Text.Regroup(s.written, TextClosing(s), Stream.FinishToolFrames(s.rec.tools));
    assert Body(s) == s.written + TextClosing(s) + Stream.FinishToolFrames(s.rec.tools);
  }

  lemma LinkFreeIsClean(s: Stream.State, responseId: string, f: Stream.Frame)
    requires FramesKnown(s, responseId) && LinkFree(s.model, s.rec.text, s.rec.reasoning) && f in Body(s) && IsText(f)
    ensures CleanFrame(f, responseId)
  {
    BodySplit(s, f);
    if f in s.written {
      OpenFrameMedia(f, s.model, responseId);
    } else {
      TextClosingFrames(s, f);
      if s.outputs.reasoning.Some? && CloseFrame(f, s.rec.reasoning) {
        CloseFrameMedia(f, s.rec.reasoning, responseId);
      } else {
        CloseFrameMedia(f, s.rec.text, responseId);
      }
    }
  }

  lemma CleanIsLinkFree(s: Stream.State, responseId: string)
    requires FramesKnown(s, responseId) && forall f | f in Body(s) :: CleanFrame(f, responseId)
    ensures LinkFree(s.model, s.rec.text, s.rec.reasoning)
  {
    EmptyTextIsNoLink();
    TextClosingContains(s);
    var created := Stream.Created(s.model);
    assert s.written[0] == created;
    assert CleanFrame(created, responseId);
    OpenFrameMedia(created, s.model, responseId);
    if s.outputs.reasoning.Some? {
      var f :| f in TextClosing(s) && CloseFrame(f, s.rec.reasoning);
      CloseFrameMedia(f, s.rec.reasoning, responseId);
      BodySplit(s, f);
      assert CleanFrame(f, responseId);
    }
    if s.outputs.text.Some? {
      var f :| f in TextClosing(s) && CloseFrame(f, s.rec.text);
      CloseFrameMedia(f, s.rec.text, responseId);
      BodySplit(s, f);
      assert CleanFrame(f, responseId);
    }
  }

  /**
   No media event is recovered from a finished stream if and only if neither the model name, nor the whole text, nor the
   whole reasoning is a link of the kind the media walk reports.
   */
  lemma {:induction false} MediaFreeRoundTrip(model: string, es: seq<Event>, randoms: seq<string>, responseId: string)
    requires |randoms| == |es| && StableIds(es) && NotLink(responseId)
    ensures var s := Stream.Run(Stream.Responses, model, es, randoms);
            var out := ParseAll(NewParser(NO_NAMES), FrameMessages(Stream.Finish(s).written, responseId)).events;
            NoMedia(out) <==> LinkFree(model, TextOf(es), ReasoningOf(es))
  {
    var s := Stream.Run(Stream.Responses, model, es, randoms);
    var calls := Calls(s.rec.tools);
    RunKnown(model, es, randoms, es);
    CallsDistinct(s, es, es);
    RunEncoded(model, es, randoms, es, calls, responseId);
    BodyReads(s, es, es, calls, responseId);
    BodyParsed(s, es, calls, responseId);
    OpenFrames(model, es, randoms);
    ParsedStream(s, responseId);
    EndingObserved(ParseAll(NewParser(NO_NAMES), FrameMessages(Body(s), responseId)).events, s.rec.usage, "");
    BodyMedia(s, calls, responseId);
  }

  lemma {:induction false} BodyMedia(s: Stream.State, calls: seq<CallInfo>, responseId: string)
    requires FramesKnown(s, responseId)
    ensures NoMedia(QuietAll(Wires(calls, Body(s), responseId))) <==> LinkFree(s.model, s.rec.text, s.rec.reasoning)
  {
    TextOrTool(s, responseId);
    QuietMedia(calls, Body(s), responseId);
    AllIs(Body(s), Cleanness(responseId));
    if LinkFree(s.model, s.rec.text, s.rec.reasoning) {
      forall i | 0 <= i < |Body(s)|
        ensures CleanFrame(Body(s)[i], responseId)
      {
        if IsText(Body(s)[i]) {
          LinkFreeIsClean(s, responseId, Body(s)[i]);
        }
      }
    }
    if CleanFrames(Body(s), responseId) {
      CleanIsLinkFree(s, responseId);
    }
  }

  lemma TextOrTool(s: Stream.State, responseId: string)
    requires FramesKnown(s, responseId)
    ensures forall f | f in Body(s) :: IsText(f) || IsTool(f)
  {
    ToolFramesNotText(s.rec.tools);
    TextClosingSilent(s);
    Text.Regroup(s.written, TextClosing(s), Stream.FinishToolFrames(s.rec.tools));
    assert Body(s) == s.written + TextClosing(s) + Stream.FinishToolFrames(s.rec.tools);
    forall f | f in Body(s)
      ensures IsText(f) || IsTool(f)
    {
      if f in s.written {
        assert OpenFrame(f, s.model);
      }
    }
  }
}
