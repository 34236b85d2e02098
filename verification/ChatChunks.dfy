/**
 The chat mode of the streaming encoder, seen by a client that keeps a list of calls by index.

 A call is announced with its ID and name in the chunk that creates it and named by its index afterwards; the client
 refuses an index that is neither known nor the next one.
 */
module ChatChunks {
  import opened Events
  import Stream

  datatype Chunk =
    | Role(model: string)
    | Content(text: string)
    | Reasoning(text: string)
    | CallStart(index: nat, id: string, name: string, arguments: string)
    | CallDelta(index: nat, arguments: string)
    | Finish(reason: string, usage: Usage)
    | DoneMarker

  datatype State = State(rec: Stream.Recorder, written: seq<Chunk>)

  /**
   chatEvent: the chunk written after an event has been recorded; `k` is the tool of a call, `isNew` whether the event
   created it.
   */
  function ChatEvent(rec: Stream.Recorder, e: Event, k: nat, isNew: bool): seq<Chunk>
    requires e.ToolCall? ==> k < |rec.tools|
  {
    match e
    case TextDelta(t) => [Content(t)]
    case ReasoningDelta(t) => [Reasoning(t)]
    case Image(_) => [Content(MediaText(e))]
    case Video(_) => [Content(MediaText(e))]
    case ToolCall(_, _, _, arguments, _) =>
      if isNew then [CallStart(k, rec.tools[k].id, rec.tools[k].name, arguments)] else [CallDelta(k, arguments)]
    case _ => []
  }

  function Handle(s: State, e: Event, random: string): (r: State)
    requires s.rec.Valid()
    ensures r.rec.Valid()
  {
    var k := if e.ToolCall? then Stream.ToolIndex(s.rec, e) else 0;
    var rec := Stream.Record(s.rec, e, random);
    State(rec, s.written + ChatEvent(rec, e, k, e.ToolCall? && Stream.ToolKey(e) !in s.rec.byKey))
  }

  function Run(model: string, es: seq<Event>, randoms: seq<string>): (s: State)
    requires |randoms| == |es|
    ensures s.rec.Valid()
  {
    if es == [] then State(Stream.Recorder("", "", [], map[], NO_USAGE, false), [Role(model)])
    else Handle(Run(model, es[..|es| - 1], randoms[..|es| - 1]), es[|es| - 1], randoms[|es| - 1])
  }

  function FinishReason(rec: Stream.Recorder): (reason: string)
    ensures reason != ""
  {
    if rec.tools == [] then "stop" else "tool_calls"
  }

  function Finished(s: State): seq<Chunk> {
    s.written + [Finish(FinishReason(s.rec), s.rec.usage), DoneMarker]
  }

  // ---- the client ----

  datatype Call = Call(id: string, name: string, arguments: string)

  datatype Client = Reject | Reading(text: string, reasoning: string, calls: seq<Call>, reason: string, usage: Usage,
                                     closed: bool)

  function Read(c: Client, f: Chunk): Client {
    if c.Reject? || c.closed then Reject else
    match f
    case Role(_) => c
    case DoneMarker => c.(closed := true)
    case Finish(reason, usage) => if c.reason == "" then c.(reason := reason, usage := usage) else Reject
    case Content(t) => if c.reason == "" then c.(text := c.text + t) else Reject
    case Reasoning(t) => if c.reason == "" then c.(reasoning := c.reasoning + t) else Reject
    case CallStart(k, id, name, arguments) =>
      if c.reason == "" && k == |c.calls| then c.(calls := c.calls + [Call(id, name, arguments)]) else Reject
    case CallDelta(k, arguments) =>
      if c.reason == "" && k < |c.calls|
      then c.(calls := c.calls[k := c.calls[k].(arguments := c.calls[k].arguments + arguments)])
      else Reject
  }

  function ReadAll(fs: seq<Chunk>): Client {
    if fs == [] then Reading("", "", [], "", NO_USAGE, false) else Read(ReadAll(fs[..|fs| - 1]), fs[|fs| - 1])
  }

  lemma {:induction false} ReadAppend(fs: seq<Chunk>, f: Chunk)
    ensures ReadAll(fs + [f]) == Read(ReadAll(fs), f)
  {
    assert (fs + [f])[..|fs|] == fs;
  }

  /** The calls of the client, in order, are the tools under their IDs, named as `names` says. */
  predicate SameCalls(calls: seq<Call>, tools: seq<Stream.Tool>, names: seq<string>) {
    && |calls| == |tools| == |names|
    && forall k | 0 <= k < |tools| :: calls[k] == Call(tools[k].id, names[k], tools[k].arguments)
  }

  predicate Follows(c: Client, rec: Stream.Recorder, names: seq<string>) {
    && c.Reading? && !c.closed && c.reason == "" && c.text == rec.text && c.reasoning == rec.reasoning
    && SameCalls(c.calls, rec.tools, names)
  }

  /** The event creates a tool. */
  predicate Creates(s: State, e: Event)
    requires s.rec.Valid()
  {
    e.ToolCall? && Stream.ToolKey(e) !in s.rec.byKey
  }

  /** The names carried by the events that create the tools. */
  function FirstNames(model: string, es: seq<Event>, randoms: seq<string>): seq<string>
    requires |randoms| == |es|
  {
    if es == [] then [] else
    var init, rs, e := es[..|es| - 1], randoms[..|es| - 1], es[|es| - 1];
    FirstNames(model, init, rs) + if Creates(Run(model, init, rs), e) then [e.name] else []
  }

  lemma NewCallKeeps(s: State, e: Event, random: string, names: seq<string>)
    requires s.rec.Valid() && Creates(s, e) && Follows(ReadAll(s.written), s.rec, names)
    ensures var r := Handle(s, e, random); Follows(ReadAll(r.written), r.rec, names + [e.name])
  {
    var k, r := Stream.ToolIndex(s.rec, e), Handle(s, e, random);
    var t := Stream.UpdatedTool(Stream.NewTool(s.rec, e, random), e);
    assert r.rec.tools == s.rec.tools + [t];
    assert t.arguments == e.arguments && t.name == e.name;
    ReadAppend(s.written, CallStart(k, t.id, t.name, e.arguments));
  }

  lemma KnownCallKeeps(s: State, e: Event, random: string, names: seq<string>)
    requires s.rec.Valid() && e.ToolCall? && !Creates(s, e) && Follows(ReadAll(s.written), s.rec, names)
    ensures var r := Handle(s, e, random); Follows(ReadAll(r.written), r.rec, names)
  {
    var k, r := Stream.ToolIndex(s.rec, e), Handle(s, e, random);
    assert r.rec.tools == s.rec.tools[k := Stream.UpdatedTool(s.rec.tools[k], e)];
    ReadAppend(s.written, CallDelta(k, e.arguments));
  }

  lemma ContentKeeps(s: State, e: Event, random: string, names: seq<string>)
    requires s.rec.Valid() && (e.TextDelta? || e.Image? || e.Video?) && Follows(ReadAll(s.written), s.rec, names)
    ensures var r := Handle(s, e, random); Follows(ReadAll(r.written), r.rec, names)
  {
    var t := if e.TextDelta? then e.text else MediaText(e);
    ContentHandled(s, e, random, t);
    ReadAppend(s.written, Content(t));
  }

  lemma ContentHandled(s: State, e: Event, random: string, t: string)
    requires s.rec.Valid() && ((e.TextDelta? && t == e.text) || ((e.Image? || e.Video?) && t == MediaText(e)))
    ensures Handle(s, e, random) == State(s.rec.(text := s.rec.text + t), s.written + [Content(t)])
  {
  }

  lemma ReasoningKeeps(s: State, e: Event, random: string, names: seq<string>)
    requires s.rec.Valid() && e.ReasoningDelta? && Follows(ReadAll(s.written), s.rec, names)
    ensures var r := Handle(s, e, random); Follows(ReadAll(r.written), r.rec, names)
  {
    ReadAppend(s.written, Reasoning(e.text));
  }

  lemma SilentKeeps(s: State, e: Event, random: string, names: seq<string>)
    requires s.rec.Valid() && (e.UsageReport? || e.Error? || e.Done?) && Follows(ReadAll(s.written), s.rec, names)
    ensures var r := Handle(s, e, random); Follows(ReadAll(r.written), r.rec, names)
  {
    SilentHandled(s, e, random);
  }

  lemma SilentHandled(s: State, e: Event, random: string)
    requires s.rec.Valid() && (e.UsageReport? || e.Error? || e.Done?)
    ensures var r := Handle(s, e, random);
            && r.written == s.written && r.rec.text == s.rec.text && r.rec.reasoning == s.rec.reasoning &&
               r.rec.tools == s.rec.tools
  {
    assert s.written + [] == s.written;
  }

  lemma HandleKeeps(s: State, e: Event, random: string, names: seq<string>)
    requires s.rec.Valid() && Follows(ReadAll(s.written), s.rec, names)
    ensures var r := Handle(s, e, random);
            Follows(ReadAll(r.written), r.rec, if Creates(s, e) then names + [e.name] else names)
  {
    if e.ToolCall? {
      if Creates(s, e) {
        NewCallKeeps(s, e, random, names);
      } else {
        KnownCallKeeps(s, e, random, names);
      }
    } else if e.TextDelta? || e.Image? || e.Video? {
      ContentKeeps(s, e, random, names);
    } else if e.ReasoningDelta? {
      ReasoningKeeps(s, e, random, names);
    } else {
      SilentKeeps(s, e, random, names);
    }
  }

  lemma {:induction false} ReachableChat(model: string, es: seq<Event>, randoms: seq<string>)
    requires |randoms| == |es|
    ensures var s := Run(model, es, randoms); Follows(ReadAll(s.written), s.rec, FirstNames(model, es, randoms))
  {
    if es == [] {
      ReadAppend([], Role(model));
    } else {
      var init, rs, e := es[..|es| - 1], randoms[..|es| - 1], es[|es| - 1];
      ReachableChat(model, init, rs);
      HandleKeeps(Run(model, init, rs), e, randoms[|es| - 1], FirstNames(model, init, rs));
      assert FirstNames(model, init, rs) + [] == FirstNames(model, init, rs);
    }
  }

  /**
   The client accepts every finished chat stream; the content and reasoning chunks add up to the recorded text and
   reasoning, the chunks of call k to the arguments of tool k under its ID and the name of the event that created it,
   and the finish reason tells whether there were calls.
   */
  lemma {:induction false} ClientAccepts(model: string, es: seq<Event>, randoms: seq<string>)
    requires |randoms| == |es|
    ensures var s := Run(model, es, randoms);
            var c := ReadAll(Finished(s));
            && c.Reading? && c.closed && c.text == s.rec.text && c.reasoning == s.rec.reasoning &&
               c.usage == s.rec.usage
            && SameCalls(c.calls, s.rec.tools, FirstNames(model, es, randoms)) &&
               c.reason == if s.rec.tools == [] then "stop" else "tool_calls"
  {
    ReachableChat(model, es, randoms);
    FinishReads(Run(model, es, randoms), FirstNames(model, es, randoms));
  }

  lemma FinishReads(s: State, names: seq<string>)
    requires Follows(ReadAll(s.written), s.rec, names)
    ensures ReadAll(Finished(s)) ==
            ReadAll(s.written).(reason := FinishReason(s.rec), usage := s.rec.usage, closed := true)
  {
    var last := Finish(FinishReason(s.rec), s.rec.usage);
    ReadAppend(s.written, last);
    ReadAppend(s.written + [last], DoneMarker);
    assert Finished(s) == s.written + [last] + [DoneMarker];
  }

  /** Chat and Responses streams record the same answer. */
  lemma {:induction false} RecordsAsResponses(model: string, es: seq<Event>, randoms: seq<string>)
    requires |randoms| == |es|
    ensures Stream.SameRecord(Run(model, es, randoms).rec, Stream.Run(Stream.Responses, model, es, randoms).rec)
  {
    if es != [] {
      var init, rs := es[..|es| - 1], randoms[..|es| - 1];
      RecordsAsResponses(model, init, rs);
      var a, b := Run(model, init, rs), Stream.Run(Stream.Responses, model, init, rs);
      Stream.SameRecordStep(a.rec, b.rec, es[|es| - 1], randoms[|es| - 1]);
      Stream.HandleRecords(b, es[|es| - 1], randoms[|es| - 1]);
      Stream.SameRecordTrans(Run(model, es, randoms).rec, Stream.Record(b.rec, es[|es| - 1], randoms[|es| - 1]),
                             Stream.Run(Stream.Responses, model, es, randoms).rec);
    }
  }
}
