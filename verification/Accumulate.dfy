/** The non-streaming consumer, and its agreement with the streaming one. */
module Accumulate {
  import opened Options
  import opened Events
  import Text
  import Stream

  datatype Call = Call(id: string, name: string, arguments: string, index: int)

  datatype Accumulated = Accumulated(
    text: string, reasoning: string, tools: seq<Call>, images: seq<string>, videos: seq<string>,
    usage: Usage, usageSeen: bool, err: Option<string>)

  const EMPTY := Accumulated("", "", [], [], [], NO_USAGE, false, None)

  function AppendUnique(values: seq<string>, value: string): seq<string> {
    if value in values then values else values + [value]
  }

  function CallId(e: Event): string
    requires e.ToolCall?
  {
    if e.id != "" then e.id else "call_" + Text.Decimal(if e.index < 0 then 0 else e.index)
  }

  predicate Matches(c: Call, e: Event)
    requires e.ToolCall?
  {
    c.id == CallId(e) || (e.id == "" && c.index == e.index)
  }

  function Extended(c: Call, e: Event): Call
    requires e.ToolCall?
  {
    c.(name := if e.name != "" then e.name else c.name, arguments := c.arguments + e.arguments)
  }

  /** The first matching call is extended; otherwise a call is appended. */
  function AddTool(tools: seq<Call>, e: Event): seq<Call>
    requires e.ToolCall?
  {
    if tools == [] then [Call(CallId(e), e.name, e.arguments, e.index)]
    else if Matches(tools[0], e) then [Extended(tools[0], e)] + tools[1..]
    else [tools[0]] + AddTool(tools[1..], e)
  }

  function Add(a: Accumulated, e: Event): Accumulated {
    match e
    case TextDelta(t) => a.(text := a.text + t)
    case ReasoningDelta(t) => a.(reasoning := a.reasoning + t)
    case ToolCall(_, _, _, _, _) => a.(tools := AddTool(a.tools, e))
    case Image(url) => if url != "" then a.(images := AppendUnique(a.images, url)) else a
    case Video(url) => if url != "" then a.(videos := AppendUnique(a.videos, url)) else a
    case UsageReport(u) => a.(usage := u, usageSeen := true)
    case Error(message) => a.(err := Some(message))
    case Done => a
  }

  function AddAll(es: seq<Event>): Accumulated {
    if es == [] then EMPTY else Add(AddAll(es[..|es| - 1]), es[|es| - 1])
  }

  function StopReason(a: Accumulated): string {
    if |a.tools| > 0 then "tool_use" else "end_turn"
  }

  predicate NamedCalls(es: seq<Event>) {
    forall e | e in es && e.ToolCall? :: e.id != ""
  }

  // ---- what the accumulator computes ----

  predicate Observed(tools: seq<Call>, es: seq<Event>) {
    |tools| == |CallIds(es)| &&
    forall k | 0 <= k < |tools| ::
      tools[k].id == CallIds(es)[k] && tools[k].arguments == ArgumentsOf(es, CallIds(es)[k]) &&
      tools[k].name == NameOf(es, CallIds(es)[k])
  }

  /** The first matching entry is the one that changes; without one a call is added. */
  lemma {:induction false} AddToolFirst(tools: seq<Call>, e: Event, k: nat)
    requires e.ToolCall? && k <= |tools|
    requires forall j | 0 <= j < k :: !Matches(tools[j], e)
    requires k < |tools| ==> Matches(tools[k], e)
    ensures AddTool(tools, e) ==
            if k < |tools| then tools[k := Extended(tools[k], e)]
               else tools + [Call(CallId(e), e.name, e.arguments, e.index)]
  {
    if tools != [] && k > 0 {
      AddToolFirst(tools[1..], e, k - 1);
    }
  }

  // ---- calls without an ID ----

  /**
   The call an event is added to: the first that has its ID or, for an event without one, its index; else a new call.
   */
  function ResolvedId(tools: seq<Call>, e: Event): string
    requires e.ToolCall?
  {
    if tools == [] then CallId(e) else if Matches(tools[0], e) then tools[0].id else ResolvedId(tools[1..], e)
  }

  function ResolvedEvent(tools: seq<Call>, e: Event): Event {
    if e.ToolCall? then e.(id := ResolvedId(tools, e)) else e
  }

  /** The events with the ID of the call each is added to. */
  function Resolved(es: seq<Event>): seq<Event> {
    if es == [] then [] else
    var init, e := es[..|es| - 1], es[|es| - 1];
    Resolved(init) + [ResolvedEvent(AddAll(init).tools, e)]
  }

  predicate ProperIds(tools: seq<Call>) {
    && (forall k | 0 <= k < |tools| :: tools[k].id != "")
    && (forall j, k | 0 <= j < k < |tools| :: tools[j].id != tools[k].id)
  }

  lemma CallIdNonEmpty(e: Event)
    requires e.ToolCall?
    ensures CallId(e) != ""
  {
  }

  lemma {:induction false} ResolvedIdIs(tools: seq<Call>, e: Event)
    requires e.ToolCall? && ProperIds(tools)
    ensures ResolvedId(tools, e) != ""
    ensures ResolvedId(tools, e) == CallId(e) || exists k | 0 <= k < |tools| :: tools[k].id == ResolvedId(tools, e)
  {
    CallIdNonEmpty(e);
    if tools != [] && !Matches(tools[0], e) {
      ResolvedIdIs(tools[1..], e);
      if ResolvedId(tools, e) != CallId(e) {
        var k :| 0 <= k < |tools[1..]| && tools[1..][k].id == ResolvedId(tools, e);
        assert tools[k + 1].id == ResolvedId(tools, e);
      }
    }
  }

  /** Resolving the ID of an event does not change where it is added. */
  lemma {:induction false} AddResolved(tools: seq<Call>, e: Event)
    requires e.ToolCall? && ProperIds(tools)
    ensures AddTool(tools, ResolvedEvent(tools, e)) == AddTool(tools, e)
  {
    ResolvedIdIs(tools, e);
    if tools != [] && !Matches(tools[0], e) {
      AddResolved(tools[1..], e);
      ResolvedIdIs(tools[1..], e);
      assert tools[0].id != ResolvedId(tools[1..], e) by {
        if ResolvedId(tools[1..], e) != CallId(e) {
          var k :| 0 <= k < |tools[1..]| && tools[1..][k].id == ResolvedId(tools[1..], e);
          assert tools[k + 1].id == tools[1..][k].id;
        }
      }
    }
  }

  lemma {:induction false} ResolvedNamed(tools: seq<Call>, e: Event)
    requires e.ToolCall? && e.id != ""
    ensures ResolvedId(tools, e) == e.id
  {
    if tools != [] {
      ResolvedNamed(tools[1..], e);
    }
  }

  lemma NamedInit(es: seq<Event>)
    requires es != [] && NamedCalls(es)
    ensures var init, e := es[..|es| - 1], es[|es| - 1]; NamedCalls(init) && (e.ToolCall? ==> e.id != "")
  {
    assert es[|es| - 1] in es && forall f | f in es[..|es| - 1] :: f in es;
  }

  lemma NamedStays(tools: seq<Call>, e: Event)
    requires e.ToolCall? ==> e.id != ""
    ensures ResolvedEvent(tools, e) == e
  {
    if e.ToolCall? {
      ResolvedNamed(tools, e);
    }
  }

  /** Events that carry their IDs stay as they are. */
  lemma {:induction false} NamedStay(es: seq<Event>)
    requires NamedCalls(es)
    ensures Resolved(es) == es
  {
    if es != [] {
      var init, e := es[..|es| - 1], es[|es| - 1];
      NamedInit(es);
      NamedStay(init);
      NamedStays(AddAll(init).tools, e);
      assert init + [e] == es;
    }
  }

  // ---- the accumulator collects the observations ----

  lemma ObservedIds(tools: seq<Call>, es: seq<Event>)
    requires Observed(tools, es) && NamedCalls(es)
    ensures ProperIds(tools)
  {
    CallIdsDistinct(es);
    forall k | 0 <= k < |tools|
      ensures tools[k].id != ""
    {
      SomeCall(es, CallIds(es)[k]);
    }
  }

  lemma {:induction false} SomeCall(es: seq<Event>, id: string)
    requires id in CallIds(es)
    ensures exists e :: e in es && e.ToolCall? && e.id == id
  {
    var init, e := es[..|es| - 1], es[|es| - 1];
    if id in CallIds(init) {
      SomeCall(init, id);
      var f :| f in init && f.ToolCall? && f.id == id;
      assert f in es;
    } else {
      assert e in es;
    }
  }

  /**
   The accumulator collects exactly the text, the reasoning, the usage and the ordered calls of the events, an event
   without an ID counting for the call it resolves to.
   */
  lemma {:induction false} AccumulatesObservations(es: seq<Event>)
    ensures var a := AddAll(es);
            && a.text == TextOf(es) && a.reasoning == ReasoningOf(es) && a.usage == UsageOf(es)
            && NamedCalls(Resolved(es)) && Observed(a.tools, Resolved(es))
  {
    AnswersObserved(es);
    CallsObserved(es);
  }

  lemma {:induction false} AnswersObserved(es: seq<Event>)
    ensures var a := AddAll(es); a.text == TextOf(es) && a.reasoning == ReasoningOf(es) && a.usage == UsageOf(es)
  {
    if es != [] {
      AnswersObserved(es[..|es| - 1]);
    }
  }

  lemma {:induction false} CallsObserved(es: seq<Event>)
    ensures NamedCalls(Resolved(es)) && Observed(AddAll(es).tools, Resolved(es))
  {
    if es == [] {
      assert Resolved(es) == [];
    } else {
      var init, e := es[..|es| - 1], es[|es| - 1];
      CallsObserved(init);
      AddObserved(AddAll(init), Resolved(init), e);
      assert Resolved(es) == Resolved(init) + [ResolvedEvent(AddAll(init).tools, e)] &&
             AddAll(es) == Add(AddAll(init), e);
    }
  }

  /** One more event, with the ID it resolves to. */
  lemma AddObserved(a: Accumulated, named: seq<Event>, e: Event)
    requires NamedCalls(named) && Observed(a.tools, named)
    ensures var f := ResolvedEvent(a.tools, e);
            NamedCalls(named + [f]) && Observed(Add(a, e).tools, named + [f])
  {
    if e.ToolCall? {
      ObservedIds(a.tools, named);
      ResolvedIdIs(a.tools, e);
      AddResolved(a.tools, e);
      ObserveCall(a.tools, named, ResolvedEvent(a.tools, e));
    } else {
      ObserveOther(a.tools, named, e);
    }
  }

  lemma {:induction false} AccumulatesNamed(es: seq<Event>)
    requires NamedCalls(es)
    ensures var a := AddAll(es);
            && a.text == TextOf(es) && a.reasoning == ReasoningOf(es) && a.usage == UsageOf(es) && Observed(a.tools, es)
  {
    AccumulatesObservations(es);
    NamedStay(es);
  }

  lemma ObserveOther(tools: seq<Call>, es: seq<Event>, e: Event)
    requires !e.ToolCall? && Observed(tools, es)
    ensures Observed(tools, es + [e])
  {
    assert (es + [e])[..|es|] == es;
  }

  lemma {:induction false} ObserveCall(tools: seq<Call>, es: seq<Event>, e: Event)
    requires e.ToolCall? && e.id != "" && Observed(tools, es)
    ensures Observed(AddTool(tools, e), es + [e])
  {
    CallIdsDistinct(es);
    if e.id in CallIds(es) {
      var k :| 0 <= k < |CallIds(es)| && CallIds(es)[k] == e.id;
      ObserveKnown(tools, es, e, k);
    } else {
      ObserveNew(tools, es, e);
    }
  }

  lemma {:induction false} ObserveKnown(tools: seq<Call>, es: seq<Event>, e: Event, k: nat)
    requires e.ToolCall? && e.id != "" && Observed(tools, es) && k < |CallIds(es)| && CallIds(es)[k] == e.id
    requires forall i, j | 0 <= i < j < |CallIds(es)| :: CallIds(es)[i] != CallIds(es)[j]
    ensures Observed(AddTool(tools, e), es + [e])
  {
    AddToolFirst(tools, e, k);
    CallAppended(es, e, e.id);
    forall j | 0 <= j < |tools|
      ensures ArgumentsOf(es + [e], CallIds(es)[j]) ==
              ArgumentsOf(es, CallIds(es)[j]) + if j == k then e.arguments else ""
      ensures NameOf(es + [e], CallIds(es)[j]) == if j == k && e.name != "" then e.name else NameOf(es, CallIds(es)[j])
    {
      CallAppended(es, e, CallIds(es)[j]);
    }
  }

  lemma {:induction false} ObserveNew(tools: seq<Call>, es: seq<Event>, e: Event)
    requires e.ToolCall? && e.id != "" && Observed(tools, es) && e.id !in CallIds(es)
    ensures Observed(AddTool(tools, e), es + [e])
  {
    UnseenCall(es, e.id);
    AddToolFirst(tools, e, |tools|);
    CallAppended(es, e, e.id);
    var after, ids := AddTool(tools, e), CallIds(es + [e]);
    forall j | 0 <= j < |after|
      ensures after[j].id == ids[j] && after[j].arguments == ArgumentsOf(es + [e], ids[j]) &&
              after[j].name == NameOf(es + [e], ids[j])
    {
      CallAppended(es, e, ids[j]);
      if j < |tools| {
        assert after[j] == tools[j] && ids[j] == CallIds(es)[j];
      }
    }
  }

  // ---- the streaming consumer collects the same ----

  /** Calls carry IDs, and no item ID is the ID of another call. */
  predicate CleanIds(es: seq<Event>) {
    && NamedCalls(es)
    && forall e, f | e in es && f in es && e.ToolCall? && f.ToolCall? && e.itemId == f.id :: e.id == f.id
  }

  predicate Routes(r: Stream.Recorder, all: seq<Event>) {
    && Stream.IdsBound(r)
    && forall e | e in all && e.ToolCall? && e.id in r.byKey :: r.tools[r.byKey[e.id]].id == e.id
  }

  predicate StreamObserved(tools: seq<Stream.Tool>, es: seq<Event>) {
    |tools| == |CallIds(es)| &&
    forall k | 0 <= k < |tools| ::
      tools[k].id == CallIds(es)[k] && tools[k].arguments == ArgumentsOf(es, CallIds(es)[k]) &&
      tools[k].name == NameOf(es, CallIds(es)[k])
  }

  lemma RecordRoutes(r: Stream.Recorder, e: Event, random: string, all: seq<Event>)
    requires Routes(r, all) && CleanIds(all) && e in all
    ensures Routes(Stream.Record(r, e, random), all)
  {
    Stream.RecordKeepsIds(r, e, random);
    var q := Stream.Record(r, e, random);
    forall f | f in all && f.ToolCall? && f.id in q.byKey
      ensures q.tools[q.byKey[f.id]].id == f.id
    {
      assert e.ToolCall? && e.itemId == f.id ==> e.id == f.id;
    }
  }

  lemma StreamObserveCall(r: Stream.Recorder, es: seq<Event>, e: Event, random: string, all: seq<Event>)
    requires Routes(r, all) && CleanIds(all) && e in all && e.ToolCall? && StreamObserved(r.tools, es)
    ensures StreamObserved(Stream.Record(r, e, random).tools, es + [e])
  {
    var ids := CallIds(es);
    var ts := Stream.Record(r, e, random).tools;
    assert Stream.ToolKey(e) == e.id;
    if e.id in r.byKey {
      StreamObserveKnown(r.tools, ts, es, e, r.byKey[e.id]);
    } else {
      forall k | 0 <= k < |ids|
        ensures ids[k] != e.id
      {
        assert r.tools[k].id in r.byKey;
      }
      StreamObserveNew(r.tools, ts, es, e);
    }
  }

  /** A call that was seen before gets one more fragment. */
  lemma StreamObserveKnown(tools: seq<Stream.Tool>, after: seq<Stream.Tool>, es: seq<Event>, e: Event, k: nat)
    requires e.ToolCall? && StreamObserved(tools, es) && k < |tools| == |after| && tools[k].id == e.id
    requires forall j | 0 <= j < |tools| && j != k :: after[j] == tools[j]
    requires after[k].id == e.id && after[k].arguments == tools[k].arguments + e.arguments
    requires after[k].name == if e.name != "" then e.name else tools[k].name
    ensures StreamObserved(after, es + [e])
  {
    CallIdsDistinct(es);
    assert CallIds(es)[k] == e.id;
    CallAppended(es, e, e.id);
    forall j | 0 <= j < |after|
      ensures after[j].arguments == ArgumentsOf(es + [e], CallIds(es)[j]) &&
              after[j].name == NameOf(es + [e], CallIds(es)[j])
    {
      CallAppended(es, e, CallIds(es)[j]);
    }
  }

  lemma {:induction false} StreamObserveNew(tools: seq<Stream.Tool>, after: seq<Stream.Tool>, es: seq<Event>, e: Event)
    requires e.ToolCall? && StreamObserved(tools, es) && e.id !in CallIds(es)
    requires |after| == |tools| + 1 && after[..|tools|] == tools
    requires after[|tools|].id == e.id && after[|tools|].arguments == e.arguments && after[|tools|].name == e.name
    ensures StreamObserved(after, es + [e])
  {
    UnseenCall(es, e.id);
    CallAppended(es, e, e.id);
    var ids := CallIds(es + [e]);
    forall j | 0 <= j < |after|
      ensures after[j].id == ids[j] && after[j].arguments == ArgumentsOf(es + [e], ids[j]) &&
              after[j].name == NameOf(es + [e], ids[j])
    {
      CallAppended(es, e, ids[j]);
      if j < |tools| {
        assert after[j] == after[..|tools|][j] && ids[j] == CallIds(es)[j];
      }
    }
  }

  /** The recorder holds the observations of the events so far. */
  predicate Follows(r: Stream.Recorder, es: seq<Event>, all: seq<Event>) {
    && Routes(r, all) && r.text == TextOf(es) && r.reasoning == ReasoningOf(es) && r.usage == UsageOf(es)
    && r.usageSeen == AddAll(es).usageSeen && StreamObserved(r.tools, es)
  }

  lemma StreamObserveOther(tools: seq<Stream.Tool>, es: seq<Event>, e: Event)
    requires !e.ToolCall? && StreamObserved(tools, es)
    ensures StreamObserved(tools, es + [e])
  {
    assert (es + [e])[..|es|] == es;
  }

  lemma {:induction false} RecordAnswers(r: Stream.Recorder, es: seq<Event>, e: Event, random: string)
    requires r.text == TextOf(es) && r.reasoning == ReasoningOf(es) && r.usage == UsageOf(es)
    requires r.usageSeen == AddAll(es).usageSeen && !e.Image? && !e.Video? && r.Valid()
    ensures var q := Stream.Record(r, e, random);
            && q.text == TextOf(es + [e]) && q.reasoning == ReasoningOf(es + [e]) && q.usage == UsageOf(es + [e])
            && q.usageSeen == AddAll(es + [e]).usageSeen
  {
    assert (es + [e])[..|es|] == es;
  }

  lemma RecordFollows(r: Stream.Recorder, es: seq<Event>, e: Event, random: string, all: seq<Event>)
    requires Follows(r, es, all) && CleanIds(all) && NoMedia(all) && e in all
    ensures Follows(Stream.Record(r, e, random), es + [e], all)
  {
    RecordRoutes(r, e, random, all);
    if e.ToolCall? {
      StreamObserveCall(r, es, e, random, all);
    } else {
      StreamObserveOther(r.tools, es, e);
    }
    RecordAnswers(r, es, e, random);
  }

  lemma {:induction false} StreamObserves(operation: Stream.Operation, model: string, es: seq<Event>,
                                          randoms: seq<string>, all: seq<Event>)
    requires |randoms| == |es| && CleanIds(all) && NoMedia(all) && forall e | e in es :: e in all
    ensures Follows(Stream.Run(operation, model, es, randoms).rec, es, all)
  {
    if es != [] {
      var init, e, random := es[..|es| - 1], es[|es| - 1], randoms[|es| - 1];
      StreamObserves(operation, model, init, randoms[..|es| - 1], all);
      var s := Stream.Run(operation, model, init, randoms[..|es| - 1]);
      RecordFollows(s.rec, init, e, random, all);
      assert init + [e] == es;
      Stream.HandleRecords(s, e, random);
      SameRecorded(Stream.Record(s.rec, e, random), Stream.Handle(s, e, random).rec, es, all);
    }
  }

  lemma SameRecorded(r: Stream.Recorder, h: Stream.Recorder, es: seq<Event>, all: seq<Event>)
    requires Routes(r, all) && StreamObserved(r.tools, es) && h.byKey == r.byKey && |h.tools| == |r.tools|
    requires forall k | 0 <= k < |r.tools| :: h.tools[k].(outputIndex := -1) == r.tools[k].(outputIndex := -1)
    ensures Routes(h, all) && StreamObserved(h.tools, es)
  {
    forall k | 0 <= k < |h.tools|
      ensures h.tools[k].id == r.tools[k].id && h.tools[k].arguments == r.tools[k].arguments &&
              h.tools[k].name == r.tools[k].name
    {
      assert h.tools[k].(outputIndex := -1) == r.tools[k].(outputIndex := -1);
    }
  }

  /**
   Streaming and non-streaming agree: for a media-free event list with clean IDs, in either mode, both consumers end
   with the same text, reasoning, usage, ordered tool list and stop reason.
   */
  lemma {:induction false} ConsumersAgree(operation: Stream.Operation, model: string, es: seq<Event>,
                                          randoms: seq<string>)
    requires |randoms| == |es| && CleanIds(es) && NoMedia(es)
    ensures var r, a := Stream.Run(operation, model, es, randoms).rec, AddAll(es);
            && r.text == a.text && r.reasoning == a.reasoning && r.usage == a.usage && r.usageSeen == a.usageSeen
            && Stream.StopReason(r) == StopReason(a)
            && |r.tools| == |a.tools|
            && forall k | 0 <= k < |r.tools| ::
                 r.tools[k].id == a.tools[k].id && r.tools[k].name == a.tools[k].name &&
                 r.tools[k].arguments == a.tools[k].arguments
  {
    AccumulatesNamed(es);
    StreamObserves(operation, model, es, randoms, es);
  }

  // ---- exactly when streaming and non-streaming agree ----

  predicate SameTool(t: Stream.Tool, c: Call) {
    t.id == c.id && t.name == c.name && t.arguments == c.arguments
  }

  predicate SameTools(tools: seq<Stream.Tool>, calls: seq<Call>) {
    |tools| == |calls| && forall k | 0 <= k < |tools| :: SameTool(tools[k], calls[k])
  }

  /** The stream leads the event to a tool with another ID, that of an earlier call whose item ID it shares. */
  predicate Astray(r: Stream.Recorder, e: Event)
    requires r.Valid()
  {
    e.ToolCall? && e.id in r.byKey && r.tools[r.byKey[e.id]].id != e.id
  }

  /** The tool the event belongs to is known, and the event changes neither that tool nor the one it is led to. */
  predicate Harmless(r: Stream.Recorder, e: Event)
    requires r.Valid() && Astray(r, e)
  {
    && e.arguments == ""
    && exists k | 0 <= k < |r.tools| ::
         && r.tools[k].id == e.id
         && (e.name == "" || (r.tools[k].name == e.name && r.tools[r.byKey[e.id]].name == e.name))
  }

  /** The event is recorded where it belongs, or it does not matter. */
  predicate WellLed(r: Stream.Recorder, e: Event)
    requires r.Valid()
  {
    Astray(r, e) ==> Harmless(r, e)
  }

  /** The position of the call with this ID, or the end. */
  function Position(tools: seq<Stream.Tool>, id: string): (k: nat)
    ensures k <= |tools| && (k < |tools| ==> tools[k].id == id) && forall j | 0 <= j < k :: tools[j].id != id
  {
    if tools == [] || tools[0].id == id then 0 else Position(tools[1..], id) + 1
  }

  /** What the accumulator does with a named call, in terms of the same tools. */
  lemma {:induction false} AddedAtPosition(tools: seq<Stream.Tool>, calls: seq<Call>, e: Event)
    requires SameTools(tools, calls) && e.ToolCall? && e.id != ""
    ensures var k := Position(tools, e.id);
            AddTool(calls, e) == if k < |calls| then calls[k := Extended(calls[k], e)]
                                 else calls + [Call(e.id, e.name, e.arguments, e.index)]
  {
    var k := Position(tools, e.id);
    forall j | 0 <= j <= k && j < |calls|
      ensures calls[j].id == tools[j].id
    {
      assert SameTool(tools[j], calls[j]);
    }
    AddToolFirst(calls, e, k);
  }

  lemma {:induction false} StepAtHome(r: Stream.Recorder, calls: seq<Call>, e: Event, random: string)
    requires Stream.IdsBound(r) && SameTools(r.tools, calls) && e.ToolCall? && e.id != ""
    requires e.id in r.byKey && r.tools[r.byKey[e.id]].id == e.id
    ensures SameTools(Stream.Record(r, e, random).tools, AddTool(calls, e))
  {
    AddedAtPosition(r.tools, calls, e);
    var k, j := Position(r.tools, e.id), r.byKey[e.id];
    assert k == j;
    assert SameTool(r.tools[k], calls[k]);
  }

  lemma {:induction false} StepNew(r: Stream.Recorder, calls: seq<Call>, e: Event, random: string)
    requires Stream.IdsBound(r) && SameTools(r.tools, calls) && e.ToolCall? && e.id != "" && e.id !in r.byKey
    ensures SameTools(Stream.Record(r, e, random).tools, AddTool(calls, e))
  {
    AddedAtPosition(r.tools, calls, e);
    assert Position(r.tools, e.id) == |r.tools| == |calls|;
    var ts, cs := Stream.Record(r, e, random).tools, AddTool(calls, e);
    assert ts == r.tools + [Stream.UpdatedTool(Stream.NewTool(r, e, random), e)];
    forall k | 0 <= k < |ts|
      ensures SameTool(ts[k], cs[k])
    {
      assert k < |calls| ==> SameTool(r.tools[k], calls[k]);
    }
  }

  lemma {:induction false} StepAstray(r: Stream.Recorder, calls: seq<Call>, e: Event, random: string)
    requires Stream.IdsBound(r) && SameTools(r.tools, calls) && e.ToolCall? && e.id != "" && Astray(r, e)
    ensures SameTools(Stream.Record(r, e, random).tools, AddTool(calls, e)) <==> Harmless(r, e)
  {
    AddedAtPosition(r.tools, calls, e);
    var k, j := Position(r.tools, e.id), r.byKey[e.id];
    var ts, cs := Stream.Record(r, e, random).tools, AddTool(calls, e);
    assert ts == r.tools[j := Stream.UpdatedTool(r.tools[j], e)];
    if k < |calls| {
      AstrayKnown(r, calls, ts, cs, e, k);
    } else {
      assert |ts| != |cs|;
    }
  }

  lemma AstrayKnown(r: Stream.Recorder, calls: seq<Call>, ts: seq<Stream.Tool>, cs: seq<Call>, e: Event, k: nat)
    requires Stream.IdsBound(r) && SameTools(r.tools, calls) && Astray(r, e) && k < |calls| && r.tools[k].id == e.id
    requires ts == r.tools[r.byKey[e.id] := Stream.UpdatedTool(r.tools[r.byKey[e.id]], e)]
    requires cs == calls[k := Extended(calls[k], e)]
    ensures SameTools(ts, cs) <==> Harmless(r, e)
  {
    var j := r.byKey[e.id];
    assert SameTool(r.tools[k], calls[k]) && SameTool(r.tools[j], calls[j]);
    MovedApart(r.tools[k], calls[k], e);
    MovedAlone(r.tools[j], calls[j], e);
    TwoPlaces(r.tools, calls, ts, cs, j, k);
    HarmlessAt(r, e, k);
  }

  lemma HarmlessAt(r: Stream.Recorder, e: Event, k: nat)
    requires Stream.IdsBound(r) && Astray(r, e) && k < |r.tools| && r.tools[k].id == e.id
    ensures Harmless(r, e) <==>
            e.arguments == "" && (e.name == "" || (r.tools[k].name == e.name && r.tools[r.byKey[e.id]].name == e.name))
  {
    assert forall i | 0 <= i < |r.tools| && r.tools[i].id == e.id :: i == k;
  }

  /** Tools and calls that change at one place each. */
  lemma TwoPlaces(tools: seq<Stream.Tool>, calls: seq<Call>, ts: seq<Stream.Tool>, cs: seq<Call>, j: nat, k: nat)
    requires SameTools(tools, calls) && j < |tools| && k < |tools| && j != k
    requires |ts| == |tools| && |cs| == |calls|
    requires forall i | 0 <= i < |ts| && i != j :: ts[i] == tools[i]
    requires forall i | 0 <= i < |cs| && i != k :: cs[i] == calls[i]
    ensures SameTools(ts, cs) <==> SameTool(ts[j], calls[j]) && SameTool(tools[k], cs[k])
  {
    if SameTool(ts[j], calls[j]) && SameTool(tools[k], cs[k]) {
      forall i | 0 <= i < |ts|
        ensures SameTool(ts[i], cs[i])
      {
        assert SameTool(tools[i], calls[i]);
      }
    }
    if SameTools(ts, cs) {
      assert SameTool(ts[j], cs[j]) && SameTool(ts[k], cs[k]);
    }
  }

  lemma MovedApart(t: Stream.Tool, c: Call, e: Event)
    requires e.ToolCall? && SameTool(t, c)
    ensures SameTool(t, Extended(c, e)) <==> e.arguments == "" && (e.name == "" || t.name == e.name)
  {
    if e.arguments != "" {
      assert |c.arguments + e.arguments| > |c.arguments|;
    }
  }

  lemma MovedAlone(t: Stream.Tool, c: Call, e: Event)
    requires e.ToolCall? && SameTool(t, c)
    ensures SameTool(Stream.UpdatedTool(t, e), c) <==> e.arguments == "" && (e.name == "" || t.name == e.name)
  {
    if e.arguments != "" {
      assert |c.arguments + e.arguments| > |c.arguments|;
    }
  }

  /** One step keeps the tools the same exactly when its event is led well. */
  lemma {:induction false} StepAgrees(r: Stream.Recorder, calls: seq<Call>, e: Event, random: string)
    requires Stream.IdsBound(r) && SameTools(r.tools, calls) && e.ToolCall? && e.id != ""
    ensures SameTools(Stream.Record(r, e, random).tools, AddTool(calls, e)) <==> WellLed(r, e)
  {
    if e.id !in r.byKey {
      StepNew(r, calls, e, random);
    } else if r.tools[r.byKey[e.id]].id == e.id {
      StepAtHome(r, calls, e, random);
    } else {
      StepAstray(r, calls, e, random);
    }
  }

  /** The streaming and the non-streaming answer are the same. */
  predicate SameAnswer(r: Stream.Recorder, a: Accumulated) {
    && r.text == a.text && r.reasoning == a.reasoning && r.usage == a.usage && r.usageSeen == a.usageSeen
    && SameTools(r.tools, a.tools)
  }

  lemma AnswerStep(r: Stream.Recorder, a: Accumulated, e: Event, random: string)
    requires Stream.IdsBound(r) && SameAnswer(r, a) && !e.Image? && !e.Video? && (e.ToolCall? ==> e.id != "")
    ensures SameAnswer(Stream.Record(r, e, random), Add(a, e)) <==> WellLed(r, e)
  {
    if e.ToolCall? {
      StepAgrees(r, a.tools, e, random);
    }
  }

  lemma {:induction false} NamedIdsBound(es: seq<Event>, randoms: seq<string>)
    requires |randoms| == |es| && NamedCalls(es)
    ensures Stream.IdsBound(Stream.Recorded(es, randoms))
  {
    if es != [] {
      var n := |es| - 1;
      NamedInit(es);
      NamedIdsBound(es[..n], randoms[..n]);
      Stream.RecordKeepsIds(Stream.Recorded(es[..n], randoms[..n]), es[n], randoms[n]);
    }
  }

  /** Both consumers have the same answer after every event. */
  predicate AgreeThroughout(es: seq<Event>, randoms: seq<string>)
    requires |randoms| == |es|
  {
    forall i | 0 <= i <= |es| :: SameAnswer(Stream.Recorded(es[..i], randoms[..i]), AddAll(es[..i]))
  }

  /** Event i is led well by what was recorded before it. */
  predicate WellLedAt(es: seq<Event>, randoms: seq<string>, i: nat)
    requires |randoms| == |es| && i < |es|
  {
    WellLed(Stream.Recorded(es[..i], randoms[..i]), es[i])
  }

  predicate AllWellLed(es: seq<Event>, randoms: seq<string>)
    requires |randoms| == |es|
  {
    forall i | 0 <= i < |es| :: WellLedAt(es, randoms, i)
  }

  lemma {:induction false} AgreeLast(es: seq<Event>, randoms: seq<string>)
    requires |randoms| == |es| > 0
    ensures var n := |es| - 1;
            AgreeThroughout(es, randoms) <==>
            AgreeThroughout(es[..n], randoms[..n]) && SameAnswer(Stream.Recorded(es, randoms), AddAll(es))
  {
    var n := |es| - 1;
    assert es[..n + 1] == es && randoms[..n + 1] == randoms;
    assert forall i | 0 <= i <= n :: es[..i] == es[..n][..i] && randoms[..i] == randoms[..n][..i];
  }

  lemma WellLedBefore(es: seq<Event>, randoms: seq<string>, n: nat, i: nat)
    requires |randoms| == |es| && i < n <= |es|
    ensures WellLedAt(es, randoms, i) <==> WellLedAt(es[..n], randoms[..n], i)
  {
    assert es[..i] == es[..n][..i] && randoms[..i] == randoms[..n][..i] && es[i] == es[..n][i];
  }

  lemma {:induction false} WellLedLast(es: seq<Event>, randoms: seq<string>)
    requires |randoms| == |es| > 0
    ensures var n := |es| - 1;
            AllWellLed(es, randoms) <==> AllWellLed(es[..n], randoms[..n]) && WellLedAt(es, randoms, n)
  {
    var n := |es| - 1;
    forall i | 0 <= i < n
      ensures WellLedAt(es, randoms, i) <==> WellLedAt(es[..n], randoms[..n], i)
    {
      WellLedBefore(es, randoms, n, i);
    }
  }

  lemma {:induction false} RecordedAgreeIff(es: seq<Event>, randoms: seq<string>)
    requires |randoms| == |es| && NamedCalls(es) && NoMedia(es)
    ensures AgreeThroughout(es, randoms) <==> AllWellLed(es, randoms)
  {
    if es != [] {
      var n := |es| - 1;
      var init, rs := es[..n], randoms[..n];
      assert es[n] in es && forall e | e in init :: e in es;
      RecordedAgreeIff(init, rs);
      AgreeLast(es, randoms);
      WellLedLast(es, randoms);
      if AgreeThroughout(init, rs) {
        assert init[..n] == init && rs[..n] == rs;
        NamedIdsBound(init, rs);
        AnswerStep(Stream.Recorded(init, rs), AddAll(init), es[n], randoms[n]);
      }
    }
  }

  lemma SlotsDoNotMatter(r: Stream.Recorder, q: Stream.Recorder, a: Accumulated)
    requires Stream.SameRecord(r, q)
    ensures SameAnswer(r, a) <==> SameAnswer(q, a)
  {
    forall k | 0 <= k < |r.tools|
      ensures r.tools[k].id == q.tools[k].id && r.tools[k].name == q.tools[k].name
      ensures r.tools[k].arguments == q.tools[k].arguments
    {
      assert r.tools[k].(outputIndex := -1) == q.tools[k].(outputIndex := -1);
    }
  }

  /**
   For media-free events whose calls carry IDs, in either mode, streaming and non-streaming have the same text,
   reasoning, usage and ordered tool list after every event, if and only if no event is led astray in a way that shows.
   */
  lemma {:induction false} ConsumersAgreeIff(operation: Stream.Operation, model: string, es: seq<Event>,
                                            randoms: seq<string>)
    requires |randoms| == |es| && NamedCalls(es) && NoMedia(es)
    ensures (forall i | 0 <= i <= |es| ::
               SameAnswer(Stream.Run(operation, model, es[..i], randoms[..i]).rec, AddAll(es[..i]))) <==>
            AllWellLed(es, randoms)
  {
    RecordedAgreeIff(es, randoms);
    forall i | 0 <= i <= |es|
      ensures SameAnswer(Stream.Run(operation, model, es[..i], randoms[..i]).rec, AddAll(es[..i])) <==>
              SameAnswer(Stream.Recorded(es[..i], randoms[..i]), AddAll(es[..i]))
    {
      Stream.RunRecords(operation, model, es[..i], randoms[..i]);
      SlotsDoNotMatter(Stream.Run(operation, model, es[..i], randoms[..i]).rec,
                       Stream.Recorded(es[..i], randoms[..i]), AddAll(es[..i]));
    }
  }

  /** An event led astray that shows: an item ID equal to a later call's ID makes the stream merge the two calls. */
  lemma {:induction false} ItemIdCanMergeCalls(model: string, a: Event, b: Event)
    requires a == ToolCall("a", "b", "f", "", 0) && b == ToolCall("b", "c", "g", "", 1)
    ensures |Stream.Run(Stream.Messages, model, [a, b], ["", ""]).rec.tools| == 1 && |AddAll([a, b]).tools| == 2
  {
    TwoEvents(model, a, b);
    MergedInStream(model, a, b);
    KeptApart(a, b);
  }

  lemma {:induction false} TwoEvents(model: string, a: Event, b: Event)
    ensures Stream.Run(Stream.Messages, model, [a, b], ["", ""])
         == Stream.Handle(Stream.Handle(Stream.Start(Stream.Messages, model), a, ""), b, "")
  {
    assert [a, b][..1] == [a] && ["", ""][..1] == [""] && [a][..0] == [] && [""][..0] == [];
    assert Stream.Run(Stream.Messages, model, [], []) == Stream.Start(Stream.Messages, model);
  }

  lemma KeptApart(a: Event, b: Event)
    requires a == ToolCall("a", "b", "f", "", 0) && b == ToolCall("b", "c", "g", "", 1)
    ensures |AddAll([a, b]).tools| == 2
  {
    assert [a, b][..1] == [a] && [a][..0] == [];
    assert AddAll([a]).tools == [Call("a", "f", "", 0)] by {
      assert AddAll([]).tools == [];
    }
    assert "a"[0] != "b"[0];
  }

  lemma MergedInStream(model: string, a: Event, b: Event)
    requires a == ToolCall("a", "b", "f", "", 0) && b == ToolCall("b", "c", "g", "", 1)
    ensures var s := Stream.Handle(Stream.Start(Stream.Messages, model), a, "");
            |Stream.Handle(s, b, "").rec.tools| == 1
  {
    var s0 := Stream.Start(Stream.Messages, model);
    var s1 := Stream.Handle(s0, a, "");
    Stream.HandleRecords(s0, a, "");
    assert |s1.rec.tools| == 1 && "b" in s1.rec.byKey;
    Stream.HandleRecords(s1, b, "");
  }

  // ---- the object ----

  /** `accumulated`: fields and a list updated in place. */
  class Accumulator {
    var text: string
    var reasoning: string
    var tools: seq<Call>
    var images: seq<string>
    var videos: seq<string>
    var usage: Usage
    var usageSeen: bool
    var err: Option<string>

    ghost function Value(): Accumulated
      reads this
    {
      Accumulated(text, reasoning, tools, images, videos, usage, usageSeen, err)
    }

    constructor ()
      ensures Value() == EMPTY
    {
      text, reasoning, tools, images, videos, usage, usageSeen, err := "", "", [], [], [], NO_USAGE, false, None;
    }

    method AddEvent(e: Event)
      modifies this
      ensures Value() == Add(old(Value()), e)
    {
      match e
      case TextDelta(t) => text := text + t;
      case ReasoningDelta(t) => reasoning := reasoning + t;
      case ToolCall(_, _, _, _, _) => AddCall(e);
      case Image(url) => if url != "" { images := AppendUnique(images, url); }
      case Video(url) => if url != "" { videos := AppendUnique(videos, url); }
      case UsageReport(u) => usage, usageSeen := u, true;
      case Error(message) => err := Some(message);
      case Done =>
    }

    method AddCall(e: Event)
      requires e.ToolCall?
      modifies `tools
      ensures tools == AddTool(old(tools), e)
    {
      var id := CallId(e);
      for i := 0 to |tools|
        invariant tools == old(tools) && forall j | 0 <= j < i :: !Matches(tools[j], e)
      {
        if tools[i].id == id || (e.id == "" && tools[i].index == e.index) {
          AddToolFirst(tools, e, i);
          if e.name != "" {
            tools := tools[i := tools[i].(name := e.name)];
          }
          tools := tools[i := tools[i].(arguments := tools[i].arguments + e.arguments)];
          return;
        }
      }
      AddToolFirst(tools, e, |tools|);
      tools := tools + [Call(id, e.name, e.arguments, e.index)];
    }
  }
}
