/**
 Interleaved tool calls through the parser.

 Each call sends frames of its own: item added, argument deltas, arguments done, item done.  An automaton that sees
 the frames of one call only says what the parser should emit for it.  Theorem `CallsAreIndependent` says that, in any
 interleaving of calls and other payloads, the parser emits for every call exactly what its automaton says.
 */
module ParserCalls {
  import opened Options
  import opened Events
  import opened Parser

  datatype CallInfo = CallInfo(itemId: string, callId: string, slot: int)

  datatype CallFrame = Added(name: string) | Delta(text: string) | AllArguments(arguments: string)
                       | ItemClosed(name: string, arguments: string)

  datatype Wire = OnCall(c: nat, frame: CallFrame, payload: Payload) | Plain(payload: Payload)

  predicate ShowsItem(payload: Payload, info: CallInfo, name: string, arguments: string) {
    payload.item.Some? &&
    var i := payload.item.value;
    i.typ.FunctionCall? && i.id == Some(info.itemId) && i.callId == Some(info.callId) && Get(i.name) == name &&
    Get(i.arguments) == arguments
  }

  /** A payload is the given frame of the given call; identifying fields are absent or right. */
  predicate Shows(payload: Payload, info: CallInfo, frame: CallFrame) {
    && !payload.hasError
    && (payload.itemId.None? || payload.itemId == Some(info.itemId))
    && (payload.callId.None? || payload.callId == Some(info.callId))
    && (payload.outputIndex.None? || payload.outputIndex == Some(info.slot))
    && match frame
       case Added(name) => payload.typ.OutputItemAdded? && ShowsItem(payload, info, name, "")
       case ItemClosed(name, arguments) => payload.typ.OutputItemDone? && ShowsItem(payload, info, name, arguments)
       case Delta(text) => payload.typ.ArgumentsDelta? && Get(payload.delta) == text
       case AllArguments(arguments) => payload.typ.ArgumentsDone? && Get(payload.arguments) == arguments
  }

  /** The payload names its call: by item, by call ID or, once the output index of the call was shown, by that. */
  predicate Addresses(payload: Payload, slotted: bool) {
    payload.itemId.Some? || payload.callId.Some? || (payload.outputIndex.Some? && slotted)
  }

  /** Some frame of call c carried an output index. */
  predicate SlotShown(ws: seq<Wire>, c: nat) {
    ws != [] &&
    var w := ws[|ws| - 1];
    (w.OnCall? && w.c == c && w.payload.outputIndex.Some?) || SlotShown(ws[..|ws| - 1], c)
  }

  /** A payload that is about no tool call and ends nothing. */
  predicate Quiet(payload: Payload) {
    && !payload.hasError
    && match payload.typ
       case OutputTextDelta => true
       case ContentDelta => true
       case ReasoningSummaryDelta => true
       case ReasoningTextDelta => true
       case OutputItemAdded => payload.web.None? && (payload.item.Some? ==> payload.item.value.typ.OtherItem?)
       case OutputItemDone => payload.web.None? && (payload.item.Some? ==> payload.item.value.typ.OtherItem?)
       case Other(name) => payload.web.None? && !Contains(name, "error")
       case _ => false
  }

  function QuietEvents(payload: Payload): seq<Event> {
    match payload.typ
    case OutputTextDelta => TextEvent(TextDelta(Get(First(payload.delta, payload.text))))
    case ContentDelta => TextEvent(TextDelta(Get(First(payload.delta, payload.text))))
    case ReasoningSummaryDelta => TextEvent(ReasoningDelta(Get(First(payload.delta, payload.text))))
    case ReasoningTextDelta => TextEvent(ReasoningDelta(Get(First(payload.delta, payload.text))))
    case _ => if payload.chatDelta != "" then [TextDelta(payload.chatDelta)] else MediaEvents(payload.leaves)
  }

  predicate DistinctCalls(calls: seq<CallInfo>) {
    && (forall c | 0 <= c < |calls| :: calls[c].itemId != "" && calls[c].callId != "")
    && (forall c, d | 0 <= c < d < |calls| ::
          calls[c].itemId != calls[d].itemId && calls[c].callId != calls[d].callId && calls[c].slot != calls[d].slot)
  }

  // ---- the automaton of one call ----

  /** `seen`: arguments were seen; `emitted`: the fragments so far; `shown`: the last non-empty name emitted. */
  datatype Auto = Idle | Running(seen: bool, name: string, emitted: string, shown: string)
  {
    function Emitted(): string { if Idle? then "" else emitted }
    function Shown(): string { if Idle? then "" else shown }
  }

  function Emit(a: Auto, arguments: string): Auto
    requires a.Running?
  {
    a.(seen := true, emitted := a.emitted + arguments, shown := OrElse(a.name, a.shown))
  }

  function Rename(a: Auto, reverse: map<string, string>, name: string): Auto
    requires a.Running?
  {
    if name != "" then a.(name := Restore(reverse, name)) else a
  }

  function AutoStep(reverse: map<string, string>, a: Auto, f: CallFrame): Auto {
    match f
    case Added(name) =>
      if a.Idle? then Running(false, Restore(reverse, name), "", Restore(reverse, name)) else Rename(a, reverse, name)
    case ItemClosed(name, arguments) =>
      if a.Idle? then Running(arguments != "", Restore(reverse, name), arguments, Restore(reverse, name))
      else if arguments != "" && !a.seen then Emit(Rename(a, reverse, name), arguments)
      else Rename(a, reverse, name)
    case Delta(text) => if a.Idle? then a else Emit(a, text)
    case AllArguments(arguments) => if a.Idle? || a.seen then a else Emit(a, arguments)
  }

  /** What the automaton emits on a frame, if anything. */
  function AutoEmits(a: Auto, f: CallFrame): Option<string> {
    match f
    case Added(_) => if a.Idle? then Some("") else None
    case ItemClosed(_, arguments) => if a.Idle? || (arguments != "" && !a.seen) then Some(arguments) else None
    case Delta(text) => Some(text)
    case AllArguments(arguments) => if a.Running? && a.seen then None else Some(arguments)
  }

  function AutoOf(reverse: map<string, string>, ws: seq<Wire>, c: nat): Auto {
    if ws == [] then Idle else
    var a, w := AutoOf(reverse, ws[..|ws| - 1], c), ws[|ws| - 1];
    if w.OnCall? && w.c == c then AutoStep(reverse, a, w.frame) else a
  }

  /** The call IDs in the order in which the calls start. */
  function StartedIds(calls: seq<CallInfo>, reverse: map<string, string>, ws: seq<Wire>): seq<string> {
    if ws == [] then [] else
    var ids, w := StartedIds(calls, reverse, ws[..|ws| - 1]), ws[|ws| - 1];
    if w.OnCall? && w.c < |calls| && AutoOf(reverse, ws[..|ws| - 1], w.c).Idle? then ids + [calls[w.c].callId] else ids
  }

  function QuietAll(ws: seq<Wire>): seq<Event> {
    if ws == [] then [] else
    QuietAll(ws[..|ws| - 1]) + if ws[|ws| - 1].Plain? then QuietEvents(ws[|ws| - 1].payload) else []
  }

  /** Every frame is shown by its payload, every call starts with its item, and later frames name their call. */
  predicate WellFormed(calls: seq<CallInfo>, reverse: map<string, string>, ws: seq<Wire>) {
    ws != [] ==>
      && WellFormed(calls, reverse, ws[..|ws| - 1])
      && var w := ws[|ws| - 1];
         if w.Plain? then Quiet(w.payload)
         else w.c < |calls| && Shows(w.payload, calls[w.c], w.frame) &&
              (w.frame.Added? || w.frame.ItemClosed? ||
               (AutoOf(reverse, ws[..|ws| - 1], w.c).Running? && Addresses(w.payload, SlotShown(ws[..|ws| - 1], w.c))))
  }

  function Messages(ws: seq<Wire>): seq<Message> {
    seq(|ws|, i requires 0 <= i < |ws| => Message("", Object(ws[i].payload)))
  }

  // ---- keys of one call ----

  predicate OwnKey(key: ToolKey, info: CallInfo) {
    key == ItemKey(info.itemId) || key == CallKey(info.callId) || key == OutputKey(info.slot)
  }

  lemma {:induction false} FindOwn(tools: map<ToolKey, nat>, keys: seq<ToolKey>, k: nat)
    requires forall key | key in keys && key in tools :: tools[key] == k
    ensures Find(tools, keys) == if exists key | key in keys :: key in tools then Some(k) else None
  {
    if keys != [] {
      FindOwn(tools, keys[1..], k);
      if keys[0] !in tools {
        assert forall key | key in keys && key in tools :: key in keys[1..];
      }
    }
  }

  lemma {:induction false} BindOwn(tools: map<ToolKey, nat>, keys: seq<ToolKey>, k: nat)
    ensures forall key | key in keys :: key in BindKeys(tools, keys, k) && BindKeys(tools, keys, k)[key] == k
    ensures forall key | key !in keys ::
              (key in BindKeys(tools, keys, k) <==> key in tools) &&
              (key in tools ==> BindKeys(tools, keys, k)[key] == tools[key])
  {
    if keys != [] {
      BindOwn(tools, keys[..|keys| - 1], k);
      assert forall key | key in keys :: key in keys[..|keys| - 1] || key == keys[|keys| - 1];
    }
  }

  function ItemOf(payload: Payload, frame: CallFrame): Option<Item> {
    if frame.Added? || frame.ItemClosed? then payload.item else None
  }

  lemma KeyListed(payload: Payload, item: Option<Item>, key: ToolKey)
    ensures key in ToolKeys(payload, item) <==>
            || key in KeyOf(s => ItemKey(s), payload.itemId) || key in KeyOf(s => CallKey(s), payload.callId)
            || (item.Some? && (key in KeyOf(s => ItemKey(s), item.value.id) ||
                               key in KeyOf(s => CallKey(s), item.value.callId)))
            || (payload.outputIndex.Some? && key == OutputKey(payload.outputIndex.value))
  {
  }

  lemma KeysAreOwn(payload: Payload, info: CallInfo, frame: CallFrame)
    requires Shows(payload, info, frame) && info.itemId != "" && info.callId != ""
    ensures var keys := ToolKeys(payload, ItemOf(payload, frame));
            && (forall key | key in keys :: OwnKey(key, info))
            && (frame.Added? || frame.ItemClosed? ==> ItemKey(info.itemId) in keys && CallKey(info.callId) in keys)
            && (payload.itemId.Some? ==> ItemKey(info.itemId) in keys)
            && (payload.callId.Some? ==> CallKey(info.callId) in keys)
            && (payload.outputIndex.Some? ==> OutputKey(info.slot) in keys)
  {
    var item := ItemOf(payload, frame);
    forall key | key in ToolKeys(payload, item)
      ensures OwnKey(key, info)
    {
      KeyListed(payload, item, key);
    }
    KeyListed(payload, item, ItemKey(info.itemId));
    KeyListed(payload, item, CallKey(info.callId));
    KeyListed(payload, item, OutputKey(info.slot));
  }

  // ---- the invariant of one call ----

  /** `slotted` tells that the output index of the call was shown. */
  predicate CallInv(p: ParserState, info: CallInfo, a: Auto, slotted: bool) {
    var i, c, o := ItemKey(info.itemId), CallKey(info.callId), OutputKey(info.slot);
    if a.Idle? then !slotted && i !in p.tools && c !in p.tools && o !in p.tools
    else
      && i in p.tools && c in p.tools && p.tools[c] == p.tools[i] && (o in p.tools ==> p.tools[o] == p.tools[i])
      && (slotted ==> o in p.tools)
      && p.tools[i] < |p.states|
      && var t := p.states[p.tools[i]];
         t.id == info.callId && t.itemId == info.itemId && t.name == a.name && t.announced && t.argumentsSeen == a.seen
  }

  /** Nothing but the keys of one call and its own state changes. */
  ghost predicate OthersKept(p: ParserState, q: ParserState, info: CallInfo) {
    && |p.states| <= |q.states|
    && (forall key | !OwnKey(key, info) :: (key in q.tools <==> key in p.tools) &&
                                           (key in p.tools ==> q.tools[key] == p.tools[key]))
    && (forall k | 0 <= k < |p.states| && p.states[k].id != info.callId :: q.states[k] == p.states[k])
  }

  lemma OtherCallKept(p: ParserState, q: ParserState, info: CallInfo, other: CallInfo, a: Auto, slotted: bool)
    requires OthersKept(p, q, info) && CallInv(p, other, a, slotted)
    requires info.itemId != other.itemId && info.callId != other.callId && info.slot != other.slot
    ensures CallInv(q, other, a, slotted)
  {
  }

  function Target(p: ParserState, info: CallInfo, a: Auto): nat {
    if a.Running? && ItemKey(info.itemId) in p.tools then p.tools[ItemKey(info.itemId)] else |p.states|
  }

  /** All keys of the call lead to position k, which holds its state. */
  predicate Keyed(q: ParserState, info: CallInfo, k: nat) {
    && k < |q.states| && q.states[k].id == info.callId && q.states[k].itemId == info.itemId
    && ItemKey(info.itemId) in q.tools && q.tools[ItemKey(info.itemId)] == k
    && CallKey(info.callId) in q.tools && q.tools[CallKey(info.callId)] == k
    && (OutputKey(info.slot) in q.tools ==> q.tools[OutputKey(info.slot)] == k)
  }

  /** The output key of a call stays bound, and is bound once shown. */
  predicate SlotBound(p: ParserState, q: ParserState, info: CallInfo, payload: Payload) {
    OutputKey(info.slot) in p.tools || payload.outputIndex.Some? ==> OutputKey(info.slot) in q.tools
  }

  /** The frame belongs to the call and can be routed to it. */
  predicate Routable(payload: Payload, info: CallInfo, frame: CallFrame, a: Auto, slotted: bool) {
    && Shows(payload, info, frame) && info.itemId != "" && info.callId != ""
    && (frame.Added? || frame.ItemClosed? || (a.Running? && Addresses(payload, slotted)))
  }

  lemma RoutedAt(p: ParserState, payload: Payload, info: CallInfo, frame: CallFrame, a: Auto, slotted: bool)
    requires p.Valid() && CallInv(p, info, a, slotted) && Routable(payload, info, frame, a, slotted)
    ensures ToolAt(p, payload, ItemOf(payload, frame)) == Target(p, info, a)
  {
    KeysAreOwn(payload, info, frame);
    var known := if frame.Added? || frame.ItemClosed? || payload.itemId.Some? then ItemKey(info.itemId)
                 else if payload.callId.Some? then CallKey(info.callId)
                 else OutputKey(info.slot);
    FoundOwn(p, ToolKeys(payload, ItemOf(payload, frame)), info, a, slotted, known);
  }

  lemma {:induction false} FoundOwn(p: ParserState, keys: seq<ToolKey>, info: CallInfo, a: Auto, slotted: bool,
                                    known: ToolKey)
    requires CallInv(p, info, a, slotted) && known in keys && (forall key | key in keys :: OwnKey(key, info))
    requires a.Running? ==> known in p.tools
    ensures Find(p.tools, keys) == if a.Running? then Some(Target(p, info, a)) else None
  {
    FindOwn(p.tools, keys, Target(p, info, a));
  }

  /** A frame of a running call reaches the state of that call. */
  lemma RoutedKnown(p: ParserState, payload: Payload, info: CallInfo, frame: CallFrame, a: Auto, slotted: bool)
    requires p.Valid() && CallInv(p, info, a, slotted) && Routable(payload, info, frame, a, slotted) && a.Running?
    ensures var q, k := WithTool(p, payload, ItemOf(payload, frame)), Target(p, info, a);
            && OthersKept(p, q, info) && Keyed(q, info, k) && SlotBound(p, q, info, payload)
            && q.states[k] == Refreshed(p, p.states[k], ItemOf(payload, frame))
  {
    RoutedAt(p, payload, info, frame, a, slotted);
    KeysAreOwn(payload, info, frame);
    var k := Target(p, info, a);
    RefreshedOwn(p, p.states[k], payload, info, frame);
    FoundRebinds(p, payload, ItemOf(payload, frame), info, a, slotted, k);
  }

  /** A payload whose keys are those of a running call updates the state of that call. */
  lemma FoundRebinds(p: ParserState, payload: Payload, item: Option<Item>, info: CallInfo, a: Auto, slotted: bool,
                     k: nat)
    requires p.Valid() && CallInv(p, info, a, slotted) && a.Running? && k == Target(p, info, a) &&
             ToolAt(p, payload, item) == k
    requires forall key | key in ToolKeys(payload, item) :: OwnKey(key, info)
    requires var t := Refreshed(p, p.states[k], item); t.id == info.callId && t.itemId == info.itemId
    ensures var q := WithTool(p, payload, item);
            && OthersKept(p, q, info) && Keyed(q, info, k) && q.states[k] == Refreshed(p, p.states[k], item)
            && (OutputKey(info.slot) in p.tools || OutputKey(info.slot) in ToolKeys(payload, item) ==>
                OutputKey(info.slot) in q.tools)
  {
    KnownBound(p, payload, item, k);
    RebindsOwn(p, WithTool(p, payload, item), info, a, slotted, ToolKeys(payload, item), k);
  }

  /** Frames of a call keep its IDs. */
  lemma RefreshedOwn(p: ParserState, t: ToolState, payload: Payload, info: CallInfo, frame: CallFrame)
    requires Shows(payload, info, frame) && info.itemId != "" && info.callId != "" && t.id == info.callId &&
             t.itemId == info.itemId
    ensures var t' := Refreshed(p, t, ItemOf(payload, frame)); t'.id == info.callId && t'.itemId == info.itemId
  {
  }

  lemma {:induction false} KnownBound(p: ParserState, payload: Payload, item: Option<Item>, k: nat)
    requires p.Valid() && k < |p.states| && ToolAt(p, payload, item) == k
    ensures var q := WithTool(p, payload, item);
            && q.states == p.states[k := Refreshed(p, p.states[k], item)]
            && q.tools == BindKeys(p.tools, ToolKeys(payload, item), k)[CallKey(p.states[k].id) := k]
  {
  }

  /** Binding a running call to keys of its own leaves the other calls alone. */
  lemma {:induction false} RebindsOwn(p: ParserState, q: ParserState, info: CallInfo, a: Auto, slotted: bool,
                                      keys: seq<ToolKey>, k: nat)
    requires CallInv(p, info, a, slotted) && a.Running? && k == Target(p, info, a) && forall key | key in keys ::
             OwnKey(key, info)
    requires |q.states| == |p.states| && q.states[k].id == info.callId && q.states[k].itemId == info.itemId
    requires forall j | 0 <= j < |p.states| && j != k :: q.states[j] == p.states[j]
    requires q.tools == BindKeys(p.tools, keys, k)[CallKey(info.callId) := k]
    ensures OthersKept(p, q, info) && Keyed(q, info, k)
    ensures OutputKey(info.slot) in p.tools || OutputKey(info.slot) in keys ==> OutputKey(info.slot) in q.tools
  {
    BindOwn(p.tools, keys, k);
  }

  lemma FreshIs(p: ParserState, payload: Payload, info: CallInfo, name: string, arguments: string)
    requires ShowsItem(payload, info, name, arguments) && info.itemId != "" && info.callId != ""
    ensures Fresh(p, payload, payload.item) ==
            ToolState(info.callId, info.itemId, Restore(p.reverseNames, name), |p.states|, false, false)
  {
  }

  /** The first item of a call creates its state. */
  lemma RoutedFresh(p: ParserState, payload: Payload, info: CallInfo, frame: CallFrame)
    requires p.Valid() && CallInv(p, info, Idle, false) && Routable(payload, info, frame, Idle, false)
    ensures var q, k := WithTool(p, payload, payload.item), |p.states|;
            && OthersKept(p, q, info) && Keyed(q, info, k) && SlotBound(p, q, info, payload)
            && q.states[k] == ToolState(info.callId, info.itemId, Restore(p.reverseNames, frame.name), k, false, false)
  {
    RoutedAt(p, payload, info, frame, Idle, false);
    KeysAreOwn(payload, info, frame);
    var keys, k := ToolKeys(payload, payload.item), |p.states|;
    BindOwn(p.tools, keys, k);
    FreshIs(p, payload, info, frame.name, if frame.Added? then "" else frame.arguments);
    FreshBound(p, payload, info);
    BoundKeyed(p, WithTool(p, payload, payload.item), info, keys, k);
  }

  /** Binding a new state to keys of its own call leaves the other calls alone. */
  lemma {:induction false} BoundKeyed(p: ParserState, q: ParserState, info: CallInfo, keys: seq<ToolKey>, k: nat)
    requires k == |p.states| && |q.states| == k + 1 && q.states[..k] == p.states && q.states[k].id == info.callId &&
             q.states[k].itemId == info.itemId
    requires q.tools == BindKeys(p.tools, keys, k)[CallKey(info.callId) := k] && OutputKey(info.slot) !in p.tools
    requires (forall key | key in keys :: OwnKey(key, info)) && ItemKey(info.itemId) in keys
    ensures OthersKept(p, q, info) && Keyed(q, info, k)
  {
    BindOwn(p.tools, keys, k);
    assert forall i | 0 <= i < k :: q.states[i] == q.states[..k][i];
  }

  lemma FreshBound(p: ParserState, payload: Payload, info: CallInfo)
    requires p.Valid() && ToolAt(p, payload, payload.item) == |p.states| &&
             Fresh(p, payload, payload.item).id == info.callId
    ensures var q := WithTool(p, payload, payload.item);
            && q.states == p.states + [Fresh(p, payload, payload.item)]
            && q.tools == BindKeys(p.tools, ToolKeys(payload, payload.item),
                                   |p.states|)[CallKey(info.callId) := |p.states|]
  {
  }

  /** The parser's step on one frame is the automaton's. */
  ghost predicate Simulates(p: ParserState, r: Parsed, info: CallInfo, a: Auto, f: CallFrame, slotted: bool) {
    var a' := AutoStep(p.reverseNames, a, f);
    && OthersKept(p, r.parser, info) && CallInv(r.parser, info, a', slotted)
    && r.parser.done == p.done && r.parser.reverseNames == p.reverseNames
    && (if AutoEmits(a, f).None? then r.events == [] else
          |r.events| == 1 && r.events[0].ToolCall? && r.events[0].id == info.callId && a'.Running? &&
          r.events[0].name == a'.name && r.events[0].arguments == AutoEmits(a, f).value)
  }

  /** Announcing, once the tool is known to be the right one. */
  lemma StepAnnounce(p: ParserState, q: ParserState, k: nat, info: CallInfo, frame: CallFrame, a: Auto, slotted: bool)
    requires slotted ==> OutputKey(info.slot) in q.tools
    requires q.Valid() && OthersKept(p, q, info) && Keyed(q, info, k) && q.done == p.done &&
             q.reverseNames == p.reverseNames
    requires k == |p.states| || (k < |p.states| && p.states[k].id == info.callId)
    requires frame.Added? || frame.ItemClosed?
    requires q.states[k].announced == a.Running? && (a.Running? ==> q.states[k].argumentsSeen == a.seen)
    requires q.states[k].name == if a.Idle? then Restore(p.reverseNames, frame.name)
                                 else Rename(a, p.reverseNames, frame.name).name
    ensures Simulates(p, Announce(q, k, if frame.Added? then "" else frame.arguments, frame.ItemClosed?), info, a,
                      frame, slotted)
  {
    var arguments, t := if frame.Added? then "" else frame.arguments, q.states[k];
    if a.Idle? {
      UpdatedOwn(p, q, k, t.(announced := true, argumentsSeen := arguments != ""), info);
    } else if frame.ItemClosed? && arguments != "" && !a.seen {
      UpdatedOwn(p, q, k, t.(argumentsSeen := true), info);
    }
  }

  /** Updating the state of a call leaves the other calls, and the keys of the call, alone. */
  lemma UpdatedOwn(p: ParserState, q: ParserState, k: nat, t: ToolState, info: CallInfo)
    requires q.Valid() && OthersKept(p, q, info) && Keyed(q, info, k) && t.id == info.callId && t.itemId == info.itemId
    requires k == |p.states| || (k < |p.states| && p.states[k].id == info.callId)
    ensures var r := SetTool(q, k, t);
            OthersKept(p, r, info) && Keyed(r, info, k) && r.states[k] == t && r.tools == q.tools
  {
  }

  lemma StepItem(p: ParserState, payload: Payload, info: CallInfo, frame: CallFrame, a: Auto, slotted: bool)
    requires p.Valid() && !p.done && CallInv(p, info, a, slotted) && Routable(payload, info, frame, a, slotted)
    requires frame.Added? || frame.ItemClosed?
    ensures Simulates(p, ParseItem(p, payload, payload.item.value, frame.ItemClosed?), info, a, frame, slotted ||
                      payload.outputIndex.Some?)
  {
    var q, k := WithTool(p, payload, payload.item), Target(p, info, a);
    RoutedAt(p, payload, info, frame, a, slotted);
    if a.Idle? {
      RoutedFresh(p, payload, info, frame);
    } else {
      RoutedKnown(p, payload, info, frame, a, slotted);
    }
    StepAnnounce(p, q, k, info, frame, a, slotted || payload.outputIndex.Some?);
  }

  lemma StepArguments(p: ParserState, payload: Payload, info: CallInfo, frame: CallFrame, a: Auto, slotted: bool)
    requires p.Valid() && !p.done && CallInv(p, info, a, slotted) && Routable(payload, info, frame, a, slotted)
    requires a.Running? && (frame.Delta? || frame.AllArguments?)
    ensures Simulates(p, if frame.Delta? then ParseDelta(p, payload)
                         else ParseArgumentsDone(p, payload), info, a, frame,
                      slotted || payload.outputIndex.Some?)
  {
    RoutedAt(p, payload, info, frame, a, slotted);
    RoutedKnown(p, payload, info, frame, a, slotted);
    ArgumentsOn(p, WithTool(p, payload, None), Target(p, info, a), info, frame, a, slotted ||
                payload.outputIndex.Some?);
  }

  /** What the parser does with a fragment, once the tool is known to be the right one. */
  function OnArguments(q: ParserState, k: nat, frame: CallFrame): Parsed
    requires q.Valid() && k < |q.states| && (frame.Delta? || frame.AllArguments?)
  {
    var t := q.states[k];
    if frame.AllArguments? && t.argumentsSeen then Parsed(q, [])
    else Parsed(SetTool(q, k, t.(argumentsSeen := true)),
                [CallEvent(t, if frame.Delta? then frame.text else frame.arguments)])
  }

  lemma ArgumentsOn(p: ParserState, q: ParserState, k: nat, info: CallInfo, frame: CallFrame, a: Auto, slotted: bool)
    requires q.Valid() && OthersKept(p, q, info) && Keyed(q, info, k) && q.done == p.done &&
             q.reverseNames == p.reverseNames
    requires k < |p.states| && p.states[k].id == info.callId && (slotted ==> OutputKey(info.slot) in q.tools)
    requires a.Running? && (frame.Delta? || frame.AllArguments?)
    requires q.states[k].announced && q.states[k].argumentsSeen == a.seen && q.states[k].name == a.name
    ensures Simulates(p, OnArguments(q, k, frame), info, a, frame, slotted)
  {
    UpdatedOwn(p, q, k, q.states[k].(argumentsSeen := true), info);
  }

  /** Which branch of the parser takes the frame. */
  lemma FrameDispatch(p: ParserState, payload: Payload, info: CallInfo, frame: CallFrame)
    requires p.Valid() && !p.done && Shows(payload, info, frame)
    ensures ParsePayload(p, "", payload) ==
            if frame.Added? || frame.ItemClosed? then ParseItem(p, payload, payload.item.value, frame.ItemClosed?)
            else if frame.Delta? then ParseDelta(p, payload)
            else ParseArgumentsDone(p, payload)
  {
  }

  lemma StepCall(p: ParserState, payload: Payload, info: CallInfo, frame: CallFrame, a: Auto, slotted: bool)
    requires p.Valid() && !p.done && CallInv(p, info, a, slotted) && Routable(payload, info, frame, a, slotted)
    ensures Simulates(p, ParsePayload(p, "", payload), info, a, frame, slotted || payload.outputIndex.Some?)
  {
    FrameDispatch(p, payload, info, frame);
    if frame.Added? || frame.ItemClosed? {
      StepItem(p, payload, info, frame, a, slotted);
    } else {
      StepArguments(p, payload, info, frame, a, slotted);
    }
  }

  lemma StepQuiet(p: ParserState, payload: Payload)
    requires p.Valid() && !p.done && Quiet(payload)
    ensures ParsePayload(p, "", payload) == Parsed(p, QuietEvents(payload))
    ensures forall e | e in QuietEvents(payload) :: !e.ToolCall? && !e.UsageReport? && !e.Done?
  {
  }

  // ---- any interleaving ----

  predicate CallRead(r: Parsed, info: CallInfo, a: Auto, slotted: bool) {
    && CallInv(r.parser, info, a, slotted) && (info.callId in CallIds(r.events) <==> a.Running?)
    && ArgumentsOf(r.events, info.callId) == a.Emitted() && NameOf(r.events, info.callId) == a.Shown()
  }

  lemma StepRead(r: Parsed, last: Parsed, info: CallInfo, a: Auto, f: CallFrame, slotted: bool, slotted': bool)
    requires CallRead(r, info, a, slotted) && Simulates(r.parser, last, info, a, f, slotted')
    requires a.Idle? ==> f.Added? || f.ItemClosed?
    ensures CallRead(Parsed(last.parser, r.events + last.events), info, AutoStep(r.parser.reverseNames, a, f), slotted')
  {
    if last.events == [] {
      assert r.events + last.events == r.events;
    } else {
      assert last.events == [last.events[0]];
      CallAppended(r.events, last.events[0], info.callId);
    }
  }

  lemma StepOther(r: Parsed, last: Parsed, info: CallInfo, a: Auto, f: CallFrame, slotted: bool, other: CallInfo,
                  b: Auto, otherSlotted: bool)
    requires CallRead(r, other, b, otherSlotted) && Simulates(r.parser, last, info, a, f, slotted)
    requires info.itemId != other.itemId && info.callId != other.callId && info.slot != other.slot
    ensures CallRead(Parsed(last.parser, r.events + last.events), other, b, otherSlotted)
  {
    OtherCallKept(r.parser, last.parser, info, other, b, otherSlotted);
    if last.events == [] {
      assert r.events + last.events == r.events;
    } else {
      assert last.events == [last.events[0]];
      CallAppended(r.events, last.events[0], other.callId);
    }
  }

  ghost predicate AllRead(calls: seq<CallInfo>, reverse: map<string, string>, ws: seq<Wire>, r: Parsed) {
    && r.parser.Valid() && !r.parser.done && r.parser.reverseNames == reverse
    && (forall c | 0 <= c < |calls| :: CallRead(r, calls[c], AutoOf(reverse, ws, c), SlotShown(ws, c)))
    && CallIds(r.events) == StartedIds(calls, reverse, ws)
    && TextOf(r.events) == TextOf(QuietAll(ws)) && ReasoningOf(r.events) == ReasoningOf(QuietAll(ws))
    && (NoMedia(r.events) <==> NoMedia(QuietAll(ws)))
    && forall e | e in r.events :: !e.UsageReport? && !e.Done?
  }

  /**
   In any interleaving of distinct calls with other payloads, the parser emits for every call exactly the fragments its
   own automaton emits, under the call's ID; calls appear in the order in which they start; and text and reasoning are
   those of the other payloads.
   */
  lemma {:induction false} CallsAreIndependent(calls: seq<CallInfo>, reverse: map<string, string>, ws: seq<Wire>)
    requires DistinctCalls(calls) && WellFormed(calls, reverse, ws)
    ensures AllRead(calls, reverse, ws, ParseAll(NewParser(reverse), Messages(ws)))
  {
    if ws == [] {
      assert Messages(ws) == [];
    } else {
      CallsAreIndependent(calls, reverse, ws[..|ws| - 1]);
      ParseLast(NewParser(reverse), ws);
      WireKeeps(calls, reverse, ws, ParseAll(NewParser(reverse), Messages(ws[..|ws| - 1])));
    }
  }

  lemma {:induction false} WireKeeps(calls: seq<CallInfo>, reverse: map<string, string>, ws: seq<Wire>, r: Parsed)
    requires ws != [] && DistinctCalls(calls) && WellFormed(calls, reverse, ws) &&
             AllRead(calls, reverse, ws[..|ws| - 1], r)
    ensures var last := ParsePayload(r.parser, "", ws[|ws| - 1].payload);
            AllRead(calls, reverse, ws, Parsed(last.parser, r.events + last.events))
  {
    var init, w := ws[..|ws| - 1], ws[|ws| - 1];
    assert init + [w] == ws;
    if w.Plain? {
      QuietStepKeeps(calls, reverse, init, w, r);
    } else {
      CallStepKeeps(calls, reverse, init, w, r);
    }
  }

  lemma {:induction false} ParseLast(p: ParserState, ws: seq<Wire>)
    requires p.Valid() && ws != []
    ensures var r := ParseAll(p, Messages(ws[..|ws| - 1]));
            var last := ParsePayload(r.parser, "", ws[|ws| - 1].payload);
            ParseAll(p, Messages(ws)) == Parsed(last.parser, r.events + last.events)
  {
    assert Messages(ws)[..|ws| - 1] == Messages(ws[..|ws| - 1]);
  }

  lemma QuietStepKeeps(calls: seq<CallInfo>, reverse: map<string, string>, ws: seq<Wire>, w: Wire, r: Parsed)
    requires AllRead(calls, reverse, ws, r) && w.Plain? && Quiet(w.payload)
    ensures var last := ParsePayload(r.parser, "", w.payload);
            AllRead(calls, reverse, ws + [w], Parsed(last.parser, r.events + last.events))
  {
    StepQuiet(r.parser, w.payload);
    var es := QuietEvents(w.payload);
    QuietNext(calls, reverse, ws, w);
    forall c | 0 <= c < |calls|
      ensures CallRead(Parsed(r.parser, r.events + es), calls[c], AutoOf(reverse, ws + [w], c), SlotShown(ws + [w], c))
    {
      assert CallRead(r, calls[c], AutoOf(reverse, ws, c), SlotShown(ws, c));
      NoToolsAppended(r.events, es, calls[c].callId);
    }
    NoToolsAppended(r.events, es, "");
    TextOfConcat(r.events, es);
    TextOfConcat(QuietAll(ws), es);
    NoMediaConcat(r.events, es);
    NoMediaConcat(QuietAll(ws), es);
  }

  /** A payload that is about no call leaves the calls as they are. */
  lemma {:induction false} QuietNext(calls: seq<CallInfo>, reverse: map<string, string>, ws: seq<Wire>, w: Wire)
    requires w.Plain?
    ensures forall c: nat :: AutoOf(reverse, ws + [w], c) == AutoOf(reverse, ws, c) &&
                             SlotShown(ws + [w], c) == SlotShown(ws, c)
    ensures StartedIds(calls, reverse, ws + [w]) == StartedIds(calls, reverse, ws)
    ensures QuietAll(ws + [w]) == QuietAll(ws) + QuietEvents(w.payload)
  {
    assert (ws + [w])[..|ws|] == ws;
  }

  lemma {:induction false} CallStepKeeps(calls: seq<CallInfo>, reverse: map<string, string>, ws: seq<Wire>, w: Wire,
                                         r: Parsed)
    requires DistinctCalls(calls) && AllRead(calls, reverse, ws, r)
    requires w.OnCall? && w.c < |calls|
    requires Routable(w.payload, calls[w.c], w.frame, AutoOf(reverse, ws, w.c), SlotShown(ws, w.c))
    ensures var last := ParsePayload(r.parser, "", w.payload);
            AllRead(calls, reverse, ws + [w], Parsed(last.parser, r.events + last.events))
  {
    var a, info, last := AutoOf(reverse, ws, w.c), calls[w.c], ParsePayload(r.parser, "", w.payload);
    var slotted := SlotShown(ws, w.c) || w.payload.outputIndex.Some?;
    assert CallRead(r, info, a, SlotShown(ws, w.c));
    StepCall(r.parser, w.payload, info, w.frame, a, SlotShown(ws, w.c));
    EveryCallRead(calls, reverse, ws, w, r, last, slotted);
    EmitsForItsCall(r.parser, last, info, a, w.frame, slotted);
    CallOrder(calls, reverse, ws, w, r.events, last.events);
    OnlyCalls(r.events, last.events);
    ToolsAreNotQuiet(ws, w);
  }

  /** A frame emits at most one event, of its own call, and emits one if it starts the call. */
  lemma EmitsForItsCall(p: ParserState, last: Parsed, info: CallInfo, a: Auto, f: CallFrame, slotted: bool)
    requires Simulates(p, last, info, a, f, slotted) && (a.Idle? ==> f.Added? || f.ItemClosed?)
    ensures if last.events == [] then a.Running?
            else |last.events| == 1 && last.events[0].ToolCall? && last.events[0].id == info.callId
  {
  }

  /** One frame moves the automaton of its call and no other. */
  lemma {:induction false} EveryCallRead(calls: seq<CallInfo>, reverse: map<string, string>, ws: seq<Wire>, w: Wire,
                                         r: Parsed, last: Parsed, slotted: bool)
    requires DistinctCalls(calls) && r.parser.reverseNames == reverse && w.OnCall? && w.c < |calls|
    requires forall c | 0 <= c < |calls| :: CallRead(r, calls[c], AutoOf(reverse, ws, c), SlotShown(ws, c))
    requires AutoOf(reverse, ws, w.c).Idle? ==> w.frame.Added? || w.frame.ItemClosed?
    requires slotted == (SlotShown(ws, w.c) || w.payload.outputIndex.Some?)
    requires Simulates(r.parser, last, calls[w.c], AutoOf(reverse, ws, w.c), w.frame, slotted)
    ensures forall c | 0 <= c < |calls| ::
              CallRead(Parsed(last.parser, r.events + last.events), calls[c], AutoOf(reverse, ws + [w], c),
                       SlotShown(ws + [w], c))
  {
    var a := AutoOf(reverse, ws, w.c);
    forall c | 0 <= c < |calls|
      ensures CallRead(Parsed(last.parser, r.events + last.events), calls[c], AutoOf(reverse, ws + [w], c),
                       SlotShown(ws + [w], c))
    {
      CallNext(reverse, ws, w, c);
      assert CallRead(r, calls[c], AutoOf(reverse, ws, c), SlotShown(ws, c));
      if c == w.c {
        StepRead(r, last, calls[c], a, w.frame, SlotShown(ws, c), slotted);
      } else {
        StepOther(r, last, calls[w.c], a, w.frame, slotted, calls[c], AutoOf(reverse, ws, c), SlotShown(ws, c));
      }
    }
  }

  lemma {:induction false} CallNext(reverse: map<string, string>, ws: seq<Wire>, w: Wire, c: nat)
    requires w.OnCall?
    ensures AutoOf(reverse, ws + [w], c) == if w.c == c then AutoStep(reverse, AutoOf(reverse, ws, c), w.frame)
                                            else AutoOf(reverse, ws, c)
    ensures SlotShown(ws + [w], c) == (SlotShown(ws, c) || (w.c == c && w.payload.outputIndex.Some?))
  {
    assert (ws + [w])[..|ws|] == ws;
  }

  lemma {:induction false} ToolsAreNotQuiet(ws: seq<Wire>, w: Wire)
    requires w.OnCall?
    ensures QuietAll(ws + [w]) == QuietAll(ws)
  {
    assert (ws + [w])[..|ws|] == ws;
  }

  lemma {:induction false} OnlyCalls(a: seq<Event>, b: seq<Event>)
    requires b == [] || (|b| == 1 && b[0].ToolCall?)
    ensures TextOf(a + b) == TextOf(a) && ReasoningOf(a + b) == ReasoningOf(a) && (NoMedia(a + b) <==> NoMedia(a))
    ensures (forall e | e in a :: !e.UsageReport? && !e.Done?) ==> forall e | e in a + b :: !e.UsageReport? && !e.Done?
  {
    NoMediaConcat(a, b);
    TextOfConcat(a, b);
    CallIsNoText(b);
    assert TextOf(a) + "" == TextOf(a) && ReasoningOf(a) + "" == ReasoningOf(a);
  }

  lemma {:induction false} CallIsNoText(b: seq<Event>)
    requires b == [] || (|b| == 1 && b[0].ToolCall?)
    ensures TextOf(b) == "" && ReasoningOf(b) == "" && NoMedia(b)
  {
    if b != [] {
      assert b[..0] == [];
    }
  }

  /** A call is listed when its first event is emitted. */
  lemma {:induction false} CallOrder(calls: seq<CallInfo>, reverse: map<string, string>, ws: seq<Wire>, w: Wire,
                                     es: seq<Event>, last: seq<Event>)
    requires w.OnCall? && w.c < |calls| && CallIds(es) == StartedIds(calls, reverse, ws)
    requires calls[w.c].callId in CallIds(es) <==> AutoOf(reverse, ws, w.c).Running?
    requires if last == [] then AutoOf(reverse, ws, w.c).Running?
             else |last| == 1 && last[0].ToolCall? && last[0].id == calls[w.c].callId
    ensures CallIds(es + last) == StartedIds(calls, reverse, ws + [w])
  {
    StartedNext(calls, reverse, ws, w);
    if last == [] {
      assert es + last == es;
    } else {
      assert last == [last[0]];
      CallAppended(es, last[0], calls[w.c].callId);
    }
  }

  lemma {:induction false} StartedNext(calls: seq<CallInfo>, reverse: map<string, string>, ws: seq<Wire>, w: Wire)
    requires w.OnCall? && w.c < |calls|
    ensures StartedIds(calls, reverse, ws + [w]) ==
            StartedIds(calls, reverse, ws) + if AutoOf(reverse, ws, w.c).Idle? then [calls[w.c].callId] else []
  {
    assert (ws + [w])[..|ws|] == ws;
  }

  // ---- arguments exactly once ----

  function FramesOf(ws: seq<Wire>, c: nat): seq<CallFrame> {
    if ws == [] then [] else
    var w := ws[|ws| - 1];
    FramesOf(ws[..|ws| - 1], c) + if w.OnCall? && w.c == c then [w.frame] else []
  }

  function AutoRun(reverse: map<string, string>, fs: seq<CallFrame>): Auto {
    if fs == [] then Idle else AutoStep(reverse, AutoRun(reverse, fs[..|fs| - 1]), fs[|fs| - 1])
  }

  lemma {:induction false} AutoOfFrames(reverse: map<string, string>, ws: seq<Wire>, c: nat)
    ensures AutoOf(reverse, ws, c) == AutoRun(reverse, FramesOf(ws, c))
  {
    if ws != [] {
      AutoOfFrames(reverse, ws[..|ws| - 1], c);
      var w, fs := ws[|ws| - 1], FramesOf(ws[..|ws| - 1], c);
      if w.OnCall? && w.c == c {
        assert (fs + [w.frame])[..|fs|] == fs;
      } else {
        assert fs + [] == fs;
      }
    }
  }

  /** One call as upstream sends it: the item, deltas, and optionally the full arguments once or twice more. */
  datatype Script = Script(name: string, deltas: seq<string>, argumentsDone: bool, itemDone: bool, finalName: string,
                           full: string)

  function Concat(parts: seq<string>): string {
    if parts == [] then "" else Concat(parts[..|parts| - 1]) + parts[|parts| - 1]
  }

  predicate Consistent(s: Script) {
    (s.deltas != [] ==> Concat(s.deltas) == s.full) && (s.deltas != [] || s.argumentsDone || s.itemDone)
  }

  function Opening(name: string, deltas: seq<string>): seq<CallFrame> {
    if deltas == [] then [Added(name)] else Opening(name, deltas[..|deltas| - 1]) + [Delta(deltas[|deltas| - 1])]
  }

  function ScriptFrames(s: Script): seq<CallFrame> {
    Opening(s.name, s.deltas) + (if s.argumentsDone then [AllArguments(s.full)] else []) +
    (if s.itemDone then [ItemClosed(s.finalName, s.full)] else [])
  }

  lemma {:induction false} AutoAppend(reverse: map<string, string>, fs: seq<CallFrame>, f: CallFrame)
    ensures AutoRun(reverse, fs + [f]) == AutoStep(reverse, AutoRun(reverse, fs), f)
  {
    assert (fs + [f])[..|fs|] == fs;
  }

  lemma {:induction false} OpeningEmits(reverse: map<string, string>, name: string, deltas: seq<string>)
    ensures var a := AutoRun(reverse, Opening(name, deltas));
            a.Running? && a.seen == (deltas != []) && a.emitted == Concat(deltas)
  {
    if deltas == [] {
      AutoAppend(reverse, [], Added(name));
      assert [] + [Added(name)] == [Added(name)];
    } else {
      OpeningEmits(reverse, name, deltas[..|deltas| - 1]);
      AutoAppend(reverse, Opening(name, deltas[..|deltas| - 1]), Delta(deltas[|deltas| - 1]));
    }
  }

  /** Once arguments were seen, the closing frames emit nothing; before, the first non-empty one emits them all. */
  lemma ClosingEmits(reverse: map<string, string>, a: Auto, s: Script)
    requires a.Running? && Consistent(s) && a.seen == (s.deltas != []) && a.emitted == Concat(s.deltas)
    ensures var b := if s.argumentsDone then AutoStep(reverse, a, AllArguments(s.full)) else a;
            var c := if s.itemDone then AutoStep(reverse, b, ItemClosed(s.finalName, s.full)) else b;
            c.Emitted() == s.full
  {
    if s.deltas == [] {
      assert Concat(s.deltas) == "" && "" + s.full == s.full;
    }
  }

  lemma {:induction false} ScriptEmits(reverse: map<string, string>, s: Script)
    requires Consistent(s)
    ensures AutoRun(reverse, ScriptFrames(s)).Emitted() == s.full
  {
    var opening := Opening(s.name, s.deltas);
    OpeningEmits(reverse, s.name, s.deltas);
    ClosingEmits(reverse, AutoRun(reverse, opening), s);
    var middle := if s.argumentsDone then opening + [AllArguments(s.full)] else opening;
    AutoAppend(reverse, opening, AllArguments(s.full));
    AutoAppend(reverse, middle, ItemClosed(s.finalName, s.full));
    assert ScriptFrames(s) == if s.itemDone then middle + [ItemClosed(s.finalName, s.full)] else middle;
  }

  /**
   Tool arguments are emitted exactly once: whichever of deltas, arguments-done and item-done a call sends, and however
   calls interleave, the fragments emitted under its ID concatenate to its full arguments.
   */
  lemma {:induction false} ArgumentsExactlyOnce(calls: seq<CallInfo>, reverse: map<string, string>, ws: seq<Wire>,
                                                c: nat, script: Script)
    requires DistinctCalls(calls) && WellFormed(calls, reverse, ws) && c < |calls|
    requires Consistent(script) && FramesOf(ws, c) == ScriptFrames(script)
    ensures ArgumentsOf(ParseAll(NewParser(reverse), Messages(ws)).events, calls[c].callId) == script.full
  {
    CallsAreIndependent(calls, reverse, ws);
    assert CallRead(ParseAll(NewParser(reverse), Messages(ws)), calls[c], AutoOf(reverse, ws, c), SlotShown(ws, c));
    AutoOfFrames(reverse, ws, c);
    ScriptEmits(reverse, script);
  }
}
