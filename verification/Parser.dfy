/**
 The upstream SSE parser.

 A payload is the decoded JSON object of one event, as the fields the parser looks at: a string field is `None` when it
 is missing or not a string.  `leaves` are all string values of the object with their keys, in the order in which the
 media walk meets them.  A SHA-256 digest of an image is represented by the image itself.
 */
module Parser {
  import opened Options
  import opened Events
  import Text

  datatype TypeName =
    | Absent
    | OutputItemAdded | OutputItemDone
    | ArgumentsDelta | ArgumentsDone
    | PartialImage
    | ReasoningSummaryDelta | ReasoningTextDelta
    | OutputTextDelta | ContentDelta
    | Completed | Failed | Incomplete
    | Other(name: string)

  datatype ItemType = FunctionCall | ImageGeneration | OtherItem

  datatype Item = Item(typ: ItemType, id: Option<string>, callId: Option<string>, name: Option<string>,
                       arguments: Option<string>, result: Option<string>)

  datatype Details = Details(cachedTokens: Option<int>, cacheReadTokens: Option<int>)

  datatype UsageObject = UsageObject(
    inputTokens: Option<int>, promptTokens: Option<int>, outputTokens: Option<int>, completionTokens: Option<int>,
    inputDetails: Option<Details>, promptDetails: Option<Details>,
    cacheReadInputTokens: Option<int>, cachedTokens: Option<int>)

  datatype Leaf = Leaf(key: string, value: string)

  datatype MediaLink = ImageLink(url: string) | VideoLink(url: string)

  /** result.response of a web answer; `links` are the images and videos of its card and progress fields. */
  datatype WebResponse = WebResponse(error: Option<string>, links: seq<MediaLink>, token: string, isThinking: bool,
                                     leaves: seq<Leaf>,
                                     softStop: bool, finalMetadata: bool, finalUsage: Option<UsageObject>)

  datatype Payload = Payload(
    typ: TypeName, hasError: bool, errorText: string,
    item: Option<Item>, itemId: Option<string>, callId: Option<string>, id: Option<string>, outputIndex: Option<int>,
    delta: Option<string>, text: Option<string>, arguments: Option<string>, partialImage: Option<string>,
    usage: Option<UsageObject>, responseUsage: Option<UsageObject>,
    web: Option<WebResponse>, chatDelta: string, leaves: seq<Leaf>)

  datatype ToolKey = ItemKey(string) | CallKey(string) | OutputKey(int)

  datatype ToolState = ToolState(id: string, itemId: string, name: string, index: nat, announced: bool,
                                 argumentsSeen: bool)

  /** `tools` leads to positions of `states`, so that several keys share one tool state. */
  datatype ParserState = ParserState(tools: map<ToolKey, nat>, states: seq<ToolState>, images: map<string, string>,
                                     done: bool,
                           reverseNames: map<string, string>)
  {
    predicate Valid() {
      forall key | key in tools :: tools[key] < |states|
    }
  }

  datatype Parsed = Parsed(parser: ParserState, events: seq<Event>)

  function NewParser(reverseNames: map<string, string>): (p: ParserState)
    ensures p.Valid()
  {
    ParserState(map[], [], map[], false, reverseNames)
  }

  // ---- field access ----

  /** stringValue: the first key that holds a string. */
  function First(a: Option<string>, b: Option<string>): Option<string> {
    if a.Some? then a else b
  }

  function Get(a: Option<string>): string {
    if a.Some? then a.value else ""
  }

  function FirstInt(a: Option<int>, b: Option<int>): int {
    if a.Some? then a.value else if b.Some? then b.value else 0
  }

  predicate HasSuffix(s: string, suffix: string) {
    |suffix| <= |s| && s[|s| - |suffix|..] == suffix
  }

  predicate Contains(s: string, part: string) {
    exists i | 0 <= i <= |s| :: Text.HasPrefix(s[i..], part)
  }

  function BeforeQuery(s: string): string {
    if s == [] || s[0] == '?' then [] else [s[0]] + BeforeQuery(s[1..])
  }

  // ---- usage and media ----

  function ReadUsage(u: UsageObject): Usage {
    var details := if u.inputDetails.Some? then u.inputDetails else u.promptDetails;
    var cached := if details.Some? then FirstInt(details.value.cachedTokens, details.value.cacheReadTokens) else 0;
    Usage(FirstInt(u.inputTokens, u.promptTokens), FirstInt(u.outputTokens, u.completionTokens),
          if cached != 0 then cached else FirstInt(u.cacheReadInputTokens, u.cachedTokens))
  }

  function UsageEvents(u: Option<UsageObject>): seq<Event> {
    if u.None? then [] else [UsageReport(ReadUsage(u.value))]
  }

  /** The media event of one string value, if it has one. */
  function MediaOf(leaf: Leaf): seq<Event> {
    if !Text.HasPrefix(leaf.value, "http") then [] else
    var lower, path := Text.Lower(leaf.key + " " + leaf.value), BeforeQuery(leaf.value);
    if Contains(lower, "video") || HasSuffix(path, ".mp4") then [Video(leaf.value)]
    else if Contains(lower, "image") || Contains(lower, "thumbnail") || HasSuffix(path, ".png") ||
            HasSuffix(path, ".jpg")
    then [Image(leaf.value)]
    else []
  }

  function MediaEvents(leaves: seq<Leaf>): (es: seq<Event>)
    ensures forall e | e in es :: e.Image? || e.Video?
  {
    if leaves == [] then [] else MediaOf(leaves[0]) + MediaEvents(leaves[1..])
  }

  function LinkEvents(links: seq<MediaLink>): (es: seq<Event>)
    ensures forall e | e in es :: e.Image? || e.Video?
  {
    if links == [] then [] else
    [if links[0].ImageLink? then Image(links[0].url) else Video(links[0].url)] + LinkEvents(links[1..])
  }

  /** deduplicateMedia: the first occurrence of each media event is kept, everything else passes. */
  function Deduplicate(es: seq<Event>): (r: seq<Event>)
    ensures forall e | e in r :: e in es
  {
    if es == [] then [] else
    var init, e := Deduplicate(es[..|es| - 1]), es[|es| - 1];
    if (e.Image? || e.Video?) && e in init then init else init + [e]
  }

  // ---- tool states ----

  function KeyOf(make: string -> ToolKey, value: Option<string>): seq<ToolKey> {
    if Get(value) == "" then [] else [make(Get(value))]
  }

  function ToolKeys(p: Payload, item: Option<Item>): seq<ToolKey> {
    KeyOf(s => ItemKey(s), p.itemId) + KeyOf(s => CallKey(s), p.callId) +
    (if item.Some? then KeyOf(s => ItemKey(s), item.value.id) + KeyOf(s => CallKey(s), item.value.callId) else []) +
    (if p.outputIndex.Some? then [OutputKey(p.outputIndex.value)] else [])
  }

  /** The tool bound to the first key that is bound at all. */
  function Find(tools: map<ToolKey, nat>, keys: seq<ToolKey>): Option<nat> {
    if keys == [] then None
    else if keys[0] in tools then Some(tools[keys[0]])
    else Find(tools, keys[1..])
  }

  function BindKeys(tools: map<ToolKey, nat>, keys: seq<ToolKey>, k: nat): map<ToolKey, nat> {
    if keys == [] then tools else BindKeys(tools, keys[..|keys| - 1], k)[keys[|keys| - 1] := k]
  }

  function Bind(p: ParserState, keys: seq<ToolKey>, k: nat): map<ToolKey, nat>
    requires k < |p.states|
  {
    BindKeys(p.tools, keys, k)[CallKey(p.states[k].id) := k]
  }

  function Restore(reverseNames: map<string, string>, name: string): string {
    if name in reverseNames && reverseNames[name] != "" then reverseNames[name] else name
  }

  function OrElse(value: string, fallback: string): string {
    if value != "" then value else fallback
  }

  function Refreshed(p: ParserState, t: ToolState, item: Option<Item>): ToolState {
    if item.None? then t else
    var i := item.value;
    t.(id := OrElse(Get(First(i.callId, i.id)), t.id),
       itemId := OrElse(Get(i.id), t.itemId),
       name := if Get(i.name) != "" then Restore(p.reverseNames, Get(i.name)) else t.name)
  }

  function TrimCallPrefix(id: string): string {
    if Text.HasPrefix(id, "call_") then id[5..] else id
  }

  function Fresh(p: ParserState, payload: Payload, item: Option<Item>): ToolState {
    var k := |p.states|;
    var id0 := if item.Some? then Get(First(item.value.callId, item.value.id)) else "";
    var id1 := OrElse(id0, Get(First(First(payload.callId, payload.itemId), payload.id)));
    var item0 := if item.Some? then Get(item.value.id) else "";
    var itemId := OrElse(OrElse(item0, Get(payload.itemId)), "fc_" + TrimCallPrefix(id1));
    var name := if item.Some? then Restore(p.reverseNames, Get(item.value.name)) else "";
    ToolState(OrElse(id1, "call_" + Text.Decimal(k)), itemId, name, k, false, false)
  }

  /** toolState: the position of the tool a payload is about, found by its keys or created. */
  function ToolAt(p: ParserState, payload: Payload, item: Option<Item>): (k: nat)
    requires p.Valid()
    ensures k <= |p.states|
  {
    var keys := ToolKeys(payload, item);
    FindBound(p.tools, keys, |p.states|);
    var found := Find(p.tools, keys);
    if found.Some? then found.value else |p.states|
  }

  lemma {:induction false} FindBound(tools: map<ToolKey, nat>, keys: seq<ToolKey>, n: nat)
    requires forall key | key in tools :: tools[key] < n
    ensures Find(tools, keys).Some? ==> Find(tools, keys).value < n
  {
    if keys != [] {
      FindBound(tools, keys[1..], n);
    }
  }

  lemma {:induction false} BindKeysBound(tools: map<ToolKey, nat>, keys: seq<ToolKey>, k: nat, n: nat)
    requires k < n && forall key | key in tools :: tools[key] < n
    ensures forall key | key in BindKeys(tools, keys, k) :: BindKeys(tools, keys, k)[key] < n
  {
    if keys != [] {
      BindKeysBound(tools, keys[..|keys| - 1], k, n);
    }
  }

  function WithTool(p: ParserState, payload: Payload, item: Option<Item>): (r: ParserState)
    requires p.Valid()
    ensures r.Valid() && ToolAt(p, payload, item) < |r.states| && r.done == p.done && r.reverseNames == p.reverseNames
  {
    var keys, k := ToolKeys(payload, item), ToolAt(p, payload, item);
    var p1 := if k < |p.states| then p else p.(states := p.states + [Fresh(p, payload, item)]);
    BindKeysBound(p1.tools, keys, k, |p1.states|);
    var p2 := p1.(tools := Bind(p1, keys, k));
    if k < |p.states| then p2.(states := p2.states[k := Refreshed(p, p2.states[k], item)]) else p2
  }

  function CallEvent(t: ToolState, arguments: string): Event {
    ToolCall(t.id, t.itemId, t.name, arguments, t.index)
  }

  function SetTool(p: ParserState, k: nat, t: ToolState): (r: ParserState)
    requires p.Valid() && k < |p.states|
    ensures r.Valid() && r.done == p.done && r.reverseNames == p.reverseNames
  {
    p.(states := p.states[k := t])
  }

  function ParseDelta(p: ParserState, payload: Payload): (r: Parsed)
    requires p.Valid()
    ensures r.parser.Valid()
  {
    var k, q := ToolAt(p, payload, None), WithTool(p, payload, None);
    Parsed(SetTool(q, k, q.states[k].(argumentsSeen := true)), [CallEvent(q.states[k], Get(payload.delta))])
  }

  function ParseArgumentsDone(p: ParserState, payload: Payload): (r: Parsed)
    requires p.Valid()
    ensures r.parser.Valid()
  {
    var k, q := ToolAt(p, payload, None), WithTool(p, payload, None);
    if q.states[k].argumentsSeen then Parsed(q, []) else
    Parsed(SetTool(q, k, q.states[k].(argumentsSeen := true)), [CallEvent(q.states[k], Get(payload.arguments))])
  }

  /** The first item of a tool announces it; a later done item only fills in arguments never seen. */
  function Announce(q: ParserState, k: nat, arguments: string, done: bool): (r: Parsed)
    requires q.Valid() && k < |q.states|
    ensures r.parser.Valid()
  {
    var t := q.states[k];
    if t.announced then
      if done && arguments != "" && !t.argumentsSeen then
        Parsed(SetTool(q, k, t.(argumentsSeen := true)), [CallEvent(t, arguments)])
      else Parsed(q, [])
    else
      Parsed(SetTool(q, k, t.(announced := true, argumentsSeen := arguments != "")), [CallEvent(t, arguments)])
  }

  /** functionItem. */
  function ParseItem(p: ParserState, payload: Payload, item: Item, done: bool): (r: Parsed)
    requires p.Valid()
    ensures r.parser.Valid()
  {
    Announce(WithTool(p, payload, Some(item)), ToolAt(p, payload, Some(item)), Get(item.arguments), done)
  }

  /** imageItem. */
  function ParseImage(p: ParserState, payload: Payload, item: Option<Item>): (r: Parsed)
    requires p.Valid()
    ensures r.parser.Valid()
  {
    var value := OrElse(Get(payload.partialImage), if item.Some? then Get(item.value.result) else "");
    var id := OrElse(Get(payload.itemId), if item.Some? then Get(item.value.id) else "");
    if value == "" || (id != "" && id in p.images && p.images[id] == value) then Parsed(p, [])
    else Parsed(if id == "" then p else p.(images := p.images[id := value]), [Image(value)])
  }

  function TextEvent(e: Event): seq<Event>
    requires e.TextDelta? || e.ReasoningDelta?
  {
    if e.text == "" then [] else [e]
  }

  /** grokWebEvents. */
  function ParseWeb(p: ParserState, w: WebResponse): (r: Parsed)
    requires p.Valid()
    ensures r.parser.Valid()
  {
    if w.error.Some? then Parsed(p, [Error(w.error.value)]) else
    var token := if w.token == "" then [] else [if w.isThinking then ReasoningDelta(w.token) else TextDelta(w.token)];
    var events := Deduplicate(LinkEvents(w.links) + token + MediaEvents(w.leaves)) +
                  if w.finalMetadata then UsageEvents(w.finalUsage) else [];
    if w.softStop || w.finalMetadata then Parsed(p.(done := true), events + [Done]) else Parsed(p, events)
  }

  /** The end of `parse`, for payloads no case of the switch returns from. */
  function ParseRest(p: ParserState, payload: Payload): (r: Parsed)
    requires p.Valid()
    ensures r.parser.Valid()
  {
    if payload.web.Some? then ParseWeb(p, payload.web.value)
    else if payload.chatDelta != "" then Parsed(p, [TextDelta(payload.chatDelta)])
    else Parsed(p, MediaEvents(payload.leaves))
  }

  /** How a type is spelled. */
  function TypeText(typ: TypeName): string {
    match typ
    case Absent => ""
    case OutputItemAdded => "response.output_item.added"
    case OutputItemDone => "response.output_item.done"
    case ArgumentsDelta => "response.function_call_arguments.delta"
    case ArgumentsDone => "response.function_call_arguments.done"
    case PartialImage => "response.image_generation_call.partial_image"
    case ReasoningSummaryDelta => "response.reasoning_summary_text.delta"
    case ReasoningTextDelta => "response.reasoning_text.delta"
    case OutputTextDelta => "response.output_text.delta"
    case ContentDelta => "response.content.delta"
    case Completed => "response.completed"
    case Failed => "response.failed"
    case Incomplete => "response.incomplete"
    case Other(name) => name
  }

  const KNOWN_TYPES: seq<TypeName> :=
    [OutputItemAdded, OutputItemDone, ArgumentsDelta, ArgumentsDone, PartialImage, ReasoningSummaryDelta,
     ReasoningTextDelta, OutputTextDelta, ContentDelta, Completed, Failed, Incomplete]

  function Spelled(types: seq<TypeName>, name: string): TypeName {
    if types == [] then Other(name)
    else if TypeText(types[0]) == name then types[0]
    else Spelled(types[1..], name)
  }

  /** The event name stands in for a missing type. */
  function TypeOf(eventName: string): TypeName {
    var name := Text.TrimSpace(eventName);
    if name == "" then Absent else Spelled(KNOWN_TYPES, name)
  }

  function ParseTyped(p: ParserState, typ: TypeName, payload: Payload): (r: Parsed)
    requires p.Valid()
    ensures r.parser.Valid()
  {
    match typ
    case OutputItemAdded => ParseItemFrame(p, payload, false)
    case OutputItemDone => ParseItemFrame(p, payload, true)
    case ArgumentsDelta => ParseDelta(p, payload)
    case ArgumentsDone => ParseArgumentsDone(p, payload)
    case PartialImage => ParseImage(p, payload, None)
    case ReasoningSummaryDelta => Parsed(p, TextEvent(ReasoningDelta(Get(First(payload.delta, payload.text)))))
    case ReasoningTextDelta => Parsed(p, TextEvent(ReasoningDelta(Get(First(payload.delta, payload.text)))))
    case OutputTextDelta => Parsed(p, TextEvent(TextDelta(Get(First(payload.delta, payload.text)))))
    case ContentDelta => Parsed(p, TextEvent(TextDelta(Get(First(payload.delta, payload.text)))))
    case Completed =>
      Parsed(p.(done := true), UsageEvents(if payload.usage.Some? then payload.usage else payload.responseUsage) +
             [Done])
    case Failed => Parsed(p.(done := true), [Error(payload.errorText)])
    case Incomplete => Parsed(p.(done := true), [Error(payload.errorText)])
    case _ => ParseRest(p, payload)
  }

  function ParseItemFrame(p: ParserState, payload: Payload, done: bool): (r: Parsed)
    requires p.Valid()
    ensures r.parser.Valid()
  {
    if payload.item.Some? && payload.item.value.typ.FunctionCall? then ParseItem(p, payload, payload.item.value, done)
    else if payload.item.Some? && payload.item.value.typ.ImageGeneration? then ParseImage(p, payload, payload.item)
    else ParseRest(p, payload)
  }

  predicate IsError(typ: TypeName, payload: Payload) {
    (typ.Other? && Contains(typ.name, "error")) || payload.hasError
  }

  /** One decoded payload. */
  function ParsePayload(p: ParserState, eventName: string, payload: Payload): (r: Parsed)
    requires p.Valid()
    ensures r.parser.Valid()
  {
    if p.done then Parsed(p, []) else
    var typ := if payload.typ.Absent? then TypeOf(eventName) else payload.typ;
    if IsError(typ, payload) then Parsed(p, [Error(payload.errorText)]) else ParseTyped(p, typ, payload)
  }

  /** What one data field decodes to. */
  datatype Data = DoneText | Object(payload: Payload) | Invalid

  function Parse(p: ParserState, eventName: string, data: Data): (r: Parsed)
    requires p.Valid()
    ensures r.parser.Valid()
  {
    match data
    case DoneText => if p.done then Parsed(p, []) else Parsed(p.(done := true), [Done])
    case Object(payload) => ParsePayload(p, eventName, payload)
    case Invalid => Parsed(p, [])
  }

  datatype Message = Message(eventName: string, data: Data)

  function ParseAll(p: ParserState, ms: seq<Message>): (r: Parsed)
    requires p.Valid()
    ensures r.parser.Valid()
  {
    if ms == [] then Parsed(p, []) else
    var init, m := ParseAll(p, ms[..|ms| - 1]), ms[|ms| - 1];
    var last := Parse(init.parser, m.eventName, m.data);
    Parsed(last.parser, init.events + last.events)
  }

  // ---- the end of a stream ----

  predicate DoneOnlyLast(es: seq<Event>) {
    forall i | 0 <= i < |es| :: es[i].Done? ==> i == |es| - 1
  }

  /** Done comes last, and a parser that has said Done is done. */
  predicate Ends(r: Parsed) {
    DoneOnlyLast(r.events) && (r.events != [] && r.events[|r.events| - 1].Done? ==> r.parser.done)
  }

  lemma WebEnds(p: ParserState, w: WebResponse)
    requires p.Valid()
    ensures Ends(ParseWeb(p, w))
  {
    if w.error.None? {
      var token := if w.token == "" then [] else [if w.isThinking then ReasoningDelta(w.token) else TextDelta(w.token)];
      var shown := LinkEvents(w.links) + token + MediaEvents(w.leaves);
      assert forall e | e in shown :: !e.Done?;
      var events := Deduplicate(shown) + if w.finalMetadata then UsageEvents(w.finalUsage) else [];
      assert forall i | 0 <= i < |events| :: events[i] in events && !events[i].Done?;
    }
  }

  lemma RestEnds(p: ParserState, payload: Payload)
    requires p.Valid()
    ensures Ends(ParseRest(p, payload))
  {
    if payload.web.Some? {
      WebEnds(p, payload.web.value);
    } else {
      var media := MediaEvents(payload.leaves);
      assert forall i | 0 <= i < |media| :: media[i] in media;
    }
  }

  lemma AnnounceEnds(q: ParserState, k: nat, arguments: string, done: bool)
    requires q.Valid() && k < |q.states|
    ensures Ends(Announce(q, k, arguments, done))
  {
  }

  lemma ItemFrameEnds(p: ParserState, payload: Payload, done: bool)
    requires p.Valid()
    ensures Ends(ParseItemFrame(p, payload, done))
  {
    if payload.item.None? || payload.item.value.typ.OtherItem? {
      RestEnds(p, payload);
    } else if payload.item.value.typ.FunctionCall? {
      var item := payload.item.value;
      AnnounceEnds(WithTool(p, payload, Some(item)), ToolAt(p, payload, Some(item)), Get(item.arguments), done);
    }
  }

  lemma ArgumentsEnd(p: ParserState, payload: Payload)
    requires p.Valid()
    ensures Ends(ParseDelta(p, payload)) && Ends(ParseArgumentsDone(p, payload))
  {
  }

  lemma ImageEnds(p: ParserState, payload: Payload)
    requires p.Valid()
    ensures Ends(ParseImage(p, payload, None))
  {
  }

  lemma CompletedEnds(p: ParserState, payload: Payload)
    requires p.Valid()
    ensures Ends(ParseTyped(p, Completed, payload))
  {
  }

  lemma TypedEnds(p: ParserState, typ: TypeName, payload: Payload)
    requires p.Valid()
    ensures Ends(ParseTyped(p, typ, payload))
  {
    match typ
    case OutputItemAdded => ItemFrameEnds(p, payload, false);
    case OutputItemDone => ItemFrameEnds(p, payload, true);
    case ArgumentsDelta => ArgumentsEnd(p, payload);
    case ArgumentsDone => ArgumentsEnd(p, payload);
    case PartialImage => ImageEnds(p, payload);
    case Completed => CompletedEnds(p, payload);
    case Absent => RestEnds(p, payload);
    case Other(_) => RestEnds(p, payload);
    case _ =>
  }

  /** A parser that is done stays silent; a message ends with Done or contains none, and then the parser is done. */
  lemma ParseEnds(p: ParserState, m: Message)
    requires p.Valid()
    ensures var r := Parse(p, m.eventName, m.data);
            Ends(r) && (p.done ==> r == Parsed(p, []))
  {
    if m.data.Object? {
      var payload := m.data.payload;
      TypedEnds(p, if payload.typ.Absent? then TypeOf(m.eventName) else payload.typ, payload);
    }
  }

  lemma EndsAppend(init: Parsed, last: Parsed)
    requires Ends(init) && Ends(last) && (init.parser.done ==> last == Parsed(init.parser, []))
    ensures Ends(Parsed(last.parser, init.events + last.events))
  {
    if last.events == [] {
      assert init.events + last.events == init.events;
    }
  }

  /** Over any run at most one Done is emitted, and nothing follows it. */
  lemma {:induction false} NothingAfterDone(p: ParserState, ms: seq<Message>)
    requires p.Valid()
    ensures Ends(ParseAll(p, ms))
  {
    if ms != [] {
      var init, m := ParseAll(p, ms[..|ms| - 1]), ms[|ms| - 1];
      NothingAfterDone(p, ms[..|ms| - 1]);
      ParseEnds(init.parser, m);
      EndsAppend(init, Parse(init.parser, m.eventName, m.data));
    }
  }
}
