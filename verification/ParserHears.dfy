/**
 What the upstream parser makes of each kind of message: text, reasoning, usage, media and errors, and when it ends.

 A message is classified by its own fields.  What a whole stream should give is told from the messages up to the first
 one that ends it; theorem `StreamIsHeard` says that the parser emits exactly that.
 */
module ParserHears {

  import opened Options
  import opened Events
  import opened Parser
  import Text

  // ---- kinds of messages ----

  /** The type of an object, or the event name that stands in for it. */
  function Kind(m: Message): TypeName
    requires m.data.Object?
  {
    if m.data.payload.typ.Absent? then TypeOf(m.eventName) else m.data.payload.typ
  }

  /** An object that reports an error, by its type or by an error of its own. */
  predicate Wrong(m: Message) {
    m.data.Object? && (m.data.payload.hasError || (Kind(m).Other? && Contains(Kind(m).name, "error")))
  }

  predicate Sound(m: Message) {
    m.data.Object? && !Wrong(m)
  }

  predicate Fails(m: Message) {
    Sound(m) && (Kind(m).Failed? || Kind(m).Incomplete?)
  }

  predicate Completes(m: Message) {
    Sound(m) && Kind(m).Completed?
  }

  predicate ItemFrame(m: Message) {
    Sound(m) && (Kind(m).OutputItemAdded? || Kind(m).OutputItemDone?)
  }

  predicate HasItem(m: Message, typ: ItemType) {
    ItemFrame(m) && m.data.payload.item.Some? && m.data.payload.item.value.typ == typ
  }

  /** An object of no known type, or an item of no known type. */
  predicate Unknown(m: Message) {
    (Sound(m) && (Kind(m).Absent? || Kind(m).Other?)) ||
    (ItemFrame(m) && !HasItem(m, FunctionCall) && !HasItem(m, ImageGeneration))
  }

  predicate IsWeb(m: Message) {
    Unknown(m) && m.data.payload.web.Some?
  }

  /** A web answer without an error. */
  predicate WebAnswer(m: Message) {
    IsWeb(m) && m.data.payload.web.value.error.None?
  }

  predicate WebEnd(m: Message) {
    WebAnswer(m) && (m.data.payload.web.value.softStop || m.data.payload.web.value.finalMetadata)
  }

  predicate IsChat(m: Message) {
    Unknown(m) && m.data.payload.web.None? && m.data.payload.chatDelta != ""
  }

  /** [DONE], a completed response or the end of a web answer. */
  predicate Finishes(m: Message) {
    m.data.DoneText? || Completes(m) || WebEnd(m)
  }

  predicate Closes(m: Message) {
    Finishes(m) || Fails(m)
  }

  // ---- what one message says ----

  function ErrorBy(m: Message): seq<string> {
    if Wrong(m) || Fails(m) then [m.data.payload.errorText]
    else if IsWeb(m) && m.data.payload.web.value.error.Some? then [m.data.payload.web.value.error.value]
    else []
  }

  function TextBy(m: Message): string {
    if Sound(m) && (Kind(m).OutputTextDelta? || Kind(m).ContentDelta?)
    then Get(First(m.data.payload.delta, m.data.payload.text))
    else if WebAnswer(m) && !m.data.payload.web.value.isThinking then m.data.payload.web.value.token
    else if IsChat(m) then m.data.payload.chatDelta
    else ""
  }

  function ReasoningBy(m: Message): string {
    if Sound(m) && (Kind(m).ReasoningSummaryDelta? || Kind(m).ReasoningTextDelta?)
    then Get(First(m.data.payload.delta, m.data.payload.text))
    else if WebAnswer(m) && m.data.payload.web.value.isThinking then m.data.payload.web.value.token
    else ""
  }

  function UsageBy(m: Message): Option<UsageObject> {
    if Completes(m) then
      (if m.data.payload.usage.Some? then m.data.payload.usage else m.data.payload.responseUsage)
    else if WebAnswer(m) && m.data.payload.web.value.finalMetadata then m.data.payload.web.value.finalUsage
    else None
  }

  // ---- what a stream says ----

  /** No message so far ends the stream. */
  predicate Open(ms: seq<Message>) {
    forall i | 0 <= i < |ms| :: !Closes(ms[i])
  }

  function HeardErrors(ms: seq<Message>): seq<string> {
    if ms == [] then [] else
    HeardErrors(ms[..|ms| - 1]) + if Open(ms[..|ms| - 1]) then ErrorBy(ms[|ms| - 1]) else []
  }

  function HeardText(ms: seq<Message>): string {
    if ms == [] then "" else
    HeardText(ms[..|ms| - 1]) + if Open(ms[..|ms| - 1]) then TextBy(ms[|ms| - 1]) else ""
  }

  function HeardReasoning(ms: seq<Message>): string {
    if ms == [] then "" else
    HeardReasoning(ms[..|ms| - 1]) + if Open(ms[..|ms| - 1]) then ReasoningBy(ms[|ms| - 1]) else ""
  }

  function HeardUsage(ms: seq<Message>): Usage {
    if ms == [] then NO_USAGE
    else if Open(ms[..|ms| - 1]) && UsageBy(ms[|ms| - 1]).Some? then ReadUsage(UsageBy(ms[|ms| - 1]).value)
    else HeardUsage(ms[..|ms| - 1])
  }

  /** The first message that ends the stream finishes it. */
  predicate HeardDone(ms: seq<Message>) {
    exists i | 0 <= i < |ms| :: Finishes(ms[i]) && Open(ms[..i])
  }

  // ---- what a list of events says ----

  function Errors(es: seq<Event>): seq<string> {
    if es == [] then [] else
    Errors(es[..|es| - 1]) + if es[|es| - 1].Error? then [es[|es| - 1].message] else []
  }

  predicate HasDone(es: seq<Event>) {
    exists e :: e in es && e.Done?
  }

  predicate HasUsage(es: seq<Event>) {
    exists e :: e in es && e.UsageReport?
  }

  lemma {:induction false} ErrorsConcat(a: seq<Event>, b: seq<Event>)
    ensures Errors(a + b) == Errors(a) + Errors(b)
  {
    if b == [] {
      assert a + b == a;
    } else {
      ErrorsConcat(a, b[..|b| - 1]);
      assert (a + b)[..|a + b| - 1] == a + b[..|b| - 1];
      Text.Regroup(Errors(a), Errors(b[..|b| - 1]), if b[|b| - 1].Error? then [b[|b| - 1].message] else []);
    }
  }

  lemma {:induction false} UsageConcat(a: seq<Event>, b: seq<Event>)
    ensures UsageOf(a + b) == if HasUsage(b) then UsageOf(b) else UsageOf(a)
  {
    if b == [] {
      assert a + b == a;
    } else {
      var init, e := b[..|b| - 1], b[|b| - 1];
      UsageConcat(a, init);
      assert (a + b)[..|a + b| - 1] == a + init;
      assert e in b && b == init + [e];
      assert HasUsage(b) <==> HasUsage(init) || e.UsageReport?;
    }
  }

  lemma HasConcat(a: seq<Event>, b: seq<Event>)
    ensures (HasDone(a + b) <==> HasDone(a) || HasDone(b)) && (HasUsage(a + b) <==> HasUsage(a) || HasUsage(b))
  {
    assert forall e | e in a || e in b :: e in a + b;
  }

  /** Events of other kinds say nothing. */
  lemma {:induction false} NothingSaid(es: seq<Event>)
    requires forall e | e in es :: e.ToolCall? || e.Image? || e.Video?
    ensures Errors(es) == [] && TextOf(es) == "" && ReasoningOf(es) == "" && !HasUsage(es) && !HasDone(es)
  {
    if es != [] {
      assert es[|es| - 1] in es;
      NothingSaid(es[..|es| - 1]);
    }
  }

  lemma {:induction false} OneSaid(e: Event)
    ensures Errors([e]) == (if e.Error? then [e.message] else []) && (HasDone([e]) <==> e.Done?)
    ensures TextOf([e]) == (if e.TextDelta? then e.text else "")
    ensures ReasoningOf([e]) == (if e.ReasoningDelta? then e.text else "")
    ensures (HasUsage([e]) <==> e.UsageReport?) && (e.UsageReport? ==> UsageOf([e]) == e.usage)
  {
    assert [e][..0] == [] && e in [e];
  }

  /** The events of one message. */
  predicate Says(es: seq<Event>, errors: seq<string>, text: string, reasoning: string, usage: Option<UsageObject>,
                 finished: bool) {
    && Errors(es) == errors && TextOf(es) == text && ReasoningOf(es) == reasoning && (HasDone(es) <==> finished)
    && (HasUsage(es) <==> usage.Some?) && (usage.Some? ==> UsageOf(es) == ReadUsage(usage.value))
  }

  lemma SaysBoth(a: seq<Event>, b: seq<Event>, errors: seq<string>, text: string, reasoning: string,
                 usage: Option<UsageObject>, finished: bool)
    requires Says(a, [], text, reasoning, None, false) && Says(b, errors, "", "", usage, finished)
    ensures Says(a + b, errors, text, reasoning, usage, finished)
  {
    ErrorsConcat(a, b);
    TextOfConcat(a, b);
    UsageConcat(a, b);
    HasConcat(a, b);
  }

  lemma Silence(es: seq<Event>)
    requires forall e | e in es :: e.ToolCall? || e.Image? || e.Video?
    ensures Says(es, [], "", "", None, false)
  {
    NothingSaid(es);
  }

  // ---- web answers ----

  predicate Shown(e: Event) {
    e.TextDelta? || e.ReasoningDelta? || e.Image? || e.Video?
  }

  /** Leaving out repeated media leaves the text alone. */
  lemma {:induction false} DeduplicateSays(es: seq<Event>)
    requires forall e | e in es :: Shown(e)
    ensures Says(Deduplicate(es), [], TextOf(es), ReasoningOf(es), None, false)
  {
    if es == [] {
      NothingSaid([]);
    } else {
      var init, e := es[..|es| - 1], es[|es| - 1];
      assert e in es && forall f | f in init :: f in es;
      DeduplicateSays(init);
      OneSaid(e);
      var kept := Deduplicate(init);
      ErrorsConcat(kept, [e]);
      TextOfConcat(kept, [e]);
      UsageConcat(kept, [e]);
      HasConcat(kept, [e]);
    }
  }

  function TokenEvents(w: WebResponse): seq<Event> {
    if w.token == "" then [] else [if w.isThinking then ReasoningDelta(w.token) else TextDelta(w.token)]
  }

  lemma ShownText(w: WebResponse)
    ensures var es := LinkEvents(w.links) + TokenEvents(w) + MediaEvents(w.leaves);
            && (forall e | e in es :: Shown(e))
            && TextOf(es) == (if w.isThinking then "" else w.token)
            && ReasoningOf(es) == (if w.isThinking then w.token else "")
  {
    var links, token, media := LinkEvents(w.links), TokenEvents(w), MediaEvents(w.leaves);
    NothingSaid(links);
    NothingSaid(media);
    TokenSays(w);
    TextOfConcat(links, token);
    TextOfConcat(links + token, media);
  }

  lemma TokenSays(w: WebResponse)
    ensures TextOf(TokenEvents(w)) == if w.isThinking then "" else w.token
    ensures ReasoningOf(TokenEvents(w)) == if w.isThinking then w.token else ""
  {
    if w.token != "" {
      OneSaid(TokenEvents(w)[0]);
      assert TokenEvents(w) == [TokenEvents(w)[0]];
    }
  }

  function WebTail(w: WebResponse): seq<Event> {
    (if w.finalMetadata then UsageEvents(w.finalUsage) else []) + (if w.softStop || w.finalMetadata then [Done] else [])
  }

  lemma WebTailSays(w: WebResponse)
    ensures Says(WebTail(w), [], "", "", if w.finalMetadata then w.finalUsage else None, w.softStop || w.finalMetadata)
  {
    var usage := if w.finalMetadata then UsageEvents(w.finalUsage) else [];
    var done := if w.softStop || w.finalMetadata then [Done] else [];
    NothingSaid([]);
    OneSaid(Done);
    if usage != [] {
      OneSaid(usage[0]);
    }
    ErrorsConcat(usage, done);
    TextOfConcat(usage, done);
    UsageConcat(usage, done);
    HasConcat(usage, done);
  }

  lemma WebSays(p: ParserState, w: WebResponse)
    requires p.Valid() && w.error.None?
    ensures Says(ParseWeb(p, w).events, [], if w.isThinking then "" else w.token, if w.isThinking then w.token else "",
                 if w.finalMetadata then w.finalUsage else None, w.softStop || w.finalMetadata)
    ensures ParseWeb(p, w).parser.done <==> p.done || w.softStop || w.finalMetadata
  {
    var shown := LinkEvents(w.links) + TokenEvents(w) + MediaEvents(w.leaves);
    ShownText(w);
    DeduplicateSays(shown);
    WebTailSays(w);
    SaysBoth(Deduplicate(shown), WebTail(w), [], TextOf(shown), ReasoningOf(shown),
             if w.finalMetadata then w.finalUsage else None, w.softStop || w.finalMetadata);
    WebEventsAre(p, w);
  }

  lemma WebEventsAre(p: ParserState, w: WebResponse)
    requires p.Valid() && w.error.None?
    ensures ParseWeb(p, w).events ==
            Deduplicate(LinkEvents(w.links) + TokenEvents(w) + MediaEvents(w.leaves)) + WebTail(w)
  {
    var shown := Deduplicate(LinkEvents(w.links) + TokenEvents(w) + MediaEvents(w.leaves));
    var usage := if w.finalMetadata then UsageEvents(w.finalUsage) else [];
    Text.Regroup(shown, usage, [Done]);
    assert usage + [] == usage;
  }

  // ---- one message ----

  /** What an open parser does with a message. */
  ghost predicate Hears(r: Parsed, m: Message) {
    && Says(r.events, ErrorBy(m), TextBy(m), ReasoningBy(m), UsageBy(m), Finishes(m))
    && (r.parser.done <==> Closes(m))
  }

  lemma SoundDispatch(p: ParserState, m: Message)
    requires p.Valid() && !p.done && Sound(m)
    ensures Parse(p, m.eventName, m.data) == ParseTyped(p, Kind(m), m.data.payload)
  {
  }

  lemma UnknownDispatch(p: ParserState, m: Message)
    requires p.Valid() && !p.done && Unknown(m)
    ensures Parse(p, m.eventName, m.data) == ParseRest(p, m.data.payload)
  {
    SoundDispatch(p, m);
  }

  /** What a web answer says, as a message. */
  lemma WebBy(m: Message)
    requires IsWeb(m)
    ensures var w := m.data.payload.web.value;
            if w.error.Some?
            then Says([Error(w.error.value)], ErrorBy(m), TextBy(m), ReasoningBy(m), UsageBy(m), Finishes(m)) &&
                 !Closes(m)
            else && ErrorBy(m) == [] && TextBy(m) == (if w.isThinking then "" else w.token)
                 && ReasoningBy(m) == (if w.isThinking then w.token else "")
                 && UsageBy(m) == (if w.finalMetadata then w.finalUsage else None)
                 && (Finishes(m) <==> w.softStop || w.finalMetadata) && (Closes(m) <==> Finishes(m))
  {
    if m.data.payload.web.value.error.Some? {
      OneSaid(Error(m.data.payload.web.value.error.value));
    }
  }

  lemma OtherBy(m: Message)
    requires Unknown(m) && !IsWeb(m)
    ensures ErrorBy(m) == [] && TextBy(m) == m.data.payload.chatDelta && ReasoningBy(m) == "" && UsageBy(m).None?
    ensures !Closes(m)
  {
  }

  lemma HearsUnknown(p: ParserState, m: Message)
    requires p.Valid() && !p.done && Unknown(m)
    ensures Hears(Parse(p, m.eventName, m.data), m)
  {
    var payload := m.data.payload;
    UnknownDispatch(p, m);
    if payload.web.Some? {
      WebBy(m);
      if payload.web.value.error.None? {
        WebSays(p, payload.web.value);
      }
    } else {
      OtherBy(m);
      HearsOther(p, payload);
    }
  }

  lemma HearsOther(p: ParserState, payload: Payload)
    requires p.Valid() && !p.done && payload.web.None?
    ensures var r := ParseRest(p, payload); Says(r.events, [], payload.chatDelta, "", None, false) && r.parser == p
  {
    if payload.chatDelta != "" {
      OneSaid(TextDelta(payload.chatDelta));
    } else {
      Silence(MediaEvents(payload.leaves));
    }
  }

  /** A frame of a tool call or of an image. */
  predicate ToolOrImage(m: Message) {
    Sound(m) && (Kind(m).ArgumentsDelta? || Kind(m).ArgumentsDone? || Kind(m).PartialImage? ||
                 HasItem(m, FunctionCall) || HasItem(m, ImageGeneration))
  }

  lemma ToolBy(m: Message)
    requires ToolOrImage(m)
    ensures ErrorBy(m) == [] && TextBy(m) == "" && ReasoningBy(m) == "" && UsageBy(m).None? && !Closes(m)
  {
  }

  /** Only tool calls and images, and the parser stays open. */
  predicate ToolEvents(r: Parsed) {
    !r.parser.done && forall e | e in r.events :: e.ToolCall? || e.Image?
  }

  lemma ItemEvents(p: ParserState, payload: Payload, done: bool)
    requires p.Valid() && !p.done && payload.item.Some? && !payload.item.value.typ.OtherItem?
    ensures ToolEvents(ParseItemFrame(p, payload, done))
  {
    if payload.item.value.typ.FunctionCall? {
      var item := payload.item.value;
      AnnounceEvents(WithTool(p, payload, Some(item)), ToolAt(p, payload, Some(item)), Get(item.arguments), done);
    }
  }

  lemma AnnounceEvents(q: ParserState, k: nat, arguments: string, done: bool)
    requires q.Valid() && !q.done && k < |q.states|
    ensures ToolEvents(Announce(q, k, arguments, done))
  {
  }

  lemma ArgumentEvents(p: ParserState, payload: Payload)
    requires p.Valid() && !p.done
    ensures ToolEvents(ParseDelta(p, payload)) && ToolEvents(ParseArgumentsDone(p, payload))
  {
  }

  lemma HearsTool(p: ParserState, m: Message)
    requires p.Valid() && !p.done && ToolOrImage(m)
    ensures Hears(Parse(p, m.eventName, m.data), m)
  {
    SoundDispatch(p, m);
    ToolBy(m);
    ToolTyped(p, m);
    Silence(Parse(p, m.eventName, m.data).events);
  }

  lemma ToolTyped(p: ParserState, m: Message)
    requires p.Valid() && !p.done && ToolOrImage(m)
    ensures ToolEvents(ParseTyped(p, Kind(m), m.data.payload))
  {
    if ItemFrame(m) {
      ItemEvents(p, m.data.payload, Kind(m).OutputItemDone?);
    } else {
      ArgumentEvents(p, m.data.payload);
    }
  }

  predicate TextFrame(m: Message) {
    Sound(m) && (Kind(m).OutputTextDelta? || Kind(m).ContentDelta? || Kind(m).ReasoningSummaryDelta? ||
                 Kind(m).ReasoningTextDelta?)
  }

  lemma HearsText(p: ParserState, m: Message)
    requires p.Valid() && !p.done && TextFrame(m)
    ensures Hears(Parse(p, m.eventName, m.data), m)
  {
    SoundDispatch(p, m);
    var es := Parse(p, m.eventName, m.data).events;
    if es == [] {
      NothingSaid(es);
    } else {
      OneSaid(es[0]);
      assert es == [es[0]];
    }
  }

  lemma HearsCompleted(p: ParserState, m: Message)
    requires p.Valid() && !p.done && Completes(m)
    ensures Hears(Parse(p, m.eventName, m.data), m)
  {
    SoundDispatch(p, m);
    CompletedBy(m);
    UsageThenDone(UsageBy(m));
  }

  lemma CompletedBy(m: Message)
    requires Completes(m)
    ensures ErrorBy(m) == [] && TextBy(m) == "" && ReasoningBy(m) == "" && Finishes(m)
    ensures UsageBy(m) == if m.data.payload.usage.Some? then m.data.payload.usage else m.data.payload.responseUsage
  {
  }

  lemma UsageThenDone(u: Option<UsageObject>)
    ensures Says(UsageEvents(u) + [Done], [], "", "", u, true)
  {
    var usage := UsageEvents(u);
    NothingSaid([]);
    OneSaid(Done);
    if usage != [] {
      OneSaid(usage[0]);
    }
    ErrorsConcat(usage, [Done]);
    TextOfConcat(usage, [Done]);
    UsageConcat(usage, [Done]);
    HasConcat(usage, [Done]);
  }

  lemma HearsError(p: ParserState, m: Message)
    requires p.Valid() && !p.done && (Wrong(m) || Fails(m))
    ensures Hears(Parse(p, m.eventName, m.data), m)
  {
    ErrorDispatch(p, m);
    WrongBy(m);
    OneSaid(Error(m.data.payload.errorText));
  }

  lemma ErrorDispatch(p: ParserState, m: Message)
    requires p.Valid() && !p.done && (Wrong(m) || Fails(m))
    ensures Parse(p, m.eventName, m.data) == Parsed(p.(done := Fails(m)), [Error(m.data.payload.errorText)])
  {
    if Fails(m) {
      SoundDispatch(p, m);
    }
  }

  lemma WrongBy(m: Message)
    requires Wrong(m) || Fails(m)
    ensures ErrorBy(m) == [m.data.payload.errorText] && TextBy(m) == "" && ReasoningBy(m) == "" && UsageBy(m).None?
    ensures !Finishes(m) && (Closes(m) <==> Fails(m))
  {
  }

  lemma HearsMessage(p: ParserState, m: Message)
    requires p.Valid() && !p.done
    ensures Hears(Parse(p, m.eventName, m.data), m)
  {
    if !m.data.Object? {
      NothingSaid([]);
      OneSaid(Done);
    } else if Wrong(m) || Fails(m) {
      HearsError(p, m);
    } else if Completes(m) {
      HearsCompleted(p, m);
    } else if TextFrame(m) {
      HearsText(p, m);
    } else if Unknown(m) {
      HearsUnknown(p, m);
    } else {
      HearsTool(p, m);
    }
  }

  // ---- a whole stream ----

  ghost predicate HeardAll(r: Parsed, ms: seq<Message>) {
    && Errors(r.events) == HeardErrors(ms) && TextOf(r.events) == HeardText(ms)
    && ReasoningOf(r.events) == HeardReasoning(ms) && UsageOf(r.events) == HeardUsage(ms)
    && (HasDone(r.events) <==> HeardDone(ms)) && (r.parser.done <==> !Open(ms))
  }

  /**
   On any stream the parser emits exactly the errors, text, reasoning and usage of the messages up to the first one that
   ends it; it says Done if and only if that one is [DONE], a completed response or the end of a web answer; and it is
   silent afterwards.
   */
  lemma {:induction false} StreamIsHeard(p: ParserState, ms: seq<Message>)
    requires p.Valid() && !p.done
    ensures HeardAll(ParseAll(p, ms), ms)
  {
    if ms == [] {
      assert ParseAll(p, ms) == Parsed(p, []);
    } else {
      var init, m := ms[..|ms| - 1], ms[|ms| - 1];
      StreamIsHeard(p, init);
      var r := ParseAll(p, init);
      OpenLast(ms);
      DoneLast(ms);
      if r.parser.done {
        ParseEnds(r.parser, m);
        assert r.events + [] == r.events;
      } else {
        HearsMessage(r.parser, m);
        HeardMore(r, Parse(r.parser, m.eventName, m.data), ms);
      }
    }
  }

  lemma OpenLast(ms: seq<Message>)
    requires ms != []
    ensures Open(ms) <==> Open(ms[..|ms| - 1]) && !Closes(ms[|ms| - 1])
  {
  }

  lemma DoneLast(ms: seq<Message>)
    requires ms != []
    ensures var init, m := ms[..|ms| - 1], ms[|ms| - 1];
            HeardDone(ms) <==> HeardDone(init) || (Open(init) && Finishes(m))
  {
    var init, n := ms[..|ms| - 1], |ms| - 1;
    assert forall i | 0 <= i < n :: ms[..i] == init[..i] && ms[i] == init[i];
    if HeardDone(init) {
      var i :| 0 <= i < |init| && Finishes(init[i]) && Open(init[..i]);
      assert Finishes(ms[i]) && Open(ms[..i]);
    }
  }

  lemma HeardMore(r: Parsed, last: Parsed, ms: seq<Message>)
    requires ms != [] && HeardAll(r, ms[..|ms| - 1]) && Open(ms[..|ms| - 1]) && Hears(last, ms[|ms| - 1])
    requires Open(ms) <==> !Closes(ms[|ms| - 1])
    requires HeardDone(ms) <==> HeardDone(ms[..|ms| - 1]) || Finishes(ms[|ms| - 1])
    ensures HeardAll(Parsed(last.parser, r.events + last.events), ms)
  {
    ErrorsConcat(r.events, last.events);
    TextOfConcat(r.events, last.events);
    UsageConcat(r.events, last.events);
    HasConcat(r.events, last.events);
  }
}
