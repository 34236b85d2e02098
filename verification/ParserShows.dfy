/**
 The images and videos the upstream parser emits over a whole stream, and the types that event names stand for.
 */
module ParserShows {

  import opened Options
  import opened Events
  import opened Parser
  import opened ParserHears
  import Text

  // ---- images and videos ----

  predicate IsMedia(e: Event) {
    e.Image? || e.Video?
  }

  function Media(es: seq<Event>): seq<Event> {
    if es == [] then [] else
    Media(es[..|es| - 1]) + if IsMedia(es[|es| - 1]) then [es[|es| - 1]] else []
  }

  predicate ImageFrame(m: Message) {
    (Sound(m) && Kind(m).PartialImage?) || HasItem(m, ImageGeneration)
  }

  function ImageItem(m: Message): Option<Item>
    requires ImageFrame(m)
  {
    if Kind(m).PartialImage? then None else m.data.payload.item
  }

  /** The partial image of the frame, or else the result of its item. */
  function ImageValue(m: Message): string
    requires ImageFrame(m)
  {
    if Get(m.data.payload.partialImage) != "" then Get(m.data.payload.partialImage)
    else if ImageItem(m).Some? then Get(ImageItem(m).value.result)
    else ""
  }

  function ImageId(m: Message): string
    requires ImageFrame(m)
  {
    if Get(m.data.payload.itemId) != "" then Get(m.data.payload.itemId)
    else if ImageItem(m).Some? then Get(ImageItem(m).value.id)
    else ""
  }

  predicate ImageOf(m: Message, id: string) {
    ImageFrame(m) && ImageId(m) == id && ImageValue(m) != ""
  }

  /** The last image with this ID. */
  function LastImage(ms: seq<Message>, id: string): Option<string> {
    if ms == [] then None
    else if ImageOf(ms[|ms| - 1], id) then Some(ImageValue(ms[|ms| - 1]))
    else LastImage(ms[..|ms| - 1], id)
  }

  /** An image that repeats the last one of its ID is left out, and so are the repetitions in one web answer. */
  function MediaBy(before: seq<Message>, m: Message): seq<Event> {
    if ImageFrame(m) then
      (if ImageValue(m) == "" || (ImageId(m) != "" && LastImage(before, ImageId(m)) == Some(ImageValue(m))) then []
       else [Image(ImageValue(m))])
    else if WebAnswer(m) then
      Deduplicate(LinkEvents(m.data.payload.web.value.links) + MediaEvents(m.data.payload.web.value.leaves))
    else if Unknown(m) && m.data.payload.web.None? && m.data.payload.chatDelta == "" then
      MediaEvents(m.data.payload.leaves)
    else []
  }

  function HeardMedia(ms: seq<Message>): seq<Event> {
    if ms == [] then [] else
    var init := ms[..|ms| - 1];
    HeardMedia(init) + if Open(init) then MediaBy(init, ms[|ms| - 1]) else []
  }

  lemma {:induction false} MediaConcat(a: seq<Event>, b: seq<Event>)
    ensures Media(a + b) == Media(a) + Media(b)
  {
    if b == [] {
      assert a + b == a;
    } else {
      MediaConcat(a, b[..|b| - 1]);
      assert (a + b)[..|a + b| - 1] == a + b[..|b| - 1];
      Text.Regroup(Media(a), Media(b[..|b| - 1]), if IsMedia(b[|b| - 1]) then [b[|b| - 1]] else []);
    }
  }

  lemma {:induction false} AllMedia(es: seq<Event>)
    requires forall e | e in es :: IsMedia(e)
    ensures Media(es) == es
  {
    if es != [] {
      var init, e := es[..|es| - 1], es[|es| - 1];
      assert init + [e] == es;
      MediaInit(es);
      AllMedia(init);
      MediaMore(init, e);
    }
  }

  lemma MediaInit(es: seq<Event>)
    requires es != [] && forall e | e in es :: IsMedia(e)
    ensures IsMedia(es[|es| - 1]) && forall e | e in es[..|es| - 1] :: IsMedia(e)
  {
    assert es[|es| - 1] in es && forall e | e in es[..|es| - 1] :: e in es;
  }

  lemma {:induction false} NoMediaIn(es: seq<Event>)
    requires forall e | e in es :: !IsMedia(e)
    ensures Media(es) == []
  {
    if es != [] {
      assert es[|es| - 1] in es;
      NoMediaIn(es[..|es| - 1]);
    }
  }

  lemma {:induction false} MediaMember(es: seq<Event>, e: Event)
    requires IsMedia(e)
    ensures e in Media(es) <==> e in es
  {
    if es != [] {
      MediaMember(es[..|es| - 1], e);
      assert es == es[..|es| - 1] + [es[|es| - 1]];
    }
  }

  lemma {:induction false} DeduplicateMore(es: seq<Event>, e: Event)
    ensures Deduplicate(es + [e]) ==
            if IsMedia(e) && e in Deduplicate(es) then Deduplicate(es) else Deduplicate(es) + [e]
  {
    assert (es + [e])[..|es|] == es;
  }

  lemma {:induction false} MediaMore(es: seq<Event>, e: Event)
    ensures Media(es + [e]) == if IsMedia(e) then Media(es) + [e] else Media(es)
  {
    assert (es + [e])[..|es|] == es;
  }

  /** Leaving out repetitions, and leaving out what is no media, can be done in either order. */
  lemma {:induction false} MediaOfDeduplicate(es: seq<Event>)
    ensures Media(Deduplicate(es)) == Deduplicate(Media(es))
  {
    if es != [] {
      var init, e := es[..|es| - 1], es[|es| - 1];
      MediaOfDeduplicate(init);
      assert init + [e] == es;
      DeduplicateMore(init, e);
      MediaMore(init, e);
      MediaMore(Deduplicate(init), e);
      DeduplicateMore(Media(init), e);
      if IsMedia(e) {
        MediaMember(Deduplicate(init), e);
      }
    }
  }

  lemma {:induction false} OneMedia(e: Event)
    ensures Media([e]) == if IsMedia(e) then [e] else []
  {
    assert [e][..0] == [];
  }

  lemma ShownMedia(w: WebResponse)
    ensures Media(LinkEvents(w.links) + TokenEvents(w) + MediaEvents(w.leaves)) ==
            LinkEvents(w.links) + MediaEvents(w.leaves)
  {
    var links, token, media := LinkEvents(w.links), TokenEvents(w), MediaEvents(w.leaves);
    MediaConcat(links + token, media);
    MediaConcat(links, token);
    AllMedia(links);
    AllMedia(media);
    NoMediaIn(token);
    assert links + [] == links;
  }

  lemma WebMedia(p: ParserState, w: WebResponse)
    requires p.Valid() && w.error.None?
    ensures Media(ParseWeb(p, w).events) == Deduplicate(LinkEvents(w.links) + MediaEvents(w.leaves))
  {
    var shown := LinkEvents(w.links) + TokenEvents(w) + MediaEvents(w.leaves);
    WebEventsAre(p, w);
    ShownMedia(w);
    MediaOfDeduplicate(shown);
    EndShowsNothing(Deduplicate(shown), w);
  }

  lemma {:induction false} EndShowsNothing(es: seq<Event>, w: WebResponse)
    ensures Media(es + WebTail(w)) == Media(es)
  {
    MediaConcat(es, WebTail(w));
    NoMediaIn(WebTail(w));
    assert Media(es) + [] == Media(es);
  }

  /** The parser remembers the last image of every ID. */
  ghost predicate Remembers(p: ParserState, ms: seq<Message>) {
    forall id | id != "" :: LastImage(ms, id) == if id in p.images then Some(p.images[id]) else None
  }

  ghost predicate ShowsMedia(p: ParserState, r: Parsed, before: seq<Message>, m: Message) {
    Media(r.events) == MediaBy(before, m) && (!r.parser.done ==> Remembers(r.parser, before + [m]))
  }

  /** An image frame, in terms of its value and its ID. */
  function ShowImage(p: ParserState, id: string, value: string): Parsed {
    if value == "" || (id != "" && id in p.images && p.images[id] == value) then Parsed(p, [])
    else Parsed(if id == "" then p else p.(images := p.images[id := value]), [Image(value)])
  }

  lemma ImageShown(p: ParserState, before: seq<Message>, m: Message)
    requires p.Valid() && !p.done && Remembers(p, before) && ImageFrame(m)
    ensures ShowsMedia(p, Parse(p, m.eventName, m.data), before, m)
  {
    SoundDispatch(p, m);
    ImageDispatch(p, m);
    ImageEvents(p, before, m);
    ImageRemembered(p, before, m);
  }

  lemma ImageEvents(p: ParserState, before: seq<Message>, m: Message)
    requires Remembers(p, before) && ImageFrame(m)
    ensures Media(ShowImage(p, ImageId(m), ImageValue(m)).events) == MediaBy(before, m)
  {
    var id, value := ImageId(m), ImageValue(m);
    OneMedia(Image(value));
    assert Media([]) == [];
    assert id != "" ==> LastImage(before, id) == if id in p.images then Some(p.images[id]) else None;
  }

  lemma ImageRemembered(p: ParserState, before: seq<Message>, m: Message)
    requires Remembers(p, before) && ImageFrame(m)
    ensures Remembers(ShowImage(p, ImageId(m), ImageValue(m)).parser, before + [m])
  {
    var q := ShowImage(p, ImageId(m), ImageValue(m)).parser;
    forall id | id != ""
      ensures LastImage(before + [m], id) == if id in q.images then Some(q.images[id]) else None
    {
      LastOneMore(before, m, id);
      assert LastImage(before, id) == if id in p.images then Some(p.images[id]) else None;
    }
  }

  lemma {:induction false} LastOneMore(before: seq<Message>, m: Message, id: string)
    ensures LastImage(before + [m], id) == if ImageOf(m, id) then Some(ImageValue(m)) else LastImage(before, id)
  {
    assert (before + [m])[..|before|] == before;
  }

  lemma ImageDispatch(p: ParserState, m: Message)
    requires p.Valid() && ImageFrame(m)
    ensures ParseTyped(p, Kind(m), m.data.payload) == ShowImage(p, ImageId(m), ImageValue(m))
  {
  }

  /** No other message changes what is remembered. */
  lemma ImagesStay(p: ParserState, m: Message)
    requires p.Valid() && !p.done && !ImageFrame(m)
    ensures Parse(p, m.eventName, m.data).parser.images == p.images
  {
    if Sound(m) {
      SoundDispatch(p, m);
      TypedImagesStay(p, m);
    } else if Wrong(m) {
      ErrorDispatch(p, m);
    }
  }

  lemma TypedImagesStay(p: ParserState, m: Message)
    requires p.Valid() && Sound(m) && !ImageFrame(m)
    ensures ParseTyped(p, Kind(m), m.data.payload).parser.images == p.images
  {
    if ItemFrame(m) {
      ItemImagesStay(p, m.data.payload, Kind(m).OutputItemDone?);
    } else {
      ElseImagesStay(p, Kind(m), m.data.payload);
    }
  }

  lemma ElseImagesStay(p: ParserState, typ: TypeName, payload: Payload)
    requires p.Valid() && !typ.PartialImage? && !typ.OutputItemAdded? && !typ.OutputItemDone?
    ensures ParseTyped(p, typ, payload).parser.images == p.images
  {
    if typ.ArgumentsDelta? || typ.ArgumentsDone? {
      ArgumentsImagesStay(p, payload);
    } else {
      RestImagesStay(p, payload);
    }
  }

  lemma ArgumentsImagesStay(p: ParserState, payload: Payload)
    requires p.Valid()
    ensures ParseDelta(p, payload).parser.images == p.images && ParseArgumentsDone(p, payload).parser.images == p.images
  {
  }

  lemma RestImagesStay(p: ParserState, payload: Payload)
    requires p.Valid()
    ensures ParseRest(p, payload).parser.images == p.images
  {
  }

  lemma ItemImagesStay(p: ParserState, payload: Payload, done: bool)
    requires p.Valid() && (payload.item.None? || !payload.item.value.typ.ImageGeneration?)
    ensures ParseItemFrame(p, payload, done).parser.images == p.images
  {
  }

  lemma OthersShowNothing(p: ParserState, m: Message)
    requires p.Valid() && !p.done && !ImageFrame(m) && !Unknown(m)
    ensures Media(Parse(p, m.eventName, m.data).events) == []
  {
    if Sound(m) {
      SoundDispatch(p, m);
    }
    if ToolOrImage(m) {
      CallsOnly(p, m);
    }
    NoMediaIn(Parse(p, m.eventName, m.data).events);
  }

  lemma CallsOnly(p: ParserState, m: Message)
    requires p.Valid() && ToolOrImage(m) && !ImageFrame(m)
    ensures forall e | e in ParseTyped(p, Kind(m), m.data.payload).events :: e.ToolCall?
  {
    if ItemFrame(m) {
      ItemCallsOnly(p, m.data.payload, Kind(m).OutputItemDone?);
    }
  }

  lemma ItemCallsOnly(p: ParserState, payload: Payload, done: bool)
    requires p.Valid() && payload.item.Some? && payload.item.value.typ.FunctionCall?
    ensures forall e | e in ParseItemFrame(p, payload, done).events :: e.ToolCall?
  {
  }

  lemma UnknownShows(p: ParserState, m: Message)
    requires p.Valid() && !p.done && Unknown(m)
    ensures Media(Parse(p, m.eventName, m.data).events) == MediaBy([], m)
  {
    var payload := m.data.payload;
    UnknownDispatch(p, m);
    if payload.web.Some? {
      if payload.web.value.error.Some? {
        OneMedia(Error(payload.web.value.error.value));
      } else {
        WebMedia(p, payload.web.value);
      }
    } else if payload.chatDelta != "" {
      OneMedia(TextDelta(payload.chatDelta));
    } else {
      AllMedia(MediaEvents(payload.leaves));
    }
  }

  lemma MessageShows(p: ParserState, before: seq<Message>, m: Message)
    requires p.Valid() && !p.done && Remembers(p, before)
    ensures ShowsMedia(p, Parse(p, m.eventName, m.data), before, m)
  {
    if ImageFrame(m) {
      ImageShown(p, before, m);
    } else {
      ImagesStay(p, m);
      if Unknown(m) {
        UnknownShows(p, m);
      } else {
        OthersShowNothing(p, m);
      }
      forall id | id != ""
        ensures LastImage(before + [m], id) == LastImage(before, id)
      {
        LastOneMore(before, m, id);
      }
    }
  }

  /**
   On any stream the parser emits exactly the images and videos of the messages up to the first one that ends it, an
   image that repeats the last one of its ID left out.
   */
  lemma {:induction false} MediaIsShown(p: ParserState, ms: seq<Message>)
    requires p.Valid() && !p.done && p.images == map[]
    ensures MediaShown(ParseAll(p, ms), ms)
  {
    if ms == [] {
      assert ParseAll(p, ms) == Parsed(p, []);
    } else {
      var init, m := ms[..|ms| - 1], ms[|ms| - 1];
      MediaIsShown(p, init);
      StreamIsHeard(p, init);
      assert init + [m] == ms;
      MoreIsShown(ParseAll(p, init), init, m);
    }
  }

  ghost predicate MediaShown(r: Parsed, ms: seq<Message>) {
    Media(r.events) == HeardMedia(ms) && (!r.parser.done ==> Remembers(r.parser, ms))
  }

  lemma {:induction false} HeardMediaMore(before: seq<Message>, m: Message)
    ensures HeardMedia(before + [m]) ==
            if Open(before) then HeardMedia(before) + MediaBy(before, m) else HeardMedia(before)
  {
    assert (before + [m])[..|before|] == before;
  }

  lemma MoreIsShown(r: Parsed, before: seq<Message>, m: Message)
    requires r.parser.Valid() && MediaShown(r, before) && (r.parser.done <==> !Open(before))
    ensures var last := Parse(r.parser, m.eventName, m.data);
            MediaShown(Parsed(last.parser, r.events + last.events), before + [m])
  {
    var last := Parse(r.parser, m.eventName, m.data);
    MediaConcat(r.events, last.events);
    HeardMediaMore(before, m);
    if r.parser.done {
      ParseEnds(r.parser, m);
      assert Media(r.events) + [] == Media(r.events);
    } else {
      MessageShows(r.parser, before, m);
    }
  }

  // ---- event names ----

  lemma {:induction false} SpelledIs(types: seq<TypeName>, name: string)
    ensures var typ := Spelled(types, name);
            TypeText(typ) == name && (typ in types || typ == Other(name))
    ensures (exists typ :: typ in types && TypeText(typ) == name) ==> Spelled(types, name) in types
  {
    if types != [] {
      SpelledIs(types[1..], name);
      if exists typ :: typ in types && TypeText(typ) == name {
        var typ :| typ in types && TypeText(typ) == name;
        assert typ == types[0] || typ in types[1..];
      }
    }
  }

  /** An event name is read as a type that spells it: as a known one, if one spells it, and as none if it is blank. */
  lemma EventNameSpells(eventName: string)
    ensures var name, typ := Text.TrimSpace(eventName), TypeOf(eventName);
            && (typ.Absent? <==> name == "")
            && (name != "" ==> TypeText(typ) == name && (typ in KNOWN_TYPES || typ == Other(name)))
            && (name != "" && (exists t :: t in KNOWN_TYPES && TypeText(t) == name) ==> typ in KNOWN_TYPES)
  {
    SpelledIs(KNOWN_TYPES, Text.TrimSpace(eventName));
  }

  /** Every type the parser acts on is known. */
  lemma KnownTypes(typ: TypeName)
    ensures typ in KNOWN_TYPES <==> !typ.Absent? && !typ.Other?
  {
  }
}
