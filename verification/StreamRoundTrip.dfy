/**
 The whole way: a Responses stream as characters on the wire, with heartbeats, read by the upstream client.

 JSON is any codec `enc`/`dec` that decodes what it encodes and writes an object on one line.
 */
module StreamRoundTrip {
  import opened Options
  import opened Events
  import Accumulate
  import opened Framing
  import Text
  import Parser
  import Stream
  import CodecWitness
  import opened Encoding
  import opened RoundTrip
  import opened RoundTripTheorem

  predicate JsonText(s: string) {
    |s| >= 2 && s[0] == '{' && s[|s| - 1] == '}' && '\n' !in s
  }

  ghost predicate Codec(enc: Parser.Payload -> string, dec: string -> Option<Parser.Payload>) {
    forall p :: dec(enc(p)) == Some(p) && JsonText(enc(p))
  }

  /** There is such a codec. */
  lemma CodecExists()
    ensures exists enc: Parser.Payload -> string, dec: string -> Option<Parser.Payload> :: Codec(enc, dec)
  {
    var enc := (p: Parser.Payload) => CodecWitness.Encoded(p);
    var dec := (text: string) => CodecWitness.Decoded(text);
    forall p
      ensures dec(enc(p)) == Some(p) && JsonText(enc(p))
    {
      CodecWitness.CodecInverts(p);
    }
    assert Codec(enc, dec);
  }

  /** How the parser takes the text of a data field. */
  function DataOf(dec: string -> Option<Parser.Payload>, text: string): Parser.Data {
    if Text.TrimSpace(text) == "[DONE]" then Parser.DoneText
    else if dec(text).Some? then Parser.Object(dec(text).value)
    else Parser.Invalid
  }

  function Decoded(dec: string -> Option<Parser.Payload>, ds: seq<Dispatched>): (ms: seq<Parser.Message>)
    ensures |ms| == |ds|
  {
    seq(|ds|, i requires 0 <= i < |ds| => Parser.Message(ds[i].name, DataOf(dec, ds[i].data)))
  }

  function BlockOf(enc: Parser.Payload -> string, f: Stream.Frame, responseId: string): Block {
    if f.DoneMarker? then DataBlock("[DONE]") else EventBlock(FrameName(f), enc(Encode(f, responseId)))
  }

  function BlocksOf(enc: Parser.Payload -> string, fs: seq<Stream.Frame>, responseId: string): (bs: seq<Block>)
    ensures |bs| == |fs|
  {
    seq(|fs|, i requires 0 <= i < |fs| => BlockOf(enc, fs[i], responseId))
  }

  function NoHeartbeats(bs: seq<Block>): seq<Block> {
    if bs == [] then [] else (if bs[0].Heartbeat? then [] else [bs[0]]) + NoHeartbeats(bs[1..])
  }

  lemma {:induction false} HeartbeatsSendNothing(bs: seq<Block>)
    ensures SentAll(NoHeartbeats(bs)) == SentAll(bs)
  {
    if bs != [] {
      HeartbeatsSendNothing(bs[1..]);
      var rest := NoHeartbeats(bs[1..]);
      if !bs[0].Heartbeat? {
        assert ([bs[0]] + rest)[1..] == rest;
      } else {
        assert [] + rest == rest;
      }
    }
  }

  lemma {:induction false} OthersAreKept(bs: seq<Block>, b: Block)
    requires b in bs && !b.Heartbeat?
    ensures b in NoHeartbeats(bs)
  {
    if b != bs[0] {
      OthersAreKept(bs[1..], b);
    }
  }

  lemma {:induction false} AllSendable(bs: seq<Block>)
    requires forall b | b in NoHeartbeats(bs) :: Sendable(b)
    ensures forall b | b in bs :: Sendable(b)
  {
    forall b | b in bs
      ensures Sendable(b)
    {
      if !b.Heartbeat? {
        OthersAreKept(bs, b);
      }
    }
  }

  lemma JsonIsSendable(s: string)
    requires JsonText(s)
    ensures OneLine(s) && s != "" && Text.TrimSpace(s) == s && s != "[DONE]"
  {
  }

  lemma OpeningNameSendable(f: Stream.Frame)
    requires f.Created? || f.ContentPartAdded? || f.SummaryPartAdded?
    ensures OneLine(FrameName(f))
  {
  }

  lemma ItemNameSendable(f: Stream.Frame)
    requires f.ItemAdded? || f.ItemDone?
    ensures OneLine(FrameName(f))
  {
  }

  lemma DeltaNameSendable(f: Stream.Frame)
    requires f.OutputTextDelta? || f.SummaryTextDelta?
    ensures OneLine(FrameName(f))
  {
  }

  lemma ArgumentsNameSendable(f: Stream.Frame)
    requires f.ArgumentsDelta? || f.ArgumentsDone?
    ensures OneLine(FrameName(f))
  {
  }

  lemma SummaryNameSendable(f: Stream.Frame)
    requires f.SummaryTextDone? || f.SummaryPartDone?
    ensures OneLine(FrameName(f))
  {
  }

  lemma ClosingNameSendable(f: Stream.Frame)
    requires f.OutputTextDone? || f.ContentPartDone? || f.Completed?
    ensures OneLine(FrameName(f))
  {
  }

  lemma NameIsSendable(f: Stream.Frame)
    ensures OneLine(FrameName(f))
  {
    if f.Created? || f.ContentPartAdded? || f.SummaryPartAdded? {
      OpeningNameSendable(f);
    } else if f.ItemAdded? || f.ItemDone? {
      ItemNameSendable(f);
    } else if f.OutputTextDelta? || f.SummaryTextDelta? {
      DeltaNameSendable(f);
    } else if f.ArgumentsDelta? || f.ArgumentsDone? {
      ArgumentsNameSendable(f);
    } else if f.SummaryTextDone? || f.SummaryPartDone? {
      SummaryNameSendable(f);
    } else if f.OutputTextDone? || f.ContentPartDone? || f.Completed? {
      ClosingNameSendable(f);
    }
  }

  lemma BlockSent(enc: Parser.Payload -> string, dec: string -> Option<Parser.Payload>, f: Stream.Frame,
                  responseId: string)
    requires Codec(enc, dec)
    ensures var b := BlockOf(enc, f, responseId);
            && Sendable(b) && |Sent(b)| == 1
            && Parser.Message(Sent(b)[0].name, DataOf(dec, Sent(b)[0].data)) == FrameMessage(f, responseId)
  {
    NameIsSendable(f);
    JsonIsSendable(enc(Encode(f, responseId)));
  }

  lemma {:induction false} BlocksSent(enc: Parser.Payload -> string, dec: string -> Option<Parser.Payload>,
                                      fs: seq<Stream.Frame>, responseId: string)
    requires Codec(enc, dec)
    ensures var bs := BlocksOf(enc, fs, responseId);
            (forall b | b in bs :: Sendable(b)) && Decoded(dec, SentAll(bs)) == FrameMessages(fs, responseId)
  {
    var bs := BlocksOf(enc, fs, responseId);
    if fs != [] {
      var init, f := fs[..|fs| - 1], fs[|fs| - 1];
      BlocksSent(enc, dec, init, responseId);
      BlockSent(enc, dec, f, responseId);
      var before, b := BlocksOf(enc, init, responseId), BlockOf(enc, f, responseId);
      assert bs == before + [b];
      SentAppend(before, b);
      DecodedAppend(dec, SentAll(before), Sent(b)[0]);
      assert Sent(b) == [Sent(b)[0]];
    }
  }

  lemma DecodedAppend(dec: string -> Option<Parser.Payload>, ds: seq<Dispatched>, d: Dispatched)
    ensures Decoded(dec, ds + [d]) == Decoded(dec, ds) + [Parser.Message(d.name, DataOf(dec, d.data))]
  {
  }

  lemma {:induction false} SentAppend(bs: seq<Block>, b: Block)
    ensures SentAll(bs + [b]) == SentAll(bs) + Sent(b)
  {
    if bs == [] {
      assert [b][1..] == [];
    } else {
      SentAppend(bs[1..], b);
      assert (bs + [b])[1..] == bs[1..] + [b];
    }
  }

  /** What the client makes of the characters of a stream. */
  function ReadStream(dec: string -> Option<Parser.Payload>, text: string): seq<Event> {
    Parser.ParseAll(Parser.NewParser(NO_NAMES), Decoded(dec, Read(text))).events
  }

  /**
   The round trip of the wire format.  Take any media-free event list with stable IDs, encode it as a Responses stream,
   write it with any heartbeats in between, split it into lines and parse it: the answer is the same, one Done ends it,
   and no media appear unless the model name, the text or the reasoning is itself a media link.
   */
  lemma {:induction false} WireRoundTrip(enc: Parser.Payload -> string, dec: string -> Option<Parser.Payload>,
                                         model: string, es: seq<Event>,
                      randoms: seq<string>, responseId: string, bs: seq<Block>)
    requires Codec(enc, dec) && |randoms| == |es| && StableIds(es) && NotLink(responseId)
    requires NoHeartbeats(bs) == BlocksOf(enc, Stream.Finish(Stream.Run(Stream.Responses, model, es, randoms)).written,
                                          responseId)
    ensures var out := ReadStream(dec, RenderAll(bs));
            && SameAnswer(out, es)
            && (NoMedia(out) <==> LinkFree(model, TextOf(es), ReasoningOf(es)))
            && Parser.DoneOnlyLast(out)
  {
    var fs := Stream.Finish(Stream.Run(Stream.Responses, model, es, randoms)).written;
    BlocksSent(enc, dec, fs, responseId);
    HeartbeatsSendNothing(bs);
    AllSendable(bs);
    FramingRoundTrip(bs);
    PayloadRoundTrip(model, es, randoms, responseId);
    MediaFreeRoundTrip(model, es, randoms, responseId);
    Parser.NothingAfterDone(Parser.NewParser(NO_NAMES), FrameMessages(fs, responseId));
  }

  // ---- through the accumulator ----

  lemma {:induction false} CallsListed(es: seq<Event>, e: Event)
    requires e in es && e.ToolCall?
    ensures e.id in CallIds(es)
  {
    var init := es[..|es| - 1];
    if e in init {
      CallsListed(init, e);
    }
  }

  lemma {:induction false} ListedCalls(es: seq<Event>, id: string)
    requires id in CallIds(es)
    ensures exists e :: e in es && e.ToolCall? && e.id == id
  {
    var init := es[..|es| - 1];
    if id in CallIds(init) {
      ListedCalls(init, id);
      var e :| e in init && e.ToolCall? && e.id == id;
      assert e in es;
    } else {
      assert es[|es| - 1] in es;
    }
  }

  lemma AnswerNamed(out: seq<Event>, es: seq<Event>)
    requires SameAnswer(out, es) && Accumulate.NamedCalls(es)
    ensures Accumulate.NamedCalls(out)
  {
    forall e | e in out && e.ToolCall?
      ensures e.id != ""
    {
      CallsListed(out, e);
      ListedCalls(es, e.id);
    }
  }

  /** The same answer, with "{}" for calls without arguments. */
  predicate SameAccumulated(a: Accumulate.Accumulated, b: Accumulate.Accumulated) {
    && a.text == b.text && a.reasoning == b.reasoning && a.usage == b.usage
    && Accumulate.StopReason(a) == Accumulate.StopReason(b) && |a.tools| == |b.tools|
    && forall k | 0 <= k < |a.tools| :: a.tools[k].id == b.tools[k].id &&
                                        a.tools[k].arguments == Filled(b.tools[k].arguments)
  }

  /**
   Seen by the gateway's own non-streaming consumer, the events read back from the wire accumulate to the same answer as
   the original events, with "{}" for calls without arguments.
   */
  lemma {:induction false} AccumulatedRoundTrip(out: seq<Event>, es: seq<Event>)
    requires SameAnswer(out, es) && Accumulate.NamedCalls(es)
    ensures SameAccumulated(Accumulate.AddAll(out), Accumulate.AddAll(es))
  {
    AnswerNamed(out, es);
    Accumulate.AccumulatesNamed(out);
    Accumulate.AccumulatesNamed(es);
  }

  /**
   Written as a Responses stream, sent with heartbeats, split into lines, parsed and accumulated, the events give the
   same answer as if they were accumulated at once, with "{}" for calls without arguments.
   */
  lemma {:induction false} WireAccumulates(enc: Parser.Payload -> string, dec: string -> Option<Parser.Payload>,
                                           model: string, es: seq<Event>,
                                           randoms: seq<string>, responseId: string, bs: seq<Block>)
    requires Codec(enc, dec) && |randoms| == |es| && StableIds(es) && NotLink(responseId)
    requires NoHeartbeats(bs) == BlocksOf(enc, Stream.Finish(Stream.Run(Stream.Responses, model, es, randoms)).written,
                                          responseId)
    ensures SameAccumulated(Accumulate.AddAll(ReadStream(dec, RenderAll(bs))), Accumulate.AddAll(es))
  {
    WireRoundTrip(enc, dec, model, es, randoms, responseId, bs);
    AccumulatedRoundTrip(ReadStream(dec, RenderAll(bs)), es);
  }

  /** A name that arrives after the first event of its call is lost on the wire. */
  lemma {:induction false} LateNameIsLost(model: string, a: Event, b: Event, responseId: string)
    requires a == ToolCall("c", "i", "", "", 0) && b == ToolCall("c", "i", "f", "", 0)
    ensures var s := Stream.Run(Stream.Responses, model, [a, b], ["", ""]);
            var out := Parser.ParseAll(Parser.NewParser(NO_NAMES),
                                       FrameMessages(Stream.Finish(s).written, responseId)).events;
            NameOf(out, "c") == "" && NameOf([a, b], "c") == "f"
  {
    NamesOfLate(a, b);
    FirstNameComesBack(model, [a, b], ["", ""], responseId, "c");
  }

  lemma {:induction false} FirstNameComesBack(model: string, es: seq<Event>, randoms: seq<string>, responseId: string,
                                              id: string)
    requires |randoms| == |es| && StableIds(es) && id in CallIds(es)
    ensures var s := Stream.Run(Stream.Responses, model, es, randoms);
            NameOf(Parser.ParseAll(Parser.NewParser(NO_NAMES),
                                   FrameMessages(Stream.Finish(s).written, responseId)).events,
                                   id) == FirstNameOf(es, id)
  {
    PayloadRoundTrip(model, es, randoms, responseId);
  }

  lemma NamesOfLate(a: Event, b: Event)
    requires a == ToolCall("c", "i", "", "", 0) && b == ToolCall("c", "i", "f", "", 0)
    ensures "c" in CallIds([a, b]) && FirstNameOf([a, b], "c") == "" && NameOf([a, b], "c") == "f" && StableIds([a, b])
  {
    assert [a, b][..1] == [a] && [a][..0] == [];
    assert CallIds([a]) == ["c"] by {
      assert CallIds([]) == [];
    }
    assert FirstNameOf([a], "c") == "";
    assert "c"[0] != "i"[0];
  }
}
