/** The normalized event stream between the upstream parser and its consumers, and what a list of events means. */
module Events {
  import opened Options
  import Text

  datatype Usage = Usage(inputTokens: int, outputTokens: int, cachedTokens: int)

  const NO_USAGE := Usage(0, 0, 0)

  datatype Event =
    | TextDelta(text: string)
    | ReasoningDelta(text: string)
    | ToolCall(id: string, itemId: string, name: string, arguments: string, index: int)
    | Image(url: string)
    | Video(url: string)
    | UsageReport(usage: Usage)
    | Done
    | Error(message: string)

  /** The text a media event contributes to a streamed answer. */
  function MediaText(e: Event): string
    requires e.Image? || e.Video?
  {
    if e.Image? then "\n\n![generated image](" + e.url + ")" else "\n\n" + e.url
  }

  // Observations of an event list.  They refer to no encoder, parser or accumulator, and every consumer is
  // specified by them.

  function TextOf(es: seq<Event>): string {
    if es == [] then "" else
    var e := es[|es| - 1];
    TextOf(es[..|es| - 1]) + if e.TextDelta? then e.text else ""
  }

  function ReasoningOf(es: seq<Event>): string {
    if es == [] then "" else
    var e := es[|es| - 1];
    ReasoningOf(es[..|es| - 1]) + if e.ReasoningDelta? then e.text else ""
  }

  /** The last usage reported, if any. */
  function UsageOf(es: seq<Event>): Usage {
    if es == [] then NO_USAGE
    else if es[|es| - 1].UsageReport? then es[|es| - 1].usage
    else UsageOf(es[..|es| - 1])
  }

  /** The tool-call IDs in order of first appearance. */
  function CallIds(es: seq<Event>): seq<string> {
    if es == [] then [] else
    var ids, e := CallIds(es[..|es| - 1]), es[|es| - 1];
    if e.ToolCall? && e.id !in ids then ids + [e.id] else ids
  }

  /** All argument fragments of one call, concatenated. */
  function ArgumentsOf(es: seq<Event>, id: string): string {
    if es == [] then "" else
    var e := es[|es| - 1];
    ArgumentsOf(es[..|es| - 1], id) + if e.ToolCall? && e.id == id then e.arguments else ""
  }

  /** The last non-empty name given to one call. */
  function NameOf(es: seq<Event>, id: string): string {
    if es == [] then "" else
    var e := es[|es| - 1];
    if e.ToolCall? && e.id == id && e.name != "" then e.name else NameOf(es[..|es| - 1], id)
  }

  /** The name carried by the first event of one call. */
  function FirstNameOf(es: seq<Event>, id: string): string {
    if es == [] then "" else
    var e := es[|es| - 1];
    if id in CallIds(es[..|es| - 1]) then FirstNameOf(es[..|es| - 1], id)
    else if e.ToolCall? && e.id == id then e.name
    else ""
  }

  predicate NoMedia(es: seq<Event>) {
    forall e | e in es :: !e.Image? && !e.Video?
  }

  lemma NoMediaConcat(a: seq<Event>, b: seq<Event>)
    ensures NoMedia(a + b) <==> NoMedia(a) && NoMedia(b)
  {
    assert forall e | e in a || e in b :: e in a + b;
  }

  lemma {:induction false} TextOfConcat(a: seq<Event>, b: seq<Event>)
    ensures TextOf(a + b) == TextOf(a) + TextOf(b)
    ensures ReasoningOf(a + b) == ReasoningOf(a) + ReasoningOf(b)
  {
    AnswerConcat(a, b);
    ReasoningConcat(a, b);
  }

  lemma {:induction false} AnswerConcat(a: seq<Event>, b: seq<Event>)
    ensures TextOf(a + b) == TextOf(a) + TextOf(b)
  {
    if b == [] {
      assert a + b == a;
    } else {
      AnswerConcat(a, b[..|b| - 1]);
      assert (a + b)[..|a + b| - 1] == a + b[..|b| - 1];
    }
  }

  lemma {:induction false} ReasoningConcat(a: seq<Event>, b: seq<Event>)
    ensures ReasoningOf(a + b) == ReasoningOf(a) + ReasoningOf(b)
  {
    if b == [] {
      assert a + b == a;
    } else {
      ReasoningConcat(a, b[..|b| - 1]);
      assert (a + b)[..|a + b| - 1] == a + b[..|b| - 1];
    }
  }

  lemma {:induction false} ArgumentsOfConcat(a: seq<Event>, b: seq<Event>, id: string)
    ensures ArgumentsOf(a + b, id) == ArgumentsOf(a, id) + ArgumentsOf(b, id)
  {
    if b == [] {
      assert a + b == a;
    } else {
      ArgumentsOfConcat(a, b[..|b| - 1], id);
      assert (a + b)[..|a + b| - 1] == a + b[..|b| - 1];
      var e := b[|b| - 1];
      var last := if e.ToolCall? && e.id == id then e.arguments else "";
      Text.Regroup(ArgumentsOf(a, id), ArgumentsOf(b[..|b| - 1], id), last);
    }
  }

  /** One more tool event. */
  lemma {:induction false} CallAppended(es: seq<Event>, e: Event, id: string)
    requires e.ToolCall?
    ensures CallIds(es + [e]) == CallIds(es) + if e.id in CallIds(es) then [] else [e.id]
    ensures ArgumentsOf(es + [e], id) == ArgumentsOf(es, id) + if e.id == id then e.arguments else ""
    ensures NameOf(es + [e], id) == if e.id == id && e.name != "" then e.name else NameOf(es, id)
  {
    assert (es + [e])[..|es|] == es;
  }

  lemma {:induction false} CallIdsDistinct(es: seq<Event>)
    ensures forall i, j | 0 <= i < j < |CallIds(es)| :: CallIds(es)[i] != CallIds(es)[j]
  {
    if es != [] {
      CallIdsDistinct(es[..|es| - 1]);
    }
  }

  /** A call that never occurs has no arguments and no name. */
  lemma {:induction false} UnseenCall(es: seq<Event>, id: string)
    requires id !in CallIds(es)
    ensures ArgumentsOf(es, id) == "" && NameOf(es, id) == "" && FirstNameOf(es, id) == ""
  {
    if es != [] {
      UnseenCall(es[..|es| - 1], id);
    }
  }

  /** Events of other kinds leave the tool observations alone. */
  lemma {:induction false} NoToolsAppended(a: seq<Event>, b: seq<Event>, id: string)
    requires forall e | e in b :: !e.ToolCall?
    ensures CallIds(a + b) == CallIds(a)
    ensures ArgumentsOf(a + b, id) == ArgumentsOf(a, id) && NameOf(a + b, id) == NameOf(a, id)
  {
    if b == [] {
      assert a + b == a;
    } else {
      NoToolsAppended(a, b[..|b| - 1], id);
      assert (a + b)[..|a + b| - 1] == a + b[..|b| - 1];
    }
  }
}
