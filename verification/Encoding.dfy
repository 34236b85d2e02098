/** The Responses frames as JSON payloads, and as frames of tool calls. */
module Encoding {
  import opened Options
  import opened Events
  import Stream
  import Text
  import opened Parser
  import opened ParserCalls

  function WireItem(item: Stream.Item): Item {
    match item
    case MessageItem(id, _, _) => Item(OtherItem, Some(id), None, None, None, None)
    case ReasoningItem(id, _, _) => Item(OtherItem, Some(id), None, None, None, None)
    case CallItem(id, callId, name, arguments, _) =>
      Item(FunctionCall, Some(id), Some(callId), Some(name), Some(arguments), None)
  }

  function ItemLeaves(item: Stream.Item): seq<Leaf> {
    var status := Leaf("status", if item.completed then "completed" else "in_progress");
    match item
    case MessageItem(id, text, completed) =>
      [Leaf("id", id), Leaf("type", "message"), Leaf("role", "assistant"), status] +
      if completed then [Leaf("type", "output_text"), Leaf("text", text)] else []
    case ReasoningItem(id, text, completed) =>
      [Leaf("id", id), Leaf("type", "reasoning"), status] +
      if completed then [Leaf("type", "summary_text"), Leaf("text", text)] else []
    case CallItem(id, callId, name, arguments, _) =>
      [Leaf("id", id), Leaf("type", "function_call"), Leaf("call_id", callId), Leaf("name", name),
       Leaf("arguments", arguments), status]
  }

  function WireUsage(u: Usage): UsageObject {
    UsageObject(Some(u.inputTokens), None, Some(u.outputTokens), None, Some(Details(Some(u.cachedTokens), None)), None,
                None, None)
  }

  /** The event name of a Responses frame, which is also its "type". */
  function FrameName(f: Stream.Frame): string {
    match f
    case Created(_) => "response.created"
    case ItemAdded(_, _) => "response.output_item.added"
    case ItemDone(_, _) => "response.output_item.done"
    case ContentPartAdded(_, _) => "response.content_part.added"
    case SummaryPartAdded(_, _) => "response.reasoning_summary_part.added"
    case OutputTextDelta(_, _, _) => "response.output_text.delta"
    case SummaryTextDelta(_, _, _) => "response.reasoning_summary_text.delta"
    case ArgumentsDelta(_, _, _) => "response.function_call_arguments.delta"
    case ArgumentsDone(_, _, _) => "response.function_call_arguments.done"
    case SummaryTextDone(_, _, _) => "response.reasoning_summary_text.done"
    case SummaryPartDone(_, _, _) => "response.reasoning_summary_part.done"
    case OutputTextDone(_, _, _) => "response.output_text.done"
    case ContentPartDone(_, _, _) => "response.content_part.done"
    case Completed(_, _, _) => "response.completed"
    case _ => ""
  }

  function FrameType(f: Stream.Frame): TypeName {
    match f
    case ItemAdded(_, _) => OutputItemAdded
    case ItemDone(_, _) => OutputItemDone
    case OutputTextDelta(_, _, _) => OutputTextDelta
    case SummaryTextDelta(_, _, _) => ReasoningSummaryDelta
    case ArgumentsDelta(_, _, _) => ArgumentsDelta
    case ArgumentsDone(_, _, _) => ArgumentsDone
    case Completed(_, _, _) => Completed
    case _ => Other(FrameName(f))
  }

  /** All string values of a frame, with their keys. */
  function FrameLeaves(f: Stream.Frame, responseId: string): seq<Leaf> {
    [Leaf("type", FrameName(f)), Leaf("response_id", responseId)] +
    match f
    case Created(model) => [Leaf("object", "response"), Leaf("status", "in_progress"), Leaf("model", model)]
    case ItemAdded(_, item) => ItemLeaves(item)
    case ItemDone(_, item) => ItemLeaves(item)
    case ContentPartAdded(_, id) => PartLeaves(id, "output_text", "")
    case SummaryPartAdded(_, id) => PartLeaves(id, "summary_text", "")
    case OutputTextDelta(_, id, delta) => [Leaf("item_id", id), Leaf("delta", delta)]
    case SummaryTextDelta(_, id, delta) => [Leaf("item_id", id), Leaf("delta", delta)]
    case ArgumentsDelta(_, id, delta) => [Leaf("item_id", id), Leaf("delta", delta)]
    case ArgumentsDone(_, id, arguments) => [Leaf("item_id", id), Leaf("arguments", arguments)]
    case SummaryTextDone(_, id, text) => PartLeaves(id, "summary_text", text)
    case SummaryPartDone(_, id, text) => PartLeaves(id, "summary_text", text)
    case OutputTextDone(_, id, text) => PartLeaves(id, "output_text", text)
    case ContentPartDone(_, id, text) => PartLeaves(id, "output_text", text)
    case _ => []
  }

  function PartLeaves(id: string, part: string, text: string): seq<Leaf> {
    [Leaf("item_id", id), Leaf("type", part), Leaf("text", text)]
  }

  /** The payload of a Responses frame. */
  function Encode(f: Stream.Frame, responseId: string): Payload {
    var p := Payload(FrameType(f), false, "", None, None, None, None, None, None, None, None, None, None, None, None,
                     "",
                     FrameLeaves(f, responseId));
    match f
    case Created(_) => p
    case ItemAdded(slot, item) => p.(item := Some(WireItem(item)), outputIndex := Some(slot))
    case ItemDone(slot, item) => p.(item := Some(WireItem(item)), outputIndex := Some(slot))
    case ContentPartAdded(slot, id) => p.(itemId := Some(id), outputIndex := Some(slot))
    case SummaryPartAdded(slot, id) => p.(itemId := Some(id), outputIndex := Some(slot))
    case OutputTextDelta(slot, id, delta) => p.(itemId := Some(id), outputIndex := Some(slot), delta := Some(delta))
    case SummaryTextDelta(slot, id, delta) => p.(itemId := Some(id), outputIndex := Some(slot), delta := Some(delta))
    case ArgumentsDelta(slot, id, delta) => p.(itemId := Some(id), outputIndex := Some(slot), delta := Some(delta))
    case ArgumentsDone(slot, id, arguments) =>
      p.(itemId := Some(id), outputIndex := Some(slot), arguments := Some(arguments))
    case SummaryTextDone(slot, id, text) => p.(itemId := Some(id), outputIndex := Some(slot), text := Some(text))
    case SummaryPartDone(slot, id, _) => p.(itemId := Some(id), outputIndex := Some(slot))
    case OutputTextDone(slot, id, text) => p.(itemId := Some(id), outputIndex := Some(slot), text := Some(text))
    case ContentPartDone(slot, id, _) => p.(itemId := Some(id), outputIndex := Some(slot))
    case Completed(_, _, usage) => p.(responseUsage := Some(WireUsage(usage)))
    case _ => p
  }

  // ---- names without "error" ----

  predicate NoDoubleR(s: string) {
    forall i | 0 <= i < |s| - 1 :: !(s[i] == 'r' && s[i + 1] == 'r')
  }

  lemma ErrorHasDoubleR(s: string, i: nat)
    requires i <= |s| && Text.HasPrefix(s[i..], "error")
    ensures i + 2 < |s| && s[i + 1] == 'r' && s[i + 2] == 'r'
  {
    assert s[i..][..5][1] == s[i + 1] && s[i..][..5][2] == s[i + 2];
  }

  lemma NotAnError(s: string)
    requires NoDoubleR(s)
    ensures !Contains(s, "error")
  {
    forall i | 0 <= i <= |s|
      ensures !Text.HasPrefix(s[i..], "error")
    {
      if Text.HasPrefix(s[i..], "error") {
        ErrorHasDoubleR(s, i);
      }
    }
  }

  // ---- frames that are about no tool call ----

  predicate IsText(f: Stream.Frame) {
    match f
    case Created(_) => true
    case ItemAdded(_, item) => !item.CallItem?
    case ItemDone(_, item) => !item.CallItem?
    case ContentPartAdded(_, _) => true
    case SummaryPartAdded(_, _) => true
    case OutputTextDelta(_, _, _) => true
    case SummaryTextDelta(_, _, _) => true
    case SummaryTextDone(_, _, _) => true
    case SummaryPartDone(_, _, _) => true
    case OutputTextDone(_, _, _) => true
    case ContentPartDone(_, _, _) => true
    case _ => false
  }

  /** The names of the frames that the parser does not know. */
  lemma OpeningNameIsNoError(f: Stream.Frame)
    requires f.Created? || f.ContentPartAdded?
    ensures !Contains(FrameName(f), "error")
  {
    NotAnError(FrameName(f));
  }

  lemma SummaryNameIsNoError(f: Stream.Frame)
    requires f.SummaryPartAdded?
    ensures !Contains(FrameName(f), "error")
  {
    NotAnError(FrameName(f));
  }

  lemma ReasoningNameIsNoError(f: Stream.Frame)
    requires f.SummaryTextDone? || f.SummaryPartDone?
    ensures !Contains(FrameName(f), "error")
  {
    NotAnError(FrameName(f));
  }

  lemma TextNameIsNoError(f: Stream.Frame)
    requires f.OutputTextDone? || f.ContentPartDone?
    ensures !Contains(FrameName(f), "error")
  {
    NotAnError(FrameName(f));
  }

  lemma TextFramesAreQuiet(f: Stream.Frame, responseId: string)
    requires IsText(f)
    ensures Quiet(Encode(f, responseId))
  {
    if f.Created? || f.ContentPartAdded? {
      OpeningNameIsNoError(f);
    } else if f.SummaryPartAdded? {
      SummaryNameIsNoError(f);
    } else if f.SummaryTextDone? || f.SummaryPartDone? {
      ReasoningNameIsNoError(f);
    } else if f.OutputTextDone? || f.ContentPartDone? {
      TextNameIsNoError(f);
    }
  }

  lemma {:induction false} NoTextIn(es: seq<Event>)
    requires forall e | e in es :: !e.TextDelta? && !e.ReasoningDelta?
    ensures TextOf(es) == "" && ReasoningOf(es) == ""
  {
    if es != [] {
      NoTextIn(es[..|es| - 1]);
      assert es[|es| - 1] in es;
    }
  }

  function DeltaText(f: Stream.Frame): string {
    if f.OutputTextDelta? then f.delta else ""
  }

  function DeltaReasoning(f: Stream.Frame): string {
    if f.SummaryTextDelta? then f.delta else ""
  }

  lemma DeltaEvents(f: Stream.Frame, responseId: string)
    requires f.OutputTextDelta? || f.SummaryTextDelta?
    ensures var es := QuietEvents(Encode(f, responseId));
            && TextOf(es) == DeltaText(f) && ReasoningOf(es) == DeltaReasoning(f)
            && NoMedia(es)
  {
    var es := QuietEvents(Encode(f, responseId));
    if f.delta != "" {
      assert es == [if f.OutputTextDelta? then TextDelta(f.delta) else ReasoningDelta(f.delta)];
      assert es[..0] == [];
    }
  }

  lemma OtherTextEvents(f: Stream.Frame, responseId: string)
    requires IsText(f) && !f.OutputTextDelta? && !f.SummaryTextDelta?
    ensures QuietEvents(Encode(f, responseId)) == MediaEvents(FrameLeaves(f, responseId))
  {
    EncodeLeaves(f, responseId);
    OtherTextType(f);
  }

  lemma EncodeLeaves(f: Stream.Frame, responseId: string)
    ensures var p := Encode(f, responseId); p.typ == FrameType(f) && p.chatDelta == "" &&
                                            p.leaves == FrameLeaves(f, responseId)
  {
  }

  lemma OtherTextType(f: Stream.Frame)
    requires IsText(f) && !f.OutputTextDelta? && !f.SummaryTextDelta?
    ensures FrameType(f).Other? || FrameType(f).OutputItemAdded? || FrameType(f).OutputItemDone?
  {
  }

  /** Only the two text deltas are read back as text and reasoning. */
  lemma TextFrameEvents(f: Stream.Frame, responseId: string)
    requires IsText(f)
    ensures var es := QuietEvents(Encode(f, responseId));
            TextOf(es) == DeltaText(f) && ReasoningOf(es) == DeltaReasoning(f)
  {
    if f.OutputTextDelta? || f.SummaryTextDelta? {
      DeltaEvents(f, responseId);
    } else {
      OtherTextEvents(f, responseId);
      NoTextIn(MediaEvents(FrameLeaves(f, responseId)));
    }
  }
}
