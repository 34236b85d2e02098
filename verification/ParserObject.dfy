/** `sseParser` as the object it is, proved to compute the functions of module Parser. */
module ParserObject {
  import opened Options
  import opened Events
  import opened Parser

  class SseParser {
    var tools: map<ToolKey, nat>
    var states: seq<ToolState>
    var imageHashes: map<string, string>
    var done: bool
    const reverseToolNames: map<string, string>

    ghost function Value(): ParserState
      reads this
    {
      ParserState(tools, states, imageHashes, done, reverseToolNames)
    }

    constructor (reverseToolNames: map<string, string>)
      ensures Value() == NewParser(reverseToolNames)
    {
      tools, states, imageHashes, done := map[], [], map[], false;
      this.reverseToolNames := reverseToolNames;
    }

    /** The state bound to the first bound key; |states| when none is bound. */
    method FindState(keys: seq<ToolKey>) returns (found: bool, k: nat)
      ensures Find(tools, keys) == if found then Some(k) else None
    {
      found, k := false, 0;
      for i := 0 to |keys|
        invariant Find(tools, keys) == Find(tools, keys[i..])
      {
        assert keys[i..][0] == keys[i] && keys[i..][1..] == keys[i + 1..];
        if keys[i] in tools {
          return true, tools[keys[i]];
        }
      }
      assert keys[|keys|..] == [];
    }

    method BindToolKeys(k: nat, keys: seq<ToolKey>)
      requires k < |states|
      modifies `tools
      ensures tools == old(Bind(Value(), keys, k))
    {
      for i := 0 to |keys|
        invariant tools == BindKeys(old(tools), keys[..i], k)
      {
        assert keys[..i + 1][..i] == keys[..i];
        tools := tools[keys[i] := k];
      }
      assert keys[..|keys|] == keys;
      tools := tools[CallKey(states[k].id) := k];
    }

    method ToolState(payload: Payload, item: Option<Item>) returns (k: nat)
      requires Value().Valid()
      modifies `tools, `states
      ensures k == old(ToolAt(Value(), payload, item)) && Value() == old(WithTool(Value(), payload, item))
    {
      ghost var p := Value();
      var keys := ToolKeys(payload, item);
      var found, at := FindState(keys);
      if found {
        FindBound(tools, keys, |states|);
        k := at;
        BindToolKeys(k, keys);
        states := states[k := Refreshed(ParserState(tools, states, imageHashes, done, reverseToolNames), states[k],
                                        item)];
      } else {
        k := |states|;
        states := states + [Fresh(ParserState(tools, states, imageHashes, done, reverseToolNames), payload, item)];
        BindToolKeys(k, keys);
      }
    }

    method FunctionItem(payload: Payload, item: Item, isDone: bool) returns (events: seq<Event>)
      requires Value().Valid()
      modifies `tools, `states
      ensures Parsed(Value(), events) == old(ParseItem(Value(), payload, item, isDone))
    {
      var k := ToolState(payload, Some(item));
      ghost var q := Value();
      var arguments := Get(item.arguments);
      var t := states[k];
      if t.announced {
        if isDone && arguments != "" && !t.argumentsSeen {
          states := states[k := t.(argumentsSeen := true)];
          return [CallEvent(t, arguments)];
        }
        return [];
      }
      states := states[k := t.(announced := true, argumentsSeen := arguments != "")];
      events := [CallEvent(t, arguments)];
      assert Parsed(Value(), events) == Announce(q, k, arguments, isDone);
    }

    method DeltaFrame(payload: Payload) returns (events: seq<Event>)
      requires Value().Valid()
      modifies `tools, `states
      ensures Parsed(Value(), events) == old(ParseDelta(Value(), payload))
    {
      var k := ToolState(payload, None);
      events := [CallEvent(states[k], Get(payload.delta))];
      states := states[k := states[k].(argumentsSeen := true)];
    }

    method DoneFrame(payload: Payload) returns (events: seq<Event>)
      requires Value().Valid()
      modifies `tools, `states
      ensures Parsed(Value(), events) == old(ParseArgumentsDone(Value(), payload))
    {
      var k := ToolState(payload, None);
      if states[k].argumentsSeen {
        return [];
      }
      events := [CallEvent(states[k], Get(payload.arguments))];
      states := states[k := states[k].(argumentsSeen := true)];
    }

    method ImageItem(payload: Payload, item: Option<Item>) returns (events: seq<Event>)
      requires Value().Valid()
      modifies `imageHashes
      ensures Parsed(Value(), events) == old(ParseImage(Value(), payload, item))
    {
      var value := OrElse(Get(payload.partialImage), if item.Some? then Get(item.value.result) else "");
      var id := OrElse(Get(payload.itemId), if item.Some? then Get(item.value.id) else "");
      if value == "" || (id != "" && id in imageHashes && imageHashes[id] == value) {
        return [];
      }
      if id != "" {
        imageHashes := imageHashes[id := value];
      }
      events := [Image(value)];
    }

    /** The switch over the payload type. */
    method Switch(typ: TypeName, payload: Payload) returns (events: seq<Event>)
      requires Value().Valid()
      modifies this
      ensures Parsed(Value(), events) == old(ParseTyped(Value(), typ, payload))
    {
      match typ {
        case OutputItemAdded => events := ItemFrame(payload, false);
        case OutputItemDone => events := ItemFrame(payload, true);
        case ArgumentsDelta => events := DeltaFrame(payload);
        case ArgumentsDone => events := DoneFrame(payload);
        case PartialImage => events := ImageItem(payload, None);
        case ReasoningSummaryDelta => events := TextEvent(ReasoningDelta(Get(First(payload.delta, payload.text))));
        case ReasoningTextDelta => events := TextEvent(ReasoningDelta(Get(First(payload.delta, payload.text))));
        case OutputTextDelta => events := TextEvent(TextDelta(Get(First(payload.delta, payload.text))));
        case ContentDelta => events := TextEvent(TextDelta(Get(First(payload.delta, payload.text))));
        case Completed =>
          done := true;
          events := UsageEvents(if payload.usage.Some? then payload.usage else payload.responseUsage) + [Done];
        case Failed =>
          done := true;
          events := [Error(payload.errorText)];
        case Incomplete =>
          done := true;
          events := [Error(payload.errorText)];
        case _ => events := Rest(payload);
      }
    }

    method ItemFrame(payload: Payload, isDone: bool) returns (events: seq<Event>)
      requires Value().Valid()
      modifies this
      ensures Parsed(Value(), events) == old(ParseItemFrame(Value(), payload, isDone))
    {
      if payload.item.Some? && payload.item.value.typ.FunctionCall? {
        events := FunctionItem(payload, payload.item.value, isDone);
      } else if payload.item.Some? && payload.item.value.typ.ImageGeneration? {
        events := ImageItem(payload, payload.item);
      } else {
        events := Rest(payload);
      }
    }

    method Rest(payload: Payload) returns (events: seq<Event>)
      requires Value().Valid()
      modifies `done
      ensures Parsed(Value(), events) == old(ParseRest(Value(), payload))
    {
      var r := ParseRest(ParserState(tools, states, imageHashes, done, reverseToolNames), payload);
      done := r.parser.done;
      return r.events;
    }

    method ParseData(eventName: string, data: Data) returns (events: seq<Event>)
      requires Value().Valid()
      modifies this
      ensures Value().Valid() && Parsed(Value(), events) == old(Parse(Value(), eventName, data))
    {
      if done || data.Invalid? {
        return [];
      }
      if data.DoneText? {
        done := true;
        return [Done];
      }
      var payload := data.payload;
      var typ := if payload.typ.Absent? then TypeOf(eventName) else payload.typ;
      if IsError(typ, payload) {
        return [Error(payload.errorText)];
      }
      events := Switch(typ, payload);
    }
  }
}
