/**
 A text codec for payloads: one line between braces, inverted by a decoder.  It stands for JSON in the round trip of the
 wire format, which holds for any such codec, and shows that there is one.
 */
module CodecWitness {
  import opened Options
  import opened Events
  import opened Parser
  import Text

  /** Values without their types. */
  datatype Tree = Num(value: int) | Node(parts: seq<Tree>)

  function OfString(s: string): (t: Tree)
    ensures t.Node? && |t.parts| == |s| && forall i | 0 <= i < |s| :: t.parts[i] == Num(s[i] as int)
  {
    Node(seq(|s|, i requires 0 <= i < |s| => Num(s[i] as int)))
  }

  lemma StringInjective(a: string, b: string)
    requires OfString(a) == OfString(b)
    ensures a == b
  {
    forall i | 0 <= i < |a|
      ensures i < |b| && a[i] == b[i]
    {
      assert OfString(a).parts[i] == Num(a[i] as int) && OfString(b).parts[i] == Num(b[i] as int);
    }
    assert |a| == |OfString(a).parts| == |b|;
  }

  function OfBool(b: bool): Tree {
    Num(if b then 1 else 0)
  }

  function OfText(o: Option<string>): Tree {
    if o.None? then Num(0) else OfString(o.value)
  }

  lemma TextInjective(a: Option<string>, b: Option<string>)
    requires OfText(a) == OfText(b)
    ensures a == b
  {
    if a.Some? && b.Some? {
      StringInjective(a.value, b.value);
    }
  }

  function OfInt(o: Option<int>): Tree {
    if o.None? then Node([]) else Num(o.value)
  }

  function OfType(t: TypeName): Tree {
    match t
    case Absent => Num(0)
    case OutputItemAdded => Num(1)
    case OutputItemDone => Num(2)
    case ArgumentsDelta => Num(3)
    case ArgumentsDone => Num(4)
    case PartialImage => Num(5)
    case ReasoningSummaryDelta => Num(6)
    case ReasoningTextDelta => Num(7)
    case OutputTextDelta => Num(8)
    case ContentDelta => Num(9)
    case Completed => Num(10)
    case Failed => Num(11)
    case Incomplete => Num(12)
    case Other(name) => OfString(name)
  }

  lemma TypeInjective(a: TypeName, b: TypeName)
    requires OfType(a) == OfType(b)
    ensures a == b
  {
    if a.Other? && b.Other? {
      StringInjective(a.name, b.name);
    }
  }

  function OfItem(o: Option<Item>): Tree {
    if o.None? then Num(0) else
    var i := o.value;
    Node([Num(if i.typ.FunctionCall? then 0 else if i.typ.ImageGeneration? then 1 else 2),
          OfText(i.id), OfText(i.callId), OfText(i.name), OfText(i.arguments), OfText(i.result)])
  }

  lemma ItemInjective(a: Option<Item>, b: Option<Item>)
    requires OfItem(a) == OfItem(b)
    ensures a == b
  {
    if a.Some? && b.Some? {
      var x, y := OfItem(a).parts, OfItem(b).parts;
      assert x[0] == y[0] && x[1] == y[1] && x[2] == y[2] && x[3] == y[3] && x[4] == y[4] && x[5] == y[5];
      TextInjective(a.value.id, b.value.id);
      TextInjective(a.value.callId, b.value.callId);
      TextInjective(a.value.name, b.value.name);
      TextInjective(a.value.arguments, b.value.arguments);
      TextInjective(a.value.result, b.value.result);
    }
  }

  function OfDetails(o: Option<Details>): Tree {
    if o.None? then Num(0) else Node([OfInt(o.value.cachedTokens), OfInt(o.value.cacheReadTokens)])
  }

  lemma DetailsInjective(a: Option<Details>, b: Option<Details>)
    requires OfDetails(a) == OfDetails(b)
    ensures a == b
  {
    if a.Some? && b.Some? {
      var x, y := OfDetails(a).parts, OfDetails(b).parts;
      assert x[0] == y[0] && x[1] == y[1];
    }
  }

  function OfUsage(o: Option<UsageObject>): Tree {
    if o.None? then Num(0) else
    var u := o.value;
    Node([OfInt(u.inputTokens), OfInt(u.promptTokens), OfInt(u.outputTokens), OfInt(u.completionTokens),
          OfDetails(u.inputDetails), OfDetails(u.promptDetails), OfInt(u.cacheReadInputTokens), OfInt(u.cachedTokens)])
  }

  lemma UsageInjective(a: Option<UsageObject>, b: Option<UsageObject>)
    requires OfUsage(a) == OfUsage(b)
    ensures a == b
  {
    if a.Some? && b.Some? {
      var x, y := OfUsage(a).parts, OfUsage(b).parts;
      assert x[0] == y[0] && x[1] == y[1] && x[2] == y[2] && x[3] == y[3] && x[4] == y[4] && x[5] == y[5] &&
             x[6] == y[6] && x[7] == y[7];
      DetailsInjective(a.value.inputDetails, b.value.inputDetails);
      DetailsInjective(a.value.promptDetails, b.value.promptDetails);
    }
  }

  function OfLeaves(ls: seq<Leaf>): (t: Tree)
    ensures t.Node? && |t.parts| == |ls| && forall i | 0 <= i < |ls| ::
            t.parts[i] == Node([OfString(ls[i].key), OfString(ls[i].value)])
  {
    Node(seq(|ls|, i requires 0 <= i < |ls| => Node([OfString(ls[i].key), OfString(ls[i].value)])))
  }

  lemma LeavesInjective(a: seq<Leaf>, b: seq<Leaf>)
    requires OfLeaves(a) == OfLeaves(b)
    ensures a == b
  {
    assert |a| == |OfLeaves(a).parts| == |b|;
    forall i | 0 <= i < |a|
      ensures a[i] == b[i]
    {
      var x, y := OfLeaves(a).parts[i].parts, OfLeaves(b).parts[i].parts;
      assert x[0] == y[0] && x[1] == y[1];
      StringInjective(a[i].key, b[i].key);
      StringInjective(a[i].value, b[i].value);
    }
  }

  function OfLinks(ls: seq<MediaLink>): (t: Tree)
    ensures t.Node? && |t.parts| == |ls|
    ensures forall i | 0 <= i < |ls| :: t.parts[i] == Node([OfBool(ls[i].ImageLink?), OfString(ls[i].url)])
  {
    Node(seq(|ls|, i requires 0 <= i < |ls| => Node([OfBool(ls[i].ImageLink?), OfString(ls[i].url)])))
  }

  lemma LinksInjective(a: seq<MediaLink>, b: seq<MediaLink>)
    requires OfLinks(a) == OfLinks(b)
    ensures a == b
  {
    assert |a| == |OfLinks(a).parts| == |b|;
    forall i | 0 <= i < |a|
      ensures a[i] == b[i]
    {
      var x, y := OfLinks(a).parts[i].parts, OfLinks(b).parts[i].parts;
      assert x[0] == y[0] && x[1] == y[1];
      StringInjective(a[i].url, b[i].url);
    }
  }

  function OfWeb(o: Option<WebResponse>): Tree {
    if o.None? then Num(0) else
    var w := o.value;
    Node([OfText(w.error), OfLinks(w.links), OfString(w.token), OfBool(w.isThinking), OfLeaves(w.leaves),
          OfBool(w.softStop),
          OfBool(w.finalMetadata), OfUsage(w.finalUsage)])
  }

  lemma WebInjective(a: Option<WebResponse>, b: Option<WebResponse>)
    requires OfWeb(a) == OfWeb(b)
    ensures a == b
  {
    if a.Some? && b.Some? {
      var x, y := OfWeb(a).parts, OfWeb(b).parts;
      assert x[0] == y[0] && x[1] == y[1] && x[2] == y[2] && x[3] == y[3] && x[4] == y[4] && x[5] == y[5] &&
             x[6] == y[6] && x[7] == y[7];
      TextInjective(a.value.error, b.value.error);
      LinksInjective(a.value.links, b.value.links);
      StringInjective(a.value.token, b.value.token);
      LeavesInjective(a.value.leaves, b.value.leaves);
      UsageInjective(a.value.finalUsage, b.value.finalUsage);
    }
  }

  function OfPayload(p: Payload): Tree {
    Node([OfType(p.typ), OfBool(p.hasError), OfString(p.errorText), OfItem(p.item), OfText(p.itemId), OfText(p.callId),
          OfText(p.id), OfInt(p.outputIndex), OfText(p.delta), OfText(p.text), OfText(p.arguments),
          OfText(p.partialImage),
          OfUsage(p.usage), OfUsage(p.responseUsage), OfWeb(p.web), OfString(p.chatDelta), OfLeaves(p.leaves)])
  }

  /** The first half of the fields. */
  predicate SameHead(a: Payload, b: Payload) {
    && a.typ == b.typ && a.hasError == b.hasError && a.errorText == b.errorText && a.item == b.item &&
       a.itemId == b.itemId
    && a.callId == b.callId && a.id == b.id && a.outputIndex == b.outputIndex
  }

  lemma HeadInjective(a: Payload, b: Payload)
    requires OfPayload(a) == OfPayload(b)
    ensures SameHead(a, b)
  {
    var x, y := OfPayload(a).parts, OfPayload(b).parts;
    assert x[0] == y[0] && x[1] == y[1] && x[2] == y[2] && x[3] == y[3] && x[4] == y[4] && x[5] == y[5] &&
           x[6] == y[6] && x[7] == y[7];
    TypeInjective(a.typ, b.typ);
    StringInjective(a.errorText, b.errorText);
    ItemInjective(a.item, b.item);
    TextInjective(a.itemId, b.itemId);
    TextInjective(a.callId, b.callId);
    TextInjective(a.id, b.id);
  }

  lemma PayloadInjective(a: Payload, b: Payload)
    requires OfPayload(a) == OfPayload(b)
    ensures a == b
  {
    HeadInjective(a, b);
    var x, y := OfPayload(a).parts, OfPayload(b).parts;
    assert x[8] == y[8] && x[9] == y[9] && x[10] == y[10] && x[11] == y[11] && x[12] == y[12] && x[13] == y[13];
    assert x[14] == y[14] && x[15] == y[15] && x[16] == y[16];
    TextInjective(a.delta, b.delta);
    TextInjective(a.text, b.text);
    TextInjective(a.arguments, b.arguments);
    TextInjective(a.partialImage, b.partialImage);
    UsageInjective(a.usage, b.usage);
    UsageInjective(a.responseUsage, b.responseUsage);
    WebInjective(a.web, b.web);
    StringInjective(a.chatDelta, b.chatDelta);
    LeavesInjective(a.leaves, b.leaves);
  }

  // ---- trees as numbers ----

  function Flat(t: Tree): seq<int> {
    match t
    case Num(value) => [0, value]
    case Node(parts) => [1, |parts|] + FlatAll(parts)
  }

  function FlatAll(ts: seq<Tree>): seq<int> {
    if ts == [] then [] else Flat(ts[0]) + FlatAll(ts[1..])
  }

  /** What follows a tree can be told from it. */
  lemma {:induction false} FlatPrefix(a: Tree, b: Tree, x: seq<int>, y: seq<int>)
    requires Flat(a) + x == Flat(b) + y
    ensures a == b && x == y
    decreases a
  {
    var u, v := Flat(a) + x, Flat(b) + y;
    assert u[0] == v[0] && u[1] == v[1];
    if a.Num? {
      assert u[2..] == x && v[2..] == y;
    } else {
      assert u[2..] == FlatAll(a.parts) + x && v[2..] == FlatAll(b.parts) + y;
      FlatAllPrefix(a.parts, b.parts, x, y);
    }
  }

  lemma {:induction false} FlatAllPrefix(a: seq<Tree>, b: seq<Tree>, x: seq<int>, y: seq<int>)
    requires |a| == |b| && FlatAll(a) + x == FlatAll(b) + y
    ensures a == b && x == y
    decreases a
  {
    if a == [] {
      assert FlatAll(a) + x == x && FlatAll(b) + y == y;
    } else {
      assert FlatAll(a) + x == Flat(a[0]) + (FlatAll(a[1..]) + x);
      assert FlatAll(b) + y == Flat(b[0]) + (FlatAll(b[1..]) + y);
      FlatPrefix(a[0], b[0], FlatAll(a[1..]) + x, FlatAll(b[1..]) + y);
      FlatAllPrefix(a[1..], b[1..], x, y);
      assert a == [a[0]] + a[1..] && b == [b[0]] + b[1..];
    }
  }

  // ---- numbers as text ----

  function Render(ns: seq<int>): string {
    if ns == [] then "" else Text.DecimalInt(ns[0]) + "," + Render(ns[1..])
  }

  predicate Plain(s: string) {
    forall i | 0 <= i < |s| :: s[i] == '-' || s[i] == ',' || '0' <= s[i] <= '9'
  }

  lemma DecimalIntIs(n: int)
    ensures Text.DecimalInt(n) != "" &&
            forall i | 0 <= i < |Text.DecimalInt(n)| ::
              Text.DecimalInt(n)[i] == '-' || '0' <= Text.DecimalInt(n)[i] <= '9'
  {
    if n < 0 {
      Text.DecimalDigitsOnly(-n);
    } else {
      Text.DecimalDigitsOnly(n);
    }
  }

  lemma DecimalIntInjective(a: int, b: int)
    requires Text.DecimalInt(a) == Text.DecimalInt(b)
    ensures a == b
  {
    var x, y := if a < 0 then -a else a, if b < 0 then -b else b;
    Text.DecimalDigitsOnly(x);
    Text.DecimalDigitsOnly(y);
    assert Text.DecimalInt(a)[0] == Text.DecimalInt(b)[0];
    assert a < 0 <==> b < 0;
    if a < 0 {
      assert Text.DecimalInt(a)[1..] == Text.Decimal(x) && Text.DecimalInt(b)[1..] == Text.Decimal(y);
    }
    Text.DecimalInjective(x, y);
  }

  lemma NumberPrefix(a: int, b: int, x: string, y: string)
    requires Text.DecimalInt(a) + "," + x == Text.DecimalInt(b) + "," + y
    ensures a == b && x == y
  {
    var p, q := Text.DecimalInt(a), Text.DecimalInt(b);
    var u, v := p + "," + x, q + "," + y;
    DecimalIntIs(a);
    DecimalIntIs(b);
    assert u[|p|] == ',' && v[|q|] == ',';
    assert forall i | 0 <= i < |p| :: u[i] == p[i];
    assert forall i | 0 <= i < |q| :: v[i] == q[i];
    assert |p| == |q|;
    assert u[..|p|] == p && v[..|q|] == q && u[|p| + 1..] == x && v[|q| + 1..] == y;
    DecimalIntInjective(a, b);
  }

  lemma {:induction false} RenderInjective(a: seq<int>, b: seq<int>)
    requires Render(a) == Render(b)
    ensures a == b
  {
    if a != [] && b != [] {
      NumberPrefix(a[0], b[0], Render(a[1..]), Render(b[1..]));
      RenderInjective(a[1..], b[1..]);
      assert a == [a[0]] + a[1..] && b == [b[0]] + b[1..];
    }
  }

  lemma {:induction false} RenderPlain(ns: seq<int>)
    ensures Plain(Render(ns))
  {
    if ns != [] {
      DecimalIntIs(ns[0]);
      RenderPlain(ns[1..]);
    }
  }

  // ---- the codec ----

  function Encoded(p: Payload): string {
    "{" + Render(Flat(OfPayload(p))) + "}"
  }

  lemma EncodedInjective(a: Payload, b: Payload)
    requires Encoded(a) == Encoded(b)
    ensures a == b
  {
    var x, y := Flat(OfPayload(a)), Flat(OfPayload(b));
    assert Render(x) == Encoded(a)[1..|Encoded(a)| - 1] && Render(y) == Encoded(b)[1..|Encoded(b)| - 1];
    RenderInjective(x, y);
    assert x + [] == x && y + [] == y;
    FlatPrefix(OfPayload(a), OfPayload(b), [], []);
    PayloadInjective(a, b);
  }

  ghost function Decoded(text: string): Option<Payload> {
    if exists p :: Encoded(p) == text then var p :| Encoded(p) == text; Some(p) else None
  }

  /** Every payload is written in one line between braces, and read back. */
  lemma CodecInverts(p: Payload)
    ensures Decoded(Encoded(p)) == Some(p)
    ensures var s := Encoded(p); |s| >= 2 && s[0] == '{' && s[|s| - 1] == '}' && '\n' !in s
  {
    var q := Decoded(Encoded(p)).value;
    EncodedInjective(q, p);
    RenderPlain(Flat(OfPayload(p)));
  }
}
