/** Server-sent-event framing, character by character: what the gateway writes and how the upstream client reads it. */
module Framing {
  import Text

  /** writeEvent, writeData and the heartbeat comment. */
  datatype Block = EventBlock(name: string, data: string) | DataBlock(data: string) | Heartbeat

  /** The lines of one block; the last one is the blank line that dispatches it. */
  function Lines(b: Block): seq<string> {
    match b
    case EventBlock(name, data) => ["event: " + name, "data: " + data, ""]
    case DataBlock(data) => ["data: " + data, ""]
    case Heartbeat => [": heartbeat", ""]
  }

  /** Every line ends with a newline. */
  function Unlines(lines: seq<string>): string {
    if lines == [] then "" else lines[0] + "\n" + Unlines(lines[1..])
  }

  function Render(b: Block): string {
    Unlines(Lines(b))
  }

  function RenderAll(bs: seq<Block>): string {
    if bs == [] then "" else Render(bs[0]) + RenderAll(bs[1..])
  }

  // ---- bufio.ScanLines ----

  function LineEnd(s: string): (i: nat)
    ensures i <= |s|
  {
    if s == [] || s[0] == '\n' then 0 else 1 + LineEnd(s[1..])
  }

  function DropCR(line: string): string {
    if line != [] && line[|line| - 1] == '\r' then line[..|line| - 1] else line
  }

  function ScanLines(s: string): seq<string>
    decreases |s|
  {
    if s == [] then [] else
    var i := LineEnd(s);
    [DropCR(s[..i])] + if i < |s| then ScanLines(s[i + 1..]) else []
  }

  // ---- the line loop ----

  /** One call of the parser. */
  datatype Dispatched = Dispatched(name: string, data: string)

  datatype Reader = Reader(name: string, data: seq<string>, out: seq<Dispatched>)

  function Join(lines: seq<string>): string {
    if lines == [] then "" else if |lines| == 1 then lines[0] else lines[0] + "\n" + Join(lines[1..])
  }

  function Dispatch(r: Reader): Reader {
    if r.data == [] then r.(name := "") else Reader("", [], r.out + [Dispatched(r.name, Join(r.data))])
  }

  function Field(r: Reader, line: string): Reader {
    if Text.HasPrefix(line, "event:") then r.(name := Text.TrimSpace(line[6..]))
    else if Text.HasPrefix(line, "data:") then r.(data := r.data + [Text.TrimSpace(line[5..])])
    else if Text.HasPrefix(Text.TrimSpace(line), "{") then
      var d := Dispatch(r);
      d.(out := d.out + [Dispatched(d.name, Text.TrimSpace(line))])
    else r
  }

  function ReadLine(r: Reader, line: string): Reader {
    if line == "" then Dispatch(Field(r, line)) else Field(r, line)
  }

  function ReadLines(r: Reader, lines: seq<string>): Reader {
    if lines == [] then r else ReadLine(ReadLines(r, lines[..|lines| - 1]), lines[|lines| - 1])
  }

  const START := Reader("", [], [])

  function Read(s: string): seq<Dispatched> {
    Dispatch(ReadLines(START, ScanLines(s))).out
  }

  /** The loop of the client: one pass over the lines, with the event name and the data lines as local variables. */
  method ReadLoop(lines: seq<string>) returns (out: seq<Dispatched>)
    ensures out == Dispatch(ReadLines(START, lines)).out
  {
    var name, data := "", [];
    out := [];
    for i := 0 to |lines|
      invariant Reader(name, data, out) == ReadLines(START, lines[..i])
    {
      var line := lines[i];
      assert lines[..i + 1][..i] == lines[..i];
      if Text.HasPrefix(line, "event:") {
        name := Text.TrimSpace(line[6..]);
      } else if Text.HasPrefix(line, "data:") {
        data := data + [Text.TrimSpace(line[5..])];
      } else if Text.HasPrefix(Text.TrimSpace(line), "{") {
        if data != [] {
          out := out + [Dispatched(name, Join(data))];
          data := [];
        }
        name := "";
        out := out + [Dispatched(name, Text.TrimSpace(line))];
      }
      if line == "" {
        if data != [] {
          out := out + [Dispatched(name, Join(data))];
          data := [];
        }
        name := "";
      }
    }
    assert lines[..|lines|] == lines;
    if data != [] {
      out := out + [Dispatched(name, Join(data))];
    }
  }

  // ---- reading back what was written ----

  predicate Trimmed(s: string) {
    s != "" ==> !Text.IsSpace(s[0]) && !Text.IsSpace(s[|s| - 1])
  }

  predicate OneLine(s: string) {
    '\n' !in s && Trimmed(s)
  }

  predicate Sendable(b: Block) {
    match b
    case EventBlock(name, data) => OneLine(name) && OneLine(data) && data != ""
    case DataBlock(data) => OneLine(data) && data != ""
    case Heartbeat => true
  }

  function Sent(b: Block): seq<Dispatched> {
    match b
    case EventBlock(name, data) => [Dispatched(name, data)]
    case DataBlock(data) => [Dispatched("", data)]
    case Heartbeat => []
  }

  function SentAll(bs: seq<Block>): seq<Dispatched> {
    if bs == [] then [] else Sent(bs[0]) + SentAll(bs[1..])
  }

  lemma TrimmedStays(s: string)
    requires Trimmed(s)
    ensures Text.TrimSpace(" " + s) == s
  {
    assert (" " + s)[1..] == s;
    assert Text.TrimLeft(" " + s) == Text.TrimLeft(s);
  }

  lemma {:induction false} LineEndIs(line: string, rest: string)
    requires '\n' !in line
    ensures LineEnd(line + "\n" + rest) == |line|
  {
    var s := line + "\n" + rest;
    if line != [] {
      LineEndIs(line[1..], rest);
      assert s[1..] == line[1..] + "\n" + rest;
      assert s[0] == line[0];
    }
  }

  lemma {:induction false} ScanLine(line: string, rest: string)
    requires '\n' !in line
    ensures ScanLines(line + "\n" + rest) == [DropCR(line)] + ScanLines(rest)
  {
    LineEndIs(line, rest);
    var s := line + "\n" + rest;
    assert s[..|line|] == line && s[|line| + 1..] == rest;
    assert rest == [] ==> ScanLines(rest) == [];
  }

  predicate Clean(line: string) {
    '\n' !in line && (line != "" ==> line[|line| - 1] != '\r')
  }

  lemma {:induction false} ScanUnlines(lines: seq<string>, rest: string)
    requires forall line | line in lines :: Clean(line)
    ensures ScanLines(Unlines(lines) + rest) == lines + ScanLines(rest)
  {
    if lines == [] {
      assert Unlines(lines) + rest == rest;
    } else {
      ScanUnlines(lines[1..], rest);
      assert Clean(lines[0]);
      ScanLine(lines[0], Unlines(lines[1..]) + rest);
      Text.Regroup(lines[0] + "\n", Unlines(lines[1..]), rest);
      Text.Regroup([lines[0]], lines[1..], ScanLines(rest));
      assert [lines[0]] + lines[1..] == lines;
    }
  }

  lemma CleanField(prefix: string, value: string)
    requires OneLine(value) && Clean(prefix)
    ensures Clean(prefix + value)
  {
    var line := prefix + value;
    if value != "" {
      assert line[|line| - 1] == value[|value| - 1];
    } else {
      assert line == prefix;
    }
  }

  lemma {:induction false} ScanBlock(b: Block, rest: string)
    requires Sendable(b)
    ensures ScanLines(Render(b) + rest) == Lines(b) + ScanLines(rest)
  {
    match b {
      case EventBlock(name, data) =>
        CleanField("event: ", name);
        CleanField("data: ", data);
      case DataBlock(data) => CleanField("data: ", data);
      case Heartbeat =>
    }
    ScanUnlines(Lines(b), rest);
  }

  lemma {:induction false} ReadLinesConcat(r: Reader, a: seq<string>, b: seq<string>)
    ensures ReadLines(r, a + b) == ReadLines(ReadLines(r, a), b)
  {
    if b == [] {
      assert a + b == a;
    } else {
      ReadLinesConcat(r, a, b[..|b| - 1]);
      assert (a + b)[..|a + b| - 1] == a + b[..|b| - 1];
    }
  }

  lemma {:induction false} ReadLine1(r: Reader, a: string)
    ensures ReadLines(r, [a]) == ReadLine(r, a)
  {
    assert [a][..0] == [];
  }

  lemma DataLine(r: Reader, data: string)
    requires r.data == [] && OneLine(data) && data != ""
    ensures ReadLine(ReadLine(r, "data: " + data), "") == Reader("", [], r.out + [Dispatched(r.name, data)])
  {
    TrimmedStays(data);
    var line := "data: " + data;
    assert line[..5] == "data:" && line[5..] == " " + data;
    assert line[0] == 'd';
  }

  lemma EventLine(r: Reader, name: string)
    requires OneLine(name)
    ensures ReadLine(r, "event: " + name) == r.(name := name)
  {
    TrimmedStays(name);
    var line := "event: " + name;
    assert line[..6] == "event:" && line[6..] == " " + name;
  }

  lemma {:induction false} ReadFirst(r: Reader, a: string, more: seq<string>)
    ensures ReadLines(r, [a] + more) == ReadLines(ReadLine(r, a), more)
  {
    ReadLinesConcat(r, [a], more);
    ReadLine1(r, a);
  }

  lemma {:induction false} ReadData(r: Reader, data: string)
    requires r.data == [] && OneLine(data) && data != ""
    ensures ReadLines(r, ["data: " + data, ""]) == Reader("", [], r.out + [Dispatched(r.name, data)])
  {
    assert ["data: " + data, ""] == ["data: " + data] + [""];
    ReadFirst(r, "data: " + data, [""]);
    ReadLine1(ReadLine(r, "data: " + data), "");
    DataLine(r, data);
  }

  lemma HeartbeatIgnored(r: Reader)
    ensures ReadLine(r, ": heartbeat") == r
  {
    var line := ": heartbeat";
    assert line[0] == ':' && line[|line| - 1] == 't';
    assert Text.TrimLeft(line) == line && Text.TrimRight(line) == line;
  }

  lemma {:induction false} ReadHeartbeat(r: Reader)
    requires r.name == "" && r.data == []
    ensures ReadLines(r, [": heartbeat", ""]) == r
  {
    assert [": heartbeat", ""] == [": heartbeat"] + [""];
    ReadFirst(r, ": heartbeat", [""]);
    HeartbeatIgnored(r);
    ReadLine1(r, "");
  }

  lemma {:induction false} ReadBlock(r: Reader, b: Block)
    requires Sendable(b) && r.name == "" && r.data == []
    ensures ReadLines(r, Lines(b)) == Reader("", [], r.out + Sent(b))
  {
    match b
    case EventBlock(name, data) =>
      assert Lines(b) == ["event: " + name] + ["data: " + data, ""];
      ReadFirst(r, "event: " + name, ["data: " + data, ""]);
      EventLine(r, name);
      ReadData(r.(name := name), data);
    case DataBlock(data) => ReadData(r, data);
    case Heartbeat =>
      ReadHeartbeat(r);
      assert r.out + [] == r.out;
  }

  lemma {:induction false} ReadHead(r: Reader, b: Block, rest: string)
    requires Sendable(b) && r.name == "" && r.data == []
    ensures ReadLines(r, ScanLines(Render(b) + rest)) == ReadLines(Between(r.out + Sent(b)), ScanLines(rest))
  {
    ScanBlock(b, rest);
    ReadBlock(r, b);
    ReadLinesConcat(r, Lines(b), ScanLines(rest));
  }

  /** The reader between two frames. */
  function Between(out: seq<Dispatched>): Reader {
    Reader("", [], out)
  }

  lemma {:induction false} ReadBlocks(bs: seq<Block>, out: seq<Dispatched>)
    requires forall b | b in bs :: Sendable(b)
    ensures ReadLines(Between(out), ScanLines(RenderAll(bs))) == Between(out + SentAll(bs))
  {
    if bs == [] {
      assert out + [] == out;
    } else {
      var b, rest := bs[0], bs[1..];
      assert Sendable(b);
      ReadHead(Between(out), b, RenderAll(rest));
      ReadBlocks(rest, out + Sent(b));
      Text.Regroup(out, Sent(b), SentAll(rest));
    }
  }

  /** The client recovers exactly the frames that were written, whatever heartbeats lie between them. */
  lemma {:induction false} FramingRoundTrip(bs: seq<Block>)
    requires forall b | b in bs :: Sendable(b)
    ensures Read(RenderAll(bs)) == SentAll(bs)
  {
    ReadBlocks(bs, []);
    assert [] + SentAll(bs) == SentAll(bs);
  }

  // ---- reading what other servers write ----

  /**
   An event with its data lines, closed by a blank line or not, or a JSON object on a line of its own.
   */
  datatype Part = Event(name: string, data: seq<string>, closed: bool) | Bare(text: string)

  function DataLines(ds: seq<string>): seq<string> {
    if ds == [] then [] else DataLines(ds[..|ds| - 1]) + ["data: " + ds[|ds| - 1]]
  }

  function PartLines(p: Part): seq<string> {
    match p
    case Event(name, data, closed) => ["event: " + name] + DataLines(data) + (if closed then [""] else [])
    case Bare(text) => [text]
  }

  function AllLines(ps: seq<Part>): seq<string> {
    if ps == [] then [] else AllLines(ps[..|ps| - 1]) + PartLines(ps[|ps| - 1])
  }

  /** What the parser should be given for one part: an event without data is nothing, a bare object has no name. */
  function Told(p: Part): seq<Dispatched> {
    match p
    case Event(name, data, _) => if data == [] then [] else [Dispatched(name, Join(data))]
    case Bare(text) => [Dispatched("", Text.TrimSpace(text))]
  }

  function AllTold(ps: seq<Part>): seq<Dispatched> {
    if ps == [] then [] else AllTold(ps[..|ps| - 1]) + Told(ps[|ps| - 1])
  }

  predicate Readable(p: Part) {
    match p
    case Event(name, data, _) => OneLine(name) && forall d | d in data :: OneLine(d)
    case Bare(text) => text != "" && text[0] == '{'
  }

  /** An event that no blank line closes is the last one, or a bare object follows. */
  predicate Followed(ps: seq<Part>) {
    && (forall p | p in ps :: Readable(p))
    && (forall i | 0 <= i < |ps| - 1 :: ps[i].Event? && !ps[i].closed ==> ps[i + 1].Bare?)
  }

  lemma {:induction false} ReadDataLines(r: Reader, ds: seq<string>)
    requires forall d | d in ds :: OneLine(d)
    ensures ReadLines(r, DataLines(ds)) == r.(data := r.data + ds)
  {
    if ds != [] {
      var init, d := ds[..|ds| - 1], ds[|ds| - 1];
      ReadDataLines(r, init);
      ReadLinesConcat(r, DataLines(init), ["data: " + d]);
      ReadLine1(r.(data := r.data + init), "data: " + d);
      assert OneLine(d);
      DataFieldRead(r.(data := r.data + init), d);
      assert init + [d] == ds && r.data + init + [d] == r.data + ds;
    }
  }

  lemma DataFieldRead(r: Reader, d: string)
    requires OneLine(d)
    ensures ReadLine(r, "data: " + d) == r.(data := r.data + [d])
  {
    TrimmedStays(d);
    var line := "data: " + d;
    assert line[..5] == "data:" && line[5..] == " " + d && line[0] == 'd';
  }

  lemma {:induction false} ReadEvent(out: seq<Dispatched>, p: Part)
    requires p.Event? && Readable(p)
    ensures ReadLines(Between(out), PartLines(p)) ==
            if p.closed then Between(out + Told(p)) else Reader(p.name, p.data, out)
    ensures Dispatch(Reader(p.name, p.data, out)) == Between(out + Told(p))
  {
    var open := Reader(p.name, p.data, out);
    EventLine(Between(out), p.name);
    ReadDataLines(Reader(p.name, [], out), p.data);
    assert [] + p.data == p.data;
    ReadFirst(Between(out), "event: " + p.name, DataLines(p.data));
    assert out + [] == out;
    if p.closed {
      ReadLinesConcat(Between(out), ["event: " + p.name] + DataLines(p.data), [""]);
      ReadLine1(open, "");
    } else {
      assert PartLines(p) == ["event: " + p.name] + DataLines(p.data);
    }
  }

  lemma {:induction false} BareRead(r: Reader, text: string)
    requires text != "" && text[0] == '{'
    ensures ReadLines(r, [text]) == Between(Dispatch(r).out + [Dispatched("", Text.TrimSpace(text))])
  {
    ReadLine1(r, text);
    assert Text.TrimLeft(text) == text;
    TrimRightKeepsFirst(text);
    assert text[..1] == "{";
  }

  lemma {:induction false} TrimRightKeepsFirst(s: string)
    requires s != "" && !Text.IsSpace(s[0])
    ensures Text.TrimRight(s) != "" && Text.TrimRight(s)[0] == s[0]
  {
    if Text.IsSpace(s[|s| - 1]) {
      TrimRightKeepsFirst(s[..|s| - 1]);
    }
  }

  lemma FollowedInit(ps: seq<Part>)
    requires Followed(ps) && ps != []
    ensures var init, p := ps[..|ps| - 1], ps[|ps| - 1];
            Followed(init) && Readable(p) && (p.Event? ==> Settled(init))
  {
    assert ps[|ps| - 1] in ps;
  }

  predicate Settled(ps: seq<Part>) {
    ps != [] && ps[|ps| - 1].Event? ==> ps[|ps| - 1].closed
  }

  /**
   Any list of such parts is read as the events it tells: data lines joined by newlines, names forgotten after each
   event, an event dispatched by a blank line, by a bare object or by the end of the stream.
   */
  lemma {:induction false} ReadParts(ps: seq<Part>)
    requires Followed(ps)
    ensures Dispatch(ReadLines(START, AllLines(ps))) == Between(AllTold(ps))
    ensures Settled(ps) ==> ReadLines(START, AllLines(ps)) == Between(AllTold(ps))
  {
    if ps != [] {
      var init, p := ps[..|ps| - 1], ps[|ps| - 1];
      FollowedInit(ps);
      ReadParts(init);
      ReadLinesConcat(START, AllLines(init), PartLines(p));
      match p {
        case Event(_, _, _) => ReadEvent(AllTold(init), p);
        case Bare(text) => BareRead(ReadLines(START, AllLines(init)), text);
      }
    }
  }
}
