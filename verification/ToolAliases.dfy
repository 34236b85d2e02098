/**
 Tool names longer than the upstream allows are replaced by aliases of at most 64 characters, and restored in the
 answer.

 A string is a sequence of runes.  Go walks the alias map of a namespace in any order.
 */
module ToolAliases {

  import opened Options
  import opened Sets
  import opened Text
  import Parser

  const WIDTH := 64
  const INT64_MAX := 0x7FFF_FFFF_FFFF_FFFF

  /** The "type" of a tool. */
  datatype Kind = NamespaceKind | FunctionKind | CustomKind | OtherKind

  /** An entry of a tool list; `nested` is the name in its "function" object, if it has one. */
  datatype Tool = NotAnObject | Tool(kind: Kind, nested: Option<string>, name: string, tools: seq<Tool>)

  predicate Namespace(t: Tool) {
    t.Tool? && t.kind.NamespaceKind?
  }

  /** The declared name, or "" for an entry that declares none. */
  function DeclaredName(t: Tool, messages: bool): string {
    if t.NotAnObject? then ""
    else if t.nested.Some? then t.nested.value
    else if messages || t.kind.FunctionKind? || t.kind.CustomKind? then t.name
    else ""
  }

  // ---- preferred aliases ----

  function Truncate(s: string, most: int): (r: string)
    ensures |r| <= |s| && (most >= 0 ==> |r| <= most) && (|s| <= most ==> r == s)
  {
    if most <= 0 then "" else if |s| <= most then s else s[..most]
  }

  predicate PairAt(s: string, j: int) {
    0 <= j < |s| - 1 && s[j] == '_' && s[j + 1] == '_'
  }

  /** strings.LastIndex of two underscores. */
  function LastUnderscores(s: string): (i: int)
    ensures -1 <= i <= |s| - 2 || i == -1
    ensures i >= 0 ==> PairAt(s, i)
    ensures forall j | i < j < |s| - 1 :: !PairAt(s, j)
  {
    if |s| < 2 then -1
    else if s[|s| - 2] == '_' && s[|s| - 1] == '_' then |s| - 2
    else
      assert forall j | 0 <= j < |s| - 2 :: PairAt(s, j) == PairAt(s[..|s| - 1], j);
      LastUnderscores(s[..|s| - 1])
  }

  function Preferred(name: string): (alias: string)
    ensures |alias| <= WIDTH && (|name| <= WIDTH ==> alias == name) && (name != "" ==> alias != "")
  {
    if |name| <= WIDTH then name
    else if name[..5] == "mcp__" && LastUnderscores(name[5..]) >= 0
    then Truncate("mcp__" + name[5 + LastUnderscores(name[5..]) + 2..], WIDTH)
    else Truncate(name, WIDTH)
  }

  /** A long name of an MCP tool loses its server, not the end of its tool name. */
  lemma PreferredDropsServer(server: string, tool: string)
    requires |server| + |tool| + 7 > WIDTH && (tool != "" ==> tool[0] != '_') && forall j :: !PairAt(tool, j)
    ensures Preferred("mcp__" + server + "__" + tool) == Truncate("mcp__" + tool, WIDTH)
  {
    var name, rest := "mcp__" + server + "__" + tool, server + "__" + tool;
    assert name[..5] == "mcp__" && name[5..] == rest;
    var i := LastUnderscores(rest);
    assert PairAt(rest, |server|);
    assert i >= |server|;
    assert forall j | |server| + 1 < j < |rest| - 1 :: PairAt(rest, j) == PairAt(tool, j - |server| - 2);
    assert i == |server|;
    assert name[5 + i + 2..] == tool;
  }

  /** Any other long name is cut. */
  lemma PreferredCuts(name: string)
    requires |name| > WIDTH && (name[..5] == "mcp__" ==> forall j :: !PairAt(name[5..], j))
    ensures Preferred(name) == name[..WIDTH]
  {
  }

  // ---- the candidates ----

  function Marker(k: nat): (m: string)
    ensures |m| >= 2
  {
    "_" + Decimal(k)
  }

  /** The k-th try: the base itself, then the base cut to make room for a numbered marker. */
  function Candidate(base: string, k: nat): (c: string)
    ensures k > 0 || base != "" ==> c != ""
  {
    if k == 0 then base else Truncate(base, WIDTH - |Marker(k)|) + Marker(k)
  }

  /** A marker starts at the last underscore. */
  lemma MarkerStart(a: string, i: nat)
    ensures var s := a + Marker(i); s[|a|] == '_' && forall p | |a| < p < |s| :: s[p] != '_'
  {
    DecimalDigitsOnly(i);
    var s := a + Marker(i);
    forall p | |a| < p < |s|
      ensures s[p] != '_'
    {
      assert s[p] == Decimal(i)[p - |a| - 1];
    }
  }

  lemma SameMarker(a: string, b: string, i: nat, j: nat)
    requires a + Marker(i) == b + Marker(j)
    ensures i == j
  {
    var s := a + Marker(i);
    MarkerStart(a, i);
    MarkerStart(b, j);
    assert |a| == |b|;
    assert s[|a|..] == Marker(i) && s[|b|..] == Marker(j);
    assert Marker(i)[1..] == Decimal(i) && Marker(j)[1..] == Decimal(j);
    DecimalInjective(i, j);
  }

  /** Numbered candidates never coincide. */
  lemma CandidatesDiffer(base: string, i: nat, j: nat)
    requires 0 < i && 0 < j && i != j
    ensures Candidate(base, i) != Candidate(base, j)
  {
    if Candidate(base, i) == Candidate(base, j) {
      SameMarker(Truncate(base, WIDTH - |Marker(i)|), Truncate(base, WIDTH - |Marker(j)|), i, j);
    }
  }

  /** A base of full width that ends with a marker. */
  predicate EndsWithMarker(base: string, k: nat) {
    |base| == WIDTH && |Marker(k)| <= WIDTH && base[WIDTH - |Marker(k)|..] == Marker(k)
  }

  /** Exactly such a base is one of its own numbered candidates. */
  lemma OwnCandidateIff(base: string, k: nat)
    requires k > 0 && |base| <= WIDTH
    ensures Candidate(base, k) == base <==> EndsWithMarker(base, k)
  {
    var m := Marker(k);
    if |m| <= WIDTH {
      var cut := Truncate(base, WIDTH - |m|);
      if |base| == WIDTH {
        assert cut == base[..WIDTH - |m|];
        assert base == base[..WIDTH - |m|] + base[WIDTH - |m|..];
        assert (cut + m)[WIDTH - |m|..] == m;
      }
    }
  }

  ghost predicate OwnCandidate(base: string) {
    exists k :: k > 0 && EndsWithMarker(base, k)
  }

  lemma CandidateFits(base: string, k: nat)
    requires |base| <= WIDTH && k <= INT64_MAX
    ensures |Candidate(base, k)| <= WIDTH
  {
    if k > 0 {
      assert Pow10(19) > INT64_MAX by {
        assert Pow10(4) == 10_000;
        assert Pow10(8) == 100_000_000;
        assert Pow10(12) == 1_000_000_000_000;
        assert Pow10(16) == 10_000_000_000_000_000;
      }
      DecimalLength(k, 19);
    }
  }

  // ---- the search ----

  /** The tries before the k-th are all taken. */
  predicate Taken(base: string, used: set<string>, k: nat) {
    forall j | 0 <= j < k :: Candidate(base, j) in used
  }

  /** The numbered tries before the k-th. */
  ghost function Numbered(base: string, k: nat): (s: set<string>)
    requires k > 0
  {
    if k == 1 then {} else Numbered(base, k - 1) + {Candidate(base, k - 1)}
  }

  lemma {:induction false} NumberedSize(base: string, k: nat, from: nat)
    requires 0 < k <= from
    ensures |Numbered(base, k)| == k - 1 && Candidate(base, from) !in Numbered(base, k)
  {
    if k > 1 {
      NumberedSize(base, k - 1, k - 1);
      NumberedSize(base, k - 1, from);
      CandidatesDiffer(base, k - 1, from);
    }
  }

  lemma {:induction false} NumberedTaken(base: string, used: set<string>, k: nat)
    requires k > 0 && Taken(base, used, k)
    ensures Numbered(base, k) <= used
  {
    if k > 1 {
      NumberedTaken(base, used, k - 1);
    }
  }

  /**
   If the first k tries are taken, k is at most one more than the number of names in use; at most that number unless the
   base is its own candidate.
   */
  lemma SearchBound(base: string, used: set<string>, k: nat)
    requires Taken(base, used, k)
    ensures k <= |used| + 1 && (|base| <= WIDTH && !OwnCandidate(base) ==> k <= |used|)
  {
    if k > 0 {
      NumberedSize(base, k, k);
      NumberedTaken(base, used, k);
      SubsetSize(Numbered(base, k), used);
      if |base| <= WIDTH && !OwnCandidate(base) {
        BaseNotNumbered(base, k);
        assert base == Candidate(base, 0);
        SubsetSize(Numbered(base, k) + {base}, used);
      }
    }
  }

  lemma {:induction false} BaseNotNumbered(base: string, k: nat)
    requires k > 0 && |base| <= WIDTH && !OwnCandidate(base)
    ensures base !in Numbered(base, k)
  {
    if k > 1 {
      BaseNotNumbered(base, k - 1);
      OwnCandidateIff(base, k - 1);
    }
  }

  lemma {:induction false} NumberedAre(base: string, k: nat, j: nat)
    requires 0 < j < k
    ensures Candidate(base, j) in Numbered(base, k)
  {
    if j < k - 1 {
      NumberedAre(base, k - 1, j);
    }
  }

  /**
   The search ends within |used| + 1 tries for every set of names in use, exactly when the base does not end with a
   marker at full width.
   */
  lemma SearchWithinUsedIff(base: string)
    requires |base| <= WIDTH
    ensures (forall used, k: nat | Taken(base, used, k) :: k <= |used|) <==> !OwnCandidate(base)
  {
    if OwnCandidate(base) {
      var k :| k > 0 && EndsWithMarker(base, k);
      OwnCandidateIff(base, k);
      var used := Numbered(base, k + 1);
      NumberedSize(base, k + 1, k + 1);
      forall j | 0 <= j < k + 1
        ensures Candidate(base, j) in used
      {
        NumberedAre(base, k + 1, if j == 0 then k else j);
      }
      assert Taken(base, used, k + 1) && |used| == k;
    } else {
      forall used, k: nat | Taken(base, used, k)
        ensures k <= |used|
      {
        SearchBound(base, used, k);
      }
    }
  }

  /**
   uniqueToolAlias: the first candidate not in use, found within |used| + 2 tries, |used| + 1 unless the base is its own
   candidate.
   */
  method UniqueAlias(base: string, used: set<string>) returns (alias: string, used': set<string>, tries: nat)
    ensures tries >= 1 && alias == Candidate(base, tries - 1) && alias !in used && Taken(base, used, tries - 1)
    ensures used' == used + {alias}
    ensures tries <= |used| + 2 && (|base| <= WIDTH && !OwnCandidate(base) ==> tries <= |used| + 1)
  {
    var candidate := base;
    var suffix := 1;
    while candidate in used
      invariant suffix >= 1 && candidate == Candidate(base, suffix - 1) && Taken(base, used, suffix - 1)
      decreases |used| + 2 - suffix
    {
      assert Taken(base, used, suffix);
      SearchBound(base, used, suffix);
      var marker := "_" + Decimal(suffix);
      candidate := Truncate(base, WIDTH - |marker|) + marker;
      suffix := suffix + 1;
    }
    SearchBound(base, used, suffix - 1);
    return candidate, used + {candidate}, suffix;
  }

  /** A base of full width that ends in its own first marker: one name in use, and three tries. */
  lemma FullWidthTakesThreeTries(prefix: string)
    requires |prefix| == WIDTH - 2
    ensures var base := prefix + "_1"; Taken(base, {base}, 2) && Candidate(base, 2) !in {base}
  {
    var base := prefix + "_1";
    assert Decimal(1) == "1" && Marker(1) == "_1";
    assert base[..WIDTH - 2] == prefix;
    assert Candidate(base, 1) == base;
    CandidatesDiffer(base, 1, 2);
  }

  // ---- the first free candidate, as a function ----

  lemma {:induction false} LeastFree(base: string, used: set<string>, k: nat)
    requires Taken(base, used, k)
    ensures exists n :: n >= k && Candidate(base, n) !in used && Taken(base, used, n)
    decreases |used| + 2 - k
  {
    SearchBound(base, used, k);
    if Candidate(base, k) in used {
      assert Taken(base, used, k + 1);
      SearchBound(base, used, k + 1);
      LeastFree(base, used, k + 1);
    }
  }

  ghost function FirstFree(base: string, used: set<string>): (n: nat)
    ensures Candidate(base, n) !in used && Taken(base, used, n)
  {
    LeastFree(base, used, 0);
    var n :| n >= 0 && Candidate(base, n) !in used && Taken(base, used, n);
    n
  }

  ghost function Unique(base: string, used: set<string>): string {
    Candidate(base, FirstFree(base, used))
  }

  lemma FirstFreeIsUnique(base: string, used: set<string>, n: nat)
    requires Candidate(base, n) !in used && Taken(base, used, n)
    ensures n == FirstFree(base, used)
  {
  }

  // ---- building the map ----

  datatype Names = Names(aliases: map<string, string>, used: set<string>)

  /** One name gets the first free alias. */
  ghost function Add(n: Names, name: string, base: string): Names {
    var alias := Unique(base, n.used);
    Names(n.aliases[name := alias], n.used + {alias})
  }

  predicate Within(order: seq<string>, nested: map<string, string>) {
    forall i | 0 <= i < |order| :: order[i] in nested
  }

  /** A walk over a map: every key exactly once. */
  predicate Enumerates(order: seq<string>, nested: map<string, string>) {
    Within(order, nested) && Distinct(order) && forall a | a in nested :: a in order
  }

  predicate Distinct(order: seq<string>) {
    forall i, j | 0 <= i < j < |order| :: order[i] != order[j]
  }

  /** The aliases of a namespace are renamed once more, in the given order. */
  ghost function Absorb(n: Names, nested: map<string, string>, order: seq<string>): Names
    requires Within(order, nested)
  {
    if order == [] then n
    else
      var last := order[|order| - 1];
      Add(Absorb(n, nested, order[..|order| - 1]), last, nested[last])
  }

  /** Distinct, in use, and of a length the upstream takes. */
  ghost predicate Sound(n: Names) {
    && (forall a, b | a in n.aliases && b in n.aliases && n.aliases[a] == n.aliases[b] :: a == b)
    && (forall a | a in n.aliases :: n.aliases[a] in n.used && Presentable(n.aliases[a]))
  }

  predicate Presentable(alias: string) {
    0 < |alias| <= WIDTH
  }

  lemma AddSound(n: Names, name: string, base: string)
    requires Sound(n) && Presentable(base) && |n.used| < INT64_MAX
    ensures Sound(Add(n, name, base)) && |Add(n, name, base).used| == |n.used| + 1
  {
    var k := FirstFree(base, n.used);
    SearchBound(base, n.used, k);
    CandidateFits(base, k);
  }

  // ---- what a list of tools declares ----

  function Size(tools: seq<Tool>): nat {
    if tools == [] then 0 else Size(tools[..|tools| - 1]) + SizeOf(tools[|tools| - 1])
  }

  function SizeOf(t: Tool): nat {
    if t.NotAnObject? then 1 else 1 + Size(t.tools)
  }

  /** The non-empty names declared in the list and in its namespaces. */
  ghost function Declared(tools: seq<Tool>, messages: bool): set<string> {
    if tools == [] then {} else Declared(tools[..|tools| - 1], messages) + DeclaredBy(tools[|tools| - 1], messages)
  }

  ghost function DeclaredBy(t: Tool, messages: bool): set<string> {
    if Namespace(t) then Declared(t.tools, messages)
    else if |DeclaredName(t, messages)| == 0 then {}
    else {DeclaredName(t, messages)}
  }

  lemma {:induction false} DeclaredNonEmpty(tools: seq<Tool>, messages: bool, name: string)
    requires name in Declared(tools, messages)
    ensures name != ""
  {
    var last := tools[|tools| - 1];
    if name !in DeclaredBy(last, messages) {
      DeclaredNonEmpty(tools[..|tools| - 1], messages, name);
    } else if Namespace(last) {
      DeclaredNonEmpty(last.tools, messages, name);
    }
  }

  ghost function AddTool(n: Names, t: Tool, messages: bool): Names {
    var name := DeclaredName(t, messages);
    if |name| == 0 then n else Add(n, name, Preferred(name))
  }

  const NO_NAMES := Names(map[], {})

  /** The maps that building may give for a list, whatever walks it takes over the aliases of namespaces. */
  ghost predicate Outcome(tools: seq<Tool>, messages: bool, n: Names)
    decreases tools
  {
    if tools == [] then n == NO_NAMES
    else
      var init, last := tools[..|tools| - 1], tools[|tools| - 1];
      exists m :: Outcome(init, messages, m) && OneOutcome(m, last, messages, n)
  }

  ghost predicate OneOutcome(m: Names, t: Tool, messages: bool, n: Names)
    decreases t
  {
    if Namespace(t) then
      exists nested: Names, order ::
        Outcome(t.tools, messages, nested) && Enumerates(order, nested.aliases) && n == Absorb(m, nested.aliases, order)
    else n == AddTool(m, t, messages)
  }

  lemma MapSize(aliases: map<string, string>, used: set<string>)
    requires forall a | a in aliases :: aliases[a] in used
    requires forall a, b | a in aliases && b in aliases && aliases[a] == aliases[b] :: a == b
    ensures |aliases| <= |used|
    decreases |aliases|
  {
    if aliases != map[] {
      var a :| a in aliases;
      var rest := aliases - {a};
      assert rest.Keys == aliases.Keys - {a};
      assert |rest.Keys| == |aliases.Keys| - 1;
      MapSize(rest, used - {aliases[a]});
    }
  }

  lemma {:induction false} AbsorbOneMore(n: Names, nested: map<string, string>, order: seq<string>, name: string)
    requires Within(order, nested) && name in nested
    ensures Within(order + [name], nested)
    ensures Absorb(n, nested, order + [name]) == Add(Absorb(n, nested, order), name, nested[name])
  {
    assert (order + [name])[..|order|] == order;
  }

  ghost predicate AllPresentable(nested: map<string, string>) {
    forall a | a in nested :: Presentable(nested[a])
  }

  ghost function Listed(order: seq<string>): set<string> {
    set a | a in order
  }

  /** Absorbed in any order, the aliases stay sound. */
  lemma {:induction false} AbsorbSound(n: Names, nested: map<string, string>, order: seq<string>)
    requires Sound(n) && |n.used| + |order| <= INT64_MAX && AllPresentable(nested) && Within(order, nested)
    ensures var r := Absorb(n, nested, order);
            Sound(r) && r.aliases.Keys == n.aliases.Keys + Listed(order) && |r.used| == |n.used| + |order|
  {
    if order != [] {
      var init, last := order[..|order| - 1], order[|order| - 1];
      AbsorbSound(n, nested, init);
      AddSound(Absorb(n, nested, init), last, nested[last]);
      assert Listed(order) == Listed(init) + {last};
    }
  }

  lemma {:induction false} DistinctSize(order: seq<string>)
    requires Distinct(order)
    ensures |Listed(order)| == |order|
  {
    if order != [] {
      var init, last := order[..|order| - 1], order[|order| - 1];
      DistinctSize(init);
      assert Listed(order) == Listed(init) + {last} && last !in Listed(init);
    }
  }

  lemma EnumeratesAll(order: seq<string>, nested: map<string, string>)
    requires Enumerates(order, nested)
    ensures Listed(order) == nested.Keys && |order| == |nested|
  {
    assert Listed(order) == nested.Keys;
    DistinctSize(order);
  }

  /** The aliases of a namespace can be absorbed, and the result is presentable. */
  ghost predicate Absorbable(n: Names, nested: map<string, string>) {
    Sound(n) && |n.used| + |nested| <= INT64_MAX && AllPresentable(nested)
  }

  lemma {:induction false} WalkSound(n: Names, nested: map<string, string>, order: seq<string>)
    requires Absorbable(n, nested) && Enumerates(order, nested)
    ensures var r := Absorb(n, nested, order);
            Sound(r) && r.aliases.Keys == n.aliases.Keys + nested.Keys && |r.used| == |n.used| + |nested|
  {
    EnumeratesAll(order, nested);
    AbsorbSound(n, nested, order);
  }

  /** The loop over the aliases of a namespace, in any order. */
  method AbsorbNamespace(n: Names, nested: map<string, string>) returns (r: Names, ghost order: seq<string>)
    ensures Enumerates(order, nested) && r == Absorb(n, nested, order)
    ensures Absorbable(n, nested) ==>
              Sound(r) && r.aliases.Keys == n.aliases.Keys + nested.Keys && |r.used| == |n.used| + |nested|
  {
    r, order := n, [];
    var remaining := nested.Keys;
    while remaining != {}
      invariant remaining <= nested.Keys && forall a | a in nested :: a in order <==> a !in remaining
      invariant Within(order, nested) && Distinct(order) && r == Absorb(n, nested, order)
      decreases |remaining|
    {
      var original :| original in remaining;
      AbsorbOneMore(n, nested, order, original);
      r := AddAlias(r, original, nested[original]);
      order := order + [original];
      remaining := remaining - {original};
    }
    if Absorbable(n, nested) {
      WalkSound(n, nested, order);
    }
  }

  method AddAlias(n: Names, name: string, base: string) returns (r: Names)
    ensures r == Add(n, name, base)
  {
    var alias, used, tries := UniqueAlias(base, n.used);
    FirstFreeIsUnique(base, n.used, tries - 1);
    r := Names(n.aliases[name := alias], used);
  }

  lemma {:induction false} PrefixSize(tools: seq<Tool>, i: nat)
    requires i <= |tools|
    ensures Size(tools[..i]) <= Size(tools)
  {
    if i < |tools| {
      var init := tools[..|tools| - 1];
      PrefixSize(init, i);
      assert init[..i] == tools[..i];
    } else {
      assert tools[..i] == tools;
    }
  }

  lemma {:induction false} PrefixStep(tools: seq<Tool>, i: nat)
    requires i < |tools|
    ensures tools[..i + 1][..i] == tools[..i] && tools[..i + 1][i] == tools[i]
    ensures Size(tools[..i]) + SizeOf(tools[i]) <= Size(tools)
  {
    var more := tools[..i + 1];
    assert more[..|more| - 1] == tools[..i];
    PrefixSize(tools, i + 1);
  }

  lemma NestedFits(nested: Names)
    requires Sound(nested)
    ensures |nested.aliases| <= |nested.used| && AllPresentable(nested.aliases)
  {
    MapSize(nested.aliases, nested.used);
  }

  /** Whatever walks it takes, building gives every declared name an alias of its own. */
  lemma {:induction false} OutcomeSound(tools: seq<Tool>, messages: bool, n: Names)
    requires Size(tools) <= INT64_MAX && Outcome(tools, messages, n)
    ensures Sound(n) && n.aliases.Keys == Declared(tools, messages) && |n.used| <= Size(tools)
    decreases tools
  {
    if tools != [] {
      var init, last := tools[..|tools| - 1], tools[|tools| - 1];
      var m :| Outcome(init, messages, m) && OneOutcome(m, last, messages, n);
      OutcomeSound(init, messages, m);
      OneOutcomeSound(m, last, messages, n);
    }
  }

  lemma {:induction false} NestedSound(m: Names, nested: Names, order: seq<string>, size: nat)
    requires Sound(m) && Sound(nested) && |nested.used| <= size && |m.used| + size <= INT64_MAX
    requires Enumerates(order, nested.aliases)
    ensures var n := Absorb(m, nested.aliases, order);
            Sound(n) && n.aliases.Keys == m.aliases.Keys + nested.aliases.Keys && |n.used| <= |m.used| + size
  {
    NestedFits(nested);
    WalkSound(m, nested.aliases, order);
  }

  lemma {:induction false} NamedSound(m: Names, t: Tool, messages: bool)
    requires Sound(m) && |m.used| < INT64_MAX && !Namespace(t)
    ensures var n := AddTool(m, t, messages);
            Sound(n) && n.aliases.Keys == m.aliases.Keys + DeclaredBy(t, messages) && |n.used| <= |m.used| + 1
  {
    var name := DeclaredName(t, messages);
    if |name| > 0 {
      AddSound(m, name, Preferred(name));
      assert Add(m, name, Preferred(name)).aliases.Keys == m.aliases.Keys + {name};
    }
  }

  lemma {:induction false} OneOutcomeSound(m: Names, t: Tool, messages: bool, n: Names)
    requires Sound(m) && |m.used| + SizeOf(t) <= INT64_MAX && OneOutcome(m, t, messages, n)
    ensures Sound(n) && n.aliases.Keys == m.aliases.Keys + DeclaredBy(t, messages) && |n.used| <= |m.used| + SizeOf(t)
    decreases t
  {
    if Namespace(t) {
      var nested: Names, order :| Outcome(t.tools, messages, nested) && Enumerates(order, nested.aliases) &&
                                  n == Absorb(m, nested.aliases, order);
      OutcomeSound(t.tools, messages, nested);
      NestedSound(m, nested, order, Size(t.tools));
    } else {
      NamedSound(m, t, messages);
    }
  }

  method BuildOne(n: Names, t: Tool, messages: bool) returns (n': Names)
    requires SizeOf(t) <= INT64_MAX
    ensures OneOutcome(n, t, messages, n')
    decreases t
  {
    if Namespace(t) {
      var nested := BuildAliases(t.tools, messages);
      ghost var order;
      n', order := AbsorbNamespace(n, nested.aliases);
      return;
    }
    var name := DeclaredName(t, messages);
    if |name| == 0 {
      return n;
    }
    n' := AddAlias(n, name, Preferred(name));
  }

  /**
   buildToolAliases, nested namespaces included: every declared name gets an alias, no two names the same one, none
   longer than the upstream allows; the map is one of those that some walks give.
   */
  method BuildAliases(tools: seq<Tool>, messages: bool) returns (n: Names)
    requires Size(tools) <= INT64_MAX
    ensures Sound(n) && n.aliases.Keys == Declared(tools, messages) && |n.used| <= Size(tools)
    ensures Outcome(tools, messages, n) && (Clear(tools, messages) ==> n == Canon(tools, messages))
    decreases tools
  {
    n := NO_NAMES;
    var i := 0;
    while i < |tools|
      invariant 0 <= i <= |tools| && Outcome(tools[..i], messages, n)
    {
      PrefixStep(tools, i);
      n := BuildOne(n, tools[i], messages);
      i := i + 1;
    }
    assert tools[..i] == tools;
    OutcomeSound(tools, messages, n);
    if Clear(tools, messages) {
      ClearDetermines(tools, messages, n);
    }
  }

  // ---- when the walk does not matter ----

  /** The first free aliases of a namespace are all different. */
  ghost predicate Apart(used: set<string>, nested: map<string, string>) {
    forall a, b | a in nested && b in nested && a != b :: Unique(nested[a], used) != Unique(nested[b], used)
  }

  /** Every alias of a namespace replaced by its first free alias, all at once. */
  ghost function Together(n: Names, nested: map<string, string>): Names {
    Names(map a | a in n.aliases.Keys + nested.Keys ::
            if a in nested then Unique(nested[a], n.used) else n.aliases[a],
          n.used + Chosen(n.used, nested, nested.Keys))
  }

  ghost function Chosen(used: set<string>, nested: map<string, string>, names: set<string>): set<string>
    requires names <= nested.Keys
  {
    set a | a in names :: Unique(nested[a], used)
  }

  /** A first free alias stays the first free one while others are taken. */
  lemma UniqueStays(base: string, used: set<string>, more: set<string>)
    requires used <= more && Unique(base, used) !in more
    ensures Unique(base, more) == Unique(base, used)
  {
    FirstFreeIsUnique(base, more, FirstFree(base, used));
  }

  /** After some of the walk, the names walked have their own first free aliases. */
  ghost predicate Partial(n: Names, nested: map<string, string>, names: set<string>, r: Names)
    requires names <= nested.Keys
  {
    && r.used == n.used + Chosen(n.used, nested, names) && r.aliases.Keys == n.aliases.Keys + names
    && (forall a | a in names :: r.aliases[a] == Unique(nested[a], n.used))
    && (forall a | a in n.aliases && a !in names :: r.aliases[a] == n.aliases[a])
  }

  lemma PartialOneMore(n: Names, nested: map<string, string>, names: set<string>, r: Names, name: string)
    requires Apart(n.used, nested) && names <= nested.Keys && Partial(n, nested, names, r)
    requires name in nested && name !in names
    ensures Partial(n, nested, names + {name}, Add(r, name, nested[name]))
  {
    UniqueStays(nested[name], n.used, r.used);
    assert Chosen(n.used, nested, names + {name}) == Chosen(n.used, nested, names) + {Unique(nested[name], n.used)};
  }

  lemma {:induction false} WalkIsPartial(n: Names, nested: map<string, string>, order: seq<string>)
    requires Apart(n.used, nested) && Within(order, nested) && Distinct(order)
    ensures Listed(order) <= nested.Keys && Partial(n, nested, Listed(order), Absorb(n, nested, order))
  {
    if order != [] {
      var init, last := order[..|order| - 1], order[|order| - 1];
      WalkIsPartial(n, nested, init);
      PartialOneMore(n, nested, Listed(init), Absorb(n, nested, init), last);
      assert Listed(order) == Listed(init) + {last};
    }
  }

  lemma {:induction false} WalkIsTogether(n: Names, nested: map<string, string>, order: seq<string>)
    requires Apart(n.used, nested) && Enumerates(order, nested)
    ensures Absorb(n, nested, order) == Together(n, nested)
  {
    WalkIsPartial(n, nested, order);
    EnumeratesAll(order, nested);
    PartialOfAll(n, nested, Absorb(n, nested, order));
  }

  lemma PartialOfAll(n: Names, nested: map<string, string>, r: Names)
    requires Partial(n, nested, nested.Keys, r)
    ensures r == Together(n, nested)
  {
    assert r.aliases == Together(n, nested).aliases;
  }

  /** The first name of a walk gets its first free alias, and no other name gets that. */
  lemma {:induction false} FirstOfWalk(n: Names, nested: map<string, string>, order: seq<string>)
    requires order != [] && Within(order, nested) && Distinct(order)
    ensures var r, alias := Absorb(n, nested, order), Unique(nested[order[0]], n.used);
            && alias in r.used && order[0] in r.aliases && r.aliases[order[0]] == alias
            && forall i | 0 < i < |order| :: order[i] in r.aliases && r.aliases[order[i]] != alias
  {
    var init := order[..|order| - 1];
    if init == [] {
      assert Absorb(n, nested, init) == n;
    } else {
      FirstOfWalk(n, nested, init);
      assert forall i | 0 <= i < |init| :: init[i] == order[i];
    }
  }

  lemma {:induction false} SomeOrder(names: set<string>) returns (order: seq<string>)
    ensures Distinct(order) && forall a :: a in order <==> a in names
    decreases |names|
  {
    order := [];
    if names != {} {
      var a :| a in names;
      order := SomeOrder(names - {a});
      order := order + [a];
    }
  }

  /** Some walk starts with the given name. */
  lemma WalkFrom(nested: map<string, string>, first: string) returns (order: seq<string>)
    requires first in nested
    ensures Enumerates(order, nested) && order[0] == first
  {
    var rest := SomeOrder(nested.Keys - {first});
    order := [first] + rest;
    assert forall i | 0 <= i < |rest| :: rest[i] in rest && rest[i] != first;
    assert forall a | a in nested && a != first :: a in rest;
  }

  /** Two names with one first free alias: each walk gives it to the name it meets first. */
  lemma ClashingWalks(n: Names, nested: map<string, string>, a: string, b: string)
      returns (o: seq<string>, p: seq<string>)
    requires a in nested && b in nested && a != b && Unique(nested[a], n.used) == Unique(nested[b], n.used)
    ensures Enumerates(o, nested) && Enumerates(p, nested)
    ensures var forward, again := Absorb(n, nested, o).aliases, Absorb(n, nested, p).aliases;
            a in forward && a in again && b in again && forward[a] == again[b] != again[a]
  {
    o := WalkFrom(nested, a);
    p := WalkFrom(nested, b);
    FirstOfWalk(n, nested, o);
    FirstOfWalk(n, nested, p);
    assert a in p;
  }

  /**
   All walks over a namespace give one result, if and only if the first free aliases of its names are all different.
   */
  lemma {:induction false} WalksAgreeIff(n: Names, nested: map<string, string>)
    ensures (forall o, p | Enumerates(o, nested) && Enumerates(p, nested) ::
               Absorb(n, nested, o) == Absorb(n, nested, p)) <==> Apart(n.used, nested)
  {
    if Apart(n.used, nested) {
      forall o | Enumerates(o, nested)
        ensures Absorb(n, nested, o) == Together(n, nested)
      {
        WalkIsTogether(n, nested, o);
      }
    } else {
      var a, b :| a in nested && b in nested && a != b && Unique(nested[a], n.used) == Unique(nested[b], n.used);
      var o, p := ClashingWalks(n, nested, a, b);
    }
  }

  // ---- when the walks over a whole list do not matter ----

  /** The map that does without walks. */
  ghost function Canon(tools: seq<Tool>, messages: bool): Names
    decreases tools
  {
    if tools == [] then NO_NAMES
    else CanonOne(Canon(tools[..|tools| - 1], messages), tools[|tools| - 1], messages)
  }

  ghost function CanonOne(n: Names, t: Tool, messages: bool): Names
    decreases t
  {
    if Namespace(t) then Together(n, Canon(t.tools, messages).aliases) else AddTool(n, t, messages)
  }

  /** No namespace of the list, at any depth, has names that compete for an alias. */
  ghost predicate Clear(tools: seq<Tool>, messages: bool)
    decreases tools
  {
    tools == [] ||
    (Clear(tools[..|tools| - 1], messages) &&
     ClearOne(Canon(tools[..|tools| - 1], messages).used, tools[|tools| - 1], messages))
  }

  ghost predicate ClearOne(used: set<string>, t: Tool, messages: bool)
    decreases t
  {
    Namespace(t) ==> Clear(t.tools, messages) && Apart(used, Canon(t.tools, messages).aliases)
  }

  /** A list without namespaces is clear. */
  lemma {:induction false} NamespaceFreeIsClear(tools: seq<Tool>, messages: bool)
    requires forall i | 0 <= i < |tools| :: !Namespace(tools[i])
    ensures Clear(tools, messages)
  {
    if tools != [] {
      NamespaceFreeIsClear(tools[..|tools| - 1], messages);
    }
  }

  /** On a clear list building gives one map. */
  lemma {:induction false} ClearDetermines(tools: seq<Tool>, messages: bool, n: Names)
    requires Clear(tools, messages) && Outcome(tools, messages, n)
    ensures n == Canon(tools, messages)
    decreases tools
  {
    if tools != [] {
      var init, last := tools[..|tools| - 1], tools[|tools| - 1];
      var m :| Outcome(init, messages, m) && OneOutcome(m, last, messages, n);
      ClearDetermines(init, messages, m);
      ClearDeterminesOne(m, last, messages, n);
    }
  }

  lemma {:induction false} ClearDeterminesOne(m: Names, t: Tool, messages: bool, n: Names)
    requires ClearOne(m.used, t, messages) && OneOutcome(m, t, messages, n)
    ensures n == CanonOne(m, t, messages)
    decreases t
  {
    if Namespace(t) {
      var nested: Names, order :| Outcome(t.tools, messages, nested) && Enumerates(order, nested.aliases) &&
                                  n == Absorb(m, nested.aliases, order);
      ClearDetermines(t.tools, messages, nested);
      WalkIsTogether(m, nested.aliases, order);
    }
  }

  /** Building can always go on. */
  lemma {:induction false} SomeOutcome(tools: seq<Tool>, messages: bool) returns (n: Names)
    ensures Outcome(tools, messages, n)
    decreases tools
  {
    n := NO_NAMES;
    if tools != [] {
      var m := SomeOutcome(tools[..|tools| - 1], messages);
      n := SomeOneOutcome(m, tools[|tools| - 1], messages);
    }
  }

  lemma {:induction false} SomeOneOutcome(m: Names, t: Tool, messages: bool) returns (n: Names)
    ensures OneOutcome(m, t, messages, n)
    decreases t
  {
    if Namespace(t) {
      var nested := SomeOutcome(t.tools, messages);
      var order := SomeOrder(nested.aliases.Keys);
      n := Absorb(m, nested.aliases, order);
    } else {
      n := AddTool(m, t, messages);
    }
  }

  // ---- restoring ----

  /** The loop of requestToolReverseNames, in any order. */
  method ReverseNames(aliases: map<string, string>) returns (reverse: map<string, string>)
    requires forall a, b | a in aliases && b in aliases && aliases[a] == aliases[b] :: a == b
    ensures reverse.Keys == aliases.Values && forall a | a in aliases :: reverse[aliases[a]] == a
  {
    reverse := map[];
    var remaining := aliases.Keys;
    while remaining != {}
      invariant remaining <= aliases.Keys
      invariant forall a | a in aliases && a !in remaining :: aliases[a] in reverse && reverse[aliases[a]] == a
      invariant forall alias | alias in reverse :: reverse[alias] in aliases && reverse[alias] !in remaining &&
                                                   aliases[reverse[alias]] == alias
      decreases |remaining|
    {
      var original :| original in remaining;
      remaining := remaining - {original};
      reverse := reverse[aliases[original] := original];
    }
  }

  /** applyToolAliases on one name. */
  function Apply(aliases: map<string, string>, name: string): string {
    if name in aliases && aliases[name] != "" then aliases[name] else name
  }

  /** The reverse map of an alias map. */
  predicate Reverses(reverse: map<string, string>, aliases: map<string, string>) {
    reverse.Keys == aliases.Values && forall a | a in aliases :: aliases[a] in reverse && reverse[aliases[a]] == a
  }

  /** The second map's reverse undoes the first map. */
  ghost predicate Restores(forward: map<string, string>, again: map<string, string>) {
    forall reverse, name | Reverses(reverse, again) && name in forward ::
      Parser.Restore(reverse, Apply(forward, name)) == name
  }

  lemma SameRestores(n: Names)
    requires Sound(n) && "" !in n.aliases
    ensures Restores(n.aliases, n.aliases)
  {
  }

  ghost function Inverse(n: Names): map<string, string>
    requires Sound(n)
  {
    map alias | alias in n.aliases.Values :: Original(n, alias)
  }

  ghost function Original(n: Names, alias: string): (a: string)
    requires alias in n.aliases.Values
    ensures a in n.aliases && n.aliases[a] == alias
  {
    var a :| a in n.aliases && n.aliases[a] == alias; a
  }

  lemma InverseReverses(n: Names)
    requires Sound(n)
    ensures Reverses(Inverse(n), n.aliases)
  {
  }

  /** An alias sent for one name comes back as another. */
  lemma SwappedDoesNotRestore(forward: Names, again: Names, a: string, b: string)
    requires Sound(forward) && Sound(again) && a != b && b != ""
    requires a in forward.aliases && b in again.aliases && forward.aliases[a] == again.aliases[b]
    ensures Parser.Restore(Inverse(again), Apply(forward.aliases, a)) == b && !Restores(forward.aliases, again.aliases)
  {
    InverseReverses(again);
    assert Presentable(forward.aliases[a]);
  }

  /**
   After any two walks over a namespace the reverse map of one undoes the aliases of the other, if and only if the first
   free aliases of its names are all different.
   */
  lemma {:induction false} NamespaceRestoresIff(n: Names, nested: map<string, string>)
    requires Absorbable(n, nested) && "" !in n.aliases && "" !in nested
    ensures (forall o, p | Enumerates(o, nested) && Enumerates(p, nested) ::
               Restores(Absorb(n, nested, o).aliases, Absorb(n, nested, p).aliases)) <==> Apart(n.used, nested)
  {
    if Apart(n.used, nested) {
      forall o, p | Enumerates(o, nested) && Enumerates(p, nested)
        ensures Restores(Absorb(n, nested, o).aliases, Absorb(n, nested, p).aliases)
      {
        WalkIsTogether(n, nested, o);
        WalkIsTogether(n, nested, p);
        WalkSound(n, nested, o);
        SameRestores(Absorb(n, nested, o));
      }
    } else {
      var a, b :| a in nested && b in nested && a != b && Unique(nested[a], n.used) == Unique(nested[b], n.used);
      var o, p := ClashingWalks(n, nested, a, b);
      WalkSound(n, nested, o);
      WalkSound(n, nested, p);
      SwappedDoesNotRestore(Absorb(n, nested, o), Absorb(n, nested, p), a, b);
    }
  }

  lemma {:induction false} NoEmptyName(tools: seq<Tool>, messages: bool)
    ensures "" !in Declared(tools, messages)
  {
    if "" in Declared(tools, messages) {
      DeclaredNonEmpty(tools, messages, "");
    }
  }

  /**
   On a clear list, the forward map and the separately computed reverse map agree: restoring the alias that was sent
   gives back the declared name.
   */
  lemma {:induction false} RestoreUndoesApply(tools: seq<Tool>, messages: bool, forward: Names, again: Names)
    requires Size(tools) <= INT64_MAX && Clear(tools, messages)
    requires Outcome(tools, messages, forward) && Outcome(tools, messages, again)
    ensures Restores(forward.aliases, again.aliases)
  {
    ClearDetermines(tools, messages, forward);
    ClearDetermines(tools, messages, again);
    OutcomeSound(tools, messages, forward);
    NoEmptyName(tools, messages);
    SameRestores(forward);
  }

  /**
   Any two runs on a clear list agree, and the second run's reverse map undoes the first run's aliases.
   */
  method RoundTrip(tools: seq<Tool>, messages: bool, name: string) returns (restored: string)
    requires Size(tools) <= INT64_MAX && Clear(tools, messages) && name in Declared(tools, messages)
    ensures restored == name
  {
    var forward := BuildAliases(tools, messages);
    var sent := Apply(forward.aliases, name);
    var again := BuildAliases(tools, messages);
    var reverse := ReverseNames(again.aliases);
    RestoreUndoesApply(tools, messages, forward, again);
    assert Reverses(reverse, again.aliases);
    restored := Parser.Restore(reverse, sent);
  }

  // ---- exactly the clear lists are restored ----

  /** In the list and in its namespaces, no name of a namespace is declared again after it. */
  ghost predicate DeclaredOnce(tools: seq<Tool>, messages: bool)
    decreases tools
  {
    tools == [] ||
    (DeclaredOnce(tools[..|tools| - 1], messages) && DeclaredOnceIn(tools[|tools| - 1], messages) &&
     forall i | 0 <= i < |tools| - 1 && Namespace(tools[i]) ::
       DeclaredBy(tools[i], messages) !! DeclaredBy(tools[|tools| - 1], messages))
  }

  ghost predicate DeclaredOnceIn(t: Tool, messages: bool)
    decreases t
  {
    Namespace(t) ==> DeclaredOnce(t.tools, messages)
  }

  /** Two outcomes give one alias to two names of a namespace. */
  ghost predicate Swapped(tools: seq<Tool>, messages: bool, forward: Names, again: Names, a: string, b: string,
                          i: nat) {
    && Outcome(tools, messages, forward) && Outcome(tools, messages, again) && a != b
    && i < |tools| && Namespace(tools[i]) && a in DeclaredBy(tools[i], messages) && b in DeclaredBy(tools[i], messages)
    && a in forward.aliases && b in again.aliases && forward.aliases[a] == again.aliases[b]
  }

  /** A tool that does not declare a name leaves its alias alone. */
  lemma {:induction false} OthersStay(m: Names, t: Tool, messages: bool, n: Names, a: string)
    requires SizeOf(t) <= INT64_MAX
    requires OneOutcome(m, t, messages, n) && a in m.aliases && a !in DeclaredBy(t, messages)
    ensures a in n.aliases && n.aliases[a] == m.aliases[a]
  {
    if Namespace(t) {
      var nested: Names, order :| Outcome(t.tools, messages, nested) && Enumerates(order, nested.aliases) &&
                                  n == Absorb(m, nested.aliases, order);
      OutcomeSound(t.tools, messages, nested);
      AbsorbLeaves(m, nested.aliases, order, a);
    }
  }

  lemma {:induction false} AbsorbLeaves(m: Names, nested: map<string, string>, order: seq<string>, a: string)
    requires Within(order, nested) && a in m.aliases && a !in nested
    ensures var r := Absorb(m, nested, order); a in r.aliases && r.aliases[a] == m.aliases[a]
  {
    if order != [] {
      AbsorbLeaves(m, nested, order[..|order| - 1], a);
    }
  }

  /** On a list that is not clear, two outcomes swap two names. */
  lemma {:induction false} UnclearSwaps(tools: seq<Tool>, messages: bool)
      returns (forward: Names, again: Names, a: string, b: string, i: nat)
    requires Size(tools) <= INT64_MAX && DeclaredOnce(tools, messages) && !Clear(tools, messages)
    ensures Swapped(tools, messages, forward, again, a, b, i)
    decreases tools
  {
    var k := |tools| - 1;
    var init, last := tools[..k], tools[k];
    if Clear(init, messages) {
      var m := SomeOutcome(init, messages);
      ClearDetermines(init, messages, m);
      forward, again, a, b := UnclearSwapsIn(m, last, messages);
      i := k;
    } else {
      var f, g;
      f, g, a, b, i := UnclearSwaps(init, messages);
      assert init[i] == tools[i] && DeclaredBy(tools[i], messages) !! DeclaredBy(last, messages);
      forward := SomeOneOutcome(f, last, messages);
      again := SomeOneOutcome(g, last, messages);
      OthersStay(f, last, messages, forward, a);
      OthersStay(g, last, messages, again, b);
    }
  }

  /** A namespace swaps two names if its own list does, or if two of its names compete for an alias. */
  lemma {:induction false} UnclearSwapsIn(m: Names, t: Tool, messages: bool)
      returns (forward: Names, again: Names, a: string, b: string)
    requires SizeOf(t) <= INT64_MAX && DeclaredOnceIn(t, messages) && !ClearOne(m.used, t, messages)
    ensures OneOutcome(m, t, messages, forward) && OneOutcome(m, t, messages, again) && a != b
    ensures Namespace(t) && a in DeclaredBy(t, messages) && b in DeclaredBy(t, messages)
    ensures a in forward.aliases && b in again.aliases && forward.aliases[a] == again.aliases[b]
    decreases t
  {
    var f, g;
    if Clear(t.tools, messages) {
      f := SomeOutcome(t.tools, messages);
      g := f;
      ClearDetermines(t.tools, messages, f);
      a, b :| a in f.aliases && b in f.aliases && a != b &&
              Unique(f.aliases[a], m.used) == Unique(f.aliases[b], m.used);
    } else {
      var i;
      f, g, a, b, i := UnclearSwaps(t.tools, messages);
    }
    OutcomeSound(t.tools, messages, f);
    OutcomeSound(t.tools, messages, g);
    var o := WalkFrom(f.aliases, a);
    var p := WalkFrom(g.aliases, b);
    FirstOfWalk(m, f.aliases, o);
    FirstOfWalk(m, g.aliases, p);
    forward, again := Absorb(m, f.aliases, o), Absorb(m, g.aliases, p);
  }

  /**
   For a list that does not declare the names of a namespace again after it, any two runs restore each other's aliases,
   if and only if no namespace has names that compete for an alias.
   */
  lemma {:induction false} ListRestoresIff(tools: seq<Tool>, messages: bool)
    requires Size(tools) <= INT64_MAX && DeclaredOnce(tools, messages)
    ensures (forall forward, again | Outcome(tools, messages, forward) && Outcome(tools, messages, again) ::
               Restores(forward.aliases, again.aliases)) <==> Clear(tools, messages)
  {
    if Clear(tools, messages) {
      forall forward, again | Outcome(tools, messages, forward) && Outcome(tools, messages, again)
        ensures Restores(forward.aliases, again.aliases)
      {
        RestoreUndoesApply(tools, messages, forward, again);
      }
    } else {
      var forward, again, a, b, i := UnclearSwaps(tools, messages);
      OutcomeSound(tools, messages, forward);
      OutcomeSound(tools, messages, again);
      NoEmptyName(tools, messages);
      SwappedDoesNotRestore(forward, again, a, b);
    }
  }

  // ---- namespaces ----

  /** The aliases of a namespace that declares "a" and "a_1", where "a" is already in use. */
  const CLASH: map<string, string> := map["a" := "a", "a_1" := "a_1"]

  lemma ClashUnique()
    ensures Unique("a", {"a"}) == "a_1" && Unique("a_1", {"a", "a_1"}) == "a_1_1"
    ensures Unique("a_1", {"a"}) == "a_1" && Unique("a", {"a", "a_1"}) == "a_2"
  {
    var a, b := "a", "a_1";
    assert Decimal(1) == "1" && Decimal(2) == "2" && Marker(1) == "_1" && Marker(2) == "_2";
    assert Candidate(a, 0) == a && Candidate(a, 1) == b && Candidate(a, 2) == "a_2";
    assert Candidate(b, 0) == b && Candidate(b, 1) == "a_1_1";
    FirstFreeIsUnique(a, {a}, 1);
    FirstFreeIsUnique(b, {a, b}, 1);
    FirstFreeIsUnique(b, {a}, 0);
    FirstFreeIsUnique(a, {a, b}, 2);
  }

  function Custom(name: string): Tool {
    Tool(CustomKind, None, name, [])
  }

  lemma CanonOfOne(name: string)
    requires 0 < |name| <= WIDTH
    ensures Canon([Custom(name)], false) == Names(map[name := name], {name})
  {
    assert [Custom(name)][..0] == [];
    FirstFreeIsUnique(name, {}, 0);
  }

  /** A namespace that declares "a" and "a_1" has both names as aliases. */
  lemma CanonClash()
    ensures Canon([Custom("a"), Custom("a_1")], false).aliases == CLASH
  {
    var tools := [Custom("a"), Custom("a_1")];
    assert tools[..1] == [Custom("a")];
    CanonOfOne("a");
    ClashUnique();
  }

  /**
   The map after a tool "a" and a namespace that declares "a" and "a_1", whose aliases are walked in the given order.
   */
  ghost function Walk(order: seq<string>): map<string, string>
    requires Enumerates(order, CLASH)
  {
    Absorb(Canon([Custom("a")], false), CLASH, order).aliases
  }

  /**
   With a namespace, the order of the walk matters: for the list of "a" and a namespace of "a" and "a_1", the alias that
   one walk sends for "a" is restored to "a_1" by the reverse map of the other walk.
   */
  lemma NamespaceOrderMatters(reverse: map<string, string>)
    requires Reverses(reverse, Walk(["a_1", "a"]))
    ensures Canon([Custom("a"), Custom("a_1")], false).aliases == CLASH
    ensures var sent := Apply(Walk(["a", "a_1"]), "a"); sent == "a_1" && Parser.Restore(reverse, sent) == "a_1"
  {
    var n := Names(map["a" := "a"], {"a"});
    CanonOfOne("a");
    CanonClash();
    ClashUnique();
    AbsorbTwo(n, CLASH, "a", "a_1");
    AbsorbTwo(n, CLASH, "a_1", "a");
  }

  lemma {:induction false} AbsorbTwo(n: Names, nested: map<string, string>, x: string, y: string)
    requires x in nested && y in nested
    ensures Absorb(n, nested, [x, y]) == Add(Add(n, x, nested[x]), y, nested[y])
  {
    assert [x, y][..1] == [x] && [x][..0] == [];
    assert Absorb(n, nested, [x]) == Add(n, x, nested[x]);
  }

  // ---- a later declaration can hide what the walks did ----

  /** Two names of full width that differ only where a marker goes. */
  predicate Twins(prefix: string, a: string, b: string) {
    && |prefix| == WIDTH - 2 && |a| == |b| == WIDTH && a[..WIDTH - 2] == b[..WIDTH - 2] == prefix
    && a != b && a[WIDTH - 2] != '_' && b[WIDTH - 2] != '_'
  }

  function Both(a: string, b: string): seq<Tool> {
    [Custom(a), Custom(b)]
  }

  function Group(a: string, b: string): Tool {
    Tool(NamespaceKind, None, "", Both(a, b))
  }

  /** Declared, declared in a namespace, and declared again. */
  function Redeclared(a: string, b: string): seq<Tool> {
    Both(a, b) + [Group(a, b)] + [Custom(a)] + [Custom(b)]
  }

  lemma {:induction false} OutcomeLast(init: seq<Tool>, t: Tool, n: Names) returns (m: Names)
    requires Outcome(init + [t], false, n)
    ensures Outcome(init, false, m) && OneOutcome(m, t, false, n)
  {
    assert (init + [t])[..|init|] == init;
    m :| Outcome(init, false, m) && OneOutcome(m, t, false, n);
  }

  /** The k-th numbered alias of both names. */
  lemma WideCandidate(prefix: string, base: string, k: nat)
    requires |prefix| == WIDTH - 2 && |base| == WIDTH && base[..WIDTH - 2] == prefix && 0 < k < 10
    ensures Candidate(base, k) == prefix + Marker(k) && |Marker(k)| == 2 && Marker(k)[0] == '_'
  {
    assert |Decimal(k)| == 1;
  }

  /** With the first numbered aliases taken, the next one is the first free alias of either name. */
  lemma {:induction false} WideUnique(prefix: string, base: string, used: set<string>, k: nat)
    requires |prefix| == WIDTH - 2 && |base| == WIDTH && base[..WIDTH - 2] == prefix && 0 < k < 10 && base in used
    requires forall j | 0 < j < k :: prefix + Marker(j) in used
    requires prefix + Marker(k) !in used
    ensures Unique(base, used) == prefix + Marker(k)
  {
    forall j | 0 <= j <= k
      ensures Candidate(base, j) in used <==> j < k
    {
      if j > 0 {
        WideCandidate(prefix, base, j);
      }
    }
    FirstFreeIsUnique(base, used, k);
  }

  lemma MarkersDiffer(prefix: string, base: string, i: nat, j: nat)
    requires |prefix| == WIDTH - 2 && |base| == WIDTH && base[WIDTH - 2] != '_' && 0 < i < j < 10
    ensures prefix + Marker(i) != prefix + Marker(j) && prefix + Marker(i) != base && prefix + Marker(j) != base
  {
    if prefix + Marker(i) == prefix + Marker(j) {
      SameMarker(prefix, prefix, i, j);
    }
    assert (prefix + Marker(i))[WIDTH - 2] == '_' && (prefix + Marker(j))[WIDTH - 2] == '_';
  }

  lemma BothDeclared(prefix: string, a: string, b: string)
    requires Twins(prefix, a, b)
    ensures Clear(Both(a, b), false) && Canon(Both(a, b), false) == Names(map[a := a, b := b], {a, b})
  {
    NamespaceFreeIsClear(Both(a, b), false);
    assert Both(a, b)[..1] == [Custom(a)];
    CanonOfOne(a);
    FirstFreeIsUnique(b, {a}, 0);
  }

  /** The twins and their first k numbered aliases. */
  ghost function Used(prefix: string, a: string, b: string, k: nat): set<string> {
    {a, b} + set j | 0 < j <= k :: prefix + Marker(j)
  }

  /** The next name of the two gets the next numbered alias. */
  lemma {:induction false} NextTwin(prefix: string, a: string, b: string, base: string, k: nat)
    requires Twins(prefix, a, b) && k < 9 && (base == a || base == b)
    ensures var alias := prefix + Marker(k + 1);
            Unique(base, Used(prefix, a, b, k)) == alias && Used(prefix, a, b, k) + {alias} == Used(prefix, a, b, k + 1)
  {
    if k == 0 {
      MarkersDiffer(prefix, a, 1, 2);
      MarkersDiffer(prefix, b, 1, 2);
    }
    forall j | 0 < j <= k
      ensures prefix + Marker(j) != prefix + Marker(k + 1) && prefix + Marker(k + 1) !in {a, b}
    {
      MarkersDiffer(prefix, a, j, k + 1);
      MarkersDiffer(prefix, b, j, k + 1);
    }
    WideUnique(prefix, base, Used(prefix, a, b, k), k + 1);
    UsedOneMore(prefix, a, b, k);
  }

  lemma UsedOneMore(prefix: string, a: string, b: string, k: nat)
    ensures Used(prefix, a, b, k) + {prefix + Marker(k + 1)} == Used(prefix, a, b, k + 1)
  {
  }

  lemma NothingNumbered(prefix: string, a: string, b: string)
    ensures Used(prefix, a, b, 0) == {a, b}
  {
  }

  lemma {:induction false} TwoOrders(a: string, b: string, nested: map<string, string>, order: seq<string>)
    requires a != b && nested.Keys == {a, b} && Enumerates(order, nested)
    ensures order == [a, b] || order == [b, a]
  {
    EnumeratesAll(order, nested);
    assert |nested.Keys| == 2;
    assert order[0] in nested && order[1] in nested && order[0] != order[1];
  }

  /** A walk over the twins takes the first two numbered aliases. */
  lemma {:induction false} TwinsWalked(prefix: string, a: string, b: string, n: Names, nested: map<string, string>,
                                       x: string, y: string)
    requires Twins(prefix, a, b) && n == Names(nested, {a, b}) && nested == map[a := a, b := b]
    requires (x == a && y == b) || (x == b && y == a)
    ensures var r := Absorb(n, nested, [x, y]); r.used == Used(prefix, a, b, 2) && r.aliases.Keys == {a, b}
  {
    NothingNumbered(prefix, a, b);
    NextTwin(prefix, a, b, x, 0);
    NextTwin(prefix, a, b, y, 1);
    AbsorbTwo(n, nested, x, y);
  }

  /** Declared again, the twins get the next two numbered aliases, whatever the walk gave them. */
  lemma TwinsAgain(prefix: string, a: string, b: string, n: Names)
    requires Twins(prefix, a, b) && n.used == Used(prefix, a, b, 2) && n.aliases.Keys == {a, b}
    ensures AddTool(AddTool(n, Custom(a), false), Custom(b), false).aliases ==
            map[a := prefix + Marker(3), b := prefix + Marker(4)]
  {
    NextTwin(prefix, a, b, a, 2);
    NextTwin(prefix, a, b, b, 3);
  }

  lemma {:induction false} RedeclaredOutcome(prefix: string, a: string, b: string, n: Names)
    requires Twins(prefix, a, b) && Outcome(Redeclared(a, b), false, n)
    ensures n.aliases == map[a := prefix + Marker(3), b := prefix + Marker(4)]
  {
    var fourth := OutcomeLast(Both(a, b) + [Group(a, b)] + [Custom(a)], Custom(b), n);
    var third := OutcomeLast(Both(a, b) + [Group(a, b)], Custom(a), fourth);
    var second := OutcomeLast(Both(a, b), Group(a, b), third);
    BothDeclared(prefix, a, b);
    ClearDetermines(Both(a, b), false, second);
    GroupOutcome(prefix, a, b, second, third);
    TwinsAgain(prefix, a, b, third);
  }

  lemma {:induction false} GroupOutcome(prefix: string, a: string, b: string, m: Names, n: Names)
    requires Twins(prefix, a, b) && m == Names(map[a := a, b := b], {a, b}) && OneOutcome(m, Group(a, b), false, n)
    ensures n.used == Used(prefix, a, b, 2) && n.aliases.Keys == {a, b}
  {
    var nested: Names, order :| Outcome(Both(a, b), false, nested) && Enumerates(order, nested.aliases) &&
                                n == Absorb(m, nested.aliases, order);
    BothDeclared(prefix, a, b);
    ClearDetermines(Both(a, b), false, nested);
    TwoOrders(a, b, nested.aliases, order);
    TwinsWalked(prefix, a, b, m, nested.aliases, order[0], order[1]);
  }

  /**
   Without the condition that the names of a namespace are not declared again after it, runs can restore each other's
   aliases although names compete: the later declarations replace the aliases that depend on the walk.
   */
  lemma {:induction false} RedeclaringHides(prefix: string, a: string, b: string)
    requires Twins(prefix, a, b)
    ensures !Clear(Redeclared(a, b), false)
    ensures forall forward, again |
              Outcome(Redeclared(a, b), false, forward) && Outcome(Redeclared(a, b), false, again) ::
              Restores(forward.aliases, again.aliases)
  {
    RedeclaredUnclear(prefix, a, b);
    forall forward, again | Outcome(Redeclared(a, b), false, forward) && Outcome(Redeclared(a, b), false, again)
      ensures Restores(forward.aliases, again.aliases)
    {
      RedeclaredOutcome(prefix, a, b, forward);
      RedeclaredOutcome(prefix, a, b, again);
      SmallLists(a, b);
      OutcomeSound(Redeclared(a, b), false, forward);
      SameRestores(forward);
    }
  }

  lemma {:induction false} RedeclaredUnclear(prefix: string, a: string, b: string)
    requires Twins(prefix, a, b)
    ensures !Clear(Redeclared(a, b), false)
  {
    BothDeclared(prefix, a, b);
    TwinsCompete(prefix, a, b);
    ClearLast(Both(a, b), Group(a, b));
    ClearLast(Both(a, b) + [Group(a, b)], Custom(a));
    ClearLast(Both(a, b) + [Group(a, b)] + [Custom(a)], Custom(b));
  }

  lemma {:induction false} ClearLast(init: seq<Tool>, t: Tool)
    ensures Clear(init + [t], false) <==> Clear(init, false) && ClearOne(Canon(init, false).used, t, false)
  {
    assert (init + [t])[..|init|] == init;
  }

  lemma TwinsCompete(prefix: string, a: string, b: string)
    requires Twins(prefix, a, b)
    ensures !Apart({a, b}, map[a := a, b := b])
  {
    NothingNumbered(prefix, a, b);
    NextTwin(prefix, a, b, a, 0);
    NextTwin(prefix, a, b, b, 0);
    var nested := map[a := a, b := b];
    assert a in nested && b in nested && Unique(nested[a], {a, b}) == Unique(nested[b], {a, b});
  }

  lemma {:induction false} SizeLast(init: seq<Tool>, t: Tool)
    ensures Size(init + [t]) == Size(init) + SizeOf(t)
  {
    assert (init + [t])[..|init|] == init;
  }

  lemma {:induction false} SmallLists(a: string, b: string)
    ensures Size(Redeclared(a, b)) <= INT64_MAX
  {
    assert Both(a, b) == [Custom(a)] + [Custom(b)] && [Custom(a)] == [] + [Custom(a)];
    SizeLast([], Custom(a));
    SizeLast([Custom(a)], Custom(b));
    SizeLast(Both(a, b), Group(a, b));
    SizeLast(Both(a, b) + [Group(a, b)], Custom(a));
    SizeLast(Both(a, b) + [Group(a, b)] + [Custom(a)], Custom(b));
  }
}
