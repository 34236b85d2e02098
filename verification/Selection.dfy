/**
 Which account a request gets.  The specification speaks of sets of account IDs, so it cannot depend on the order in
 which Go walks its map; scores are reals.
 */
module Selection {

  import opened Options
  import opened Accounts
  import opened Numbers
  import opened Sets
  import Text

  datatype Strategy = ByAffinity | ByPriority | RoundRobin

  datatype Model = Model(id: string, upstreamModel: string, kinds: seq<string>, minimumTier: string, preferBest: bool)

  datatype Binding = Binding(account: string, expiresAt: int, usedAt: int)

  type States = map<string, Local>

  const MINUTE := 60_000_000_000
  const TWO_64 := 0x1_0000_0000_0000_0000

  // ---- the order of IDs ----

  /** strings.Compare: lexicographic. */
  predicate Less(a: string, b: string) {
    b != [] && (a == [] || a[0] < b[0] || (a[0] == b[0] && Less(a[1..], b[1..])))
  }

  lemma {:induction false} LessTotal(a: string, b: string)
    ensures a == b || Less(a, b) || Less(b, a)
  {
    if a != [] && b != [] && a[0] == b[0] {
      LessTotal(a[1..], b[1..]);
      assert a == [a[0]] + a[1..] && b == [b[0]] + b[1..];
    }
  }

  lemma {:induction false} LessAsymmetric(a: string, b: string)
    ensures !(Less(a, b) && Less(b, a))
  {
    if a != [] && b != [] && a[0] == b[0] {
      LessAsymmetric(a[1..], b[1..]);
    }
  }

  lemma {:induction false} LessTransitive(a: string, b: string, c: string)
    requires Less(a, b) && Less(b, c)
    ensures Less(a, c)
  {
    if a != [] && a[0] == b[0] && b[0] == c[0] {
      LessTransitive(a[1..], b[1..], c[1..]);
    }
  }

  // ---- tiers, eligibility, score ----

  function TierRank(tier: string): (rank: nat)
    ensures rank <= 2
  {
    var t := Text.Lower(tier);
    if t == "heavy" || t == "enterprise" then 2 else if t == "super" || t == "pro" || t == "premium" then 1 else 0
  }

  function Limit(a: Account, policy: Policy): int {
    if a.concurrencyLimit <= 0 then policy.defaultConcurrency else a.concurrencyLimit
  }

  /** An account whose cooldown is over is active again. */
  function Promoted(l: Local, now: int): Local {
    if l.account.status.Cooldown? && !After(l.cooldownTill, now)
       then l.(account := l.account.(status := Active, cooldownUntil := None)) else l
  }

  predicate Serves(a: Account, m: Model) {
    && a.kind in m.kinds
    && (a.models == [] || m.id in a.models || m.upstreamModel in a.models)
    && (m.minimumTier == "" || TierRank(a.tier) >= TierRank(m.minimumTier))
  }

  /** Neither a terminal status, nor an unexpired deadline, nor an exhausted quota, and the model is served. */
  predicate Durable(l: Local, m: Model, now: int, policy: Policy) {
    && !Terminal(l.account.status) && !After(l.cooldownTill, now)
    && Serves(l.account, m)
    && UnavailableUntil(l.account.quota, now, policy.RateLimit(l.account.kind)).None?
  }

  predicate Eligible(l: Local, m: Model, now: int, policy: Policy) {
    Durable(l, m, now, policy) && l.inflight < Limit(l.account, policy)
  }

  function Fraction(remaining: int, limit: int): real
    requires limit > 0
  {
    MaxReal(0.0, MinReal(1.0, remaining as real / limit as real))
  }

  function QuotaScore(q: Quota): real {
    var requests := if !q.requestsUnlimited && q.requestsLimit > 0
                    then MinReal(1.0, Fraction(q.requestsRemaining, q.requestsLimit)) else 1.0;
    if !q.tokensUnlimited && q.tokensLimit > 0 then MinReal(requests, Fraction(q.tokensRemaining, q.tokensLimit))
       else requests
  }

  function RecentPenalty(lastUsed: Option<int>, now: int): real {
    if lastUsed.Some? && now - lastUsed.value < MINUTE
    then 15.0 * (1.0 - (now - lastUsed.value) as real / MINUTE as real)
    else 0.0
  }

  function Score(l: Local, now: int): real {
    l.account.priority as real * 1000.0 + l.health * 100.0 +
    QuotaScore(l.account.quota) * 25.0 - l.inflight as real * 20.0
    - Min(l.failures, 10) as real * 4.0 - RecentPenalty(l.account.lastUsedAt, now)
  }

  // ---- the choice ----

  predicate Keyed(states: States) {
    forall id | id in states :: states[id].account.id == id
  }

  function Candidates(states: States, excluded: set<string>, m: Model, now: int, policy: Policy): set<string> {
    set id | id in states && id !in excluded && Eligible(states[id], m, now, policy)
  }

  /** With PreferBest, only the candidates of the best tier. */
  function Preferred(states: States, candidates: set<string>, m: Model): (r: set<string>)
    requires candidates <= states.Keys
    ensures r <= candidates
  {
    if !m.preferBest then candidates
    else set id | id in candidates && forall other | other in candidates ::
         TierRank(states[other].account.tier) <= TierRank(states[id].account.tier)
  }

  /** Smaller IDs in a set. */
  function Below(p: set<string>, id: string): set<string> {
    set j | j in p && Less(j, id)
  }

  predicate Beats(states: States, a: string, b: string, now: int)
    requires a in states && b in states
  {
    Score(states[a], now) > Score(states[b], now) || (Score(states[a], now) == Score(states[b], now) && Less(a, b))
  }

  predicate Best(states: States, p: set<string>, id: string, now: int)
    requires p <= states.Keys
  {
    id in p && forall j | j in p && j != id :: Beats(states, id, j, now)
  }

  predicate Bound(binding: Option<Binding>, p: set<string>, now: int) {
    binding.Some? && binding.value.expiresAt > now && binding.value.account in p
  }

  /**
   What selectLocked promises: `binding` is the entry of a non-empty conversation key, `cursor` the round-robin counter.
   */
  predicate Chosen(states: States, p: set<string>, strategy: Strategy, binding: Option<Binding>, cursor: nat, now: int,
                   id: string)
    requires p <= states.Keys
  {
    && id in p
    && if strategy.ByAffinity? && Bound(binding, p, now) then id == binding.value.account
       else if strategy.RoundRobin? then |Below(p, id)| == cursor % |p|
       else Best(states, p, id, now)
  }

  /** Nothing is chosen exactly when nothing is eligible; otherwise the rule of the strategy singles the account out. */
  predicate Selects(states: States, excluded: set<string>, m: Model, now: int, policy: Policy, strategy: Strategy,
                    binding: Option<Binding>, cursor: nat, r: Option<string>) {
    var candidates := Candidates(states, excluded, m, now, policy);
    && (r.None? <==> candidates == {})
    && (r.Some? ==> Chosen(states, Preferred(states, candidates, m), strategy, binding, cursor, now, r.value))
  }

  lemma {:induction false} BelowGrows(p: set<string>, a: string, b: string)
    requires a in p && b in p && Less(a, b)
    ensures |Below(p, a)| < |Below(p, b)|
  {
    forall j | j in Below(p, a)
      ensures j in Below(p, b)
    {
      LessTransitive(j, a, b);
    }
    LessAsymmetric(a, a);
    assert a in Below(p, b) && a !in Below(p, a);
    ProperSubsetSmaller(Below(p, a), Below(p, b));
  }

  /** At most one account meets the promise: the choice is a function of the set of states, not of a walking order. */
  lemma ChoiceIsUnique(states: States, p: set<string>, strategy: Strategy, binding: Option<Binding>, cursor: nat,
                       now: int, a: string, b: string)
    requires p <= states.Keys
    requires Chosen(states, p, strategy, binding, cursor, now, a) &&
             Chosen(states, p, strategy, binding, cursor, now, b)
    ensures a == b
  {
    if a != b {
      LessTotal(a, b);
      LessAsymmetric(a, b);
      if strategy.RoundRobin? {
        SameRank(p, a, b);
      }
    }
  }

  // ---- round robin ----

  /** The index of the k-th pick after the 64-bit cursor stood at c. */
  function PickIndex(c: nat, k: nat, n: nat): (i: nat)
    requires n > 0
    ensures i < n
  {
    (c + k) % TWO_64 % n
  }

  lemma NoMultipleBetween(k: int, n: int)
    requires n > 0 && -n < k * n < n
    ensures k == 0
  {
    if k >= 1 {
      AtLeastOnce(k, n);
    } else if k <= -1 {
      AtLeastOnce(-k, n);
    }
  }

  lemma AtLeastOnce(k: int, n: int)
    requires k >= 1 && n >= 0
    ensures k * n >= n && (-k) * n == -(k * n)
  {
    assert k * n == (k - 1) * n + n;
  }

  lemma SplitMod(x: int, n: int, q: int, r: int)
    requires n > 0 && x == q * n + r && 0 <= r < n
    ensures x % n == r && x / n == q
  {
    DifferenceOfMultiples(x / n, q, n);
    assert x == x / n * n + x % n;
    NoMultipleBetween(x / n - q, n);
  }

  lemma DifferenceOfMultiples(a: int, b: int, n: int)
    ensures (a - b) * n == a * n - b * n
  {
  }

  lemma SameResidue(x: int, y: int, n: int)
    requires n > 0 && x % n == y % n && 0 <= y - x < n
    ensures x == y
  {
    DifferenceOfMultiples(y / n, x / n, n);
    assert x == x / n * n + x % n && y == y / n * n + y % n;
    NoMultipleBetween(y / n - x / n, n);
  }

  lemma Reassociate(q: int, m: int, n: int, k: int)
    ensures (q * m + k) * n == q * (m * n) + k * n
  {
  }

  lemma NestedMod(x: nat, n: nat)
    requires n > 0 && TWO_64 % n == 0
    ensures x % TWO_64 % n == x % n
  {
    var q, r := x / TWO_64, x % TWO_64;
    var m := TWO_64 / n;
    assert TWO_64 == m * n;
    Reassociate(q, m, n, r / n);
    assert r == r / n * n + r % n;
    SplitMod(x, n, q * m + r / n, r % n);
  }

  /** A cycle starting at c does not wrap in a way that breaks the order. */
  predicate CycleIntact(c: nat, n: nat)
    requires n > 0
  {
    c + n <= TWO_64 || TWO_64 % n == 0
  }

  lemma IntactIndex(c: nat, k: nat, n: nat)
    requires 0 < n && c < TWO_64 && k < n && CycleIntact(c, n)
    ensures PickIndex(c, k, n) == (c + k) % n
  {
    if TWO_64 % n == 0 {
      NestedMod(c + k, n);
    }
  }

  /** Otherwise two picks of the cycle coincide: the one at the wrap, or the first, comes again. */
  lemma BrokenCycle(c: nat, n: nat)
    requires 0 < n < TWO_64 && c < TWO_64 && !CycleIntact(c, n)
    ensures exists i, j | 0 <= i < j < n :: PickIndex(c, i, n) == PickIndex(c, j, n)
  {
    var wrap := TWO_64 - c;
    var r := TWO_64 % n;
    var q := TWO_64 / n;
    assert TWO_64 == q * n + r;
    if wrap >= r {
      SplitMod(TWO_64 - r, n, q, 0);
      PickBeforeWrap(c, wrap - r, n);
      PickAfterWrap(c, wrap, n);
      assert PickIndex(c, wrap - r, n) == PickIndex(c, wrap, n);
    } else {
      SplitMod(c, n, q, r - wrap);
      PickBeforeWrap(c, 0, n);
      PickAfterWrap(c, r, n);
      assert PickIndex(c, 0, n) == PickIndex(c, r, n);
    }
  }

  lemma PickBeforeWrap(c: nat, k: nat, n: nat)
    requires n > 0 && c + k < TWO_64
    ensures PickIndex(c, k, n) == (c + k) % n
  {
  }

  lemma PickAfterWrap(c: nat, k: nat, n: nat)
    requires n > 0 && TWO_64 <= c + k < TWO_64 + n && c + k < 2 * TWO_64
    ensures PickIndex(c, k, n) == c + k - TWO_64
  {
    SplitMod(c + k, TWO_64, 1, c + k - TWO_64);
    SplitMod(c + k - TWO_64, n, 0, c + k - TWO_64);
  }

  ghost predicate Injective(c: nat, n: nat)
    requires n > 0
  {
    forall i, j | 0 <= i < j < n :: PickIndex(c, i, n) != PickIndex(c, j, n)
  }

  ghost predicate Picked(c: nat, n: nat, v: nat)
    requires n > 0
  {
    exists k | 0 <= k < n :: PickIndex(c, k, n) == v
  }

  ghost predicate Surjective(c: nat, n: nat)
    requires n > 0
  {
    forall v | 0 <= v < n :: Picked(c, n, v)
  }

  /** n consecutive picks over n unchanged candidates choose each exactly once, exactly when the cycle is intact. */
  lemma RoundRobinIsFairIff(c: nat, n: nat)
    requires 0 < n < TWO_64 && c < TWO_64
    ensures Injective(c, n) && Surjective(c, n) <==> CycleIntact(c, n)
  {
    if CycleIntact(c, n) {
      forall i, j | 0 <= i < j < n
        ensures PickIndex(c, i, n) != PickIndex(c, j, n)
      {
        IntactIndex(c, i, n);
        IntactIndex(c, j, n);
        if (c + i) % n == (c + j) % n {
          SameResidue(c + i, c + j, n);
        }
      }
      forall v | 0 <= v < n
        ensures Picked(c, n, v)
      {
        EveryIndexPicked(c, n, v);
      }
    } else {
      BrokenCycle(c, n);
    }
  }

  lemma EveryIndexPicked(c: nat, n: nat, v: nat)
    requires 0 < n < TWO_64 && c < TWO_64 && CycleIntact(c, n) && v < n
    ensures Picked(c, n, v)
  {
    var r := c % n;
    var q := c / n;
    var k := if v >= r then v - r else v + n - r;
    IntactIndex(c, k, n);
    if v >= r {
      SplitMod(c + k, n, q, v);
    } else {
      SplitMod(c + k, n, q + 1, v);
    }
    assert PickIndex(c, k, n) == v;
  }

  lemma RankBelowSize(p: set<string>, id: string)
    requires id in p
    ensures |Below(p, id)| < |p|
  {
    LessAsymmetric(id, id);
    ProperSubsetSmaller(Below(p, id), p);
  }

  /** The account at a rank is unique. */
  lemma SameRank(p: set<string>, a: string, b: string)
    requires a in p && b in p && |Below(p, a)| == |Below(p, b)|
    ensures a == b
  {
    LessTotal(a, b);
    if Less(a, b) {
      BelowGrows(p, a, b);
    } else if Less(b, a) {
      BelowGrows(p, b, a);
    }
  }

  /** The accounts picked in one cycle over the candidates p, the cursor starting at c. */
  ghost predicate Cycle(states: States, p: set<string>, c: nat, now: int, picks: seq<string>)
    requires p <= states.Keys
  {
    && |picks| == |p|
    && forall k | 0 <= k < |picks| :: Chosen(states, p, RoundRobin, None, (c + k) % TWO_64, now, picks[k])
  }

  predicate EachOnce(p: set<string>, picks: seq<string>) {
    && (forall i, j | 0 <= i < j < |picks| :: picks[i] != picks[j])
    && (forall id | id in p :: id in picks)
  }

  lemma PickRank(states: States, p: set<string>, c: nat, now: int, picks: seq<string>, k: nat)
    requires p <= states.Keys && p != {} && Cycle(states, p, c, now, picks) && k < |picks|
    ensures picks[k] in p && |Below(p, picks[k])| == PickIndex(c, k, |p|)
  {
  }

  /**
   One cycle gives every candidate exactly one turn, exactly when the 64-bit cursor does not wrap inside it or wraps
   evenly.
   */
  lemma EveryAccountOncePerCycleIff(states: States, p: set<string>, c: nat, now: int, picks: seq<string>)
    requires p <= states.Keys && 0 < |p| < TWO_64 && c < TWO_64 && Cycle(states, p, c, now, picks)
    ensures EachOnce(p, picks) <==> CycleIntact(c, |p|)
  {
    var n := |p|;
    RoundRobinIsFairIff(c, n);
    if CycleIntact(c, n) {
      forall i, j | 0 <= i < j < |picks|
        ensures picks[i] != picks[j]
      {
        PickRank(states, p, c, now, picks, i);
        PickRank(states, p, c, now, picks, j);
      }
      forall id | id in p
        ensures id in picks
      {
        RankBelowSize(p, id);
        assert Picked(c, n, |Below(p, id)|);
        var k :| 0 <= k < n && PickIndex(c, k, n) == |Below(p, id)|;
        PickRank(states, p, c, now, picks, k);
        SameRank(p, picks[k], id);
      }
    } else {
      BrokenCycle(c, n);
      var i, j :| 0 <= i < j < n && PickIndex(c, i, n) == PickIndex(c, j, n);
      PickRank(states, p, c, now, picks, i);
      PickRank(states, p, c, now, picks, j);
      SameRank(p, picks[i], picks[j]);
    }
  }

  /** Three candidates and a cursor about to wrap: the same account twice in a row. */
  lemma WrapRepeatsAnAccount()
    ensures PickIndex(TWO_64 - 1, 0, 3) == PickIndex(TWO_64 - 1, 1, 3)
  {
  }
}
