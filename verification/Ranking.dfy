/**
 Which of two candidates the selection prefers: one better fact decides when all else is equal, and the rates at which
 one fact outweighs another.

 Everything is said of the account that `Selects` allows as the answer, on any pool that holds the two candidates.
 */
module Ranking {

  import opened Options
  import opened Accounts
  import opened Selection
  import Text

  /** The call of a selection, without its answer. */
  datatype Call = Call(states: States, excluded: set<string>, model: Model, now: int, policy: Policy,
                       strategy: Strategy, binding: Option<Binding>, cursor: nat)

  /** Accounts a and b are candidates of the best tier, and neither a binding nor a turn decides. */
  predicate Compared(c: Call, a: string, b: string) {
    var candidates := Candidates(c.states, c.excluded, c.model, c.now, c.policy);
    var p := Preferred(c.states, candidates, c.model);
    && a in p && b in p && a != b && !c.strategy.RoundRobin?
    && (c.strategy.ByAffinity? ==> !Bound(c.binding, p, c.now))
  }

  /** The selection never answers b while a is there. */
  ghost predicate PassesOver(c: Call, a: string, b: string) {
    forall r | Selects(c.states, c.excluded, c.model, c.now, c.policy, c.strategy, c.binding, c.cursor, r) ::
      r != Some(b)
  }

  /** The facts of an account that can matter. */
  datatype Facts = Facts(priority: int, health: real, quota: Quota, inflight: nat, failures: nat,
                         lastUsedAt: Option<int>)

  function FactsOf(l: Local): Facts {
    Facts(l.account.priority, l.health, l.account.quota, l.inflight, l.failures, l.account.lastUsedAt)
  }

  function At(c: Call, id: string): Facts
    requires id in c.states
  {
    FactsOf(c.states[id])
  }

  lemma {:induction false} ScoreDecides(c: Call, a: string, b: string)
    requires Compared(c, a, b)
    requires Score(c.states[a], c.now) > Score(c.states[b], c.now) ||
             (Score(c.states[a], c.now) == Score(c.states[b], c.now) && Less(a, b))
    ensures PassesOver(c, a, b)
  {
    LessAsymmetric(a, b);
    assert !Beats(c.states, b, a, c.now);
  }

  // ---- one better fact ----

  lemma HigherPriorityWins(c: Call, a: string, b: string)
    requires Compared(c, a, b) && At(c, a).priority > At(c, b).priority
    requires At(c, b) == At(c, a).(priority := At(c, b).priority)
    ensures PassesOver(c, a, b)
  {
    ScoreDecides(c, a, b);
  }

  lemma HealthierWins(c: Call, a: string, b: string)
    requires Compared(c, a, b) && At(c, a).health > At(c, b).health && At(c, b) == At(c, a).(health := At(c, b).health)
    ensures PassesOver(c, a, b)
  {
    ScoreDecides(c, a, b);
  }

  lemma FewerInFlightWins(c: Call, a: string, b: string)
    requires Compared(c, a, b) && At(c, a).inflight < At(c, b).inflight
    requires At(c, b) == At(c, a).(inflight := At(c, b).inflight)
    ensures PassesOver(c, a, b)
  {
    ScoreDecides(c, a, b);
  }

  /** Failures count up to ten. */
  lemma FewerFailuresWin(c: Call, a: string, b: string)
    requires Compared(c, a, b) && At(c, a).failures < At(c, b).failures && At(c, a).failures < 10
    requires At(c, b) == At(c, a).(failures := At(c, b).failures)
    ensures PassesOver(c, a, b)
  {
    ScoreDecides(c, a, b);
  }

  /** The account that rested longer wins, if the other was used within the last minute. */
  lemma LongerRestWins(c: Call, a: string, b: string)
    requires Compared(c, a, b) && At(c, b) == At(c, a).(lastUsedAt := At(c, b).lastUsedAt)
    requires At(c, b).lastUsedAt.Some? && c.now - At(c, b).lastUsedAt.value < MINUTE
    requires At(c, a).lastUsedAt.None? || At(c, a).lastUsedAt.value < At(c, b).lastUsedAt.value
    ensures PassesOver(c, a, b)
  {
    ScoreDecides(c, a, b);
  }

  // ---- quota ----

  /** The part of one allowance that is left, between nothing and all of it; an unlimited one is never used up. */
  function Part(unlimited: bool, limit: int, remaining: int): real {
    if unlimited || limit <= 0 || remaining >= limit then 1.0
    else if remaining <= 0 then 0.0
    else remaining as real / limit as real
  }

  /** The scarcer of requests and tokens decides. */
  function Left(q: Quota): real {
    var requests := Part(q.requestsUnlimited, q.requestsLimit, q.requestsRemaining);
    var tokens := Part(q.tokensUnlimited, q.tokensLimit, q.tokensRemaining);
    if requests <= tokens then requests else tokens
  }

  lemma PartIsFraction(limit: int, remaining: int)
    requires limit > 0
    ensures Fraction(remaining, limit) == Part(false, limit, remaining) && 0.0 <= Part(false, limit, remaining) <= 1.0
  {
    var f := remaining as real / limit as real;
    assert f * limit as real == remaining as real;
    if remaining >= limit {
      assert f >= 1.0;
    } else if remaining <= 0 {
      assert f <= 0.0;
    }
  }

  lemma LeftIsScored(q: Quota)
    ensures QuotaScore(q) == Left(q)
  {
    if !q.requestsUnlimited && q.requestsLimit > 0 {
      PartIsFraction(q.requestsLimit, q.requestsRemaining);
    }
    if !q.tokensUnlimited && q.tokensLimit > 0 {
      PartIsFraction(q.tokensLimit, q.tokensRemaining);
    }
  }

  lemma MoreQuotaWins(c: Call, a: string, b: string)
    requires Compared(c, a, b) && Left(At(c, a).quota) > Left(At(c, b).quota)
    requires At(c, b) == At(c, a).(quota := At(c, b).quota)
    ensures PassesOver(c, a, b)
  {
    LeftIsScored(At(c, a).quota);
    LeftIsScored(At(c, b).quota);
    ScoreDecides(c, a, b);
  }

  // ---- how facts outweigh one another ----

  /** What decides when a gain outweighs a loss, equals it, or falls short; equal accounts are told apart by ID. */
  ghost predicate Weighed(c: Call, a: string, b: string, gain: real, loss: real) {
    && (gain > loss ==> PassesOver(c, a, b))
    && (gain < loss ==> PassesOver(c, b, a))
    && (gain == loss ==> if Less(a, b) then PassesOver(c, a, b) else PassesOver(c, b, a))
  }

  lemma ScoresWeigh(c: Call, a: string, b: string, gain: real, loss: real)
    requires Compared(c, a, b)
    requires gain > loss ==> Score(c.states[a], c.now) > Score(c.states[b], c.now)
    requires gain < loss ==> Score(c.states[a], c.now) < Score(c.states[b], c.now)
    requires gain == loss ==> Score(c.states[a], c.now) == Score(c.states[b], c.now)
    ensures Weighed(c, a, b, gain, loss)
  {
    LessTotal(a, b);
    if gain > loss || (gain == loss && Less(a, b)) {
      ScoreDecides(c, a, b);
    } else {
      ScoreDecides(c, b, a);
    }
  }

  /** One step of priority is worth fifty requests in flight, no fewer and no more. */
  lemma PriorityAgainstLoad(c: Call, a: string, b: string, n: nat)
    requires Compared(c, a, b)
    requires At(c, a) == At(c, b).(priority := At(c, b).priority + 1, inflight := At(c, b).inflight + n)
    ensures Weighed(c, a, b, 50.0, n as real)
  {
    ScoresWeigh(c, a, b, 50.0, n as real);
  }

  /** Full health against none is worth five requests in flight. */
  lemma HealthAgainstLoad(c: Call, a: string, b: string, gain: real, n: nat)
    requires Compared(c, a, b)
    requires At(c, a) == At(c, b).(health := At(c, b).health + gain, inflight := At(c, b).inflight + n)
    ensures Weighed(c, a, b, 5.0 * gain, n as real)
  {
    ScoresWeigh(c, a, b, 5.0 * gain, n as real);
  }

  /** Five failures weigh as much as one request in flight. */
  lemma FailuresAgainstLoad(c: Call, a: string, b: string, m: nat, n: nat)
    requires Compared(c, a, b) && At(c, b).failures <= 10
    requires At(c, b).failures == At(c, a).failures + m && At(c, a).inflight == At(c, b).inflight + n
    requires At(c, a) == At(c, b).(failures := At(c, a).failures, inflight := At(c, a).inflight)
    ensures Weighed(c, a, b, m as real, 5.0 * n as real)
  {
    ScoresWeigh(c, a, b, m as real, 5.0 * n as real);
  }

  /** Four fifths of a quota weigh as much as one request in flight. */
  lemma QuotaAgainstLoad(c: Call, a: string, b: string, n: nat)
    requires Compared(c, a, b)
    requires At(c, a) == At(c, b).(quota := At(c, a).quota, inflight := At(c, b).inflight + n)
    ensures Weighed(c, a, b, 5.0 * (Left(At(c, a).quota) - Left(At(c, b).quota)), 4.0 * n as real)
  {
    LeftIsScored(At(c, a).quota);
    LeftIsScored(At(c, b).quota);
    ScoresWeigh(c, a, b, 5.0 * (Left(At(c, a).quota) - Left(At(c, b).quota)), 4.0 * n as real);
  }

  /** A use just now weighs as much as three quarters of a request in flight, and fades to nothing within a minute. */
  lemma RestAgainstLoad(c: Call, a: string, b: string, n: nat)
    requires Compared(c, a, b)
    requires At(c, a) == At(c, b).(lastUsedAt := None, inflight := At(c, b).inflight + n)
    requires At(c, b).lastUsedAt.Some? && c.now - At(c, b).lastUsedAt.value < MINUTE
    ensures var left := (MINUTE - (c.now - At(c, b).lastUsedAt.value)) as real / MINUTE as real;
            Weighed(c, a, b, 3.0 * left, 4.0 * n as real)
  {
    var age := c.now - At(c, b).lastUsedAt.value;
    var left := (MINUTE - age) as real / MINUTE as real;
    assert left == 1.0 - age as real / MINUTE as real;
    ScoresWeigh(c, a, b, 3.0 * left, 4.0 * n as real);
  }

  // ---- who is a candidate ----

  /** The answer of a selection is an account that can take the request. */
  lemma ChosenIsFit(c: Call, r: string)
    requires Selects(c.states, c.excluded, c.model, c.now, c.policy, c.strategy, c.binding, c.cursor, Some(r))
    ensures r in c.states && r !in c.excluded
    ensures var l := c.states[r];
            && (l.account.status.Active? || l.account.status.Cooldown?)
            && (l.cooldownTill.Some? ==> l.cooldownTill.value <= c.now)
            && l.account.kind in c.model.kinds
            && (l.account.models != [] ==> c.model.id in l.account.models || c.model.upstreamModel in l.account.models)
            && (c.model.minimumTier != "" ==> TierRank(l.account.tier) >= TierRank(c.model.minimumTier))
            && l.inflight < (if l.account.concurrencyLimit > 0 then l.account.concurrencyLimit
                             else c.policy.defaultConcurrency)
            && UnavailableUntil(l.account.quota, c.now, c.policy.RateLimit(l.account.kind)).None?
  {
  }

  /** And every account that can take the request may be the answer: then something is chosen. */
  lemma FitIsChosenFrom(c: Call, id: string)
    requires id in c.states && id !in c.excluded
    requires var l := c.states[id];
             && (l.account.status.Active? || l.account.status.Cooldown?)
             && (l.cooldownTill.Some? ==> l.cooldownTill.value <= c.now)
             && l.account.kind in c.model.kinds
             && (l.account.models != [] ==> c.model.id in l.account.models || c.model.upstreamModel in l.account.models)
             && (c.model.minimumTier != "" ==> TierRank(l.account.tier) >= TierRank(c.model.minimumTier))
             && l.inflight < (if l.account.concurrencyLimit > 0 then l.account.concurrencyLimit
                              else c.policy.defaultConcurrency)
             && UnavailableUntil(l.account.quota, c.now, c.policy.RateLimit(l.account.kind)).None?
    ensures id in Candidates(c.states, c.excluded, c.model, c.now, c.policy)
    ensures !Selects(c.states, c.excluded, c.model, c.now, c.policy, c.strategy, c.binding, c.cursor, None)
  {
  }

  /** Three tiers, whatever the case of their names. */
  lemma TierNames(tier: string)
    ensures var t := Text.Lower(tier);
            && (TierRank(tier) == 2 <==> t in {"heavy", "enterprise"})
            && (TierRank(tier) == 1 <==> t in {"super", "pro", "premium"})
            && TierRank(tier) <= 2
  {
  }

  /** With a preference for the best tier, a lower tier is passed over. */
  lemma BestTierWins(c: Call, a: string, b: string)
    requires c.model.preferBest && a in c.states && b in c.states
    requires a in Candidates(c.states, c.excluded, c.model, c.now, c.policy)
    requires TierRank(c.states[a].account.tier) > TierRank(c.states[b].account.tier)
    ensures PassesOver(c, a, b)
  {
  }
}
