/** Accounts, their quota and the feedback rules of the pool.  Times are integers; `None` is the zero time. */
module Accounts {

  import opened Options
  import opened Numbers

  datatype Status = Active | Cooldown | Expired | Disabled | Error

  predicate Terminal(s: Status) {
    s.Disabled? || s.Expired? || s.Error?
  }

  predicate After(t: Option<int>, now: int) {
    t.Some? && t.value > now
  }

  function Later(a: Option<int>, b: Option<int>): Option<int> {
    if a.Some? && b.Some? then (if a.value > b.value then a else b) else if a.Some? then a else b
  }

  datatype Quota = Quota(requestsLimit: int, requestsRemaining: int, requestsUnlimited: bool,
                         tokensLimit: int, tokensRemaining: int, tokensUnlimited: bool,
                         resetAt: Option<int>, observedAt: Option<int>)

  /** What the database stores of an account, and the pool keeps a copy of. */
  datatype Account = Account(id: string, kind: string, tier: string, priority: int, concurrencyLimit: int,
                             models: seq<string>,
                             fingerprint: string, cipher: string,
                             status: Status, health: real, failures: nat, quota: Quota,
                             cooldownUntil: Option<int>, lastUsedAt: Option<int>, lastError: string)

  datatype Policy = Policy(defaultConcurrency: int, forbiddenCooldown: int, rateLimitCooldown: map<string, int>,
                           transientBase: int, transientMax: int)
  {
    /** What NewPoolWithCoordinator establishes. */
    predicate Valid() {
      defaultConcurrency > 0 && forbiddenCooldown > 0 && transientBase > 0
    }

    function RateLimit(kind: string): int {
      if kind in rateLimitCooldown then rateLimitCooldown[kind] else 0
    }
  }

  datatype Feedback = Feedback(status: int, retryAfter: int, quota: Option<Quota>, failed: bool, message: string)

  /** The pool's state of one account. */
  datatype Local = Local(account: Account, inflight: nat, health: real, failures: nat, cooldownTill: Option<int>,
                         lastUsedPersisted: Option<int>)

  const QUARTER_HOUR := 900_000_000_000
  const HALF_MINUTE := 30_000_000_000

  // ---- quota ----

  predicate Exhausted(q: Quota) {
    || (!q.requestsUnlimited && q.requestsLimit > 0 && q.requestsRemaining <= 0)
    || (!q.tokensUnlimited && q.tokensLimit > 0 && q.tokensRemaining <= 0)
  }

  /** quotaUnavailableUntil: the end of the block window, if it lies ahead. */
  function UnavailableUntil(q: Quota, now: int, fallback: int): (until: Option<int>)
    ensures until.Some? ==> until.value > now && Exhausted(q)
  {
    if !Exhausted(q) then None
    else if q.resetAt.Some? then (if q.resetAt.value > now then q.resetAt else None)
    else if fallback > 0 && q.observedAt.Some? && q.observedAt.value + fallback > now
            then Some(q.observedAt.value + fallback)
    else None
  }

  /** exhaustedQuotaReset. */
  function ExhaustedReset(q: Quota, kind: string, policy: Policy, now: int, observed: bool): (until: Option<int>)
    ensures until.Some? ==> until.value > now
  {
    if !Exhausted(q) then None else
    var fallback := Fallback(kind, policy);
    var until := UnavailableUntil(q, now, fallback);
    if until.Some? then until else if observed then Some(now + fallback) else None
  }

  /** The first time from which an exhausted quota no longer blocks, if it blocks at all. */
  function WindowEnd(q: Quota, fallback: int): Option<int> {
    if !Exhausted(q) then None
    else if q.resetAt.Some? then q.resetAt
    else if fallback > 0 && q.observedAt.Some? then Some(q.observedAt.value + fallback)
    else None
  }

  /** A quota blocks at every time before one fixed end, always naming that end, and at no time from then on. */
  lemma QuotaWindow(q: Quota, fallback: int)
    ensures var end := WindowEnd(q, fallback);
            forall t :: UnavailableUntil(q, t, fallback) == if After(end, t) then end else None
  {
    forall t
      ensures UnavailableUntil(q, t, fallback) ==
              if After(WindowEnd(q, fallback), t) then WindowEnd(q, fallback) else None
    {
    }
  }

  /** The wait that stands in for an unknown reset. */
  function Fallback(kind: string, policy: Policy): (wait: int)
    ensures wait > 0
  {
    if policy.RateLimit(kind) > 0 then policy.RateLimit(kind) else QUARTER_HOUR
  }

  /**
   A reset exists exactly for an exhausted quota that was just observed or still blocks; it is the end of the block, at
   which the quota blocks no more, or the fallback wait when no block lies ahead.
   */
  lemma ResetEndsWindow(q: Quota, kind: string, policy: Policy, now: int, observed: bool)
    ensures var wait := Fallback(kind, policy);
            var reset, window := ExhaustedReset(q, kind, policy, now, observed), UnavailableUntil(q, now, wait);
            && (reset.Some? <==> Exhausted(q) && (observed || window.Some?))
            && (window.Some? ==> reset == window && UnavailableUntil(q, reset.value, wait).None?)
            && (reset.Some? && window.None? ==> reset.value == now + wait)
  {
    QuotaWindow(q, Fallback(kind, policy));
  }

  // ---- back-off ----

  function Pow2(n: nat): nat {
    if n == 0 then 1 else 2 * Pow2(n - 1)
  }

  lemma {:induction false} BackoffGrows(policy: Policy, a: nat, b: nat)
    requires a <= b && policy.transientBase > 0
    ensures policy.transientBase * Pow2(a) <= policy.transientBase * Pow2(b)
    decreases b
  {
    if a < b {
      BackoffGrows(policy, a, b - 1);
      assert policy.transientBase * Pow2(b) == 2 * (policy.transientBase * Pow2(b - 1));
    }
  }

  /** The base delay doubled once per further failure, capped at the maximum but never below the base. */
  function Backoff(policy: Policy, failures: nat): (delay: int)
    ensures delay >= policy.transientBase
  {
    var doubled := policy.transientBase * Pow2(if failures == 0 then 0 else failures - 1);
    Max(policy.transientBase, Min(policy.transientMax, doubled))
  }

  /** transientBackoff: no intermediate value reaches twice the cap. */
  method TransientBackoff(policy: Policy, failures: nat) returns (delay: int)
    requires policy.Valid()
    ensures delay == Backoff(policy, failures)
  {
    delay := policy.transientBase;
    var attempt := 1;
    while attempt < failures && delay < policy.transientMax
      invariant attempt >= 1 && (failures > 0 ==> attempt <= failures) && (failures == 0 ==> attempt == 1)
      invariant delay == policy.transientBase * Pow2(attempt - 1) && policy.transientBase <= delay
      invariant attempt > 1 ==> delay < policy.transientMax
    {
      delay := delay * 2;
      attempt := attempt + 1;
      if delay >= policy.transientMax {
        BackoffGrows(policy, attempt - 1, failures - 1);
        return policy.transientMax;
      }
    }
    if attempt < failures {
      BackoffGrows(policy, attempt - 1, failures - 1);
    }
  }

  // ---- release ----

  /** The local outcome of a release: what is to be written, coordinated and reloaded afterwards. */
  datatype Released = Released(local: Local, persist: bool, publish: bool, cooldown: Option<int>,
                               invalidateAffinity: bool)

  predicate Succeeded(fb: Feedback) {
    200 <= fb.status < 400 && !fb.failed
  }

  predicate PermanentFailure(status: int) {
    status == 401 || status == 403 || status == 423
  }

  function MaxReal(a: real, b: real): real {
    if a > b then a else b
  }

  function MinReal(a: real, b: real): real {
    if a < b then a else b
  }

  /** The same credentials as when the lease was taken. */
  predicate SameCredentials(a: Account, b: Account) {
    a.cipher == b.cipher && a.fingerprint == b.fingerprint
  }

  function Cool(l: Local, a: Account, until: int, health: real, message: string): Local {
    l.(account := a.(status := Cooldown, cooldownUntil := Some(until), lastError := message), health := health,
       failures := l.failures + 1,
       cooldownTill := Some(until))
  }

  /** The switch of `release`, on the account with any new quota; `leased` is the account as it was leased. */
  function Judge(l: Local, a: Account, leased: Account, fb: Feedback, now: int, policy: Policy,
                 persist: bool): Released {
    var reset := ExhaustedReset(a.quota, a.kind, policy, now, fb.quota.Some?);
    var publish := fb.quota.Some?;
    if a.status != leased.status && Terminal(a.status) then
      Released(l.(account := a), persist, publish, Some(now + policy.forbiddenCooldown), true)
    else if fb.status == 429 then
      var wait := if fb.retryAfter > 0 then fb.retryAfter
                  else if policy.RateLimit(a.kind) > 0 then policy.RateLimit(a.kind) else QUARTER_HOUR;
      var until := Later(l.cooldownTill, Later(reset, Some(now + wait))).value;
      Released(Cool(l, a, until, MaxReal(0.05, l.health * 0.45), fb.message), true, true, Some(until), true)
    else if PermanentFailure(fb.status) then
      Released(l.(account := a.(status := Disabled, cooldownUntil := None, lastError := fb.message),
                  health := MaxReal(0.05, l.health * 0.25),
                  failures := l.failures + 1, cooldownTill := None),
               true, true, Some(now + policy.forbiddenCooldown), true)
    else if reset.Some? then
      var until := Later(l.cooldownTill, reset).value;
      Released(Cool(l, a, until, MaxReal(0.05, l.health * 0.9), "upstream quota exhausted"), true, true, Some(until),
               true)
    else if Succeeded(fb) && After(l.cooldownTill, now) && a.status.Cooldown? then
      Released(l.(account := a), persist, publish, l.cooldownTill, true)
    else if Succeeded(fb) then
      var recovering := l.health < 1.0 || l.failures != 0 || !a.status.Active? || a.cooldownUntil.Some? ||
                        a.lastError != "";
      Released(l.(account := a.(status := Active, cooldownUntil := None, lastError := ""),
                  health := MinReal(1.0, l.health + 0.12), failures := 0, cooldownTill := None),
               persist || recovering, publish || recovering, None, false)
    else if fb.status == 499 then Released(l.(account := a), persist, publish, None, false)
    else if fb.failed || fb.status >= 500 then
      var until := now + Backoff(policy, l.failures + 1);
      Released(Cool(l, a, until, MaxReal(0.05, l.health * 0.75), fb.message), true, true, Some(until), true)
    else Released(l.(account := a), persist, publish, None, false)
  }

  function Release(l: Local, leased: Account, fb: Feedback, now: int, policy: Policy): Released {
    var l1 := l.(inflight := if l.inflight > 0 then l.inflight - 1 else 0);
    if !SameCredentials(l.account, leased) then
      var quotaUntil := UnavailableUntil(l.account.quota, now, policy.RateLimit(l.account.kind));
      var unavailable := !l.account.status.Active? || After(l.cooldownTill, now) || quotaUntil.Some?;
      var until := Later(l.cooldownTill, quotaUntil);
      var coordinated := if Terminal(l.account.status) && !After(until, now) then Some(now + policy.forbiddenCooldown)
                         else until;
      Released(l1, false, false, if unavailable && After(coordinated, now) then coordinated else None, unavailable)
    else
      var stale := l.lastUsedPersisted.None? || now - l.lastUsedPersisted.value >= HALF_MINUTE;
      var l2 := if stale then l1.(lastUsedPersisted := Some(now)) else l1;
      var a := if fb.quota.Some? then l.account.(quota := fb.quota.value) else l.account;
      var r := Judge(l2, a, leased, fb, now, policy, stale || fb.quota.Some?);
      r.(local := r.local.(account := r.local.account.(health := r.local.health, failures := r.local.failures)))
  }

  // ---- the row merge ----

  /**
   The SQL CASE expressions of UpdateAccountRuntime: what a row becomes when feedback `p` is written at time `now`.
   */
  function Merge(row: Account, p: Account, now: int): Account {
    var foreign := row.fingerprint != p.fingerprint || row.cipher != p.cipher;
    var frozen := Terminal(row.status) || foreign;
    var cooling := p.status.Active? && row.status.Cooldown? && After(row.cooldownUntil, now);
    var keep := frozen || cooling;
    row.(status := if keep then row.status else p.status,
         health := if keep then row.health else p.health,
         failures := if keep then row.failures else p.failures,
         quota := if frozen then row.quota else p.quota,
         cooldownUntil :=
           if keep then row.cooldownUntil
           else if p.status.Cooldown? && row.cooldownUntil.Some? &&
                   (p.cooldownUntil.None? || row.cooldownUntil.value > p.cooldownUntil.value) then row.cooldownUntil
           else p.cooldownUntil,
         lastUsedAt := if foreign || p.lastUsedAt.None? then row.lastUsedAt else Later(row.lastUsedAt, p.lastUsedAt),
         lastError := if keep then row.lastError else p.lastError)
  }

  // ---- reload ----

  /** Reload of one account from its row; `None` is an account not in the pool yet. */
  function Reload(l: Option<Local>, row: Account): Local {
    var item := if row.health <= 0.0 then row.(health := 1.0) else row;
    var prior := if l.Some? then l.value else Local(item, 0, 0.0, 0, None, None);
    Local(item, prior.inflight, item.health, item.failures,
          if row.cooldownUntil.None? then None
          else if prior.cooldownTill.None? || row.cooldownUntil.value > prior.cooldownTill.value then row.cooldownUntil
          else prior.cooldownTill,
          if row.lastUsedAt.Some? && (prior.lastUsedPersisted.None? ||
                                      row.lastUsedAt.value > prior.lastUsedPersisted.value) then row.lastUsedAt
          else prior.lastUsedPersisted)
  }
}
