/**
 What a release does to an account, case by case: deadline, status, health and failures, what is coordinated, and
 whether the row is written, the change published and the affinity dropped.

 `l` is the pool's copy before, `leased` the account as it was leased.  Everything is said of the outcome of `Release`.
 */
module ReleaseCases {

  import opened Options
  import opened Accounts
  import opened Numbers

  /** The quota after the feedback: the one just observed, or else the known one. */
  function QuotaAfter(l: Local, fb: Feedback): Quota {
    if fb.quota.Some? then fb.quota.value else l.account.quota
  }

  /** When an exhausted quota lets the account back in. */
  function QuotaReset(l: Local, fb: Feedback, now: int, policy: Policy): Option<int> {
    ExhaustedReset(QuotaAfter(l, fb), l.account.kind, policy, now, fb.quota.Some?)
  }

  /** The account became unusable while it was leased. */
  predicate Closed(l: Local, leased: Account) {
    l.account.status != leased.status && Terminal(l.account.status)
  }

  /** The feedback is about the credentials the account still has, and the account was not closed meanwhile. */
  predicate Judged(l: Local, leased: Account) {
    SameCredentials(l.account, leased) && !Closed(l, leased)
  }

  /** The use is written at most every half minute. */
  predicate UseIsStale(l: Local, now: int) {
    l.lastUsedPersisted.None? || now - l.lastUsedPersisted.value >= 30 * 1_000_000_000
  }

  // ---- deadlines ----

  /** The earliest time that is no earlier than the given ones. */
  predicate Latest(until: int, known: Option<int>, reset: Option<int>, other: Option<int>) {
    && (known.Some? ==> known.value <= until) && (reset.Some? ==> reset.value <= until)
    && (other.Some? ==> other.value <= until)
    && (known == Some(until) || reset == Some(until) || other == Some(until))
  }

  /** The copy, its account and the coordinator all have the deadline. */
  predicate CoolsUntil(r: Released, until: int) {
    && r.local.account.status.Cooldown? && r.local.cooldownTill == Some(until)
    && r.local.account.cooldownUntil == Some(until) && r.cooldown == Some(until)
  }

  /** Written, published, and no conversation stays with the account. */
  predicate Announced(r: Released) {
    r.persist && r.publish && r.invalidateAffinity
  }

  /** One failure more, and the given part of the health, but at least a twentieth. */
  predicate Hurt(l: Local, r: Released, percent: int) {
    && r.local.failures == l.failures + 1 && 100.0 * r.local.health >= 5.0
    && 100.0 * r.local.health >= percent as real * l.health
    && (r.local.health == 0.05 || 100.0 * r.local.health == percent as real * l.health)
  }

  /** Health, failures, status, deadlines and error message stay. */
  predicate StandingKept(l: Local, r: Released) {
    && r.local.health == l.health && r.local.failures == l.failures && r.local.cooldownTill == l.cooldownTill
    && r.local.account.status == l.account.status && r.local.account.cooldownUntil == l.account.cooldownUntil
    && r.local.account.lastError == l.account.lastError
  }

  // ---- what every release does ----

  /** Nothing but standing and quota differs. */
  predicate SameBut(a: Account, b: Account) {
    b == a.(status := b.status, health := b.health, failures := b.failures, quota := b.quota,
            cooldownUntil := b.cooldownUntil, lastError := b.lastError)
  }

  lemma JudgeKeeps(l: Local, a: Account, leased: Account, fb: Feedback, now: int, policy: Policy, persist: bool)
    ensures var r := Judge(l, a, leased, fb, now, policy, persist).local;
            SameBut(a, r.account) && r.inflight == l.inflight && r.lastUsedPersisted == l.lastUsedPersisted
  {
  }

  /** One reservation is given back, and nothing but the account's standing, quota and time of writing changes. */
  lemma ReservationReturned(l: Local, leased: Account, fb: Feedback, now: int, policy: Policy)
    ensures var r := Release(l, leased, fb, now, policy).local;
            r.inflight == Max(0, l.inflight - 1) && SameBut(l.account, r.account)
  {
    if SameCredentials(l.account, leased) {
      var l1 := l.(inflight := if l.inflight > 0 then l.inflight - 1 else 0);
      var stale := l.lastUsedPersisted.None? || now - l.lastUsedPersisted.value >= HALF_MINUTE;
      var l2 := if stale then l1.(lastUsedPersisted := Some(now)) else l1;
      var a := if fb.quota.Some? then l.account.(quota := fb.quota.value) else l.account;
      JudgeKeeps(l2, a, leased, fb, now, policy, stale || fb.quota.Some?);
    }
  }

  /** Feedback on the present credentials: the row gets the copy's health and failures, and a new quota is taken. */
  lemma FeedbackRecorded(l: Local, leased: Account, fb: Feedback, now: int, policy: Policy)
    requires SameCredentials(l.account, leased)
    ensures var r := Release(l, leased, fb, now, policy);
            && r.local.account.health == r.local.health && r.local.account.failures == r.local.failures
            && r.local.account.quota == QuotaAfter(l, fb)
            && r.local.lastUsedPersisted == (if UseIsStale(l, now) then Some(now) else l.lastUsedPersisted)
            && (UseIsStale(l, now) || fb.quota.Some? ==> r.persist) && (fb.quota.Some? ==> r.publish)
  {
  }

  // ---- case by case ----

  /** Other credentials by now: the feedback counts for nothing, but a blocked account is coordinated and dropped. */
  lemma ForeignFeedback(l: Local, leased: Account, fb: Feedback, now: int, policy: Policy)
    requires !SameCredentials(l.account, leased) && policy.Valid()
    ensures var r := Release(l, leased, fb, now, policy);
            var quotaEnd := UnavailableUntil(l.account.quota, now, policy.RateLimit(l.account.kind));
            var blocked := !l.account.status.Active? || After(l.cooldownTill, now) || quotaEnd.Some?;
            && r.local == l.(inflight := r.local.inflight) && !r.persist && !r.publish
            && (r.invalidateAffinity <==> blocked)
            && (r.cooldown.Some? ==> blocked && r.cooldown.value > now)
            && (blocked && (After(l.cooldownTill, now) || quotaEnd.Some?) ==>
                  r.cooldown.Some? && Latest(r.cooldown.value, l.cooldownTill, quotaEnd, None))
            && (Terminal(l.account.status) && !After(l.cooldownTill, now) && quotaEnd.None? ==>
                  r.cooldown == Some(now + policy.forbiddenCooldown))
            && (!Terminal(l.account.status) && !After(l.cooldownTill, now) && quotaEnd.None? ==> r.cooldown.None?)
  {
  }

  /** The account was closed while it was leased: it stays closed, and the coordinator keeps others away for a while. */
  lemma ClosedMeanwhile(l: Local, leased: Account, fb: Feedback, now: int, policy: Policy)
    requires SameCredentials(l.account, leased) && Closed(l, leased)
    ensures var r := Release(l, leased, fb, now, policy);
            && StandingKept(l, r) && r.cooldown == Some(now + policy.forbiddenCooldown) && r.invalidateAffinity
            && (r.persist <==> UseIsStale(l, now) || fb.quota.Some?) && (r.publish <==> fb.quota.Some?)
  {
  }

  /** The wait after a 429: what the upstream asked for, else the rate of the kind, else a quarter of an hour. */
  predicate Wait(wait: int, fb: Feedback, kind: string, policy: Policy) {
    var rate := if kind in policy.rateLimitCooldown then policy.rateLimitCooldown[kind] else 0;
    && (fb.retryAfter > 0 ==> wait == fb.retryAfter)
    && (fb.retryAfter <= 0 && rate > 0 ==> wait == rate)
    && (fb.retryAfter <= 0 && rate <= 0 ==> wait == 15 * 60 * 1_000_000_000)
  }

  /** 429: one deadline everywhere, no earlier than the wait, the quota's reset and the old deadline. */
  lemma RateLimited(l: Local, leased: Account, fb: Feedback, now: int, policy: Policy, wait: int)
    requires Judged(l, leased) && fb.status == 429 && Wait(wait, fb, l.account.kind, policy)
    ensures var r := Release(l, leased, fb, now, policy);
            && r.cooldown.Some?
            && Latest(r.cooldown.value, l.cooldownTill, QuotaReset(l, fb, now, policy), Some(now + wait))
            && CoolsUntil(r, r.cooldown.value) && Hurt(l, r, 45) && Announced(r)
            && r.local.account.lastError == fb.message
  {
  }

  /** 401, 403 and 423 disable the account, without a deadline of its own. */
  lemma Forbidden(l: Local, leased: Account, fb: Feedback, now: int, policy: Policy)
    requires Judged(l, leased) && fb.status in {401, 403, 423}
    ensures var r := Release(l, leased, fb, now, policy);
            && r.local.account.status.Disabled? && r.local.cooldownTill.None? && r.local.account.cooldownUntil.None?
            && r.cooldown == Some(now + policy.forbiddenCooldown) && Hurt(l, r, 25) && Announced(r)
            && r.local.account.lastError == fb.message
  {
  }

  /** Any other answer with the quota exhausted: the account cools until the quota is back. */
  lemma QuotaSpent(l: Local, leased: Account, fb: Feedback, now: int, policy: Policy)
    requires Judged(l, leased) && fb.status !in {401, 403, 423, 429} && QuotaReset(l, fb, now, policy).Some?
    ensures var r := Release(l, leased, fb, now, policy);
            && r.cooldown.Some? && Latest(r.cooldown.value, l.cooldownTill, QuotaReset(l, fb, now, policy), None)
            && CoolsUntil(r, r.cooldown.value) && Hurt(l, r, 90) && Announced(r)
            && r.local.account.lastError == "upstream quota exhausted"
  {
  }

  /** The remaining cases: nothing above applies. */
  predicate Ordinary(l: Local, leased: Account, fb: Feedback, now: int, policy: Policy) {
    Judged(l, leased) && fb.status !in {401, 403, 423, 429} && QuotaReset(l, fb, now, policy).None?
  }

  predicate GoodAnswer(fb: Feedback) {
    200 <= fb.status <= 399 && !fb.failed
  }

  /** A success that was under way when the account began to cool does not end the cooldown. */
  lemma LateSuccess(l: Local, leased: Account, fb: Feedback, now: int, policy: Policy)
    requires Ordinary(l, leased, fb, now, policy) && GoodAnswer(fb)
    requires l.account.status.Cooldown? && After(l.cooldownTill, now)
    ensures var r := Release(l, leased, fb, now, policy);
            && StandingKept(l, r) && r.cooldown == l.cooldownTill && r.invalidateAffinity
            && (r.persist <==> UseIsStale(l, now) || fb.quota.Some?) && (r.publish <==> fb.quota.Some?)
  {
  }

  /** Nothing is left to recover from. */
  predicate Healthy(l: Local) {
    && l.health >= 1.0 && l.failures == 0 && l.account.status.Active? && l.account.cooldownUntil.None?
    && l.account.lastError == ""
  }

  /** Any other success makes the account active; health recovers by 0.12 up to one. */
  lemma Success(l: Local, leased: Account, fb: Feedback, now: int, policy: Policy)
    requires Ordinary(l, leased, fb, now, policy) && GoodAnswer(fb)
    requires !(l.account.status.Cooldown? && After(l.cooldownTill, now))
    ensures var r := Release(l, leased, fb, now, policy);
            && r.local.account.status.Active? && r.local.cooldownTill.None? && r.local.account.cooldownUntil.None?
            && r.local.account.lastError == "" && r.local.failures == 0
            && r.local.health == (if l.health >= 0.88 then 1.0 else l.health + 0.12)
            && r.cooldown.None? && !r.invalidateAffinity
            && (r.persist <==> UseIsStale(l, now) || fb.quota.Some? || !Healthy(l))
            && (r.publish <==> fb.quota.Some? || !Healthy(l))
  {
  }

  /** A server error or a failed request cools the account for the back-off of one failure more. */
  lemma ServerError(l: Local, leased: Account, fb: Feedback, now: int, policy: Policy)
    requires Ordinary(l, leased, fb, now, policy) && fb.status != 499 && (fb.failed || fb.status >= 500)
    ensures var r := Release(l, leased, fb, now, policy);
            && CoolsUntil(r, now + Backoff(policy, l.failures + 1)) && Hurt(l, r, 75) && Announced(r)
            && r.local.account.lastError == fb.message
  {
  }

  /** A cancelled request, and any answer that is no verdict on the account, leave its standing alone. */
  lemma NoVerdict(l: Local, leased: Account, fb: Feedback, now: int, policy: Policy)
    requires Ordinary(l, leased, fb, now, policy) && !GoodAnswer(fb)
    requires fb.status == 499 || (!fb.failed && fb.status < 500)
    ensures var r := Release(l, leased, fb, now, policy);
            && StandingKept(l, r) && r.cooldown.None? && !r.invalidateAffinity
            && (r.persist <==> UseIsStale(l, now) || fb.quota.Some?) && (r.publish <==> fb.quota.Some?)
  {
  }

  // ---- the back-off ----

  /** The first failure waits for the base delay, every further one twice as long, up to the maximum. */
  lemma BackoffDoubles(policy: Policy, n: nat)
    requires policy.Valid() && n > 0
    ensures Backoff(policy, 0) == Backoff(policy, 1) == policy.transientBase
    ensures Backoff(policy, n + 1) == Max(policy.transientBase, Min(policy.transientMax, 2 * Backoff(policy, n)))
  {
    assert Pow2(0) == 1;
    assert policy.transientBase * Pow2(n) == 2 * (policy.transientBase * Pow2(n - 1));
    BackoffGrows(policy, 0, n - 1);
    BackoffGrows(policy, 0, n);
  }

  // ---- what reaches the row, and the copies again ----

  /** A row with other credentials is not touched. */
  lemma ForeignWriteChangesNothing(row: Account, p: Account, now: int)
    requires row.fingerprint != p.fingerprint || row.cipher != p.cipher
    ensures Merge(row, p, now) == row
  {
  }

  /** A cooling row takes the quota and the use of a success, and nothing else. */
  lemma CoolingRowKeepsStanding(row: Account, p: Account, now: int)
    requires SameCredentials(row, p) && p.status.Active? && row.status.Cooldown? && After(row.cooldownUntil, now)
    ensures var m := Merge(row, p, now);
            && m == row.(quota := p.quota, lastUsedAt := m.lastUsedAt)
            && LaterOf(m.lastUsedAt, row.lastUsedAt, p.lastUsedAt)
  {
  }

  /** The later of two times, if there is any. */
  predicate LaterOf(t: Option<int>, a: Option<int>, b: Option<int>) {
    && (t.None? <==> a.None? && b.None?) && (t.Some? ==> Latest(t.value, a, b, None))
  }

  /** Any other open row becomes what the feedback says; of two deadlines of a cooling account the later one stays. */
  lemma OpenRowTakesFeedback(row: Account, p: Account, now: int)
    requires SameCredentials(row, p) && !Terminal(row.status)
    requires !(p.status.Active? && row.status.Cooldown? && After(row.cooldownUntil, now))
    ensures var m := Merge(row, p, now);
            && m.status == p.status && m.health == p.health && m.failures == p.failures && m.quota == p.quota
            && m.lastError == p.lastError && LaterOf(m.lastUsedAt, row.lastUsedAt, p.lastUsedAt)
            && (p.status.Cooldown? ==> LaterOf(m.cooldownUntil, row.cooldownUntil, p.cooldownUntil))
            && (!p.status.Cooldown? ==> m.cooldownUntil == p.cooldownUntil)
  {
  }

  /** A reload replaces the account by the row and keeps the reservations; the later deadline of the two stays. */
  lemma ReloadTakesRow(l: Local, row: Account)
    ensures var r := Reload(Some(l), row);
            && r.account == row.(health := if row.health > 0.0 then row.health else 1.0)
            && r.inflight == l.inflight && r.health == r.account.health && r.failures == row.failures
            && (row.cooldownUntil.None? ==> r.cooldownTill.None?)
            && (row.cooldownUntil.Some? ==> LaterOf(r.cooldownTill, l.cooldownTill, row.cooldownUntil))
  {
  }

  /** An account new to the pool has nothing in flight and the row's deadline. */
  lemma NewAccountTakesRow(row: Account)
    ensures var r := Reload(None, row);
            && r.account == row.(health := if row.health > 0.0 then row.health else 1.0)
            && r.inflight == 0 && r.health == r.account.health && r.failures == row.failures
            && r.cooldownTill == row.cooldownUntil
  {
  }
}
