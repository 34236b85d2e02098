/**
 Late feedback: the row in PostgreSQL, the copies in several instances, writes that arrive late and reloads whose
 listing is old.  One account; the clock never runs backwards.
 */
module Feedback {

  import opened Options
  import opened Accounts
  import opened Numbers
  import opened Sets

  /** The row keeps the account out of scheduling at time t. */
  predicate Blocks(row: Account, t: int) {
    Terminal(row.status) || After(row.cooldownUntil, t)
  }

  /** The status and deadline tests of durablyEligibleLocked refuse the account at time t. */
  predicate LocalBlocks(l: Local, t: int) {
    Terminal(l.account.status) || After(l.cooldownTill, t)
  }

  /** An active account carries no deadline. */
  predicate Clean(a: Account) {
    a.status.Active? ==> a.cooldownUntil.None?
  }

  // ---- one write ----

  /** The one way a write can free a row: both sides are active, and the row has a later deadline ahead. */
  predicate FreesActiveRow(row: Account, p: Account, now: int) {
    && SameCredentials(row, p) && row.status.Active? && p.status.Active? && After(row.cooldownUntil, now)
    && (p.cooldownUntil.None? || p.cooldownUntil.value < row.cooldownUntil.value)
  }

  /**
   Whatever is blocked from now on before the write is blocked after it, exactly when the write does not free an active
   row.
   */
  lemma MergeNeverEarlierIff(row: Account, p: Account, now: int)
    ensures (forall t | t >= now && Blocks(row, t) :: Blocks(Merge(row, p, now), t)) <==> !FreesActiveRow(row, p, now)
  {
    var after := Merge(row, p, now);
    if FreesActiveRow(row, p, now) {
      var t := row.cooldownUntil.value - 1;
      assert t >= now && Blocks(row, t) && !Blocks(after, t);
    } else {
      forall t | t >= now && Blocks(row, t)
        ensures Blocks(after, t)
      {
      }
    }
  }

  /** A late success clears a deadline an administrator put on an active row. */
  lemma SuccessCanFreeActiveRow(a: Account, now: int)
    ensures var row := a.(status := Active, cooldownUntil := Some(now + 10));
            Blocks(row, now + 5) && !Blocks(Merge(row, row.(cooldownUntil := None), now), now + 5)
  {
  }

  /** A terminal row keeps its status, deadline, health and quota, whatever is written. */
  lemma TerminalIsFrozen(row: Account, p: Account, now: int)
    requires Terminal(row.status)
    ensures Merge(row, p, now) == row.(lastUsedAt := Merge(row, p, now).lastUsedAt)
  {
  }

  /** What the feedback itself blocks, the row blocks once it is written with the row's credentials. */
  lemma WriteTakesHold(row: Account, p: Account, now: int, t: int)
    requires SameCredentials(row, p) && Clean(p) && Blocks(p, t)
    ensures Blocks(Merge(row, p, now), t)
  {
  }

  // ---- one release ----

  predicate RateLimited(l: Local, fb: Feedback, now: int, policy: Policy) {
    fb.status == 429 || (!PermanentFailure(fb.status) && ResetOf(l, fb, now, policy).Some?)
  }

  function ResetOf(l: Local, fb: Feedback, now: int, policy: Policy): Option<int> {
    ExhaustedReset(if fb.quota.Some? then fb.quota.value
                   else l.account.quota, l.account.kind, policy, now, fb.quota.Some?)
  }

  predicate Transient(fb: Feedback) {
    !Succeeded(fb) && fb.status != 499 && (fb.failed || fb.status >= 500)
  }

  /** When a release lets the account back in earlier than the pool's own copy said. */
  predicate Relaxes(l: Local, leased: Account, fb: Feedback, now: int, policy: Policy) {
    && SameCredentials(l.account, leased)
    && !PermanentFailure(fb.status)
    && if Terminal(l.account.status)
       then l.account.status == leased.status && (RateLimited(l, fb, now, policy) || Succeeded(fb) || Transient(fb))
       else !RateLimited(l, fb, now, policy) &&
            if Succeeded(fb) then l.account.status.Active? && After(l.cooldownTill, now)
            else Transient(fb) && After(l.cooldownTill, now + Backoff(policy, l.failures + 1))
  }

  ghost predicate KeepsBlocking(l: Local, l': Local, now: int) {
    forall t | t >= now && LocalBlocks(l, t) :: LocalBlocks(l', t)
  }

  /** The copy became terminal, or was not and keeps its deadline. */
  predicate DeadlineKept(l: Local, l': Local, now: int) {
    || Terminal(l'.account.status)
    || (!Terminal(l.account.status) &&
        (After(l.cooldownTill, now) ==> l'.cooldownTill.Some? && l'.cooldownTill.value >= l.cooldownTill.value))
  }

  lemma KeptFor(l: Local, l': Local, now: int)
    requires DeadlineKept(l, l', now)
    ensures KeepsBlocking(l, l', now)
  {
  }

  lemma LostAt(l: Local, l': Local, now: int, t: int)
    requires t >= now && LocalBlocks(l, t) && !LocalBlocks(l', t)
    ensures !KeepsBlocking(l, l', now)
  {
  }

  /** A time at which a relaxed account is free although it was blocked before. */
  function FreeAt(l: Local, l': Local, now: int): int {
    if Terminal(l.account.status) then Max(now, if l'.cooldownTill.Some? then l'.cooldownTill.value else now)
    else if l.cooldownTill.Some? then l.cooldownTill.value - 1
    else now
  }

  /** The local deadline survives a release except in the exact cases of `Relaxes`. */
  lemma ReleaseKeepsBlockingIff(l: Local, leased: Account, fb: Feedback, now: int, policy: Policy)
    requires policy.Valid()
    ensures KeepsBlocking(l, Release(l, leased, fb, now, policy).local, now) <==> !Relaxes(l, leased, fb, now, policy)
  {
    var l' := Release(l, leased, fb, now, policy).local;
    if Relaxes(l, leased, fb, now, policy) {
      RelaxedIsFree(l, leased, fb, now, policy);
      LostAt(l, l', now, FreeAt(l, l', now));
    } else {
      UnrelaxedIsKept(l, leased, fb, now, policy);
      KeptFor(l, l', now);
    }
  }

  lemma RelaxedIsFree(l: Local, leased: Account, fb: Feedback, now: int, policy: Policy)
    requires policy.Valid() && Relaxes(l, leased, fb, now, policy)
    ensures var l' := Release(l, leased, fb, now, policy).local;
            var t := FreeAt(l, l', now);
            t >= now && LocalBlocks(l, t) && !LocalBlocks(l', t)
  {
  }

  lemma UnrelaxedIsKept(l: Local, leased: Account, fb: Feedback, now: int, policy: Policy)
    requires policy.Valid() && !Relaxes(l, leased, fb, now, policy)
    ensures DeadlineKept(l, Release(l, leased, fb, now, policy).local, now)
  {
    if Terminal(l.account.status) {
      TerminalUnrelaxed(l, leased, fb, now, policy);
    }
  }

  lemma TerminalUnrelaxed(l: Local, leased: Account, fb: Feedback, now: int, policy: Policy)
    requires policy.Valid() && Terminal(l.account.status) && !Relaxes(l, leased, fb, now, policy)
    ensures Terminal(Release(l, leased, fb, now, policy).local.account.status)
  {
  }

  /** A reloaded copy blocks whatever the listed row blocks, whatever it held before. */
  lemma ReloadDominates(l: Option<Local>, row: Account, t: int)
    requires Blocks(row, t)
    ensures LocalBlocks(Reload(l, row), t)
  {
  }

  /** The copy of a freed row is not saved by the deadline it held itself. */
  predicate FreesCopy(l: Local, row: Account, now: int) {
    && FreesActiveRow(row, l.account, now)
    && (l.account.cooldownUntil.None? || l.cooldownTill.None? || l.cooldownTill.value < row.cooldownUntil.value)
  }

  /**
   After release, row merge and reload the copy blocks all that the row blocked, exactly when the merge does not free
   both.
   */
  lemma ReleaseMergeReloadIff(l: Local, leased: Account, fb: Feedback, now: int, policy: Policy, row: Account,
                              written: int)
    ensures var l' := Release(l, leased, fb, now, policy).local;
            var after := Reload(Some(l'), Merge(row, l'.account, written));
            (forall t | t >= written && Blocks(row, t) :: LocalBlocks(after, t)) <==> !FreesCopy(l', row, written)
  {
    MergeReloadIff(Release(l, leased, fb, now, policy).local, row, written);
  }

  lemma MergeReloadIff(l: Local, row: Account, written: int)
    ensures var after := Reload(Some(l), Merge(row, l.account, written));
            (forall t | t >= written && Blocks(row, t) :: LocalBlocks(after, t)) <==> !FreesCopy(l, row, written)
  {
    var merged := Merge(row, l.account, written);
    var after := Reload(Some(l), merged);
    if FreesCopy(l, row, written) {
      var t := row.cooldownUntil.value - 1;
      assert t >= written && Blocks(row, t) && !LocalBlocks(after, t);
    } else {
      MergeNeverEarlierIff(row, l.account, written);
      forall t | t >= written && Blocks(row, t)
        ensures LocalBlocks(after, t)
      {
        if Blocks(merged, t) {
          ReloadDominates(Some(l), merged, t);
        }
      }
    }
  }

  /** A server error replaces a long local deadline by a short one. */
  lemma TransientShortens(l: Local, fb: Feedback, now: int, policy: Policy)
    requires policy.Valid() && fb == Feedback(503, 0, None, true, "upstream status 503") && !Exhausted(l.account.quota)
    requires l.account.status.Cooldown? && l.failures == 0 && l.cooldownTill == Some(now + Backoff(policy, 1) + 2)
    ensures var l' := Release(l, l.account, fb, now, policy).local;
            var t := now + Backoff(policy, 1) + 1;
            LocalBlocks(l, t) && !LocalBlocks(l', t)
  {
  }

  // ---- interleaved runs ----

  /**
   Locals by instance, writes under way, and listings taken but not applied (one per instance: reloads hold a token).
   */
  datatype State = State(row: Account, now: int, locals: map<nat, Local>, writes: seq<Account>, listings: map<nat,
                         Account>)

  datatype Op =
    | Tick(dt: nat)
    | Lease(i: nat)
    | CoolLocally(i: nat, until: int)
    | Feed(i: nat, leased: Account, fb: Feedback)
    | Write(k: nat)
    | FailWrite(k: nat)
    | List(i: nat)
    | Apply(i: nat)
    | Remove(i: nat)

  /** durablyEligibleLocked promotes an account whose cooldown is over; the lease stamps the time. */
  function Leased(l: Local, now: int): Local {
    var a := if l.account.status.Cooldown? && !After(l.cooldownTill, now)
             then l.account.(status := Active, cooldownUntil := None) else l.account;
    l.(account := a.(lastUsedAt := Some(now)), inflight := l.inflight + 1)
  }

  function Cooled(l: Local, until: int): Local {
    l.(cooldownTill := Later(l.cooldownTill, Some(until)), inflight := if l.inflight > 0 then l.inflight - 1 else 0)
  }

  function StepFeed(s: State, i: nat, leased: Account, fb: Feedback, policy: Policy): State
    requires i in s.locals
  {
    var r := Release(s.locals[i], leased, fb, s.now, policy);
    s.(locals := s.locals[i := r.local], writes := s.writes + if r.persist then [r.local.account] else [])
  }

  function Step(s: State, op: Op, policy: Policy): State {
    match op
    case Tick(dt) => s.(now := s.now + dt)
    case Lease(i) => if i in s.locals then s.(locals := s.locals[i := Leased(s.locals[i], s.now)]) else s
    case CoolLocally(i, until) => if i in s.locals then s.(locals := s.locals[i := Cooled(s.locals[i], until)]) else s
    case Feed(i, leased, fb) => if i in s.locals then StepFeed(s, i, leased, fb, policy) else s
    case Write(k) => if k < |s.writes| then s.(row := Merge(s.row, s.writes[k], s.now),
                                               writes := s.writes[..k] + s.writes[k + 1..]) else s
    case FailWrite(k) => if k < |s.writes| then s.(writes := s.writes[..k] + s.writes[k + 1..]) else s
    case List(i) => if i in s.listings then s else s.(listings := s.listings[i := s.row])
    case Apply(i) =>
      if i !in s.listings then s else
      var prior := if i in s.locals then Some(s.locals[i]) else None;
      s.(locals := s.locals[i := Reload(prior, s.listings[i])], listings := s.listings - {i})
    case Remove(i) => s.(locals := s.locals - {i})
  }

  function Run(s: State, ops: seq<Op>, policy: Policy): State {
    if ops == [] then s else Step(Run(s, ops[..|ops| - 1], policy), ops[|ops| - 1], policy)
  }

  /** An active row whose deadline lies ahead: the pool never writes one, an administrator can. */
  predicate ActiveWithDeadline(row: Account, now: int) {
    row.status.Active? && After(row.cooldownUntil, now)
  }

  /** Terminal rows are frozen, and no blocked time is freed. */
  ghost predicate NeverEarlier(s: State, s': State) {
    && s.now <= s'.now
    && (Terminal(s.row.status) ==> s'.row == s.row.(lastUsedAt := s'.row.lastUsedAt))
    && (forall t | t >= s'.now && Blocks(s.row, t) :: Blocks(s'.row, t))
  }

  /**
   A terminal row stays as it was; while its deadline lies ahead, a cooling row is terminal or cools at least as long.
   */
  predicate Kept(row: Account, s: State) {
    && (Terminal(row.status) ==> s.row == row.(lastUsedAt := s.row.lastUsedAt))
    && (row.status.Cooldown? && After(row.cooldownUntil, s.now) ==>
          Terminal(s.row.status) || (s.row.status.Cooldown? && After(s.row.cooldownUntil, row.cooldownUntil.value - 1)))
  }

  lemma StepKept(row: Account, s: State, op: Op, policy: Policy)
    requires Kept(row, s)
    ensures Kept(row, Step(s, op, policy)) && s.now <= Step(s, op, policy).now
  {
    if !op.Write? {
      assert Step(s, op, policy).row == s.row;
    }
  }

  lemma {:induction false} RunKept(s: State, ops: seq<Op>, policy: Policy)
    ensures Kept(s.row, Run(s, ops, policy)) && s.now <= Run(s, ops, policy).now
  {
    if ops != [] {
      RunKept(s, ops[..|ops| - 1], policy);
      StepKept(s.row, Run(s, ops[..|ops| - 1], policy), ops[|ops| - 1], policy);
    }
  }

  lemma {:induction false} FeedbackNeverEarlier(s: State, ops: seq<Op>, policy: Policy)
    requires !ActiveWithDeadline(s.row, s.now)
    ensures NeverEarlier(s, Run(s, ops, policy))
  {
    RunKept(s, ops, policy);
  }

  /**
   Over every run of leases, feedback, late or failed writes and reloads on any instances, a terminal row stays frozen
   and the row never becomes schedulable earlier: if and only if it is not active with a deadline ahead.
   */
  lemma {:induction false} FeedbackNeverEarlierIff(s: State, policy: Policy)
    ensures (forall ops :: NeverEarlier(s, Run(s, ops, policy))) <==> !ActiveWithDeadline(s.row, s.now)
  {
    if ActiveWithDeadline(s.row, s.now) {
      var i := FreshNumber(s.locals.Keys + s.listings.Keys);
      SuccessFrees(s, i, policy);
    } else {
      forall ops
        ensures NeverEarlier(s, Run(s, ops, policy))
      {
        FeedbackNeverEarlier(s, ops, policy);
      }
    }
  }

  /** A success that also reports an unlimited quota. */
  const SUCCESS := Feedback.Feedback(200, 0, Some(Quota(0, 0, true, 0, 0, true, None, None)), false, "")

  /**
   A new instance loads the row, and a request on it succeeds.  Acquire refuses an account whose deadline lies ahead, so
   the request is a probe, which ignores deadlines.
   */
  function FreeingRun(s: State, i: nat): seq<Op> {
    [List(i), Apply(i), Lease(i), Feed(i, Leased(Reload(None, s.row), s.now).account, SUCCESS), Write(|s.writes|)]
  }

  lemma {:induction false} SuccessFrees(s: State, i: nat, policy: Policy)
    requires ActiveWithDeadline(s.row, s.now) && i !in s.locals && i !in s.listings
    ensures !NeverEarlier(s, Run(s, FreeingRun(s, i), policy))
  {
    var l := Leased(Reload(None, s.row), s.now);
    var s3 := LoadedAndLeased(s, i, policy);
    var s4 := Step(s3, Feed(i, l.account, SUCCESS), policy);
    SuccessClears(l, s.now, policy);
    var p := Release(l, l.account, SUCCESS, s.now, policy).local.account;
    assert s4.writes == s.writes + [p] && s4.row == s.row && s4.now == s.now;
    var s5 := Step(s4, Write(|s.writes|), policy);
    assert s5.row == Merge(s.row, p, s.now);
    RunFive(s, List(i), Apply(i), Lease(i), Feed(i, l.account, SUCCESS), Write(|s.writes|), policy);
    var t := s.row.cooldownUntil.value - 1;
    assert t >= s5.now && Blocks(s.row, t) && !Blocks(s5.row, t);
  }

  lemma LoadedAndLeased(s: State, i: nat, policy: Policy) returns (r: State)
    requires i !in s.locals && i !in s.listings
    ensures r == Step(Step(Step(s, List(i), policy), Apply(i), policy), Lease(i), policy)
    ensures r.row == s.row && r.writes == s.writes && r.now == s.now
    ensures i in r.locals && r.locals[i] == Leased(Reload(None, s.row), s.now)
  {
    var s2 := Step(Step(s, List(i), policy), Apply(i), policy);
    assert s2.locals[i] == Reload(None, s.row) && s2.row == s.row;
    r := Step(s2, Lease(i), policy);
  }

  lemma SuccessClears(l: Local, now: int, policy: Policy)
    requires l.account.status.Active?
    ensures var r := Release(l, l.account, SUCCESS, now, policy);
            && r.persist && r.local.account.status.Active? && r.local.account.cooldownUntil.None?
            && SameCredentials(r.local.account, l.account)
  {
  }

  lemma {:induction false} RunFive(s: State, a: Op, b: Op, c: Op, d: Op, e: Op, policy: Policy)
    ensures Run(s, [a, b, c, d, e], policy) ==
            Step(Step(Step(Step(Step(s, a, policy), b, policy), c, policy), d, policy), e, policy)
  {
    assert [a][..0] == [] && [a, b][..1] == [a] && [a, b, c][..2] == [a, b] && [a, b, c, d][..3] == [a, b, c];
    assert [a, b, c, d, e][..4] == [a, b, c, d];
    assert Run(s, [a], policy) == Step(s, a, policy);
    assert Run(s, [a, b], policy) == Step(Step(s, a, policy), b, policy);
    assert Run(s, [a, b, c], policy) == Step(Step(Step(s, a, policy), b, policy), c, policy);
  }

  // ---- what the pool itself writes ----

  ghost predicate AllClean(s: State) {
    && Clean(s.row)
    && (forall i | i in s.locals :: Clean(s.locals[i].account))
    && (forall k | 0 <= k < |s.writes| :: Clean(s.writes[k]))
    && (forall i | i in s.listings :: Clean(s.listings[i]))
  }

  lemma ReleaseClean(l: Local, leased: Account, fb: Feedback, now: int, policy: Policy)
    requires Clean(l.account)
    ensures Clean(Release(l, leased, fb, now, policy).local.account)
  {
  }

  lemma MergeClean(row: Account, p: Account, now: int)
    requires Clean(row) && Clean(p)
    ensures Clean(Merge(row, p, now))
  {
  }

  lemma FeedClean(s: State, i: nat, leased: Account, fb: Feedback, policy: Policy)
    requires AllClean(s) && i in s.locals
    ensures AllClean(StepFeed(s, i, leased, fb, policy))
  {
    ReleaseClean(s.locals[i], leased, fb, s.now, policy);
  }

  lemma StepClean(s: State, op: Op, policy: Policy)
    requires AllClean(s)
    ensures AllClean(Step(s, op, policy))
  {
    match op
    case Feed(i, leased, fb) =>
      if i in s.locals {
        FeedClean(s, i, leased, fb, policy);
      }
    case Write(k) =>
      if k < |s.writes| {
        MergeClean(s.row, s.writes[k], s.now);
      }
    case _ =>
  }

  /** Where no row, copy or write is active with a deadline, no run of the pool ever makes one. */
  lemma {:induction false} PoolKeepsClean(s: State, ops: seq<Op>, policy: Policy)
    requires AllClean(s)
    ensures AllClean(Run(s, ops, policy))
  {
    if ops != [] {
      PoolKeepsClean(s, ops[..|ops| - 1], policy);
      StepClean(Run(s, ops[..|ops| - 1], policy), ops[|ops| - 1], policy);
    }
  }

  // ---- reloads ----

  /** A listing stays as it was taken until it is applied. */
  lemma {:induction false} ListingKept(s: State, ops: seq<Op>, policy: Policy, i: nat)
    requires i in s.listings && Apply(i) !in ops
    ensures var s' := Run(s, ops, policy); i in s'.listings && s'.listings[i] == s.listings[i]
  {
    if ops != [] {
      ListingKept(s, ops[..|ops| - 1], policy, i);
      assert ops[|ops| - 1] in ops;
      ListingStays(Run(s, ops[..|ops| - 1], policy), ops[|ops| - 1], policy, i);
    }
  }

  lemma ListingStays(s: State, op: Op, policy: Policy, i: nat)
    requires i in s.listings && op != Apply(i)
    ensures var s' := Step(s, op, policy); i in s'.listings && s'.listings[i] == s.listings[i]
  {
  }

  /**
   A reload on instance i that lists the row after `first` and applies the listing after `rest` leaves a copy that
   blocks every time the row blocked at the start of the run, whatever was released, written or reloaded meanwhile on
   any instance.
   */
  lemma {:induction false} ReloadedCopyIsAsStrict(s: State, first: seq<Op>, rest: seq<Op>, policy: Policy, i: nat,
                                                  t: int)
    requires !ActiveWithDeadline(s.row, s.now) && Apply(i) !in rest && Blocks(s.row, t)
    ensures var listed := Run(s, first, policy);
            var end := Run(Step(listed, List(i), policy), rest + [Apply(i)], policy);
            i !in listed.listings && t >= listed.now ==>
              i in end.locals && Blocks(listed.row, t) && LocalBlocks(end.locals[i], t)
  {
    var listed := Run(s, first, policy);
    FeedbackNeverEarlier(s, first, policy);
    if i !in listed.listings && t >= listed.now {
      var taken := Step(listed, List(i), policy);
      ListingKept(taken, rest, policy, i);
      var mid := Run(taken, rest, policy);
      assert (rest + [Apply(i)])[..|rest|] == rest;
      ReloadDominates(if i in mid.locals then Some(mid.locals[i]) else None, mid.listings[i], t);
    }
  }

  /** A probe that succeeds on a disabled account revives the copy, not the row: the next reload takes it back. */
  lemma ProbeDoesNotReactivate(l: Local, row: Account, fb: Feedback, now: int, policy: Policy, t: int)
    requires policy.Valid() && l.account == row && row.status.Disabled? && !Exhausted(row.quota)
    requires Succeeded(fb) && fb.quota.None? && fb.status != 429 && !PermanentFailure(fb.status)
    ensures var l' := Release(l, row, fb, now, policy).local;
            && l'.account.status.Active? && !LocalBlocks(l', t)
            && Merge(row, l'.account, now).status.Disabled?
            && LocalBlocks(Reload(Some(l'), Merge(row, l'.account, now)), t)
  {
  }
}
