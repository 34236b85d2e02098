/**
 The coordinated cooldown of one account: a Redis key that holds a deadline in nanoseconds and expires with it, set by
 `SetIfGreater`, and the check every `Acquire` makes before it takes a lease.

 Times are nanoseconds on one clock.  Lua compares numbers as doubles; for today's nanosecond timestamps (between 2^60
 and 2^61) a double is a multiple of 256, ties to even, which is what `Lua` computes.
 */
module Cooldown {

  const MS := 1_000_000
  const GRAIN := 256

  function Lua(x: int): (r: int)
    ensures r % GRAIN == 0 && x - GRAIN / 2 <= r <= x + GRAIN / 2
  {
    var q, rest := x / GRAIN, x % GRAIN;
    if rest < GRAIN / 2 || (rest == GRAIN / 2 && q % 2 == 0) then GRAIN * q else GRAIN * (q + 1)
  }

  lemma LuaMonotone(x: int, y: int)
    requires x <= y
    ensures Lua(x) <= Lua(y)
  {
  }

  function Millis(t: int): int {
    t / MS
  }

  /** The start of the millisecond of t: UnixMilli truncates. */
  function Floor(t: int): int {
    Millis(t) * MS
  }

  datatype Key = Absent | Deadline(until: int, expireAt: int)

  function Visible(key: Key, now: int): Key {
    if key.Deadline? && Millis(now) > key.expireAt then Absent else key
  }

  /** The SetIfGreater script; an expiry that is already past deletes the key. */
  function SetIfGreater(key: Key, until: int, now: int): Key {
    var current := Visible(key, now);
    if current.Deadline? && Lua(current.until) >= Lua(until) then current
    else if Millis(until) <= Millis(now) then Absent
    else Deadline(until, Millis(until))
  }

  /** CooldownUntil: whether the check finds the account cooling. */
  predicate Cooling(key: Key, now: int) {
    var current := Visible(key, now);
    current.Deadline? && current.until > now
  }

  // ---- runs of any number of instances ----

  /** An acquire attempt: when it began (as a step of the run), and what its check said at which time. */
  datatype Attempt = Begun(step: nat) | Blocked(step: nat) | Passed(step: nat, at: int) | Leased(step: nat, at: int)

  datatype State = State(key: Key, now: int, step: nat, attempts: map<nat, Attempt>)

  /** `SetCooldown(until, checked)`: the caller compared `until` with its clock at `checked`, before the script ran. */
  datatype Op =
    | SetCooldown(until: int, checked: int)
    | ClearCooldown
    | Evict
    | Tick(ns: nat)
    | Begin(i: nat)
    | Check(i: nat)
    | Lease(i: nat)

  function StepKey(s: State, op: Op): Key {
    match op
    case SetCooldown(until, checked) => if until <= checked then s.key else SetIfGreater(s.key, until, s.now)
    case ClearCooldown => Absent
    case Evict => if s.key.Deadline? && Millis(s.now) >= s.key.expireAt then Absent else s.key
    case _ => s.key
  }

  function StepAttempts(s: State, op: Op): map<nat, Attempt> {
    match op
    case Begin(i) => s.attempts[i := Begun(s.step)]
    case Check(i) =>
      if i in s.attempts && s.attempts[i].Begun? then
        s.attempts[i := if Cooling(s.key, s.now) then Blocked(s.attempts[i].step)
                        else Passed(s.attempts[i].step, s.now)]
      else s.attempts
    case Lease(i) =>
      if i in s.attempts && s.attempts[i].Passed? then s.attempts[i := Leased(s.attempts[i].step, s.attempts[i].at)]
         else s.attempts
    case _ => s.attempts
  }

  function Step(s: State, op: Op): State {
    State(StepKey(s, op), if op.Tick? then s.now + op.ns else s.now, s.step + 1, StepAttempts(s, op))
  }

  function Run(s: State, ops: seq<Op>): State {
    if ops == [] then s else Step(Run(s, ops[..|ops| - 1]), ops[|ops| - 1])
  }

  predicate Wellformed(key: Key) {
    key.Deadline? ==> key.expireAt == Millis(key.until)
  }

  /** Until it expires or is cleared, the stored deadline never decreases. */
  lemma DeadlineNeverDecreases(s: State, op: Op)
    requires Wellformed(s.key) && !op.ClearCooldown? && s.key.Deadline? && Millis(s.now) < s.key.expireAt
    ensures var key := StepKey(s, op); Wellformed(key) && key.Deadline? && key.until >= s.key.until
  {
    if op.SetCooldown? && op.until > op.checked && Lua(s.key.until) < Lua(op.until) {
      if op.until <= s.key.until {
        LuaMonotone(op.until, s.key.until);
      }
      assert Millis(op.until) >= Millis(s.key.until);
    }
  }

  // ---- every instance sees the cooldown ----

  /** The key holds a deadline whose millisecond starts at B or later. */
  predicate Holds(key: Key, B: int) {
    Wellformed(key) && key.Deadline? && Floor(key.until) >= B
  }

  lemma HoldsMeansCooling(key: Key, B: int, now: int)
    requires Holds(key, B) && now < B
    ensures Millis(now) < key.expireAt && Cooling(key, now)
  {
    assert Floor(key.until) <= key.until;
    assert Millis(now) < Millis(key.until);
  }

  /** Attempts that began after step j passed the check only at or after `bound`. */
  predicate PassedLate(s: State, j: nat, bound: int) {
    forall i | i in s.attempts && (s.attempts[i].Passed? || s.attempts[i].Leased?) && s.attempts[i].step > j ::
      s.attempts[i].at >= bound
  }

  ghost predicate Inv(s: State, B: int, j: nat) {
    j < s.step && PassedLate(s, j, B) && (s.now < B ==> Holds(s.key, B))
  }

  lemma StepKeeps(s: State, op: Op, B: int, j: nat)
    requires Inv(s, B, j) && !op.ClearCooldown?
    ensures Inv(Step(s, op), B, j)
  {
    if s.now < B {
      HoldsMeansCooling(s.key, B, s.now);
      DeadlineNeverDecreases(s, op);
      assert Millis(StepKey(s, op).until) >= Millis(s.key.until);
    }
  }

  predicate NeverCleared(ops: seq<Op>) {
    forall op | op in ops :: !op.ClearCooldown?
  }

  lemma {:induction false} RunKeeps(s: State, ops: seq<Op>, B: int, j: nat)
    requires Inv(s, B, j) && NeverCleared(ops)
    ensures Inv(Run(s, ops), B, j)
  {
    if ops != [] {
      RunKeeps(s, ops[..|ops| - 1], B, j);
      assert ops[|ops| - 1] in ops;
      StepKeeps(Run(s, ops[..|ops| - 1]), ops[|ops| - 1], B, j);
    }
  }

  /** Attempts in a state began before it. */
  predicate BegunBefore(s: State) {
    forall i | i in s.attempts :: s.attempts[i].step < s.step
  }

  /** Some acquire that began after step j was leased on a check made before B. */
  predicate LeasedBefore(s: State, j: nat, B: int) {
    exists i :: i in s.attempts && s.attempts[i].Leased? && s.attempts[i].step > j && s.attempts[i].at < B
  }

  lemma {:induction false} BoundHolds(s: State, D: int, checked: int, B: int, ops: seq<Op>)
    requires Wellformed(s.key) && BegunBefore(s) && NeverCleared(ops)
    requires s.now < B ==> Holds(Step(s, SetCooldown(D, checked)).key, B)
    ensures !LeasedBefore(Run(Step(s, SetCooldown(D, checked)), ops), s.step, B)
  {
    RunKeeps(Step(s, SetCooldown(D, checked)), ops, B, s.step);
  }

  /**
   The visible key already holds a deadline that ends in an earlier millisecond than D but looks no earlier to Lua: the
   script then keeps it.
   */
  predicate Masked(s: State, D: int) {
    var current := Visible(s.key, s.now);
    s.now < Floor(D) && current.Deadline? && Lua(current.until) >= Lua(D) && Floor(current.until) < Floor(D)
  }

  /**
   After SetCooldown(D) returns, and until someone clears the cooldown, no acquire on any instance that begins later and
   checks before D, in whole milliseconds, gets a lease, whatever other cooldowns are set and whenever the server evicts
   expired keys: if and only if the key does not mask D at the call.
   */
  lemma {:induction false} CooldownBindsEveryInstanceIff(s: State, D: int, checked: int)
    requires Wellformed(s.key) && BegunBefore(s) && checked <= s.now && D > checked
    ensures (forall ops | NeverCleared(ops) ::
               !LeasedBefore(Run(Step(s, SetCooldown(D, checked)), ops), s.step, Floor(D))) <==> !Masked(s, D)
  {
    if Masked(s, D) {
      MaskedReleasesEarly(s, D, checked);
      assert LeasedBefore(Run(Step(s, SetCooldown(D, checked)), EarlyRun(s)), s.step, Floor(D));
    } else {
      forall ops | NeverCleared(ops)
        ensures !LeasedBefore(Run(Step(s, SetCooldown(D, checked)), ops), s.step, Floor(D))
      {
        UnmaskedHolds(s, D, checked);
        BoundHolds(s, D, checked, Floor(D), ops);
      }
    }
  }

  lemma UnmaskedHolds(s: State, D: int, checked: int)
    requires Wellformed(s.key) && checked <= s.now && D > checked && !Masked(s, D)
    ensures s.now < Floor(D) ==> Holds(Step(s, SetCooldown(D, checked)).key, Floor(D))
  {
    assert Floor(D) <= D;
    if s.now < Floor(D) {
      assert Millis(s.now) < Millis(D);
    }
  }

  /** Wait for the millisecond of the masking deadline; the server evicts the key, and an acquire passes. */
  function EarlyRun(s: State): seq<Op> {
    var current := Visible(s.key, s.now);
    var wait := if current.Deadline? && Floor(current.until) > s.now then Floor(current.until) - s.now else 0;
    [Tick(wait), Evict, Begin(0), Check(0), Lease(0)]
  }

  lemma MaskedReleasesEarly(s: State, D: int, checked: int)
    requires Wellformed(s.key) && checked <= s.now && D > checked && Masked(s, D)
    ensures LeasedBefore(Run(Step(s, SetCooldown(D, checked)), EarlyRun(s)), s.step, Floor(D)) &&
            NeverCleared(EarlyRun(s))
  {
    var s0, ops := Step(s, SetCooldown(D, checked)), EarlyRun(s);
    var s1 := Step(s0, ops[0]);
    assert s0.key == s.key && Millis(s1.now) >= s.key.expireAt && s1.now < Floor(D) by {
      assert Millis(Floor(s.key.until)) == Millis(s.key.until);
    }
    var s2 := Step(s1, Evict);
    assert s2.key == Absent;
    var s4 := Step(Step(s2, Begin(0)), Check(0));
    assert s4.attempts[0] == Passed(s2.step, s1.now);
    RunFive(s0, ops[0], Evict, Begin(0), Check(0), Lease(0));
    assert Step(s4, Lease(0)).attempts[0] == Leased(s2.step, s1.now);
  }

  lemma {:induction false} RunFive(s: State, a: Op, b: Op, c: Op, d: Op, e: Op)
    ensures Run(s, [a, b, c, d, e]) == Step(Step(Step(Step(Step(s, a), b), c), d), e)
  {
    assert [a][..0] == [] && [a, b][..1] == [a] && [a, b, c][..2] == [a, b] && [a, b, c, d][..3] == [a, b, c];
    assert [a, b, c, d, e][..4] == [a, b, c, d];
    assert Run(s, [a]) == Step(s, a);
    assert Run(s, [a, b]) == Step(Step(s, a), b);
    assert Run(s, [a, b, c]) == Step(Step(Step(s, a), b), c);
  }

  /** Masking takes two deadlines of different milliseconds within one grain of each other. */
  lemma MaskedOnlyWithinGrain(s: State, D: int)
    requires Masked(s, D)
    ensures Floor(D - GRAIN) <= Floor(Visible(s.key, s.now).until) < Floor(D) <= D < Floor(D) + GRAIN
  {
    var u := Visible(s.key, s.now).until;
    LuaWithinGrain(u, D);
    FloorBounds(u);
    FloorBounds(D);
    FloorMonotone(D - GRAIN, u);
    FloorStep(u, D);
  }

  lemma FloorStep(a: int, b: int)
    requires Floor(a) < Floor(b)
    ensures Floor(a) + MS <= Floor(b)
  {
    assert Millis(a) + 1 <= Millis(b);
  }

  lemma LuaWithinGrain(u: int, D: int)
    requires Lua(u) >= Lua(D)
    ensures u >= D - GRAIN
  {
  }

  lemma FloorBounds(t: int)
    ensures Floor(t) <= t < Floor(t) + MS
  {
  }

  lemma FloorMonotone(a: int, b: int)
    requires a <= b
    ensures Floor(a) <= Floor(b)
  {
  }

  /** Masked or not, the cooldown binds up to D less one grain, in whole milliseconds. */
  lemma {:induction false} CooldownBindsUpToGrain(s: State, D: int, checked: int, ops: seq<Op>)
    requires Wellformed(s.key) && BegunBefore(s) && checked <= s.now && D > checked && NeverCleared(ops)
    ensures !LeasedBefore(Run(Step(s, SetCooldown(D, checked)), ops), s.step, Floor(D - GRAIN))
  {
    if s.now < Floor(D - GRAIN) {
      assert Floor(D - GRAIN) <= D - GRAIN;
      assert Millis(s.now) < Millis(D - GRAIN) <= Millis(D);
      var u := Step(s, SetCooldown(D, checked)).key.until;
      assert u >= D - GRAIN;
      assert Millis(u) >= Millis(D - GRAIN);
    }
    BoundHolds(s, D, checked, Floor(D - GRAIN), ops);
  }

  /** A deadline that the run was asked for, or that the key held at its start. */
  predicate Given(s: State, ops: seq<Op>, until: int) {
    || (s.key.Deadline? && s.key.until == until)
    || exists i :: 0 <= i < |ops| && ops[i].SetCooldown? && ops[i].until == until && ops[i].until > ops[i].checked
  }

  lemma {:induction false} DeadlineWasGiven(s: State, ops: seq<Op>)
    requires Run(s, ops).key.Deadline?
    ensures Given(s, ops, Run(s, ops).key.until)
  {
    if ops != [] {
      var init, op := ops[..|ops| - 1], ops[|ops| - 1];
      if StepKey(Run(s, init), op) == Run(s, init).key {
        DeadlineWasGiven(s, init);
        assert forall i | 0 <= i < |init| :: init[i] == ops[i];
      } else {
        assert ops[|ops| - 1] == op;
      }
    }
  }

  /**
   A cooldown ends: after any run, an acquire is turned away only before some deadline that was set in the run, or that
   the key held at its start; once the latest of them is past, nobody is turned away.
   */
  lemma {:induction false} CooldownEnds(s: State, ops: seq<Op>, now: int)
    requires forall until | Given(s, ops, until) :: until <= now
    ensures !Cooling(Run(s, ops).key, now)
  {
    if Run(s, ops).key.Deadline? {
      DeadlineWasGiven(s, ops);
    }
  }

  /** Masking happens: D at the start of a millisecond, and a deadline one nanosecond before it. */
  lemma MaskingHappens()
    ensures var D := 1_700_000_000_000_000_000; Masked(State(Deadline(D - 1, Millis(D - 1)), D - MS, 0, map[]), D)
  {
  }

  // ---- the object ----

  /** The key itself: its value and expiry change in place. */
  class CooldownKey {
    var present: bool
    var until: int
    var expireAt: int

    ghost function Value(): Key
      reads this
    {
      if present then Deadline(until, expireAt) else Absent
    }

    constructor ()
      ensures Value() == Absent
    {
      present, until, expireAt := false, 0, 0;
    }

    /** GET, the comparison, SET and PEXPIREAT; the result says whether the value was replaced. */
    method Advance(candidate: int, now: int) returns (updated: bool)
      modifies this
      ensures Value() == SetIfGreater(old(Value()), candidate, now)
      ensures !updated <==> Visible(old(Value()), now).Deadline? && Lua(old(until)) >= Lua(candidate)
    {
      if present && Millis(now) > expireAt {
        present := false;
      }
      if present && Lua(until) >= Lua(candidate) {
        return false;
      }
      present, until, expireAt := true, candidate, Millis(candidate);
      if expireAt <= Millis(now) {
        present := false;
      }
      updated := true;
    }

    /** CooldownUntil: the deadline, if it is still ahead. */
    method CooldownUntil(now: int) returns (cooling: bool, deadline: int)
      ensures cooling == Cooling(Value(), now) && (cooling ==> deadline == until)
    {
      cooling, deadline := present && Millis(now) <= expireAt && until > now, until;
    }

    method ClearCooldown()
      modifies this
      ensures Value() == Absent
    {
      present := false;
    }
  }
}
