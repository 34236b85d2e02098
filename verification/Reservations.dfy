/**
 Local reservations and coordinated slots through every interleaving of Acquire, AcquireForProbe, Release, Reload and
 RemoveAccounts on one instance.

 An attempt is one reservation of one account: a round of Acquire or a probe.  It moves through phases; between any two
 of its steps other attempts, reloads and removals may run.
 */
module Reservations {

  import opened Numbers

  /** `slot` tells that the attempt knows it owns a coordinated slot. */
  datatype Phase =
    | Reserved
    | Slotted(slot: bool)
    | Unwinding(slot: bool)
    | Leased(slot: bool)
    | Returning
    | Gone

  datatype Attempt = Attempt(account: string, phase: Phase)

  datatype Entry = Entry(inflight: nat, limit: int)

  /**
   The pool's counters and effective limits, the attempts, and the owners in the lease sets.  History: owners left
   behind by a lost reply or a failed release.
   */
  datatype State = State(pool: map<string, Entry>, attempts: map<nat, Attempt>, owners: set<nat>, orphans: set<nat>)

  /** `executed` tells whether the server ran a command whose reply was lost. */
  datatype Reply = Yes | No | Lost(executed: bool)

  datatype Op =
    | Reserve(k: nat, account: string)
    | Abandon(k: nat)
    | SlotReply(k: nat, reply: Reply)
    | NoCoordinator(k: nat)
    | Fail(k: nat)
    | Rollback(k: nat)
    | HandOut(k: nat)
    | Release(k: nat)
    | ReturnSlot(k: nat, reply: Reply)
    | Expire(k: nat)
    | Reload(listing: map<string, int>)
    | Remove(accounts: set<string>)

  function Decremented(pool: map<string, Entry>, a: string): map<string, Entry> {
    if a in pool && pool[a].inflight > 0 then pool[a := pool[a].(inflight := pool[a].inflight - 1)] else pool
  }

  function Incremented(pool: map<string, Entry>, a: string): map<string, Entry> {
    if a in pool then pool[a := pool[a].(inflight := pool[a].inflight + 1)] else pool
  }

  /** The pool after a listing of effective limits. */
  function Relisted(pool: map<string, Entry>, listing: map<string, int>): map<string, Entry> {
    map a | a in listing :: Entry(if a in pool then pool[a].inflight else 0, listing[a])
  }

  function Move(s: State, k: nat, phase: Phase): State
    requires k in s.attempts
  {
    s.(attempts := s.attempts[k := s.attempts[k].(phase := phase)])
  }

  predicate In(s: State, k: nat, phase: Phase) {
    k in s.attempts && s.attempts[k].phase == phase
  }

  function StepReserve(s: State, k: nat, a: string): State {
    if k !in s.attempts && a in s.pool && s.pool[a].inflight < s.pool[a].limit
    then s.(pool := Incremented(s.pool, a), attempts := s.attempts[k := Attempt(a, Reserved)])
    else s
  }

  function StepSlot(s: State, k: nat, reply: Reply): State {
    if !In(s, k, Reserved) then s else
    match reply
    case Yes => Move(s, k, Slotted(true)).(owners := s.owners + {k})
    case No => Move(s, k, Unwinding(false))
    case Lost(false) => Move(s, k, Unwinding(false))
    case Lost(true) => Move(s, k, Unwinding(false)).(owners := s.owners + {k}, orphans := s.orphans + {k})
  }

  /** The local decrement, then the slot is still to be returned. */
  function GiveBack(s: State, k: nat, slot: bool): State
    requires k in s.attempts
  {
    Move(s, k, if slot then Returning else Gone).(pool := Decremented(s.pool, s.attempts[k].account))
  }

  function StepReturn(s: State, k: nat, reply: Reply): State {
    if !In(s, k, Returning) then s else
    var done := Move(s, k, Gone);
    if reply.Yes? || reply == Lost(true) then done.(owners := s.owners - {k}) else done.(orphans := s.orphans + {k})
  }

  function Step(s: State, op: Op): State {
    match op
    case Reserve(k, a) => StepReserve(s, k, a)
    case Abandon(k) => if In(s, k, Reserved) then Move(s, k, Unwinding(false)) else s
    case SlotReply(k, reply) => StepSlot(s, k, reply)
    case NoCoordinator(k) => if In(s, k, Reserved) then Move(s, k, Slotted(false)) else s
    case Fail(k) =>
      if k in s.attempts && s.attempts[k].phase.Slotted? then Move(s, k, Unwinding(s.attempts[k].phase.slot)) else s
    case Rollback(k) =>
      if k in s.attempts && s.attempts[k].phase.Unwinding? then GiveBack(s, k, s.attempts[k].phase.slot) else s
    case HandOut(k) =>
      if k in s.attempts && s.attempts[k].phase.Slotted? then Move(s, k, Leased(s.attempts[k].phase.slot)) else s
    case Release(k) =>
      if k in s.attempts && s.attempts[k].phase.Leased? then GiveBack(s, k, s.attempts[k].phase.slot) else s
    case ReturnSlot(k, reply) => StepReturn(s, k, reply)
    case Expire(k) => s.(owners := s.owners - {k})
    case Reload(listing) => s.(pool := Relisted(s.pool, listing))
    case Remove(accounts) => s.(pool := s.pool - accounts)
  }

  const EMPTY := State(map[], map[], {}, {})

  function Run(ops: seq<Op>): State {
    if ops == [] then EMPTY else Step(Run(ops[..|ops| - 1]), ops[|ops| - 1])
  }

  // ---- what is held ----

  /** Pending reservations and unreleased leases. */
  predicate Holds(phase: Phase) {
    phase.Reserved? || phase.Slotted? || phase.Unwinding? || phase.Leased?
  }

  function Holders(attempts: map<nat, Attempt>, a: string): set<nat> {
    set k | k in attempts && attempts[k].account == a && Holds(attempts[k].phase)
  }

  predicate OwnsSlot(phase: Phase) {
    ((phase.Slotted? || phase.Unwinding? || phase.Leased?) && phase.slot) || phase.Returning?
  }

  /** The counter of an account; 0 for one the pool does not know. */
  function Counter(s: State, a: string): nat {
    if a in s.pool then s.pool[a].inflight else 0
  }

  ghost predicate Counted(s: State, a: string) {
    Counter(s, a) <= |Holders(s.attempts, a)|
  }

  ghost predicate Conserved(s: State) {
    forall a :: Counted(s, a)
  }

  /** Every owner belongs to an attempt that will return it, or was left behind. */
  ghost predicate Accounted(s: State) {
    forall k | k in s.owners :: k in s.orphans || (k in s.attempts && OwnsSlot(s.attempts[k].phase))
  }

  lemma HoldersAfter(attempts: map<nat, Attempt>, k: nat, x: Attempt, a: string)
    ensures Holders(attempts[k := x], a) == if x.account == a && Holds(x.phase) then Holders(attempts, a) + {k}
                                            else Holders(attempts, a) - {k}
  {
  }

  lemma ReserveKeeps(s: State, k: nat, account: string, a: string)
    requires Counted(s, a) && k !in s.attempts
    ensures Counted(StepReserve(s, k, account), a)
  {
    HoldersAfter(s.attempts, k, Attempt(account, Reserved), a);
    assert k !in Holders(s.attempts, a);
  }

  /** A step that neither takes nor gives back leaves the holders alone. */
  lemma MoveKeeps(s: State, k: nat, phase: Phase, a: string)
    requires k in s.attempts && Holds(s.attempts[k].phase) == Holds(phase)
    ensures Holders(Move(s, k, phase).attempts, a) == Holders(s.attempts, a)
  {
    HoldersAfter(s.attempts, k, s.attempts[k].(phase := phase), a);
  }

  lemma GiveBackKeeps(s: State, k: nat, slot: bool, a: string)
    requires Counted(s, a) && k in s.attempts && Holds(s.attempts[k].phase)
    ensures Counted(GiveBack(s, k, slot), a)
  {
    HoldersAfter(s.attempts, k, s.attempts[k].(phase := if slot then Returning else Gone), a);
    assert k in Holders(s.attempts, a) <==> s.attempts[k].account == a;
  }

  lemma SlotKeeps(s: State, k: nat, reply: Reply, a: string)
    requires Counted(s, a)
    ensures Counted(StepSlot(s, k, reply), a)
  {
    if In(s, k, Reserved) {
      MoveKeeps(s, k, if reply.Yes? then Slotted(true) else Unwinding(false), a);
    }
  }

  lemma ReturnKeeps(s: State, k: nat, reply: Reply, a: string)
    requires Counted(s, a)
    ensures Counted(StepReturn(s, k, reply), a)
  {
    if In(s, k, Returning) {
      MoveKeeps(s, k, Gone, a);
    }
  }

  lemma StepCounted(s: State, op: Op, a: string)
    requires Counted(s, a)
    ensures Counted(Step(s, op), a)
  {
    match op
    case Reserve(k, account) => if k !in s.attempts { ReserveKeeps(s, k, account, a); }
    case Abandon(k) => if In(s, k, Reserved) { MoveKeeps(s, k, Unwinding(false), a); }
    case SlotReply(k, reply) => SlotKeeps(s, k, reply, a);
    case NoCoordinator(k) => if In(s, k, Reserved) { MoveKeeps(s, k, Slotted(false), a); }
    case Fail(k) =>
      if k in s.attempts && s.attempts[k].phase.Slotted? {
        MoveKeeps(s, k, Unwinding(s.attempts[k].phase.slot), a);
      }
    case Rollback(k) =>
      if k in s.attempts && s.attempts[k].phase.Unwinding? {
        GiveBackKeeps(s, k, s.attempts[k].phase.slot, a);
      }
    case HandOut(k) =>
      if k in s.attempts && s.attempts[k].phase.Slotted? {
        MoveKeeps(s, k, Leased(s.attempts[k].phase.slot), a);
      }
    case Release(k) =>
      if k in s.attempts && s.attempts[k].phase.Leased? {
        GiveBackKeeps(s, k, s.attempts[k].phase.slot, a);
      }
    case ReturnSlot(k, reply) => ReturnKeeps(s, k, reply, a);
    case Expire(k) =>
    case Reload(listing) =>
    case Remove(accounts) =>
  }

  lemma StepAccounted(s: State, op: Op)
    requires Accounted(s)
    ensures Accounted(Step(s, op))
  {
  }

  /**
   In every reachable state and for every account: the counter never exceeds the pending reservations plus the
   unreleased leases; and every owner in a lease set is on its way back or was left behind by a lost reply or a failed
   release.
   */
  lemma {:induction false} ReservationsAreConserved(ops: seq<Op>)
    ensures Conserved(Run(ops)) && Accounted(Run(ops))
  {
    if ops != [] {
      var before := Run(ops[..|ops| - 1]);
      ReservationsAreConserved(ops[..|ops| - 1]);
      StepAccounted(before, ops[|ops| - 1]);
      forall a
        ensures Counted(Run(ops), a)
      {
        assert Counted(before, a);
        StepCounted(before, ops[|ops| - 1], a);
      }
    }
  }

  // ---- when the counter is exact ----

  /** The counter equals the pending reservations plus the unreleased leases. */
  ghost predicate Exact(s: State, a: string) {
    Counter(s, a) == |Holders(s.attempts, a)|
  }

  /** A reload or a removal drops the account while its counter is positive. */
  predicate DropsBusy(s: State, op: Op, a: string) {
    Counter(s, a) > 0 &&
    match op
    case Reload(listing) => a !in listing
    case Remove(accounts) => a in accounts
    case _ => false
  }

  lemma ReserveExact(s: State, k: nat, account: string, a: string)
    requires Exact(s, a)
    ensures Exact(StepReserve(s, k, account), a)
  {
    HoldersAfter(s.attempts, k, Attempt(account, Reserved), a);
    assert k !in s.attempts ==> k !in Holders(s.attempts, a);
  }

  lemma GiveBackExact(s: State, k: nat, slot: bool, a: string)
    requires Exact(s, a) && k in s.attempts && Holds(s.attempts[k].phase)
    ensures Exact(GiveBack(s, k, slot), a)
  {
    var holders := Holders(s.attempts, a);
    HoldersAfter(s.attempts, k, s.attempts[k].(phase := if slot then Returning else Gone), a);
    assert Holders(GiveBack(s, k, slot).attempts, a) == holders - {k};
    if s.attempts[k].account == a {
      assert k in holders && |holders - {k}| == |holders| - 1;
    } else {
      assert k !in holders && holders - {k} == holders;
    }
  }

  /** The steps that neither take nor give back a reservation. */
  predicate Neutral(op: Op) {
    !op.Reserve? && !op.Rollback? && !op.Release? && !op.Reload? && !op.Remove?
  }

  lemma NeutralKeeps(s: State, op: Op, a: string)
    requires Neutral(op)
    ensures Step(s, op).pool == s.pool && Holders(Step(s, op).attempts, a) == Holders(s.attempts, a)
  {
  }

  /** An exact counter stays exact, unless the account is dropped while it is busy. */
  lemma StepExact(s: State, op: Op, a: string)
    requires Exact(s, a)
    ensures Exact(Step(s, op), a) <==> !DropsBusy(s, op, a)
  {
    match op
    case Reserve(k, account) => ReserveExact(s, k, account, a);
    case Rollback(k) =>
      if k in s.attempts && s.attempts[k].phase.Unwinding? {
        GiveBackExact(s, k, s.attempts[k].phase.slot, a);
      }
    case Release(k) =>
      if k in s.attempts && s.attempts[k].phase.Leased? {
        GiveBackExact(s, k, s.attempts[k].phase.slot, a);
      }
    case Reload(listing) =>
    case Remove(accounts) =>
    case _ => NeutralKeeps(s, op, a);
  }

  // ---- what holds throughout a run ----

  ghost predicate Throughout(ops: seq<Op>, ok: State -> bool) {
    forall i | 0 <= i <= |ops| :: ok(Run(ops[..i]))
  }

  ghost predicate Never(ops: seq<Op>, bad: (State, Op) -> bool) {
    forall i | 0 <= i < |ops| :: !bad(Run(ops[..i]), ops[i])
  }

  lemma {:induction false} ThroughoutLast(ops: seq<Op>, ok: State -> bool)
    requires ops != []
    ensures Throughout(ops, ok) <==> Throughout(ops[..|ops| - 1], ok) && ok(Run(ops))
  {
    var init := ops[..|ops| - 1];
    assert ops[..|ops|] == ops;
    assert forall i | 0 <= i < |ops| :: ops[..i] == init[..i];
  }

  lemma {:induction false} NeverLast(ops: seq<Op>, bad: (State, Op) -> bool)
    requires ops != []
    ensures Never(ops, bad) <==> Never(ops[..|ops| - 1], bad) && !bad(Run(ops[..|ops| - 1]), ops[|ops| - 1])
  {
    var init := ops[..|ops| - 1];
    assert forall i | 0 <= i < |init| :: ops[..i] == init[..i] && ops[i] == init[i];
  }

  /** What exactly the bad steps break holds throughout a run if and only if the run has none. */
  lemma {:induction false} ThroughoutIff(ops: seq<Op>, ok: State -> bool, bad: (State, Op) -> bool)
    requires ok(EMPTY) && forall s, op | ok(s) :: ok(Step(s, op)) <==> !bad(s, op)
    ensures Throughout(ops, ok) <==> Never(ops, bad)
  {
    if ops != [] {
      var init := ops[..|ops| - 1];
      ThroughoutIff(init, ok, bad);
      ThroughoutLast(ops, ok);
      NeverLast(ops, bad);
      assert init[..|init|] == init;
    }
  }

  /**
   The counter of an account equals its pending reservations plus its unreleased leases in every state of a run, if and
   only if every reload or removal that drops the account finds its counter at zero.
   */
  lemma {:induction false} CounterIsExactIff(ops: seq<Op>, a: string)
    ensures (forall i | 0 <= i <= |ops| :: Exact(Run(ops[..i]), a)) <==>
            (forall i | 0 <= i < |ops| :: !DropsBusy(Run(ops[..i]), ops[i], a))
  {
    assert Exact(EMPTY, a) by {
      assert Holders(EMPTY.attempts, a) == {};
    }
    forall s, op | Exact(s, a)
      ensures Exact(Step(s, op), a) <==> !DropsBusy(s, op, a)
    {
      StepExact(s, op, a);
    }
    ThroughoutIff(ops, (s: State) => Exact(s, a), (s: State, op: Op) => DropsBusy(s, op, a));
  }

  // ---- when the counter stays within the limit ----

  predicate WithinLimit(s: State, a: string) {
    a in s.pool ==> s.pool[a].inflight <= Max(0, s.pool[a].limit)
  }

  /** A reload puts the limit below the counter. */
  predicate CutsBusy(s: State, op: Op, a: string) {
    op.Reload? && a in op.listing && Counter(s, a) > Max(0, op.listing[a])
  }

  lemma StepWithinLimit(s: State, op: Op, a: string)
    requires WithinLimit(s, a)
    ensures WithinLimit(Step(s, op), a) <==> !CutsBusy(s, op, a)
  {
  }

  /**
   The counter stays within the effective limit in every state of a run, if and only if no reload cuts the limit below
   the counter.
   */
  lemma {:induction false} CounterWithinLimitIff(ops: seq<Op>, a: string)
    ensures (forall i | 0 <= i <= |ops| :: WithinLimit(Run(ops[..i]), a)) <==>
            (forall i | 0 <= i < |ops| :: !CutsBusy(Run(ops[..i]), ops[i], a))
  {
    forall s, op | WithinLimit(s, a)
      ensures WithinLimit(Step(s, op), a) <==> !CutsBusy(s, op, a)
    {
      StepWithinLimit(s, op, a);
    }
    ThroughoutIff(ops, (s: State) => WithinLimit(s, a), (s: State, op: Op) => CutsBusy(s, op, a));
  }

  // ---- what a failed attempt leaves ----

  /** Step i of the run left the slot of attempt k behind: its grant went unheard, or its return was not executed. */
  predicate LeftBehind(ops: seq<Op>, i: nat, k: nat)
    requires i < |ops|
  {
    LeavesBehind(Run(ops[..i]), ops[i], k)
  }

  predicate LeavesBehind(s: State, op: Op, k: nat) {
    || (op == SlotReply(k, Lost(true)) && In(s, k, Reserved))
    || ((op == ReturnSlot(k, No) || op == ReturnSlot(k, Lost(false))) && In(s, k, Returning))
  }

  lemma OrphanedBy(s: State, op: Op, k: nat)
    ensures k in Step(s, op).orphans <==> k in s.orphans || LeavesBehind(s, op, k)
  {
  }

  /** Orphans are exactly the attempts whose slot some step left behind. */
  lemma {:induction false} OrphansWereLeftBehind(ops: seq<Op>, k: nat)
    ensures k in Run(ops).orphans <==> exists i | 0 <= i < |ops| :: LeftBehind(ops, i, k)
  {
    if ops != [] {
      var n := |ops| - 1;
      var init := ops[..n];
      OrphansWereLeftBehind(init, k);
      forall i | 0 <= i < n
        ensures LeftBehind(ops, i, k) <==> LeftBehind(init, i, k)
      {
        assert init[..i] == ops[..i];
      }
      OrphanedBy(Run(init), ops[n], k);
      assert Run(ops) == Step(Run(init), ops[n]);
      assert k in Run(ops).orphans <==> k in Run(init).orphans || LeftBehind(ops, n, k);
    }
  }

  /**
   Unless it expires, the slot of attempt k is taken exactly while the attempt knows it, or after it was left behind.
   */
  predicate SlotKept(s: State, k: nat) {
    && (k in s.orphans ==> In(s, k, Unwinding(false)) || In(s, k, Gone))
    && (k in s.owners <==> k in s.orphans || (k in s.attempts && OwnsSlot(s.attempts[k].phase)))
  }

  lemma StepSlotKept(s: State, op: Op, k: nat)
    requires SlotKept(s, k) && op != Expire(k)
    ensures SlotKept(Step(s, op), k)
  {
  }

  lemma {:induction false} RunSlotKept(ops: seq<Op>, k: nat)
    requires Expire(k) !in ops
    ensures SlotKept(Run(ops), k)
  {
    if ops != [] {
      RunSlotKept(ops[..|ops| - 1], k);
      StepSlotKept(Run(ops[..|ops| - 1]), ops[|ops| - 1], k);
    }
  }

  /**
   An attempt that has run its course holds no reservation; and unless its slot expired, it holds a slot if and only if
   the reply to its request was lost after the server granted it, or the return of the slot was not executed.
   */
  lemma {:induction false} FailureLeavesSlotIff(ops: seq<Op>, k: nat)
    requires In(Run(ops), k, Gone) && Expire(k) !in ops
    ensures forall a :: k !in Holders(Run(ops).attempts, a)
    ensures k in Run(ops).owners <==> exists i | 0 <= i < |ops| :: LeftBehind(ops, i, k)
  {
    RunSlotKept(ops, k);
    OrphansWereLeftBehind(ops, k);
  }

  /** When every attempt has run its course, every counter is zero and only orphans are left in the lease sets. */
  lemma {:induction false} QuiescenceIsEmpty(ops: seq<Op>)
    requires forall k | k in Run(ops).attempts :: Run(ops).attempts[k].phase.Gone?
    ensures forall a | a in Run(ops).pool :: Run(ops).pool[a].inflight == 0
    ensures Run(ops).owners <= Run(ops).orphans
  {
    var s := Run(ops);
    ReservationsAreConserved(ops);
    forall a | a in s.pool
      ensures s.pool[a].inflight == 0
    {
      assert Counted(s, a);
      assert Holders(s.attempts, a) == {};
    }
  }

  // ---- releasing twice ----

  function RunFrom(s: State, ops: seq<Op>): State {
    if ops == [] then s else Step(RunFrom(s, ops[..|ops| - 1]), ops[|ops| - 1])
  }

  predicate PastLease(s: State, k: nat) {
    k in s.attempts && (s.attempts[k].phase.Returning? || s.attempts[k].phase.Gone?)
  }

  lemma StepPastLease(s: State, op: Op, k: nat)
    requires PastLease(s, k)
    ensures PastLease(Step(s, op), k)
  {
  }

  /** Once released, a lease can never again be released with any effect, whatever happens in between. */
  lemma {:induction false} SecondReleaseChangesNothing(s: State, k: nat, ops: seq<Op>)
    requires k in s.attempts && s.attempts[k].phase.Leased?
    ensures var later := RunFrom(Step(s, Release(k)), ops); PastLease(later, k) && Step(later, Release(k)) == later
  {
    if ops != [] {
      SecondReleaseChangesNothing(s, k, ops[..|ops| - 1]);
      StepPastLease(RunFrom(Step(s, Release(k)), ops[..|ops| - 1]), ops[|ops| - 1], k);
    }
  }

  // ---- runs that reach the edges ----

  /** An account dropped and listed again while leased counts one lease less. */
  lemma DroppingLosesCount()
    ensures var s := Run([Reload(map["a" := 2]), Reserve(0, "a"), Remove({"a"}), Reload(map["a" := 2])]);
            "a" in s.pool && s.pool["a"].inflight == 0 && 0 in Holders(s.attempts, "a")
  {
    var listing := map["a" := 2];
    var s1 := Step(EMPTY, Reload(listing));
    var s2 := Step(s1, Reserve(0, "a"));
    var s3 := Step(s2, Remove({"a"}));
    RunFour(Reload(listing), Reserve(0, "a"), Remove({"a"}), Reload(listing));
    assert s2.pool["a"].inflight == 1 && 0 in Holders(s2.attempts, "a");
    assert "a" !in s3.pool && s3.attempts == s2.attempts;
  }

  lemma RunFour(a: Op, b: Op, c: Op, d: Op)
    ensures Run([a, b, c, d]) == Step(Step(Step(Step(EMPTY, a), b), c), d)
  {
    assert [a][..0] == [] && [a, b][..1] == [a] && [a, b, c][..2] == [a, b] && [a, b, c, d][..3] == [a, b, c];
    assert Run([a]) == Step(EMPTY, a);
    assert Run([a, b]) == Step(Step(EMPTY, a), b);
    assert Run([a, b, c]) == Step(Step(Step(EMPTY, a), b), c);
  }

  /** The reply to a slot request is lost: the attempt fails and its slot stays taken until it expires. */
  lemma LostReplyLeavesOwner(s: State, k: nat)
    requires In(s, k, Reserved)
    ensures var failed := Step(Step(s, SlotReply(k, Lost(true))), Rollback(k));
            In(failed, k, Gone) && k in failed.owners
  {
  }
}
