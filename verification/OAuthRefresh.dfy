/**
 Refreshing the OAuth credentials of one account from several callers: a Redis lock with a time to live, a reload after
 locking, one exchange with the provider and one save.

 Credentials are numbers; a new number stands for credentials the provider, or an administrator, has never issued
 before.
 */
module OAuthRefresh {

  import opened Options

  datatype Result = Newer(credentials: nat) | Unchanged | Updated(credentials: nat) | Failed

  datatype Pc =
    | Waiting
    | Locked(deadline: int)
    | Ready(deadline: int)
    | Exchanged(deadline: int, updated: nat)
    | Leaving(result: Result)
    | Done(result: Result)

  /**
   `initial` was loaded before locking; `behind` is history: had the stored credentials changed when the lock was won?
   */
  datatype Caller = Caller(initial: nat, behind: bool, pc: Pc)

  datatype Lock = Lock(owner: nat, expireAt: int)

  /** History: credentials ever stored, successful exchanges and failed saves by the credentials they started from. */
  datatype State = State(now: int, lock: Option<Lock>, stored: nat, next: nat, callers: map<nat, Caller>,
                         past: set<nat>, exchanges: map<nat, nat>, failedSaves: map<nat, nat>)

  datatype Op =
    | Tick(dt: nat)
    | Load(p: nat)
    | TryLock(p: nat)
    | Reload(p: nat)
    | NotDue(p: nat)
    | Fail(p: nat)
    | Exchange(p: nat)
    | Save(p: nat, executed: bool, reported: bool)
    | Unlock(p: nat, executed: bool)
    | Replace

  function Count(m: map<nat, nat>, k: nat): nat {
    if k in m then m[k] else 0
  }

  function Set(s: State, p: nat, pc: Pc): State
    requires p in s.callers
  {
    s.(callers := s.callers[p := s.callers[p].(pc := pc)])
  }

  /** Between winning the lock and the end of the save. */
  predicate Critical(pc: Pc) {
    pc.Locked? || pc.Ready? || pc.Exchanged?
  }

  predicate Free(s: State) {
    s.lock.None? || s.now >= s.lock.value.expireAt
  }

  /** No holder outlives the lock between winning it and the end of its save. */
  predicate InTime(s: State, later: int) {
    forall p | p in s.callers && Critical(s.callers[p].pc) :: later < s.callers[p].pc.deadline
  }

  function StepLock(s: State, p: nat, ttl: int): State
    requires p in s.callers
  {
    if s.callers[p].pc.Waiting? && Free(s) && ttl > 0
    then s.(lock := Some(Lock(p, s.now + ttl)), callers :=
            s.callers[p := s.callers[p].(behind := s.stored != s.callers[p].initial, pc := Locked(s.now + ttl))])
    else s
  }

  function StepReload(s: State, p: nat): State
    requires p in s.callers
  {
    var c := s.callers[p];
    if !c.pc.Locked? then s
    else if s.stored != c.initial then Set(s, p, Leaving(Newer(s.stored)))
    else Set(s, p, Ready(c.pc.deadline))
  }

  function StepExchange(s: State, p: nat): State
    requires p in s.callers
  {
    var c := s.callers[p];
    if !c.pc.Ready? then s
    else
      Set(s, p, Exchanged(c.pc.deadline, s.next))
        .(next := s.next + 1, exchanges := s.exchanges[c.initial := Count(s.exchanges, c.initial) + 1])
  }

  /** The save may be executed without the caller learning so. */
  function StepSave(s: State, p: nat, executed: bool, reported: bool): State
    requires p in s.callers
  {
    var c := s.callers[p];
    if !c.pc.Exchanged? then s
    else if executed then
      Set(s, p, Leaving(if reported then Updated(c.pc.updated) else Failed))
        .(stored := c.pc.updated, past := s.past + {c.pc.updated})
    else Set(s, p, Leaving(Failed)).(failedSaves := s.failedSaves[c.initial := Count(s.failedSaves, c.initial) + 1])
  }

  /** The deferred CompareDelete: only the owner's lock is deleted. */
  function StepUnlock(s: State, p: nat, executed: bool): State
    requires p in s.callers
  {
    var c := s.callers[p];
    if !c.pc.Leaving? then s
    else Set(s, p, Done(c.pc.result)).(lock := if executed && s.lock.Some? && s.lock.value.owner == p then None
                                       else s.lock)
  }

  function Step(s: State, op: Op, ttl: int): State {
    match op
    case Tick(dt) => if InTime(s, s.now + dt) then s.(now := s.now + dt) else s
    case Load(p) => if p in s.callers then s else s.(callers := s.callers[p := Caller(s.stored, false, Waiting)])
    case TryLock(p) => if p in s.callers then StepLock(s, p, ttl) else s
    case Reload(p) => if p in s.callers then StepReload(s, p) else s
    case NotDue(p) => if p in s.callers && s.callers[p].pc.Ready? then Set(s, p, Leaving(Unchanged)) else s
    case Fail(p) =>
      if p !in s.callers then s
      else if s.callers[p].pc.Waiting? then Set(s, p, Done(Failed))
      else if s.callers[p].pc.Locked? || s.callers[p].pc.Ready? then Set(s, p, Leaving(Failed))
      else s
    case Exchange(p) => if p in s.callers then StepExchange(s, p) else s
    case Save(p, executed, reported) => if p in s.callers then StepSave(s, p, executed, reported) else s
    case Unlock(p, executed) => if p in s.callers then StepUnlock(s, p, executed) else s
    case Replace => s.(stored := s.next, past := s.past + {s.next}, next := s.next + 1)
  }

  function Initial(start: int): State {
    State(start, None, 0, 1, map[], {0}, map[], map[])
  }

  function Run(start: int, ops: seq<Op>, ttl: int): State {
    if ops == [] then Initial(start) else Step(Run(start, ops[..|ops| - 1], ttl), ops[|ops| - 1], ttl)
  }

  // ---- invariants ----

  /** A critical caller owns the lock, so there is at most one. */
  predicate Exclusive(s: State, p: nat) {
    p in s.callers && Critical(s.callers[p].pc) ==>
      && s.now < s.callers[p].pc.deadline && s.lock == Some(Lock(p, s.callers[p].pc.deadline))
  }

  /** Credentials are stored at most once. */
  predicate Numbered(s: State, p: nat) {
    p in s.callers ==>
      && s.callers[p].initial in s.past
      && (s.callers[p].pc.Exchanged? ==> s.callers[p].pc.updated < s.next && s.callers[p].pc.updated !in s.past)
  }

  ghost predicate PastOk(s: State) {
    s.stored in s.past && forall x | x in s.past :: x < s.next
  }

  /** A caller that won the lock after a change finds the change. */
  predicate BehindOk(s: State, p: nat) {
    p in s.callers ==>
      var c := s.callers[p];
      && (c.behind ==> s.stored != c.initial && !c.pc.Ready? && !c.pc.Exchanged? && !c.pc.Waiting?)
      && ((c.pc.Leaving? || c.pc.Done?) && c.pc.result.Newer? ==> c.pc.result.credentials != c.initial)
      && (c.behind && (c.pc.Leaving? || c.pc.Done?) ==> c.pc.result.Newer? || c.pc.result.Failed?)
  }

  /** Someone holds an exchange of credentials x that is not saved yet. */
  ghost predicate Unsaved(s: State, x: nat) {
    exists p :: p in s.callers && s.callers[p].pc.Exchanged? && s.callers[p].initial == x
  }

  /** The credentials can still be exchanged: they are stored, or a caller has confirmed them. */
  ghost predicate Confirmed(s: State, x: nat) {
    s.stored == x || exists p :: p in s.callers && s.callers[p].pc.Ready? && s.callers[p].initial == x
  }

  ghost predicate Balanced(s: State, x: nat) {
    var e, f := Count(s.exchanges, x), Count(s.failedSaves, x);
    && e <= f + 1
    && (Unsaved(s, x) ==> e == f + 1)
    && (Confirmed(s, x) && !Unsaved(s, x) ==> e == f)
    && (x !in s.past ==> e == 0 && f == 0)
  }

  ghost predicate Inv(s: State) {
    && PastOk(s)
    && (forall p :: Exclusive(s, p)) && (forall p :: Numbered(s, p)) && (forall p :: BehindOk(s, p))
    && (forall x :: Balanced(s, x))
  }

  lemma StepPast(s: State, op: Op, ttl: int)
    requires PastOk(s) && forall p :: Numbered(s, p)
    ensures PastOk(Step(s, op, ttl))
  {
    if op.Save? {
      assert Numbered(s, op.p);
    }
  }

  lemma StepExclusive(s: State, op: Op, ttl: int, p: nat)
    requires forall q :: Exclusive(s, q)
    ensures Exclusive(Step(s, op, ttl), p)
  {
    assert Exclusive(s, p);
    if op.TryLock? || op.Unlock? {
      assert Exclusive(s, op.p);
    }
  }

  lemma StepNumbered(s: State, op: Op, ttl: int, p: nat)
    requires Inv(s)
    ensures Numbered(Step(s, op, ttl), p)
  {
    assert Numbered(s, p);
    if op.Save? {
      assert Exclusive(s, p) && Exclusive(s, op.p);
    }
  }

  lemma StepBehind(s: State, op: Op, ttl: int, p: nat)
    requires Inv(s)
    ensures BehindOk(Step(s, op, ttl), p)
  {
    assert BehindOk(s, p) && Numbered(s, p);
    if op.Save? {
      assert Numbered(s, op.p);
    }
  }

  /** The holder's phase decides: nobody else has an unsaved exchange or confirmed credentials. */
  lemma HolderAlone(s: State, p: nat, x: nat)
    requires (forall q :: Exclusive(s, q)) && p in s.callers && Critical(s.callers[p].pc)
    ensures Unsaved(s, x) <==> s.callers[p].pc.Exchanged? && s.callers[p].initial == x
    ensures Confirmed(s, x) <==> s.stored == x || (s.callers[p].pc.Ready? && s.callers[p].initial == x)
  {
    forall q | q in s.callers && Critical(s.callers[q].pc)
      ensures q == p
    {
      assert Exclusive(s, p) && Exclusive(s, q);
    }
  }

  lemma ExchangeBalanced(s: State, p: nat, x: nat)
    requires Inv(s) && p in s.callers && s.callers[p].pc.Ready?
    ensures Balanced(StepExchange(s, p), x)
  {
    var s' := StepExchange(s, p);
    assert Balanced(s, x) && Numbered(s, p);
    HolderAlone(s, p, x);
    forall q
      ensures Exclusive(s', q)
    {
      StepExclusive(s, Exchange(p), 0, q);
    }
    HolderAlone(s', p, x);
  }

  /** Nobody is critical after the holder has left. */
  lemma NobodyCritical(s: State, p: nat, result: Result)
    requires (forall q :: Exclusive(s, q)) && p in s.callers && Critical(s.callers[p].pc)
    ensures var after := Set(s, p, Leaving(result)).callers; forall q | q in after :: !Critical(after[q].pc)
  {
    forall q | q in s.callers && Critical(s.callers[q].pc)
      ensures q == p
    {
      assert Exclusive(s, p) && Exclusive(s, q);
    }
  }

  lemma SaveBalanced(s: State, p: nat, executed: bool, reported: bool, x: nat)
    requires Inv(s) && p in s.callers && s.callers[p].pc.Exchanged?
    ensures Balanced(StepSave(s, p, executed, reported), x)
  {
    assert Balanced(s, x) && Numbered(s, p);
    HolderAlone(s, p, x);
    NobodyCritical(s, p, if executed && reported then Updated(s.callers[p].pc.updated) else Failed);
  }

  /**
   Steps that neither exchange nor save create neither an unsaved exchange nor, unless they store new credentials, a
   confirmation.
   */
  lemma OtherBalanced(s: State, op: Op, ttl: int, x: nat)
    requires Inv(s) && !op.Exchange? && !op.Save? && !op.Replace?
    ensures Balanced(Step(s, op, ttl), x)
  {
    var s' := Step(s, op, ttl);
    assert Balanced(s, x);
    SameExchanges(s, op, ttl, x);
    assert s'.stored == s.stored && s'.past == s.past && s'.exchanges == s.exchanges && s'.failedSaves == s.failedSaves;
  }

  lemma CallerStays(s: State, op: Op, ttl: int, p: nat)
    requires !op.Exchange? && !op.Save? && !op.Replace?
    ensures var s' := Step(s, op, ttl);
            && (p in s'.callers && s'.callers[p].pc.Exchanged? <==> p in s.callers && s.callers[p].pc.Exchanged?)
            && (p in s'.callers && p in s.callers ==> s'.callers[p].initial == s.callers[p].initial)
            && (p in s'.callers && s'.callers[p].pc.Ready? ==>
                  p in s.callers && (s.callers[p].pc.Ready? || s.stored == s'.callers[p].initial))
  {
  }

  lemma SameExchanges(s: State, op: Op, ttl: int, x: nat)
    requires !op.Exchange? && !op.Save? && !op.Replace?
    ensures Unsaved(Step(s, op, ttl), x) <==> Unsaved(s, x)
    ensures Confirmed(Step(s, op, ttl), x) ==> Confirmed(s, x)
  {
    var s' := Step(s, op, ttl);
    forall p
      ensures p in s'.callers && s'.callers[p].pc.Exchanged? <==> p in s.callers && s.callers[p].pc.Exchanged?
      ensures p in s'.callers && p in s.callers ==> s'.callers[p].initial == s.callers[p].initial
      ensures p in s'.callers && s'.callers[p].pc.Ready? ==>
                p in s.callers && (s.callers[p].pc.Ready? || s.stored == s'.callers[p].initial)
    {
      CallerStays(s, op, ttl, p);
    }
    assert s'.stored == s.stored;
  }

  lemma ReplaceBalanced(s: State, x: nat)
    requires Inv(s)
    ensures Balanced(Step(s, Replace, 0), x)
  {
    assert Balanced(s, x);
    var s' := Step(s, Replace, 0);
    assert s'.callers == s.callers;
    assert Unsaved(s', x) <==> Unsaved(s, x);
    assert s.next !in s.past;
    if x == s.next {
      forall p | p in s.callers
        ensures s.callers[p].initial != x
      {
        assert Numbered(s, p);
      }
    }
  }

  lemma StepBalanced(s: State, op: Op, ttl: int, x: nat)
    requires Inv(s)
    ensures Balanced(Step(s, op, ttl), x)
  {
    assert Balanced(s, x);
    match op
    case Exchange(p) => if p in s.callers && s.callers[p].pc.Ready? { ExchangeBalanced(s, p, x); }
    case Save(p, executed, reported) => if p in s.callers &&
                                        s.callers[p].pc.Exchanged? { SaveBalanced(s, p, executed, reported, x); }
    case Replace => ReplaceBalanced(s, x);
    case _ => OtherBalanced(s, op, ttl, x);
  }

  lemma StepKeeps(s: State, op: Op, ttl: int)
    requires Inv(s)
    ensures Inv(Step(s, op, ttl))
  {
    StepPast(s, op, ttl);
    forall p
      ensures Exclusive(Step(s, op, ttl), p) && Numbered(Step(s, op, ttl), p) && BehindOk(Step(s, op, ttl), p)
    {
      StepExclusive(s, op, ttl, p);
      StepNumbered(s, op, ttl, p);
      StepBehind(s, op, ttl, p);
    }
    forall x
      ensures Balanced(Step(s, op, ttl), x)
    {
      StepBalanced(s, op, ttl, x);
    }
  }

  lemma {:induction false} Reachable(start: int, ops: seq<Op>, ttl: int)
    ensures Inv(Run(start, ops, ttl))
  {
    if ops != [] {
      Reachable(start, ops[..|ops| - 1], ttl);
      StepKeeps(Run(start, ops[..|ops| - 1], ttl), ops[|ops| - 1], ttl);
    }
  }

  // ---- the promises ----

  /**
   The same credentials are exchanged successfully at most once more often than a save of them failed: once, if saves
   succeed.
   */
  lemma {:induction false} SingleFlight(start: int, ops: seq<Op>, ttl: int, x: nat)
    ensures var s := Run(start, ops, ttl); Count(s.exchanges, x) <= Count(s.failedSaves, x) + 1
  {
    Reachable(start, ops, ttl);
    assert Balanced(Run(start, ops, ttl), x);
  }

  /** At any time at most one caller is between winning the lock and the end of its save. */
  lemma {:induction false} OneCriticalCaller(start: int, ops: seq<Op>, ttl: int, p: nat, q: nat)
    ensures var s := Run(start, ops, ttl);
            p in s.callers && q in s.callers && Critical(s.callers[p].pc) && Critical(s.callers[q].pc) ==>
              p == q
  {
    Reachable(start, ops, ttl);
    var s := Run(start, ops, ttl);
    assert Exclusive(s, p) && Exclusive(s, q);
  }

  /**
   A caller that wins the lock after the stored credentials changed never sends a token request, and leaves with
   credentials other than the ones it came with, or fails.
   */
  lemma {:induction false} LateCallersTakeTheNewer(start: int, ops: seq<Op>, ttl: int, p: nat)
    ensures var s := Run(start, ops, ttl);
            p in s.callers && s.callers[p].behind ==>
              var c := s.callers[p];
              && !c.pc.Ready? && !c.pc.Exchanged?
              && (c.pc.Leaving? || c.pc.Done? ==> c.pc.result.Failed? ||
                                                  (c.pc.result.Newer? && c.pc.result.credentials != c.initial))
  {
    Reachable(start, ops, ttl);
    assert BehindOk(Run(start, ops, ttl), p);
  }

  // ---- what a refresh hands back ----

  predicate Reports(s: State, p: nat, x: nat) {
    p in s.callers && (s.callers[p].pc.Leaving? || s.callers[p].pc.Done?) && s.callers[p].pc.result == Updated(x)
  }

  /** Step i of the run executed and reported the save of the credentials the caller had exchanged for. */
  predicate SavedAt(start: int, ops: seq<Op>, ttl: int, i: nat, p: nat, x: nat)
    requires i < |ops|
  {
    var before := Run(start, ops[..i], ttl);
    && ops[i] == Save(p, true, true) && p in before.callers && before.callers[p].pc.Exchanged?
    && before.callers[p].pc.updated == x && Step(before, ops[i], ttl).stored == x
  }

  lemma ReportsBySaving(s: State, op: Op, ttl: int, p: nat, x: nat)
    requires Reports(Step(s, op, ttl), p, x) && !Reports(s, p, x)
    ensures op == Save(p, true, true) && p in s.callers && s.callers[p].pc.Exchanged? && s.callers[p].pc.updated == x
    ensures Step(s, op, ttl).stored == x
  {
  }

  /** A caller that reports new credentials stored them itself, after it had exchanged for them. */
  lemma {:induction false} UpdatedWasStored(start: int, ops: seq<Op>, ttl: int, p: nat, x: nat)
    requires Reports(Run(start, ops, ttl), p, x)
    ensures exists i | 0 <= i < |ops| :: SavedAt(start, ops, ttl, i, p, x)
  {
    var n := |ops| - 1;
    var init := ops[..n];
    if Reports(Run(start, init, ttl), p, x) {
      UpdatedWasStored(start, init, ttl, p, x);
      var i :| 0 <= i < |init| && SavedAt(start, init, ttl, i, p, x);
      assert ops[..i] == init[..i];
      assert SavedAt(start, ops, ttl, i, p, x);
    } else {
      ReportsBySaving(Run(start, init, ttl), ops[n], ttl, p, x);
      assert SavedAt(start, ops, ttl, n, p, x);
    }
  }

  predicate HoldsExchanged(s: State, p: nat, x: nat) {
    p in s.callers && s.callers[p].pc.Exchanged? && s.callers[p].pc.updated == x
  }

  /** Step i of the run was the exchange, made with the credentials stored then, which the caller came with. */
  predicate ExchangedAt(start: int, ops: seq<Op>, ttl: int, i: nat, p: nat, x: nat)
    requires i < |ops|
  {
    var before := Run(start, ops[..i], ttl);
    ops[i] == Exchange(p) && p in before.callers && before.callers[p].pc.Ready? && x == before.next
  }

  lemma HoldsByExchanging(s: State, op: Op, ttl: int, p: nat, x: nat)
    requires HoldsExchanged(Step(s, op, ttl), p, x) && !HoldsExchanged(s, p, x)
    ensures op == Exchange(p) && p in s.callers && s.callers[p].pc.Ready? && x == s.next
  {
  }

  /** What a caller holds for saving came from an exchange of its own. */
  lemma {:induction false} HeldWasExchanged(start: int, ops: seq<Op>, ttl: int, p: nat, x: nat)
    requires HoldsExchanged(Run(start, ops, ttl), p, x)
    ensures exists i | 0 <= i < |ops| :: ExchangedAt(start, ops, ttl, i, p, x)
  {
    var n := |ops| - 1;
    var init := ops[..n];
    if HoldsExchanged(Run(start, init, ttl), p, x) {
      HeldWasExchanged(start, init, ttl, p, x);
      var i :| 0 <= i < |init| && ExchangedAt(start, init, ttl, i, p, x);
      assert ops[..i] == init[..i];
      assert ExchangedAt(start, ops, ttl, i, p, x);
    } else {
      HoldsByExchanging(Run(start, init, ttl), ops[n], ttl, p, x);
      assert ExchangedAt(start, ops, ttl, n, p, x);
    }
  }

  /** A refresh that is due, with a provider and a store that answer, without interruption. */
  function DueRefresh(s: State, p: nat, ttl: int): State {
    var locked := Step(Step(s, Load(p), ttl), TryLock(p), ttl);
    var saved := Step(Step(Step(locked, Reload(p), ttl), Exchange(p), ttl), Save(p, true, true), ttl);
    Step(saved, Unlock(p, true), ttl)
  }

  /** It ends with new credentials, stored, handed to the caller, and the lock free again. */
  lemma DueRefreshUpdates(s: State, p: nat, ttl: int)
    requires p !in s.callers && Free(s) && ttl > 0
    ensures var after := DueRefresh(s, p, ttl);
            && p in after.callers && after.callers[p].pc == Done(Updated(s.next))
            && after.stored == s.next && after.lock.None?
            && after.exchanges == s.exchanges[s.stored := Count(s.exchanges, s.stored) + 1]
  {
    var deadline := s.now + ttl;
    var s1 := Step(s, Load(p), ttl);
    var s2 := Step(s1, TryLock(p), ttl);
    assert s2.callers[p] == Caller(s.stored, false, Locked(deadline)) && s2.stored == s.stored;
    var s3 := Step(s2, Reload(p), ttl);
    assert s3.callers[p].pc == Ready(deadline) && s3.next == s.next;
    var s4 := Step(s3, Exchange(p), ttl);
    assert s4.callers[p].pc == Exchanged(deadline, s.next) && s4.lock == Some(Lock(p, deadline));
    var s5 := Step(s4, Save(p, true, true), ttl);
    assert s5.callers[p].pc == Leaving(Updated(s.next)) && s5.stored == s.next;
  }

  /** A caller that finds the credentials changed leaves with the stored ones, and the lock is free again. */
  lemma ChangedCredentialsReturned(s: State, p: nat, ttl: int)
    requires p in s.callers && s.callers[p].pc.Waiting? && s.callers[p].initial != s.stored && Free(s) && ttl > 0
    ensures var after := Step(Step(Step(s, TryLock(p), ttl), Reload(p), ttl), Unlock(p, true), ttl);
            && after.callers[p].pc == Done(Newer(s.stored)) && after.stored == s.stored
            && after.exchanges == s.exchanges && after.lock.None?
  {
    var s1 := Step(s, TryLock(p), ttl);
    assert s1.callers[p].pc.Locked? && s1.lock == Some(Lock(p, s.now + ttl));
    var s2 := Step(s1, Reload(p), ttl);
    assert s2.callers[p].pc == Leaving(Newer(s.stored));
  }
}
