/**
 Binding a conversation to an account: `BindAffinity` runs up to nine Redis commands in three attempts, while other
 processes bind, clear and refresh the same key and the key may expire at any moment.
 */
module Affinity {

  import opened Options

  /** A command on the key, or its expiry; a new lifetime is given in whole milliseconds. */
  datatype Op = SetNX(account: string) | Get | CompareExpire(account: string, ms: nat) | CompareDelete(account: string)
                | Expire

  function Apply(value: Option<string>, op: Op): Option<string> {
    match op
    case SetNX(account) => if value.None? then Some(account) else value
    case Get => value
    case CompareExpire(account, ms) => if value == Some(account) && ms == 0 then None else value
    case CompareDelete(account) => if value == Some(account) then None else value
    case Expire => None
  }

  /** One entry of the history of the key. */
  datatype Entry = Entry(op: Op, before: Option<string>, after: Option<string>)

  /** The history is the work of the commands, one after the other. */
  predicate Chained(log: seq<Entry>, initial: Option<string>) {
    && (log != [] ==> log[0].before == initial)
    && (forall i | 0 <= i < |log| :: log[i].after == Apply(log[i].before, log[i].op))
    && (forall i, j | 0 <= i < j == i + 1 < |log| :: log[j].before == log[i].after)
  }

  function Current(log: seq<Entry>, initial: Option<string>): Option<string> {
    if log == [] then initial else log[|log| - 1].after
  }

  lemma ChainExtends(log: seq<Entry>, initial: Option<string>, op: Op)
    requires Chained(log, initial)
    ensures var now := Current(log, initial); Chained(log + [Entry(op, now, Apply(now, op))], initial)
  {
  }

  /** An owner-matched delete, an owner-matched new lifetime of zero, or an expiry, of account a. */
  predicate Unbinds(e: Entry, a: string) {
    e.before == Some(a) && e.after.None? && (e.op == CompareDelete(a) || e.op == CompareExpire(a, 0) || e.op.Expire?)
  }

  /**
   No run changes the key from one account to another without an owner-matched delete or an expiry in between.
   */
  lemma {:induction false} NoSilentRebinding(log: seq<Entry>, initial: Option<string>, i: nat, j: nat, a: string)
    requires Chained(log, initial) && i < j < |log| && log[i].after == Some(a) && log[j].after.Some? &&
             log[j].after != Some(a)
    ensures exists k | i < k < j :: Unbinds(log[k], a)
    decreases j - i
  {
    assert log[i + 1].before == log[i].after;
    if log[i + 1].after == Some(a) {
      NoSilentRebinding(log, initial, i + 1, j, a);
    } else {
      assert Unbinds(log[i + 1], a);
    }
  }

  datatype BindResult = Bound(account: string, created: bool) | Failed | Retry

  /**
   The instant `at` of the history justifies a successful binding: the key became the account's by the caller's own
   SETNX, or was the account's when its lifetime was renewed, to live on unless the new lifetime is below a millisecond.
   */
  predicate Justified(log: seq<Entry>, from: nat, at: nat, account: string, ttl: int, r: BindResult) {
    r.Bound? ==>
      && from <= at < |log| && r.account != "" && ttl > 0
      && if r.created then r.account == account && log[at].op == SetNX(account) && log[at].before.None? &&
         log[at].after == Some(account)
         else log[at].op == CompareExpire(r.account, ttl / MS) && log[at].before == Some(r.account) &&
              (log[at].after == Some(r.account) <==> ttl >= MS)
  }

  /** What a caller alone with the key is told. */
  function Answer(value: Option<string>, account: string): BindResult {
    match value
    case None => Bound(account, true)
    case Some(holder) => if holder == "" then Failed else Bound(holder, false)
  }

  /** Some other process acted on the key after the caller's SETNX and before its CompareExpire. */
  predicate Contended(between: seq<seq<Op>>) {
    |between| == 3 && (between[1] != [] || between[2] != [])
  }

  /** From instant `from` on the key held an empty account at some time. */
  predicate HeldEmpty(log: seq<Entry>, from: nat) {
    exists k | from <= k < |log| :: log[k].before == Some("")
  }

  const MS := 1_000_000

  /** The key with its history. */
  class AffinityKey {
    var value: Option<string>
    ghost var initial: Option<string>
    ghost var log: seq<Entry>

    ghost predicate Valid()
      reads this
    {
      Chained(log, initial) && value == Current(log, initial)
    }

    constructor (value: Option<string>)
      ensures Valid() && log == [] && this.value == value
    {
      this.value, initial, log := value, value, [];
    }

    method Execute(op: Op)
      requires Valid()
      modifies this
      ensures Valid() && initial == old(initial) && value == Apply(old(value), op)
      ensures log == old(log) + [Entry(op, old(value), value)]
    {
      ghost var before := value;
      ChainExtends(log, initial, op);
      match op {
        case SetNX(account) => if value.None? { value := Some(account); }
        case CompareExpire(account, ms) => if value == Some(account) && ms == 0 { value := None; }
        case CompareDelete(account) => if value == Some(account) { value := None; }
        case Expire => value := None;
        case _ =>
      }
      log := log + [Entry(op, before, value)];
    }

    /** Whatever other processes and the clock do between two commands of one caller. */
    method Interfere(others: seq<Op>)
      requires Valid()
      modifies this
      ensures Valid() && initial == old(initial) && old(log) <= log
      ensures others == [] ==> value == old(value)
    {
      for i := 0 to |others|
        invariant Valid() && initial == old(initial) && old(log) <= log
        invariant others == [] ==> value == old(value)
      {
        Execute(others[i]);
      }
    }

    /**
     One attempt: SETNX, GET, CompareExpire, with foreign operations before each and possibly a fault at one of them.
     */
    method Attempt(account: string, ttl: int, between: seq<seq<Op>>, fault: nat) returns (r: BindResult, ghost at: nat)
      requires Valid() && account != "" && ttl > 0 && |between| == 3
      modifies this
      ensures Valid() && initial == old(initial) && old(log) <= log
      ensures Justified(log, |old(log)|, at, account, ttl, r)
      ensures r.Failed? ==> fault < 3 || HeldEmpty(log, |old(log)|)
      ensures r.Retry? ==> Contended(between)
      ensures fault >= 3 && between[0] == [] && !Contended(between) ==> r == Answer(old(value), account)
    {
      at := 0;
      Interfere(between[0]);
      if fault == 0 { return Failed, 0; }
      var free := value.None?;
      Execute(SetNX(account));
      if free {
        return Bound(account, true), |log| - 1;
      }
      Interfere(between[1]);
      if fault == 1 { return Failed, 0; }
      var seen := value;
      Execute(Get);
      if seen.None? {
        return Retry, 0;
      }
      if seen.value == "" { return Failed, 0; }
      Interfere(between[2]);
      if fault == 2 { return Failed, 0; }
      var refreshed := value == seen;
      Execute(CompareExpire(seen.value, ttl / MS));
      if !refreshed {
        return Retry, 0;
      }
      r, at := Bound(seen.value, false), |log| - 1;
    }

    /**
     `between` are the foreign operations before each command of each attempt, and `faults` the command of each attempt
     that fails with an error, if any.  A success reports a value the key held at the instant `at` of the call: when
     created, the caller's own account, put there by its SETNX on an unbound key; otherwise the account its
     CompareExpire matched.  It fails only for missing arguments, a command that failed, an empty account in the key, or
     three attempts each disturbed by others.
     */
    method BindAffinity(account: string, ttl: int, between: seq<seq<seq<Op>>>, faults: seq<nat>)
      returns (r: BindResult, ghost at: nat)
      requires Valid() && |between| == |faults| == 3 && forall i | 0 <= i < 3 :: |between[i]| == 3
      modifies this
      ensures Valid() && initial == old(initial) && old(log) <= log && !r.Retry?
      ensures Justified(log, |old(log)|, at, account, ttl, r)
      ensures account == "" || ttl <= 0 ==> r.Failed? && log == old(log)
      ensures r.Failed? ==>
                || account == "" || ttl <= 0 || (exists i | 0 <= i < 3 :: faults[i] < 3)
                || HeldEmpty(log, |old(log)|) || (forall i | 0 <= i < 3 :: Contended(between[i]))
      ensures account != "" && ttl > 0 && faults[0] >= 3 && between[0][0] == [] && !Contended(between[0]) ==>
                r == Answer(old(value), account)
    {
      at := 0;
      if account == "" || ttl <= 0 {
        return Failed, 0;
      }
      for attempt := 0 to 3
        invariant Valid() && initial == old(initial) && old(log) <= log
        invariant attempt == 0 ==> value == old(value)
        invariant forall i | 0 <= i < attempt :: Contended(between[i])
      {
        ghost var instant;
        assert attempt < |faults| && (faults[attempt] < 3 ==> exists i | 0 <= i < 3 :: faults[i] < 3);
        r, instant := Attempt(account, ttl, between[attempt], faults[attempt]);
        if !r.Retry? {
          return r, instant;
        }
      }
      r := Failed;
    }

    /** ClearAffinity deletes the binding only while it is still that of the given account. */
    method ClearAffinity(account: string) returns (ok: bool)
      requires Valid()
      modifies this
      ensures Valid() && initial == old(initial) && old(log) <= log
      ensures value == if old(value) == Some(account) && account != "" then None else old(value)
      ensures ok <==> account != ""
    {
      if account == "" {
        return false;
      }
      Execute(CompareDelete(account));
      ok := true;
    }
  }
}
