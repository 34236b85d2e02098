/**
 Concurrency leases in Redis: one sorted set per account, owners scored by deadline, with an expiry on the whole key.

 Times are milliseconds of the server clock.  An expired key is invisible to commands and may be evicted at any moment
 from its expiry on.  The two Lua scripts are functions on the key; `LeaseKey` runs them command by command.  The
 reference is a plain map from owner to deadline, without any key-level expiry.
 */
module LeaseSet {

  import Text
  import opened Sets

  type Members = map<string, int>

  datatype Key = Absent | Present(members: Members, expireAt: int)

  datatype Outcome = Invalid | Denied | Granted

  /** Owners whose deadline has not passed. */
  function Live(m: Members, now: int): Members {
    map owner | owner in m && m[owner] > now :: m[owner]
  }

  function Visible(key: Key, now: int): Members {
    if key.Absent? || now > key.expireAt then map[] else key.members
  }

  /** The greatest element of a set of scores. */
  function Max(s: set<int>): (m: int)
    requires s != {}
    ensures m in s && forall y | y in s :: y <= m
  {
    MaxExists(s);
    var x :| x in s && forall y | y in s :: y <= x;
    x
  }

  lemma {:induction false} MaxExists(s: set<int>)
    requires s != {}
    ensures exists x :: x in s && forall y | y in s :: y <= x
    decreases |s|
  {
    var first := Pick(s);
    var rest := s - {first};
    if rest == {} {
      forall y | y in s
        ensures y <= first
      {
        assert y in rest <==> y != first;
      }
    } else {
      MaxExists(rest);
      var best :| best in rest && forall y | y in rest :: y <= best;
      var x := if best >= first then best else first;
      assert x in s && forall y | y in s :: y <= x by {
        assert forall y | y in s :: y == first || y in rest;
      }
    }
  }

  ghost function Pick<T>(s: set<T>): (x: T)
    requires s != {}
    ensures x in s
  {
    var x :| x in s; x
  }

  /** ZRANGE -1 -1 WITHSCORES: the greatest score. */
  function Latest(m: Members): (score: int)
    requires m != map[]
    ensures score in m.Values && forall owner | owner in m :: m[owner] <= score
  {
    assert m.Values != {} by {
      var owner :| owner in m;
      assert m[owner] in m.Values;
    }
    assert forall owner | owner in m :: m[owner] in m.Values;
    Max(m.Values)
  }

  /** PEXPIREAT: an expiry in the past deletes the key. */
  function ExpireAt(m: Members, when: int, now: int): Key {
    if when <= now then Absent else Present(m, when)
  }

  // ---- the scripts ----

  /** ZADD, then the key expires with its last owner. */
  function AddOwner(m: Members, owner: string, now: int, ttl: int): Key {
    var m' := m[owner := now + ttl];
    assert owner in m';
    ExpireAt(m', Latest(m'), now)
  }

  function AcquireScript(key: Key, now: int, owner: string, limit: int, ttl: int): (Key, bool) {
    var m := Live(Visible(key, now), now);
    if owner in m then (AddOwner(m, owner, now, ttl), true)
    else if |m| >= limit then (if m == map[] || key.Absent? then Absent else Present(m, key.expireAt), false)
    else (AddOwner(m, owner, now, ttl), true)
  }

  function ReleaseScript(key: Key, now: int, owner: string): Key {
    var m := Visible(key, now) - {owner};
    if m == map[] then Absent else ExpireAt(m, Latest(m), now)
  }

  // ---- runs ----

  /** `ttl` is a duration in nanoseconds, handed to the script in whole milliseconds. */
  datatype Op = Acquire(owner: string, limit: int, ttl: int) | Release(owner: string) | Tick(ms: nat) | Evict

  predicate ValidArguments(op: Op)
    requires op.Acquire?
  {
    op.limit > 0 && op.ttl > 0 && Text.TrimSpace(op.owner) != ""
  }

  function Millis(ttl: int): int
    requires ttl > 0
  {
    ttl / 1_000_000
  }

  datatype Server = Server(key: Key, now: int, last: Outcome)

  function Step(s: Server, op: Op): Server {
    match op
    case Acquire(owner, limit, ttl) =>
      if !ValidArguments(op) then s.(last := Invalid) else
      var (key, granted) := AcquireScript(s.key, s.now, owner, limit, Millis(ttl));
      Server(key, s.now, if granted then Granted else Denied)
    case Release(owner) => s.(key := ReleaseScript(s.key, s.now, owner))
    case Tick(ms) => s.(now := s.now + ms)
    case Evict => if s.key.Present? && s.now >= s.key.expireAt then s.(key := Absent) else s
  }

  /** The reference: deadlines by owner, and nothing else. */
  datatype Reference = Reference(deadlines: Members, now: int, last: Outcome)

  function RefStep(r: Reference, op: Op): Reference {
    match op
    case Acquire(owner, limit, ttl) =>
      var live := Live(r.deadlines, r.now);
      if !ValidArguments(op) then r.(last := Invalid)
      else if owner !in live && |live| >= limit then r.(last := Denied)
      else r.(deadlines := r.deadlines[owner := r.now + Millis(ttl)], last := Granted)
    case Release(owner) => r.(deadlines := r.deadlines - {owner})
    case Tick(ms) => r.(now := r.now + ms)
    case Evict => r
  }

  function Run(ops: seq<Op>, now: int): Server {
    if ops == [] then Server(Absent, now, Invalid) else Step(Run(ops[..|ops| - 1], now), ops[|ops| - 1])
  }

  function RefRun(ops: seq<Op>, now: int): Reference {
    if ops == [] then Reference(map[], now, Invalid) else RefStep(RefRun(ops[..|ops| - 1], now), ops[|ops| - 1])
  }

  // ---- refinement ----

  /** The expiry of a key is not earlier than any of its owners. */
  predicate Covered(key: Key) {
    key.Present? ==> forall owner | owner in key.members :: key.members[owner] <= key.expireAt
  }

  function LiveOwners(s: Server): Members {
    Live(Visible(s.key, s.now), s.now)
  }

  predicate Refines(s: Server, r: Reference) {
    Covered(s.key) && s.now == r.now && s.last == r.last && LiveOwners(s) == Live(r.deadlines, r.now)
  }

  /** Nothing live is hidden by the key expiry. */
  lemma CoveredLive(key: Key, now: int)
    requires Covered(key)
    ensures Live(Visible(key, now), now) == if key.Absent? then map[] else Live(key.members, now)
  {
    if key.Present? {
      assert now > key.expireAt ==> Live(key.members, now) == map[];
    }
  }

  lemma AddOwnerLive(m: Members, owner: string, now: int, ttl: int)
    ensures var key := AddOwner(m, owner, now, ttl);
            Covered(key) && Live(Visible(key, now), now) == Live(m[owner := now + ttl], now)
  {
    var m' := m[owner := now + ttl];
    assert owner in m';
    if Latest(m') <= now {
      assert Live(m', now) == map[];
    }
  }

  /** A refused request leaves what is visible. */
  lemma DeniedLive(key: Key, now: int)
    requires Covered(key)
    ensures var m := Live(Visible(key, now), now);
            var key' := if m == map[] || key.Absent? then Absent else Present(m, key.expireAt);
            Covered(key') && Live(Visible(key', now), now) == m
  {
    var m := Live(Visible(key, now), now);
    assert Live(m, now) == m;
  }

  lemma GrantedStep(s: Server, owner: string, limit: int, ttl: int)
    requires ValidArguments(Acquire(owner, limit, ttl)) && (owner in LiveOwners(s) || |LiveOwners(s)| < limit)
    ensures Step(s, Acquire(owner, limit, ttl)) ==
            Server(AddOwner(LiveOwners(s), owner, s.now, Millis(ttl)), s.now, Granted)
  {
  }

  lemma AcquireRefines(s: Server, r: Reference, owner: string, limit: int, ttl: int)
    requires Refines(s, r)
    ensures Refines(Step(s, Acquire(owner, limit, ttl)), RefStep(r, Acquire(owner, limit, ttl)))
  {
    var m, now := LiveOwners(s), s.now;
    if ValidArguments(Acquire(owner, limit, ttl)) {
      if owner in m || |m| < limit {
        AddOwnerLive(m, owner, now, Millis(ttl));
        SameLive(m, r.deadlines, owner, now, now + Millis(ttl));
        GrantedStep(s, owner, limit, ttl);
      } else {
        DeniedLive(s.key, now);
      }
    }
  }

  lemma SameLive(m: Members, d: Members, owner: string, now: int, deadline: int)
    requires m == Live(d, now)
    ensures Live(m[owner := deadline], now) == Live(d[owner := deadline], now)
  {
  }

  lemma ReleaseRefines(s: Server, r: Reference, owner: string)
    requires Refines(s, r)
    ensures Refines(Step(s, Release(owner)), RefStep(r, Release(owner)))
  {
    var m := Visible(s.key, s.now) - {owner};
    assert Live(m, s.now) == LiveOwners(s) - {owner};
    assert Live(r.deadlines - {owner}, s.now) == Live(r.deadlines, s.now) - {owner};
    if m != map[] && Latest(m) <= s.now {
      assert Live(m, s.now) == map[];
    }
  }

  lemma TickRefines(s: Server, r: Reference, ms: nat)
    requires Refines(s, r)
    ensures Refines(Step(s, Tick(ms)), RefStep(r, Tick(ms)))
  {
    CoveredLive(s.key, s.now);
    CoveredLive(s.key, s.now + ms);
    var before := if s.key.Absent? then map[] else s.key.members;
    assert Live(before, s.now + ms) == Live(Live(before, s.now), s.now + ms);
    assert Live(r.deadlines, s.now + ms) == Live(Live(r.deadlines, s.now), s.now + ms);
  }

  lemma StepRefines(s: Server, r: Reference, op: Op)
    requires Refines(s, r)
    ensures Refines(Step(s, op), RefStep(r, op))
  {
    match op
    case Acquire(owner, limit, ttl) => AcquireRefines(s, r, owner, limit, ttl);
    case Release(owner) => ReleaseRefines(s, r, owner);
    case Tick(ms) => TickRefines(s, r, ms);
    case Evict => CoveredLive(s.key, s.now);
  }

  /**
   In any run of acquires (with any limits and TTLs, replays included), releases, time steps and evictions, the lease
   set answers every command as the plain map does and holds the same live owners with the same deadlines.
   */
  lemma {:induction false} LeaseSetRefinesMap(ops: seq<Op>, now: int)
    ensures Refines(Run(ops, now), RefRun(ops, now))
  {
    if ops == [] {
      assert Live(map[], now) == map[];
    } else {
      LeaseSetRefinesMap(ops[..|ops| - 1], now);
      StepRefines(Run(ops[..|ops| - 1], now), RefRun(ops[..|ops| - 1], now), ops[|ops| - 1]);
    }
  }

  // ---- the limit ----

  lemma FewerLive(m: Members, now: int, later: int)
    requires now <= later
    ensures |Live(m, later)| <= |Live(m, now)|
  {
    SubsetSize(Live(m, later).Keys, Live(m, now).Keys);
  }

  predicate LimitedTo(ops: seq<Op>, limit: nat) {
    forall op | op in ops && op.Acquire? :: op.limit <= limit
  }

  lemma GrantWithinLimit(m: Members, owner: string, now: int, deadline: int, limit: nat)
    requires |Live(m, now)| <= limit && (owner !in Live(m, now) ==> |Live(m, now)| < limit)
    ensures |Live(m[owner := deadline], now)| <= limit
  {
    var after := Live(m[owner := deadline], now);
    assert after.Keys <= Live(m, now).Keys + {owner};
    SubsetSize(after.Keys, Live(m, now).Keys + {owner});
    if owner in Live(m, now) {
      assert Live(m, now).Keys + {owner} == Live(m, now).Keys;
    }
  }

  lemma {:induction false} ReferenceWithinLimit(ops: seq<Op>, now: int, limit: nat)
    requires LimitedTo(ops, limit)
    ensures var r := RefRun(ops, now); |Live(r.deadlines, r.now)| <= limit
  {
    if ops == [] {
      assert Live(map[], now) == map[];
    } else {
      var init, op := ops[..|ops| - 1], ops[|ops| - 1];
      assert op in ops;
      ReferenceWithinLimit(init, now, limit);
      var r := RefRun(init, now);
      match op {
        case Acquire(owner, l, ttl) =>
          if ValidArguments(op) && !(owner !in Live(r.deadlines, r.now) && |Live(r.deadlines, r.now)| >= l) {
            GrantWithinLimit(r.deadlines, owner, r.now, r.now + Millis(ttl), limit);
          }
        case Release(owner) => SubsetSize(Live(r.deadlines - {owner}, r.now).Keys, Live(r.deadlines, r.now).Keys);
        case Tick(ms) => FewerLive(r.deadlines, r.now, r.now + ms);
        case Evict =>
      }
    }
  }

  /** With a common limit, the live owners never exceed it. */
  lemma {:induction false} LiveOwnersWithinLimit(ops: seq<Op>, now: int, limit: nat)
    requires LimitedTo(ops, limit)
    ensures |LiveOwners(Run(ops, now))| <= limit
  {
    LeaseSetRefinesMap(ops, now);
    ReferenceWithinLimit(ops, now, limit);
  }

  /**
   A replay by a live owner is granted at any limit, takes no second slot and moves its own deadline; with a lifetime
   below a millisecond it gives its slot up.
   */
  lemma {:induction false} ReplayTakesNoSlot(ops: seq<Op>, now: int, owner: string, limit: int, ttl: int)
    requires owner in LiveOwners(Run(ops, now)) && ValidArguments(Acquire(owner, limit, ttl))
    ensures var s := Run(ops, now);
            var s', live := Step(s, Acquire(owner, limit, ttl)), LiveOwners(s);
            && s'.last.Granted?
            && LiveOwners(s') == (if Millis(ttl) > 0 then live[owner := s.now + Millis(ttl)] else live - {owner})
            && |LiveOwners(s')| == (if Millis(ttl) > 0 then |live| else |live| - 1)
  {
    var s := Run(ops, now);
    ReplayedOwner(LiveOwners(s), owner, s.now, Millis(ttl));
  }

  lemma ReplayedOwner(live: Members, owner: string, now: int, ms: int)
    requires owner in live && ms >= 0 && Live(live, now) == live
    ensures var after := Live(Visible(AddOwner(live, owner, now, ms), now), now);
            && after == (if ms > 0 then live[owner := now + ms] else live - {owner})
            && |after| == (if ms > 0 then |live| else |live| - 1)
  {
    AddOwnerLive(live, owner, now, ms);
    MovedOwner(live, owner, now, ms);
    MovedSize(live, owner, now + ms);
  }

  lemma MovedOwner(live: Members, owner: string, now: int, ms: int)
    requires owner in live && ms >= 0 && Live(live, now) == live
    ensures Live(live[owner := now + ms], now) == (if ms > 0 then live[owner := now + ms] else live - {owner})
  {
    assert forall o | o in live :: o in Live(live, now);
  }

  lemma MovedSize(live: Members, owner: string, deadline: int)
    requires owner in live
    ensures |live[owner := deadline]| == |live| && |live - {owner}| == |live| - 1
  {
    assert live[owner := deadline].Keys == live.Keys && (live - {owner}).Keys == live.Keys - {owner};
    assert |(live - {owner}).Keys| == |live.Keys| - 1;
  }

  /**
   A granted acquire holds a slot if and only if its lifetime is at least one millisecond: less is truncated to none.
   */
  lemma GrantedHoldsIff(s: Server, owner: string, limit: int, ttl: int)
    requires ValidArguments(Acquire(owner, limit, ttl)) && (owner in LiveOwners(s) || |LiveOwners(s)| < limit)
    ensures var s' := Step(s, Acquire(owner, limit, ttl));
            s'.last.Granted? && (owner in LiveOwners(s') <==> ttl >= 1_000_000)
  {
    AddOwnerLive(LiveOwners(s), owner, s.now, Millis(ttl));
  }

  // ---- the object ----

  /** One lease key and the server clock, with the scripts run command by command. */
  class LeaseKey {
    var exists_: bool
    var members: Members
    var expireAt: int
    var now: int

    ghost function Value(): Key
      reads this
    {
      if exists_ then Present(members, expireAt) else Absent
    }

    constructor (now: int)
      ensures Value() == Absent && this.now == now
    {
      exists_, members, expireAt, this.now := false, map[], 0, now;
    }

    /** Any command first notices that the key has expired. */
    method Touch()
      modifies `exists_, `members
      ensures members == Visible(old(Value()), now) && (exists_ ==> old(Value()) == Value()) &&
              (!exists_ ==> members == map[])
    {
      if exists_ && now > expireAt {
        exists_ := false;
      }
      if !exists_ {
        members := map[];
      }
    }

    method PExpireAt(when: int)
      modifies `exists_, `expireAt
      ensures Value() == ExpireAt(members, when, now)
    {
      exists_, expireAt := when > now, when;
    }

    method AcquireLeaseSlot(owner: string, limit: int, ttl: int) returns (outcome: Outcome)
      modifies `exists_, `members, `expireAt
      ensures Server(Value(), now, outcome) == Step(Server(old(Value()), now, Invalid), Acquire(owner, limit, ttl))
    {
      if limit <= 0 || ttl <= 0 || Text.TrimSpace(owner) == "" {
        return Invalid;
      }
      Touch();
      members := Live(members, now);
      if owner in members {
        Add(owner, Millis(ttl));
        return Granted;
      }
      if |members| >= limit {
        assert members != map[];
        return Denied;
      }
      Add(owner, Millis(ttl));
      outcome := Granted;
    }

    /** ZADD, ZRANGE and PEXPIREAT. */
    method Add(owner: string, ttl: int)
      modifies `exists_, `members, `expireAt
      ensures Value() == AddOwner(old(members), owner, now, ttl)
    {
      members := members[owner := now + ttl];
      assert owner in members;
      var latest := Latest(members);
      PExpireAt(latest);
    }

    method ReleaseLeaseSlot(owner: string)
      modifies `exists_, `members, `expireAt
      ensures Value() == ReleaseScript(old(Value()), now, owner)
    {
      Touch();
      members := members - {owner};
      if members == map[] {
        exists_ := false;
      } else {
        var latest := Latest(members);
        PExpireAt(latest);
      }
    }
  }
}
