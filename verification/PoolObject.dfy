/** The pool under its mutex: selection, reservations, rollback, release, reload and affinity upkeep, in place. */
module PoolObject {

  import opened Options
  import Sets
  import opened Accounts
  import opened Selection
  import opened PoolSelect
  import Reservations
  import Text

  function AffinityKey(model: string, key: string): string {
    model + "\0" + key
  }

  function Lookup<T>(m: map<string, T>, key: string): Option<T> {
    if key in m then Some(m[key]) else None
  }

  function Cursor(roundRobin: map<string, nat>, model: string): nat {
    if model in roundRobin then roundRobin[model] else 0
  }

  function RolledBack(l: Local, until: Option<int>): Local {
    l.(inflight := if l.inflight > 0 then l.inflight - 1 else 0, cooldownTill := Later(l.cooldownTill, until))
  }

  function Ids(items: seq<Account>): set<string> {
    set k | 0 <= k < |items| :: items[k].id
  }

  /** The listing comes from a table keyed by ID. */
  predicate DistinctRows(items: seq<Account>) {
    forall i, j | 0 <= i < j < |items| :: items[i].id != items[j].id
  }

  /** The pool after a listing: exactly the listed accounts, each reconciled with the copy there was. */
  predicate Listed(before: States, items: seq<Account>, after: States) {
    && after.Keys == Ids(items)
    && forall k | 0 <= k < |items| :: items[k].id in after && Reconciled(before, items[k], after[items[k].id])
  }

  predicate Reconciled(before: States, item: Account, l: Local) {
    l == Reload(Lookup(before, item.id), item)
  }

  /** Some rows are reconciled, the other copies are as before. */
  predicate Loading(before: States, done: seq<Account>, states: States) {
    && states.Keys == before.Keys + Ids(done)
    && (forall k | 0 <= k < |done| :: done[k].id in states && Reconciled(before, done[k], states[done[k].id]))
    && (forall id | id in before && id !in Ids(done) :: id in states && states[id] == before[id])
  }

  lemma LoadOne(before: States, done: seq<Account>, item: Account, states: States)
    requires Loading(before, done, states) && forall k | 0 <= k < |done| :: done[k].id != item.id
    ensures Ids(done + [item]) == Ids(done) + {item.id}
    ensures Loading(before, done + [item], states[item.id := Reload(Lookup(states, item.id), item)])
  {
    IdsSnoc(done, item);
    assert Lookup(states, item.id) == Lookup(before, item.id) by {
      assert item.id !in Ids(done);
      assert item.id in states <==> item.id in before;
    }
    LoadedOne(before, done, item, states, Reload(Lookup(states, item.id), item));
  }

  lemma IdsSnoc(done: seq<Account>, item: Account)
    ensures Ids(done + [item]) == Ids(done) + {item.id}
  {
    var next := done + [item];
    assert next[|done|] == item;
    assert forall k | 0 <= k < |done| :: next[k] == done[k];
  }

  lemma LoadedOne(before: States, done: seq<Account>, item: Account, states: States, l: Local)
    requires Loading(before, done, states) && (forall k | 0 <= k < |done| :: done[k].id != item.id) &&
             Reconciled(before, item, l)
    requires Ids(done + [item]) == Ids(done) + {item.id}
    ensures Loading(before, done + [item], states[item.id := l])
  {
    assert states[item.id := l].Keys == states.Keys + {item.id};
  }

  /** Entries that point at an active account of the pool. */
  function ToActive(affinities: map<string, Binding>, states: States): map<string, Binding> {
    map key | key in affinities && affinities[key].account in states &&
    states[affinities[key].account].account.status.Active? :: affinities[key]
  }

  function Unexpired(affinities: map<string, Binding>, now: int): map<string, Binding> {
    map key | key in affinities && affinities[key].expiresAt > now :: affinities[key]
  }

  /** What was dropped was used no later than what was kept. */
  predicate Trimmed(live: map<string, Binding>, kept: map<string, Binding>) {
    && (forall key | key in kept :: key in live && kept[key] == live[key])
    && (forall gone, key | gone in live && gone !in kept && key in kept :: live[gone].usedAt <= kept[key].usedAt)
  }

  /** Nothing is dropped without need, and then no more than needed. */
  predicate Pruned(live: map<string, Binding>, kept: map<string, Binding>, most: nat) {
    && Trimmed(live, kept) && |kept| < most
    && (kept != live ==> |kept| + 1 == most)
  }

  /** While there is room, nothing but expired entries is dropped. */
  lemma RoomKeepsAll(live: map<string, Binding>, kept: map<string, Binding>, most: nat)
    requires Pruned(live, kept, most) && |live| < most
    ensures kept == live
  {
    if kept != live {
      TrimmedSmaller(live, kept);
      assert false;
    }
  }

  lemma TrimmedSmaller(live: map<string, Binding>, kept: map<string, Binding>)
    requires Trimmed(live, kept) && kept != live
    ensures |kept| < |live|
  {
    assert kept.Keys <= live.Keys && kept.Keys != live.Keys;
    Sets.ProperSubsetSmaller(kept.Keys, live.Keys);
    assert |kept.Keys| == |kept| && |live.Keys| == |live|;
  }

  lemma TrimOne(live: map<string, Binding>, kept: map<string, Binding>, key: string)
    requires Trimmed(live, kept) && key in kept && forall other | other in kept ::
             kept[key].usedAt <= kept[other].usedAt
    ensures Trimmed(live, kept - {key}) && |kept - {key}| == |kept| - 1
  {
    assert (kept - {key}).Keys == kept.Keys - {key};
    assert |(kept - {key}).Keys| == |kept.Keys| - 1;
  }

  /** The conversation's entry is dropped, but only while it is that of the given account. */
  function Unbound(affinities: map<string, Binding>, model: string, key: string, account: string): map<string,
  Binding> {
    var mapKey := AffinityKey(model, key);
    if model != "" && key != "" && account != "" && mapKey in affinities && affinities[mapKey].account == account
    then affinities - {mapKey}
    else affinities
  }

  lemma NamedSnoc(ids: seq<string>, id: string)
    ensures Named(ids + [id]) == Named(ids) + if Text.TrimSpace(id) == "" then {} else {Text.TrimSpace(id)}
  {
    var all := ids + [id];
    assert all[|ids|] == id;
    assert forall k | 0 <= k < |ids| :: all[k] == ids[k];
  }

  // ---- settings ----

  const SECOND := 1_000_000_000
  const DAY := 86_400 * SECOND

  /** A configured policy; `None` is a strategy that cannot be parsed, or a missing table of rates. */
  datatype Settings = Settings(strategy: Option<Strategy>, concurrency: int, forbiddenCooldown: int,
                               rates: Option<map<string, int>>,
                               transientBase: int, transientMax: int, affinityTTL: int, maxAffinities: int)

  const DEFAULTS := Policy(2, 1800 * SECOND,
                           map["cli_oauth" := 3600 * SECOND, "console_sso" := 14_400 * SECOND,
                               "grok_sso" := 900 * SECOND],
                           5 * SECOND, 300 * SECOND)

  function Positive(value: int, fallback: int): int {
    if value > 0 then value else fallback
  }

  // ---- the counters, as the reservation protocol sees them ----

  /** Reservations and effective limits by account. */
  function Counters(states: States, policy: Policy): map<string, Reservations.Entry> {
    map id | id in states :: Reservations.Entry(states[id].inflight, Limit(states[id].account, policy))
  }

  /** The effective limits of a listing. */
  function Limits(items: seq<Account>, policy: Policy): map<string, int> {
    if items == [] then map[]
    else
      var last := items[|items| - 1];
      Limits(items[..|items| - 1], policy)[last.id := Limit(last, policy)]
  }

  lemma {:induction false} LimitsOf(items: seq<Account>, policy: Policy)
    requires DistinctRows(items)
    ensures Limits(items, policy).Keys == Ids(items)
    ensures forall k | 0 <= k < |items| :: items[k].id in Limits(items, policy) &&
                                           Limits(items, policy)[items[k].id] == Limit(items[k], policy)
  {
    if items != [] {
      var init, last := items[..|items| - 1], items[|items| - 1];
      LimitsOf(init, policy);
      assert items == init + [last];
      assert Ids(items) == Ids(init) + {last.id};
    }
  }

  lemma {:induction false} ListedCounters(before: States, items: seq<Account>, after: States, policy: Policy)
    requires DistinctRows(items) && Listed(before, items, after)
    ensures Counters(after, policy) == Reservations.Relisted(Counters(before, policy), Limits(items, policy))
  {
    LimitsOf(items, policy);
    forall k | 0 <= k < |items|
      ensures ListedCounter(before, items[k], after, policy)
    {
      assert Reconciled(before, items[k], after[items[k].id]);
    }
    ListedCountersAgree(before, items, after, policy);
  }

  /** The counter of a listed account: its reservations are kept, its limit is the listed one. */
  predicate ListedCounter(before: States, item: Account, after: States, policy: Policy) {
    && item.id in after && Limit(after[item.id].account, policy) == Limit(item, policy)
    && after[item.id].inflight == if item.id in before then before[item.id].inflight else 0
  }

  lemma {:induction false} ListedCountersAgree(before: States, items: seq<Account>, after: States, policy: Policy)
    requires after.Keys == Ids(items) == Limits(items, policy).Keys
    requires forall k | 0 <= k < |items| :: ListedCounter(before, items[k], after, policy)
    requires forall k | 0 <= k < |items| :: items[k].id in Limits(items, policy) &&
                                            Limits(items, policy)[items[k].id] == Limit(items[k], policy)
    ensures Counters(after, policy) == Reservations.Relisted(Counters(before, policy), Limits(items, policy))
  {
    forall id | id in after
      ensures Counters(after, policy)[id] == Reservations.Relisted(Counters(before, policy), Limits(items, policy))[id]
    {
      var k :| 0 <= k < |items| && items[k].id == id;
      assert ListedCounter(before, items[k], after, policy);
    }
  }

  lemma BumpedCounters(states: States, id: string, l: Local, policy: Policy)
    requires id in states && l.inflight == states[id].inflight + 1 &&
             l.account.concurrencyLimit == states[id].account.concurrencyLimit
    ensures Counters(states[id := l], policy) == Reservations.Incremented(Counters(states, policy), id)
  {
  }

  lemma WalkedCounters(states: States, excluded: set<string>, now: int, policy: Policy)
    ensures Counters(Walked(states, {}, excluded, now), policy) == Counters(states, policy)
  {
  }

  // ---- accounts to remove ----

  /** The IDs of a list, trimmed, without the blank ones. */
  function Named(ids: seq<string>): set<string> {
    set k | 0 <= k < |ids| && Text.TrimSpace(ids[k]) != "" :: Text.TrimSpace(ids[k])
  }

  // ---- acquire: requests, answers and other callers ----

  datatype Request = Request(model: Model, key: string, exclude: set<string>)

  datatype Outcome = Failed | NoAccount | Leased(account: Account, reused: bool, established: bool) | StillTrying

  datatype ProbeReply = NoSuchAccount | Busy | Ready(account: Account)

  /** What the pool may look like when the mutex is taken again. */
  datatype World = World(strategy: Strategy, states: States, affinities: map<string, Binding>, roundRobin: map<string,
                         nat>)

  datatype CooldownReply = Unknown | NotCooling | Cooling(until: int)

  datatype SlotReply = Lost | Full | Granted

  /**
   What one round of the loop meets: the clock, the other callers, and the answers of the coordinator and the store.
   */
  datatype Round = Round(now: int, before: World, during: World, cooldown: CooldownReply, slot: SlotReply,
                         credentials: bool, cleared: bool,
                         bound: Option<(string, bool)>)

  /** The conversation's usable account, or else the account of an entry found unusable; "" is none. */
  datatype Preference = Preference(account: string, stale: string, atCapacity: bool)

  /** The account is in the pool and durably eligible. */
  predicate Usable(states: States, id: string, m: Model, now: int, policy: Policy) {
    id in states && Durable(states[id], m, now, policy)
  }

  /** The coordinator says that the conversation belongs to the account, or, without one, an unexpired entry does. */
  predicate BoundTo(affinities: map<string, Binding>, mapKey: string, answer: Option<string>, now: int,
                    account: string) {
    if answer.Some? then answer.value == account
    else mapKey in affinities && affinities[mapKey].expiresAt > now && affinities[mapKey].account == account
  }

  /** The conversation belongs to an account that is not usable. */
  predicate StaleIn(req: Request, states: States, affinities: map<string, Binding>, answer: Option<string>, now: int,
                    policy: Policy,
                    account: string) {
    && BoundTo(affinities, AffinityKey(req.model.id, req.key), answer, now, account)
    && !Usable(states, account, req.model, now, policy)
  }

  /** The conversation belongs to a usable account. */
  predicate FreshIn(req: Request, states: States, affinities: map<string, Binding>, answer: Option<string>, now: int,
                    policy: Policy,
                    account: string) {
    && BoundTo(affinities, AffinityKey(req.model.id, req.key), answer, now, account)
    && Usable(states, account, req.model, now, policy)
  }

  /** No free slot, in the pool or as the coordinator said. */
  predicate AtCapacity(l: Local, id: string, full: set<string>, policy: Policy) {
    l.inflight >= Limit(l.account, policy) || id in full
  }

  /** The round finds the conversation bound, in the pool alone, to an account that is not usable. */
  ghost predicate FindsStale(req: Request, round: Round, policy: Policy) {
    exists account :: account != "" && StaleIn(req, round.before.states, round.before.affinities, None, round.now,
                                               policy, account)
  }

  /** The unexpired entries the round finds are fewer than the pool keeps. */
  predicate Roomy(round: Round, most: nat) {
    |Unexpired(round.before.affinities, round.now)| < most
  }

  /**
   A lease without a coordinator, where the conversation belongs to the account `holder`, if any: the rule of the
   strategy singles the leased account out; only an account without an ID is beyond this.
   */
  ghost predicate LocalLease(r: Outcome, holder: string, req: Request, useAffinity: bool, round: Round,
                             policy: Policy) {
    && r.Leased? && round.credentials && LocalChoice(r.account, holder, req, useAffinity, round, policy)
    && r.reused == (holder != "" && r.account.id == holder)
    && r.established == (useAffinity && !r.reused && (holder == "" || !OnlyFull(holder, {}, round, policy)))
  }

  ghost predicate LocalChoice(a: Account, holder: string, req: Request, useAffinity: bool, round: Round,
                              policy: Policy) {
    && a.id !in req.exclude && WasEligible(a.id, req, round, policy) && a == Snapshot(round, a.id)
    && ("" in round.before.states || SelectedIn(req, useAffinity, LocalSearch(holder, req), round, policy, a.id))
  }

  /** The holder is known to be full, or not, where there is one. */
  predicate Gauged(p: Preference, round: Round, policy: Policy) {
    p.account != "" ==> p.atCapacity == OnlyFull(p.account, {}, round, policy)
  }

  lemma LeasedLocally(r: Outcome, p: Preference, req: Request, useAffinity: bool, round: Round, policy: Policy)
    requires r.Leased? && round.credentials && LocalChoice(r.account, p.account, req, useAffinity, round, policy)
    requires Gauged(p, round, policy) && r.reused == (p.account != "" && p.account == r.account.id)
    requires r.established == (useAffinity && !r.reused && (p.account == "" || !p.atCapacity))
    ensures LocalLease(r, p.account, req, useAffinity, round, policy)
  {
  }

  function LocalSearch(holder: string, req: Request): Search {
    Search(req.exclude, {}, holder)
  }

  /** The usable account of the conversation's unexpired entry, if the pool has room for the entries it finds. */
  ghost predicate Holds(holder: string, req: Request, useAffinity: bool, round: Round, policy: Policy, most: nat) {
    && (holder != "" ==> useAffinity && FreshIn(req, round.before.states, round.before.affinities, None, round.now,
                                                policy, holder))
    && (useAffinity && Roomy(round, most) ==>
          forall account | FreshIn(req, round.before.states, round.before.affinities, None, round.now, policy,
                                   account) :: holder == account)
  }

  /** How a round ends: with a result, with a stale binding dropped, or with one more account excluded. */
  datatype Verdict = Final(outcome: Outcome) | Stale | Exclude(id: string, unbound: bool, atCapacity: bool)

  predicate Lawful(round: Round) {
    && Keyed(round.before.states) && "" !in round.before.affinities
    && Keyed(round.during.states) && "" !in round.during.affinities
  }

  predicate Within(round: Round, table: set<string>) {
    Lawful(round) && round.before.states.Keys <= table && round.during.states.Keys <= table
  }

  /** The coordinator and the store agreed to a lease. */
  predicate Welcomed(round: Round) {
    round.cooldown.NotCooling? && round.slot.Granted? && round.credentials
  }

  /** The coordinator turned the account down. */
  predicate Refused(round: Round) {
    round.cooldown.Cooling? || round.slot.Full?
  }

  predicate WasEligible(id: string, req: Request, round: Round, policy: Policy) {
    id in round.before.states && Eligible(round.before.states[id], req.model, round.now, policy)
  }

  predicate LeaseJustified(a: Account, req: Request, round: Round, policy: Policy) {
    a.id !in req.exclude && WasEligible(a.id, req, round, policy) && Welcomed(round)
  }

  predicate NoneEligible(req: Request, excluded: set<string>, round: Round, policy: Policy) {
    forall id | id in round.before.states && id !in excluded :: !WasEligible(id, req, round, policy)
  }

  predicate VerdictJustified(v: Verdict, req: Request, search: Search, round: Round, policy: Policy) {
    match v
    case Final(Failed) => true
    case Final(StillTrying) => false
    case Final(NoAccount) => NoneEligible(req, search.excluded, round, policy)
    case Final(Leased(a, _, _)) => a.id !in search.excluded && LeaseJustified(a, req, round, policy)
    case Stale => search.coordinated != ""
    case Exclude(id, _, _) => id !in search.excluded && WasEligible(id, req, round, policy) && Refused(round)
  }

  // ---- what a round comes to ----

  /** The coordinator's account of the conversation is not usable on the table the round finds. */
  predicate FindsUnusable(req: Request, coordinated: string, round: Round, policy: Policy) {
    coordinated != "" && !Usable(round.before.states, coordinated, req.model, round.now, policy)
  }

  /** The conversation's entry when the round selects: with affinity, that of the coordinator's account, if any. */
  predicate EntryFits(useAffinity: bool, coordinated: string, now: int, binding: Option<Binding>) {
    useAffinity ==>
      if coordinated == "" then binding.None?
      else binding.Some? && binding.value.account == coordinated && binding.value.expiresAt > now
  }

  /** The rule of the strategy singles the account out, on the table the round finds. */
  ghost predicate SelectedIn(req: Request, useAffinity: bool, search: Search, round: Round, policy: Policy,
                             id: string) {
    exists binding: Option<Binding> ::
      && EntryFits(useAffinity, search.coordinated, round.now, binding)
      && Selects(round.before.states, search.excluded, req.model, round.now, policy, round.before.strategy, binding,
                 Cursor(round.before.roundRobin, req.model.id), Some(id))
  }

  /** The account as it is leased: active if its cooldown is over, and just used. */
  function Snapshot(round: Round, id: string): Account
    requires id in round.before.states
  {
    Promoted(round.before.states[id], round.now).account.(lastUsedAt := Some(round.now))
  }

  /** The conversation leaves its account for this one, which is not because that one is only full. */
  predicate ClearDue(coordinated: string, preserve: bool, id: string) {
    coordinated != "" && id != coordinated && !preserve
  }

  /**
   An error on the way to a lease of the account: the cooldown could not be read; the binding of a cooling account could
   not be cleared; or, where it does not cool, the reply to the slot request was lost, or, with the slot, the
   credentials or the clearing or binding of the conversation failed.
   */
  predicate MetError(useAffinity: bool, coordinated: string, preserve: bool, id: string, round: Round) {
    match round.cooldown
    case Unknown => true
    case Cooling(_) => coordinated != "" && id == coordinated && !round.cleared
    case NotCooling =>
      round.slot.Lost? ||
      (round.slot.Granted? &&
       (!round.credentials || (ClearDue(coordinated, preserve, id) && !round.cleared) ||
        (useAffinity && round.bound.None?)))
  }

  /** How the answers of the coordinator and the store end the round for the reserved account. */
  predicate Answered(useAffinity: bool, coordinated: string, preserve: bool, reused: bool, a: Account, round: Round,
                     v: Verdict) {
    if MetError(useAffinity, coordinated, preserve, a.id, round) then v == Final(Failed)
    else if round.cooldown.Cooling? then v == Exclude(a.id, coordinated != "" && a.id == coordinated, false)
    else if round.slot.Full? then v == Exclude(a.id, false, true)
    else v == Final(Leased(a, reused, useAffinity && round.bound == Some((a.id, true))))
  }

  /** The conversation's own account is only full, on the table the round finds. */
  predicate OnlyFull(coordinated: string, full: set<string>, round: Round, policy: Policy) {
    coordinated in round.before.states && AtCapacity(round.before.states[coordinated], coordinated, full, policy)
  }

  /** The round ends as its table and its answers demand. */
  ghost predicate RoundComesTo(req: Request, useAffinity: bool, search: Search, round: Round, policy: Policy,
                               v: Verdict) {
    var coordinated := search.coordinated;
    if FindsUnusable(req, coordinated, round, policy) then v == if round.cleared then Stale else Final(Failed)
    else if Candidates(round.before.states, search.excluded, req.model, round.now, policy) == {}
    then v == Final(NoAccount)
    else
      exists id ::
        && SelectedIn(req, useAffinity, search, round, policy, id) && id in round.before.states
        && Answered(useAffinity, coordinated, id != coordinated && OnlyFull(coordinated, search.full, round, policy),
                    coordinated != "" && id == coordinated, Snapshot(round, id), round, v)
  }

  /** What the search is after some verdicts. */
  function SearchAfter(start: Search, verdicts: seq<Verdict>): Search {
    if verdicts == [] then start else Narrowed(verdicts[|verdicts| - 1], SearchAfter(start, verdicts[..|verdicts| - 1]))
  }

  /** Every round of the call ends as its table and its answers demand, after the rounds before it. */
  ghost predicate Traced(req: Request, useAffinity: bool, start: Search, env: seq<Round>, policy: Policy,
                         verdicts: seq<Verdict>) {
    && |verdicts| <= |env|
    && (forall k | 0 <= k < |verdicts| ::
          RoundComesTo(req, useAffinity, SearchAfter(start, verdicts[..k]), env[k], policy, verdicts[k]))
  }

  lemma {:induction false} TracedMore(req: Request, useAffinity: bool, start: Search, env: seq<Round>, policy: Policy,
                                      verdicts: seq<Verdict>, v: Verdict)
    requires Traced(req, useAffinity, start, env, policy, verdicts) && |verdicts| < |env|
    requires RoundComesTo(req, useAffinity, SearchAfter(start, verdicts), env[|verdicts|], policy, v)
    ensures Traced(req, useAffinity, start, env, policy, verdicts + [v])
    ensures SearchAfter(start, verdicts + [v]) == Narrowed(v, SearchAfter(start, verdicts))
  {
    var more := verdicts + [v];
    assert more[..|verdicts|] == verdicts;
    forall k | 0 <= k < |more|
      ensures RoundComesTo(req, useAffinity, SearchAfter(start, more[..k]), env[k], policy, more[k])
    {
      assert more[..k] == verdicts[..k];
    }
  }

  /** The coordinator and the store answer everything, and grant the slot. */
  predicate AllWell(useAffinity: bool, round: Round) {
    Welcomed(round) && round.cleared && (useAffinity ==> round.bound.Some?)
  }

  /** Some answer is an error. */
  predicate SomeError(useAffinity: bool, round: Round) {
    || round.cooldown.Unknown? || !round.cleared
    || (round.cooldown.NotCooling? && round.slot.Lost?)
    || (round.cooldown.NotCooling? && round.slot.Granted? && (!round.credentials || (useAffinity && round.bound.None?)))
  }

  /** A call fails only in a round that met an error. */
  lemma FailedMetError(req: Request, useAffinity: bool, search: Search, round: Round, policy: Policy)
    requires RoundComesTo(req, useAffinity, search, round, policy, Final(Failed))
    ensures SomeError(useAffinity, round)
  {
  }

  /** With an eligible account, no unusable binding, a free slot and no error, a round ends in a lease. */
  lemma WelcomedIsLeased(req: Request, useAffinity: bool, search: Search, round: Round, policy: Policy, v: Verdict)
    requires RoundComesTo(req, useAffinity, search, round, policy, v) && AllWell(useAffinity, round) && Lawful(round)
    requires !FindsUnusable(req, search.coordinated, round, policy)
    requires exists id :: id in Candidates(round.before.states, search.excluded, req.model, round.now, policy)
    ensures v.Final? && v.outcome.Leased?
    ensures SelectedIn(req, useAffinity, search, round, policy, v.outcome.account.id)
  {
  }

  /** The loop of Acquire between two rounds. */
  ghost predicate Searching(req: Request, useAffinity: bool, table: set<string>, start: Search, env: seq<Round>,
                            policy: Policy, rounds: nat, search: Search, refusedIn: map<string, nat>,
                            verdicts: seq<Verdict>) {
    && Progress(req, table, env, rounds, search, refusedIn)
    && |verdicts| == rounds && Traced(req, useAffinity, start, env, policy, verdicts)
    && search == SearchAfter(start, verdicts) && (search.coordinated != "" ==> useAffinity)
  }

  /** The call has ended: how, and what the last round met. */
  ghost predicate Concluded(r: Outcome, req: Request, useAffinity: bool, start: Search, env: seq<Round>,
                            policy: Policy, rounds: nat, refusedIn: map<string, nat>, verdicts: seq<Verdict>) {
    && Ended(r, req, env, rounds, refusedIn, policy)
    && |verdicts| == rounds && verdicts[rounds - 1] == Final(r)
    && Traced(req, useAffinity, start, env, policy, verdicts)
    && (r.Failed? ==> SomeError(useAffinity, env[rounds - 1]))
    && (AllWell(useAffinity, env[rounds - 1]) ==> r.Leased? || r.NoAccount?)
  }

  /** How the last round of a call ends it. */
  lemma EndOfRound(req: Request, useAffinity: bool, search: Search, round: Round, policy: Policy, v: Verdict)
    requires RoundComesTo(req, useAffinity, search, round, policy, v) && v.Final?
    ensures v.outcome.Failed? ==> SomeError(useAffinity, round)
    ensures AllWell(useAffinity, round) ==> v.outcome.Leased? || v.outcome.NoAccount?
  {
  }

  /** Accounts the coordinator turned down, and in which round. */
  ghost predicate TurnedDown(env: seq<Round>, rounds: nat, refusedIn: map<string, nat>) {
    forall id | id in refusedIn :: refusedIn[id] < rounds <= |env| && Refused(env[refusedIn[id]])
  }

  ghost predicate RefusalJustified(req: Request, env: seq<Round>, rounds: nat, refusedIn: map<string, nat>,
                                   policy: Policy)
    requires 1 <= rounds <= |env|
  {
    TurnedDown(env, rounds - 1, refusedIn) && NoneEligible(req, req.exclude + refusedIn.Keys, env[rounds - 1], policy)
  }

  /**
   What the loop of Acquire carries from round to round; `coordinated` is the binding read from the coordinator, or "".
   */
  datatype Search = Search(excluded: set<string>, full: set<string>, coordinated: string)

  function Narrowed(v: Verdict, search: Search): Search {
    match v
    case Final(_) => search
    case Stale => search.(coordinated := "")
    case Exclude(id, unbound, atCapacity) =>
      Search(search.excluded + {id}, if atCapacity then search.full + {id} else search.full,
             if unbound then "" else search.coordinated)
  }

  ghost function Refusals(v: Verdict, refusedIn: map<string, nat>, round: nat): map<string, nat> {
    if v.Exclude? then refusedIn[v.id := round] else refusedIn
  }

  /** Rounds that can still follow: one per account not excluded, and one for a binding that may be stale. */
  ghost function Rest(table: set<string>, search: Search): nat {
    |table - search.excluded| + if search.coordinated == "" then 0 else 1
  }

  /** The invariant of the loop of Acquire, with `rounds` rounds gone. */
  ghost predicate Progress(req: Request, table: set<string>, env: seq<Round>, rounds: nat, search: Search,
                           refusedIn: map<string, nat>) {
    && AllWithin(env, table) && rounds + Rest(table, search) < |env|
    && search.excluded == req.exclude + refusedIn.Keys && TurnedDown(env, rounds, refusedIn)
  }

  ghost predicate AllWithin(env: seq<Round>, table: set<string>) {
    forall k | 0 <= k < |env| :: Within(env[k], table)
  }

  lemma Begun(req: Request, table: set<string>, env: seq<Round>, search: Search)
    requires |env| == |table - req.exclude| + 2 && AllWithin(env, table) && search.excluded == req.exclude
    ensures Progress(req, table, env, 0, search, map[])
  {
  }

  lemma Continues(req: Request, table: set<string>, env: seq<Round>, rounds: nat, search: Search, refusedIn: map<string,
                  nat>)
    requires Progress(req, table, env, rounds, search, refusedIn)
    ensures rounds < |env| && Lawful(env[rounds]) && req.exclude <= search.excluded
  {
    assert Within(env[rounds], table);
  }

  lemma RestShrinks(table: set<string>, search: Search, v: Verdict)
    requires v.Exclude? && v.id in table && v.id !in search.excluded
    ensures Rest(table, Narrowed(v, search)) < Rest(table, search)
  {
    assert table - (search.excluded + {v.id}) == (table - search.excluded) - {v.id};
  }

  lemma Retried(v: Verdict, req: Request, table: set<string>, env: seq<Round>, rounds: nat, search: Search,
                refusedIn: map<string, nat>, policy: Policy)
    requires Progress(req, table, env, rounds, search, refusedIn) && rounds < |env|
    requires !v.Final? && VerdictJustified(v, req, search, env[rounds], policy)
    ensures Progress(req, table, env, rounds + 1, Narrowed(v, search), Refusals(v, refusedIn, rounds))
    ensures Rest(table, Narrowed(v, search)) < Rest(table, search)
  {
    if v.Exclude? {
      assert Within(env[rounds], table);
      RestShrinks(table, search, v);
      TurnedDownToo(env, rounds, refusedIn, v.id);
    }
  }

  lemma TurnedDownToo(env: seq<Round>, rounds: nat, refusedIn: map<string, nat>, id: string)
    requires TurnedDown(env, rounds, refusedIn) && rounds < |env| && Refused(env[rounds])
    ensures TurnedDown(env, rounds + 1, refusedIn[id := rounds]) &&
            refusedIn[id := rounds].Keys == refusedIn.Keys + {id}
  {
  }

  lemma Finished(r: Outcome, req: Request, table: set<string>, env: seq<Round>, rounds: nat, search: Search,
                 refusedIn: map<string, nat>, policy: Policy)
    requires 1 <= rounds <= |env| && Progress(req, table, env, rounds - 1, search, refusedIn)
    requires VerdictJustified(Final(r), req, search, env[rounds - 1], policy)
    ensures Ended(r, req, env, rounds, refusedIn, policy)
  {
  }

  /** The result is not still open, and a lease or a refusal is justified. */
  ghost predicate Ended(r: Outcome, req: Request, env: seq<Round>, rounds: nat, refusedIn: map<string, nat>,
                        policy: Policy) {
    && 1 <= rounds <= |env| && !r.StillTrying?
    && (r.Leased? ==> LeaseJustified(r.account, req, env[rounds - 1], policy))
    && (r.NoAccount? ==> RefusalJustified(req, env, rounds, refusedIn, policy))
  }

  /** What the critical section of a round finds: the selected account, and how it stands to the conversation's own. */
  ghost predicate Claimed(req: Request, useAffinity: bool, search: Search, round: Round, policy: Policy,
                          p: Preference, a: Account) {
    && !FindsUnusable(req, search.coordinated, round, policy)
    && SelectedIn(req, useAffinity, search, round, policy, a.id)
    && a.id in round.before.states && a == Snapshot(round, a.id) && p.account == search.coordinated
    && (p.account != "" ==> p.atCapacity == OnlyFull(search.coordinated, search.full, round, policy))
    && a.id in Candidates(round.before.states, search.excluded, req.model, round.now, policy)
  }

  lemma PreferredIsCoordinated(req: Request, search: Search, round: Round, policy: Policy, table: States,
                               p: Preference)
    requires PromotedSome(round.before.states, table, round.now) && p.account == search.coordinated
    requires p.account != "" ==>
               p.account in table && p.atCapacity == AtCapacity(table[p.account], p.account, search.full, policy)
    ensures p.account != "" ==> p.atCapacity == OnlyFull(search.coordinated, search.full, round, policy)
  {
  }

  lemma ClaimedComesTo(req: Request, useAffinity: bool, search: Search, round: Round, policy: Policy, p: Preference,
                       a: Account, v: Verdict)
    requires Claimed(req, useAffinity, search, round, policy, p, a)
    requires Answered(useAffinity, search.coordinated, p.account != "" && a.id != p.account && p.atCapacity,
                      p.account != "" && p.account == a.id, a, round, v)
    ensures RoundComesTo(req, useAffinity, search, round, policy, v)
    ensures a.id !in search.excluded && WasEligible(a.id, req, round, policy)
  {
    var preserve := a.id != search.coordinated && OnlyFull(search.coordinated, search.full, round, policy);
    SameAnswer(useAffinity, search.coordinated, p.account != "" && a.id != p.account && p.atCapacity, preserve,
               p.account != "" && p.account == a.id, a, round, v);
    assert SelectedIn(req, useAffinity, search, round, policy, a.id);
  }

  /** Without a coordinated account there is nothing to preserve. */
  lemma SameAnswer(useAffinity: bool, coordinated: string, preserve: bool, other: bool, reused: bool, a: Account,
                   round: Round, v: Verdict)
    requires Answered(useAffinity, coordinated, preserve, reused, a, round, v)
    requires coordinated != "" ==> preserve == other
    ensures Answered(useAffinity, coordinated, other, reused, a, round, v)
  {
  }

  /** What the reservation found is what the rule singles out on the table the round finds. */
  lemma ReservedIsSelected(req: Request, useAffinity: bool, search: Search, round: Round, policy: Policy,
                           table: States, binding: Option<Binding>, a: Account)
    requires PromotedSome(round.before.states, table, round.now) && a.id in table
    requires Selects(table, search.excluded, req.model, round.now, policy, round.before.strategy, binding,
                     Cursor(round.before.roundRobin, req.model.id), Some(a.id))
    requires a == Promoted(table[a.id], round.now).account.(lastUsedAt := Some(round.now))
    ensures EntryFits(useAffinity, search.coordinated, round.now, binding) ==>
              SelectedIn(req, useAffinity, search, round, policy, a.id)
    ensures a.id in round.before.states && a == Snapshot(round, a.id)
  {
    SelectsAlike(round.before.states, table, search.excluded, req.model, round.now, policy, round.before.strategy,
                 binding, Cursor(round.before.roundRobin, req.model.id), Some(a.id));
  }

  lemma NoCandidates(req: Request, excluded: set<string>, round: Round, policy: Policy)
    requires Candidates(round.before.states, excluded, req.model, round.now, policy) == {}
    ensures NoneEligible(req, excluded, round, policy)
  {
    forall id | id in round.before.states && id !in excluded
      ensures !WasEligible(id, req, round, policy)
    {
      assert id !in Candidates(round.before.states, excluded, req.model, round.now, policy);
    }
  }

  /** Some accounts whose cooldown is over are active again. */
  predicate PromotedSome(before: States, after: States, now: int) {
    && before.Keys == after.Keys
    && forall id | id in after :: after[id] == before[id] || after[id] == Promoted(before[id], now)
  }

  lemma SameCandidates(before: States, after: States, excluded: set<string>, m: Model, now: int, policy: Policy)
    requires PromotedSome(before, after, now)
    ensures Candidates(after, excluded, m, now, policy) == Candidates(before, excluded, m, now, policy)
    ensures forall id | id in after :: Eligible(after[id], m, now, policy) == Eligible(before[id], m, now, policy)
  {
    forall id | id in after
      ensures Eligible(after[id], m, now, policy) == Eligible(before[id], m, now, policy)
    {
      PromotionIsInvisible(before[id], m, now, policy);
    }
  }

  class Pool {
    const policy: Policy
    const affinityTTL: int
    const maxAffinities: nat
    var strategy: Strategy
    var states: States
    var affinities: map<string, Binding>
    var roundRobin: map<string, nat>

    /** NewPoolWithCoordinator: settings that make no sense give way to the defaults, the others are kept. */
    constructor (settings: Settings)
      ensures Valid() && states == map[] && affinities == map[] && roundRobin == map[]
      ensures strategy == if settings.strategy.Some? then settings.strategy.value else ByAffinity
      ensures policy.rateLimitCooldown == if settings.rates.Some? then settings.rates.value
                                          else DEFAULTS.rateLimitCooldown
      ensures policy.defaultConcurrency == Positive(settings.concurrency, DEFAULTS.defaultConcurrency)
      ensures policy.forbiddenCooldown == Positive(settings.forbiddenCooldown, DEFAULTS.forbiddenCooldown)
      ensures policy.transientBase == Positive(settings.transientBase, DEFAULTS.transientBase)
      ensures policy.transientMax ==
              if settings.transientMax >= policy.transientBase then settings.transientMax else DEFAULTS.transientMax
      ensures affinityTTL == Positive(settings.affinityTTL, DAY) &&
              maxAffinities == Positive(settings.maxAffinities, 10_000)
    {
      var rates := if settings.rates.Some? then settings.rates.value else DEFAULTS.rateLimitCooldown;
      var base := if settings.transientBase <= 0 then DEFAULTS.transientBase else settings.transientBase;
      policy := Policy(if settings.concurrency <= 0 then DEFAULTS.defaultConcurrency else settings.concurrency,
                       if settings.forbiddenCooldown <= 0 then DEFAULTS.forbiddenCooldown
                          else settings.forbiddenCooldown,
                       rates, base,
                       if settings.transientMax < base then DEFAULTS.transientMax else settings.transientMax);
      strategy := if settings.strategy.None? then ByAffinity else settings.strategy.value;
      affinityTTL := if settings.affinityTTL <= 0 then DAY else settings.affinityTTL;
      maxAffinities := if settings.maxAffinities <= 0 then 10_000 else settings.maxAffinities;
      states, affinities, roundRobin := map[], map[], map[];
    }

    ghost predicate Valid()
      reads this
    {
      policy.Valid() && Keyed(states) && affinityTTL > 0 && maxAffinities > 0 && "" !in affinities
    }

    /** durablyEligibleLocked: promotes the account when its cooldown is over. */
    method DurablyEligible(id: string, m: Model, now: int) returns (ok: bool)
      requires Valid() && id in states
      modifies this`states
      ensures Valid() && states == old(states)[id := Promoted(old(states)[id], now)]
      ensures ok == Durable(old(states)[id], m, now, policy)
    {
      var state := states[id];
      var account := state.account;
      if account.status.Cooldown? && !After(state.cooldownTill, now) {
        account := account.(status := Active, cooldownUntil := None);
      }
      state := state.(account := account);
      states := states[id := state];
      if !account.status.Active? || After(state.cooldownTill, now) {
        return false;
      }
      if account.kind !in m.kinds {
        return false;
      }
      if account.models != [] && m.id !in account.models && m.upstreamModel !in account.models {
        return false;
      }
      if m.minimumTier != "" && TierRank(account.tier) < TierRank(m.minimumTier) {
        return false;
      }
      ok := !After(UnavailableUntil(account.quota, now, policy.RateLimit(account.kind)), now);
    }

    /** eligibleLocked. */
    method IsEligible(id: string, m: Model, now: int) returns (ok: bool)
      requires Valid() && id in states
      modifies this`states
      ensures Valid() && states == old(states)[id := Promoted(old(states)[id], now)]
      ensures ok == Eligible(old(states)[id], m, now, policy)
    {
      ok := DurablyEligible(id, m, now);
      ok := ok && states[id].inflight < Limit(states[id].account, policy);
    }

    /** The walk over the map, in any order. */
    method Collect(excluded: set<string>, m: Model, now: int) returns (candidates: seq<string>)
      requires Valid()
      modifies this`states
      ensures Valid() && states == Walked(old(states), {}, excluded, now)
      ensures Distinct(candidates) && Members(candidates) == Candidates(old(states), excluded, m, now, policy)
    {
      ghost var before := states;
      var remaining := states.Keys;
      candidates := [];
      while remaining != {}
        invariant Valid() && remaining <= before.Keys && states == Walked(before, remaining, excluded, now)
        invariant Collected(before, before.Keys - remaining, excluded, m, now, policy, candidates)
        decreases |remaining|
      {
        var id :| id in remaining;
        WalkExtends(before, remaining, id, excluded, now);
        CollectedExtends(before, remaining, id, excluded, m, now, policy, candidates);
        remaining := remaining - {id};
        if id !in excluded {
          var ok := IsEligible(id, m, now);
          if ok {
            candidates := candidates + [id];
          }
        }
      }
      assert before.Keys - remaining == before.Keys;
      CollectedAll(before, excluded, m, now, policy, candidates);
    }

    /** Keeps the candidates of the best tier, in order. */
    method KeepBestTier(candidates: seq<string>, m: Model) returns (preferred: seq<string>)
      requires Valid() && m.preferBest && candidates != [] && Distinct(candidates) && Members(candidates) <= states.Keys
      ensures Distinct(preferred) && Members(preferred) == Preferred(states, Members(candidates), m) && preferred != []
    {
      var best;
      ghost var top;
      best, top := BestTier(candidates);
      preferred := KeepTier(candidates, best);
      assert candidates[top] in preferred;
    }

    method BestTier(candidates: seq<string>) returns (best: nat, ghost top: nat)
      requires Valid() && candidates != [] && Members(candidates) <= states.Keys
      ensures top < |candidates| && TierRank(states[candidates[top]].account.tier) == best
      ensures forall j | 0 <= j < |candidates| :: TierRank(states[candidates[j]].account.tier) <= best
    {
      best := TierRank(states[candidates[0]].account.tier);
      top := 0;
      var i := 1;
      while i < |candidates|
        invariant 1 <= i <= |candidates| && 0 <= top < i && TierRank(states[candidates[top]].account.tier) == best
        invariant forall j | 0 <= j < i :: TierRank(states[candidates[j]].account.tier) <= best
      {
        var rank := TierRank(states[candidates[i]].account.tier);
        if rank > best {
          best := rank;
          top := i;
        }
        i := i + 1;
      }
    }

    method KeepTier(candidates: seq<string>, best: nat) returns (preferred: seq<string>)
      requires Valid() && Distinct(candidates) && Members(candidates) <= states.Keys
      ensures Distinct(preferred)
      ensures forall id :: id in preferred <==> id in candidates && id in states &&
                                                TierRank(states[id].account.tier) == best
    {
      preferred := [];
      var i := 0;
      while i < |candidates|
        invariant 0 <= i <= |candidates| && Distinct(preferred)
        invariant forall id :: id in preferred <==> id in candidates[..i] && id in states &&
                                                    TierRank(states[id].account.tier) == best
      {
        assert candidates[..i + 1] == candidates[..i] + [candidates[i]];
        if TierRank(states[candidates[i]].account.tier) == best {
          preferred := preferred + [candidates[i]];
        }
        i := i + 1;
      }
      assert candidates[..i] == candidates;
    }

    /** The scan for the highest score, ties going to the smaller ID. */
    method PickBest(candidates: seq<string>, now: int) returns (id: string)
      requires Valid() && candidates != [] && Distinct(candidates) && Members(candidates) <= states.Keys
      ensures Best(states, Members(candidates), id, now)
    {
      id := candidates[0];
      var i := 1;
      while i < |candidates|
        invariant 1 <= i <= |candidates| && id in candidates[..i]
        invariant forall j | 0 <= j < i && candidates[j] != id :: Beats(states, id, candidates[j], now)
      {
        var next := candidates[i];
        LessTotal(next, id);
        if Beats(states, next, id, now) {
          forall j | 0 <= j < i
            ensures candidates[j] != next && Beats(states, next, candidates[j], now)
          {
            if candidates[j] != id {
              BeatsTransitive(states, next, id, candidates[j], now);
            }
          }
          id := next;
        }
        i := i + 1;
      }
      assert candidates[..i] == candidates;
    }

    method Sorted(candidates: seq<string>) returns (sorted: seq<string>)
      requires Distinct(candidates)
      ensures Ascending(sorted) && Members(sorted) == Members(candidates) && |sorted| == |candidates|
    {
      sorted := [];
      var i := 0;
      while i < |candidates|
        invariant 0 <= i <= |candidates| && Ascending(sorted) && Members(sorted) == Members(candidates[..i])
      {
        assert candidates[..i + 1] == candidates[..i] + [candidates[i]];
        assert candidates[i] !in Members(sorted);
        InsertAscends(sorted, candidates[i]);
        sorted := Insert(sorted, candidates[i]);
        i := i + 1;
      }
      assert candidates[..i] == candidates;
      AscendingDistinct(sorted);
      DistinctSize(sorted);
      DistinctSize(candidates);
    }

    /**
     selectLocked.  The account returned is the one the order-free specification singles out (`ChoiceIsUnique`), and
     none is returned exactly when there is no candidate.
     */
    method Select(m: Model, key: string, excluded: set<string>, now: int) returns (r: Option<string>)
      requires Valid()
      modifies this`states, this`roundRobin
      ensures Valid() && states == Walked(old(states), {}, excluded, now)
      ensures var binding := if key != "" then Lookup(affinities, AffinityKey(m.id, key)) else None;
              var cursor := Cursor(old(roundRobin), m.id);
              && Selects(old(states), excluded, m, now, policy, strategy, binding, cursor, r)
              && roundRobin == if r.Some? && strategy.RoundRobin? then old(roundRobin)[m.id := (cursor + 1) % TWO_64]
                 else old(roundRobin)
    {
      var candidates := Collect(excluded, m, now);
      if candidates == [] {
        return None;
      }
      assert candidates[0] in Members(candidates);
      ghost var binding := if key != "" then Lookup(affinities, AffinityKey(m.id, key)) else None;
      var id := ChoosePreferred(candidates, m, key, now);
      SelectedAfter(old(states), excluded, m, now, policy, strategy, binding, Cursor(old(roundRobin), m.id), id);
      r := Some(id);
    }

    /** The choice among the candidates of the best tier, for a model that prefers it. */
    method ChoosePreferred(candidates: seq<string>, m: Model, key: string, now: int) returns (id: string)
      requires Valid() && candidates != [] && Distinct(candidates) && Members(candidates) <= states.Keys
      modifies this`roundRobin
      ensures var p := Preferred(states, Members(candidates), m);
              var binding := if key != "" then Lookup(affinities, AffinityKey(m.id, key)) else None;
              var cursor := Cursor(old(roundRobin), m.id);
              && Valid() && Chosen(states, p, strategy, binding, cursor, now, id)
              && roundRobin == if strategy.RoundRobin? then old(roundRobin)[m.id := (cursor + 1) % TWO_64]
                 else old(roundRobin)
    {
      var preferred := candidates;
      if m.preferBest {
        preferred := KeepBestTier(candidates, m);
      }
      id := Choose(preferred, m, key, now);
    }

    /** The choice among the candidates. */
    method Choose(candidates: seq<string>, m: Model, key: string, now: int) returns (id: string)
      requires Valid() && candidates != [] && Distinct(candidates) && Members(candidates) <= states.Keys
      modifies this`roundRobin
      ensures var binding := if key != "" then Lookup(affinities, AffinityKey(m.id, key)) else None;
              var cursor := Cursor(old(roundRobin), m.id);
              && Valid() && Chosen(states, Members(candidates), strategy, binding, cursor, now, id)
              && roundRobin == if strategy.RoundRobin? then old(roundRobin)[m.id := (cursor + 1) % TWO_64]
                 else old(roundRobin)
    {
      if strategy.ByAffinity? && key != "" {
        var mapKey := AffinityKey(m.id, key);
        if mapKey in affinities && affinities[mapKey].expiresAt > now && affinities[mapKey].account in candidates {
          return affinities[mapKey].account;
        }
      }
      if strategy.RoundRobin? {
        id := TakeTurn(candidates, m);
      } else {
        id := PickBest(candidates, now);
      }
    }

    /** The round-robin turn: the candidates sorted by ID, and the cursor that walks over them. */
    method TakeTurn(candidates: seq<string>, m: Model) returns (id: string)
      requires Valid() && candidates != [] && Distinct(candidates)
      modifies this`roundRobin
      ensures var p, cursor := Members(candidates), Cursor(old(roundRobin), m.id);
              && Valid() && id in p && |Below(p, id)| == cursor % |p|
              && roundRobin == old(roundRobin)[m.id := (cursor + 1) % TWO_64]
    {
      var sorted := Sorted(candidates);
      var cursor := Cursor(roundRobin, m.id);
      roundRobin := roundRobin[m.id := (cursor + 1) % TWO_64];
      RankIsIndex(sorted, cursor % |sorted|);
      DistinctSize(candidates);
      id := sorted[cursor % |sorted|];
      assert id in Members(sorted);
    }

    // ---- release and rollback ----

    /** rollbackReservation. */
    method RollbackReservation(id: string, until: Option<int>)
      requires Valid()
      modifies this`states
      ensures Valid()
      ensures states == if id in old(states) then old(states)[id := RolledBack(old(states)[id], until)] else old(states)
      ensures Counters(states, policy) == Reservations.Decremented(Counters(old(states), policy), id)
    {
      if id !in states {
        return;
      }
      var state := states[id];
      if state.inflight > 0 {
        state := state.(inflight := state.inflight - 1);
      }
      if until.Some? && (state.cooldownTill.None? || until.value > state.cooldownTill.value) {
        state := state.(cooldownTill := until);
      }
      states := states[id := state];
    }

    /**
     The locked part of `release`, for the account as it was leased: the release of the copy, one reservation given
     back, and the conversation's entry dropped when the account is gone or no longer fit for it.
     */
    method ReleaseLocked(leased: Account, model: string, key: string, fb: Feedback,
                         now: int) returns (r: Option<Released>)
      requires Valid()
      modifies this`states, this`affinities
      ensures Valid()
      ensures if leased.id in old(states)
              then r == Some(Release(old(states)[leased.id], leased, fb, now, policy)) &&
                   states == old(states)[leased.id := r.value.local]
              else r.None? && states == old(states)
      ensures affinities == if r.None? || r.value.invalidateAffinity
                            then Unbound(old(affinities), model, key, leased.id)
                            else old(affinities)
      ensures Counters(states, policy) == Reservations.Decremented(Counters(old(states), policy), leased.id)
    {
      if leased.id !in states {
        ClearLocalAffinity(model, key, leased.id);
        return None;
      }
      var outcome := Settle(states[leased.id], leased, fb, now);
      states := states[leased.id := outcome.local];
      if outcome.invalidateAffinity {
        ClearLocalAffinity(model, key, leased.id);
      }
      r := Some(outcome);
    }

    method Settle(l: Local, leased: Account, fb: Feedback, now: int) returns (r: Released)
      requires policy.Valid()
      ensures r == Release(l, leased, fb, now, policy) && r.local.account.id == l.account.id
      ensures r.local.inflight == (if l.inflight > 0 then l.inflight - 1 else 0)
      ensures r.local.account.concurrencyLimit == l.account.concurrencyLimit
    {
      var state := l;
      if state.inflight > 0 {
        state := state.(inflight := state.inflight - 1);
      }
      var account := state.account;
      if account.cipher != leased.cipher || account.fingerprint != leased.fingerprint {
        var quotaUntil := UnavailableUntil(account.quota, now, policy.RateLimit(account.kind));
        var unavailable := !account.status.Active? || After(state.cooldownTill, now) || quotaUntil.Some?;
        var until := Later(state.cooldownTill, quotaUntil);
        if Terminal(account.status) && !After(until, now) {
          until := Some(now + policy.forbiddenCooldown);
        }
        return Released(state, false, false, if unavailable && After(until, now) then until else None, unavailable);
      }
      var persist := false;
      if state.lastUsedPersisted.None? || now - state.lastUsedPersisted.value >= HALF_MINUTE {
        state := state.(lastUsedPersisted := Some(now));
        persist := true;
      }
      if fb.quota.Some? {
        account := account.(quota := fb.quota.value);
        persist := true;
      }
      r := Switch(state, account, leased, fb, now, persist);
      state := r.local;
      state := state.(account := state.account.(health := state.health, failures := state.failures));
      r := r.(local := state);
    }

    /** The feedback switch. */
    method Switch(l: Local, a: Account, leased: Account, fb: Feedback, now: int,
                  persistAlready: bool) returns (r: Released)
      requires policy.Valid()
      ensures r == Judge(l, a, leased, fb, now, policy, persistAlready) && r.local.account.id == a.id
      ensures r.local.inflight == l.inflight && r.local.account.concurrencyLimit == a.concurrencyLimit
    {
      var state, account, persist, publish := l, a, persistAlready, fb.quota.Some?;
      var until: Option<int> := None;
      var invalidate := false;
      var reset := ExhaustedReset(account.quota, account.kind, policy, now, fb.quota.Some?);
      if account.status != leased.status && Terminal(account.status) {
        invalidate := true;
        until := Some(now + policy.forbiddenCooldown);
      } else if fb.status == 429 {
        invalidate, persist, publish := true, true, true;
        var wait := fb.retryAfter;
        if wait <= 0 {
          wait := policy.RateLimit(account.kind);
        }
        if wait <= 0 {
          wait := QUARTER_HOUR;
        }
        var candidate := now + wait;
        if reset.Some? && reset.value > candidate {
          candidate := reset.value;
        }
        if After(state.cooldownTill, candidate) {
          candidate := state.cooldownTill.value;
        }
        until := Some(candidate);
        account := account.(status := Cooldown, cooldownUntil := until, lastError := fb.message);
        state := state.(health := MaxReal(0.05, state.health * 0.45), failures := state.failures + 1,
                        cooldownTill := until);
      } else if PermanentFailure(fb.status) {
        invalidate, persist, publish := true, true, true;
        account := account.(status := Disabled, cooldownUntil := None, lastError := fb.message);
        state := state.(health := MaxReal(0.05, state.health * 0.25), failures := state.failures + 1,
                        cooldownTill := None);
        until := Some(now + policy.forbiddenCooldown);
      } else if reset.Some? {
        invalidate, persist, publish := true, true, true;
        until := if After(state.cooldownTill, reset.value) then state.cooldownTill else reset;
        account := account.(status := Cooldown, cooldownUntil := until, lastError := "upstream quota exhausted");
        state := state.(health := MaxReal(0.05, state.health * 0.9), failures := state.failures + 1,
                        cooldownTill := until);
      } else if Succeeded(fb) && After(state.cooldownTill, now) && account.status.Cooldown? {
        invalidate := true;
        until := state.cooldownTill;
      } else if Succeeded(fb) {
        var recovering := state.health < 1.0 || state.failures != 0 || !account.status.Active? ||
                          account.cooldownUntil.Some? || account.lastError != "";
        state := state.(health := MinReal(1.0, state.health + 0.12), failures := 0, cooldownTill := None);
        account := account.(status := Active, cooldownUntil := None, lastError := "");
        if recovering {
          persist, publish := true, true;
        }
      } else if fb.status == 499 {
      } else if fb.failed || fb.status >= 500 {
        invalidate, persist, publish := true, true, true;
        state := state.(health := MaxReal(0.05, state.health * 0.75), failures := state.failures + 1);
        var delay := TransientBackoff(policy, state.failures);
        until := Some(now + delay);
        account := account.(status := Cooldown, cooldownUntil := until, lastError := fb.message);
        state := state.(cooldownTill := until);
      }
      r := Released(state.(account := account), persist, publish, until, invalidate);
    }

    // ---- reload ----

    /** The locked part of Reload, on the listed rows. */
    method ApplyListing(items: seq<Account>)
      requires Valid() && DistinctRows(items)
      modifies this`states, this`affinities
      ensures Valid() && Listed(old(states), items, states)
      ensures affinities == ToActive(old(affinities), states)
      ensures Counters(states, policy) == Reservations.Relisted(Counters(old(states), policy), Limits(items, policy))
    {
      LoadRows(items);
      ListedCounters(old(states), items, states, policy);
      affinities := ToActive(affinities, states);
    }

    method LoadRows(items: seq<Account>)
      requires Valid() && DistinctRows(items)
      modifies this`states
      ensures Valid() && Listed(old(states), items, states)
    {
      ghost var before := states;
      var seen: set<string> := {};
      var i := 0;
      while i < |items|
        invariant 0 <= i <= |items| && Valid() && seen == Ids(items[..i]) && Loading(before, items[..i], states)
      {
        var item := items[i];
        LoadOne(before, items[..i], item, states);
        assert items[..i + 1] == items[..i] + [item];
        seen := seen + {item.id};
        states := states[item.id := Reload(Lookup(states, item.id), item)];
        i := i + 1;
      }
      assert items[..i] == items;
      states := map id | id in states && id in seen :: states[id];
    }

    /**
     RemoveAccounts: afterwards the pool knows none of the accounts named, up to surrounding space, and no conversation
     points at one of them; blank names, the other accounts and the other conversations are left alone.
     */
    method RemoveAccounts(ids: seq<string>)
      requires Valid()
      modifies this`states, this`affinities
      ensures Valid()
      ensures forall id :: id in states <==> id in old(states) && id !in Named(ids)
      ensures forall id | id in states :: states[id] == old(states)[id]
      ensures forall key :: key in affinities <==> key in old(affinities) && old(affinities)[key].account !in Named(ids)
      ensures forall key | key in affinities :: affinities[key] == old(affinities)[key]
      ensures Counters(states, policy) == Counters(old(states), policy) - Named(ids)
    {
      var removed := CollectNamed(ids);
      if |removed| == 0 {
        return;
      }
      DropStates(removed);
      DropBindings(removed);
    }

    method CollectNamed(ids: seq<string>) returns (removed: set<string>)
      ensures removed == Named(ids)
    {
      removed := {};
      var i := 0;
      while i < |ids|
        invariant 0 <= i <= |ids| && removed == Named(ids[..i])
      {
        NamedSnoc(ids[..i], ids[i]);
        assert ids[..i + 1] == ids[..i] + [ids[i]];
        var id := Text.TrimSpace(ids[i]);
        if id != "" {
          removed := removed + {id};
        }
        i := i + 1;
      }
      assert ids[..i] == ids;
    }

    method DropStates(removed: set<string>)
      requires Valid()
      modifies this`states
      ensures Valid() && states == old(states) - removed
    {
      var remaining := removed;
      while remaining != {}
        invariant Valid() && remaining <= removed && states == old(states) - (removed - remaining)
        decreases |remaining|
      {
        var id :| id in remaining;
        remaining := remaining - {id};
        states := states - {id};
      }
      assert removed - remaining == removed;
    }

    method DropBindings(removed: set<string>)
      requires Valid()
      modifies this`affinities
      ensures Valid()
      ensures forall key :: key in affinities <==> key in old(affinities) && old(affinities)[key].account !in removed
      ensures forall key | key in affinities :: affinities[key] == old(affinities)[key]
    {
      var remaining := affinities.Keys;
      while remaining != {}
        invariant Valid() && remaining <= affinities.Keys
        invariant forall key :: key in affinities <==>
                    key in old(affinities) && (key in remaining || old(affinities)[key].account !in removed)
        invariant forall key | key in affinities :: affinities[key] == old(affinities)[key]
        decreases |remaining|
      {
        var key :| key in remaining;
        remaining := remaining - {key};
        if affinities[key].account in removed {
          affinities := affinities - {key};
        }
      }
    }

    // ---- affinities ----

    /** pruneAffinitiesLocked: drops expired entries, then the least recently used until there is room for one more. */
    method PruneAffinities(now: int)
      requires Valid()
      modifies this`affinities
      ensures Valid() && Pruned(Unexpired(old(affinities), now), affinities, maxAffinities)
    {
      affinities := Unexpired(affinities, now);
      ghost var live := affinities;
      while |affinities| >= maxAffinities
        invariant Valid() && Trimmed(live, affinities) && (affinities != live ==> |affinities| + 1 >= maxAffinities)
        decreases |affinities|
      {
        var key := LeastRecentlyUsed();
        TrimOne(live, affinities, key);
        affinities := affinities - {key};
      }
    }

    method LeastRecentlyUsed() returns (oldestKey: string)
      requires affinities != map[] && "" !in affinities
      ensures oldestKey in affinities && forall key | key in affinities ::
              affinities[oldestKey].usedAt <= affinities[key].usedAt
    {
      oldestKey := "";
      var oldest := 0;
      var remaining := affinities.Keys;
      while remaining != {}
        invariant remaining <= affinities.Keys
        invariant oldestKey == "" ==> remaining == affinities.Keys
        invariant oldestKey != "" ==> oldestKey in affinities && oldest == affinities[oldestKey].usedAt
        invariant forall key | key in affinities && key !in remaining :: oldest <= affinities[key].usedAt
        decreases |remaining|
      {
        var key :| key in remaining;
        remaining := remaining - {key};
        if oldestKey == "" || affinities[key].usedAt < oldest {
          oldestKey, oldest := key, affinities[key].usedAt;
        }
      }
    }

    method SetAffinity(model: string, key: string, account: string, now: int)
      requires Valid()
      modifies this`affinities
      ensures Valid()
      ensures affinities == old(affinities)[AffinityKey(model, key) := Binding(account, now + affinityTTL, now)]
    {
      assert |AffinityKey(model, key)| > 0;
      affinities := affinities[AffinityKey(model, key) := Binding(account, now + affinityTTL, now)];
    }

    // ---- acquire ----

    /** Other goroutines had the mutex. */
    method Interfere(w: World)
      requires policy.Valid() && affinityTTL > 0 && maxAffinities > 0 && Keyed(w.states) && "" !in w.affinities
      modifies this
      ensures Valid() && strategy == w.strategy && states == w.states && affinities == w.affinities &&
              roundRobin == w.roundRobin
    {
      strategy, states, affinities, roundRobin := w.strategy, w.states, w.affinities, w.roundRobin;
    }

    /**
     The conversation's account: the coordinator's answer if there is a coordinator (`Some`, "" for no binding), else
     the pool's own unexpired entry.  An account that is gone or not durably eligible is reported as stale and its entry
     deleted.
     */
    method Prefer(req: Request, useAffinity: bool, answer: Option<string>, full: set<string>,
                  now: int) returns (p: Preference)
      requires Valid()
      modifies this`states, this`affinities
      ensures Valid() && PromotedSome(old(states), states, now)
      ensures p.stale == "" || p.account == ""
      ensures p.stale == "" && "" !in old(states) ==>
                EntryFits(useAffinity, p.account, now, Lookup(affinities, AffinityKey(req.model.id, req.key)))
      ensures p.stale != "" ==> useAffinity && StaleIn(req, old(states), old(affinities), answer, now, policy, p.stale)
      ensures p.stale != "" ==> AffinityKey(req.model.id, req.key) !in affinities
      ensures p.account != "" ==>
                useAffinity && FreshIn(req, old(states), old(affinities), answer, now, policy, p.account)
      ensures p.account != "" ==> p.account in states &&
                                  p.atCapacity == AtCapacity(states[p.account], p.account, full, policy)
      ensures useAffinity && answer.Some? && answer.value != "" ==> p.account != "" || p.stale != ""
      ensures useAffinity && answer == Some("") ==> AffinityKey(req.model.id, req.key) !in affinities
      ensures useAffinity && answer.Some? && p.account != "" ==>
                Lookup(affinities, AffinityKey(req.model.id, req.key)) ==
                Some(Binding(answer.value, now + affinityTTL, now))
      ensures useAffinity && answer.None? && |Unexpired(old(affinities), now)| < maxAffinities ==>
                forall account |
                  FreshIn(req, old(states), old(affinities), None, now, policy, account) :: p.account == account
      ensures useAffinity && answer.None? && |Unexpired(old(affinities), now)| < maxAffinities ==>
                forall account |
                  account != "" && StaleIn(req, old(states), old(affinities), None, now, policy, account) ::
                  p.stale == account
    {
      p := Preference("", "", false);
      PruneAffinities(now);
      if |Unexpired(old(affinities), now)| < maxAffinities {
        RoomKeepsAll(Unexpired(old(affinities), now), affinities, maxAffinities);
      }
      if !useAffinity {
        return;
      }
      var mapKey := AffinityKey(req.model.id, req.key);
      if answer.Some? {
        if answer.value != "" {
          SetAffinity(req.model.id, req.key, answer.value, now);
        } else {
          affinities := affinities - {mapKey};
        }
      }
      if mapKey !in affinities || affinities[mapKey].expiresAt <= now {
        return;
      }
      p := CheckBound(req, mapKey, full, now);
    }

    /** The check of the account an unexpired entry names. */
    method CheckBound(req: Request, mapKey: string, full: set<string>, now: int) returns (p: Preference)
      requires Valid() && mapKey in affinities
      modifies this`states, this`affinities
      ensures Valid() && PromotedSome(old(states), states, now)
      ensures var account := old(affinities)[mapKey].account;
              if Usable(old(states), account, req.model, now, policy)
              then account in states && affinities == old(affinities) &&
                   p == Preference(account, "", AtCapacity(states[account], account, full, policy))
              else p == Preference("", account, false) && mapKey !in affinities
    {
      var account := affinities[mapKey].account;
      if account !in states {
        affinities := affinities - {mapKey};
        return Preference("", account, false);
      }
      var durable := DurablyEligible(account, req.model, now);
      if !durable {
        affinities := affinities - {mapKey};
        return Preference("", account, false);
      }
      p := Preference(account, "", AtCapacity(states[account], account, full, policy));
    }

    /** Selection and the local reservation, in the same critical section. */
    method Reserve(req: Request, excluded: set<string>, now: int) returns (r: Option<Account>)
      requires Valid()
      modifies this`states, this`roundRobin
      ensures Valid() && states.Keys == old(states).Keys
      ensures var binding := if req.key != "" then Lookup(affinities, AffinityKey(req.model.id, req.key)) else None;
              Selects(old(states), excluded, req.model, now, policy, strategy, binding,
                      Cursor(old(roundRobin), req.model.id),
                      if r.Some? then Some(r.value.id) else None)
      ensures r.Some? ==> r.value.id in states && r.value == states[r.value.id].account &&
                          r.value == Promoted(old(states)[r.value.id], now).account.(lastUsedAt := Some(now))
      ensures Counters(states, policy) ==
              if r.Some? then Reservations.Incremented(Counters(old(states), policy), r.value.id)
              else Counters(old(states), policy)
    {
      var chosen := Select(req.model, req.key, excluded, now);
      if chosen.None? {
        return None;
      }
      var id := chosen.value;
      assert id in old(states);
      var state := states[id];
      state := state.(inflight := state.inflight + 1, account := state.account.(lastUsedAt := Some(now)));
      WalkedCounters(old(states), excluded, now, policy);
      BumpedCounters(states, id, state, policy);
      states := states[id := state];
      r := Some(state.account);
    }

    /** The reservation of AcquireForProbe: status and deadlines are ignored, the concurrency limit is not. */
    method ReserveForProbe(id: string, now: int) returns (r: ProbeReply)
      requires Valid()
      modifies this`states
      ensures Valid()
      ensures r.NoSuchAccount? <==> id !in old(states)
      ensures r.Busy? <==> id in old(states) && old(states)[id].inflight >= Limit(old(states)[id].account, policy)
      ensures !r.Ready? ==> states == old(states)
      ensures r.Ready? ==>
                var before := old(states)[id];
                && r.account == before.account.(lastUsedAt := Some(now))
                && states == old(states)[id := before.(account := r.account, inflight := before.inflight + 1)]
                && states[id].inflight <= Limit(r.account, policy)
                && Counters(states, policy) == Reservations.Incremented(Counters(old(states), policy), id)
    {
      if id !in states {
        return NoSuchAccount;
      }
      var state := states[id];
      if state.inflight >= Limit(state.account, policy) {
        return Busy;
      }
      state := state.(inflight := state.inflight + 1, account := state.account.(lastUsedAt := Some(now)));
      states := states[id := state];
      r := Ready(state.account);
    }

    /** One round of the loop of Acquire. */
    method AcquireRound(req: Request, useAffinity: bool, search: Search, round: Round) returns (v: Verdict)
      requires Valid() && req.exclude <= search.excluded && Lawful(round)
      requires (search.coordinated != "" ==> useAffinity) && (useAffinity ==> req.key != "")
      modifies this
      ensures Valid() && VerdictJustified(v, req, search, round, policy)
      ensures RoundComesTo(req, useAffinity, search, round, policy, v)
      ensures v.Final? && v.outcome.Leased? && useAffinity ==> BoundAfter(req, round)
    {
      var p, account := Claim(req, useAffinity, search, round);
      if p.stale != "" {
        return if round.cleared then Stale else Final(Failed);
      }
      if account.None? {
        NoCandidates(req, search.excluded, round, policy);
        return Final(NoAccount);
      }
      v := Coordinate(req, useAffinity, search.coordinated, p, account.value, round);
      ClaimedComesTo(req, useAffinity, search, round, policy, p, account.value, v);
    }

    /** The critical section of a round: the conversation's account, the choice and the reservation. */
    method Claim(req: Request, useAffinity: bool, search: Search, round: Round)
      returns (p: Preference, account: Option<Account>)
      requires Valid() && Lawful(round)
      requires (search.coordinated != "" ==> useAffinity) && (useAffinity ==> req.key != "")
      modifies this
      ensures Valid() && (p.stale != "" <==> FindsUnusable(req, search.coordinated, round, policy))
      ensures p.stale == "" ==>
                (account.None? <==>
                 Candidates(round.before.states, search.excluded, req.model, round.now, policy) == {})
      ensures p.stale == "" && account.Some? ==> Claimed(req, useAffinity, search, round, policy, p, account.value)
    {
      Interfere(round.before);
      account := None;
      p := Prefer(req, useAffinity, Some(search.coordinated), search.full, round.now);
      if p.stale != "" {
        return;
      }
      ghost var table := states;
      ghost var binding := if req.key != "" then Lookup(affinities, AffinityKey(req.model.id, req.key)) else None;
      assert EntryFits(useAffinity, search.coordinated, round.now, binding);
      PreferredIsCoordinated(req, search, round, policy, table, p);
      account := ReserveSelected(req, search.excluded, round.now, useAffinity, search, round, binding);
    }

    /** The reservation of a round, on a table that differs from the one found by promotions only. */
    method ReserveSelected(req: Request, excluded: set<string>, now: int, ghost useAffinity: bool, ghost search: Search,
                           ghost round: Round, ghost binding: Option<Binding>)
      returns (account: Option<Account>)
      requires excluded == search.excluded && now == round.now
      requires Valid() && PromotedSome(round.before.states, states, round.now) && strategy == round.before.strategy
      requires roundRobin == round.before.roundRobin
      requires binding == if req.key != "" then Lookup(affinities, AffinityKey(req.model.id, req.key)) else None
      modifies this`states, this`roundRobin
      ensures Valid()
      ensures account.None? <==> Candidates(round.before.states, search.excluded, req.model, round.now, policy) == {}
      ensures account.Some? ==>
                && (EntryFits(useAffinity, search.coordinated, round.now, binding) ==>
                      SelectedIn(req, useAffinity, search, round, policy, account.value.id))
                && account.value.id in round.before.states && account.value == Snapshot(round, account.value.id)
                && account.value.id in Candidates(round.before.states, search.excluded, req.model, round.now, policy)
    {
      ghost var table := states;
      SameCandidates(round.before.states, table, search.excluded, req.model, round.now, policy);
      account := Reserve(req, excluded, now);
      if account.Some? {
        ReservedIsSelected(req, useAffinity, search, round, policy, table, binding, account.value);
      }
    }

    /** With affinity, a lease leaves the conversation with the account the coordinator resolved. */
    predicate BoundAfter(req: Request, round: Round)
      reads this
    {
      && round.bound.Some?
      && Lookup(affinities, AffinityKey(req.model.id, req.key)) ==
         Some(Binding(round.bound.value.0, round.now + affinityTTL, round.now))
    }

    /** The calls that follow a local reservation; every way out but a lease takes the reservation back. */
    method Coordinate(req: Request, useAffinity: bool, coordinated: string, p: Preference, a: Account,
                      round: Round) returns (v: Verdict)
      requires Valid() && Lawful(round)
      modifies this
      ensures Valid()
      ensures v.Final? ==> !v.outcome.NoAccount? && !v.outcome.StillTrying? &&
                           (v.outcome.Leased? ==> v.outcome.account == a && Welcomed(round))
      ensures v.Exclude? ==> v.id == a.id && Refused(round)
      ensures !v.Stale?
      ensures Answered(useAffinity, coordinated, p.account != "" && a.id != p.account && p.atCapacity,
                       p.account != "" && p.account == a.id, a, round, v)
      ensures v.Final? && v.outcome.Leased? && useAffinity ==> BoundAfter(req, round)
      ensures var until := if round.cooldown.Cooling? then Some(round.cooldown.until) else None;
              if (v.Final? && v.outcome.Leased?) || a.id !in round.during.states then states == round.during.states
              else states == round.during.states[a.id := RolledBack(round.during.states[a.id], until)]
    {
      var reused := p.account != "" && p.account == a.id;
      var preserve := p.account != "" && a.id != p.account && p.atCapacity;
      Interfere(round.during);
      match round.cooldown
      case Unknown =>
        RollbackReservation(a.id, None);
        return Final(Failed);
      case Cooling(until) =>
        RollbackReservation(a.id, Some(until));
        if coordinated != "" && a.id == coordinated {
          ClearLocalAffinity(req.model.id, req.key, coordinated);
          return if round.cleared then Exclude(a.id, true, false) else Final(Failed);
        }
        return Exclude(a.id, false, false);
      case NotCooling =>
      if round.slot.Lost? {
        RollbackReservation(a.id, None);
        return Final(Failed);
      }
      if round.slot.Full? {
        RollbackReservation(a.id, None);
        return Exclude(a.id, false, true);
      }
      if !round.credentials || (coordinated != "" && a.id != coordinated && !preserve && !round.cleared) ||
         (useAffinity && round.bound.None?) {
        RollbackReservation(a.id, None);
        return Final(Failed);
      }
      var established := false;
      if useAffinity {
        var resolved := round.bound.value.0;
        established := round.bound.value.1 && resolved == a.id;
        PruneAffinities(round.now);
        SetAffinity(req.model.id, req.key, resolved, round.now);
      }
      v := Final(Leased(a, reused, established));
    }

    /** clearLocalAffinity. */
    method ClearLocalAffinity(model: string, key: string, account: string)
      requires Valid()
      modifies this`affinities
      ensures Valid()
      ensures affinities == Unbound(old(affinities), model, key, account)
    {
      if model == "" || key == "" || account == "" {
        return;
      }
      var mapKey := AffinityKey(model, key);
      if mapKey in affinities && affinities[mapKey].account == account {
        affinities := affinities - {mapKey};
      }
    }

    /**
     Acquire with a coordinator, whatever other callers do to the pool between the critical sections and whatever the
     coordinator and the store answer.

     `table` holds every account the pool has at any time of the call.  The call ends within one round per account of
     the table not excluded by the request, plus one for a stale binding and one to finish: `env` holds what each of
     these rounds may meet. A lease is on an account that was eligible, was not cooling and had a free coordinated slot;
     a refusal means that every account not excluded by the request was ineligible or was turned down by the coordinator
     in an earlier round; a failure means that the last round met an error.  `verdicts` tells how each round ended,
     which its table and its answers determine up to the choice of the strategy.
     */
    method Acquire(req: Request, affinity: Option<string>, table: set<string>, env: seq<Round>)
      returns (r: Outcome, rounds: nat, ghost refusedIn: map<string, nat>, ghost verdicts: seq<Verdict>)
      requires Valid() && |env| == |table - req.exclude| + 2 && AllWithin(env, table)
      modifies this
      ensures Valid() && 1 <= rounds <= |env| && !r.StillTrying?
      ensures r.Leased? ==> LeaseJustified(r.account, req, env[rounds - 1], policy)
      ensures r.NoAccount? ==> RefusalJustified(req, env, rounds, refusedIn, policy)
      ensures var useAffinity := old(strategy).ByAffinity? && req.key != "";
              var start := Search(req.exclude, {}, if useAffinity && affinity.Some? then affinity.value else "");
              && |verdicts| == rounds && verdicts[rounds - 1] == Final(r)
              && Traced(req, useAffinity, start, env, policy, verdicts)
              && (r.Failed? ==> SomeError(useAffinity, env[rounds - 1]))
              && (AllWell(useAffinity, env[rounds - 1]) ==> r.Leased? || r.NoAccount?)
              && (r.Leased? && useAffinity ==> BoundAfter(req, env[rounds - 1]))
    {
      var useAffinity := strategy.ByAffinity? && req.key != "";
      var search := Search(req.exclude, {}, if useAffinity && affinity.Some? then affinity.value else "");
      ghost var start := search;
      refusedIn, verdicts := map[], [];
      Begun(req, table, env, search);
      rounds := 0;
      while true
        invariant Valid() && Searching(req, useAffinity, table, start, env, policy, rounds, search, refusedIn, verdicts)
        decreases Rest(table, search)
      {
        var v := NextRound(req, useAffinity, search, table, start, env, rounds, refusedIn, verdicts);
        verdicts := verdicts + [v];
        rounds := rounds + 1;
        if v.Final? {
          return v.outcome, rounds, refusedIn, verdicts;
        }
        refusedIn := Refusals(v, refusedIn, rounds - 1);
        search := Narrowed(v, search);
      }
    }

    /** A round that ends the search concludes the call; any other makes progress. */
    method NextRound(req: Request, useAffinity: bool, search: Search, ghost table: set<string>, ghost start: Search,
                     env: seq<Round>, rounds: nat, ghost refusedIn: map<string, nat>, ghost verdicts: seq<Verdict>)
      returns (v: Verdict)
      requires Valid() && (useAffinity ==> req.key != "")
      requires Searching(req, useAffinity, table, start, env, policy, rounds, search, refusedIn, verdicts)
      modifies this
      ensures Valid() && rounds < |env|
      ensures v.Final? ==>
                Concluded(v.outcome, req, useAffinity, start, env, policy, rounds + 1, refusedIn, verdicts + [v])
      ensures v.Final? && v.outcome.Leased? && useAffinity ==> BoundAfter(req, env[rounds])
      ensures !v.Final? ==>
                && Searching(req, useAffinity, table, start, env, policy, rounds + 1, Narrowed(v, search),
                             Refusals(v, refusedIn, rounds), verdicts + [v])
                && Rest(table, Narrowed(v, search)) < Rest(table, search)
    {
      Continues(req, table, env, rounds, search, refusedIn);
      v := AcquireRound(req, useAffinity, search, env[rounds]);
      TracedMore(req, useAffinity, start, env, policy, verdicts, v);
      if v.Final? {
        Finished(v.outcome, req, table, env, rounds + 1, search, refusedIn, policy);
        EndOfRound(req, useAffinity, search, env[rounds], policy, v);
      } else {
        Retried(v, req, table, env, rounds, search, refusedIn, policy);
      }
    }

    /**
     Acquire without a coordinator, over what its rounds may meet.  It goes on only while each round finds that other
     callers bound the conversation to an unusable account.  With affinity, and where no round has to drop unexpired
     entries, it goes on exactly as long as that: it ends with the first round that finds no such binding.
     */
    method AcquireLocally(req: Request, env: seq<Round>) returns (r: Outcome, rounds: nat)
      requires Valid() && forall k | 0 <= k < |env| :: Lawful(env[k])
      modifies this
      ensures Valid() && rounds <= |env| && (r.StillTrying? ==> rounds == |env|) && (!r.StillTrying? ==> rounds >= 1)
      ensures forall k | 0 <= k < (if r.StillTrying? then rounds else rounds - 1) :: FindsStale(req, env[k], policy)
      ensures r.Leased? ==> LeasedIn(r, req, old(strategy).ByAffinity? && req.key != "", env[rounds - 1])
      ensures r.NoAccount? ==> NoneEligible(req, req.exclude, env[rounds - 1], policy)
      ensures r.Failed? ==> !env[rounds - 1].credentials
      ensures var useAffinity := old(strategy).ByAffinity? && req.key != "";
              && (!useAffinity && env != [] ==> rounds == 1 && !r.StillTrying?)
              && (useAffinity && !r.StillTrying? && Roomy(env[rounds - 1], maxAffinities) ==>
                    !FindsStale(req, env[rounds - 1], policy))
    {
      var useAffinity := strategy.ByAffinity? && req.key != "";
      rounds := 0;
      while rounds < |env|
        invariant Valid() && rounds <= |env| && (rounds > 0 ==> useAffinity)
        invariant forall k | 0 <= k < rounds :: FindsStale(req, env[k], policy)
      {
        var v := LocalRound(req, useAffinity, env[rounds]);
        rounds := rounds + 1;
        if v.Final? {
          return v.outcome, rounds;
        }
      }
      r := StillTrying;
    }

    /** A lease of the account the rule singles out, with the conversation's entry written, and no other change. */
    ghost predicate LeasedIn(r: Outcome, req: Request, useAffinity: bool, round: Round)
      reads this
    {
      states == round.during.states &&
      exists holder :: && Holds(holder, req, useAffinity, round, policy, maxAffinities)
                       && LocalLease(r, holder, req, useAffinity, round, policy)
                       && (useAffinity ==> WrittenFor(r, holder, req, round))
    }

    /** The conversation stays with an account that is only full, and else moves to the leased one. */
    predicate WrittenFor(r: Outcome, holder: string, req: Request, round: Round)
      requires r.Leased?
      reads this
    {
      var bound := if holder != "" && OnlyFull(holder, {}, round, policy) then holder else r.account.id;
      Lookup(affinities, AffinityKey(req.model.id, req.key)) ==
      Some(Binding(bound, round.now + affinityTTL, round.now))
    }

    method LocalRound(req: Request, useAffinity: bool, round: Round) returns (v: Verdict)
      requires Valid() && Lawful(round) && (useAffinity ==> req.key != "")
      modifies this
      ensures Valid() && !v.Exclude? && (v.Stale? ==> useAffinity && FindsStale(req, round, policy))
      ensures useAffinity && Roomy(round, maxAffinities) && FindsStale(req, round, policy) ==> v.Stale?
      ensures v.Final? ==> !v.outcome.StillTrying?
      ensures v.Final? && v.outcome.NoAccount? ==> NoneEligible(req, req.exclude, round, policy)
      ensures v.Final? && v.outcome.Failed? ==> !round.credentials
      ensures v.Final? && v.outcome.Leased? ==> LeasedIn(v.outcome, req, useAffinity, round)
    {
      var p, account := ClaimLocally(req, useAffinity, round);
      if p.stale != "" {
        return Stale;
      }
      if account.None? {
        return Final(NoAccount);
      }
      var a := account.value;
      Interfere(round.during);
      if !round.credentials {
        RollbackReservation(a.id, None);
        return Final(Failed);
      }
      var outcome := LeaseLocally(req, useAffinity, p, a, round.now);
      LeasedLocally(outcome, p, req, useAffinity, round, policy);
      v := Final(outcome);
    }

    /** The critical section of a round without a coordinator. */
    method ClaimLocally(req: Request, useAffinity: bool, round: Round) returns (p: Preference, account: Option<Account>)
      requires Valid() && Lawful(round) && (useAffinity ==> req.key != "")
      modifies this
      ensures Valid() && (p.stale != "" ==> useAffinity && FindsStale(req, round, policy))
      ensures useAffinity && Roomy(round, maxAffinities) && FindsStale(req, round, policy) ==> p.stale != ""
      ensures p.stale == "" && account.None? ==> NoneEligible(req, req.exclude, round, policy)
      ensures p.stale == "" && account.Some? ==>
                && LocalChoice(account.value, p.account, req, useAffinity, round, policy)
                && Holds(p.account, req, useAffinity, round, policy, maxAffinities) && Gauged(p, round, policy)
    {
      Interfere(round.before);
      account := None;
      p := Prefer(req, useAffinity, None, {}, round.now);
      if p.stale != "" {
        return;
      }
      ghost var binding := if req.key != "" then Lookup(affinities, AffinityKey(req.model.id, req.key)) else None;
      ghost var search := LocalSearch(p.account, req);
      PreferredIsCoordinated(req, search, round, policy, states, p);
      assert Holds(p.account, req, useAffinity, round, policy, maxAffinities);
      account := ReserveSelected(req, req.exclude, round.now, useAffinity, search, round, binding);
      if account.None? {
        NoCandidates(req, req.exclude, round, policy);
      }
    }

    /** The lease of a pool without a coordinator, which binds the conversation unless its own account is only full. */
    method LeaseLocally(req: Request, useAffinity: bool, p: Preference, a: Account, now: int) returns (r: Outcome)
      requires Valid()
      modifies this`affinities
      ensures Valid() && r.Leased? && r.account == a && (r.reused <==> p.account != "" && p.account == a.id)
      ensures r.established <==> useAffinity && !r.reused && (p.account == "" || !p.atCapacity)
      ensures useAffinity ==>
                var mapKey := AffinityKey(req.model.id, req.key);
                Lookup(affinities, mapKey) ==
                Some(Binding(if p.account != "" && p.atCapacity then p.account else a.id, now + affinityTTL, now))
    {
      var reused := p.account != "" && p.account == a.id;
      var preserve := p.account != "" && a.id != p.account && p.atCapacity;
      var established := false;
      if useAffinity {
        var bound := if preserve then p.account else a.id;
        established := bound == a.id && !reused;
        PruneAffinities(now);
        SetAffinity(req.model.id, req.key, bound, now);
      }
      r := Leased(a, reused, established);
    }
  }

  lemma BeatsTransitive(states: States, a: string, b: string, c: string, now: int)
    requires a in states && b in states && c in states && Beats(states, a, b, now) && Beats(states, b, c, now)
    ensures Beats(states, a, c, now)
  {
    if Less(a, b) && Less(b, c) {
      LessTransitive(a, b, c);
    }
  }

  lemma AscendingDistinct(s: seq<string>)
    requires Ascending(s)
    ensures Distinct(s)
  {
    forall i, j | 0 <= i < j < |s|
      ensures s[i] != s[j]
    {
      LessAsymmetric(s[i], s[j]);
    }
  }

  /** Promotion changes neither the preferred accounts nor the best among them. */
  lemma WalkedPromotes(states: States, excluded: set<string>, now: int)
    ensures PromotedSome(states, Walked(states, {}, excluded, now), now)
  {
  }

  /** Promotions change neither the candidates nor the choice among them. */
  lemma SelectsAlike(before: States, after: States, excluded: set<string>, m: Model, now: int, policy: Policy,
                     strategy: Strategy, binding: Option<Binding>, cursor: nat, r: Option<string>)
    requires PromotedSome(before, after, now)
    ensures Selects(after, excluded, m, now, policy, strategy, binding, cursor, r) <==>
            Selects(before, excluded, m, now, policy, strategy, binding, cursor, r)
  {
    var candidates := Candidates(before, excluded, m, now, policy);
    SameCandidates(before, after, excluded, m, now, policy);
    SamePreferred(before, after, candidates, m, now, policy);
    if r.Some? {
      SameChoice(before, after, Preferred(before, candidates, m), m, now, policy, strategy, binding, cursor, r.value);
    }
  }

  lemma SamePreferred(before: States, after: States, candidates: set<string>, m: Model, now: int, policy: Policy)
    requires PromotedSome(before, after, now) && candidates <= before.Keys
    ensures Preferred(after, candidates, m) == Preferred(before, candidates, m)
  {
    forall id | id in before
      ensures after[id].account.tier == before[id].account.tier
    {
      PromotionIsInvisible(before[id], m, now, policy);
    }
  }

  lemma SameChoice(before: States, after: States, p: set<string>, m: Model, now: int, policy: Policy,
                   strategy: Strategy, binding: Option<Binding>, cursor: nat, id: string)
    requires PromotedSome(before, after, now) && p <= before.Keys
    ensures Chosen(after, p, strategy, binding, cursor, now, id) <==>
            Chosen(before, p, strategy, binding, cursor, now, id)
  {
    forall id | id in before
      ensures Score(after[id], now) == Score(before[id], now)
    {
      PromotionIsInvisible(before[id], m, now, policy);
    }
  }

  /** What is chosen on the walked table is chosen by the rule on the table before. */
  lemma SelectedAfter(states: States, excluded: set<string>, m: Model, now: int, policy: Policy, strategy: Strategy,
                      binding: Option<Binding>, cursor: nat, id: string)
    requires var after, candidates := Walked(states, {}, excluded, now), Candidates(states, excluded, m, now, policy);
             candidates != {} && Chosen(after, Preferred(after, candidates, m), strategy, binding, cursor, now, id)
    ensures Selects(states, excluded, m, now, policy, strategy, binding, cursor, Some(id))
  {
    var after := Walked(states, {}, excluded, now);
    WalkedPromotes(states, excluded, now);
    SameCandidates(states, after, excluded, m, now, policy);
    SelectsAlike(states, after, excluded, m, now, policy, strategy, binding, cursor, Some(id));
  }
}
