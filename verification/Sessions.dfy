/**
 Administrator sessions over Redis and PostgreSQL: issuing, loading with cache restore, tombstones and rotation of the
 session revision, interleaved command by command.

 One administrator; a session is known by the digest of its token, and tokens are fresh.  A cached session and a row may
 disappear at any moment (expiry, log-out, clean-up); a tombstone lives exactly its time.  CurrentSessionRevision takes
 effect at one instant: the GET that hits, the SETNX that creates, or the second GET.
 */
module Sessions {

  import opened Options
  import opened Sets

  /** `under` is history: how many revisions had been stored when the row was inserted. */
  datatype Session = Session(digest: nat, created: int, expires: int, under: nat)

  /** A revision is named by its number; numbers stand for the fresh random values. */
  datatype Cached = Cached(session: Session, revision: nat)

  datatype IssuePc =
    | Started
    | Versioned(revision: nat)
    | Inserted(session: Session, revision: nat)
    | Finished

  datatype Issue = Issue(expires: int, pc: IssuePc)

  datatype RequestPc =
    | Begun
    | NoTombstone
    | Hit(cached: Cached)
    | Outdated(revision: nat)
    | Missed
    | Row(session: Session)
    | Restorable(session: Session, revision: nat)
    | Loaded(session: Session, revision: nat)
    | Rejected
    | Authenticated(session: Session, revision: nat)

  /** History of a request: was the token already revoked, and how many revisions were stored, when it began? */
  datatype Request = Request(digest: nat, late: bool, since: nat, pc: RequestPc)

  datatype Config = Config(sessionTTL: int, tombstoneTTL: int)

  /** A stored revision; `storedAt` is history. */
  datatype Revision = Revision(notBefore: Option<int>, storedAt: int)

  /** `revisions` holds every revision so far, the current one last; `revoked` the time of the first tombstone. */
  datatype State = State(now: int, rows: map<nat, Session>, cache: map<nat, Cached>, tombstones: map<nat, int>,
                         revoked: map<nat, int>,
                         revisions: seq<Revision>, rotating: Option<int>, issues: map<nat, Issue>, requests: map<nat,
                         Request>)

  datatype Op =
    | Tick(dt: nat)
    | StartIssue(d: nat)
    | AdvanceIssue(d: nat)
    | AbortIssue(d: nat)
    | Begin(p: nat, d: nat)
    | AdvanceRequest(p: nat)
    | RefuseRequest(p: nat)
    | Tombstone(d: nat)
    | DropCached(d: nat)
    | DropRow(d: nat)
    | StartRotation
    | StoreRotation
    | AbortRotation

  /** CurrentSessionRevision: the stored revision, created without a not-before time when there is none. */
  function WithRevision(s: State): State {
    if s.revisions == [] then s.(revisions := [Revision(None, s.now)]) else s
  }

  // ---- issueSession ----

  function StepIssue(s: State, d: nat, i: Issue): State {
    match i.pc
    case Started => var s' := WithRevision(s); s'.(issues := s.issues[d := i.(pc := Versioned(|s'.revisions|))])
    case Versioned(v) =>
      var x := Session(d, s.now, i.expires, |s.revisions|);
      s.(rows := s.rows[d := x], issues := s.issues[d := i.(pc := Inserted(x, v))])
    case Inserted(x, v) => s.(cache := s.cache[d := Cached(x, v)], issues := s.issues[d := i.(pc := Finished)])
    case Finished => s
  }

  // ---- loadSession ----

  predicate TombstoneVisible(s: State, d: nat) {
    d in s.tombstones && s.now < s.tombstones[d]
  }

  function SetPc(s: State, p: nat, r: Request, pc: RequestPc): State {
    s.(requests := s.requests[p := r.(pc := pc)])
  }

  /** restoreDatabaseSession up to the cache write: the not-before test, then the expiry test. */
  function Restore(s: State, x: Session, v: nat): RequestPc
    requires 0 < v <= |s.revisions|
  {
    var notBefore := s.revisions[v - 1].notBefore;
    if notBefore.Some? && x.created <= notBefore.value then Rejected
    else if x.expires <= s.now then Rejected
    else Restorable(x, v)
  }

  predicate KnownRevision(s: State, v: nat) {
    0 < v <= |s.revisions|
  }

  /**
   The next point of loadSession; the current revision is read after a cache hit, and after the row is read on a miss.
   */
  function NextPc(s: State, r: Request): RequestPc {
    match r.pc
    case Begun => if TombstoneVisible(s, r.digest) then Rejected else NoTombstone
    case NoTombstone => if r.digest in s.cache then Hit(s.cache[r.digest]) else Missed
    case Hit(c) => if c.revision == |s.revisions| then Loaded(c.session, c.revision) else Outdated(|s.revisions|)
    case Outdated(v) => if r.digest in s.rows && KnownRevision(s, v) then Restore(s, s.rows[r.digest], v) else Rejected
    case Missed => if r.digest in s.rows then Row(s.rows[r.digest]) else Rejected
    case Row(x) => if KnownRevision(s, |s.revisions|) then Restore(s, x, |s.revisions|) else Rejected
    case Restorable(x, v) => Loaded(x, v)
    case Loaded(x, v) => if x.expires > s.now then Authenticated(x, v) else Rejected
    case Rejected => Rejected
    case Authenticated(x, v) => Authenticated(x, v)
  }

  function StepRequest(s: State, p: nat, r: Request): State {
    var s' := if r.pc.Hit? || r.pc.Row? then WithRevision(s) else s;
    s'.(requests := s.requests[p := r.(pc := NextPc(s', r))],
        cache := if r.pc.Restorable? then s.cache[r.digest := Cached(r.pc.session, r.pc.revision)] else s.cache)
  }

  // ---- everything ----

  function Step(s: State, op: Op, c: Config): State {
    match op
    case Tick(dt) => s.(now := s.now + dt)
    case StartIssue(d) => if d in s.issues || d in s.revoked then s
                          else s.(issues := s.issues[d := Issue(s.now + c.sessionTTL, Started)])
    case AdvanceIssue(d) => if d in s.issues then StepIssue(s, d, s.issues[d]) else s
    case AbortIssue(d) =>
      if d in s.issues then s.(rows := s.rows - {d}, issues := s.issues[d := s.issues[d].(pc := Finished)]) else s
    case Begin(p, d) =>
      if p in s.requests then s
      else s.(requests := s.requests[p := Request(d, d in s.revoked, |s.revisions|, Begun)])
    case AdvanceRequest(p) => if p in s.requests then StepRequest(s, p, s.requests[p]) else s
    case RefuseRequest(p) => if p in s.requests then SetPc(s, p, s.requests[p], Rejected) else s
    case Tombstone(d) =>
      s.(tombstones := s.tombstones[d := s.now + c.tombstoneTTL],
         revoked := if d in s.revoked then s.revoked else s.revoked[d := s.now])
    case DropCached(d) => s.(cache := s.cache - {d})
    case DropRow(d) => s.(rows := s.rows - {d})
    case StartRotation => if s.rotating.Some? then s else s.(rotating := Some(s.now))
    case StoreRotation =>
      if s.rotating.None? then s
      else s.(revisions := s.revisions + [Revision(s.rotating, s.now)], rotating := None)
    case AbortRotation => s.(rotating := None)
  }

  function Initial(start: int): State {
    State(start, map[], map[], map[], map[], [], None, map[], map[])
  }

  function Run(s: State, ops: seq<Op>, c: Config): State {
    if ops == [] then s else Step(Run(s, ops[..|ops| - 1], c), ops[|ops| - 1], c)
  }

  // ---- invariants ----

  /** A session record of token d as it was issued, created after the revisions it was inserted under were stored. */
  predicate Genuine(s: State, d: nat, x: Session) {
    && d in s.issues && x.digest == d && x.expires == s.issues[d].expires && x.under <= |s.revisions|
    && (forall i | 0 <= i < x.under :: s.revisions[i].storedAt <= x.created)
  }

  /** Stored with revision v, a session older than v was created after v's not-before time. */
  predicate Current(s: State, x: Session, v: nat) {
    && KnownRevision(s, v)
    && (x.under < v && s.revisions[v - 1].notBefore.Some? ==> x.created > s.revisions[v - 1].notBefore.value)
  }

  ghost predicate Ordered(s: State) {
    && (forall i | 0 <= i < |s.revisions| :: s.revisions[i].storedAt <= s.now)
    && (forall i | 0 <= i < |s.revisions| && s.revisions[i].notBefore.Some? ::
          s.revisions[i].notBefore.value <= s.revisions[i].storedAt)
    && (forall j | 0 < j < |s.revisions| :: s.revisions[j].notBefore.Some?)
    && (forall i, j | 0 <= i < j < |s.revisions| && s.revisions[i].notBefore.Some? ::
        s.revisions[i].notBefore.value <= s.revisions[j].notBefore.value)
    && (s.rotating.Some? ==> s.rotating.value <= s.now && forall i | 0 <= i < |s.revisions| &&
                             s.revisions[i].notBefore.Some? :: s.revisions[i].notBefore.value <= s.rotating.value)
  }

  ghost predicate TombstonesLast(s: State, c: Config) {
    && (forall d | d in s.issues :: s.issues[d].expires <= s.now + c.sessionTTL)
    && (forall d | d in s.revoked :: d in s.tombstones && s.revoked[d] <= s.now &&
                                     s.tombstones[d] >= s.revoked[d] + c.tombstoneTTL)
    && (forall d | d in s.revoked && d in s.issues :: s.issues[d].expires <= s.revoked[d] + c.sessionTTL)
  }

  predicate IssueOk(s: State, d: nat) {
    d in s.issues ==>
      match s.issues[d].pc
      case Started => true
      case Versioned(v) => KnownRevision(s, v)
      case Inserted(x, v) => Genuine(s, d, x) && Current(s, x, v)
      case Finished => true
  }

  predicate StoredOk(s: State, d: nat) {
    && (d in s.rows ==> Genuine(s, d, s.rows[d]))
    && (d in s.cache ==> Genuine(s, d, s.cache[d].session) && Current(s, s.cache[d].session, s.cache[d].revision))
  }

  /** Past the tombstone test, a late request can only be about a session that has expired. */
  predicate TooLate(s: State, r: Request) {
    r.late && !r.pc.Begun? && !r.pc.Rejected? ==> r.digest in s.issues ==> s.issues[r.digest].expires <= s.now
  }

  predicate PcOk(s: State, r: Request) {
    match r.pc
    case Hit(c) => Genuine(s, r.digest, c.session) && Current(s, c.session, c.revision)
    case Outdated(v) => KnownRevision(s, v) && v >= r.since
    case Row(x) => Genuine(s, r.digest, x)
    case Restorable(x, v) => Genuine(s, r.digest, x) && Current(s, x, v) && v >= r.since
    case Loaded(x, v) => Genuine(s, r.digest, x) && Current(s, x, v) && v >= r.since
    case Authenticated(x, v) => Genuine(s, r.digest, x) && Current(s, x, v) && v >= r.since
    case _ => true
  }

  predicate RequestOk(s: State, p: nat) {
    p in s.requests ==>
      var r := s.requests[p];
      r.since <= |s.revisions| && PcOk(s, r)
  }

  /** What holds whatever the lifetime of a tombstone. */
  ghost predicate Inv(s: State) {
    Ordered(s) && (forall d :: IssueOk(s, d)) && (forall d :: StoredOk(s, d)) && (forall p :: RequestOk(s, p))
  }

  predicate LateOk(s: State, r: Request) {
    (r.late ==> r.digest in s.revoked && !r.pc.Authenticated?) && TooLate(s, r)
  }

  predicate LateRequestOk(s: State, p: nat) {
    p in s.requests ==> LateOk(s, s.requests[p])
  }

  /** What a long-lived tombstone adds. */
  ghost predicate Barred(s: State, c: Config) {
    TombstonesLast(s, c) && forall p :: LateRequestOk(s, p)
  }

  // ---- what a step may change ----

  /** The clock, the issued tokens, the revisions and the revocations only grow; a new token is not revoked. */
  ghost predicate Grows(s: State, s': State) {
    && s.now <= s'.now && s.revisions <= s'.revisions
    && (forall d | d in s.issues :: d in s'.issues && s'.issues[d].expires == s.issues[d].expires)
    && (forall d | d in s'.issues && d !in s.issues :: d !in s.revoked)
    && (forall d | d in s.revoked :: d in s'.revoked)
  }

  lemma GenuineGrows(s: State, s': State, d: nat, x: Session)
    requires Grows(s, s') && Genuine(s, d, x)
    ensures Genuine(s', d, x)
  {
  }

  lemma CurrentGrows(s: State, s': State, x: Session, v: nat)
    requires Grows(s, s') && Current(s, x, v)
    ensures Current(s', x, v)
  {
  }

  lemma RequestGrows(s: State, s': State, p: nat)
    requires Grows(s, s') && RequestOk(s, p)
    requires p in s'.requests ==> p in s.requests && s'.requests[p] == s.requests[p]
    ensures RequestOk(s', p)
  {
  }

  lemma IssueGrows(s: State, s': State, d: nat)
    requires Grows(s, s') && IssueOk(s, d) && (d in s'.issues ==> d in s.issues && s'.issues[d] == s.issues[d])
    ensures IssueOk(s', d)
  {
  }

  lemma StoredGrows(s: State, s': State, d: nat)
    requires Grows(s, s') && StoredOk(s, d)
    requires (d in s'.rows ==> d in s.rows && s'.rows[d] == s.rows[d]) &&
             (d in s'.cache ==> d in s.cache && s'.cache[d] == s.cache[d])
    ensures StoredOk(s', d)
  {
  }

  /** What a step of a request leaves alone. */
  predicate RequestFrame(s: State, s': State, p: nat, r: Request) {
    && s' == s.(cache := s'.cache, revisions := s'.revisions, requests := s'.requests)
    && (s'.revisions == s.revisions || (s.revisions == [] && s'.revisions == [Revision(None, s.now)]))
    && p in s'.requests && s'.requests == s.requests[p := r.(pc := s'.requests[p].pc)]
    && (s'.cache == s.cache || (r.pc.Restorable? && s'.cache ==
                                s.cache[r.digest := Cached(r.pc.session, r.pc.revision)]))
  }

  lemma RequestFrameHolds(s: State, p: nat, r: Request)
    requires p in s.requests && r == s.requests[p]
    ensures RequestFrame(s, StepRequest(s, p, r), p, r)
  {
  }

  /** What a step of issuing leaves alone. */
  predicate IssueFrame(s: State, s': State, d: nat, i: Issue) {
    && s' == s.(rows := s'.rows, cache := s'.cache, revisions := s'.revisions, issues := s'.issues)
    && (s'.revisions == s.revisions || (s.revisions == [] && s'.revisions == [Revision(None, s.now)]))
    && d in s'.issues && s'.issues == s.issues[d := i.(pc := s'.issues[d].pc)]
    && (s'.rows == s.rows || (i.pc.Versioned? && s'.rows == s.rows[d := Session(d, s.now, i.expires, |s.revisions|)]))
    && (s'.cache == s.cache || (i.pc.Inserted? && s'.cache == s.cache[d := Cached(i.pc.session, i.pc.revision)]))
  }

  lemma IssueFrameHolds(s: State, d: nat, i: Issue)
    requires d in s.issues && i == s.issues[d]
    ensures IssueFrame(s, StepIssue(s, d, i), d, i)
  {
  }

  predicate Others(op: Op) {
    !op.AdvanceIssue? && !op.AdvanceRequest?
  }

  lemma OtherOrdered(s: State, op: Op, c: Config)
    requires Ordered(s) && Others(op)
    ensures Ordered(Step(s, op, c))
  {
    var s' := Step(s, op, c);
    if op.StoreRotation? && s.rotating.Some? {
      OneMoreOrdered(s, s');
    } else {
      SameRevisionsOrdered(s, s');
    }
  }

  lemma SameRevisionsOrdered(s: State, s': State)
    requires Ordered(s) && s'.revisions == s.revisions && s.now <= s'.now
    requires s'.rotating == s.rotating || s'.rotating.None? || s'.rotating == Some(s.now)
    ensures Ordered(s')
  {
  }

  lemma OneMoreOrdered(s: State, s': State)
    requires Ordered(s) && s.rotating.Some? && s'.revisions == s.revisions + [Revision(s.rotating, s.now)] &&
             s'.rotating.None? && s'.now == s.now
    ensures Ordered(s')
  {
    var n := |s.revisions|;
    assert s'.revisions[n] == Revision(s.rotating, s.now);
    assert forall i | 0 <= i < n :: s'.revisions[i] == s.revisions[i];
  }

  lemma FirstRevisionOrdered(s: State, s': State)
    requires Ordered(s) && s'.now == s.now && s'.rotating == s.rotating
    requires s'.revisions == s.revisions || (s.revisions == [] && s'.revisions == [Revision(None, s.now)])
    ensures Ordered(s')
  {
    assert s'.revisions == s.revisions || |s'.revisions| == 1;
  }

  lemma StepOrdered(s: State, op: Op, c: Config)
    requires Ordered(s)
    ensures Ordered(Step(s, op, c))
  {
    match op
    case AdvanceIssue(d) =>
      if d in s.issues {
        IssueFrameHolds(s, d, s.issues[d]);
        FirstRevisionOrdered(s, Step(s, op, c));
      }
    case AdvanceRequest(p) =>
      if p in s.requests {
        RequestFrameHolds(s, p, s.requests[p]);
        FirstRevisionOrdered(s, Step(s, op, c));
      }
    case _ => OtherOrdered(s, op, c);
  }

  predicate GrowsAt(s: State, s': State, d: nat) {
    && (d in s.issues ==> d in s'.issues && s'.issues[d].expires == s.issues[d].expires)
    && (d in s'.issues && d !in s.issues ==> d !in s.revoked)
    && (d in s.revoked ==> d in s'.revoked)
  }

  lemma IssuesGrow(s: State, op: Op, c: Config, d: nat)
    requires Others(op)
    ensures GrowsAt(s, Step(s, op, c), d)
  {
  }

  lemma ClockGrows(s: State, op: Op, c: Config)
    requires Others(op)
    ensures s.now <= Step(s, op, c).now && s.revisions <= Step(s, op, c).revisions
  {
  }

  lemma GrowsEverywhere(s: State, s': State)
    requires s.now <= s'.now && s.revisions <= s'.revisions && forall d :: GrowsAt(s, s', d)
    ensures Grows(s, s')
  {
    forall d
      ensures d in s.issues ==> d in s'.issues && s'.issues[d].expires == s.issues[d].expires
      ensures d in s'.issues && d !in s.issues ==> d !in s.revoked
      ensures d in s.revoked ==> d in s'.revoked
    {
      assert GrowsAt(s, s', d);
    }
  }

  lemma OtherGrows(s: State, op: Op, c: Config)
    requires Others(op)
    ensures Grows(s, Step(s, op, c))
  {
    ClockGrows(s, op, c);
    forall d
      ensures GrowsAt(s, Step(s, op, c), d)
    {
      IssuesGrow(s, op, c, d);
    }
    GrowsEverywhere(s, Step(s, op, c));
  }

  lemma StepGrows(s: State, op: Op, c: Config)
    ensures Grows(s, Step(s, op, c))
  {
    match op
    case AdvanceIssue(d) => if d in s.issues { IssueFrameHolds(s, d, s.issues[d]); }
    case AdvanceRequest(p) => if p in s.requests { RequestFrameHolds(s, p, s.requests[p]); }
    case _ => OtherGrows(s, op, c);
  }

  lemma OtherTombstones(s: State, op: Op, c: Config)
    requires TombstonesLast(s, c) && Others(op)
    ensures TombstonesLast(Step(s, op, c), c)
  {
  }

  lemma StepTombstones(s: State, op: Op, c: Config)
    requires TombstonesLast(s, c)
    ensures TombstonesLast(Step(s, op, c), c)
  {
    match op
    case AdvanceIssue(d) => if d in s.issues { IssueFrameHolds(s, d, s.issues[d]); }
    case AdvanceRequest(p) => if p in s.requests { RequestFrameHolds(s, p, s.requests[p]); }
    case _ => OtherTombstones(s, op, c);
  }

  // ---- each step keeps the invariant ----

  lemma RestoreIsCurrent(s: State, r: Request, x: Session, v: nat)
    requires Genuine(s, r.digest, x) && KnownRevision(s, v) && v >= r.since
    ensures PcOk(s, r.(pc := Restore(s, x, v)))
  {
  }

  /** The tombstone test: a late request that gets past it comes after the expiry of the session. */
  lemma TombstoneTest(s: State, r: Request, c: Config)
    requires TombstonesLast(s, c) && c.tombstoneTTL >= c.sessionTTL && r.late && r.digest in s.revoked &&
             !TombstoneVisible(s, r.digest)
    ensures r.digest in s.issues ==> s.issues[r.digest].expires <= s.now
  {
  }

  lemma NextPcOk(s: State, r: Request)
    requires StoredOk(s, r.digest) && r.since <= |s.revisions| && PcOk(s, r)
    requires r.pc.Row? ==> s.revisions != []
    ensures PcOk(s, r.(pc := NextPc(s, r)))
  {
    match r.pc
    case Outdated(v) => if r.digest in s.rows { RestoreIsCurrent(s, r, s.rows[r.digest], v); }
    case Row(x) => RestoreIsCurrent(s, r, x, |s.revisions|);
    case _ =>
  }

  lemma NextLate(s: State, r: Request, c: Config)
    requires TombstonesLast(s, c) && c.tombstoneTTL >= c.sessionTTL && LateOk(s, r) && PcOk(s, r)
    ensures LateOk(s, r.(pc := NextPc(s, r)))
  {
    if r.pc.Begun? && r.late && !TombstoneVisible(s, r.digest) {
      TombstoneTest(s, r, c);
    }
  }

  /** The state in which a request evaluates its next point: the current revision may have just been created. */
  function Seen(s: State, r: Request): State {
    if r.pc.Hit? || r.pc.Row? then WithRevision(s) else s
  }

  lemma SeenGrows(s: State, r: Request)
    ensures Grows(s, Seen(s, r)) && Seen(s, r) == s.(revisions := Seen(s, r).revisions)
  {
  }

  lemma AdvancedRequestOk(s: State, p: nat, c: Config)
    requires Inv(s) && p in s.requests
    ensures RequestOk(Step(s, AdvanceRequest(p), c), p)
  {
    var r := s.requests[p];
    var seen := Seen(s, r);
    SeenGrows(s, r);
    assert RequestOk(s, p) && StoredOk(s, r.digest);
    RequestGrows(s, seen, p);
    StoredGrows(s, seen, r.digest);
    NextPcOk(seen, r);
    SameView(seen, StepRequest(s, p, r), r.(pc := NextPc(seen, r)));
  }

  lemma AdvancedRequestLate(s: State, p: nat, c: Config)
    requires Inv(s) && Barred(s, c) && c.tombstoneTTL >= c.sessionTTL && p in s.requests
    ensures LateRequestOk(Step(s, AdvanceRequest(p), c), p)
  {
    var r := s.requests[p];
    var seen := Seen(s, r);
    SeenGrows(s, r);
    assert RequestOk(s, p) && LateRequestOk(s, p);
    RequestGrows(s, seen, p);
    NextLate(seen, r, c);
  }

  /** Whether a request is in order depends on the clock, the issued tokens and the revisions only. */
  lemma SameView(s: State, s': State, r: Request)
    requires s'.now == s.now && s'.issues == s.issues && s'.revisions == s.revisions && PcOk(s, r)
    ensures PcOk(s', r)
  {
  }

  lemma LateGrows(s: State, s': State, p: nat)
    requires Grows(s, s') && LateRequestOk(s, p)
    requires p in s'.requests ==> p in s.requests && s'.requests[p] == s.requests[p]
    ensures LateRequestOk(s', p)
  {
  }

  lemma LateKept(s: State, op: Op, c: Config, p: nat)
    requires Inv(s) && Barred(s, c) && c.tombstoneTTL >= c.sessionTTL
    ensures LateRequestOk(Step(s, op, c), p)
  {
    var s' := Step(s, op, c);
    StepGrows(s, op, c);
    assert LateRequestOk(s, p);
    if op.AdvanceRequest? && op.p in s.requests {
      RequestFrameHolds(s, op.p, s.requests[op.p]);
      if op.p == p {
        AdvancedRequestLate(s, p, c);
      } else {
        LateGrows(s, s', p);
      }
    } else if (op.Begin? || op.RefuseRequest?) && op.p == p {
    } else {
      OtherRequests(s, op, c, p);
      LateGrows(s, s', p);
    }
  }

  lemma RequestsKept(s: State, op: Op, c: Config, p: nat)
    requires Inv(s)
    ensures RequestOk(Step(s, op, c), p)
  {
    var s' := Step(s, op, c);
    StepGrows(s, op, c);
    assert RequestOk(s, p);
    if op.AdvanceRequest? && op.p in s.requests {
      RequestFrameHolds(s, op.p, s.requests[op.p]);
      if op.p == p {
        AdvancedRequestOk(s, p, c);
      } else {
        RequestGrows(s, s', p);
      }
    } else if (op.Begin? || op.RefuseRequest?) && op.p == p {
      assert p in s'.requests ==> s'.requests[p].pc.Begun? || s'.requests[p].pc.Rejected? ||
                                  (p in s.requests && s'.requests[p] == s.requests[p]);
      RequestsStarted(s, op, c, p);
    } else {
      OtherRequests(s, op, c, p);
      RequestGrows(s, s', p);
    }
  }

  lemma RequestsStarted(s: State, op: Op, c: Config, p: nat)
    requires RequestOk(s, p) && (op.Begin? || op.RefuseRequest?) && op.p == p
    ensures RequestOk(Step(s, op, c), p)
  {
  }

  lemma OtherRequests(s: State, op: Op, c: Config, p: nat)
    requires !op.AdvanceRequest? || op.p !in s.requests
    requires !((op.Begin? || op.RefuseRequest?) && op.p == p)
    ensures var s' := Step(s, op, c); p in s'.requests ==> p in s.requests && s'.requests[p] == s.requests[p]
  {
    if op.AdvanceIssue? && op.d in s.issues {
      IssueFrameHolds(s, op.d, s.issues[op.d]);
    }
  }

  lemma AdvancedIssueOk(s: State, d: nat, c: Config)
    requires Ordered(s) && IssueOk(s, d) && StoredOk(s, d) && d in s.issues
    ensures IssueOk(Step(s, AdvanceIssue(d), c), d) && StoredOk(Step(s, AdvanceIssue(d), c), d)
  {
    match s.issues[d].pc
    case Started => VersionedOk(s, d, c);
    case Versioned(v) => InsertedOk(s, d, c);
    case Inserted(x, v) =>
    case Finished =>
  }

  lemma VersionedOk(s: State, d: nat, c: Config)
    requires IssueOk(s, d) && StoredOk(s, d) && d in s.issues && s.issues[d].pc.Started?
    ensures IssueOk(Step(s, AdvanceIssue(d), c), d) && StoredOk(Step(s, AdvanceIssue(d), c), d)
  {
    IssueFrameHolds(s, d, s.issues[d]);
    StepGrows(s, AdvanceIssue(d), c);
    StoredGrows(s, Step(s, AdvanceIssue(d), c), d);
  }

  lemma InsertedOk(s: State, d: nat, c: Config)
    requires Ordered(s) && IssueOk(s, d) && StoredOk(s, d) && d in s.issues && s.issues[d].pc.Versioned?
    ensures IssueOk(Step(s, AdvanceIssue(d), c), d) && StoredOk(Step(s, AdvanceIssue(d), c), d)
  {
    StepGrows(s, AdvanceIssue(d), c);
    if d in s.cache {
      GenuineGrows(s, Step(s, AdvanceIssue(d), c), d, s.cache[d].session);
    }
  }

  lemma IssuesKept(s: State, op: Op, c: Config, d: nat)
    requires Inv(s)
    ensures IssueOk(Step(s, op, c), d)
  {
    var s' := Step(s, op, c);
    StepGrows(s, op, c);
    assert IssueOk(s, d) && StoredOk(s, d);
    if op.AdvanceIssue? && op.d in s.issues {
      if op.d == d {
        AdvancedIssueOk(s, d, c);
      } else {
        IssueFrameHolds(s, op.d, s.issues[op.d]);
        IssueGrows(s, s', d);
      }
    } else if (op.StartIssue? || op.AbortIssue?) && op.d == d {
    } else {
      OtherIssues(s, op, c, d);
      IssueGrows(s, s', d);
    }
  }

  lemma OtherIssues(s: State, op: Op, c: Config, d: nat)
    requires !op.AdvanceIssue? || op.d !in s.issues
    requires !((op.StartIssue? || op.AbortIssue?) && op.d == d)
    ensures var s' := Step(s, op, c); d in s'.issues ==> d in s.issues && s'.issues[d] == s.issues[d]
  {
    if op.AdvanceRequest? && op.p in s.requests {
      RequestFrameHolds(s, op.p, s.requests[op.p]);
    }
  }

  lemma OtherStored(s: State, op: Op, c: Config, d: nat)
    requires Others(op)
    ensures var s' := Step(s, op, c);
            && (d in s'.rows ==> d in s.rows && s'.rows[d] == s.rows[d])
            && (d in s'.cache ==> d in s.cache && s'.cache[d] == s.cache[d])
  {
  }

  lemma RestoredOk(s: State, p: nat, d: nat, c: Config)
    requires StoredOk(s, d) && RequestOk(s, p) && p in s.requests
    ensures StoredOk(Step(s, AdvanceRequest(p), c), d)
  {
    var s' := Step(s, AdvanceRequest(p), c);
    var r := s.requests[p];
    RequestFrameHolds(s, p, r);
    StepGrows(s, AdvanceRequest(p), c);
    if r.pc.Restorable? && r.digest == d {
      GenuineGrows(s, s', d, r.pc.session);
      CurrentGrows(s, s', r.pc.session, r.pc.revision);
      assert s'.rows == s.rows;
    } else {
      StoredGrows(s, s', d);
    }
  }

  lemma StoredKept(s: State, op: Op, c: Config, d: nat)
    requires Inv(s)
    ensures StoredOk(Step(s, op, c), d)
  {
    var s' := Step(s, op, c);
    assert IssueOk(s, d) && StoredOk(s, d);
    if op.AdvanceIssue? && op.d in s.issues {
      if op.d == d {
        AdvancedIssueOk(s, d, c);
      } else {
        StepGrows(s, op, c);
        IssueFrameHolds(s, op.d, s.issues[op.d]);
        StoredGrows(s, s', d);
      }
    } else if op.AdvanceRequest? && op.p in s.requests {
      assert RequestOk(s, op.p);
      RestoredOk(s, op.p, d, c);
    } else if Others(op) {
      StepGrows(s, op, c);
      OtherStored(s, op, c, d);
      StoredGrows(s, s', d);
    }
  }

  lemma StepKeeps(s: State, op: Op, c: Config)
    requires Inv(s)
    ensures Inv(Step(s, op, c))
  {
    StepOrdered(s, op, c);
    forall d
      ensures IssueOk(Step(s, op, c), d)
    {
      IssuesKept(s, op, c, d);
    }
    forall d
      ensures StoredOk(Step(s, op, c), d)
    {
      StoredKept(s, op, c, d);
    }
    forall p
      ensures RequestOk(Step(s, op, c), p)
    {
      RequestsKept(s, op, c, p);
    }
  }

  lemma {:induction false} Reachable(start: int, ops: seq<Op>, c: Config)
    ensures Inv(Run(Initial(start), ops, c))
  {
    if ops != [] {
      Reachable(start, ops[..|ops| - 1], c);
      StepKeeps(Run(Initial(start), ops[..|ops| - 1], c), ops[|ops| - 1], c);
    }
  }

  lemma {:induction false} ReachableBarred(start: int, ops: seq<Op>, c: Config)
    requires c.tombstoneTTL >= c.sessionTTL
    ensures Barred(Run(Initial(start), ops, c), c)
  {
    if ops != [] {
      var before, op := Run(Initial(start), ops[..|ops| - 1], c), ops[|ops| - 1];
      Reachable(start, ops[..|ops| - 1], c);
      ReachableBarred(start, ops[..|ops| - 1], c);
      StepTombstones(before, op, c);
      forall p
        ensures LateRequestOk(Step(before, op, c), p)
      {
        LateKept(before, op, c, p);
      }
    }
  }

  // ---- the promises ----

  /** A request that began after a tombstone for its token was written authenticated it. */
  predicate AuthenticatedRevoked(s: State, p: nat) {
    p in s.requests && s.requests[p].late && s.requests[p].pc.Authenticated?
  }

  /** No request that begins after a tombstone for its token was written ever authenticates. */
  lemma {:induction false} RevocationIsFinal(start: int, ops: seq<Op>, c: Config, p: nat)
    requires c.tombstoneTTL >= c.sessionTTL
    ensures !AuthenticatedRevoked(Run(Initial(start), ops, c), p)
  {
    ReachableBarred(start, ops, c);
    assert LateRequestOk(Run(Initial(start), ops, c), p);
  }

  /** A request that began after revision number v was stored with not-before time t authenticated session x. */
  predicate AuthenticatedAfter(s: State, p: nat, v: nat, t: int, x: Session) {
    && p in s.requests && s.requests[p].pc.Authenticated? && s.requests[p].pc.session == x
    && 0 < v <= s.requests[p].since && v <= |s.revisions| && s.revisions[v - 1].notBefore == Some(t)
  }

  lemma YoungerThanRotation(s: State, p: nat, v: nat, t: int, x: Session)
    requires Ordered(s) && RequestOk(s, p) && AuthenticatedAfter(s, p, v, t, x)
    ensures x.created > t || (x.created == t == s.revisions[v - 1].storedAt && x.under >= v)
  {
    var w := s.requests[p].pc.revision;
    if x.under >= v {
      assert s.revisions[v - 1].storedAt <= x.created;
    } else {
      assert w == v || s.revisions[v - 1].notBefore.value <= s.revisions[w - 1].notBefore.value;
    }
  }

  /**
   After a rotation with not-before time t, a later request authenticates no session created before t, and one created
   at t only if the rotation was stored at t as well and the session was inserted after it.
   */
  lemma {:induction false} RotationIsFinal(start: int, ops: seq<Op>, c: Config, p: nat, v: nat, t: int, x: Session)
    requires AuthenticatedAfter(Run(Initial(start), ops, c), p, v, t, x)
    ensures x.created > t || (x.created == t == Run(Initial(start), ops, c).revisions[v - 1].storedAt && x.under >= v)
  {
    Reachable(start, ops, c);
    assert RequestOk(Run(Initial(start), ops, c), p);
    YoungerThanRotation(Run(Initial(start), ops, c), p, v, t, x);
  }

  // ---- runs that reach the edges ----

  lemma {:induction false} RunAppend(s: State, a: seq<Op>, b: seq<Op>, c: Config)
    ensures Run(s, a + b, c) == Run(Run(s, a, c), b, c)
  {
    if b == [] {
      assert a + b == a;
    } else {
      RunAppend(s, a, b[..|b| - 1], c);
      assert (a + b)[..|a + b| - 1] == a + b[..|b| - 1];
    }
  }

  function Times(op: Op, n: nat): seq<Op> {
    if n == 0 then [] else Times(op, n - 1) + [op]
  }

  function Repeat(s: State, op: Op, n: nat, c: Config): State {
    if n == 0 then s else Step(Repeat(s, op, n - 1, c), op, c)
  }

  lemma {:induction false} RunTimes(s: State, first: Op, op: Op, n: nat, c: Config)
    ensures Run(s, [first] + Times(op, n), c) == Repeat(Step(s, first, c), op, n, c)
  {
    if n == 0 {
      assert [first][..0] == [] && [first] + Times(op, 0) == [first];
    } else {
      RunTimes(s, first, op, n - 1, c);
      var ops := [first] + Times(op, n);
      assert ops[..|ops| - 1] == [first] + Times(op, n - 1);
    }
  }

  /** The session that issuing at time s.now makes. */
  function NewSession(s: State, d: nat, c: Config): Session {
    Session(d, s.now, s.now + c.sessionTTL, |WithRevision(s).revisions|)
  }

  function IssueOps(d: nat): seq<Op> {
    [StartIssue(d)] + Times(AdvanceIssue(d), 3)
  }

  /** Issuing without interruption caches the session under the current revision, which it creates if there is none. */
  lemma {:induction false} IssueCompletes(s: State, d: nat, c: Config)
    requires d !in s.issues && d !in s.revoked
    ensures Run(s, IssueOps(d), c) == Issued(s, NewSession(s, d, c))
  {
    IssueCompletesIn(s, d, c, 3);
  }

  lemma {:induction false} IssueCompletesIn(s: State, d: nat, c: Config, n: nat)
    requires n == 3 && d !in s.issues && d !in s.revoked
    ensures Run(s, [StartIssue(d)] + Times(AdvanceIssue(d), n), c) == Issued(s, NewSession(s, d, c))
  {
    var i := Issue(s.now + c.sessionTTL, Started);
    var started := s.(issues := s.issues[d := i]);
    RunTimes(s, StartIssue(d), AdvanceIssue(d), n, c);
    IssueStarts(s, d, c);
    IssueStepsIn(started, d, c, n, NewSession(s, d, c));
    StartedThenIssued(s, i, NewSession(s, d, c));
  }

  lemma {:induction false} IssueStepsIn(s: State, d: nat, c: Config, n: nat, x: Session)
    requires n == 3 && d in s.issues && s.issues[d].pc.Started?
    requires x == Session(d, s.now, s.issues[d].expires, |WithRevision(s).revisions|)
    ensures Repeat(s, AdvanceIssue(d), n, c) == Issued(s, x)
  {
    IssueSteps(s, d, c);
  }

  lemma IssueStarts(s: State, d: nat, c: Config)
    requires d !in s.issues && d !in s.revoked
    ensures var started := s.(issues := s.issues[d := Issue(s.now + c.sessionTTL, Started)]);
            && Step(s, StartIssue(d), c) == started
            && |WithRevision(started).revisions| == |WithRevision(s).revisions|
  {
  }

  /** The state after session x was issued: it is cached under the current revision. */
  function Issued(s: State, x: Session): State {
    var w := WithRevision(s);
    w.(rows := s.rows[x.digest := x], cache := s.cache[x.digest := Cached(x, |w.revisions|)],
       issues := s.issues[x.digest := Issue(x.expires, Finished)])
  }

  lemma StartedThenIssued(s: State, i: Issue, x: Session)
    ensures Issued(s.(issues := s.issues[x.digest := i]), x) == Issued(s, x)
  {
    assert s.issues[x.digest := i][x.digest := Issue(x.expires, Finished)] ==
           s.issues[x.digest := Issue(x.expires, Finished)];
  }

  lemma {:induction false} IssueSteps(s: State, d: nat, c: Config)
    requires d in s.issues && s.issues[d].pc.Started?
    ensures Repeat(s, AdvanceIssue(d), 3, c) ==
            Issued(s, Session(d, s.now, s.issues[d].expires, |WithRevision(s).revisions|))
  {
    var i, w := s.issues[d], WithRevision(s);
    var v := |w.revisions|;
    var x := Session(d, s.now, i.expires, v);
    var s1 := w.(issues := s.issues[d := i.(pc := Versioned(v))]);
    var s2 := w.(rows := s.rows[d := x], issues := s.issues[d := i.(pc := Inserted(x, v))]);
    assert Repeat(s, AdvanceIssue(d), 1, c) == s1;
    assert StepIssue(s1, d, s1.issues[d]) == s2 by {
      assert s1.issues[d := i.(pc := Inserted(x, v))] == s2.issues;
    }
    assert Repeat(s, AdvanceIssue(d), 2, c) == s2;
    assert s2.issues[d := i.(pc := Finished)] == s.issues[d := i.(pc := Finished)];
  }

  function RequestOps(p: nat, d: nat): seq<Op> {
    [Begin(p, d)] + Times(AdvanceRequest(p), 4)
  }

  /** An unrevoked, unexpired session cached under the current revision authenticates. */
  lemma {:induction false} RequestCompletes(s: State, p: nat, d: nat, c: Config)
    requires p !in s.requests && d in s.cache && s.revisions != [] && s.cache[d].revision == |s.revisions|
    requires !TombstoneVisible(s, d) && s.cache[d].session.expires > s.now
    ensures Run(s, RequestOps(p, d), c)
            == s.(requests := s.requests[p := Request(d, d in s.revoked, |s.revisions|,
                                                      Authenticated(s.cache[d].session, |s.revisions|))])
  {
    RunTimes(s, Begin(p, d), AdvanceRequest(p), 4, c);
    var r := Request(d, d in s.revoked, |s.revisions|, Begun);
    var x := s.cache[d].session;
    var v := |s.revisions|;
    assert AtPc(s, p, r, Begun) == Step(s, Begin(p, d), c);
    GoesOn(s, p, r, Begun, NoTombstone, c);
    GoesOn(s, p, r, NoTombstone, Hit(s.cache[d]), c);
    ReadsRevision(s, p, r, Hit(s.cache[d]), Loaded(x, v), c);
    GoesOn(s, p, r, Loaded(x, v), Authenticated(x, v), c);
    FourSteps(AtPc(s, p, r, Begun), AdvanceRequest(p), c);
  }

  function AtPc(s: State, p: nat, r: Request, pc: RequestPc): State {
    s.(requests := s.requests[p := r.(pc := pc)])
  }

  lemma {:induction false} FourSteps(s: State, op: Op, c: Config)
    ensures Repeat(s, op, 4, c) == Step(Step(Step(Step(s, op, c), op, c), op, c), op, c)
  {
    assert Repeat(s, op, 1, c) == Step(s, op, c);
    assert Repeat(s, op, 2, c) == Step(Step(s, op, c), op, c);
    assert Repeat(s, op, 3, c) == Step(Step(Step(s, op, c), op, c), op, c);
  }

  // ---- the fallback to PostgreSQL ----

  /** Long enough for the way through PostgreSQL and back into the cache. */
  function FallbackOps(p: nat, d: nat): seq<Op> {
    [Begin(p, d)] + Times(AdvanceRequest(p), 6)
  }

  /** The cache does not hold the session under the current revision. */
  predicate NotCached(s: State, d: nat) {
    d in s.cache ==> s.cache[d].revision != |WithRevision(s).revisions|
  }

  /** The current revision has no not-before time, or the session was created after it. */
  predicate CreatedSince(s: State, x: Session) {
    var current := WithRevision(s).revisions[|WithRevision(s).revisions| - 1];
    current.notBefore.Some? ==> x.created > current.notBefore.value
  }

  /** The state after the fallback. */
  function FellBack(s: State, p: nat, d: nat, x: Session): State {
    var w := WithRevision(s);
    var v := |w.revisions|;
    var pc := if CreatedSince(s, x) then Authenticated(x, v) else Rejected;
    w.(requests := s.requests[p := Request(d, d in s.revoked, |s.revisions|, pc)],
       cache := if CreatedSince(s, x) then s.cache[d := Cached(x, v)] else s.cache)
  }

  /** One step of a request that neither reads the revision nor writes the cache. */
  lemma GoesOn(s: State, p: nat, r: Request, pc: RequestPc, next: RequestPc, c: Config)
    requires !pc.Restorable? && !pc.Hit? && !pc.Row? && NextPc(s, r.(pc := pc)) == next
    ensures Step(AtPc(s, p, r, pc), AdvanceRequest(p), c) == AtPc(s, p, r, next)
  {
    var at := AtPc(s, p, r, pc);
    assert NextPc(at, r.(pc := pc)) == next;
    assert at.requests[p := r.(pc := next)] == s.requests[p := r.(pc := next)];
  }

  /** One step that reads the current revision. */
  lemma ReadsRevision(s: State, p: nat, r: Request, pc: RequestPc, next: RequestPc, c: Config)
    requires (pc.Hit? || pc.Row?) && NextPc(WithRevision(s), r.(pc := pc)) == next
    ensures Step(AtPc(s, p, r, pc), AdvanceRequest(p), c) == AtPc(WithRevision(s), p, r, next)
  {
    StepsRequest(s, p, r, pc, c);
    var at := AtPc(s, p, r, pc);
    SameRevision(s, p, r, pc);
    assert at.requests[p := r.(pc := next)] == s.requests[p := r.(pc := next)];
  }

  lemma StepsRequest(s: State, p: nat, r: Request, pc: RequestPc, c: Config)
    ensures Step(AtPc(s, p, r, pc), AdvanceRequest(p), c) == StepRequest(AtPc(s, p, r, pc), p, r.(pc := pc))
  {
  }

  lemma SameRevision(s: State, p: nat, r: Request, pc: RequestPc)
    ensures WithRevision(AtPc(s, p, r, pc)) == AtPc(WithRevision(s), p, r, pc)
    ensures NextPc(AtPc(WithRevision(s), p, r, pc), r.(pc := pc)) == NextPc(WithRevision(s), r.(pc := pc))
  {
  }

  /** The cache write. */
  lemma WritesCache(s: State, p: nat, r: Request, x: Session, v: nat, c: Config)
    ensures Step(AtPc(s, p, r, Restorable(x, v)), AdvanceRequest(p), c) ==
            AtPc(s.(cache := s.cache[r.digest := Cached(x, v)]), p, r, Loaded(x, v))
  {
    assert s.requests[p := r.(pc := Restorable(x, v))][p := r.(pc := Loaded(x, v))] ==
           s.requests[p := r.(pc := Loaded(x, v))];
  }

  /** From the row to the end: the not-before test, the cache write and the last expiry test. */
  lemma RestoredThenServed(w: State, p: nat, r: Request, x: Session, c: Config)
    requires w.revisions != [] && x.expires > w.now
    ensures var v := |w.revisions|;
            var restored := AtPc(w, p, r, Restore(w, x, v));
            Step(Step(restored, AdvanceRequest(p), c), AdvanceRequest(p), c) ==
            if CreatedSince(w, x) then AtPc(w.(cache := w.cache[r.digest := Cached(x, v)]), p, r, Authenticated(x, v))
            else AtPc(w, p, r, Rejected)
  {
    var v := |w.revisions|;
    if CreatedSince(w, x) {
      var saved := w.(cache := w.cache[r.digest := Cached(x, v)]);
      WritesCache(w, p, r, x, v, c);
      GoesOn(saved, p, r, Loaded(x, v), Authenticated(x, v), c);
    } else {
      GoesOn(w, p, r, Rejected, Rejected, c);
    }
  }

  /**
   A request that nothing interrupts, for an unexpired row without a tombstone that the cache does not hold under the
   current revision, is served from PostgreSQL if and only if the revision has no not-before time or the session was
   created after it; the cache then holds the session under that revision.
   */
  lemma {:induction false} FallbackServesIff(s: State, p: nat, d: nat, c: Config)
    requires p !in s.requests && !TombstoneVisible(s, d) && NotCached(s, d)
    requires d in s.rows && s.rows[d].expires > s.now
    ensures Run(s, FallbackOps(p, d), c) == FellBack(s, p, d, s.rows[d])
    ensures Run(s, FallbackOps(p, d), c).requests[p].pc.Authenticated? <==> CreatedSince(s, s.rows[d])
  {
    FallbackServesIn(s, p, d, c, 6);
  }

  lemma {:induction false} FallbackServesIn(s: State, p: nat, d: nat, c: Config, n: nat)
    requires n == 6 && p !in s.requests && !TombstoneVisible(s, d) && NotCached(s, d)
    requires d in s.rows && s.rows[d].expires > s.now
    ensures Run(s, [Begin(p, d)] + Times(AdvanceRequest(p), n), c) == FellBack(s, p, d, s.rows[d])
  {
    var r, w, x := Request(d, d in s.revoked, |s.revisions|, Begun), WithRevision(s), s.rows[d];
    RunTimes(s, Begin(p, d), AdvanceRequest(p), n, c);
    assert Step(s, Begin(p, d), c) == AtPc(s, p, r, Begun);
    SixSteps(s, p, r, c, n);
    RowIsRead(s, p, r, c);
    RestoredThenServed(w, p, r, x, c);
    ServedIs(s, p, d);
  }

  /** The request after its first four steps. */
  function Fourth(s: State, p: nat, r: Request, c: Config): State {
    Third(Step(AtPc(s, p, r, Begun), AdvanceRequest(p), c), p, c)
  }

  function Third(s: State, p: nat, c: Config): State {
    Step(Step(Step(s, AdvanceRequest(p), c), AdvanceRequest(p), c), AdvanceRequest(p), c)
  }

  lemma NoTombstoneFound(s: State, p: nat, r: Request, c: Config)
    requires !TombstoneVisible(s, r.digest)
    ensures var pc := if r.digest in s.cache then Hit(s.cache[r.digest]) else Missed;
            Fourth(s, p, r, c) == Step(Step(AtPc(s, p, r, pc), AdvanceRequest(p), c), AdvanceRequest(p), c)
  {
    GoesOn(s, p, r, Begun, NoTombstone, c);
    GoesOn(s, p, r, NoTombstone, if r.digest in s.cache then Hit(s.cache[r.digest]) else Missed, c);
  }

  /** On a miss, and on a hit under an older revision, the row is tested against the current revision. */
  lemma RowIsRead(s: State, p: nat, r: Request, c: Config)
    requires !TombstoneVisible(s, r.digest) && NotCached(s, r.digest) && r.digest in s.rows
    ensures var w := WithRevision(s); Fourth(s, p, r, c) == AtPc(w, p, r, Restore(w, s.rows[r.digest], |w.revisions|))
  {
    NoTombstoneFound(s, p, r, c);
    var w, x := WithRevision(s), s.rows[r.digest];
    if r.digest in s.cache {
      ReadsRevision(s, p, r, Hit(s.cache[r.digest]), Outdated(|w.revisions|), c);
      GoesOn(w, p, r, Outdated(|w.revisions|), Restore(w, x, |w.revisions|), c);
    } else {
      GoesOn(s, p, r, Missed, Row(x), c);
      ReadsRevision(s, p, r, Row(x), Restore(w, x, |w.revisions|), c);
    }
  }

  lemma ServedIs(s: State, p: nat, d: nat)
    requires d in s.rows
    ensures var r, w, x := Request(d, d in s.revoked, |s.revisions|, Begun), WithRevision(s), s.rows[d];
            var v := |w.revisions|;
            FellBack(s, p, d, x) ==
            if CreatedSince(w, x) then AtPc(w.(cache := w.cache[d := Cached(x, v)]), p, r, Authenticated(x, v))
            else AtPc(w, p, r, Rejected)
  {
  }

  lemma {:induction false} SixSteps(s: State, p: nat, r: Request, c: Config, n: nat)
    requires n == 6
    ensures Repeat(AtPc(s, p, r, Begun), AdvanceRequest(p), n, c) ==
            Step(Step(Fourth(s, p, r, c), AdvanceRequest(p), c), AdvanceRequest(p), c)
  {
    var at, op := AtPc(s, p, r, Begun), AdvanceRequest(p);
    FourSteps(at, op, c);
    assert Repeat(at, op, 5, c) == Step(Repeat(at, op, 4, c), op, c);
  }

  /** A tombstone, no session, or an expired one. */
  predicate Unserved(s: State, d: nat) {
    || TombstoneVisible(s, d)
    || (NotCached(s, d) && (d in s.rows ==> s.rows[d].expires <= s.now))
    || (!NotCached(s, d) && s.cache[d].session.expires <= s.now)
  }

  /** A request that finds a tombstone, an expired session or no session is turned away. */
  lemma {:induction false} RequestRefused(s: State, p: nat, d: nat, c: Config)
    requires p !in s.requests && Unserved(s, d)
    ensures var after := Run(s, FallbackOps(p, d), c); p in after.requests && after.requests[p].pc.Rejected?
  {
    RefusedIn(s, p, d, c, 6);
  }

  lemma {:induction false} RefusedIn(s: State, p: nat, d: nat, c: Config, n: nat)
    requires n == 6 && p !in s.requests && Unserved(s, d)
    ensures var after := Run(s, [Begin(p, d)] + Times(AdvanceRequest(p), n), c);
            p in after.requests && after.requests[p].pc.Rejected?
  {
    var r := Request(d, d in s.revoked, |s.revisions|, Begun);
    RunTimes(s, Begin(p, d), AdvanceRequest(p), n, c);
    assert Step(s, Begin(p, d), c) == AtPc(s, p, r, Begun);
    var z := SixthIsRefused(s, p, r, c, n);
  }

  lemma {:induction false} SixthIsRefused(s: State, p: nat, r: Request, c: Config, n: nat) returns (z: State)
    requires n == 6 && Unserved(s, r.digest)
    ensures Repeat(AtPc(s, p, r, Begun), AdvanceRequest(p), n, c) == AtPc(z, p, r, Rejected)
  {
    SixSteps(s, p, r, c, n);
    z := FourthIsRefused(s, p, r, c);
    GoesOn(z, p, r, Rejected, Rejected, c);
  }

  lemma FourthIsRefused(s: State, p: nat, r: Request, c: Config) returns (z: State)
    requires Unserved(s, r.digest)
    ensures Fourth(s, p, r, c) == AtPc(z, p, r, Rejected)
  {
    z := s;
    if TombstoneVisible(s, r.digest) {
      GoesOn(s, p, r, Begun, Rejected, c);
      GoesOn(s, p, r, Rejected, Rejected, c);
    } else {
      NoTombstoneFound(s, p, r, c);
      if NotCached(s, r.digest) {
        z := UnservedRow(s, p, r, c);
      } else {
        UnservedHit(s, p, r, c);
        z := WithRevision(s);
      }
    }
  }

  lemma UnservedHit(s: State, p: nat, r: Request, c: Config)
    requires !NotCached(s, r.digest) && s.cache[r.digest].session.expires <= s.now
    ensures var op, at := AdvanceRequest(p), AtPc(s, p, r, Hit(s.cache[r.digest]));
            Step(Step(at, op, c), op, c) == AtPc(WithRevision(s), p, r, Rejected)
  {
    var cached := s.cache[r.digest];
    ReadsRevision(s, p, r, Hit(cached), Loaded(cached.session, cached.revision), c);
    GoesOn(WithRevision(s), p, r, Loaded(cached.session, cached.revision), Rejected, c);
  }

  lemma UnservedRow(s: State, p: nat, r: Request, c: Config) returns (z: State)
    requires NotCached(s, r.digest) && (r.digest in s.rows ==> s.rows[r.digest].expires <= s.now)
    ensures var op, d := AdvanceRequest(p), r.digest;
            var at := AtPc(s, p, r, if d in s.cache then Hit(s.cache[d]) else Missed);
            Step(Step(at, op, c), op, c) == AtPc(z, p, r, Rejected)
  {
    var d, w := r.digest, WithRevision(s);
    z := w;
    if d in s.cache {
      ReadsRevision(s, p, r, Hit(s.cache[d]), Outdated(|w.revisions|), c);
      GoesOn(w, p, r, Outdated(|w.revisions|), Rejected, c);
    } else if d in s.rows {
      GoesOn(s, p, r, Missed, Row(s.rows[d]), c);
      ReadsRevision(s, p, r, Row(s.rows[d]), Rejected, c);
    } else {
      GoesOn(s, p, r, Missed, Rejected, c);
      GoesOn(s, p, r, Rejected, Rejected, c);
      z := s;
    }
  }

  /** A rotation at time s.now, then a session issued in the same instant. */
  function RotatedAndIssued(start: int, c: Config): State {
    Run(Run(Initial(start), [StartRotation, StoreRotation], c), IssueOps(0), c)
  }

  lemma RotatedAndIssuedIs(start: int, c: Config)
    ensures var s := RotatedAndIssued(start, c);
            && s.now == start && s.revisions == [Revision(Some(start), start)] && s.requests == map[] &&
               s.tombstones == map[] && s.revoked == map[]
            && 0 in s.cache && s.cache[0] == Cached(Session(0, start, start + c.sessionTTL, 1), 1)
  {
    var ops := [StartRotation, StoreRotation];
    assert ops[..1][..0] == [] && ops[..1] == [StartRotation] && ops[..2] == ops;
    assert Run(Initial(start), ops[..1], c) == Step(Initial(start), StartRotation, c);
    assert Run(Initial(start), ops, c) == Initial(start).(revisions := [Revision(Some(start), start)]);
    IssueCompletes(Run(Initial(start), ops, c), 0, c);
  }

  lemma {:induction false} RevisionsKept(s: State, ops: seq<Op>, c: Config)
    ensures s.revisions <= Run(s, ops, c).revisions
  {
    if ops != [] {
      RevisionsKept(s, ops[..|ops| - 1], c);
      StepGrows(Run(s, ops[..|ops| - 1], c), ops[|ops| - 1], c);
    }
  }

  /** A session issued right after a rotation is stored, and its first request. */
  function NextSessionOps(p: nat, d: nat): seq<Op> {
    IssueOps(d) + RequestOps(p, d)
  }

  lemma {:induction false} NextSessionAuthenticates(s: State, p: nat, d: nat, c: Config)
    requires c.sessionTTL > 0 && s.revisions != []
    requires p !in s.requests && d !in s.issues && d !in s.revoked && d !in s.tombstones
    ensures var after := Run(s, NextSessionOps(p, d), c);
            && p in after.requests && after.requests[p].pc == Authenticated(NewSession(s, d, c), |s.revisions|)
            && after.requests[p].since == |s.revisions| && after.revisions == s.revisions
  {
    IssueCompletes(s, d, c);
    var issued := Run(s, IssueOps(d), c);
    RequestCompletes(issued, p, d, c);
    RunAppend(s, IssueOps(d), RequestOps(p, d), c);
  }

  /** No later request authenticates a session created at or before the not-before time t of revision v. */
  ghost predicate RotationBars(stored: State, v: nat, t: int, c: Config) {
    forall ops, p, x | AuthenticatedAfter(Run(stored, ops, c), p, v, t, x) :: x.created > t
  }

  lemma {:induction false} LateRotationBars(start: int, before: seq<Op>, c: Config, t: int, ops: seq<Op>, p: nat,
                                            x: Session)
    requires var s := Run(Initial(start), before, c);
             && s.rotating == Some(t) && t < s.now
             && AuthenticatedAfter(Run(Step(s, StoreRotation, c), ops, c), p, |s.revisions| + 1, t, x)
    ensures x.created > t
  {
    var s := Run(Initial(start), before, c);
    var v, stored := |s.revisions| + 1, Step(s, StoreRotation, c);
    Reachable(start, before, c);
    StepKeeps(s, StoreRotation, c);
    RunInv(stored, ops, c);
    RevisionsKept(stored, ops, c);
    assert Run(stored, ops, c).revisions[v - 1] == stored.revisions[v - 1] == Revision(Some(t), s.now);
    assert RequestOk(Run(stored, ops, c), p);
    YoungerThanRotation(Run(stored, ops, c), p, v, t, x);
  }

  lemma {:induction false} RunInv(s: State, ops: seq<Op>, c: Config)
    requires Inv(s)
    ensures Inv(Run(s, ops, c))
  {
    if ops != [] {
      RunInv(s, ops[..|ops| - 1], c);
      StepKeeps(Run(s, ops[..|ops| - 1], c), ops[|ops| - 1], c);
    }
  }

  /**
   A rotation with not-before time t bars every session created at or before t from later requests, in every
   continuation, if and only if the clock moved past t before the rotation was stored.
   */
  lemma {:induction false} RotationBarsIff(start: int, before: seq<Op>, c: Config, t: int)
    requires c.sessionTTL > 0 && Run(Initial(start), before, c).rotating == Some(t)
    ensures var s := Run(Initial(start), before, c);
            RotationBars(Step(s, StoreRotation, c), |s.revisions| + 1, t, c) <==> t < s.now
  {
    var s := Run(Initial(start), before, c);
    var v, stored := |s.revisions| + 1, Step(s, StoreRotation, c);
    if t < s.now {
      forall ops, p, x | AuthenticatedAfter(Run(stored, ops, c), p, v, t, x)
        ensures x.created > t
      {
        LateRotationBars(start, before, c, t, ops, p, x);
      }
    } else {
      Reachable(start, before, c);
      var p := FreshNumber(stored.requests.Keys);
      var d := FreshNumber(stored.issues.Keys + stored.revoked.Keys + stored.tombstones.Keys);
      NextSessionAuthenticates(stored, p, d, c);
      assert AuthenticatedAfter(Run(stored, NextSessionOps(p, d), c), p, v, t, NewSession(stored, d, c));
    }
  }

  lemma {:induction false} RevokedAndWaited(s: State, wait: nat, c: Config)
    requires 0 !in s.revoked
    ensures Run(s, [Tombstone(0), Tick(wait)], c)
            == s.(now := s.now + wait, tombstones := s.tombstones[0 := s.now + c.tombstoneTTL],
                  revoked := s.revoked[0 := s.now])
  {
    var revoke := [Tombstone(0), Tick(wait)];
    assert revoke[..1][..0] == [] && revoke[..1] == [Tombstone(0)] && revoke[..2] == revoke;
    assert Run(s, revoke[..1], c) == Step(s, Tombstone(0), c);
  }

  /** A tombstone shorter than the session lets the token back in when it expires. */
  lemma {:induction false} ShortTombstoneFails(start: int, c: Config)
    requires c.sessionTTL > 0 && c.tombstoneTTL < c.sessionTTL
    ensures exists ops :: AuthenticatedRevoked(Run(Initial(start), ops, c), 0)
  {
    var wait := if c.tombstoneTTL > 0 then c.tombstoneTTL else 0;
    var rotate, revoke, request := [StartRotation, StoreRotation], [Tombstone(0), Tick(wait)], RequestOps(0, 0);
    ServedAfterTombstone(start, wait, c);
    RunFour(Initial(start), rotate, IssueOps(0), revoke, request, c);
    assert AuthenticatedRevoked(Run(Initial(start), rotate + IssueOps(0) + revoke + request, c), 0);
  }

  lemma {:induction false} RunFour(s: State, first: seq<Op>, second: seq<Op>, third: seq<Op>, fourth: seq<Op>,
                                   c: Config)
    ensures Run(s, first + second + third + fourth, c) ==
            Run(Run(Run(Run(s, first, c), second, c), third, c), fourth, c)
  {
    RunAppend(s, first, second, c);
    RunAppend(s, first + second, third, c);
    RunAppend(s, first + second + third, fourth, c);
  }

  /** Issued, revoked, and served once the tombstone is gone. */
  lemma {:induction false} ServedAfterTombstone(start: int, wait: nat, c: Config)
    requires c.tombstoneTTL <= wait < c.sessionTTL
    ensures AuthenticatedRevoked(Run(Run(RotatedAndIssued(start, c), [Tombstone(0), Tick(wait)], c), RequestOps(0, 0),
                                     c), 0)
  {
    var issued := RotatedAndIssued(start, c);
    RotatedAndIssuedIs(start, c);
    RevokedAndWaited(issued, wait, c);
    RequestCompletes(Run(issued, [Tombstone(0), Tick(wait)], c), 0, 0, c);
  }

  /** Revocation is final exactly when a tombstone lives at least as long as a session. */
  lemma {:induction false} RevocationIsFinalIff(c: Config)
    requires c.sessionTTL > 0
    ensures (forall start, ops, p :: !AuthenticatedRevoked(Run(Initial(start), ops, c), p)) <==>
            c.tombstoneTTL >= c.sessionTTL
  {
    if c.tombstoneTTL >= c.sessionTTL {
      forall start, ops, p
        ensures !AuthenticatedRevoked(Run(Initial(start), ops, c), p)
      {
        RevocationIsFinal(start, ops, c, p);
      }
    } else {
      ShortTombstoneFails(0, c);
    }
  }
}
