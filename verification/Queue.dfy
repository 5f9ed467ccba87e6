/** The durable rows of one queued message and the transactions that change them.

    Every transaction of the delivery queue locks one message row first, so a message,
    its recipients, its attempts and the per-attempt recipient lines form one value and
    a transaction is a function on it.  Batches over several messages are in `Repository`. */
module Queue {
  import opened Options
  import opened Delivery
  import opened SmtpClient
  import Fairness

  type Pid = nat
  type Token = nat
  type Address = nat

  datatype Policy = Policy(retry: bool, failover: bool, health: bool)

  /** A recipient row.  `mayHave` is the may_have_delivered flag of its stored decision;
      `manual` counts the acknowledged operator retries in the event ledger. */
  datatype Recipient = Recipient(
    address: Address,
    status: Status,
    attempts: nat,
    retryStarted: Option<Time>,
    retryAt: Option<Time>,
    automatic: bool,
    mayHave: bool,
    manual: nat)

  /** A recipient's line within one attempt. */
  datatype Line = Line(status: Status, stage: Stage, code: int, decision: Option<Decision>)

  datatype Ending = InProgress | ByWorker(result: Summary) | ByRecovery(result: Summary)

  /** A delivery attempt.  `granted` and `body` describe the worker, not the row: the
      permission to transmit was returned to it; it put the body on the wire. */
  datatype Attempt = Attempt(
    token: Token,
    provider: Pid,
    startedAt: Time,
    ending: Ending,
    finishedAt: Option<Time>,
    armedAt: Option<Time>,
    suppressed: bool,
    expired: bool,
    dataStarted: bool,
    finalResponse: bool,
    code: int,
    lines: map<Rid, Line>,
    granted: bool,
    body: bool)

  datatype Lease = Lease(token: Token, until: Time)

  /** A production message with everything that hangs off its row.  Attempt number n is
      `attempts[n - 1]`; `retries` holds the (recipient, attempt) pairs an operator released;
      `clock` is the time of the latest transaction. */
  datatype Mail = Mail(
    status: Summary,
    lease: Option<Lease>,
    route: Option<Pid>,
    scheduleAt: Option<Time>,
    expiresAt: Option<Time>,
    available: bool,
    cancelled: bool,
    recipients: map<Rid, Recipient>,
    attempts: seq<Attempt>,
    retries: set<(Rid, nat)>,
    clock: Time)

  // ---- Projection ----

  predicate Any(rs: map<Rid, Recipient>, s: Status) { exists r :: r in rs && rs[r].status == s }

  predicate All(rs: map<Rid, Recipient>, s: Status) { rs.Keys != {} && forall r :: r in rs ==> rs[r].status == s }

  predicate AllTaken(rs: map<Rid, Recipient>) {
    rs.Keys != {} && forall r :: r in rs ==> rs[r].status in {Accepted, Delivered}
  }

  /** The status of the message as a function of all its recipients. */
  function Refresh(rs: map<Rid, Recipient>): Summary {
    if Any(rs, Unknown) then One(Unknown)
    else if Any(rs, Sending) then One(Sending)
    else if Any(rs, Queued) then One(Queued)
    else if All(rs, Expired) then One(Expired)
    else if All(rs, Suppressed) then One(Suppressed)
    else if All(rs, Delivered) then One(Delivered)
    else if AllTaken(rs) then One(Accepted)
    else if Any(rs, Accepted) || Any(rs, Delivered) then Partial
    else if Any(rs, TempFailed) then One(TempFailed)
    else One(PermFailed)
  }

  function Refreshed(m: Mail): Mail { m.(status := Refresh(m.recipients)) }

  // ---- Deadlines and suppression ----

  predicate Elapsed(deadline: Option<Time>, now: Time) { deadline.Some? && deadline.value <= now }

  /** Some attempt of the recipient ended in doubt. */
  predicate EverUnknown(attempts: seq<Attempt>, r: Rid) {
    exists k :: 0 <= k < |attempts| && r in attempts[k].lines && attempts[k].lines[r].status == Unknown
  }

  predicate Pending(x: Recipient) { x.status in {Queued, TempFailed} }

  function ExpireRow(m: Mail, now: Time, r: Rid, x: Recipient): Recipient {
    if Elapsed(m.expiresAt, now) && Pending(x) then
      x.(status := Expired, retryAt := None, automatic := false, mayHave := x.mayHave || EverUnknown(m.attempts, r))
    else x
  }

  function ApplyExpiry(m: Mail, now: Time): Mail {
    m.(recipients := map r | r in m.recipients :: ExpireRow(m, now, r, m.recipients[r]))
  }

  function Suppressing(x: Recipient): Recipient {
    x.(status := Suppressed, retryAt := None, automatic := false, mayHave := false)
  }

  /** Rows hit by an active suppression entry: pending ones, or the sending ones when
      called by the fence that guards DATA. */
  predicate Hit(x: Recipient, active: set<Address>, sending: bool) {
    && x.address in active
    && (if sending then x.status == Sending else Pending(x))
  }

  function ApplySuppression(m: Mail, active: set<Address>, sending: bool): Mail {
    m.(recipients := map r | r in m.recipients ::
         if Hit(m.recipients[r], active, sending) then Suppressing(m.recipients[r]) else m.recipients[r])
  }

  // ---- Enqueue ----

  function NewRecipient(a: Address): Recipient {
    Recipient(a, Queued, 0, None, None, false, false, 0)
  }

  /** The rows as inserted, before the suppression list is applied. */
  function Blank(addresses: map<Rid, Address>, scheduleAt: Option<Time>, expiresAt: Option<Time>, now: Time): Mail {
    Mail(One(Queued), None, None, scheduleAt, expiresAt, true, false,
         map r | r in addresses :: NewRecipient(addresses[r]), [], {}, now)
  }

  function Enqueued(addresses: map<Rid, Address>, active: set<Address>, scheduleAt: Option<Time>, expiresAt: Option<Time>, now: Time): Mail
  {
    var m := ApplySuppression(Blank(addresses, scheduleAt, expiresAt, now), active, false);
    if forall r :: r in m.recipients ==> m.recipients[r].status == Suppressed then m.(status := One(Suppressed)) else m
  }

  // ---- Claim ----

  predicate InWindow(started: Option<Time>, now: Time) { started.Some? && started.value > now - WINDOW }

  predicate Claimable(cfg: Policy, x: Recipient, active: set<Address>, now: Time) {
    && x.status == Queued
    && (!x.automatic || (cfg.retry && x.attempts < MAX_ATTEMPTS && InWindow(x.retryStarted, now)))
    && x.address !in active
  }

  function Visited(attempts: seq<Attempt>): set<Pid> {
    set k | 0 <= k < |attempts| :: attempts[k].provider
  }

  /** The last attempt before the n-th that carried the recipient. */
  function LastBefore(attempts: seq<Attempt>, n: nat, r: Rid): Option<nat>
    requires n <= |attempts|
  {
    if n == 0 then None
    else if r in attempts[n - 1].lines then Some(n - 1)
    else LastBefore(attempts, n - 1, r)
  }

  predicate Done(x: Recipient) {
    x.status in {Accepted, Delivered, PermFailed, Bounced, Suppressed, Cancelled, Expired}
  }

  predicate MovableDecision(d: Decision) {
    d.version == 2 && d.action == Retry && d.failoverAllowed && !d.mayHaveDelivered
  }

  /** The stored evidence that lets a recipient leave provider p: its latest attempt was
      on p, ended TEMP_FAILED and carries a decision that allows failover. */
  predicate MovableFrom(attempts: seq<Attempt>, n: nat, p: Pid, r: Rid)
    requires n <= |attempts|
  {
    var k := LastBefore(attempts, n, r);
    && k.Some? && k.value < |attempts| && r in attempts[k.value].lines
    && var a := attempts[k.value];
    && a.provider == p
    && a.ending in {ByWorker(One(TempFailed)), ByRecovery(One(TempFailed))}
    && a.lines[r].decision.Some? && MovableDecision(a.lines[r].decision.value)
  }

  predicate SafeFailover(m: Mail, now: Time) {
    && m.route.Some?
    && |Visited(m.attempts)| < 3
    && forall r :: r in m.recipients && !Done(m.recipients[r]) ==>
         var x := m.recipients[r];
         && x.status == Queued && x.automatic && x.attempts < MAX_ATTEMPTS && InWindow(x.retryStarted, now)
         && MovableFrom(m.attempts, |m.attempts|, m.route.value, r)
  }

  predicate RouteAllowed(cfg: Policy, m: Mail, p: Pid, now: Time) {
    || m.route.None?
    || m.route.value == p
    || (cfg.retry && cfg.failover && SafeFailover(m, now) && p !in Visited(m.attempts))
  }

  function Eligible(cfg: Policy, m: Mail, active: set<Address>, now: Time): set<Rid> {
    set r | r in m.recipients && Claimable(cfg, m.recipients[r], active, now)
  }

  /** The first `limit` eligible recipients in identifier order. */
  predicate IsBatch(eligible: set<Rid>, limit: nat, chosen: set<Rid>) {
    && chosen <= eligible
    && |chosen| == (if |eligible| <= limit then |eligible| else limit)
    && forall r, s :: r in chosen && s in eligible - chosen ==> r < s
  }

  predicate CanClaim(cfg: Policy, m: Mail, p: Pid, limit: nat, chosen: set<Rid>, active: set<Address>, now: Time) {
    && m.status == One(Queued) && m.available
    && (m.scheduleAt.None? || m.scheduleAt.value <= now)
    && !Elapsed(m.expiresAt, now)
    && RouteAllowed(cfg, m, p, now)
    && 1 <= limit <= Fairness.FAIR_RECIPIENT_QUANTUM
    && IsBatch(Eligible(cfg, m, active, now), limit, chosen)
    && chosen != {}
  }

  function StartRow(x: Recipient, now: Time): Recipient {
    x.(status := Sending, attempts := x.attempts + 1, retryAt := None,
       retryStarted := if x.retryStarted.None? then Some(now) else x.retryStarted)
  }

  function NewAttempt(p: Pid, token: Token, chosen: set<Rid>, now: Time): Attempt {
    Attempt(token, p, now, InProgress, None, None, false, false, false, false, 0,
            map r | r in chosen :: Line(Sending, NoStage, 0, None), false, false)
  }

  function ClaimMail(m: Mail, p: Pid, token: Token, chosen: set<Rid>, until: Time, now: Time): Mail {
    m.(status := One(Sending), lease := Some(Lease(token, until)), route := Some(p),
       attempts := m.attempts + [NewAttempt(p, token, chosen, now)],
       recipients := map r | r in m.recipients :: if r in chosen then StartRow(m.recipients[r], now) else m.recipients[r],
       clock := now)
  }

  // ---- The DATA fence ----

  datatype ArmAnswer = Armed | LeaseLost | ArmExpired | ArmSuppressed | ArmFailed

  predicate Fenced(m: Mail, token: Token, live: bool, now: Time) {
    && m.status == One(Sending)
    && m.lease.Some? && m.lease.value.token == token
    && (live ==> m.lease.value.until > now)
  }

  /** The row addressed by a worker's (attempt, token) pair while it is still open. */
  predicate Owns(m: Mail, k: nat, token: Token) {
    k < |m.attempts| && m.attempts[k].token == token && m.attempts[k].ending == InProgress
  }

  function ArmMail(m: Mail, k: nat, token: Token, active: set<Address>, now: Time): (Mail, ArmAnswer) {
    if !Fenced(m, token, true, now) then (m, LeaseLost)
    else if !Owns(m, k, token) then (m, ArmFailed)
    else
      var a := m.attempts[k];
      if a.armedAt.Some? then (m, LeaseLost)
      else if a.expired then (m, ArmExpired)
      else if a.suppressed then (m, ArmSuppressed)
      else if exists r :: r in m.recipients && Hit(m.recipients[r], active, true) then
        (ApplySuppression(m, active, true).(attempts := m.attempts[k := a.(suppressed := true)], clock := now), ArmSuppressed)
      else if Elapsed(m.expiresAt, now) then
        (m.(attempts := m.attempts[k := a.(expired := true)], clock := now), ArmExpired)
      else
        (m.(attempts := m.attempts[k := a.(armedAt := Some(now))], clock := now), Armed)
  }

  // ---- Finish ----

  ghost predicate DistinctIds(rows: seq<Row>) {
    forall i, j :: 0 <= i < j < |rows| ==> rows[i].id != rows[j].id
  }

  ghost function ById(rows: seq<Row>): (res: map<Rid, Row>)
    requires DistinctIds(rows)
    ensures forall r :: r in res <==> exists i :: 0 <= i < |rows| && rows[i].id == r
    ensures forall i :: 0 <= i < |rows| ==> rows[i].id in res && res[rows[i].id] == rows[i]
  {
    map i | 0 <= i < |rows| :: rows[i].id := rows[i]
  }

  function SuppressedDecision(): Decision { Decision(1, Suppress, 0, false, false, true) }

  predicate Spent(x: Recipient, at: Time) {
    x.attempts >= MAX_ATTEMPTS || x.retryStarted.None? || at >= x.retryStarted.value + WINDOW
  }

  /** What one result row does to its recipient and to its line in the attempt. */
  function FinishRow(cfg: Policy, a: Attempt, out: Result, row: Row, x: Recipient, at: Time, digest: nat): (Recipient, Line) {
    var base := if x.status == Suppressed then x else x.(status := row.status);
    if a.suppressed && x.status == Suppressed then
      (base, Line(row.status, row.stage, row.code, Some(SuppressedDecision())))
    else if a.suppressed && row.stage in {SuppressionBlocked, DatabaseError} then
      (base.(status := if Spent(x, at) then TempFailed else Queued, retryAt := None, mayHave := false),
       Line(row.status, row.stage, row.code, Some(Plain(if Spent(x, at) then Manual else Resume, false, false))))
    else
      var d := Decide(EvidenceOf(out, row), Budget(x.attempts, x.retryStarted, at, digest));
      (base.(status := if d.action == Manual then TempFailed else if d.action == MarkUnknown then Unknown else base.status,
             retryAt := if d.action == Retry && cfg.retry then Some(at + d.retryAfter) else None,
             automatic := false,
             mayHave := d.mayHaveDelivered),
       Line(row.status, row.stage, row.code, Some(d)))
  }

  ghost predicate CanFinish(m: Mail, k: nat, token: Token, ids: seq<Rid>, out: Result, now: Time) {
    && Fenced(m, token, false, now)
    && Owns(m, k, token)
    && var a := m.attempts[k];
    && ((a.suppressed || a.expired) ==> !out.bodyStarted && !out.finalResponse)
    && |out.rows| == |ids|
    && DistinctIds(out.rows)
    && (forall i :: 0 <= i < |out.rows| ==>
          && out.rows[i].id in ids
          && out.rows[i].id in m.recipients
          && out.rows[i].status in {Accepted, TempFailed, PermFailed, Unknown}
          && ((a.suppressed || a.expired) ==> out.rows[i].status !in {Accepted, Unknown}))
  }

  ghost function FinishedAttempt(cfg: Policy, m: Mail, a: Attempt, out: Result, at: Time, digest: Rid -> nat): Attempt
    requires DistinctIds(out.rows)
  {
    var rows := ById(out.rows);
    a.(ending := ByWorker(out.status), finishedAt := Some(at), dataStarted := out.bodyStarted, finalResponse := out.finalResponse, code := out.code,
       lines := map r | r in a.lines ::
         if r in rows && r in m.recipients then FinishRow(cfg, a, out, rows[r], m.recipients[r], at, digest(r)).1 else a.lines[r])
  }

  /** The rows after every result was recorded, before the deadline is applied. */
  ghost function RecordedMail(cfg: Policy, m: Mail, k: nat, out: Result, at: Time, digest: Rid -> nat, now: Time): Mail
    requires k < |m.attempts| && DistinctIds(out.rows)
  {
    var rows := ById(out.rows);
    var a := m.attempts[k];
    m.(lease := None, clock := now,
       attempts := m.attempts[k := FinishedAttempt(cfg, m, a, out, at, digest)],
       recipients := map r | r in m.recipients ::
         if r in rows then FinishRow(cfg, a, out, rows[r], m.recipients[r], at, digest(r)).0 else m.recipients[r])
  }

  ghost function FinishMail(cfg: Policy, m: Mail, k: nat, out: Result, at: Time, digest: Rid -> nat, now: Time): Mail
    requires k < |m.attempts| && DistinctIds(out.rows)
  {
    Refreshed(ApplyExpiry(RecordedMail(cfg, m, k, out, at, digest, now), now))
  }

  // ---- Recovery of an expired lease ----

  predicate CanRecover(m: Mail, now: Time) {
    && m.status == One(Sending)
    && m.lease.Some? && m.lease.value.until <= now
    && |m.attempts| > 0 && m.attempts[|m.attempts| - 1].ending == InProgress
  }

  function RecoveredAttempt(a: Attempt, now: Time): Attempt {
    var s := if a.armedAt.Some? then Unknown else TempFailed;
    a.(ending := ByRecovery(One(s)), finishedAt := Some(now), lines := map r | r in a.lines :: a.lines[r].(status := s))
  }

  /** Budget exhaustion found by recovery, applied to every queued row of the message. */
  predicate RecoverySpent(x: Recipient, now: Time) {
    x.status == Queued && (x.attempts >= MAX_ATTEMPTS || Elapsed(x.retryStarted, now - WINDOW))
  }

  function RecoverRow(armed: bool, x: Recipient, now: Time): Recipient {
    var y := if x.status == Sending then x.(status := if armed then Unknown else Queued) else x;
    if !armed && RecoverySpent(y, now) then y.(status := TempFailed, retryAt := None, automatic := false, mayHave := false) else y
  }

  /** The rows after the lease was taken back, before the deadline is applied. */
  function ReclaimedMail(m: Mail, now: Time): Mail
    requires CanRecover(m, now)
  {
    var k := |m.attempts| - 1;
    var armed := m.attempts[k].armedAt.Some?;
    m.(lease := None, clock := now,
       attempts := m.attempts[k := RecoveredAttempt(m.attempts[k], now)],
       recipients := map r | r in m.recipients :: RecoverRow(armed, m.recipients[r], now))
  }

  function RecoverMail(m: Mail, now: Time): Mail
    requires CanRecover(m, now)
  {
    Refreshed(ApplyExpiry(ReclaimedMail(m, now), now))
  }

  // ---- Schedule ----

  predicate Exhausted(x: Recipient, now: Time) {
    x.attempts >= MAX_ATTEMPTS || Elapsed(x.retryStarted, now - WINDOW)
  }

  /** Rows whose deadline is due, and automatic rows that ran out of budget. The first
      test does not look at the status. */
  predicate Due(x: Recipient, now: Time) {
    Elapsed(x.retryAt, now) || (x.automatic && x.status == Queued && Exhausted(x, now))
  }

  predicate CanSchedule(m: Mail, now: Time) {
    && m.lease.None? && m.available
    && m.status in {One(Queued), One(TempFailed), Partial}
    && exists r :: r in m.recipients && Due(m.recipients[r], now)
  }

  function ScheduleRow(cfg: Policy, x: Recipient, now: Time): Recipient {
    if !Due(x, now) then x
    else if Exhausted(x, now) then x.(status := TempFailed, retryAt := None, automatic := false, mayHave := false)
    else if cfg.retry then x.(status := Queued, retryAt := None, automatic := true)
    else x
  }

  function ScheduleMail(cfg: Policy, m: Mail, now: Time): Mail {
    var e := ApplyExpiry(m, now);
    Refreshed(e.(recipients := map r | r in e.recipients :: ScheduleRow(cfg, e.recipients[r], now), clock := now))
  }

  // ---- Sweeps ----

  predicate CanSweepExpired(m: Mail, now: Time) {
    && m.lease.None?
    && m.status in {One(Queued), One(TempFailed), Partial, One(Unknown)}
    && Elapsed(m.expiresAt, now)
    && exists r :: r in m.recipients && Pending(m.recipients[r])
  }

  function SweepExpiredMail(m: Mail, now: Time): Mail {
    Refreshed(ApplyExpiry(m, now)).(clock := now)
  }

  predicate CanSweepSuppressed(m: Mail, active: set<Address>) {
    m.lease.None? && exists r :: r in m.recipients && Hit(m.recipients[r], active, false)
  }

  function SweepSuppressedMail(m: Mail, active: set<Address>, now: Time): Mail {
    Refreshed(ApplySuppression(m, active, false)).(clock := now)
  }

  // ---- Manual resolution ----

  datatype Verdict = RetryIt | MarkDelivered | MarkFailed

  predicate CanResolve(m: Mail, r: Rid, expected: nat, v: Verdict, acknowledged: bool, active: set<Address>, now: Time) {
    && r in m.recipients
    && m.lease.None?
    && LastBefore(m.attempts, |m.attempts|, r) == Some(expected)
    && expected < |m.attempts| && r in m.attempts[expected].lines
    && m.recipients[r].status == Unknown
    && m.attempts[expected].lines[r].status == Unknown
    && (v == RetryIt ==>
          && acknowledged
          && !Elapsed(m.expiresAt, now)
          && m.available
          && m.recipients[r].address !in active)
  }

  function ResolveMail(m: Mail, r: Rid, expected: nat, v: Verdict, now: Time): Mail
    requires r in m.recipients && expected < |m.attempts|
  {
    var x := m.recipients[r];
    var y := x.(retryAt := None, automatic := false, mayHave := false,
                status := match v case RetryIt => Queued case MarkDelivered => Delivered case MarkFailed => PermFailed,
                manual := if v == RetryIt then x.manual + 1 else x.manual);
    Refreshed(m.(recipients := m.recipients[r := y], clock := now,
                 route := if v == RetryIt then Some(m.attempts[expected].provider) else m.route,
                 retries := if v == RetryIt then m.retries + {(r, expected)} else m.retries))
  }

  // ---- Cancellation ----

  predicate DeliveryEvidence(a: Attempt) {
    || a.ending == InProgress || a.armedAt.Some? || a.dataStarted || a.finalResponse
    || exists r :: r in a.lines && a.lines[r].status in {Accepted, Unknown}
  }

  predicate CanCancel(m: Mail) {
    && !m.cancelled
    && m.lease.None?
    && m.status in {One(Queued), One(TempFailed)}
    && (forall k :: 0 <= k < |m.attempts| ==> !DeliveryEvidence(m.attempts[k]))
    && (forall r :: r in m.recipients ==> m.recipients[r].status in {Queued, TempFailed, PermFailed, Suppressed, Expired})
  }

  function CancelRow(x: Recipient): Recipient {
    if Pending(x) then x.(status := Cancelled, retryAt := None, automatic := false, mayHave := false) else x
  }

  function CancelMail(m: Mail, now: Time): Mail {
    m.(status := One(Cancelled), cancelled := true, clock := now,
       recipients := map r | r in m.recipients :: CancelRow(m.recipients[r]))
  }
}
