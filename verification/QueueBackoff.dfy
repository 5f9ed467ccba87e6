/** The pace of automatic retries, over whole runs.  A retry that was decided is dated from the
    end of its attempt, requeued no earlier, and claimed inside the 24 hours that began with
    the recipient's first attempt; so consecutive attempts keep the distance the policy
    computed. */
module QueueBackoff {
  import opened Options
  import opened Delivery
  import opened SmtpClient
  import opened Queue
  import opened QueueInvariant
  import opened QueueSteps
  import opened QueueDelivery
  import opened QueueFinish
  import opened QueueRuns
  import opened QueueSafety

  /** When the recipient was first attempted. */
  ghost function FirstStart(attempts: seq<Attempt>, r: Rid): Option<Time> {
    if attempts == [] then None
    else
      var earlier := FirstStart(attempts[..|attempts| - 1], r);
      if earlier.Some? then earlier
      else if r in attempts[|attempts| - 1].lines then Some(attempts[|attempts| - 1].startedAt)
      else None
  }

  /** Attempt k ended with the decision to try the recipient again. */
  ghost predicate Retried(attempts: seq<Attempt>, k: nat, r: Rid) {
    && k < |attempts| && r in attempts[k].lines
    && var d := attempts[k].lines[r].decision;
    && d.Some? && d.value.action == Retry
  }

  /** The instant that decision named. */
  ghost function RetryTime(a: Attempt, r: Rid): Time
    requires r in a.lines && a.lines[r].decision.Some?
  {
    (if a.finishedAt.Some? then a.finishedAt.value else 0) + a.lines[r].decision.value.retryAfter
  }

  /** The delay fits the attempt's number and the window. */
  ghost predicate WellPaced(attempts: seq<Attempt>, k: nat, r: Rid) {
    Retried(attempts, k, r) ==>
      && attempts[k].finishedAt.Some? && attempts[k].lines[r].status == TempFailed
      && Paced(Count(attempts[..k + 1], r), attempts[k].lines[r].decision.value.retryAfter)
      && FirstStart(attempts, r).Some? && RetryTime(attempts[k], r) < FirstStart(attempts, r).value + WINDOW
  }

  /** Attempt j came after the instant named by the decision that led to it. */
  ghost predicate Obeyed(attempts: seq<Attempt>, j: nat, r: Rid) {
    j < |attempts| && r in attempts[j].lines ==>
      var i := LastBefore(attempts, j, r);
      i.Some? && Retried(attempts, i.value, r) ==>
        && RetryTime(attempts[i.value], r) <= attempts[j].startedAt
        && FirstStart(attempts, r).Some? && attempts[j].startedAt < FirstStart(attempts, r).value + WINDOW
  }

  ghost predicate PastPaced(attempts: seq<Attempt>, r: Rid) {
    forall k: nat | k < |attempts| :: WellPaced(attempts, k, r) && Obeyed(attempts, k, r)
  }

  /** What the row still owes to its latest decision. */
  ghost predicate Waits(m: Mail, r: Rid)
    requires r in m.recipients
  {
    var x, k := m.recipients[r], LastBefore(m.attempts, |m.attempts|, r);
    && x.retryStarted == FirstStart(m.attempts, r)
    && (x.retryAt.Some? ==> k.Some? && Retried(m.attempts, k.value, r) && x.retryAt.value == RetryTime(m.attempts[k.value], r))
    && (x.status == Queued && k.Some? && Retried(m.attempts, k.value, r) ==> x.automatic && RetryTime(m.attempts[k.value], r) <= m.clock)
  }

  ghost predicate RowPaced(m: Mail, r: Rid) { r in m.recipients ==> PastPaced(m.attempts, r) && Waits(m, r) }

  // ---- Steps that leave the recipient's attempts alone ----

  /** Everything about the recipient's attempts that matters here is the same. */
  ghost predicate SameVisits(a: seq<Attempt>, b: seq<Attempt>, r: Rid) {
    && |a| == |b|
    && forall k | 0 <= k < |a| :: SameVisit(a[k], b[k], r)
  }

  ghost predicate SameVisit(a: Attempt, b: Attempt, r: Rid) {
    && (r in a.lines <==> r in b.lines)
    && (r in a.lines ==>
          && b.startedAt == a.startedAt && b.lines[r].decision == a.lines[r].decision
          && (a.lines[r].decision.Some? ==> b.lines[r].status == a.lines[r].status && b.finishedAt == a.finishedAt))
  }

  lemma {:induction false} SameLast(a: seq<Attempt>, b: seq<Attempt>, n: nat, r: Rid)
    requires SameVisits(a, b, r) && n <= |a|
    ensures LastBefore(a, n, r) == LastBefore(b, n, r)
  {
    if n > 0 {
      assert SameVisit(a[n - 1], b[n - 1], r);
      SameLast(a, b, n - 1, r);
    }
  }

  lemma SameInit(a: seq<Attempt>, b: seq<Attempt>, n: nat, r: Rid)
    requires SameVisits(a, b, r) && n <= |a|
    ensures SameVisits(a[..n], b[..n], r)
  {
    forall k | 0 <= k < n ensures SameVisit(a[..n][k], b[..n][k], r) { assert SameVisit(a[k], b[k], r); }
  }

  lemma {:induction false} SameFirst(a: seq<Attempt>, b: seq<Attempt>, r: Rid)
    requires SameVisits(a, b, r)
    ensures FirstStart(a, r) == FirstStart(b, r) && Count(a, r) == Count(b, r)
    decreases |a|
  {
    if a != [] {
      SameInit(a, b, |a| - 1, r);
      SameFirst(a[..|a| - 1], b[..|b| - 1], r);
      assert SameVisit(a[|a| - 1], b[|b| - 1], r);
    }
  }

  lemma SamePast(a: seq<Attempt>, b: seq<Attempt>, r: Rid)
    requires SameVisits(a, b, r) && PastPaced(a, r)
    ensures PastPaced(b, r)
  {
    forall k: nat | k < |b| ensures WellPaced(b, k, r) && Obeyed(b, k, r) {
      assert WellPaced(a, k, r) && Obeyed(a, k, r) && SameVisit(a[k], b[k], r);
      SameFirst(a, b, r);
      SameInit(a, b, k + 1, r);
      SameFirst(a[..k + 1], b[..k + 1], r);
      SameLast(a, b, k, r);
      LastBeforeIsLast(a, k, r);
      var i := LastBefore(a, k, r);
      if i.Some? { assert SameVisit(a[i.value], b[i.value], r); }
    }
  }

  /** How a row may change while its attempts do not: it settles, or a due retry is requeued.
      `retried` says that its latest attempt ended with the decision to retry. */
  ghost predicate Moves(x: Recipient, y: Recipient, clock: Time, retried: bool) {
    && y.retryStarted == x.retryStarted
    && (y.retryAt.Some? ==> y.retryAt == x.retryAt)
    && (y.status == Queued && retried ==>
          || (x.status == Queued && y.automatic == x.automatic)
          || (y.automatic && Elapsed(x.retryAt, clock)))
  }

  ghost predicate LastRetried(m: Mail, r: Rid) {
    var k := LastBefore(m.attempts, |m.attempts|, r);
    k.Some? && Retried(m.attempts, k.value, r)
  }

  lemma QuietRow(m: Mail, n: Mail, r: Rid)
    requires r in m.recipients && r in n.recipients && RowPaced(m, r) && SameVisits(m.attempts, n.attempts, r)
    requires m.clock <= n.clock && Moves(m.recipients[r], n.recipients[r], n.clock, LastRetried(m, r))
    ensures RowPaced(n, r)
  {
    SamePast(m.attempts, n.attempts, r);
    SameFirst(m.attempts, n.attempts, r);
    SameLast(m.attempts, n.attempts, |m.attempts|, r);
    LastBeforeIsLast(m.attempts, |m.attempts|, r);
    var k := LastBefore(m.attempts, |m.attempts|, r);
    if k.Some? { assert SameVisit(m.attempts[k.value], n.attempts[k.value], r); }
  }

  lemma NoChange(m: Mail, r: Rid)
    ensures SameVisits(m.attempts, m.attempts, r)
  {
    forall k | 0 <= k < |m.attempts| ensures SameVisit(m.attempts[k], m.attempts[k], r) { }
  }

  /** An attempt that is open has decided nothing yet. */
  lemma OpenDecidesNothing(m: Mail, r: Rid)
    requires AttemptsOk(m) && LeaseOk(m) && m.lease.Some? && InLast(m, r)
    ensures LastBefore(m.attempts, |m.attempts|, r) == Some(|m.attempts| - 1) && !LastRetried(m, r)
    ensures m.attempts[|m.attempts| - 1].lines[r].decision.None?
  {
    assert AttemptOk(m, m.attempts[|m.attempts| - 1]);
  }

  // ---- Step by step ----

  lemma ArmPaced(m: Mail, k: nat, token: Token, active: set<Address>, now: Time, seen: bool, r: Rid)
    requires r in m.recipients && RowPaced(m, r) && m.clock <= now
    ensures r in ArmStep(m, k, token, active, now, seen).recipients && RowPaced(ArmStep(m, k, token, active, now, seen), r)
  {
    var n := ArmStep(m, k, token, active, now, seen);
    if n != m {
      ArmChanges(m, k, token, active, now, seen);
      forall i | 0 <= i < |m.attempts| ensures SameVisit(m.attempts[i], n.attempts[i], r) { }
      assert FenceRow(m.recipients[r], n.recipients[r], n.attempts[k]);
      QuietRow(m, n, r);
    }
  }

  lemma WirePaced(m: Mail, k: nat, r: Rid)
    requires r in m.recipients && RowPaced(m, r) && k < |m.attempts|
    ensures RowPaced(TransmitMail(m, k), r)
  {
    var n := TransmitMail(m, k);
    forall i | 0 <= i < |m.attempts| ensures SameVisit(m.attempts[i], n.attempts[i], r) { }
    QuietRow(m, n, r);
  }

  lemma SchedulePaced(cfg: Policy, m: Mail, now: Time, r: Rid)
    requires r in m.recipients && RowPaced(m, r) && m.clock <= now && (m.recipients[r].retryAt.Some? ==> m.recipients[r].status == TempFailed)
    ensures RowPaced(ScheduleMail(cfg, m, now), r)
  {
    var e, n := ApplyExpiry(m, now), ScheduleMail(cfg, m, now);
    assert e.recipients[r] == ExpireRow(m, now, r, m.recipients[r]);
    assert n.recipients[r] == ScheduleRow(cfg, e.recipients[r], now);
    NoChange(m, r);
    QuietRow(m, n, r);
  }

  lemma SweepPaced(m: Mail, active: set<Address>, now: Time, r: Rid)
    requires r in m.recipients && RowPaced(m, r) && m.clock <= now
    ensures RowPaced(SweepExpiredMail(m, now), r) && RowPaced(SweepSuppressedMail(m, active, now), r) && RowPaced(CancelMail(m, now), r)
  {
    NoChange(m, r);
    QuietRow(m, SweepExpiredMail(m, now), r);
    QuietRow(m, SweepSuppressedMail(m, active, now), r);
    QuietRow(m, CancelMail(m, now), r);
  }

  lemma ResolvePaced(m: Mail, s: Rid, expected: nat, v: Verdict, acknowledged: bool, active: set<Address>, now: Time, r: Rid)
    requires r in m.recipients && RowPaced(m, r) && m.clock <= now && CanResolve(m, s, expected, v, acknowledged, active, now)
    ensures RowPaced(ResolveMail(m, s, expected, v, now), r)
  {
    NoChange(m, r);
    assert WellPaced(m.attempts, expected, r);
    QuietRow(m, ResolveMail(m, s, expected, v, now), r);
  }

  lemma RecoverVisits(m: Mail, now: Time, r: Rid)
    requires CanRecover(m, now) && AttemptOk(m, m.attempts[|m.attempts| - 1])
    ensures SameVisits(m.attempts, RecoverMail(m, now).attempts, r)
  {
    var n := RecoverMail(m, now);
    forall i | 0 <= i < |m.attempts| ensures SameVisit(m.attempts[i], n.attempts[i], r) { }
  }

  lemma RecoverMoves(m: Mail, now: Time, r: Rid, retried: bool)
    requires CanRecover(m, now) && r in m.recipients && (m.recipients[r].status == Sending ==> !retried)
    ensures Moves(m.recipients[r], RecoverMail(m, now).recipients[r], now, retried)
  {
    var e := ReclaimedMail(m, now);
    assert e.recipients[r] == RecoverRow(m.attempts[|m.attempts| - 1].armedAt.Some?, m.recipients[r], now);
    assert RecoverMail(m, now).recipients[r] == ExpireRow(e, now, r, e.recipients[r]);
  }

  lemma RecoverPaced(m: Mail, now: Time, r: Rid)
    requires AttemptsOk(m) && LeaseOk(m) && CanRecover(m, now) && m.clock <= now && r in m.recipients && RowOk(m, r) && RowPaced(m, r)
    ensures RowPaced(RecoverMail(m, now), r)
  {
    RecoverVisits(m, now, r);
    if InLast(m, r) { OpenDecidesNothing(m, r); }
    RecoverMoves(m, now, r, LastRetried(m, r));
    QuietRow(m, RecoverMail(m, now), r);
  }

  // ---- Claims ----

  lemma FirstAppend(a: seq<Attempt>, x: Attempt, r: Rid)
    ensures FirstStart(a + [x], r) == if FirstStart(a, r).Some? then FirstStart(a, r) else if r in x.lines then Some(x.startedAt) else None
  {
    assert (a + [x])[..|a|] == a;
  }

  lemma PastAppend(a: seq<Attempt>, x: Attempt, r: Rid)
    requires PastPaced(a, r) && (r in x.lines ==> x.lines[r].decision.None?)
    requires r in x.lines && LastBefore(a, |a|, r).Some? && Retried(a, LastBefore(a, |a|, r).value, r) ==>
      && RetryTime(a[LastBefore(a, |a|, r).value], r) <= x.startedAt
      && FirstStart(a, r).Some? && x.startedAt < FirstStart(a, r).value + WINDOW
    ensures PastPaced(a + [x], r)
  {
    var b := a + [x];
    FirstAppend(a, x, r);
    forall k: nat | k < |b| ensures WellPaced(b, k, r) && Obeyed(b, k, r) {
      LastBeforePrefix(a, b, k, r);
      LastBeforeIsLast(a, k, r);
      if k < |a| {
        assert WellPaced(a, k, r) && Obeyed(a, k, r);
        assert b[..k + 1] == a[..k + 1];
      }
    }
  }

  lemma ClaimPaced(cfg: Policy, m: Mail, p: Pid, token: Token, limit: nat, chosen: set<Rid>, active: set<Address>, until: Time, now: Time, r: Rid)
    requires CanClaim(cfg, m, p, limit, chosen, active, now) && m.clock <= now && r in m.recipients && RowOk(m, r) && RowPaced(m, r)
    ensures RowPaced(ClaimMail(m, p, token, chosen, until, now), r)
  {
    var n, x := ClaimMail(m, p, token, chosen, until, now), NewAttempt(p, token, chosen, now);
    if r in chosen { assert r in Eligible(cfg, m, active, now); }
    PastAppend(m.attempts, x, r);
    FirstAppend(m.attempts, x, r);
    LastBeforePrefix(m.attempts, n.attempts, |m.attempts|, r);
    LastBeforeIsLast(m.attempts, |m.attempts|, r);
  }

  // ---- Outcomes ----

  lemma LastCount(a: seq<Attempt>, r: Rid)
    requires a != []
    ensures Count(a[..|a| - 1 + 1], r) == Count(a, r)
  {
    assert a[..|a| - 1 + 1] == a;
  }

  /** Replacing the open attempt by its finished version. */
  lemma PastFinish(a: seq<Attempt>, y: Attempt, r: Rid)
    requires a != [] && PastPaced(a, r)
    requires var x := a[|a| - 1]; (r in x.lines <==> r in y.lines) && y.startedAt == x.startedAt
    requires WellPaced(a[|a| - 1 := y], |a| - 1, r)
    ensures PastPaced(a[|a| - 1 := y], r) && FirstStart(a[|a| - 1 := y], r) == FirstStart(a, r)
  {
    var last := |a| - 1;
    var b := a[last := y];
    assert b[..last] == a[..last];
    forall k: nat | k < |b| ensures WellPaced(b, k, r) && Obeyed(b, k, r) {
      LastBeforePrefix(a, b, k, r);
      LastBeforeIsLast(a, k, r);
      assert WellPaced(a, k, r) && Obeyed(a, k, r);
      if k < last { assert b[..k + 1] == a[..k + 1]; }
    }
  }

  lemma FinishFirst(a: seq<Attempt>, y: Attempt, r: Rid)
    requires a != []
    requires var x := a[|a| - 1]; (r in x.lines <==> r in y.lines) && y.startedAt == x.startedAt
    ensures FirstStart(a[|a| - 1 := y], r) == FirstStart(a, r) && Count(a[|a| - 1 := y], r) == Count(a, r)
  {
    assert a[|a| - 1 := y][..|a| - 1] == a[..|a| - 1];
  }

  /** The finished line and its row, before the deadline is applied. */
  lemma RecordedFollows(cfg: Policy, m: Mail, k: nat, token: Token, ids: seq<Rid>, out: Result, at: Time, digest: Rid -> nat, now: Time, r: Rid)
    returns (row: Row)
    requires CanFinish(m, k, token, ids, out, now) && Reports(m, k, token, ids, out) && r in m.attempts[k].lines && Sendable(m, k, r)
    ensures row in out.rows && row.id == r
    ensures var n := RecordedMail(cfg, m, k, out, at, digest, now);
      r in n.attempts[k].lines && RowFollows(cfg, m.attempts[k], out, row, m.recipients[r], n.recipients[r], n.attempts[k].lines[r], at, digest(r))
  {
    ReportedRows(m, k, token, ids, out);
    var i :| 0 <= i < |ids| && ids[i] == r && ById(out.rows)[r] == out.rows[i];
    row := out.rows[i];
    RowFollowsDecision(cfg, m.attempts[k], ids, out, i, m.recipients[r], at, digest(r));
  }

  lemma RecordPaced(cfg: Policy, m: Mail, n: Mail, k: nat, out: Result, row: Row, at: Time, digest: nat, r: Rid)
    requires k == |m.attempts| - 1 && r in m.recipients && r in n.recipients && r in m.attempts[k].lines && RowOk(m, r) && RowPaced(m, r)
    requires |n.attempts| == |m.attempts| && n.attempts == m.attempts[k := n.attempts[k]] && n.attempts[k].startedAt == m.attempts[k].startedAt && n.attempts[k].finishedAt == Some(at)
    requires r in n.attempts[k].lines && RowFollows(cfg, m.attempts[k], out, row, m.recipients[r], n.recipients[r], n.attempts[k].lines[r], at, digest)
    ensures RowPaced(n, r)
  {
    FinishFirst(m.attempts, n.attempts[k], r);
    LastCount(n.attempts, r);
    assert WellPaced(n.attempts, k, r);
    PastFinish(m.attempts, n.attempts[k], r);
    assert LastBefore(n.attempts, |n.attempts|, r) == Some(k);
  }

  lemma ExpiryPaced(n: Mail, now: Time, r: Rid)
    requires r in n.recipients && RowPaced(n, r)
    ensures RowPaced(Refreshed(ApplyExpiry(n, now)), r)
  {
    NoChange(n, r);
    QuietRow(n, Refreshed(ApplyExpiry(n, now)), r);
  }

  lemma ReportedPaced(cfg: Policy, m: Mail, k: nat, token: Token, ids: seq<Rid>, out: Result, at: Time, digest: Rid -> nat, now: Time, r: Rid)
    requires CanFinish(m, k, token, ids, out, now) && Reports(m, k, token, ids, out) && k == |m.attempts| - 1
    requires r in m.attempts[k].lines && Sendable(m, k, r) && RowOk(m, r) && RowPaced(m, r)
    ensures RowPaced(RecordedMail(cfg, m, k, out, at, digest, now), r)
  {
    var row := RecordedFollows(cfg, m, k, token, ids, out, at, digest, now, r);
    RecordPaced(cfg, m, RecordedMail(cfg, m, k, out, at, digest, now), k, out, row, at, digest(r), r);
  }

  lemma BystanderPaced(cfg: Policy, m: Mail, k: nat, out: Result, at: Time, digest: Rid -> nat, now: Time, r: Rid)
    requires k < |m.attempts| && DistinctIds(out.rows) && m.clock <= now && r in m.recipients
    requires r !in m.attempts[k].lines && r !in ById(out.rows) && RowPaced(m, r)
    ensures RowPaced(RecordedMail(cfg, m, k, out, at, digest, now), r)
  {
    var n := RecordedMail(cfg, m, k, out, at, digest, now);
    forall i | 0 <= i < |m.attempts| ensures SameVisit(m.attempts[i], n.attempts[i], r) { }
    QuietRow(m, n, r);
  }

  lemma FinishPaced(cfg: Policy, m: Mail, k: nat, token: Token, ids: seq<Rid>, out: Result, at: Time, digest: Rid -> nat, now: Time, r: Rid)
    requires Sound(m) && CanFinish(m, k, token, ids, out, now) && Reports(m, k, token, ids, out) && m.clock <= now && r in m.recipients && RowPaced(m, r)
    ensures RowPaced(FinishMail(cfg, m, k, out, at, digest, now), r)
  {
    assert k == |m.attempts| - 1 && RowOk(m, r) && (r in m.attempts[k].lines ==> Sendable(m, k, r)) by {
      Unseal(m);
      OpenRowsSendable(m, k, token);
    }
    ReportedRows(m, k, token, ids, out);
    if r in m.attempts[k].lines {
      ReportedPaced(cfg, m, k, token, ids, out, at, digest, now, r);
    } else {
      BystanderPaced(cfg, m, k, out, at, digest, now, r);
    }
    ExpiryPaced(RecordedMail(cfg, m, k, out, at, digest, now), now, r);
  }

  // ---- Runs ----

  lemma NextPaced(m: Mail, s: Step, r: Rid)
    requires Sound(m) && Legal(m, s) && r in m.recipients && RowPaced(m, r)
    ensures r in Next(m, s).recipients && RowPaced(Next(m, s), r)
  {
    assert RowOk(m, r) && AttemptsOk(m) && LeaseOk(m) by { Unseal(m); }
    match s {
      case Claim(cfg, p, token, limit, chosen, active, until, now) =>
        if CanClaim(cfg, m, p, limit, chosen, active, now) { ClaimPaced(cfg, m, p, token, limit, chosen, active, until, now, r); }
      case Arm(k, token, active, now, seen) => ArmPaced(m, k, token, active, now, seen, r);
      case Wire(k) => if CanTransmit(m, k) { WirePaced(m, k, r); }
      case Finish(cfg, k, token, ids, out, at, digest, now) =>
        if CanFinish(m, k, token, ids, out, now) { FinishPaced(cfg, m, k, token, ids, out, at, digest, now, r); }
      case Recover(now) => if CanRecover(m, now) { RecoverPaced(m, now, r); }
      case Schedule(cfg, now) => if CanSchedule(m, now) { SchedulePaced(cfg, m, now, r); }
      case SweepExpired(now) => SweepPaced(m, {}, now, r);
      case SweepSuppressed(active, now) => SweepPaced(m, active, now, r);
      case Resolve(t, expected, v, acknowledged, active, now) =>
        if CanResolve(m, t, expected, v, acknowledged, active, now) { ResolvePaced(m, t, expected, v, acknowledged, active, now, r); }
      case Withdraw(now) => SweepPaced(m, {}, now, r);
    }
  }

  lemma {:induction false} RunPaced(ms: seq<Mail>, ss: seq<Step>, n: nat, r: Rid)
    requires Run(ms, ss) && n < |ms|
    ensures RowPaced(ms[n], r)
  {
    if n > 0 {
      RunPaced(ms, ss, n - 1, r);
      RunKeeps(ms, ss, n - 1);
      assert StepTo(ms, ss, n);
      SameRecipients(ms[n - 1], ss[n - 1]);
      if r in ms[n].recipients { NextPaced(ms[n - 1], ss[n - 1], r); }
    }
  }

  lemma SameRecipients(m: Mail, s: Step)
    ensures Next(m, s).recipients.Keys == m.recipients.Keys
  {
    match s {
      case Arm(k, token, active, now, seen) => if Next(m, s) != m { ArmChanges(m, k, token, active, now, seen); }
      case _ =>
    }
  }

  /** In every state of every run, when attempt i of a recipient ended with the decision to
      retry and attempt j is its next one: j starts no earlier than the decided delay after
      the end of i, which is 0.8 to 1.2 times 1, 4, 16, 64, 256 or 720 minutes by the number
      of attempts so far, and within 24 hours of the recipient's first attempt. */
  lemma BackoffIsObeyed(ms: seq<Mail>, ss: seq<Step>, n: nat, i: nat, j: nat, r: Rid)
    requires Run(ms, ss) && n < |ms| && j < |ms[n].attempts| && r in ms[n].attempts[j].lines
    requires LastBefore(ms[n].attempts, j, r) == Some(i) && Retried(ms[n].attempts, i, r)
    ensures var t := ms[n].attempts; var d := t[i].lines[r].decision.value;
      && t[i].finishedAt.Some? && t[j].startedAt >= t[i].finishedAt.value + d.retryAfter
      && Paced(Count(t[..i + 1], r), d.retryAfter)
      && FirstStart(t, r).Some? && t[j].startedAt < FirstStart(t, r).value + WINDOW
  {
    RunPaced(ms, ss, n, r);
    assert r in ms[n].recipients by {
      RunInv(ms, ss, n);
      assert AttemptOk(ms[n], ms[n].attempts[j]);
      assert r in ms[n].attempts[j].lines.Keys;
    }
    assert WellPaced(ms[n].attempts, i, r) && Obeyed(ms[n].attempts, j, r);
  }

  /** The retry window opens with the recipient's first attempt and never moves. */
  lemma WindowIsFixed(ms: seq<Mail>, ss: seq<Step>, n: nat, r: Rid)
    requires Run(ms, ss) && n < |ms| && r in ms[n].recipients
    ensures ms[n].recipients[r].retryStarted == FirstStart(ms[n].attempts, r)
  {
    RunPaced(ms, ss, n, r);
  }

  /** A row that waits for a retry is dated exactly by its latest attempt, and one that was
      requeued is due. */
  lemma RetryDateIsExact(ms: seq<Mail>, ss: seq<Step>, n: nat, r: Rid)
    requires Run(ms, ss) && n < |ms| && r in ms[n].recipients
    ensures Waits(ms[n], r)
  {
    RunPaced(ms, ss, n, r);
  }

  /** What a recorded outcome leaves behind: the attempt carries the reported result, and for
      each of its recipients the stored decision is obeyed, unless the message's deadline has
      passed and ends a row that would wait. */
  lemma OutcomeIsObeyed(ms: seq<Mail>, ss: seq<Step>, n: nat, r: Rid) returns (row: Row, y: Recipient)
    requires Run(ms, ss) && n < |ss| && ss[n].Finish?
    requires var s := ss[n]; CanFinish(ms[n], s.k, s.token, s.ids, s.out, s.now) && r in ms[n].attempts[s.k].lines
    ensures row in ss[n].out.rows && row.id == r && r in ms[n].recipients && r in ms[n + 1].recipients
    ensures ss[n].k < |ms[n + 1].attempts| && r in ms[n + 1].attempts[ss[n].k].lines
    ensures var a, out := ms[n + 1].attempts[ss[n].k], ss[n].out;
      && a.finishedAt == Some(ss[n].at) && a.ending == ByWorker(out.status) && a.code == out.code
      && a.dataStarted == out.bodyStarted && a.finalResponse == out.finalResponse
    ensures RowFollows(ss[n].cfg, ms[n].attempts[ss[n].k], ss[n].out, row, ms[n].recipients[r], y, ms[n + 1].attempts[ss[n].k].lines[r], ss[n].at, ss[n].digest(r))
    ensures ms[n + 1].recipients[r] == y ||
      (Elapsed(ms[n].expiresAt, ss[n].now) && Pending(y) && ms[n + 1].recipients[r].status == Expired && ms[n + 1].recipients[r].retryAt.None?)
  {
    var m, s := ms[n], ss[n];
    assert StepTo(ms, ss, n + 1);
    assert Sendable(m, s.k, r) by {
      RunInv(ms, ss, n);
      OpenRowsSendable(m, s.k, s.token);
    }
    row := RecordedFollows(s.cfg, m, s.k, s.token, s.ids, s.out, s.at, s.digest, s.now, r);
    var e := RecordedMail(s.cfg, m, s.k, s.out, s.at, s.digest, s.now);
    y := e.recipients[r];
    assert ms[n + 1].recipients[r] == ExpireRow(e, s.now, r, y);
  }
}
