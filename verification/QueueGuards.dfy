/** When each transaction may happen, in the states a run can reach, said without its guard:
    what a claim takes, what the fence answers, whose outcome counts, whose lease is lost,
    what an operator may settle and what may still be cancelled. */
module QueueGuards {
  import opened Options
  import opened Delivery
  import opened SmtpClient
  import opened Queue
  import opened QueueInvariant
  import opened QueueSteps
  import opened QueueDelivery
  import opened QueueFinish
  import opened QueueRuns
  import opened QueueSafety
  import opened QueueDeadEnd

  // ---- Claims ----

  /** A row a claim may take: it waits, nobody suppressed it, and if its turn is an automatic
      retry then retries are on, it had fewer than seven attempts, and the first was less
      than 24 hours ago. */
  predicate Takable(cfg: Policy, x: Recipient, active: set<Address>, now: Time) {
    && x.status == Queued && x.address !in active
    && (x.automatic ==> cfg.retry && x.attempts < 7 && x.retryStarted.Some? && now - x.retryStarted.value < 24 * HOUR)
  }

  /** A claim takes takable rows only, as many as it may, and none before one it leaves; the
      message is due and not expired. */
  lemma ClaimTakesTheFirst(ms: seq<Mail>, ss: seq<Step>, n: nat)
    requires Run(ms, ss) && n < |ss| && ss[n].Claim? && |ms[n + 1].attempts| > |ms[n].attempts|
    ensures var m, s := ms[n], ss[n];
      && (forall r | r in s.chosen :: r in m.recipients && Takable(s.cfg, m.recipients[r], s.active, s.now))
      && 1 <= |s.chosen| <= s.limit <= 16
      && (forall r | r in m.recipients && Takable(s.cfg, m.recipients[r], s.active, s.now) && r !in s.chosen ::
            |s.chosen| == s.limit && forall q | q in s.chosen :: q < r)
      && (m.scheduleAt.Some? ==> m.scheduleAt.value <= s.now) && (m.expiresAt.Some? ==> s.now < m.expiresAt.value)
      && m.lease.None? && !Has(m.recipients, {Unknown, Sending})
  {
    var m, s := ms[n], ss[n];
    StepIs(ms, ss, n + 1);
    assert CanClaim(s.cfg, m, s.p, s.limit, s.chosen, s.active, s.now);
    ProjectionIsExact(ms, ss, n);
    ProjectionAgrees(ms, ss, n);
    BatchIsFirst(s.cfg, m, s.limit, s.chosen, s.active, s.now);
  }

  lemma BatchIsFirst(cfg: Policy, m: Mail, limit: nat, chosen: set<Rid>, active: set<Address>, now: Time)
    requires IsBatch(Eligible(cfg, m, active, now), limit, chosen) && chosen != {}
    ensures forall r | r in chosen :: r in m.recipients && Takable(cfg, m.recipients[r], active, now)
    ensures 1 <= |chosen| <= limit
    ensures forall r | r in m.recipients && Takable(cfg, m.recipients[r], active, now) && r !in chosen ::
      |chosen| == limit && forall q | q in chosen :: q < r
  {
    var eligible := Eligible(cfg, m, active, now);
    assert |chosen| >= 1 by { var r :| r in chosen; assert {r} <= chosen; SubsetSize({r}, chosen); }
    forall r | r in m.recipients && Takable(cfg, m.recipients[r], active, now) && r !in chosen
      ensures |chosen| == limit && forall q | q in chosen :: q < r
    {
      assert r in eligible - chosen;
      SubsetSize(chosen + {r}, eligible);
    }
  }

  lemma SubsetSize(a: set<Rid>, b: set<Rid>)
    requires a <= b
    ensures |a| <= |b|
  {
    assert b == a + (b - a);
  }

  /** A claim that changes the provider moves everybody who is not finished: all of them wait
      for an automatic retry within budget and window, retries and failover are both on, and
      the new provider has not been tried. */
  lemma SwitchMovesTogether(ms: seq<Mail>, ss: seq<Step>, n: nat, r: Rid)
    requires Run(ms, ss) && n < |ss| && ss[n].Claim? && |ms[n + 1].attempts| > |ms[n].attempts|
    requires ms[n].attempts != [] && ms[n].attempts[|ms[n].attempts| - 1].provider != ss[n].p
    ensures ss[n].cfg.retry && ss[n].cfg.failover
    ensures forall k | 0 <= k < |ms[n].attempts| :: ms[n].attempts[k].provider != ss[n].p
    ensures r in ms[n].recipients && !Done(ms[n].recipients[r]) ==>
      var x := ms[n].recipients[r];
      && x.status == Queued && x.automatic && x.attempts < 7
      && x.retryStarted.Some? && ss[n].now - x.retryStarted.value < 24 * HOUR
  {
    var m, s := ms[n], ss[n];
    StepIs(ms, ss, n + 1);
    assert m.route == Some(m.attempts[|m.attempts| - 1].provider) by { RunInv(ms, ss, n); }
    assert SafeFailover(m, s.now);
    forall k | 0 <= k < |m.attempts| ensures m.attempts[k].provider != s.p { assert m.attempts[k].provider in Visited(m.attempts); }
  }

  ghost predicate Timely(m: Mail) {
    m.expiresAt.Some? ==> forall k | 0 <= k < |m.attempts| :: m.attempts[k].startedAt < m.expiresAt.value
  }

  lemma TimelyStep(m: Mail, s: Step)
    requires Sound(m) && Timely(m)
    ensures Timely(Next(m, s))
  {
    var n := Next(m, s);
    SoundLater(m, s);
    NextTerms(m, s);
    NewOnlyByClaim(m, s);
    forall k | 0 <= k < |n.attempts| && n.expiresAt.Some? ensures n.attempts[k].startedAt < n.expiresAt.value {
      if k < |m.attempts| { assert Later(m.attempts[k], n.attempts[k]); }
    }
  }

  lemma NewOnlyByClaim(m: Mail, s: Step)
    ensures |Next(m, s).attempts| == |m.attempts| ||
      (s.Claim? && CanClaim(s.cfg, m, s.p, s.limit, s.chosen, s.active, s.now) && Next(m, s) == ClaimMail(m, s.p, s.token, s.chosen, s.until, s.now))
  {
    match s {
      case Arm(k, token, active, now, seen) => if Next(m, s) != m { ArmChanges(m, k, token, active, now, seen); }
      case _ =>
    }
  }

  /** In every state of every run, every attempt started inside the schedule and before the
      deadline. */
  lemma {:induction false} AttemptsAreTimely(ms: seq<Mail>, ss: seq<Step>, n: nat)
    requires Run(ms, ss) && n < |ms|
    ensures Timely(ms[n])
  {
    if n > 0 {
      AttemptsAreTimely(ms, ss, n - 1);
      RunKeeps(ms, ss, n - 1);
      StepIs(ms, ss, n);
      TimelyStep(ms[n - 1], ss[n - 1]);
    }
  }

  // ---- The fence ----

  /** What the fence answers the worker of attempt k, in order: the lease must be alive and
      the attempt open; it is armed at most once; a block is final; a suppressed recipient
      blocks before an elapsed deadline does. */
  lemma FenceAnswers(ms: seq<Mail>, ss: seq<Step>, n: nat, k: nat, active: set<Address>, now: Time)
    requires Run(ms, ss) && n < |ms| && k < |ms[n].attempts|
    ensures var m, a := ms[n], ms[n].attempts[k];
      var answer := ArmMail(m, k, a.token, active, now).1;
      var hit := exists r | r in a.lines && r in m.recipients :: m.recipients[r].status == Sending && m.recipients[r].address in active;
      if a.ending != InProgress || m.lease.None? || m.lease.value.until <= now || a.armedAt.Some? then answer == LeaseLost
      else if a.expired then answer == ArmExpired
      else if a.suppressed || hit then answer == ArmSuppressed
      else if m.expiresAt.Some? && m.expiresAt.value <= now then answer == ArmExpired
      else answer == Armed
  {
    var m, a := ms[n], ms[n].attempts[k];
    FenceIsExact(ms, ss, n, k);
    if a.ending == InProgress {
      RunInv(ms, ss, n);
      forall r | r in m.recipients && m.recipients[r].status == Sending ensures r in a.lines { assert RowOk(m, r); }
    }
  }

  // ---- Outcomes and leases ----

  /** The worker of the open attempt can always record its truthful report, also after its
      lease has lapsed, as long as nobody took the message back. */
  lemma OutcomeIsAccepted(ms: seq<Mail>, ss: seq<Step>, n: nat, k: nat, ids: seq<Rid>, out: Result, now: Time)
    requires Run(ms, ss) && n < |ms| && k < |ms[n].attempts| && Reports(ms[n], k, ms[n].attempts[k].token, ids, out)
    ensures CanFinish(ms[n], k, ms[n].attempts[k].token, ids, out, now) <==> ms[n].attempts[k].ending == InProgress
  {
    RunKeeps(ms, ss, n);
    if ms[n].attempts[k].ending == InProgress { ReportFits(ms[n], k, ids, out, now); }
  }

  lemma ReportFits(m: Mail, k: nat, ids: seq<Rid>, out: Result, now: Time)
    requires Sound(m) && k < |m.attempts| && Reports(m, k, m.attempts[k].token, ids, out) && m.attempts[k].ending == InProgress
    ensures CanFinish(m, k, m.attempts[k].token, ids, out, now)
  {
    assert Fenced(m, m.attempts[k].token, false, now) && AttemptOk(m, m.attempts[k]) by { Unseal(m); }
    ReportedRows(m, k, m.attempts[k].token, ids, out);
    forall i | 0 <= i < |out.rows| ensures out.rows[i].id in m.recipients && out.rows[i].id in ids && TruthfulRow(out, out.rows[i]) {
      assert out.rows[i].id == ids[i] && ids[i] in ids;
      assert ids[i] in m.attempts[k].lines.Keys;
    }
  }

  /** A worker loses its message to recovery only after its lease has lapsed. */
  lemma LiveLeaseIsSafe(ms: seq<Mail>, ss: seq<Step>, n: nat, k: nat)
    requires Run(ms, ss) && n < |ss| && k < |ms[n].attempts| && ms[n].attempts[k].ending == InProgress
    requires k < |ms[n + 1].attempts| && ms[n + 1].attempts[k].ending.ByRecovery?
    ensures ss[n].Recover? && ms[n].lease.Some? && ms[n].lease.value.until <= ss[n].now
  {
    StepIs(ms, ss, n + 1);
    OthersDoNotRecover(ms[n], ss[n], k);
  }

  lemma FinishDoesNotRecover(cfg: Policy, m: Mail, j: nat, out: Result, at: Time, digest: Rid -> nat, now: Time, k: nat)
    requires k < |m.attempts| && j < |m.attempts| && DistinctIds(out.rows) && m.attempts[k].ending == InProgress
    ensures !FinishMail(cfg, m, j, out, at, digest, now).attempts[k].ending.ByRecovery?
  {
    assert FinishMail(cfg, m, j, out, at, digest, now).attempts == m.attempts[j := FinishedAttempt(cfg, m, m.attempts[j], out, at, digest)];
  }

  lemma OthersDoNotRecover(m: Mail, s: Step, k: nat)
    requires k < |m.attempts| && m.attempts[k].ending == InProgress && k < |Next(m, s).attempts|
    ensures (s.Recover? && CanRecover(m, s.now)) || !Next(m, s).attempts[k].ending.ByRecovery?
  {
    match s {
      case Arm(j, token, active, now, seen) => if Next(m, s) != m { ArmChanges(m, j, token, active, now, seen); }
      case Finish(cfg, j, token, ids, out, at, digest, now) =>
        if CanFinish(m, j, token, ids, out, now) { FinishDoesNotRecover(cfg, m, j, out, at, digest, now, k); }
      case _ =>
    }
  }

  // ---- Retries ----

  /** No due retry waits in vain: if nobody is being sent and nobody is in doubt, a row whose
      date has come makes its message schedulable. */
  lemma DueRetryIsScheduled(ms: seq<Mail>, ss: seq<Step>, n: nat, r: Rid, now: Time)
    requires Run(ms, ss) && n < |ms| && ms[n].lease.None? && ms[n].available && r in ms[n].recipients
    requires ms[n].recipients[r].retryAt.Some? && ms[n].recipients[r].retryAt.value <= now && !Has(ms[n].recipients, {Unknown})
    ensures CanSchedule(ms[n], now)
  {
    var m := ms[n];
    ProjectionIsExact(ms, ss, n);
    assert m.recipients[r].status == TempFailed && !m.cancelled by { RunInv(ms, ss, n); assert RowOk(m, r); }
    assert Due(m.recipients[r], now);
    if !Has(m.recipients, {Queued}) && !Has(m.recipients, {Accepted, Delivered}) { assert Has(m.recipients, {TempFailed}); }
  }

  // ---- Cancellation ----

  /** A row that was taken, or may have been, was in an armed attempt. */
  ghost predicate Evidenced(m: Mail, r: Rid) {
    r in m.recipients ==>
      && m.recipients[r].status != Bounced
      && (m.recipients[r].status in {Accepted, Delivered, Unknown} ==> WasArmed(m.attempts, r))
  }

  ghost predicate WasArmed(attempts: seq<Attempt>, r: Rid) {
    exists k | 0 <= k < |attempts| :: r in attempts[k].lines && attempts[k].armedAt.Some?
  }

  lemma ArmedLater(m: Mail, n: Mail, r: Rid)
    requires AllLater(m, n) && WasArmed(m.attempts, r)
    ensures WasArmed(n.attempts, r)
  {
    var k :| 0 <= k < |m.attempts| && r in m.attempts[k].lines && m.attempts[k].armedAt.Some?;
    assert Later(m.attempts[k], n.attempts[k]);
    assert r in n.attempts[k].lines.Keys;
  }

  /** Only an outcome or a recovery of an armed attempt makes a row taken or doubtful. */
  ghost predicate Taken(x: Recipient) { x.status in {Accepted, Delivered, Unknown} }

  lemma QuietlyTaken(m: Mail, s: Step, r: Rid)
    requires !s.Finish? && !s.Recover? && r in m.recipients && r in Next(m, s).recipients && m.recipients[r].status != Bounced
    ensures Next(m, s).recipients[r].status != Bounced
    ensures Taken(Next(m, s).recipients[r]) ==> Taken(m.recipients[r])
  {
    match s {
      case Arm(k, token, active, now, seen) => {
        if Next(m, s) != m {
          ArmChanges(m, k, token, active, now, seen);
          assert FenceRow(m.recipients[r], Next(m, s).recipients[r], Next(m, s).attempts[k]);
        }
      }
      case Schedule(cfg, now) => ScheduleTaken(cfg, m, now, r);
      case _ =>
    }
  }

  lemma ScheduleTaken(cfg: Policy, m: Mail, now: Time, r: Rid)
    requires r in m.recipients && m.recipients[r].status != Bounced
    ensures ScheduleMail(cfg, m, now).recipients[r].status != Bounced
    ensures Taken(ScheduleMail(cfg, m, now).recipients[r]) ==> Taken(m.recipients[r])
  {
    var e := ApplyExpiry(m, now);
    assert e.recipients[r] == ExpireRow(m, now, r, m.recipients[r]);
    assert ScheduleMail(cfg, m, now).recipients[r] == ScheduleRow(cfg, e.recipients[r], now);
  }

  lemma RecoverTaken(m: Mail, now: Time, r: Rid)
    requires Sound(m) && CanRecover(m, now) && r in m.recipients && m.recipients[r].status != Bounced
    ensures var y := RecoverMail(m, now).recipients[r];
      && y.status != Bounced
      && (Taken(y) && !Taken(m.recipients[r]) ==> WasArmed(m.attempts, r))
  {
    var e, last := ReclaimedMail(m, now), |m.attempts| - 1;
    assert e.recipients[r] == RecoverRow(m.attempts[last].armedAt.Some?, m.recipients[r], now);
    assert RecoverMail(m, now).recipients[r] == ExpireRow(e, now, r, e.recipients[r]);
    RecoveredRowTaken(e, m.attempts[last].armedAt.Some?, m.recipients[r], now, r);
    if m.recipients[r].status == Sending { SendingIsLast(m, r); }
  }

  lemma RecoveredRowTaken(e: Mail, armed: bool, x: Recipient, now: Time, r: Rid)
    requires x.status != Bounced
    ensures var y := ExpireRow(e, now, r, RecoverRow(armed, x, now));
      y.status != Bounced && (Taken(y) && !Taken(x) ==> armed && x.status == Sending)
  {
  }

  lemma SendingIsLast(m: Mail, r: Rid)
    requires Sound(m) && r in m.recipients && m.recipients[r].status == Sending
    ensures |m.attempts| > 0 && r in m.attempts[|m.attempts| - 1].lines
  {
    Unseal(m);
    assert RowOk(m, r);
  }

  lemma FinishTaken(cfg: Policy, m: Mail, k: nat, token: Token, ids: seq<Rid>, out: Result, at: Time, digest: Rid -> nat, now: Time, r: Rid)
    requires Sound(m) && CanFinish(m, k, token, ids, out, now) && Reports(m, k, token, ids, out)
    requires r in m.recipients && m.recipients[r].status != Bounced
    ensures var y := FinishMail(cfg, m, k, out, at, digest, now).recipients[r];
      && y.status != Bounced
      && (Taken(y) && !Taken(m.recipients[r]) ==> WasArmed(m.attempts, r))
  {
    var e := RecordedMail(cfg, m, k, out, at, digest, now);
    assert FinishMail(cfg, m, k, out, at, digest, now).recipients[r] == ExpireRow(e, now, r, e.recipients[r]);
    RecordedTaken(cfg, m, e, k, token, ids, out, at, digest, now, r);
  }

  lemma RecordedTaken(cfg: Policy, m: Mail, e: Mail, k: nat, token: Token, ids: seq<Rid>, out: Result, at: Time, digest: Rid -> nat, now: Time, r: Rid)
    requires Sound(m) && CanFinish(m, k, token, ids, out, now) && Reports(m, k, token, ids, out) && e == RecordedMail(cfg, m, k, out, at, digest, now)
    requires r in m.recipients && m.recipients[r].status != Bounced
    ensures e.recipients[r].status != Bounced
    ensures Taken(e.recipients[r]) && !Taken(m.recipients[r]) ==> WasArmed(m.attempts, r)
  {
    ReportedRows(m, k, token, ids, out);
    if r in m.attempts[k].lines {
      assert Sendable(m, k, r) && AttemptOk(m, m.attempts[k]) by {
        Unseal(m);
        OpenRowsSendable(m, k, token);
      }
      RecordedOutcome(cfg, m, e, k, token, ids, out, at, digest, now, r);
      OutcomeTaken(m.attempts[k], out, m.recipients[r], e.recipients[r], e.attempts[k].lines[r]);
    } else {
      assert e.recipients[r] == m.recipients[r];
    }
  }

  lemma OutcomeTaken(a: Attempt, out: Result, x: Recipient, y: Recipient, l: Line)
    requires RowOutcome(a, out, x, y, l)
    ensures y.status != Bounced && (Taken(y) ==> out.bodyStarted)
  {
  }

  lemma EvidencedStep(m: Mail, s: Step, r: Rid)
    requires Sound(m) && Legal(m, s) && Evidenced(m, r)
    ensures Evidenced(Next(m, s), r)
  {
    var n := Next(m, s);
    NextTerms(m, s);
    SoundLater(m, s);
    if r in n.recipients {
      match s {
        case Finish(cfg, k, token, ids, out, at, digest, now) =>
          if CanFinish(m, k, token, ids, out, now) { FinishTaken(cfg, m, k, token, ids, out, at, digest, now, r); }
        case Recover(now) => if CanRecover(m, now) { RecoverTaken(m, now, r); }
        case _ => QuietlyTaken(m, s, r);
      }
      if WasArmed(m.attempts, r) { ArmedLater(m, n, r); }
    }
  }

  lemma {:induction false} RunEvidenced(ms: seq<Mail>, ss: seq<Step>, n: nat, r: Rid)
    requires Run(ms, ss) && n < |ms|
    ensures Evidenced(ms[n], r)
  {
    if n > 0 {
      RunEvidenced(ms, ss, n - 1, r);
      RunKeeps(ms, ss, n - 1);
      assert StepTo(ms, ss, n);
      EvidencedStep(ms[n - 1], ss[n - 1], r);
    }
  }

  lemma UnarmedHasNoEvidence(m: Mail, k: nat)
    requires Sound(m) && m.lease.None? && k < |m.attempts| && m.attempts[k].armedAt.None?
    ensures !DeliveryEvidence(m.attempts[k])
  {
    var a := m.attempts[k];
    assert AttemptOk(m, a) && a.ending != InProgress by { Unseal(m); }
    forall r | r in a.lines ensures a.lines[r].status !in {Accepted, Unknown} {
      if a.ending.ByWorker? { assert WorkerLine(a, a.lines[r]); }
    }
  }

  /** In every state of every run a message can be withdrawn if and only if it is waiting,
      nobody is working on it, and no attempt of it was ever armed. */
  lemma CancellableExactlyWhen(ms: seq<Mail>, ss: seq<Step>, n: nat)
    requires Run(ms, ss) && n < |ms|
    ensures CanCancel(ms[n]) <==>
      && ms[n].lease.None? && ms[n].status in {One(Queued), One(TempFailed)}
      && forall k | 0 <= k < |ms[n].attempts| :: ms[n].attempts[k].armedAt.None?
  {
    var m := ms[n];
    RunKeeps(ms, ss, n);
    if m.lease.None? && m.status in {One(Queued), One(TempFailed)} && forall k | 0 <= k < |m.attempts| :: m.attempts[k].armedAt.None? {
      forall k | 0 <= k < |m.attempts| ensures !DeliveryEvidence(m.attempts[k]) { UnarmedHasNoEvidence(m, k); }
      forall r | r in m.recipients ensures m.recipients[r].status in {Queued, TempFailed, PermFailed, Suppressed, Expired} {
        RunEvidenced(ms, ss, n, r);
        assert !m.cancelled && RowOk(m, r) by { Unseal(m); }
      }
      assert !m.cancelled by { Unseal(m); }
    } else if CanCancel(m) {
      forall k | 0 <= k < |m.attempts| ensures m.attempts[k].armedAt.None? { assert !DeliveryEvidence(m.attempts[k]); }
    }
  }
}
