/** What each transaction achieves, and that nothing stays stuck: a lapsed lease can be taken
    back, a due message can be claimed, a sweep leaves nothing to sweep, and doubt can be
    resolved, with the one exception of `QueueDeadEnd`. */
module QueueProgress {
  import opened Options
  import opened Delivery
  import opened SmtpClient
  import opened Queue
  import opened QueueInvariant
  import opened QueueSteps
  import opened QueueDelivery
  import opened QueueRuns
  import opened QueueRows
  import opened QueueSafety
  import opened QueueDeadEnd

  // ---- Leases ----

  lemma LapsedLease(m: Mail, now: Time)
    requires LeaseOk(m) && m.lease.Some? && m.lease.value.until <= now
    ensures CanRecover(m, now)
  {
  }

  /** In every state of every run a lapsed lease can be taken back. */
  lemma LapsedLeaseIsRecoverable(ms: seq<Mail>, ss: seq<Step>, n: nat, now: Time)
    requires Run(ms, ss) && n < |ms| && ms[n].lease.Some? && ms[n].lease.value.until <= now
    ensures CanRecover(ms[n], now)
  {
    RunInv(ms, ss, n);
    LapsedLease(ms[n], now);
  }

  /** Where a row that was being sent ends up. */
  function AfterRecovery(m: Mail, x: Recipient, now: Time): Status
    requires |m.attempts| > 0
  {
    if m.attempts[|m.attempts| - 1].armedAt.Some? then Unknown
    else if Elapsed(m.expiresAt, now) then Expired
    else if Exhausted(x, now) then TempFailed
    else Queued
  }

  lemma RecoveredStatus(m: Mail, now: Time, r: Rid)
    requires CanRecover(m, now) && r in m.recipients
    ensures var y := RecoverMail(m, now).recipients[r];
      && (m.recipients[r].status == Sending ==> y.status == AfterRecovery(m, m.recipients[r], now))
      && (m.recipients[r].status !in {Sending, Queued, TempFailed} ==> y == m.recipients[r])
  {
    var e := ReclaimedMail(m, now);
    assert e.recipients[r] == RecoverRow(m.attempts[|m.attempts| - 1].armedAt.Some?, m.recipients[r], now);
    assert RecoverMail(m, now).recipients[r] == ExpireRow(e, now, r, e.recipients[r]);
  }

  /** Recovery releases the message and settles every row that was being sent: in doubt if
      DATA was armed, otherwise expired, handed over or requeued. */
  lemma RecoverySettles(m: Mail, now: Time)
    requires CanRecover(m, now)
    ensures var n := RecoverMail(m, now);
      && n.lease.None? && n.recipients.Keys == m.recipients.Keys && !CanRecover(n, now)
      && (forall r | r in m.recipients && m.recipients[r].status == Sending :: n.recipients[r].status == AfterRecovery(m, m.recipients[r], now))
      && (forall r | r in m.recipients && m.recipients[r].status !in {Sending, Queued, TempFailed} :: n.recipients[r] == m.recipients[r])
  {
    forall r | r in m.recipients
      ensures var y := RecoverMail(m, now).recipients[r];
        && (m.recipients[r].status == Sending ==> y.status == AfterRecovery(m, m.recipients[r], now))
        && (m.recipients[r].status !in {Sending, Queued, TempFailed} ==> y == m.recipients[r])
    {
      RecoveredStatus(m, now, r);
    }
  }

  lemma OnlyOpenRowsAreSending(m: Mail, r: Rid)
    requires Sound(m) && m.lease.Some? && r in m.recipients
    ensures InLast(m, r) <==> m.recipients[r].status == Sending || (InLast(m, r) && m.recipients[r].status == Suppressed)
  {
    Unseal(m);
    assert RowOk(m, r);
  }

  /** In every state of every run, recovery settles every recipient of the abandoned attempt,
      by whether DATA was armed, the deadline and the budget, and leaves nobody being sent;
      one taken out by suppression stays out. */
  lemma RecoveryReleasesEverybody(ms: seq<Mail>, ss: seq<Step>, n: nat, now: Time, r: Rid)
    requires Run(ms, ss) && n < |ms| && CanRecover(ms[n], now) && r in ms[n].recipients
    ensures r in RecoverMail(ms[n], now).recipients
    ensures var was, y := ms[n].recipients[r].status, RecoverMail(ms[n], now).recipients[r].status;
      && y != Sending
      && (InLast(ms[n], r) ==> y == if was == Suppressed then Suppressed else AfterRecovery(ms[n], ms[n].recipients[r], now))
  {
    var m := ms[n];
    RunKeeps(ms, ss, n);
    OnlyOpenRowsAreSending(m, r);
    RecoverySettles(m, now);
  }

  // ---- Claims ----

  lemma {:induction false} BatchExists(eligible: set<Rid>, limit: nat) returns (chosen: set<Rid>)
    requires eligible != {} && limit > 0
    ensures IsBatch(eligible, limit, chosen) && chosen != {}
    decreases limit
  {
    var r := Least(eligible);
    var rest := eligible - {r};
    if limit == 1 || rest == {} {
      chosen := {r};
      assert eligible == rest + {r};
    } else {
      var more := BatchExists(rest, limit - 1);
      chosen := more + {r};
      assert eligible - chosen == rest - more;
    }
  }

  /** Exactly the chosen rows are being sent, each counted once more, and the new attempt
      names exactly them. */
  ghost predicate TookBatch(m: Mail, n: Mail, chosen: set<Rid>) {
    && n.recipients.Keys == m.recipients.Keys && |n.attempts| == |m.attempts| + 1
    && (forall r | r in m.recipients :: n.recipients[r].status == Sending <==> r in chosen)
    && (forall r | r in m.recipients :: n.recipients[r].attempts == m.recipients[r].attempts + (if r in chosen then 1 else 0))
    && n.attempts[..|m.attempts|] == m.attempts && n.attempts[|m.attempts|].lines.Keys == chosen
  }

  lemma QuietClaim(m: Mail, p: Pid, token: Token, chosen: set<Rid>, until: Time, now: Time)
    requires chosen <= m.recipients.Keys && forall r | r in m.recipients :: m.recipients[r].status != Sending
    ensures TookBatch(m, ClaimMail(m, p, token, chosen, until, now), chosen)
  {
  }

  lemma SoundQuiet(m: Mail)
    requires Sound(m) && m.status == One(Queued)
    ensures forall r | r in m.recipients :: m.recipients[r].status != Sending
  {
    Unseal(m);
    QueuedMeansQuiet(m);
  }

  /** A claim takes its batch and nothing else, in every state of every run. */
  lemma ClaimTakesTheBatch(ms: seq<Mail>, ss: seq<Step>, n: nat, cfg: Policy, p: Pid, token: Token, limit: nat, chosen: set<Rid>, active: set<Address>, until: Time, now: Time)
    requires Run(ms, ss) && n < |ms| && CanClaim(cfg, ms[n], p, limit, chosen, active, now)
    ensures TookBatch(ms[n], ClaimMail(ms[n], p, token, chosen, until, now), chosen)
  {
    RunKeeps(ms, ss, n);
    SoundQuiet(ms[n]);
    QuietClaim(ms[n], p, token, chosen, until, now);
  }

  // ---- Maintenance ----

  /** With retries on, scheduling leaves nothing due; a due row is requeued within its budget
      and handed over beyond it. */
  lemma ScheduleLeavesNothingDue(cfg: Policy, m: Mail, now: Time)
    requires cfg.retry
    ensures var n := ScheduleMail(cfg, m, now); var e := ApplyExpiry(m, now);
      && (forall r | r in n.recipients :: !Due(n.recipients[r], now))
      && (forall r | r in m.recipients && Due(e.recipients[r], now) ::
            if Exhausted(e.recipients[r], now) then n.recipients[r].status == TempFailed && n.recipients[r].retryAt.None?
            else n.recipients[r].status == Queued && n.recipients[r].automatic)
      && (forall r | r in m.recipients && !Due(e.recipients[r], now) :: n.recipients[r] == e.recipients[r])
  {
  }

  /** Expiry ends exactly the rows that still wait, remembers that one may have been
      delivered, and is done in one pass. */
  lemma SweepExpiredSettles(m: Mail, now: Time)
    requires CanSweepExpired(m, now)
    ensures var n := SweepExpiredMail(m, now);
      && !CanSweepExpired(n, now)
      && (forall r | r in m.recipients && !Pending(m.recipients[r]) :: n.recipients[r] == m.recipients[r])
      && (forall r | r in m.recipients && Pending(m.recipients[r]) ::
            && n.recipients[r].status == Expired && n.recipients[r].retryAt.None?
            && (n.recipients[r].mayHave <==> m.recipients[r].mayHave || EverUnknown(m.attempts, r)))
  {
  }

  /** Suppression takes out exactly the waiting rows of active entries, in one pass. */
  lemma SweepSuppressedSettles(m: Mail, active: set<Address>, now: Time)
    requires CanSweepSuppressed(m, active)
    ensures var n := SweepSuppressedMail(m, active, now);
      && !CanSweepSuppressed(n, active)
      && (forall r | r in m.recipients :: (n.recipients[r].status == Suppressed && n.recipients[r].retryAt.None?) || n.recipients[r] == m.recipients[r])
      && (forall r | r in m.recipients :: n.recipients[r] != m.recipients[r] ==> Pending(m.recipients[r]) && m.recipients[r].address in active)
  {
  }

  /** A row that scheduling requeues was TEMP_FAILED with its deadline due and budget left,
      and no earlier attempt of it may have been delivered unless an operator released it. */
  lemma ScheduleRequeuesOnlyFailures(ms: seq<Mail>, ss: seq<Step>, n: nat, r: Rid)
    requires Run(ms, ss) && n < |ss| && ss[n].Schedule? && r in ms[n].recipients && r in ms[n + 1].recipients
    requires ms[n + 1].recipients[r].status == Queued && ms[n + 1].recipients[r] != ms[n].recipients[r]
    ensures var x := ms[n].recipients[r];
      && x.status == TempFailed && Elapsed(x.retryAt, ss[n].now) && x.attempts < MAX_ATTEMPTS
      && ss[n].cfg.retry && !Elapsed(ms[n].expiresAt, ss[n].now) && Clear(ms[n], r)
  {
    StepIs(ms, ss, n + 1);
    assert RowOk(ms[n], r) by { RunInv(ms, ss, n); }
    RequeuedRow(ss[n].cfg, ms[n], ss[n].now, r);
  }

  lemma RequeuedRow(cfg: Policy, m: Mail, now: Time, r: Rid)
    requires r in m.recipients && (m.recipients[r].retryAt.Some? ==> m.recipients[r].status == TempFailed)
    requires var y := ScheduleMail(cfg, m, now).recipients[r]; y.status == Queued && y != m.recipients[r]
    ensures var x := m.recipients[r];
      && x.status == TempFailed && Elapsed(x.retryAt, now) && x.attempts < MAX_ATTEMPTS && cfg.retry && !Elapsed(m.expiresAt, now)
  {
    var e := ApplyExpiry(m, now);
    assert e.recipients[r] == ExpireRow(m, now, r, m.recipients[r]);
    assert ScheduleMail(cfg, m, now).recipients[r] == ScheduleRow(cfg, e.recipients[r], now);
  }

  /** Nothing waits past the deadline and nothing active waits. */
  ghost predicate Swept(m: Mail, active: set<Address>, now: Time) {
    NoneLate(m, now) && forall r | r in m.recipients :: !Hit(m.recipients[r], active, false)
  }

  ghost predicate RetryMeansFailed(m: Mail) {
    forall r | r in m.recipients :: m.recipients[r].retryAt.Some? ==> m.recipients[r].status == TempFailed
  }

  ghost predicate NoneLate(m: Mail, now: Time) {
    Elapsed(m.expiresAt, now) ==> forall r | r in m.recipients :: !Pending(m.recipients[r])
  }

  lemma WaitingShows(rs: map<Rid, Recipient>, r: Rid)
    requires r in rs && Pending(rs[r]) && !Any(rs, Sending)
    ensures Refresh(rs) in {One(Queued), One(TempFailed), Partial, One(Unknown)}
  {
    assert Any(rs, rs[r].status);
  }

  lemma ExpiryReaches(m: Mail, now: Time)
    requires m.lease.None? && !Any(m.recipients, Sending) && (!m.cancelled ==> m.status == Refresh(m.recipients))
    requires m.cancelled ==> forall r | r in m.recipients :: !Pending(m.recipients[r])
    ensures var n := Next(m, SweepExpired(now)); NoneLate(n, now) && n.lease.None?
  {
    if CanSweepExpired(m, now) {
      SweepExpiredSettles(m, now);
    } else if !NoneLate(m, now) {
      var r :| r in m.recipients && Pending(m.recipients[r]);
      WaitingShows(m.recipients, r);
    }
  }

  lemma SuppressionReaches(m: Mail, active: set<Address>, now: Time)
    requires m.lease.None? && NoneLate(m, now)
    ensures var n := Next(m, SweepSuppressed(active, now)); Swept(n, active, now) && n.lease.None?
  {
    if CanSweepSuppressed(m, active) { SweepSuppressedSettles(m, active, now); }
  }

  lemma ScheduledIsNotHit(cfg: Policy, x: Recipient, active: set<Address>, now: Time)
    requires !Hit(x, active, false) && (x.retryAt.Some? ==> x.status == TempFailed)
    ensures !Hit(ScheduleRow(cfg, x, now), active, false)
  {
  }

  lemma ScheduleKeepsSwept(cfg: Policy, m: Mail, active: set<Address>, now: Time)
    requires cfg.retry && Swept(m, active, now) && RetryMeansFailed(m)
    ensures var n := Next(m, Schedule(cfg, now)); Swept(n, active, now) && !CanSchedule(n, now)
  {
    if CanSchedule(m, now) {
      var due :| due in m.recipients && Due(m.recipients[due], now);
      assert Pending(m.recipients[due]) && !Elapsed(m.expiresAt, now);
      var n := ScheduleMail(cfg, m, now);
      assert forall r | r in n.recipients :: !Due(n.recipients[r], now) by { ScheduleLeavesNothingDue(cfg, m, now); }
      assert ApplyExpiry(m, now).recipients == m.recipients;
      forall r | r in n.recipients ensures !Hit(n.recipients[r], active, false) {
        ScheduledIsNotHit(cfg, m.recipients[r], active, now);
      }
    }
  }

  lemma SoundRows(m: Mail)
    requires Sound(m)
    ensures RetryMeansFailed(m) && (m.lease.None? ==> !Any(m.recipients, Sending))
    ensures m.lease.None? && !m.cancelled ==> m.status == Refresh(m.recipients)
    ensures m.cancelled ==> forall r | r in m.recipients :: !Pending(m.recipients[r])
  {
    Unseal(m);
    forall r | r in m.recipients
      ensures m.recipients[r].retryAt.Some? ==> m.recipients[r].status == TempFailed
      ensures m.cancelled ==> !Pending(m.recipients[r])
      ensures m.lease.None? ==> m.recipients[r].status != Sending
    {
      assert RowOk(m, r);
    }
  }

  /** One pass of maintenance (expiry, suppression, schedule) leaves none of the three
      anything to do at that instant, in every state of every run. */
  lemma MaintenanceSettles(ms: seq<Mail>, ss: seq<Step>, i: nat, cfg: Policy, active: set<Address>, now: Time)
    requires Run(ms, ss) && i < |ms| && ms[i].clock <= now && cfg.retry
    ensures var n := Next(Next(Next(ms[i], SweepExpired(now)), SweepSuppressed(active, now)), Schedule(cfg, now));
      !CanSweepExpired(n, now) && !CanSweepSuppressed(n, active) && !CanSchedule(n, now)
  {
    RunKeeps(ms, ss, i);
    var m := ms[i];
    if m.lease.None? {
      SoundRows(m);
      ExpiryReaches(m, now);
      var e := Next(m, SweepExpired(now));
      SuppressionReaches(e, active, now);
      NextKeeps(m, SweepExpired(now));
      NextKeeps(e, SweepSuppressed(active, now));
      var f := Next(e, SweepSuppressed(active, now));
      SoundRows(f);
      ScheduleKeepsSwept(cfg, f, active, now);
    }
  }

  // ---- Operators ----

  /** What a retry takes beyond what any verdict takes: the operator accepts the risk of a
      duplicate, the deadline has not passed, the archive is there, and nobody suppressed the
      address meanwhile. */
  predicate RetryAllowed(m: Mail, x: Recipient, acknowledged: bool, active: set<Address>, now: Time) {
    acknowledged && (m.expiresAt.Some? ==> now < m.expiresAt.value) && m.available && x.address !in active
  }

  lemma UnknownIsResolvable(m: Mail, r: Rid, v: Verdict, acknowledged: bool, active: set<Address>, now: Time)
    requires RowsOk(m) && r in m.recipients && m.recipients[r].status == Unknown
    ensures (exists expected: nat :: CanResolve(m, r, expected, v, acknowledged, active, now)) <==>
      !DeadEnd(m, r) && (v == RetryIt ==> RetryAllowed(m, m.recipients[r], acknowledged, active, now))
  {
    assert RowOk(m, r);
    LastBeforeIsLast(m.attempts, |m.attempts|, r);
    var last := |m.attempts| - 1;
    assert LastBefore(m.attempts, |m.attempts|, r) == Some(last);
    if !DeadEnd(m, r) && (v == RetryIt ==> RetryAllowed(m, m.recipients[r], acknowledged, active, now)) {
      assert CanResolve(m, r, last, v, acknowledged, active, now);
    }
  }

  /** In every state of every run an operator can settle a recipient in doubt, as delivered or
      as failed, unless the attempt that left it in doubt recorded another status for it:
      exactly the stranded ones; and can have it retried exactly when that is allowed too. */
  lemma ResolvableUnlessStranded(ms: seq<Mail>, ss: seq<Step>, n: nat, r: Rid, v: Verdict, acknowledged: bool, active: set<Address>, now: Time)
    requires Run(ms, ss) && n < |ms| && r in ms[n].recipients && ms[n].recipients[r].status == Unknown
    ensures (exists expected: nat :: CanResolve(ms[n], r, expected, v, acknowledged, active, now)) <==>
      !DeadEnd(ms[n], r) && (v == RetryIt ==> RetryAllowed(ms[n], ms[n].recipients[r], acknowledged, active, now))
  {
    RunInv(ms, ss, n);
    UnknownIsResolvable(ms[n], r, v, acknowledged, active, now);
  }

  /** A verdict settles that recipient and no other; only a retry releases the pair. */
  lemma VerdictSettles(m: Mail, r: Rid, expected: nat, v: Verdict, acknowledged: bool, active: set<Address>, now: Time)
    requires CanResolve(m, r, expected, v, acknowledged, active, now)
    ensures var n := ResolveMail(m, r, expected, v, now);
      && n.recipients[r] == m.recipients[r].(
           status := (match v case RetryIt => Queued case MarkDelivered => Delivered case MarkFailed => PermFailed),
           retryAt := None, automatic := false, mayHave := false,
           manual := m.recipients[r].manual + (if v == RetryIt then 1 else 0))
      && n.route == (if v == RetryIt then Some(m.attempts[expected].provider) else m.route)
      && (forall s | s in m.recipients && s != r :: n.recipients[s] == m.recipients[s])
      && n.attempts == m.attempts
      && ((r, expected) in n.retries <==> v == RetryIt || (r, expected) in m.retries)
      && (v == RetryIt ==> acknowledged)
      && forall k, a :: !CanResolve(n, r, k, v, a, active, now)
  {
  }

  /** The pair of recipient and attempt is behind: a newer attempt exists, or none is open
      and the recipient is not in doubt. */
  ghost predicate Behind(m: Mail, r: Rid, k: nat) {
    && k < |m.attempts| && r in m.recipients
    && (|m.attempts| == k + 1 ==> m.lease.None? && m.attempts[k].ending != InProgress && m.recipients[r].status != Unknown)
  }

  lemma BehindStays(m: Mail, s: Step, r: Rid, k: nat)
    requires Behind(m, r, k) && |m.attempts| <= |Next(m, s).attempts|
    ensures Behind(Next(m, s), r, k)
  {
    match s {
      case Arm(j, token, active, now, seen) => if Next(m, s) != m { ArmChanges(m, j, token, active, now, seen); }
      case _ =>
    }
  }

  lemma ResolvedIsBehind(m: Mail, r: Rid, k: nat, v: Verdict, acknowledged: bool, active: set<Address>, now: Time)
    requires Sound(m) && CanResolve(m, r, k, v, acknowledged, active, now)
    ensures k == |m.attempts| - 1 && Behind(ResolveMail(m, r, k, v, now), r, k)
  {
    Unseal(m);
    ResolveKeepsRoute(m, r, k, v, acknowledged, active, now);
    VerdictSettles(m, r, k, v, acknowledged, active, now);
  }

  lemma {:induction false} BehindLater(ms: seq<Mail>, ss: seq<Step>, n: nat, o: nat, r: Rid, k: nat)
    requires Run(ms, ss) && n <= o < |ms| && Behind(ms[n], r, k)
    ensures Behind(ms[o], r, k)
    decreases o
  {
    if n < o {
      BehindLater(ms, ss, n, o - 1, r, k);
      StepIs(ms, ss, o);
      StepLater(ms, ss, o);
      BehindStays(ms[o - 1], ss[o - 1], r, k);
    }
  }

  /** An operator settles a doubt once: after a verdict on a recipient and an attempt, no
      later state of the run admits another on the same pair. */
  lemma ResolvedOnce(ms: seq<Mail>, ss: seq<Step>, n: nat, o: nat, v: Verdict, acknowledged: bool, active: set<Address>, now: Time)
    requires Run(ms, ss) && n < o < |ms| && ss[n].Resolve?
    requires var s := ss[n]; CanResolve(ms[n], s.r, s.expected, s.verdict, s.acknowledged, s.active, s.now)
    ensures !CanResolve(ms[o], ss[n].r, ss[n].expected, v, acknowledged, active, now)
  {
    var s := ss[n];
    RunKeeps(ms, ss, n);
    ResolvedIsBehind(ms[n], s.r, s.expected, s.verdict, s.acknowledged, s.active, s.now);
    StepIs(ms, ss, n + 1);
    BehindLater(ms, ss, n + 1, o, s.r, s.expected);
    if CanResolve(ms[o], s.r, s.expected, v, acknowledged, active, now) {
      RunKeeps(ms, ss, o);
      ResolvedIsBehind(ms[o], s.r, s.expected, v, acknowledged, active, now);
    }
  }

  /** Cancelling ends every waiting row and keeps every fact already established. */
  lemma CancelSettles(m: Mail, now: Time)
    requires CanCancel(m)
    ensures var n := CancelMail(m, now);
      && n.status == One(Cancelled) && !CanCancel(n) && n.attempts == m.attempts
      && (forall r | r in m.recipients :: if Pending(m.recipients[r]) then n.recipients[r].status == Cancelled else n.recipients[r] == m.recipients[r])
  {
  }

  /** A withdrawal is final for every recipient: in every later state of the run a waiting one
      is CANCELLED and any other keeps the fact that ended it, which was no delivery. */
  lemma WithdrawalIsFinal(ms: seq<Mail>, ss: seq<Step>, n: nat, o: nat, r: Rid)
    requires Run(ms, ss) && n < o < |ms| && ss[n].Withdraw? && CanCancel(ms[n]) && r in ms[n].recipients
    ensures r in ms[o].recipients
    ensures ms[o].recipients[r].status == if Pending(ms[n].recipients[r]) then Cancelled else ms[n].recipients[r].status
    ensures ms[o].recipients[r].status in {Cancelled, PermFailed, Suppressed, Expired}
  {
    StepIs(ms, ss, n + 1);
    CancelSettles(ms[n], ss[n].now);
    CancelledStays(ms, ss, n + 1, o);
  }
}
