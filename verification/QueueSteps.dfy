/** Each transaction keeps the queue invariant. */
module QueueSteps {
  import opened Options
  import opened Delivery
  import opened SmtpClient
  import opened Queue
  import opened QueueInvariant

  /** Everything but the projection, for a message no worker holds. */
  ghost predicate Settled(m: Mail) {
    && m.recipients.Keys != {}
    && AttemptsOk(m) && RowsOk(m) && HistoryOk(m) && RetriesOk(m) && RouteOk(m)
    && m.lease.None? && !m.cancelled
    && forall k :: 0 <= k < |m.attempts| ==> m.attempts[k].ending != InProgress
  }

  lemma InvSettles(m: Mail)
    requires Inv(m) && m.lease.None? && !m.cancelled
    ensures Settled(m)
  {
  }

  lemma StatusFree(m: Mail, s: Summary)
    requires Settled(m)
    ensures Settled(m.(status := s))
  {
    var n := m.(status := s);
    assert Grows(m, n);
    HistoryKeeps(m, n);
    forall r | r in n.recipients ensures RowOk(n, r) {
      assert RowOk(m, r);
      if Clear(m, r) { ClearKeeps(m, n, r); }
    }
    forall k | 0 <= k < |n.attempts| ensures AttemptOk(n, n.attempts[k]) {
      AttemptLater(m, n, m.attempts[k]);
    }
  }

  lemma NoneSending(m: Mail)
    requires RowsOk(m) && m.lease.None?
    ensures Refresh(m.recipients) != One(Sending) && Refresh(m.recipients) != One(Cancelled)
  {
    forall r | r in m.recipients ensures m.recipients[r].status != Sending {
      assert RowOk(m, r);
    }
  }

  /** The projection is exactly what an idle message lacks. */
  lemma RefreshRestores(m: Mail)
    requires Settled(m)
    ensures Sound(Refreshed(m))
  {
    StatusFree(m, Refresh(m.recipients));
    NoneSending(m);
    Seal(Refreshed(m));
  }

  /** Changing recipient rows alone: it is enough to look at each row. */
  ghost predicate RowsOnly(m: Mail, n: Mail) {
    && n == m.(recipients := n.recipients, clock := n.clock)
    && n.recipients.Keys == m.recipients.Keys
    && m.clock <= n.clock
  }

  /** A row change that only withdraws the recipient from the queue, or queues one whose
      whole history is clear and whose budget is open. */
  ghost predicate RowMove(m: Mail, r: Rid, x: Recipient, y: Recipient) {
    && y.attempts == x.attempts && y.retryStarted == x.retryStarted && y.manual == x.manual
    && y.status !in {Sending, Unknown, Cancelled, RcptOk}
    && (y.retryAt.Some? ==> y.status == TempFailed)
    && (y.status == Queued || y.retryAt.Some? ==> Clear(m, r))
    && (y.status == Queued ==> y.attempts < MAX_ATTEMPTS + y.manual)
  }

  lemma RowsOnlyKeeps(m: Mail, n: Mail)
    requires Settled(m) && RowsOnly(m, n)
    requires forall r :: r in m.recipients ==> n.recipients[r] == m.recipients[r] || RowMove(m, r, m.recipients[r], n.recipients[r])
    ensures Settled(n)
  {
    assert Grows(m, n);
    HistoryKeeps(m, n);
    forall k | 0 <= k < |n.attempts| ensures AttemptOk(n, n.attempts[k]) {
      AttemptLater(m, n, m.attempts[k]);
    }
    forall r | r in n.recipients ensures RowOk(n, r) {
      assert RowOk(m, r);
      if Clear(m, r) { ClearKeeps(m, n, r); }
    }
  }

  lemma ExpiryKeeps(m: Mail, now: Time)
    requires Settled(m)
    ensures Settled(ApplyExpiry(m, now))
  {
    RowsOnlyKeeps(m, ApplyExpiry(m, now));
  }

  lemma SuppressionKeeps(m: Mail, active: set<Address>)
    requires Settled(m)
    ensures Settled(ApplySuppression(m, active, false))
  {
    RowsOnlyKeeps(m, ApplySuppression(m, active, false));
  }

  /** A moved clock keeps an idle message well formed. */
  lemma ClockKeeps(m: Mail, now: Time)
    requires Settled(m) && m.clock <= now
    ensures Settled(m.(clock := now))
  {
    RowsOnlyKeeps(m, m.(clock := now));
  }

  lemma BlankSettles(m: Mail)
    requires m.recipients.Keys != {} && m.attempts == [] && m.retries == {} && m.route == None && m.lease == None && !m.cancelled
    requires forall r :: r in m.recipients ==> m.recipients[r] == NewRecipient(m.recipients[r].address)
    ensures Settled(m)
  {
    assert Visited(m.attempts) == {};
  }

  lemma EnqueuedIs(addresses: map<Rid, Address>, active: set<Address>, scheduleAt: Option<Time>, expiresAt: Option<Time>, now: Time)
    requires addresses.Keys != {}
    ensures Refreshed(ApplySuppression(Blank(addresses, scheduleAt, expiresAt, now), active, false))
      == Enqueued(addresses, active, scheduleAt, expiresAt, now)
  {
    var m := ApplySuppression(Blank(addresses, scheduleAt, expiresAt, now), active, false);
    assert forall r :: r in m.recipients ==> m.recipients[r].status in {Queued, Suppressed};
  }

  lemma EnqueueEstablishes(addresses: map<Rid, Address>, active: set<Address>, scheduleAt: Option<Time>, expiresAt: Option<Time>, now: Time)
    requires addresses.Keys != {}
    ensures Sound(Enqueued(addresses, active, scheduleAt, expiresAt, now))
  {
    var blank := Blank(addresses, scheduleAt, expiresAt, now);
    assert blank.recipients.Keys == addresses.Keys;
    BlankSettles(blank);
    SuppressionKeeps(blank, active);
    RefreshRestores(ApplySuppression(blank, active, false));
    EnqueuedIs(addresses, active, scheduleAt, expiresAt, now);
  }

  lemma ScheduleRowMoves(cfg: Policy, e: Mail, r: Rid, now: Time)
    requires Settled(e) && r in e.recipients
    ensures var x := e.recipients[r]; ScheduleRow(cfg, x, now) == x || RowMove(e, r, x, ScheduleRow(cfg, x, now))
  {
    assert RowOk(e, r);
  }

  lemma ScheduledSettles(cfg: Policy, e: Mail, now: Time)
    requires Settled(e) && e.clock <= now
    ensures Settled(e.(recipients := map r | r in e.recipients :: ScheduleRow(cfg, e.recipients[r], now), clock := now))
  {
    var n := e.(recipients := map r | r in e.recipients :: ScheduleRow(cfg, e.recipients[r], now), clock := now);
    forall r | r in e.recipients ensures n.recipients[r] == e.recipients[r] || RowMove(e, r, e.recipients[r], n.recipients[r]) {
      ScheduleRowMoves(cfg, e, r, now);
    }
    RowsOnlyKeeps(e, n);
  }

  lemma ScheduleKeeps(cfg: Policy, m: Mail, now: Time)
    requires Sound(m) && CanSchedule(m, now) && m.clock <= now
    ensures Sound(ScheduleMail(cfg, m, now))
  {
    Unseal(m);
    InvSettles(m);
    ExpiryKeeps(m, now);
    var e := ApplyExpiry(m, now);
    ScheduledSettles(cfg, e, now);
    RefreshRestores(e.(recipients := map r | r in e.recipients :: ScheduleRow(cfg, e.recipients[r], now), clock := now));
  }

  lemma SweepExpiredKeeps(m: Mail, now: Time)
    requires Sound(m) && CanSweepExpired(m, now) && m.clock <= now
    ensures Sound(SweepExpiredMail(m, now))
  {
    Unseal(m);
    InvSettles(m);
    ExpiryKeeps(m, now);
    ClockKeeps(ApplyExpiry(m, now), now);
    RefreshRestores(ApplyExpiry(m, now).(clock := now));
  }

  lemma SweepSuppressedKeeps(m: Mail, active: set<Address>, now: Time)
    requires Sound(m) && CanSweepSuppressed(m, active) && m.clock <= now
    ensures Sound(SweepSuppressedMail(m, active, now))
  {
    Unseal(m);
    assert !m.cancelled by {
      var r :| r in m.recipients && Hit(m.recipients[r], active, false);
      assert RowOk(m, r);
    }
    InvSettles(m);
    SuppressionKeeps(m, active);
    ClockKeeps(ApplySuppression(m, active, false), now);
    RefreshRestores(ApplySuppression(m, active, false).(clock := now));
  }

  lemma CancelGrows(m: Mail, now: Time)
    requires m.clock <= now
    ensures Grows(m, CancelMail(m, now))
  {
    var n := CancelMail(m, now);
    assert n.recipients.Keys == m.recipients.Keys;
  }

  lemma CancelledRow(m: Mail, n: Mail, now: Time, r: Rid)
    requires CanCancel(m) && n == CancelMail(m, now) && r in m.recipients && RowOk(m, r)
    requires Count(n.attempts, r) == Count(m.attempts, r)
    ensures RowOk(n, r)
  {
  }

  lemma CancelledRows(m: Mail, now: Time)
    requires CanCancel(m) && RowsOk(m)
    ensures RowsOk(CancelMail(m, now))
  {
    var n := CancelMail(m, now);
    forall r | r in n.recipients ensures RowOk(n, r) {
      assert RowOk(m, r);
      CancelledRow(m, n, now, r);
    }
  }

  lemma CancelledRest(m: Mail, now: Time)
    requires CanCancel(m) && LeaseOk(m)
    ensures LeaseOk(CancelMail(m, now)) && StatusOk(CancelMail(m, now))
  {
  }

  lemma CancelKeeps(m: Mail, now: Time)
    requires Sound(m) && CanCancel(m) && m.clock <= now
    ensures Sound(CancelMail(m, now))
  {
    Unseal(m);
    var n := CancelMail(m, now);
    CancelGrows(m, now);
    GrowthKeeps(m, n);
    CancelledRows(m, now);
    CancelledRest(m, now);
    Seal(n);
  }

  // ---- Manual resolution ----

  lemma ResolvedRow(m: Mail, n: Mail, r: Rid)
    requires AttemptsOk(m) && HistoryOk(m) && Grows(m, n) && InLast(m, r)
    requires m.attempts[|m.attempts| - 1].ending != InProgress
    requires n.attempts == m.attempts
    requires m.attempts[|m.attempts| - 1].lines[r].status == Unknown && (r, |m.attempts| - 1) in n.retries
    ensures Clear(n, r)
  {
    var last := |m.attempts| - 1;
    forall k | 0 <= k < |n.attempts| && r in n.attempts[k].lines ensures Safe(n, k, r) {
      if k < last {
        assert Safe(m, k, r);
        SafeKeeps(m, n, k, r);
      }
    }
  }

  /** The unresolved row was in the message's latest attempt, so restoring the route to
      that attempt's provider never moves it. */
  lemma ResolveKeepsRoute(m: Mail, r: Rid, expected: nat, v: Verdict, acknowledged: bool, active: set<Address>, now: Time)
    requires Inv(m) && CanResolve(m, r, expected, v, acknowledged, active, now)
    ensures expected == |m.attempts| - 1
    ensures m.route == Some(m.attempts[expected].provider)
    ensures !m.cancelled && (r, expected) !in m.retries
  {
    assert RowOk(m, r);
    LastBeforeIsLast(m.attempts, |m.attempts|, r);
  }

  lemma ResolvedRows(m: Mail, n: Mail, r: Rid, v: Verdict)
    requires AttemptsOk(m) && HistoryOk(m) && RowsOk(m) && Grows(m, n) && m.lease.None? && !m.cancelled && r in m.recipients
    requires m.recipients[r].status == Unknown && InLast(m, r)
    requires m.attempts[|m.attempts| - 1].lines[r].status == Unknown && m.attempts[|m.attempts| - 1].ending != InProgress
    requires n.attempts == m.attempts && n.lease == m.lease && n.cancelled == m.cancelled
    requires n.retries == if v == RetryIt then m.retries + {(r, |m.attempts| - 1)} else m.retries
    requires n.recipients == ResolveMail(m, r, |m.attempts| - 1, v, n.clock).recipients
    ensures RowsOk(n)
  {
    forall s | s in n.recipients ensures RowOk(n, s) {
      assert RowOk(m, s);
      if s == r {
        if v == RetryIt { ResolvedRow(m, n, r); }
      } else if Clear(m, s) {
        ClearKeeps(m, n, s);
      }
    }
  }

  lemma ReleasedRetries(m: Mail, n: Mail, r: Rid)
    requires RetriesOk(m) && n.attempts == m.attempts && InLast(m, r)
    requires m.attempts[|m.attempts| - 1].ending != InProgress && m.attempts[|m.attempts| - 1].lines[r].status == Unknown
    requires n.retries == m.retries || n.retries == m.retries + {(r, |m.attempts| - 1)}
    ensures RetriesOk(n)
  {
  }

  /** The rows of a resolution, before the projection. */
  ghost function Resolving(m: Mail, r: Rid, v: Verdict, now: Time): Mail
    requires r in m.recipients && |m.attempts| > 0
  {
    ResolveMail(m, r, |m.attempts| - 1, v, now).(status := m.status)
  }

  lemma ResolvingGrows(m: Mail, r: Rid, v: Verdict, now: Time)
    requires RouteOk(m) && r in m.recipients && |m.attempts| > 0 && m.clock <= now
    ensures var n := Resolving(m, r, v, now);
      && Grows(m, n) && n.route == m.route && n.attempts == m.attempts
      && (n.retries == m.retries || n.retries == m.retries + {(r, |m.attempts| - 1)})
  {
    var n := Resolving(m, r, v, now);
    assert n.recipients.Keys == m.recipients.Keys;
    assert forall k :: 0 <= k < |m.attempts| ==> Keeps(m.attempts[k], n.attempts[k]);
  }

  lemma ResolvingSettles(m: Mail, r: Rid, v: Verdict, now: Time)
    requires Inv(m) && m.lease.None? && !m.cancelled && r in m.recipients && m.clock <= now
    requires m.recipients[r].status == Unknown && InLast(m, r)
    requires m.attempts[|m.attempts| - 1].lines[r].status == Unknown
    ensures Settled(Resolving(m, r, v, now))
  {
    var n := Resolving(m, r, v, now);
    ResolvingGrows(m, r, v, now);
    GrowthKeeps(m, n);
    ResolvedRows(m, n, r, v);
    ReleasedRetries(m, n, r);
  }

  lemma ResolveKeeps(m: Mail, r: Rid, expected: nat, v: Verdict, acknowledged: bool, active: set<Address>, now: Time)
    requires Sound(m) && CanResolve(m, r, expected, v, acknowledged, active, now) && m.clock <= now
    ensures Sound(ResolveMail(m, r, expected, v, now))
  {
    Unseal(m);
    ResolveKeepsRoute(m, r, expected, v, acknowledged, active, now);
    ResolvingSettles(m, r, v, now);
    RefreshRestores(Resolving(m, r, v, now));
    assert Refreshed(Resolving(m, r, v, now)) == ResolveMail(m, r, expected, v, now);
  }

  // ---- Recovery ----

  lemma RecoveredAttemptOk(m: Mail, n: Mail, a: Attempt, now: Time)
    requires AttemptOk(m, a) && a.ending == InProgress
    requires m.clock <= n.clock && n.recipients.Keys == m.recipients.Keys
    requires n.scheduleAt == m.scheduleAt && n.expiresAt == m.expiresAt
    ensures AttemptOk(n, RecoveredAttempt(a, now)) && Keeps(a, RecoveredAttempt(a, now))
  {
  }

  lemma RecoveredRow(m: Mail, n: Mail, now: Time, r: Rid)
    requires CanRecover(m, now) && m.clock <= now && n == ReclaimedMail(m, now) && r in m.recipients
    requires RowOk(m, r) && RetriesOk(m) && AttemptsOk(m) && Grows(m, n) && HistoryOk(n)
    requires Count(n.attempts, r) == Count(m.attempts, r)
    ensures RowOk(n, r)
  {
    var last := |m.attempts| - 1;
    assert AttemptOk(m, m.attempts[last]);
    var x := m.recipients[r];
    if x.status == Sending && m.attempts[last].armedAt.None? {
      RequeuedIsClear(m, n, now, r);
    } else if Clear(m, r) {
      ClearKeeps(m, n, r);
    }
  }

  /** A row of an attempt that was never armed may be tried again. */
  lemma RequeuedIsClear(m: Mail, n: Mail, now: Time, r: Rid)
    requires CanRecover(m, now) && n == ReclaimedMail(m, now) && HistoryOk(n)
    requires var a := m.attempts[|m.attempts| - 1]; AttemptOk(m, a) && a.armedAt.None? && r in a.lines
    ensures Clear(n, r)
  {
    var last := |m.attempts| - 1;
    forall k | 0 <= k < |n.attempts| && r in n.attempts[k].lines ensures Safe(n, k, r) {
      if k < last { assert r in n.attempts[last].lines; }
    }
  }

  lemma ReclaimGrows(m: Mail, now: Time)
    requires AttemptsOk(m) && CanRecover(m, now) && m.clock <= now
    requires |m.attempts| > 0 && m.attempts[|m.attempts| - 1].ending == InProgress
    ensures var n := ReclaimedMail(m, now);
      && Grows(m, n) && n.route == m.route && n.retries == m.retries
      && forall k :: 0 <= k < |m.attempts| && n.attempts[k] != m.attempts[k] ==> AttemptOk(n, n.attempts[k])
  {
    var n := ReclaimedMail(m, now);
    var last := |m.attempts| - 1;
    assert AttemptOk(m, m.attempts[last]);
    assert n.recipients.Keys == m.recipients.Keys;
    RecoveredAttemptOk(m, n, m.attempts[last], now);
    forall k | 0 <= k < |m.attempts| ensures Keeps(m.attempts[k], n.attempts[k]) {
      if k != last { assert n.attempts[k] == m.attempts[k]; }
    }
  }

  lemma ReclaimSettles(m: Mail, now: Time)
    requires Inv(m) && CanRecover(m, now) && m.clock <= now
    ensures Settled(ReclaimedMail(m, now))
  {
    var n := ReclaimedMail(m, now);
    ReclaimGrows(m, now);
    GrowthKeeps(m, n);
    assert RowsOk(n) by {
      forall r | r in n.recipients ensures RowOk(n, r) {
        assert RowOk(m, r);
        RecoveredRow(m, n, now, r);
      }
    }
  }

  lemma RecoverKeeps(m: Mail, now: Time)
    requires Sound(m) && CanRecover(m, now) && m.clock <= now
    ensures Sound(RecoverMail(m, now))
  {
    Unseal(m);
    ReclaimSettles(m, now);
    var n := ReclaimedMail(m, now);
    ExpiryKeeps(n, now);
    RefreshRestores(ApplyExpiry(n, now));
  }
}
