/** The `next_attempt_at` column of a message.  A claim waits for it, the projection writes
    it, and nothing else reads it, so it is a sequence beside the run.  It never delays a
    claim beyond the schedule, and for a message that waits it is the exact retry deadline. */
module QueueNextAttempt {
  import opened Options
  import opened Delivery
  import opened SmtpClient
  import opened Queue
  import opened QueueInvariant
  import opened QueueDelivery
  import opened QueueRuns
  import opened QueueSafety
  import opened QueueProgress
  import Fairness

  /** The earliest retry deadline among the rows. */
  ghost predicate Earliest(rs: map<Rid, Recipient>, t: Option<Time>) {
    match t
    case None => forall r | r in rs :: rs[r].retryAt.None?
    case Some(v) => (exists r | r in rs :: rs[r].retryAt == t) && forall r | r in rs && rs[r].retryAt.Some? :: v <= rs[r].retryAt.value
  }

  /** The transactions that end with the projection of the message. */
  ghost predicate Projects(m: Mail, s: Step) {
    match s
    case Finish(cfg, k, token, ids, out, at, digest, now) => CanFinish(m, k, token, ids, out, now)
    case Recover(now) => CanRecover(m, now)
    case Schedule(cfg, now) => CanSchedule(m, now)
    case SweepExpired(now) => CanSweepExpired(m, now)
    case SweepSuppressed(active, now) => CanSweepSuppressed(m, active)
    case Resolve(r, expected, v, acknowledged, active, now) => CanResolve(m, r, expected, v, acknowledged, active, now)
    case _ => false
  }

  /** How one step moves the column from t to u. */
  ghost predicate Writes(m: Mail, t: Option<Time>, s: Step, u: Option<Time>) {
    if Projects(m, s) then
      if Next(m, s).status == One(Queued) then u == Some(s.now) else Earliest(Next(m, s).recipients, u)
    else if s.Withdraw? && CanCancel(m) then u == None
    else u == t
  }

  /** Set on enqueue: now, or the schedule if that is later; empty if nobody is left. */
  ghost predicate Opens(m: Mail, t: Option<Time>) {
    if m.status == One(Queued) then
      t == Some(if m.scheduleAt.Some? && m.clock < m.scheduleAt.value then m.scheduleAt.value else m.clock)
    else t == None
  }

  /** A run with the column beside it. */
  ghost predicate Columns(ms: seq<Mail>, ss: seq<Step>, ts: seq<Option<Time>>) {
    && Run(ms, ss) && |ts| == |ms| && Opens(ms[0], ts[0])
    && forall i | 0 < i < |ms| :: Written(ms, ss, ts, i)
  }

  ghost predicate Written(ms: seq<Mail>, ss: seq<Step>, ts: seq<Option<Time>>, i: nat)
    requires 0 < i < |ms| == |ts| == |ss| + 1
  {
    Writes(ms[i - 1], ts[i - 1], ss[i - 1], ts[i])
  }

  ghost predicate Shows(m: Mail, t: Option<Time>) {
    if m.cancelled then t == None
    else m.lease.None? ==>
      if m.status == One(Queued) then t.Some? && (t.value <= m.clock || (m.scheduleAt.Some? && t.value <= m.scheduleAt.value))
      else Earliest(m.recipients, t)
  }

  lemma StartShows(m: Mail, t: Option<Time>)
    requires JustEnqueued(m) && Opens(m, t)
    ensures Shows(m, t)
  {
  }

  lemma ProjectionUnlocks(m: Mail, s: Step)
    requires Projects(m, s)
    ensures Next(m, s).clock == s.now && Next(m, s).cancelled == m.cancelled
  {
  }

  lemma CancelledProjectsNothing(m: Mail, s: Step)
    requires Inert(m)
    ensures !Projects(m, s) && !CanCancel(m)
  {
  }

  /** A step that neither projects nor cancels leaves an unlocked message's rows alone. */
  lemma QuietStep(m: Mail, s: Step)
    requires !Projects(m, s) && !(s.Withdraw? && CanCancel(m)) && Legal(m, s)
    ensures var n := Next(m, s);
      && n.cancelled == m.cancelled && n.scheduleAt == m.scheduleAt && m.clock <= n.clock
      && (n.lease.None? ==> m.lease.None? && n.status == m.status && n.recipients == m.recipients)
  {
    match s {
      case Arm(k, token, active, now, seen) => if Next(m, s) != m { ArmChanges(m, k, token, active, now, seen); }
      case _ =>
    }
  }

  lemma StepShows(m: Mail, s: Step, t: Option<Time>, u: Option<Time>)
    requires Sound(m) && Legal(m, s) && Shows(m, t) && Writes(m, t, s, u)
    ensures Shows(Next(m, s), u)
  {
    if m.cancelled {
      SoundInert(m);
      CancelledProjectsNothing(m, s);
      InertStep(m, s);
    } else if Projects(m, s) {
      ProjectionUnlocks(m, s);
    } else if !(s.Withdraw? && CanCancel(m)) {
      QuietStep(m, s);
    }
  }

  lemma SoundInert(m: Mail)
    requires Sound(m) && m.cancelled
    ensures Inert(m)
  {
    Unseal(m);
    CancelledHasNoWork(m);
  }

  /** In every state of every run: empty once cancelled; for a queued message no later than
      the clock or the schedule; otherwise, between attempts, the earliest retry deadline. */
  lemma {:induction false} ColumnIsExact(ms: seq<Mail>, ss: seq<Step>, ts: seq<Option<Time>>, n: nat)
    requires Columns(ms, ss, ts) && n < |ms|
    ensures Shows(ms[n], ts[n])
  {
    if n == 0 {
      StartShows(ms[0], ts[0]);
    } else {
      ColumnIsExact(ms, ss, ts, n - 1);
      RunKeeps(ms, ss, n - 1);
      assert StepTo(ms, ss, n) && Written(ms, ss, ts, n);
      StepShows(ms[n - 1], ss[n - 1], ts[n - 1], ts[n]);
    }
  }

  /** In every state of every run a queued message inside its schedule and deadline, with an
      eligible row, has its column due and can be claimed for any provider its route allows,
      whatever the allowance. */
  lemma DueMessageIsClaimable(ms: seq<Mail>, ss: seq<Step>, ts: seq<Option<Time>>, n: nat, cfg: Policy, p: Pid, limit: nat, active: set<Address>, now: Time)
    returns (chosen: set<Rid>)
    requires Columns(ms, ss, ts) && n < |ms| && ms[n].clock <= now
    requires ms[n].status == One(Queued) && ms[n].available && !Elapsed(ms[n].expiresAt, now)
    requires ms[n].scheduleAt.None? || ms[n].scheduleAt.value <= now
    requires RouteAllowed(cfg, ms[n], p, now) && 1 <= limit <= Fairness.FAIR_RECIPIENT_QUANTUM && Eligible(cfg, ms[n], active, now) != {}
    ensures ts[n].Some? && ts[n].value <= now
    ensures CanClaim(cfg, ms[n], p, limit, chosen, active, now)
  {
    chosen := BatchExists(Eligible(cfg, ms[n], active, now), limit);
    ColumnIsExact(ms, ss, ts, n);
    ProjectionAgrees(ms, ss, n);
    assert !ms[n].cancelled by { RunInv(ms, ss, n); }
  }

  lemma WaitingIsDue(m: Mail, t: Option<Time>, now: Time)
    requires m.status == Refresh(m.recipients) && m.lease.None? && m.available && m.status in {One(TempFailed), Partial}
    requires Earliest(m.recipients, t)
    ensures CanSchedule(m, now) <==> Elapsed(t, now)
  {
    assert !Any(m.recipients, Queued);
    if Elapsed(t, now) {
      var r :| r in m.recipients && m.recipients[r].retryAt == t;
      assert Due(m.recipients[r], now);
    }
  }

  /** In every state of every run a message that waits for a retry is scheduled exactly from
      the moment its column shows. */
  lemma ScheduledExactlyWhenDue(ms: seq<Mail>, ss: seq<Step>, ts: seq<Option<Time>>, n: nat, now: Time)
    requires Columns(ms, ss, ts) && n < |ms| && ms[n].available && ms[n].status in {One(TempFailed), Partial}
    ensures CanSchedule(ms[n], now) <==> Elapsed(ts[n], now)
  {
    ColumnIsExact(ms, ss, ts, n);
    assert ms[n].lease.None? && !ms[n].cancelled by { RunInv(ms, ss, n); }
    ProjectionAgrees(ms, ss, n);
    WaitingIsDue(ms[n], ts[n], now);
  }
}
