/** What a message remembers of its doubts.  Every recipient carries the flag
    `may_have_delivered` of its last decision, and the deadline can end one whose earlier
    attempts were in doubt.  Over whole runs the flag is neither lost nor made up: an expired
    recipient without it is held by nobody. */
module QueueDoubt {
  import opened Options
  import opened Delivery
  import opened SmtpClient
  import opened Queue
  import opened QueueInvariant
  import opened QueueSteps
  import opened QueueDelivery
  import opened QueueFinish
  import opened QueueRuns
  import opened QueueSafety
  import opened QueueBackoff

  /** The attempt is over, and left the recipient in doubt or failed with nothing held. */
  ghost predicate Closed(a: Attempt, r: Rid) {
    r in a.lines ==>
      && a.ending != InProgress
      && (|| a.lines[r].status == Unknown
          || (a.lines[r].status in {TempFailed, PermFailed} && (!a.body || Refused(a, r))))
  }

  ghost predicate AllClosed(attempts: seq<Attempt>, r: Rid) { forall k | 0 <= k < |attempts| :: Closed(attempts[k], r) }

  /** The flag, by the recipient's status. */
  ghost predicate Flagged(attempts: seq<Attempt>, x: Recipient, r: Rid) {
    && (x.status in {Queued, Sending, TempFailed, PermFailed, Suppressed, Cancelled, Delivered} ==> !x.mayHave)
    && (x.status == Accepted ==> x.mayHave)
    && (x.status == Expired ==> (x.mayHave <==> EverUnknown(attempts, r)))
  }

  ghost predicate Remembers(m: Mail, r: Rid)
    requires r in m.recipients
  {
    var x := m.recipients[r];
    Flagged(m.attempts, x, r) && (Pending(x) || x.status == Expired ==> AllClosed(m.attempts, r))
  }

  // ---- Steps that leave the recipient's lines alone ----

  ghost predicate SameLine(a: Attempt, b: Attempt, r: Rid) {
    && (r in b.lines <==> r in a.lines)
    && (r in a.lines ==> b.lines[r] == a.lines[r] && (Closed(a, r) ==> Closed(b, r)))
  }

  ghost predicate SameLines(a: seq<Attempt>, b: seq<Attempt>, r: Rid) {
    |a| == |b| && forall k | 0 <= k < |a| :: SameLine(a[k], b[k], r)
  }

  /** What happens to a row outside an outcome: nothing, or it waits, is taken out or expires. */
  ghost predicate Drifts(attempts: seq<Attempt>, x: Recipient, y: Recipient, r: Rid) {
    || y == x
    || (Pending(x) && Pending(y) && !y.mayHave)
    || (y.status in {Sending, Suppressed, Cancelled} && !y.mayHave)
    || (Pending(x) && y.status == Expired && (y.mayHave <==> x.mayHave || EverUnknown(attempts, r)))
  }

  lemma SameDoubts(a: seq<Attempt>, b: seq<Attempt>, r: Rid)
    requires SameLines(a, b, r)
    ensures EverUnknown(a, r) <==> EverUnknown(b, r)
    ensures AllClosed(a, r) ==> AllClosed(b, r)
  {
    forall k | 0 <= k < |a| ensures SameLine(a[k], b[k], r) { }
    if EverUnknown(a, r) {
      var k :| 0 <= k < |a| && r in a[k].lines && a[k].lines[r].status == Unknown;
      assert SameLine(a[k], b[k], r);
    }
    if EverUnknown(b, r) {
      var k :| 0 <= k < |b| && r in b[k].lines && b[k].lines[r].status == Unknown;
      assert SameLine(a[k], b[k], r);
    }
    if AllClosed(a, r) {
      forall k | 0 <= k < |b| ensures Closed(b[k], r) { assert SameLine(a[k], b[k], r); }
    }
  }

  lemma DriftRemembers(m: Mail, n: Mail, r: Rid)
    requires r in m.recipients && r in n.recipients && Remembers(m, r)
    requires SameLines(m.attempts, n.attempts, r) && Drifts(m.attempts, m.recipients[r], n.recipients[r], r)
    ensures Remembers(n, r)
  {
    SameDoubts(m.attempts, n.attempts, r);
  }

  lemma NoLineChanges(m: Mail, r: Rid)
    ensures SameLines(m.attempts, m.attempts, r)
  {
  }

  lemma ArmRemembers(m: Mail, k: nat, token: Token, active: set<Address>, now: Time, seen: bool, r: Rid)
    requires r in m.recipients && Remembers(m, r)
    ensures var n := ArmStep(m, k, token, active, now, seen); r in n.recipients && Remembers(n, r)
  {
    var n := ArmStep(m, k, token, active, now, seen);
    if n != m {
      ArmChanges(m, k, token, active, now, seen);
      forall i | 0 <= i < |m.attempts| ensures SameLine(m.attempts[i], n.attempts[i], r) { }
      assert FenceRow(m.recipients[r], n.recipients[r], n.attempts[k]);
      DriftRemembers(m, n, r);
    }
  }

  /** A late transmission: its attempt is open, or was taken back in doubt. */
  lemma WireRemembers(m: Mail, k: nat, r: Rid)
    requires CanTransmit(m, k) && AttemptOk(m, m.attempts[k]) && r in m.recipients && Remembers(m, r)
    ensures Remembers(TransmitMail(m, k), r)
  {
    var n := TransmitMail(m, k);
    forall i | 0 <= i < |m.attempts| ensures SameLine(m.attempts[i], n.attempts[i], r) { }
    DriftRemembers(m, n, r);
  }

  lemma ScheduleRemembers(cfg: Policy, m: Mail, now: Time, r: Rid)
    requires r in m.recipients && Remembers(m, r) && (m.recipients[r].retryAt.Some? ==> m.recipients[r].status == TempFailed)
    ensures Remembers(ScheduleMail(cfg, m, now), r)
  {
    var e, n := ApplyExpiry(m, now), ScheduleMail(cfg, m, now);
    assert e.recipients[r] == ExpireRow(m, now, r, m.recipients[r]);
    assert n.recipients[r] == ScheduleRow(cfg, e.recipients[r], now);
    NoLineChanges(m, r);
    DriftRemembers(m, n, r);
  }

  lemma SweepRemembers(m: Mail, active: set<Address>, now: Time, r: Rid)
    requires r in m.recipients && Remembers(m, r)
    ensures Remembers(SweepExpiredMail(m, now), r) && Remembers(SweepSuppressedMail(m, active, now), r) && Remembers(CancelMail(m, now), r)
  {
    NoLineChanges(m, r);
    DriftRemembers(m, SweepExpiredMail(m, now), r);
    DriftRemembers(m, SweepSuppressedMail(m, active, now), r);
    DriftRemembers(m, CancelMail(m, now), r);
  }

  lemma ClaimRemembers(m: Mail, p: Pid, token: Token, chosen: set<Rid>, until: Time, now: Time, r: Rid)
    requires r in m.recipients && Remembers(m, r) && (r in chosen ==> m.recipients[r].status == Queued)
    ensures Remembers(ClaimMail(m, p, token, chosen, until, now), r)
  {
    var n := ClaimMail(m, p, token, chosen, until, now);
    assert n.attempts[..|m.attempts|] == m.attempts;
    if r !in chosen {
      assert r !in n.attempts[|m.attempts|].lines;
      if EverUnknown(n.attempts, r) {
        var k :| 0 <= k < |n.attempts| && r in n.attempts[k].lines && n.attempts[k].lines[r].status == Unknown;
        assert n.attempts[k] == m.attempts[k];
      }
      if EverUnknown(m.attempts, r) {
        var k :| 0 <= k < |m.attempts| && r in m.attempts[k].lines && m.attempts[k].lines[r].status == Unknown;
        assert n.attempts[k] == m.attempts[k];
      }
      if AllClosed(m.attempts, r) {
        forall k | 0 <= k < |n.attempts| ensures Closed(n.attempts[k], r) { if k < |m.attempts| { assert n.attempts[k] == m.attempts[k]; } }
      }
    }
  }

  // ---- Steps that end an attempt ----

  /** All attempts of a recipient are closed once its last one is: the earlier ones were
      followed by another. */
  lemma LastCloses(m: Mail, r: Rid)
    requires HistoryOk(m) && m.attempts != [] && r in m.attempts[|m.attempts| - 1].lines && Closed(m.attempts[|m.attempts| - 1], r)
    ensures AllClosed(m.attempts, r)
  {
    forall k | 0 <= k < |m.attempts| ensures Closed(m.attempts[k], r) {
      if k < |m.attempts| - 1 && r in m.attempts[k].lines { assert Safe(m, k, r); }
    }
  }

  lemma ExpiryRemembers(n: Mail, now: Time, r: Rid)
    requires r in n.recipients && Remembers(n, r)
    ensures Remembers(Refreshed(ApplyExpiry(n, now)), r)
  {
    NoLineChanges(n, r);
    DriftRemembers(n, Refreshed(ApplyExpiry(n, now)), r);
  }

  /** A recorded row that may be tried again, or waits for an operator, is held by nobody. */
  lemma FollowedRow(cfg: Policy, a: Attempt, b: Attempt, out: Result, row: Row, x: Recipient, y: Recipient, r: Rid, at: Time, digest: nat)
    requires r in b.lines && RowFollows(cfg, a, out, row, x, y, b.lines[r], at, digest)
    requires b.ending != InProgress && b.body == out.bodyStarted && b.finalResponse == out.finalResponse && b.code == out.code
    requires row.status in {Accepted, TempFailed, PermFailed, Unknown} && (a.suppressed ==> !out.bodyStarted && row.status in {TempFailed, PermFailed})
    requires row.status == Accepted ==> out.finalResponse && Positive(out.code)
    ensures Pending(y) ==> Closed(b, r)
  {
    if Pending(y) && !HeldBack(a, row, x) {
      var bud := Budget(x.attempts, x.retryStarted, at, digest);
      ManualExactlyWhen(EvidenceOf(out, row), bud);
      RetryExactlyWhen(EvidenceOf(out, row), bud);
    }
  }

  lemma FollowedFlag(cfg: Policy, a: Attempt, out: Result, row: Row, x: Recipient, y: Recipient, l: Line, at: Time, digest: nat, attempts: seq<Attempt>, r: Rid)
    requires RowFollows(cfg, a, out, row, x, y, l, at, digest) && !x.mayHave
    ensures y.status != Expired && Flagged(attempts, y, r)
  {
  }

  lemma ReportRemembers(cfg: Policy, m: Mail, k: nat, token: Token, ids: seq<Rid>, out: Result, at: Time, digest: Rid -> nat, now: Time, r: Rid)
    requires CanFinish(m, k, token, ids, out, now) && Reports(m, k, token, ids, out) && k == |m.attempts| - 1
    requires r in m.attempts[k].lines && Sendable(m, k, r) && !m.recipients[r].mayHave
    requires HistoryOk(RecordedMail(cfg, m, k, out, at, digest, now))
    ensures Remembers(RecordedMail(cfg, m, k, out, at, digest, now), r)
  {
    var n := RecordedMail(cfg, m, k, out, at, digest, now);
    var row := RecordedFollows(cfg, m, k, token, ids, out, at, digest, now, r);
    var a, b := m.attempts[k], n.attempts[k];
    assert TruthfulRow(out, row);
    FollowedFlag(cfg, a, out, row, m.recipients[r], n.recipients[r], b.lines[r], at, digest(r), n.attempts, r);
    FollowedRow(cfg, a, b, out, row, m.recipients[r], n.recipients[r], r, at, digest(r));
    if Pending(n.recipients[r]) { LastCloses(n, r); }
  }

  lemma BystanderRemembers(cfg: Policy, m: Mail, k: nat, out: Result, at: Time, digest: Rid -> nat, now: Time, r: Rid)
    requires k < |m.attempts| && DistinctIds(out.rows) && r in m.recipients
    requires r !in m.attempts[k].lines && r !in ById(out.rows) && Remembers(m, r)
    ensures Remembers(RecordedMail(cfg, m, k, out, at, digest, now), r)
  {
    var n := RecordedMail(cfg, m, k, out, at, digest, now);
    forall i | 0 <= i < |m.attempts| ensures SameLine(m.attempts[i], n.attempts[i], r) { }
    DriftRemembers(m, n, r);
  }

  lemma FinishRemembers(cfg: Policy, m: Mail, k: nat, token: Token, ids: seq<Rid>, out: Result, at: Time, digest: Rid -> nat, now: Time, r: Rid)
    requires Sound(m) && CanFinish(m, k, token, ids, out, now) && Reports(m, k, token, ids, out) && m.clock <= now && r in m.recipients && Remembers(m, r)
    ensures Remembers(FinishMail(cfg, m, k, out, at, digest, now), r)
  {
    assert k == |m.attempts| - 1 && (r in m.attempts[k].lines ==> Sendable(m, k, r)) by {
      Unseal(m);
      OpenRowsSendable(m, k, token);
    }
    var n := RecordedMail(cfg, m, k, out, at, digest, now);
    assert HistoryOk(n) by {
      FinishKeeps(cfg, m, k, token, ids, out, at, digest, now);
      HistoryAlone(FinishMail(cfg, m, k, out, at, digest, now), n);
    }
    ReportedRows(m, k, token, ids, out);
    if r in m.attempts[k].lines {
      ReportRemembers(cfg, m, k, token, ids, out, at, digest, now, r);
    } else {
      BystanderRemembers(cfg, m, k, out, at, digest, now, r);
    }
    ExpiryRemembers(n, now, r);
  }

  lemma HistoryAlone(f: Mail, n: Mail)
    requires Sound(f) && f.attempts == n.attempts && f.retries == n.retries
    ensures HistoryOk(n)
  {
    Unseal(f);
    forall i, j, r | 0 <= i < j < |n.attempts| && r in n.attempts[i].lines && r in n.attempts[j].lines ensures Safe(n, i, r) {
      assert Safe(f, i, r);
    }
  }

  /** Taking a lease back: an armed attempt leaves doubt, an unarmed one put nothing on the wire. */
  lemma ReclaimRemembers(m: Mail, now: Time, r: Rid)
    requires CanRecover(m, now) && r in m.recipients && Remembers(m, r) && AttemptOk(m, m.attempts[|m.attempts| - 1])
    requires OpenRows(m, m.attempts[|m.attempts| - 1]) && HistoryOk(ReclaimedMail(m, now))
    requires m.recipients[r].status == Sending ==> InLast(m, r)
    ensures Remembers(ReclaimedMail(m, now), r)
  {
    var n, last := ReclaimedMail(m, now), |m.attempts| - 1;
    if r in m.attempts[last].lines {
      assert Closed(n.attempts[last], r);
      LastCloses(n, r);
    } else {
      forall i | 0 <= i < |m.attempts| ensures SameLine(m.attempts[i], n.attempts[i], r) { }
      DriftRemembers(m, n, r);
    }
  }

  lemma RecoverRemembers(m: Mail, now: Time, r: Rid)
    requires Sound(m) && CanRecover(m, now) && m.clock <= now && r in m.recipients && Remembers(m, r)
    ensures Remembers(RecoverMail(m, now), r)
  {
    assert AttemptOk(m, m.attempts[|m.attempts| - 1]) && OpenRows(m, m.attempts[|m.attempts| - 1]) && RowOk(m, r) by { Unseal(m); }
    assert HistoryOk(ReclaimedMail(m, now)) by {
      RecoverKeeps(m, now);
      HistoryAlone(RecoverMail(m, now), ReclaimedMail(m, now));
    }
    ReclaimRemembers(m, now, r);
    ExpiryRemembers(ReclaimedMail(m, now), now, r);
  }

  lemma ResolveRemembers(m: Mail, s: Rid, expected: nat, v: Verdict, acknowledged: bool, active: set<Address>, now: Time, r: Rid)
    requires HistoryOk(m) && AttemptsOk(m) && CanResolve(m, s, expected, v, acknowledged, active, now) && r in m.recipients && Remembers(m, r)
    requires m.recipients[r].status == Unknown ==> InLast(m, r)
    ensures Remembers(ResolveMail(m, s, expected, v, now), r)
  {
    var n := ResolveMail(m, s, expected, v, now);
    assert n.attempts == m.attempts;
    if r == s && v == RetryIt {
      assert AttemptOk(m, m.attempts[|m.attempts| - 1]);
      assert Closed(m.attempts[|m.attempts| - 1], r);
      LastCloses(m, r);
    }
  }

  // ---- Runs ----

  lemma NextRemembers(m: Mail, s: Step, r: Rid)
    requires Sound(m) && Legal(m, s) && r in m.recipients && Remembers(m, r)
    ensures r in Next(m, s).recipients && Remembers(Next(m, s), r)
  {
    assert RowOk(m, r) && AttemptsOk(m) && HistoryOk(m) by { Unseal(m); }
    match s {
      case Claim(cfg, p, token, limit, chosen, active, until, now) =>
        if CanClaim(cfg, m, p, limit, chosen, active, now) {
          if r in chosen { assert r in Eligible(cfg, m, active, now); }
          ClaimRemembers(m, p, token, chosen, until, now, r);
        }
      case Arm(k, token, active, now, seen) => ArmRemembers(m, k, token, active, now, seen, r);
      case Wire(k) => if CanTransmit(m, k) { WireRemembers(m, k, r); }
      case Finish(cfg, k, token, ids, out, at, digest, now) =>
        if CanFinish(m, k, token, ids, out, now) { FinishRemembers(cfg, m, k, token, ids, out, at, digest, now, r); }
      case Recover(now) => if CanRecover(m, now) { RecoverRemembers(m, now, r); }
      case Schedule(cfg, now) => if CanSchedule(m, now) { ScheduleRemembers(cfg, m, now, r); }
      case SweepExpired(now) => SweepRemembers(m, {}, now, r);
      case SweepSuppressed(active, now) => SweepRemembers(m, active, now, r);
      case Resolve(t, expected, v, acknowledged, active, now) =>
        if CanResolve(m, t, expected, v, acknowledged, active, now) { ResolveRemembers(m, t, expected, v, acknowledged, active, now, r); }
      case Withdraw(now) => SweepRemembers(m, {}, now, r);
    }
  }

  lemma {:induction false} RunRemembers(ms: seq<Mail>, ss: seq<Step>, n: nat, r: Rid)
    requires Run(ms, ss) && n < |ms| && r in ms[n].recipients
    ensures Remembers(ms[n], r)
  {
    if n > 0 {
      RunKeeps(ms, ss, n - 1);
      assert StepTo(ms, ss, n);
      SameRecipients(ms[n - 1], ss[n - 1]);
      RunRemembers(ms, ss, n - 1, r);
      NextRemembers(ms[n - 1], ss[n - 1], r);
    }
  }

  /** In every state of every run: an accepted recipient is marked as possibly delivered; one
      that waits, is being sent, was refused, taken out, withdrawn or settled by an operator is
      not; an expired one is marked exactly when one of its attempts ended in doubt. */
  lemma FlagIsExact(ms: seq<Mail>, ss: seq<Step>, n: nat, r: Rid)
    requires Run(ms, ss) && n < |ms| && r in ms[n].recipients
    ensures Flagged(ms[n].attempts, ms[n].recipients[r], r)
  {
    RunRemembers(ms, ss, n, r);
  }

  /** So a recipient that expired without the mark, or still waits although none of its
      attempts ended in doubt, is in no open attempt and no server can hold the message for it. */
  lemma ExpiryForgetsNothing(ms: seq<Mail>, ss: seq<Step>, n: nat, r: Rid, k: nat)
    requires Run(ms, ss) && n < |ms| && r in ms[n].recipients && k < |ms[n].attempts| && r in ms[n].attempts[k].lines
    requires var x := ms[n].recipients[r]; (x.status == Expired && !x.mayHave) || (Pending(x) && !EverUnknown(ms[n].attempts, r))
    ensures ms[n].attempts[k].ending != InProgress && !RemoteMayHoldLine(ms[n].attempts[k], r)
  {
    RunRemembers(ms, ss, n, r);
    assert Closed(ms[n].attempts[k], r);
  }
}
