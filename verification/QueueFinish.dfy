/** Recording an outcome keeps the queue invariant, for every truthful result. */
module QueueFinish {
  import opened Options
  import opened Delivery
  import opened SmtpClient
  import opened Queue
  import opened QueueInvariant
  import opened QueueSteps
  import opened QueueDelivery

  /** The worker of attempt k reports what its conversation produced: it names exactly the
      recipients it claimed, it tells the truth, and it knows whether it sent the body. */
  ghost predicate Reports(m: Mail, k: nat, token: Token, ids: seq<Rid>, out: Result) {
    && k < |m.attempts| && m.attempts[k].token == token
    && (forall r :: r in ids <==> r in m.attempts[k].lines)
    && (forall i, j :: 0 <= i < j < |ids| ==> ids[i] != ids[j])
    && Truthful(ids, m.attempts[k].granted, out)
    && out.bodyStarted == m.attempts[k].body
  }

  lemma ReportedRows(m: Mail, k: nat, token: Token, ids: seq<Rid>, out: Result)
    requires Reports(m, k, token, ids, out)
    ensures DistinctIds(out.rows)
    ensures forall r :: r in ById(out.rows) <==> r in m.attempts[k].lines
    ensures forall r :: r in ById(out.rows) ==> exists i :: 0 <= i < |ids| && ids[i] == r && ById(out.rows)[r] == out.rows[i]
  {
    forall i, j | 0 <= i < j < |out.rows| ensures out.rows[i].id != out.rows[j].id {
      assert out.rows[i].id == ids[i] && out.rows[j].id == ids[j];
    }
    forall r ensures r in ById(out.rows) <==> r in m.attempts[k].lines {
      if r in ById(out.rows) {
        var i :| 0 <= i < |out.rows| && out.rows[i].id == r;
        assert ids[i] == r;
      }
      if r in m.attempts[k].lines {
        assert r in ids;
        var i :| 0 <= i < |ids| && ids[i] == r;
        assert out.rows[i].id == r;
      }
    }
    forall r | r in ById(out.rows) ensures exists i :: 0 <= i < |ids| && ids[i] == r && ById(out.rows)[r] == out.rows[i] {
      var i :| 0 <= i < |out.rows| && out.rows[i].id == r;
      assert ids[i] == r;
    }
  }

  /** What a truthful row does to a row being sent. */
  ghost predicate RowOutcome(a: Attempt, out: Result, x: Recipient, y: Recipient, l: Line) {
    && y.attempts == x.attempts && y.retryStarted == x.retryStarted && y.manual == x.manual
    && y.status in {Queued, Accepted, TempFailed, PermFailed, Unknown, Suppressed}
    && (y.retryAt.Some? ==> y.status == TempFailed)
    && (y.status == Queued ==> a.suppressed && x.attempts < MAX_ATTEMPTS)
    && (y.status in {Unknown, Accepted} ==> out.bodyStarted)
    && (y.status == Queued || y.retryAt.Some? ==>
          && l.status == TempFailed
          && (|| !out.bodyStarted
              || (l.stage == RcptRejected && Negative(l.code))
              || (out.finalResponse && Negative(out.code))))
    && (l.status in {Accepted, TempFailed, PermFailed, Unknown})
    && (l.status in {Accepted, Unknown} ==> out.bodyStarted)
    && l.decision.Some?
    && (MovableDecision(l.decision.value) ==> l.status == TempFailed && !out.bodyStarted)
    && (l.status == Unknown && x.status == Sending ==> y.status == Unknown)
    && (l.status == Accepted && x.status == Sending ==> y.status == Accepted)
  }

  lemma TruthfulOutcome(cfg: Policy, a: Attempt, ids: seq<Rid>, out: Result, i: nat, x: Recipient, at: Time, digest: nat)
    requires Truthful(ids, a.granted, out) && i < |ids|
    requires x.status == Sending || (x.status == Suppressed && a.suppressed)
    requires x.retryAt.None?
    requires (a.suppressed || a.expired) ==> !out.bodyStarted && out.rows[i].status !in {Accepted, Unknown}
    ensures var (y, l) := FinishRow(cfg, a, out, out.rows[i], x, at, digest); RowOutcome(a, out, x, y, l)
  {
    assert TruthfulRow(out, out.rows[i]);
    TruthfulRetry(ids, a.granted, out, i, Budget(x.attempts, x.retryStarted, at, digest));
  }

  /** The status a recipient takes for each stored decision. */
  predicate StatusFor(action: Action, s: Status) {
    match action
    case Accept => s == Accepted
    case Permanent => s == PermFailed
    case MarkUnknown => s == Unknown
    case Retry => s == TempFailed
    case Manual => s == TempFailed
    case Resume => s == Queued
    case Suppress => s == Suppressed
    case _ => false
  }

  /** Recipients of a blocked attempt that the fence or its error message stopped. */
  predicate HeldBack(a: Attempt, row: Row, x: Recipient) {
    a.suppressed && (x.status == Suppressed || row.stage in {SuppressionBlocked, DatabaseError})
  }

  /** The decision is the policy's for the reported evidence, except for recipients held back
      by a suppression: the suppressed one is settled, the others resume if the budget
      allows. */
  predicate DecidedRight(a: Attempt, out: Result, row: Row, x: Recipient, d: Decision, at: Time, digest: nat) {
    if !HeldBack(a, row, x) then d == Decide(EvidenceOf(out, row), Budget(x.attempts, x.retryStarted, at, digest))
    else if x.status == Suppressed then d.action == Suppress && d.terminal
    else
      && d.action == (if x.attempts < 7 && x.retryStarted.Some? && at < x.retryStarted.value + 24 * HOUR then Resume else Manual)
      && !d.mayHaveDelivered && !d.failoverAllowed
  }

  /** The recipient obeys the decision stored in its line, and the line says what the worker
      reported: a retry is dated exactly when one was decided and retries are on, by the
      decided delay after the attempt's end. */
  ghost predicate RowFollows(cfg: Policy, a: Attempt, out: Result, row: Row, x: Recipient, y: Recipient, l: Line, at: Time, digest: nat) {
    && l == Line(row.status, row.stage, row.code, l.decision) && l.decision.Some?
    && var d := l.decision.value;
    && DecidedRight(a, out, row, x, d, at, digest)
    && StatusFor(d.action, y.status)
    && (y.retryAt.Some? <==> d.action == Retry && cfg.retry)
    && (y.retryAt.Some? ==> y.retryAt.value == at + d.retryAfter)
    && (d.action == Retry ==>
          && row.status == TempFailed && !y.automatic
          && Paced(x.attempts, d.retryAfter)
          && x.retryStarted.Some? && at + d.retryAfter < x.retryStarted.value + WINDOW)
    && y.mayHave == (if d.action == Suppress then x.mayHave else d.mayHaveDelivered)
    && y == x.(status := y.status, retryAt := y.retryAt, automatic := y.automatic, mayHave := y.mayHave)
  }

  lemma RowFollowsDecision(cfg: Policy, a: Attempt, ids: seq<Rid>, out: Result, i: nat, x: Recipient, at: Time, digest: nat)
    requires Truthful(ids, a.granted, out) && i < |ids|
    requires x.status == Sending || (x.status == Suppressed && a.suppressed)
    requires x.retryAt.None?
    ensures var (y, l) := FinishRow(cfg, a, out, out.rows[i], x, at, digest); RowFollows(cfg, a, out, out.rows[i], x, y, l, at, digest)
  {
    assert TruthfulRow(out, out.rows[i]);
    var b := Budget(x.attempts, x.retryStarted, at, digest);
    TruthfulRetry(ids, a.granted, out, i, b);
    RetryStaysInWindow(EvidenceOf(out, out.rows[i]), b);
    UncertainNeverRetried(EvidenceOf(out, out.rows[i]), b);
    if 1 <= x.attempts < MAX_ATTEMPTS { DelaysArePaced(x.attempts, digest); }
  }

  /** The effect of recording an outcome, row by row, without naming the policy. */
  ghost predicate Records(m: Mail, n: Mail, k: nat, out: Result) {
    && k == |m.attempts| - 1 && |n.attempts| == |m.attempts|
    && n.attempts == m.attempts[k := n.attempts[k]]
    && n == m.(lease := None, clock := n.clock, attempts := n.attempts, recipients := n.recipients)
    && m.clock <= n.clock
    && n.recipients.Keys == m.recipients.Keys
    && var a, b := m.attempts[k], n.attempts[k];
    && b == a.(ending := ByWorker(out.status), finishedAt := b.finishedAt, dataStarted := out.bodyStarted, finalResponse := out.finalResponse, code := out.code, lines := b.lines)
    && b.lines.Keys == a.lines.Keys
    && (forall r :: r in m.recipients && r !in a.lines ==> n.recipients[r] == m.recipients[r])
    && (forall r :: r in a.lines ==> r in m.recipients && RowOutcome(a, out, m.recipients[r], n.recipients[r], b.lines[r]))
  }

  /** What recording needs to know of each row it reports. */
  ghost predicate Sendable(m: Mail, k: nat, r: Rid) {
    && k < |m.attempts| && r in m.recipients
    && var x := m.recipients[r];
    && (x.status == Sending || (x.status == Suppressed && m.attempts[k].suppressed))
    && x.retryAt.None?
  }

  lemma OpenRowsSendable(m: Mail, k: nat, token: Token)
    requires Inv(m) && Owns(m, k, token)
    ensures k == |m.attempts| - 1 && m.lease.Some? && !m.cancelled
    ensures forall r :: r in m.attempts[k].lines ==> Sendable(m, k, r)
  {
    OwnedIsLast(m, k, token);
    assert AttemptOk(m, m.attempts[k]);
    forall r | r in m.attempts[k].lines ensures Sendable(m, k, r) {
      assert r in m.attempts[k].lines.Keys;
      assert RowOk(m, r);
    }
  }

  lemma RecordedOutcome(cfg: Policy, m: Mail, n: Mail, k: nat, token: Token, ids: seq<Rid>, out: Result, at: Time, digest: Rid -> nat, now: Time, r: Rid)
    requires CanFinish(m, k, token, ids, out, now) && Reports(m, k, token, ids, out)
    requires n == RecordedMail(cfg, m, k, out, at, digest, now)
    requires r in m.attempts[k].lines && Sendable(m, k, r)
    ensures RowOutcome(m.attempts[k], out, m.recipients[r], n.recipients[r], n.attempts[k].lines[r])
  {
    ReportedRows(m, k, token, ids, out);
    var i :| 0 <= i < |ids| && ids[i] == r && ById(out.rows)[r] == out.rows[i];
    TruthfulOutcome(cfg, m.attempts[k], ids, out, i, m.recipients[r], at, digest(r));
  }

  lemma RecordedRecords(cfg: Policy, m: Mail, k: nat, token: Token, ids: seq<Rid>, out: Result, at: Time, digest: Rid -> nat, now: Time)
    requires CanFinish(m, k, token, ids, out, now) && Reports(m, k, token, ids, out) && m.clock <= now
    requires k == |m.attempts| - 1
    requires forall r :: r in m.attempts[k].lines ==> Sendable(m, k, r)
    ensures Records(m, RecordedMail(cfg, m, k, out, at, digest, now), k, out)
  {
    var n := RecordedMail(cfg, m, k, out, at, digest, now);
    ReportedRows(m, k, token, ids, out);
    forall r | r in m.attempts[k].lines
      ensures r in m.recipients && RowOutcome(m.attempts[k], out, m.recipients[r], n.recipients[r], n.attempts[k].lines[r])
    {
      RecordedOutcome(cfg, m, n, k, token, ids, out, at, digest, now, r);
    }
  }

  lemma FinishedAttemptOk(m: Mail, n: Mail, k: nat, out: Result)
    requires Records(m, n, k, out) && AttemptOk(m, m.attempts[k])
    requires out.bodyStarted == m.attempts[k].body && (out.finalResponse ==> out.bodyStarted)
    ensures AttemptOk(n, n.attempts[k])
  {
    var a, b := m.attempts[k], n.attempts[k];
    forall r | r in b.lines ensures WorkerLine(b, b.lines[r]) {
      assert r in a.lines.Keys;
      assert RowOutcome(a, out, m.recipients[r], n.recipients[r], b.lines[r]);
    }
  }

  lemma FinishedRow(m: Mail, n: Mail, k: nat, out: Result, r: Rid)
    requires Records(m, n, k, out) && r in m.recipients && m.lease.Some? && !m.cancelled
    requires out.bodyStarted == m.attempts[k].body && m.attempts[k].ending == InProgress
    requires RowOk(m, r) && RetriesOk(m) && AttemptsOk(m) && Grows(m, n) && HistoryOk(n)
    requires Count(n.attempts, r) == Count(m.attempts, r)
    ensures RowOk(n, r)
  {
    var x, y := m.recipients[r], n.recipients[r];
    assert AttemptOk(m, m.attempts[k]);
    if r in m.attempts[k].lines {
      var l := n.attempts[k].lines[r];
      assert RowOutcome(m.attempts[k], out, x, y, l);
      if y.status == Queued || y.retryAt.Some? {
        forall j | 0 <= j < |n.attempts| && r in n.attempts[j].lines ensures Safe(n, j, r) {
          if j < k { assert r in n.attempts[k].lines.Keys; }
        }
      }
    } else {
      if Clear(m, r) { ClearKeeps(m, n, r); }
    }
  }

  lemma RecordsGrow(m: Mail, n: Mail, k: nat, out: Result)
    requires Records(m, n, k, out) && m.attempts[k].ending == InProgress && LeaseOk(m)
    ensures Grows(m, n) && n.route == m.route && n.lease.None? && n.cancelled == m.cancelled
    ensures forall i :: 0 <= i < |m.attempts| && n.attempts[i] != m.attempts[i] ==> i == k
    ensures forall i :: 0 <= i < |n.attempts| ==> n.attempts[i].ending != InProgress
  {
  }

  lemma FinishedRows(m: Mail, n: Mail, k: nat, out: Result)
    requires Records(m, n, k, out) && m.lease.Some? && !m.cancelled
    requires out.bodyStarted == m.attempts[k].body && m.attempts[k].ending == InProgress
    requires RowsOk(m) && RetriesOk(m) && AttemptsOk(m) && Grows(m, n) && HistoryOk(n)
    requires forall r :: Count(n.attempts, r) == Count(m.attempts, r)
    ensures RowsOk(n)
  {
    forall r | r in n.recipients ensures RowOk(n, r) {
      FinishedRow(m, n, k, out, r);
    }
  }

  lemma RecordedSettles(m: Mail, n: Mail, k: nat, out: Result)
    requires m.recipients.Keys != {} && AttemptsOk(m) && HistoryOk(m) && RetriesOk(m) && RouteOk(m) && RowsOk(m) && LeaseOk(m)
    requires Records(m, n, k, out) && m.lease.Some? && !m.cancelled && m.attempts[k].ending == InProgress
    requires out.bodyStarted == m.attempts[k].body && (out.finalResponse ==> out.bodyStarted)
    ensures Settled(n)
  {
    FinishedAttemptOk(m, n, k, out);
    RecordsGrow(m, n, k, out);
    GrowthKeeps(m, n);
    FinishedRows(m, n, k, out);
  }

  lemma FinishKeeps(cfg: Policy, m: Mail, k: nat, token: Token, ids: seq<Rid>, out: Result, at: Time, digest: Rid -> nat, now: Time)
    requires Sound(m) && CanFinish(m, k, token, ids, out, now) && Reports(m, k, token, ids, out) && m.clock <= now
    ensures Sound(FinishMail(cfg, m, k, out, at, digest, now))
  {
    Unseal(m);
    OpenRowsSendable(m, k, token);
    RecordedRecords(cfg, m, k, token, ids, out, at, digest, now);
    var n := RecordedMail(cfg, m, k, out, at, digest, now);
    RecordedSettles(m, n, k, out);
    ExpiryKeeps(n, now);
    RefreshRestores(ApplyExpiry(n, now));
  }
}
