/** What every transaction of the delivery queue keeps. */
module QueueInvariant {
  import opened Options
  import opened Delivery
  import opened SmtpClient
  import opened Queue

  /** A negative reply covers the recipient: its own RCPT, or the final one. */
  ghost predicate Refused(a: Attempt, r: Rid) {
    && r in a.lines
    && (|| (a.lines[r].stage == RcptRejected && Negative(a.lines[r].code))
        || (a.finalResponse && Negative(a.code)))
  }

  /** The recipient may be tried again after attempt k: the remote side cannot hold the
      message, or an operator took the responsibility for a duplicate. */
  ghost predicate Safe(m: Mail, k: nat, r: Rid) {
    && k < |m.attempts| && r in m.attempts[k].lines
    && var a := m.attempts[k];
    && a.ending != InProgress
    && (|| (a.lines[r].status == TempFailed && (!a.body || Refused(a, r)))
        || (a.lines[r].status == Unknown && (r, k) in m.retries))
  }

  ghost predicate Clear(m: Mail, r: Rid) {
    forall k :: 0 <= k < |m.attempts| && r in m.attempts[k].lines ==> Safe(m, k, r)
  }

  /** Number of attempts that carried the recipient. */
  ghost function Count(attempts: seq<Attempt>, r: Rid): nat {
    if attempts == [] then 0
    else Count(attempts[..|attempts| - 1], r) + (if r in attempts[|attempts| - 1].lines then 1 else 0)
  }

  // ---- Attempts, one at a time ----

  ghost predicate WorkerLine(a: Attempt, l: Line) {
    && l.status in {Accepted, TempFailed, PermFailed, Unknown}
    && (l.status in {Accepted, Unknown} ==> a.body)
    && l.decision.Some?
    && (MovableDecision(l.decision.value) ==> l.status == TempFailed && !a.body)
  }

  ghost predicate AttemptOk(m: Mail, a: Attempt) {
    && a.lines.Keys != {}
    && a.lines.Keys <= m.recipients.Keys
    && a.startedAt <= m.clock
    && (m.scheduleAt.Some? ==> m.scheduleAt.value <= a.startedAt)
    && (a.armedAt.Some? ==>
          && !a.suppressed && !a.expired
          && a.startedAt <= a.armedAt.value <= m.clock
          && (m.expiresAt.Some? ==> a.armedAt.value < m.expiresAt.value))
    && !(a.suppressed && a.expired)
    && (a.granted ==> a.armedAt.Some?)
    && (a.body ==> a.granted)
    && (a.ending == InProgress ==>
          && !a.dataStarted && !a.finalResponse
          && forall r :: r in a.lines ==> a.lines[r] == Line(Sending, NoStage, 0, None))
    && (a.ending.ByRecovery? ==>
          && !a.dataStarted && !a.finalResponse
          && var s := if a.armedAt.Some? then Unknown else TempFailed;
          && a.ending == ByRecovery(One(s))
          && forall r :: r in a.lines ==> a.lines[r] == Line(s, NoStage, 0, None))
    && (a.ending.ByWorker? ==>
          && a.dataStarted == a.body
          && (a.finalResponse ==> a.body)
          && forall r :: r in a.lines ==> WorkerLine(a, a.lines[r]))
  }

  ghost predicate AttemptsOk(m: Mail) {
    && (forall k :: 0 <= k < |m.attempts| ==> AttemptOk(m, m.attempts[k]))
    && (forall i, j :: 0 <= i < j < |m.attempts| ==> m.attempts[i].token != m.attempts[j].token)
  }

  // ---- Lease and fencing ----

  /** Rows named by the open attempt are being sent, or were taken out by the fence. */
  ghost predicate OpenRows(m: Mail, a: Attempt) {
    forall r :: r in a.lines && r in m.recipients ==>
      || m.recipients[r].status == Sending
      || (m.recipients[r].status == Suppressed && a.suppressed)
  }

  ghost predicate LeaseOk(m: Mail) {
    && (m.status == One(Sending) <==> m.lease.Some?)
    && (forall k :: 0 <= k < |m.attempts| && m.attempts[k].ending == InProgress ==> m.lease.Some? && k == |m.attempts| - 1)
    && (m.lease.Some? ==>
          && |m.attempts| > 0
          && var a := m.attempts[|m.attempts| - 1];
          && a.ending == InProgress && a.token == m.lease.value.token && OpenRows(m, a))
  }

  // ---- Recipients, one at a time ----

  ghost predicate InLast(m: Mail, r: Rid) {
    |m.attempts| > 0 && r in m.attempts[|m.attempts| - 1].lines
  }

  ghost predicate RowOk(m: Mail, r: Rid)
    requires r in m.recipients
  {
    var x := m.recipients[r];
    && x.attempts == Count(m.attempts, r)
    && (x.attempts > 0 ==> x.retryStarted.Some?)
    && (x.retryAt.Some? ==> x.status == TempFailed)
    && (x.status == Queued || x.retryAt.Some? ==> Clear(m, r))
    && (x.status == Sending ==> m.lease.Some? && InLast(m, r))
    && (x.status == Unknown ==> m.lease.None? && LastArmed(m, r) && (r, |m.attempts| - 1) !in m.retries)
    && x.attempts <= MAX_ATTEMPTS + x.manual
    && (x.status == Queued ==> x.attempts < MAX_ATTEMPTS + x.manual)
    && (m.cancelled ==> x.status in {Cancelled, PermFailed, Suppressed, Expired})
    && (!m.cancelled ==> x.status != Cancelled)
    && x.status != RcptOk
  }

  /** A row in doubt was in an attempt whose body was, or may have been, sent. */
  ghost predicate LastArmed(m: Mail, r: Rid) {
    InLast(m, r) && m.attempts[|m.attempts| - 1].armedAt.Some?
  }

  ghost predicate RowsOk(m: Mail) { forall r :: r in m.recipients ==> RowOk(m, r) }

  // ---- History ----

  ghost predicate HistoryOk(m: Mail) {
    forall i, j, r :: 0 <= i < j < |m.attempts| && r in m.attempts[i].lines && r in m.attempts[j].lines ==> Safe(m, i, r)
  }

  /** Operators release only rows that an ended attempt left in doubt. */
  ghost predicate RetriesOk(m: Mail) {
    forall p :: p in m.retries ==>
      && p.1 < |m.attempts| && p.0 in m.attempts[p.1].lines
      && m.attempts[p.1].ending != InProgress
      && m.attempts[p.1].lines[p.0].status == Unknown
  }

  /** A change of provider goes to a new one, and every recipient of that first batch left
      the previous provider without a body having been sent there.  The batches that follow
      are the subject of `QueueFailover`. */
  ghost predicate SwitchOk(attempts: seq<Attempt>, k: nat)
    requires 0 < k < |attempts|
  {
    attempts[k].provider != attempts[k - 1].provider ==>
      && (forall i :: 0 <= i < k ==> attempts[i].provider != attempts[k].provider)
      && (forall r :: r in attempts[k].lines ==>
            MovableFrom(attempts, k, attempts[k - 1].provider, r)
            && !attempts[LastBefore(attempts, k, r).value].body)
  }

  ghost predicate RouteOk(m: Mail) {
    && (m.attempts == [] ==> m.route == None)
    && (m.attempts != [] ==> m.route == Some(m.attempts[|m.attempts| - 1].provider))
    && |Visited(m.attempts)| <= 3
    && forall k :: 0 < k < |m.attempts| ==> SwitchOk(m.attempts, k)
  }

  ghost predicate StatusOk(m: Mail) {
    && (m.status == One(Cancelled) <==> m.cancelled)
    && (m.cancelled ==> m.lease.None? && forall k :: 0 <= k < |m.attempts| ==> !DeliveryEvidence(m.attempts[k]))
    && (m.lease.None? && !m.cancelled ==> m.status == Refresh(m.recipients))
  }

  ghost predicate Inv(m: Mail) {
    && m.recipients.Keys != {}
    && AttemptsOk(m) && LeaseOk(m) && RowsOk(m) && HistoryOk(m) && RetriesOk(m) && RouteOk(m) && StatusOk(m)
  }

  /** The invariant as one closed fact: proofs that only pass it along do not look inside,
      and Unseal opens it where they do. */
  ghost predicate Sound(m: Mail) { forall x: Mail {:trigger Opened(x)} :: x == m ==> Inv(x) }

  ghost predicate Opened(m: Mail) { true }

  lemma Seal(m: Mail)
    requires Inv(m)
    ensures Sound(m)
  {
  }

  lemma Unseal(m: Mail)
    requires Sound(m)
    ensures Inv(m)
  {
    assert Opened(m);
  }

  // ---- How transactions change the attempts ----

  /** Only the open attempt changes, and a reclaimed worker may still be transmitting. */
  ghost predicate Keeps(a: Attempt, b: Attempt) {
    && b.token == a.token && b.provider == a.provider && b.startedAt == a.startedAt && b.lines.Keys == a.lines.Keys
    && (|| b == a
        || a.ending == InProgress
        || (a.ending.ByRecovery? && a.granted && b == a.(body := true)))
  }

  ghost predicate Grows(m: Mail, n: Mail) {
    && |n.attempts| == |m.attempts|
    && n.recipients.Keys == m.recipients.Keys
    && n.scheduleAt == m.scheduleAt && n.expiresAt == m.expiresAt
    && m.clock <= n.clock
    && m.retries <= n.retries
    && forall k :: 0 <= k < |m.attempts| ==> Keeps(m.attempts[k], n.attempts[k])
  }

  lemma {:induction false} CountKeeps(a: seq<Attempt>, b: seq<Attempt>, r: Rid)
    requires |a| == |b| && forall k :: 0 <= k < |a| ==> b[k].lines.Keys == a[k].lines.Keys
    ensures Count(a, r) == Count(b, r)
  {
    if a != [] {
      CountKeeps(a[..|a| - 1], b[..|b| - 1], r);
      assert r in a[|a| - 1].lines <==> r in a[|a| - 1].lines.Keys;
      assert r in b[|b| - 1].lines <==> r in b[|b| - 1].lines.Keys;
    }
  }

  lemma {:induction false} LastBeforeKeeps(a: seq<Attempt>, b: seq<Attempt>, n: nat, r: Rid)
    requires n <= |a| && n <= |b|
    requires forall k :: 0 <= k < n ==> b[k].lines.Keys == a[k].lines.Keys
    ensures LastBefore(a, n, r) == LastBefore(b, n, r)
  {
    if n > 0 {
      assert r in a[n - 1].lines <==> r in a[n - 1].lines.Keys;
      assert r in b[n - 1].lines <==> r in b[n - 1].lines.Keys;
      LastBeforeKeeps(a, b, n - 1, r);
    }
  }

  lemma {:induction false} LastBeforeIsLast(a: seq<Attempt>, n: nat, r: Rid)
    requires n <= |a|
    ensures match LastBefore(a, n, r)
      case None => forall k :: 0 <= k < n ==> r !in a[k].lines
      case Some(i) => i < n && r in a[i].lines && forall k :: i < k < n ==> r !in a[k].lines
  {
    if n > 0 && r !in a[n - 1].lines {
      LastBeforeIsLast(a, n - 1, r);
    }
  }

  lemma VisitedKeeps(a: seq<Attempt>, b: seq<Attempt>)
    requires |a| == |b| && forall k :: 0 <= k < |a| ==> b[k].provider == a[k].provider
    ensures Visited(a) == Visited(b)
  {
    forall p ensures p in Visited(a) <==> p in Visited(b) {
      if p in Visited(a) {
        var k :| 0 <= k < |a| && a[k].provider == p;
        assert b[k].provider == p;
      }
      if p in Visited(b) {
        var k :| 0 <= k < |b| && b[k].provider == p;
        assert a[k].provider == p;
      }
    }
  }

  lemma SafeKeeps(m: Mail, n: Mail, k: nat, r: Rid)
    requires AttemptsOk(m) && Grows(m, n) && Safe(m, k, r)
    ensures Safe(n, k, r)
  {
    assert AttemptOk(m, m.attempts[k]) && Keeps(m.attempts[k], n.attempts[k]);
    assert r in n.attempts[k].lines.Keys;
  }

  lemma ClearKeeps(m: Mail, n: Mail, r: Rid)
    requires AttemptsOk(m) && Grows(m, n) && Clear(m, r)
    ensures Clear(n, r)
  {
    forall k | 0 <= k < |n.attempts| && r in n.attempts[k].lines ensures Safe(n, k, r) {
      assert Keeps(m.attempts[k], n.attempts[k]);
      assert r in m.attempts[k].lines.Keys;
      SafeKeeps(m, n, k, r);
    }
  }

  lemma HistoryKeeps(m: Mail, n: Mail)
    requires AttemptsOk(m) && HistoryOk(m) && Grows(m, n)
    ensures HistoryOk(n)
  {
    forall i, j, r | 0 <= i < j < |n.attempts| && r in n.attempts[i].lines && r in n.attempts[j].lines
      ensures Safe(n, i, r)
    {
      assert Keeps(m.attempts[i], n.attempts[i]) && Keeps(m.attempts[j], n.attempts[j]);
      assert r in m.attempts[i].lines.Keys && r in m.attempts[j].lines.Keys;
      SafeKeeps(m, n, i, r);
    }
  }

  lemma RetriesKeeps(m: Mail, n: Mail)
    requires RetriesOk(m) && Grows(m, n) && n.retries == m.retries
    ensures RetriesOk(n)
  {
    forall p | p in n.retries
      ensures
        && p.1 < |n.attempts| && p.0 in n.attempts[p.1].lines
        && n.attempts[p.1].ending != InProgress && n.attempts[p.1].lines[p.0].status == Unknown
    {
      assert Keeps(m.attempts[p.1], n.attempts[p.1]);
    }
  }

  lemma MovableKeeps(m: Mail, n: Mail, k: nat, p: Pid, r: Rid)
    requires AttemptsOk(m) && Grows(m, n) && k <= |m.attempts|
    requires MovableFrom(m.attempts, k, p, r)
    ensures LastBefore(n.attempts, k, r) == LastBefore(m.attempts, k, r)
    ensures MovableFrom(n.attempts, k, p, r)
    ensures var i := LastBefore(m.attempts, k, r).value; n.attempts[i] == m.attempts[i]
  {
    forall j | 0 <= j < k ensures n.attempts[j].lines.Keys == m.attempts[j].lines.Keys {
      assert Keeps(m.attempts[j], n.attempts[j]);
    }
    LastBeforeKeeps(m.attempts, n.attempts, k, r);
    var i := LastBefore(m.attempts, k, r).value;
    assert AttemptOk(m, m.attempts[i]) && Keeps(m.attempts[i], n.attempts[i]);
  }

  lemma SwitchKeeps(m: Mail, n: Mail, k: nat)
    requires AttemptsOk(m) && Grows(m, n)
    requires 0 < k < |m.attempts| && SwitchOk(m.attempts, k)
    requires forall i :: 0 <= i < |m.attempts| ==> n.attempts[i].provider == m.attempts[i].provider
    ensures SwitchOk(n.attempts, k)
  {
    assert Keeps(m.attempts[k], n.attempts[k]);
    if n.attempts[k].provider != n.attempts[k - 1].provider {
      forall r | r in n.attempts[k].lines
        ensures MovableFrom(n.attempts, k, n.attempts[k - 1].provider, r) && !n.attempts[LastBefore(n.attempts, k, r).value].body
      {
        assert r in m.attempts[k].lines.Keys;
        MovableKeeps(m, n, k, m.attempts[k - 1].provider, r);
      }
    }
  }

  lemma RouteKeeps(m: Mail, n: Mail)
    requires AttemptsOk(m) && RouteOk(m) && Grows(m, n) && n.route == m.route
    ensures RouteOk(n)
  {
    forall k | 0 <= k < |m.attempts| ensures n.attempts[k].provider == m.attempts[k].provider {
      assert Keeps(m.attempts[k], n.attempts[k]);
    }
    VisitedKeeps(m.attempts, n.attempts);
    forall k | 0 < k < |n.attempts| ensures SwitchOk(n.attempts, k) {
      SwitchKeeps(m, n, k);
    }
  }

  /** Attempts that only moved their clock bound stay well formed. */
  lemma AttemptLater(m: Mail, n: Mail, a: Attempt)
    requires AttemptOk(m, a) && m.clock <= n.clock && n.recipients.Keys == m.recipients.Keys
    requires n.scheduleAt == m.scheduleAt && n.expiresAt == m.expiresAt
    ensures AttemptOk(n, a)
  {
  }

  /** Everything about attempts and routes that survives when the changed attempts are
      themselves well formed. */
  lemma GrowthKeeps(m: Mail, n: Mail)
    requires AttemptsOk(m) && HistoryOk(m) && RetriesOk(m) && RouteOk(m) && Grows(m, n) && n.route == m.route
    requires forall k :: 0 <= k < |m.attempts| && n.attempts[k] != m.attempts[k] ==> AttemptOk(n, n.attempts[k])
    ensures AttemptsOk(n) && HistoryOk(n) && RouteOk(n)
    ensures n.retries == m.retries ==> RetriesOk(n)
    ensures forall r :: Count(n.attempts, r) == Count(m.attempts, r)
  {
    HistoryKeeps(m, n);
    RouteKeeps(m, n);
    if n.retries == m.retries { RetriesKeeps(m, n); }
    forall k | 0 <= k < |n.attempts| ensures AttemptOk(n, n.attempts[k]) {
      assert AttemptOk(m, m.attempts[k]);
      if n.attempts[k] == m.attempts[k] {
        AttemptLater(m, n, m.attempts[k]);
      }
    }
    forall i, j | 0 <= i < j < |n.attempts| ensures n.attempts[i].token != n.attempts[j].token {
      assert Keeps(m.attempts[i], n.attempts[i]) && Keeps(m.attempts[j], n.attempts[j]);
    }
    forall r ensures Count(n.attempts, r) == Count(m.attempts, r) {
      forall k | 0 <= k < |m.attempts| ensures n.attempts[k].lines.Keys == m.attempts[k].lines.Keys {
        assert Keeps(m.attempts[k], n.attempts[k]);
      }
      CountKeeps(m.attempts, n.attempts, r);
    }
  }
}
