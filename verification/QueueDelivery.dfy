/** The transactions of a worker (claim, arm, transmit, finish) keep the queue invariant. */
module QueueDelivery {
  import opened Options
  import opened Delivery
  import opened SmtpClient
  import opened Queue
  import opened QueueInvariant
  import opened QueueSteps

  // ---- Claim ----

  lemma CountAppend(a: seq<Attempt>, x: Attempt, r: Rid)
    ensures Count(a + [x], r) == Count(a, r) + (if r in x.lines then 1 else 0)
  {
    assert (a + [x])[..|a|] == a;
  }

  lemma {:induction false} LastBeforePrefix(a: seq<Attempt>, b: seq<Attempt>, n: nat, r: Rid)
    requires n <= |a| <= |b| && forall k :: 0 <= k < n ==> a[k] == b[k]
    ensures LastBefore(a, n, r) == LastBefore(b, n, r)
  {
    if n > 0 { LastBeforePrefix(a, b, n - 1, r); }
  }

  lemma MovablePrefix(a: seq<Attempt>, b: seq<Attempt>, n: nat, p: Pid, r: Rid)
    requires n <= |a| <= |b| && (forall k :: 0 <= k < n ==> a[k] == b[k])
    ensures MovableFrom(a, n, p, r) <==> MovableFrom(b, n, p, r)
    ensures LastBefore(a, n, r) == LastBefore(b, n, r)
  {
    LastBeforePrefix(a, b, n, r);
    LastBeforeIsLast(a, n, r);
  }

  lemma SwitchPrefix(a: seq<Attempt>, b: seq<Attempt>, k: nat)
    requires 0 < k < |a| <= |b| && (forall i :: 0 <= i < |a| ==> a[i] == b[i]) && SwitchOk(a, k)
    ensures SwitchOk(b, k)
  {
    if b[k].provider != b[k - 1].provider {
      forall r | r in b[k].lines ensures MovableFrom(b, k, b[k - 1].provider, r) && !b[LastBefore(b, k, r).value].body {
        MovablePrefix(a, b, k, a[k - 1].provider, r);
      }
    }
  }

  lemma VisitedAppend(a: seq<Attempt>, x: Attempt)
    ensures Visited(a + [x]) == Visited(a) + {x.provider}
  {
    var b := a + [x];
    forall p ensures p in Visited(b) <==> p in Visited(a) + {x.provider} {
      if p in Visited(a) {
        var k :| 0 <= k < |a| && a[k].provider == p;
        assert b[k].provider == p;
      }
      assert b[|a|].provider == x.provider;
    }
  }

  /** The evidence a switch needs implies that no body was sent on the old provider. */
  lemma MovableMeansNoBody(m: Mail, n: nat, p: Pid, r: Rid)
    requires AttemptsOk(m) && n <= |m.attempts| && MovableFrom(m.attempts, n, p, r)
    ensures !m.attempts[LastBefore(m.attempts, n, r).value].body
    ensures m.attempts[LastBefore(m.attempts, n, r).value].ending.ByWorker?
  {
    var i := LastBefore(m.attempts, n, r).value;
    assert AttemptOk(m, m.attempts[i]);
    if m.attempts[i].ending.ByWorker? {
      assert WorkerLine(m.attempts[i], m.attempts[i].lines[r]);
    }
  }

  /** Only rows that are queued are claimed, and a switch takes only movable rows. */
  ghost predicate Takes(cfg: Policy, m: Mail, p: Pid, chosen: set<Rid>, now: Time) {
    && chosen != {} && chosen <= m.recipients.Keys
    && RouteAllowed(cfg, m, p, now)
    && forall r :: r in chosen ==> m.recipients[r].status == Queued
  }

  lemma ClaimVisits(cfg: Policy, m: Mail, p: Pid, x: Attempt, now: Time)
    requires RouteOk(m) && RouteAllowed(cfg, m, p, now) && x.provider == p
    ensures |Visited(m.attempts + [x])| <= 3
  {
    VisitedAppend(m.attempts, x);
    if m.route.Some? && m.route.value == p {
      assert m.attempts[|m.attempts| - 1].provider in Visited(m.attempts);
      assert Visited(m.attempts) + {p} == Visited(m.attempts);
    }
  }

  lemma ClaimRoute(cfg: Policy, m: Mail, p: Pid, token: Token, chosen: set<Rid>, until: Time, now: Time)
    requires AttemptsOk(m) && RouteOk(m) && Takes(cfg, m, p, chosen, now)
    ensures RouteOk(ClaimMail(m, p, token, chosen, until, now))
  {
    var n := ClaimMail(m, p, token, chosen, until, now);
    var x := NewAttempt(p, token, chosen, now);
    ClaimVisits(cfg, m, p, x, now);
    assert n.attempts == m.attempts + [x];
    forall k | 0 < k < |n.attempts| ensures SwitchOk(n.attempts, k) {
      if k < |m.attempts| {
        assert SwitchOk(m.attempts, k);
        SwitchPrefix(m.attempts, n.attempts, k);
      } else if p != n.attempts[k - 1].provider {
        ClaimSwitch(cfg, m, p, token, chosen, until, now);
      }
    }
  }

  lemma MovableRow(m: Mail, r: Rid, now: Time)
    requires SafeFailover(m, now) && r in m.recipients && m.recipients[r].status == Queued
    ensures MovableFrom(m.attempts, |m.attempts|, m.route.value, r)
  {
  }

  lemma ClaimSwitch(cfg: Policy, m: Mail, p: Pid, token: Token, chosen: set<Rid>, until: Time, now: Time)
    requires AttemptsOk(m) && RouteOk(m) && Takes(cfg, m, p, chosen, now)
    requires m.attempts != [] && m.attempts[|m.attempts| - 1].provider != p
    ensures SwitchOk(ClaimMail(m, p, token, chosen, until, now).attempts, |m.attempts|)
  {
    var b := m.attempts + [NewAttempt(p, token, chosen, now)];
    var k := |m.attempts|;
    assert m.route == Some(m.attempts[k - 1].provider);
    assert SafeFailover(m, now) && p !in Visited(m.attempts);
    forall i | 0 <= i < k ensures b[i].provider != b[k].provider {
      assert m.attempts[i].provider in Visited(m.attempts);
    }
    forall r | r in b[k].lines ensures MovableFrom(b, k, b[k - 1].provider, r) && !b[LastBefore(b, k, r).value].body {
      MovableRow(m, r, now);
      MovableMeansNoBody(m, k, m.route.value, r);
      MovablePrefix(m.attempts, b, k, m.route.value, r);
    }
    assert SwitchOk(b, k);
  }

  lemma ClaimHistory(m: Mail, p: Pid, token: Token, chosen: set<Rid>, until: Time, now: Time)
    requires HistoryOk(m) && RowsOk(m) && chosen <= m.recipients.Keys
    requires forall r :: r in chosen ==> m.recipients[r].status == Queued
    ensures HistoryOk(ClaimMail(m, p, token, chosen, until, now))
  {
    var n := ClaimMail(m, p, token, chosen, until, now);
    forall i, j, r | 0 <= i < j < |n.attempts| && r in n.attempts[i].lines && r in n.attempts[j].lines
      ensures Safe(n, i, r)
    {
      if j == |m.attempts| {
        assert RowOk(m, r);
      }
      assert Safe(m, i, r);
    }
  }

  lemma ClaimRow(m: Mail, n: Mail, p: Pid, token: Token, chosen: set<Rid>, until: Time, now: Time, r: Rid)
    requires n == ClaimMail(m, p, token, chosen, until, now) && r in m.recipients && RowOk(m, r)
    requires m.lease.None? && !m.cancelled && m.recipients[r].status !in {Sending, Unknown}
    requires r in chosen ==> m.recipients[r].status == Queued
    ensures RowOk(n, r)
  {
    CountAppend(m.attempts, NewAttempt(p, token, chosen, now), r);
    if r !in chosen && Clear(m, r) {
      forall k | 0 <= k < |n.attempts| && r in n.attempts[k].lines ensures Safe(n, k, r) {
        assert k < |m.attempts| && Safe(m, k, r);
      }
    }
  }

  lemma ClaimAttempts(m: Mail, p: Pid, token: Token, chosen: set<Rid>, until: Time, now: Time)
    requires AttemptsOk(m) && m.clock <= now && chosen != {} && chosen <= m.recipients.Keys
    requires m.scheduleAt.None? || m.scheduleAt.value <= now
    requires forall k :: 0 <= k < |m.attempts| ==> m.attempts[k].token != token
    ensures AttemptsOk(ClaimMail(m, p, token, chosen, until, now))
  {
    var n := ClaimMail(m, p, token, chosen, until, now);
    assert n.recipients.Keys == m.recipients.Keys;
    forall k | 0 <= k < |n.attempts| ensures AttemptOk(n, n.attempts[k]) {
      if k < |m.attempts| {
        AttemptLater(m, n, m.attempts[k]);
      } else {
        assert n.attempts[k].lines.Keys == chosen;
      }
    }
  }

  /** A queued message has no row in doubt and none being sent. */
  lemma QueuedMeansQuiet(m: Mail)
    requires Inv(m) && m.status == One(Queued)
    ensures m.lease.None? && !m.cancelled
    ensures forall r :: r in m.recipients ==> m.recipients[r].status !in {Sending, Unknown}
  {
    assert LeaseOk(m) && StatusOk(m);
    assert !Any(m.recipients, Unknown) && !Any(m.recipients, Sending);
  }

  lemma ClaimKeeps(cfg: Policy, m: Mail, p: Pid, token: Token, limit: nat, chosen: set<Rid>, active: set<Address>, until: Time, now: Time)
    requires Sound(m) && CanClaim(cfg, m, p, limit, chosen, active, now) && m.clock <= now
    requires forall k :: 0 <= k < |m.attempts| ==> m.attempts[k].token != token
    ensures Sound(ClaimMail(m, p, token, chosen, until, now))
  {
    Unseal(m);
    var n := ClaimMail(m, p, token, chosen, until, now);
    QueuedMeansQuiet(m);
    assert RouteOk(n) && RetriesOk(n) by {
      assert Takes(cfg, m, p, chosen, now);
      ClaimRoute(cfg, m, p, token, chosen, until, now);
    }
    assert HistoryOk(n) by { ClaimHistory(m, p, token, chosen, until, now); }
    assert AttemptsOk(n) by { ClaimAttempts(m, p, token, chosen, until, now); }
    assert RowsOk(n) by {
      forall r | r in n.recipients ensures RowOk(n, r) {
        assert RowOk(m, r);
        ClaimRow(m, n, p, token, chosen, until, now, r);
      }
    }
    ClaimLease(m, p, token, chosen, until, now);
    Seal(n);
  }

  lemma ClaimLease(m: Mail, p: Pid, token: Token, chosen: set<Rid>, until: Time, now: Time)
    requires LeaseOk(m) && m.lease.None? && chosen <= m.recipients.Keys
    ensures LeaseOk(ClaimMail(m, p, token, chosen, until, now))
  {
  }

  // ---- The DATA fence and the wire ----

  /** One call of the fence.  The answer can be lost after the commit; only a worker that
      saw it may transmit. */
  function ArmStep(m: Mail, k: nat, token: Token, active: set<Address>, now: Time, seen: bool): Mail {
    var (n, answer) := ArmMail(m, k, token, active, now);
    if answer == Armed && seen && k < |n.attempts| then n.(attempts := n.attempts[k := n.attempts[k].(granted := true)]) else n
  }

  /** The worker of attempt k puts the body on the wire, perhaps after losing its lease. */
  predicate CanTransmit(m: Mail, k: nat) {
    k < |m.attempts| && m.attempts[k].granted && !m.attempts[k].ending.ByWorker?
  }

  function TransmitMail(m: Mail, k: nat): Mail
    requires k < |m.attempts|
  {
    m.(attempts := m.attempts[k := m.attempts[k].(body := true)])
  }

  /** A row changes only when the fence takes it out of the open attempt. */
  ghost predicate FenceRow(x: Recipient, y: Recipient, b: Attempt) {
    y == x || (x.status == Sending && b.suppressed && y == Suppressing(x))
  }

  /** Replacing the open attempt by a version with the same lines. */
  ghost predicate Reopens(m: Mail, n: Mail, b: Attempt) {
    && |m.attempts| > 0
    && var a := m.attempts[|m.attempts| - 1];
    && n.attempts == m.attempts[|m.attempts| - 1 := b]
    && b.lines == a.lines && b.token == a.token && b.provider == a.provider && b.startedAt == a.startedAt
    && a.ending == InProgress && b.ending == InProgress && (a.suppressed ==> b.suppressed)
    && n == m.(attempts := n.attempts, recipients := n.recipients, clock := n.clock)
    && n.recipients.Keys == m.recipients.Keys && m.clock <= n.clock
    && forall r :: r in m.recipients ==> FenceRow(m.recipients[r], n.recipients[r], b)
  }

  lemma OpenRow(m: Mail, n: Mail, b: Attempt, r: Rid)
    requires AttemptsOk(m) && m.lease.Some? && Reopens(m, n, b) && Grows(m, n) && r in m.recipients && RowOk(m, r)
    requires Count(n.attempts, r) == Count(m.attempts, r)
    ensures RowOk(n, r)
  {
    assert FenceRow(m.recipients[r], n.recipients[r], b);
    assert InLast(n, r) <==> InLast(m, r);
    if m.recipients[r].status == Queued || m.recipients[r].retryAt.Some? { ClearKeeps(m, n, r); }
  }

  lemma OpenUpdate(m: Mail, n: Mail, b: Attempt)
    requires Inv(m) && m.lease.Some? && Reopens(m, n, b) && AttemptOk(n, b)
    ensures Sound(n)
  {
    assert Grows(m, n);
    GrowthKeeps(m, n);
    forall r | r in n.recipients ensures RowOk(n, r) {
      assert RowOk(m, r);
      OpenRow(m, n, b, r);
    }
    OpenLease(m, n, b);
    Seal(n);
  }

  lemma OpenLease(m: Mail, n: Mail, b: Attempt)
    requires LeaseOk(m) && m.lease.Some? && Reopens(m, n, b)
    ensures LeaseOk(n)
  {
  }

  lemma OwnedIsLast(m: Mail, k: nat, token: Token)
    requires LeaseOk(m) && Owns(m, k, token)
    ensures m.lease.Some? && k == |m.attempts| - 1
  {
  }

  /** What a fence call can do to the open attempt: block it for good, or arm it. */
  ghost predicate ArmEffect(m: Mail, a: Attempt, b: Attempt, active: set<Address>, now: Time) {
    && a.armedAt.None? && !a.suppressed && !a.expired
    && (|| b == a.(suppressed := true)
        || (b == a.(expired := true) && Elapsed(m.expiresAt, now))
        || (b == a.(armedAt := Some(now), granted := b.granted) && !Elapsed(m.expiresAt, now)
            && forall r :: r in m.recipients && m.recipients[r].status == Sending ==> m.recipients[r].address !in active))
  }

  lemma ArmChanges(m: Mail, k: nat, token: Token, active: set<Address>, now: Time, seen: bool)
    requires ArmStep(m, k, token, active, now, seen) != m
    ensures var n := ArmStep(m, k, token, active, now, seen);
      && Fenced(m, token, true, now) && Owns(m, k, token)
      && |n.attempts| == |m.attempts| && n.attempts == m.attempts[k := n.attempts[k]]
      && ArmEffect(m, m.attempts[k], n.attempts[k], active, now)
      && n == m.(attempts := n.attempts, recipients := n.recipients, clock := now)
      && n.recipients.Keys == m.recipients.Keys
      && forall r :: r in m.recipients ==>
           FenceRow(m.recipients[r], n.recipients[r], n.attempts[k])
  {
  }

  lemma ArmedAttemptOk(m: Mail, n: Mail, a: Attempt, b: Attempt, active: set<Address>, now: Time)
    requires AttemptOk(m, a) && a.ending == InProgress && ArmEffect(m, a, b, active, now)
    requires m.clock <= now && n.clock == now && n.recipients.Keys == m.recipients.Keys
    requires n.scheduleAt == m.scheduleAt && n.expiresAt == m.expiresAt
    ensures AttemptOk(n, b)
  {
  }

  lemma ArmKeeps(m: Mail, k: nat, token: Token, active: set<Address>, now: Time, seen: bool)
    requires Sound(m) && m.clock <= now
    ensures Sound(ArmStep(m, k, token, active, now, seen))
  {
    var n := ArmStep(m, k, token, active, now, seen);
    if n != m {
      Unseal(m);
      ArmChanges(m, k, token, active, now, seen);
      OwnedIsLast(m, k, token);
      ArmedAttemptOk(m, n, m.attempts[k], n.attempts[k], active, now);
      OpenUpdate(m, n, n.attempts[k]);
    }
  }

  lemma TransmitKeeps(m: Mail, k: nat)
    requires Sound(m) && CanTransmit(m, k)
    ensures Sound(TransmitMail(m, k))
  {
    Unseal(m);
    var n := TransmitMail(m, k);
    assert AttemptOk(m, m.attempts[k]);
    assert AttemptOk(n, n.attempts[k]);
    if m.attempts[k].ending == InProgress {
      assert k == |m.attempts| - 1;
      OpenUpdate(m, n, n.attempts[k]);
    } else {
      LateTransmitKeeps(m, k);
    }
  }

  lemma LateRow(m: Mail, n: Mail, r: Rid)
    requires AttemptsOk(m) && Grows(m, n) && r in m.recipients && RowOk(m, r)
    requires n == m.(attempts := n.attempts)
    requires forall k :: 0 <= k < |m.attempts| ==> n.attempts[k] == m.attempts[k] || n.attempts[k] == m.attempts[k].(body := true)
    requires Count(n.attempts, r) == Count(m.attempts, r)
    ensures RowOk(n, r)
  {
    if Clear(m, r) { ClearKeeps(m, n, r); }
  }

  lemma LateGrows(m: Mail, k: nat)
    requires AttemptsOk(m) && HistoryOk(m) && RetriesOk(m) && RouteOk(m)
    requires CanTransmit(m, k) && m.attempts[k].ending.ByRecovery?
    requires AttemptOk(TransmitMail(m, k), TransmitMail(m, k).attempts[k])
    ensures var n := TransmitMail(m, k); Grows(m, n) && AttemptsOk(n) && HistoryOk(n) && RetriesOk(n) && RouteOk(n)
    ensures forall r :: Count(TransmitMail(m, k).attempts, r) == Count(m.attempts, r)
  {
    var n := TransmitMail(m, k);
    assert Grows(m, n);
    GrowthKeeps(m, n);
  }

  lemma LateParts(m: Mail, k: nat)
    requires AttemptsOk(m) && HistoryOk(m) && RetriesOk(m) && RouteOk(m) && RowsOk(m)
    requires CanTransmit(m, k) && m.attempts[k].ending.ByRecovery?
    requires AttemptOk(TransmitMail(m, k), TransmitMail(m, k).attempts[k])
    ensures var n := TransmitMail(m, k); AttemptsOk(n) && HistoryOk(n) && RetriesOk(n) && RouteOk(n) && RowsOk(n)
  {
    var n := TransmitMail(m, k);
    LateGrows(m, k);
    forall r | r in n.recipients ensures RowOk(n, r) {
      LateRow(m, n, r);
    }
  }

  lemma LateTransmitKeeps(m: Mail, k: nat)
    requires Inv(m) && CanTransmit(m, k) && m.attempts[k].ending.ByRecovery?
    requires AttemptOk(TransmitMail(m, k), TransmitMail(m, k).attempts[k])
    ensures Sound(TransmitMail(m, k))
  {
    LateParts(m, k);
    LateLease(m, k);
    assert AttemptOk(m, m.attempts[k]);
    assert !m.cancelled by {
      assert DeliveryEvidence(m.attempts[k]);
    }
    Seal(TransmitMail(m, k));
  }

  lemma LateLease(m: Mail, k: nat)
    requires LeaseOk(m) && CanTransmit(m, k) && m.attempts[k].ending.ByRecovery?
    ensures LeaseOk(TransmitMail(m, k))
  {
  }
}
