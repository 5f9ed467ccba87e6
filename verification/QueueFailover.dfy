/** Failover, recipient by recipient.  A switch of provider is decided once, for the whole
    message, but its recipients follow in batches and some only much later.  What is kept in
    between is that whoever still waits was last tried on the current provider, or left the
    earlier one on recorded evidence that no body was sent. */
module QueueFailover {
  import opened Options
  import opened Delivery
  import opened SmtpClient
  import opened Queue
  import opened QueueInvariant
  import opened QueueSteps
  import opened QueueDelivery
  import opened QueueFinish
  import opened QueueRuns
  import opened QueueSafety

  /** The attempt ended TEMP_FAILED, recorded for the recipient a decision that allows
      failover, and never put a body on the wire. */
  ghost predicate Left(a: Attempt, r: Rid) {
    && a.ending == ByWorker(One(TempFailed)) && !a.body
    && r in a.lines && a.lines[r].status == TempFailed
    && a.lines[r].decision.Some? && MovableDecision(a.lines[r].decision.value)
  }

  /** Whatever comes after n on provider p for the recipient is no unsafe move. */
  ghost predicate MayFollow(attempts: seq<Attempt>, n: nat, p: Pid, r: Rid)
    requires n <= |attempts|
  {
    var i := LastBefore(attempts, n, r);
    i.Some? && i.value < |attempts| && attempts[i.value].provider != p ==> Left(attempts[i.value], r)
  }

  ghost predicate PastMoves(attempts: seq<Attempt>) {
    forall j, r | 0 <= j < |attempts| && r in attempts[j].lines :: MayFollow(attempts, j, attempts[j].provider, r)
  }

  ghost predicate FutureMoves(m: Mail) {
    m.route.Some? ==>
      forall r | r in m.recipients && !Done(m.recipients[r]) :: MayFollow(m.attempts, |m.attempts|, m.route.value, r)
  }

  // ---- What later states keep ----

  lemma FollowKeeps(m: Mail, n: Mail, k: nat, p: Pid, r: Rid)
    requires AllLater(m, n) && k <= |m.attempts| && MayFollow(m.attempts, k, p, r)
    ensures MayFollow(n.attempts, k, p, r)
  {
    forall i | 0 <= i < k ensures n.attempts[i].lines.Keys == m.attempts[i].lines.Keys {
      assert Later(m.attempts[i], n.attempts[i]);
    }
    LastBeforeKeeps(m.attempts, n.attempts, k, r);
    LastBeforeIsLast(m.attempts, k, r);
    var i := LastBefore(m.attempts, k, r);
    if i.Some? { assert Later(m.attempts[i.value], n.attempts[i.value]); }
  }

  lemma PastKeeps(m: Mail, n: Mail)
    requires AllLater(m, n) && PastMoves(m.attempts) && |n.attempts| == |m.attempts|
    ensures PastMoves(n.attempts)
  {
    forall j, r | 0 <= j < |n.attempts| && r in n.attempts[j].lines ensures MayFollow(n.attempts, j, n.attempts[j].provider, r) {
      assert Later(m.attempts[j], n.attempts[j]);
      assert r in n.attempts[j].lines.Keys;
      FollowKeeps(m, n, j, m.attempts[j].provider, r);
    }
  }

  /** The route, the number of attempts and the recipients stay. */
  ghost predicate SamePlan(m: Mail, n: Mail) {
    |n.attempts| == |m.attempts| && n.route == m.route && n.recipients.Keys == m.recipients.Keys
  }

  lemma OthersKeepPlan(m: Mail, s: Step)
    requires !s.Claim? && !s.Resolve?
    ensures SamePlan(m, Next(m, s))
  {
    match s {
      case Arm(k, token, active, now, seen) =>
        if Next(m, s) != m { ArmChanges(m, k, token, active, now, seen); }
      case _ =>
    }
  }

  lemma ResolveKeepsPlan(m: Mail, r: Rid, expected: nat, v: Verdict, acknowledged: bool, active: set<Address>, now: Time)
    requires Sound(m) && CanResolve(m, r, expected, v, acknowledged, active, now)
    ensures SamePlan(m, ResolveMail(m, r, expected, v, now))
  {
    assert m.route == Some(m.attempts[expected].provider) by {
      Unseal(m);
      ResolveKeepsRoute(m, r, expected, v, acknowledged, active, now);
    }
  }

  lemma SoundPlan(m: Mail, s: Step)
    requires Sound(m) && !s.Claim?
    ensures SamePlan(m, Next(m, s))
  {
    if !s.Resolve? {
      OthersKeepPlan(m, s);
    } else if CanResolve(m, s.r, s.expected, s.verdict, s.acknowledged, s.active, s.now) {
      ResolveKeepsPlan(m, s.r, s.expected, s.verdict, s.acknowledged, s.active, s.now);
    }
  }

  // ---- Nobody comes back ----

  lemma ExpiryKeepsDone(m: Mail, now: Time, r: Rid)
    requires r in m.recipients && Done(m.recipients[r])
    ensures Done(ApplyExpiry(m, now).recipients[r])
  {
  }

  lemma FinishKeepsDone(cfg: Policy, m: Mail, k: nat, out: Result, at: Time, digest: Rid -> nat, now: Time, r: Rid)
    requires k < |m.attempts| && DistinctIds(out.rows) && r !in ById(out.rows) && r in m.recipients && Done(m.recipients[r])
    ensures Done(FinishMail(cfg, m, k, out, at, digest, now).recipients[r])
  {
    var n := RecordedMail(cfg, m, k, out, at, digest, now);
    assert n.recipients[r] == m.recipients[r];
    ExpiryKeepsDone(n, now, r);
  }

  lemma ScheduleKeepsDone(cfg: Policy, m: Mail, now: Time, r: Rid)
    requires r in m.recipients && Done(m.recipients[r]) && m.recipients[r].retryAt.None?
    ensures Done(ScheduleMail(cfg, m, now).recipients[r])
  {
    var e := ApplyExpiry(m, now);
    assert e.recipients[r] == m.recipients[r];
    assert ScheduleMail(cfg, m, now).recipients[r] == ScheduleRow(cfg, e.recipients[r], now);
  }

  /** A settled row outside the latest attempt stays settled. */
  lemma DoneStays(m: Mail, s: Step, r: Rid)
    requires LeaseOk(m) && Legal(m, s) && !s.Claim? && r in m.recipients && RowOk(m, r) && Done(m.recipients[r]) && !InLast(m, r)
    requires r in Next(m, s).recipients
    ensures Done(Next(m, s).recipients[r])
  {
    match s {
      case Arm(k, token, active, now, seen) =>
        if Next(m, s) != m {
          ArmChanges(m, k, token, active, now, seen);
          assert FenceRow(m.recipients[r], Next(m, s).recipients[r], Next(m, s).attempts[k]);
        }
      case Finish(cfg, k, token, ids, out, at, digest, now) =>
        if CanFinish(m, k, token, ids, out, now) {
          OwnedIsLast(m, k, token);
          ReportedRows(m, k, token, ids, out);
          FinishKeepsDone(cfg, m, k, out, at, digest, now, r);
        }
      case Schedule(cfg, now) => if CanSchedule(m, now) { ScheduleKeepsDone(cfg, m, now, r); }
      case _ =>
    }
  }

  lemma FutureKeeps(m: Mail, s: Step)
    requires Sound(m) && Legal(m, s) && !s.Claim? && FutureMoves(m)
    ensures FutureMoves(Next(m, s))
  {
    var n := Next(m, s);
    SoundPlan(m, s);
    SoundLater(m, s);
    if n.route.Some? {
      forall r | r in n.recipients && !Done(n.recipients[r]) ensures MayFollow(n.attempts, |n.attempts|, n.route.value, r) {
        WaitingFollows(m, s, r);
        FollowKeeps(m, n, |m.attempts|, m.route.value, r);
      }
    }
  }

  lemma WaitingFollows(m: Mail, s: Step, r: Rid)
    requires Sound(m) && Legal(m, s) && !s.Claim? && FutureMoves(m) && m.route.Some?
    requires r in m.recipients && r in Next(m, s).recipients && !Done(Next(m, s).recipients[r])
    ensures MayFollow(m.attempts, |m.attempts|, m.route.value, r)
  {
    if Done(m.recipients[r]) {
      Unseal(m);
      assert RowOk(m, r);
      if InLast(m, r) {
        assert LastBefore(m.attempts, |m.attempts|, r) == Some(|m.attempts| - 1);
      } else {
        DoneStays(m, s, r);
      }
    }
  }

  // ---- Claims ----

  lemma MovableHasLeft(m: Mail, r: Rid)
    requires AttemptsOk(m) && m.route.Some? && MovableFrom(m.attempts, |m.attempts|, m.route.value, r)
    ensures Left(m.attempts[LastBefore(m.attempts, |m.attempts|, r).value], r)
  {
    MovableMeansNoBody(m, |m.attempts|, m.route.value, r);
    var a := m.attempts[LastBefore(m.attempts, |m.attempts|, r).value];
    assert AttemptOk(m, a);
    assert WorkerLine(a, a.lines[r]);
  }

  /** Whatever provider a claim is allowed to take, everyone who still waits may follow. */
  lemma ClaimLetsFollow(cfg: Policy, m: Mail, p: Pid, now: Time, r: Rid)
    requires AttemptsOk(m) && RouteOk(m) && FutureMoves(m) && RouteAllowed(cfg, m, p, now)
    requires r in m.recipients && !Done(m.recipients[r])
    ensures MayFollow(m.attempts, |m.attempts|, p, r)
  {
    if m.route.Some? && m.route.value != p {
      assert SafeFailover(m, now);
      MovableHasLeft(m, r);
    }
  }

  lemma FollowPrefix(a: seq<Attempt>, b: seq<Attempt>, k: nat, p: Pid, r: Rid)
    requires k <= |a| <= |b| && (forall i :: 0 <= i < |a| ==> b[i] == a[i]) && MayFollow(a, k, p, r)
    ensures MayFollow(b, k, p, r)
  {
    LastBeforePrefix(a, b, k, r);
    LastBeforeIsLast(a, k, r);
  }

  lemma ClaimedPast(m: Mail, x: Attempt)
    requires PastMoves(m.attempts) && forall r | r in x.lines :: MayFollow(m.attempts, |m.attempts|, x.provider, r)
    ensures PastMoves(m.attempts + [x])
  {
    var b := m.attempts + [x];
    forall j, r | 0 <= j < |b| && r in b[j].lines ensures MayFollow(b, j, b[j].provider, r) {
      assert MayFollow(m.attempts, j, b[j].provider, r);
      FollowPrefix(m.attempts, b, j, b[j].provider, r);
    }
  }

  lemma ClaimedFuture(m: Mail, x: Attempt, r: Rid)
    requires MayFollow(m.attempts, |m.attempts|, x.provider, r)
    ensures MayFollow(m.attempts + [x], |m.attempts| + 1, x.provider, r)
  {
    FollowPrefix(m.attempts, m.attempts + [x], |m.attempts|, x.provider, r);
  }

  lemma ClaimMoves(cfg: Policy, m: Mail, p: Pid, token: Token, chosen: set<Rid>, until: Time, now: Time)
    requires AttemptsOk(m) && RouteOk(m) && PastMoves(m.attempts) && FutureMoves(m) && Takes(cfg, m, p, chosen, now)
    ensures var n := ClaimMail(m, p, token, chosen, until, now); PastMoves(n.attempts) && FutureMoves(n)
  {
    var n := ClaimMail(m, p, token, chosen, until, now);
    var x := NewAttempt(p, token, chosen, now);
    forall r | r in m.recipients && !Done(m.recipients[r]) ensures MayFollow(m.attempts, |m.attempts|, p, r) {
      ClaimLetsFollow(cfg, m, p, now, r);
    }
    ClaimedPast(m, x);
    forall r | r in n.recipients && !Done(n.recipients[r]) ensures MayFollow(n.attempts, |n.attempts|, p, r) {
      ClaimedFuture(m, x, r);
    }
  }

  lemma NextMoves(m: Mail, s: Step)
    requires Sound(m) && Legal(m, s) && PastMoves(m.attempts) && FutureMoves(m)
    ensures PastMoves(Next(m, s).attempts) && FutureMoves(Next(m, s))
  {
    if s.Claim? {
      if CanClaim(s.cfg, m, s.p, s.limit, s.chosen, s.active, s.now) {
        assert AttemptsOk(m) && RouteOk(m) by { Unseal(m); }
        ClaimMoves(s.cfg, m, s.p, s.token, s.chosen, s.until, s.now);
      }
    } else {
      SoundPlan(m, s);
      SoundLater(m, s);
      PastKeeps(m, Next(m, s));
      FutureKeeps(m, s);
    }
  }

  // ---- Whole runs ----

  lemma {:induction false} RunMoves(ms: seq<Mail>, ss: seq<Step>, n: nat)
    requires Run(ms, ss) && n < |ms|
    ensures PastMoves(ms[n].attempts) && FutureMoves(ms[n])
  {
    if n > 0 {
      RunMoves(ms, ss, n - 1);
      RunKeeps(ms, ss, n - 1);
      assert StepTo(ms, ss, n);
      NextMoves(ms[n - 1], ss[n - 1]);
    }
  }

  lemma RoutesOf(ms: seq<Mail>, ss: seq<Step>, n: nat, j: nat)
    requires Run(ms, ss) && n < |ms| && 0 < j < |ms[n].attempts|
    ensures SwitchOk(ms[n].attempts, j) && |Visited(ms[n].attempts)| <= 3
  {
    RunInv(ms, ss, n);
  }

  /** In every state of every run: at most three providers were tried, one that was left is
      never tried again, and whenever a recipient's attempt j is on another provider than its
      previous attempt i, attempt i ended TEMP_FAILED with a decision for that recipient that
      allows failover, and put no body on the wire. */
  lemma FailoverIsSafe(ms: seq<Mail>, ss: seq<Step>, n: nat, i: nat, j: nat, r: Rid)
    requires Run(ms, ss) && n < |ms| && i < j < |ms[n].attempts|
    ensures |Visited(ms[n].attempts)| <= 3
    ensures var t := ms[n].attempts;
      t[j].provider != t[j - 1].provider ==> t[j].provider != t[i].provider
    ensures var t := ms[n].attempts;
      r in t[j].lines && LastBefore(t, j, r) == Some(i) && t[i].provider != t[j].provider ==> Left(t[i], r)
  {
    RoutesOf(ms, ss, n, j);
    RunMoves(ms, ss, n);
    var t := ms[n].attempts;
    if r in t[j].lines { assert MayFollow(t, j, t[j].provider, r); }
  }

  /** The first attempt on a new provider carries only recipients whose previous attempt was
      on the provider just left. */
  lemma SwitchCarriesNobodyNew(ms: seq<Mail>, ss: seq<Step>, n: nat, j: nat, r: Rid)
    requires Run(ms, ss) && n < |ms| && 0 < j < |ms[n].attempts| && r in ms[n].attempts[j].lines
    requires ms[n].attempts[j].provider != ms[n].attempts[j - 1].provider
    ensures var i := LastBefore(ms[n].attempts, j, r);
      i.Some? && i.value < j && ms[n].attempts[i.value].provider == ms[n].attempts[j - 1].provider
  {
    RoutesOf(ms, ss, n, j);
    var t := ms[n].attempts;
    assert MovableFrom(t, j, t[j - 1].provider, r);
    LastBeforeIsLast(t, j, r);
  }
}
