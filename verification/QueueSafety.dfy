/** What holds over whole runs of the delivery queue. */
module QueueSafety {
  import opened Options
  import opened Delivery
  import opened SmtpClient
  import opened Queue
  import opened QueueInvariant
  import opened QueueSteps
  import opened QueueDelivery
  import opened QueueFinish
  import opened QueueRuns

  // ---- Never resend what the remote side may hold ----

  /** The body of the attempt reached the wire and no negative reply covers the recipient. */
  ghost predicate RemoteMayHoldLine(a: Attempt, r: Rid) {
    r in a.lines && a.body && !Refused(a, r)
  }

  /** The earlier of two attempts with the same recipient did not end accepted or refused
      for good; if the remote side may hold the message, or the attempt was left in doubt,
      an operator released exactly that pair. */
  ghost predicate ResendAllowed(m: Mail, i: nat, r: Rid)
    requires i < |m.attempts| && r in m.attempts[i].lines
  {
    var a := m.attempts[i];
    && a.ending != InProgress
    && a.lines[r].status in {TempFailed, Unknown}
    && (RemoteMayHoldLine(a, r) ==> (r, i) in m.retries)
    && (a.lines[r].status == Unknown ==> (r, i) in m.retries)
    && (a.ending.ByRecovery? && a.armedAt.Some? ==> (r, i) in m.retries)
  }

  lemma SafeMeansAllowed(m: Mail, i: nat, r: Rid)
    requires i < |m.attempts| && Safe(m, i, r) && AttemptOk(m, m.attempts[i])
    ensures ResendAllowed(m, i, r)
  {
  }

  /** In every state of every run, whenever a recipient appears in two attempts, sending it
      again after the first was allowed. */
  lemma NoSilentResend(ms: seq<Mail>, ss: seq<Step>, n: nat, i: nat, j: nat, r: Rid)
    requires Run(ms, ss) && n < |ms|
    requires i < j < |ms[n].attempts| && r in ms[n].attempts[i].lines && r in ms[n].attempts[j].lines
    ensures ResendAllowed(ms[n], i, r)
  {
    RunInv(ms, ss, n);
    assert Safe(ms[n], i, r);
    SafeMeansAllowed(ms[n], i, r);
  }

  lemma NextRetries(m: Mail, s: Step)
    ensures Next(m, s).retries == m.retries
      || (s.Resolve? && s.verdict == RetryIt && CanResolve(m, s.r, s.expected, s.verdict, s.acknowledged, s.active, s.now)
          && Next(m, s).retries == m.retries + {(s.r, s.expected)})
  {
  }

  lemma NewRelease(ms: seq<Mail>, ss: seq<Step>, n: nat, r: Rid, k: nat)
    requires Run(ms, ss) && 0 < n < |ms| && (r, k) in ms[n].retries && (r, k) !in ms[n - 1].retries
    ensures var s := ss[n - 1]; s.Resolve? && s.r == r && s.expected == k && s.verdict == RetryIt && s.acknowledged
    ensures var m := ms[n - 1]; r in m.recipients && m.recipients[r].status == Unknown && m.lease.None? && k == |m.attempts| - 1
  {
    StepIs(ms, ss, n);
    RunKeeps(ms, ss, n - 1);
    ReleaseStep(ms[n - 1], ss[n - 1], ms[n], r, k);
  }

  lemma ReleaseStep(m: Mail, s: Step, n: Mail, r: Rid, k: nat)
    requires Sound(m) && n == Next(m, s) && (r, k) in n.retries && (r, k) !in m.retries
    ensures s.Resolve? && s.r == r && s.expected == k && s.verdict == RetryIt && s.acknowledged
    ensures r in m.recipients && m.recipients[r].status == Unknown && m.lease.None? && k == |m.attempts| - 1
  {
    Unseal(m);
    NextRetries(m, s);
    ResolveKeepsRoute(m, r, k, s.verdict, s.acknowledged, s.active, s.now);
  }

  /** A released pair is the work of an acknowledged operator retry earlier in the run. */
  lemma {:induction false} ReleasesAreAcknowledged(ms: seq<Mail>, ss: seq<Step>, n: nat, r: Rid, k: nat) returns (t: nat)
    requires Run(ms, ss) && n < |ms| && (r, k) in ms[n].retries
    ensures t < n && ss[t].Resolve? && ss[t].r == r && ss[t].expected == k
    ensures ss[t].verdict == RetryIt && ss[t].acknowledged
    ensures r in ms[t].recipients && ms[t].recipients[r].status == Unknown
    ensures ms[t].lease.None? && k == |ms[t].attempts| - 1
  {
    assert n > 0;
    if (r, k) in ms[n - 1].retries {
      t := ReleasesAreAcknowledged(ms, ss, n - 1, r, k);
    } else {
      t := n - 1;
      NewRelease(ms, ss, n, r, k);
    }
  }

  // ---- Attempts are append-only and end once ----

  /** How a later state may differ about one attempt. */
  ghost predicate Later(a: Attempt, b: Attempt) {
    && b.token == a.token && b.provider == a.provider && b.startedAt == a.startedAt && b.lines.Keys == a.lines.Keys
    && (a.armedAt.Some? ==> b.armedAt == a.armedAt)
    && (a.suppressed || a.expired ==> b.armedAt.None? && b.suppressed == a.suppressed && b.expired == a.expired)
    && (a.ending != InProgress ==> b == a.(body := b.body))
    && (a.ending.ByWorker? ==> b == a)
    && (a.body ==> b.body)
  }

  ghost predicate AllLater(m: Mail, n: Mail) {
    |m.attempts| <= |n.attempts| && forall k :: 0 <= k < |m.attempts| ==> Later(m.attempts[k], n.attempts[k])
  }

  ghost predicate SameArming(m: Mail, n: Mail) {
    |m.attempts| <= |n.attempts| && forall k :: 0 <= k < |m.attempts| ==> n.attempts[k].armedAt == m.attempts[k].armedAt
  }

  lemma SelfLater(m: Mail, k: nat)
    requires AttemptsOk(m) && k < |m.attempts|
    ensures Later(m.attempts[k], m.attempts[k])
  {
    assert AttemptOk(m, m.attempts[k]);
  }

  lemma SameLater(m: Mail, n: Mail)
    requires AttemptsOk(m) && n.attempts == m.attempts
    ensures AllLater(m, n) && SameArming(m, n)
  {
    forall k | 0 <= k < |m.attempts| ensures Later(m.attempts[k], n.attempts[k]) { SelfLater(m, k); }
  }

  /** A step that replaces one attempt. */
  lemma OneLater(m: Mail, n: Mail, k: nat)
    requires AttemptsOk(m) && k < |m.attempts| == |n.attempts|
    requires n.attempts == m.attempts[k := n.attempts[k]] && Later(m.attempts[k], n.attempts[k])
    ensures AllLater(m, n)
    ensures n.attempts[k].armedAt == m.attempts[k].armedAt ==> SameArming(m, n)
  {
    forall i | 0 <= i < |m.attempts| ensures Later(m.attempts[i], n.attempts[i]) { SelfLater(m, i); }
  }

  lemma ClaimLater(m: Mail, p: Pid, token: Token, chosen: set<Rid>, until: Time, now: Time)
    requires AttemptsOk(m)
    ensures AllLater(m, ClaimMail(m, p, token, chosen, until, now)) && SameArming(m, ClaimMail(m, p, token, chosen, until, now))
  {
    var n := ClaimMail(m, p, token, chosen, until, now);
    forall k | 0 <= k < |m.attempts| ensures Later(m.attempts[k], n.attempts[k]) { SelfLater(m, k); }
  }

  lemma ArmLater(m: Mail, k: nat, token: Token, active: set<Address>, now: Time, seen: bool)
    requires AttemptsOk(m)
    ensures AllLater(m, ArmStep(m, k, token, active, now, seen))
  {
    var n := ArmStep(m, k, token, active, now, seen);
    if n != m {
      ArmChanges(m, k, token, active, now, seen);
      assert AttemptOk(m, m.attempts[k]);
      OneLater(m, n, k);
    } else {
      SameLater(m, n);
    }
  }

  lemma FinishLater(cfg: Policy, m: Mail, k: nat, out: Result, at: Time, digest: Rid -> nat, now: Time)
    requires AttemptsOk(m) && k < |m.attempts| && m.attempts[k].ending == InProgress && DistinctIds(out.rows)
    ensures var n := FinishMail(cfg, m, k, out, at, digest, now); AllLater(m, n) && SameArming(m, n)
  {
    var n := FinishMail(cfg, m, k, out, at, digest, now);
    assert AttemptOk(m, m.attempts[k]);
    assert n.attempts == m.attempts[k := FinishedAttempt(cfg, m, m.attempts[k], out, at, digest)];
    assert n.attempts[k].lines.Keys == m.attempts[k].lines.Keys;
    OneLater(m, n, k);
  }

  lemma RecoverLater(m: Mail, now: Time)
    requires AttemptsOk(m) && CanRecover(m, now)
    ensures AllLater(m, RecoverMail(m, now)) && SameArming(m, RecoverMail(m, now))
  {
    var k := |m.attempts| - 1;
    assert AttemptOk(m, m.attempts[k]);
    assert RecoverMail(m, now).attempts == m.attempts[k := RecoveredAttempt(m.attempts[k], now)];
    OneLater(m, RecoverMail(m, now), k);
  }

  lemma WireLater(m: Mail, k: nat)
    requires AttemptsOk(m) && CanTransmit(m, k)
    ensures AllLater(m, TransmitMail(m, k)) && SameArming(m, TransmitMail(m, k))
  {
    assert AttemptOk(m, m.attempts[k]);
    OneLater(m, TransmitMail(m, k), k);
  }

  lemma NextLater(m: Mail, s: Step)
    requires AttemptsOk(m)
    ensures AllLater(m, Next(m, s))
    ensures !s.Arm? ==> SameArming(m, Next(m, s))
  {
    match s {
      case Claim(cfg, p, token, limit, chosen, active, until, now) =>
        ClaimLater(m, p, token, chosen, until, now);
        SameLater(m, m);
      case Arm(k, token, active, now, seen) => ArmLater(m, k, token, active, now, seen);
      case Wire(k) => if CanTransmit(m, k) { WireLater(m, k); } else { SameLater(m, m); }
      case Finish(cfg, k, token, ids, out, at, digest, now) =>
        if CanFinish(m, k, token, ids, out, now) { FinishLater(cfg, m, k, out, at, digest, now); } else { SameLater(m, m); }
      case Recover(now) => if CanRecover(m, now) { RecoverLater(m, now); } else { SameLater(m, m); }
      case _ =>
        assert Next(m, s).attempts == m.attempts;
        SameLater(m, Next(m, s));
    }
  }

  lemma SoundLater(m: Mail, s: Step)
    requires Sound(m)
    ensures AllLater(m, Next(m, s))
    ensures !s.Arm? ==> SameArming(m, Next(m, s))
  {
    Unseal(m);
    NextLater(m, s);
  }

  lemma LaterTransitive(m: Mail, n: Mail, o: Mail)
    requires AllLater(m, n) && AllLater(n, o)
    ensures AllLater(m, o)
  {
    forall k | 0 <= k < |m.attempts| ensures Later(m.attempts[k], o.attempts[k]) {
      assert Later(m.attempts[k], n.attempts[k]) && Later(n.attempts[k], o.attempts[k]);
    }
  }

  lemma StepLater(ms: seq<Mail>, ss: seq<Step>, t: nat)
    requires Run(ms, ss) && 0 < t < |ms|
    ensures AllLater(ms[t - 1], ms[t])
  {
    StepIs(ms, ss, t);
    RunKeeps(ms, ss, t - 1);
    SoundLater(ms[t - 1], ss[t - 1]);
  }

  lemma StillLater(ms: seq<Mail>, ss: seq<Step>, n: nat)
    requires Run(ms, ss) && n < |ms|
    ensures AllLater(ms[n], ms[n])
  {
    RunInv(ms, ss, n);
    SameLater(ms[n], ms[n]);
  }

  /** Over any stretch of a run each attempt is armed at most once, a blocked one never,
      and it ends once: by its worker or by recovery, with lines that never change again. */
  lemma {:induction false} AttemptsEndOnce(ms: seq<Mail>, ss: seq<Step>, n: nat, o: nat)
    requires Run(ms, ss) && n <= o < |ms|
    ensures AllLater(ms[n], ms[o])
    decreases o
  {
    if n == o {
      StillLater(ms, ss, n);
    } else {
      AttemptsEndOnce(ms, ss, n, o - 1);
      StepLater(ms, ss, o);
      LaterTransitive(ms[n], ms[o - 1], ms[o]);
    }
  }

  // ---- What was asked for ----

  /** Schedule, deadline, recipients and their addresses. */
  ghost predicate SameTerms(m: Mail, n: Mail) {
    && n.scheduleAt == m.scheduleAt && n.expiresAt == m.expiresAt && n.recipients.Keys == m.recipients.Keys
    && forall r | r in m.recipients :: n.recipients[r].address == m.recipients[r].address
  }

  lemma FinishTerms(cfg: Policy, m: Mail, k: nat, out: Result, at: Time, digest: Rid -> nat, now: Time)
    requires k < |m.attempts| && DistinctIds(out.rows)
    ensures SameTerms(m, FinishMail(cfg, m, k, out, at, digest, now))
  {
    var e := RecordedMail(cfg, m, k, out, at, digest, now);
    assert SameTerms(m, e);
    assert SameTerms(e, ApplyExpiry(e, now));
  }

  lemma RecoverTerms(m: Mail, now: Time)
    requires CanRecover(m, now)
    ensures SameTerms(m, RecoverMail(m, now))
  {
    var e := ReclaimedMail(m, now);
    assert SameTerms(m, e);
    assert SameTerms(e, ApplyExpiry(e, now));
  }

  lemma ScheduleTerms(cfg: Policy, m: Mail, now: Time)
    ensures SameTerms(m, ScheduleMail(cfg, m, now))
  {
    assert SameTerms(m, ApplyExpiry(m, now));
  }

  /** No transaction changes what was asked for. */
  lemma NextTerms(m: Mail, s: Step)
    ensures SameTerms(m, Next(m, s))
  {
    match s {
      case Arm(k, token, active, now, seen) => if Next(m, s) != m { ArmChanges(m, k, token, active, now, seen); }
      case Finish(cfg, k, token, ids, out, at, digest, now) =>
        if CanFinish(m, k, token, ids, out, now) { FinishTerms(cfg, m, k, out, at, digest, now); }
      case Recover(now) => if CanRecover(m, now) { RecoverTerms(m, now); }
      case Schedule(cfg, now) => ScheduleTerms(cfg, m, now);
      case _ =>
    }
  }

  // ---- Fencing ----

  lemma FenceOf(m: Mail, k: nat)
    requires AttemptsOk(m) && LeaseOk(m) && k < |m.attempts|
    ensures FenceHolds(m, k)
  {
    if m.lease.Some? && k < |m.attempts| - 1 { assert m.attempts[k].token != m.attempts[|m.attempts| - 1].token; }
  }

  /** The fence as one fact about a message and one of its attempts. */
  ghost predicate FenceHolds(m: Mail, k: nat)
    requires k < |m.attempts|
  {
    && (m.status == One(Sending) <==> m.lease.Some?)
    && (m.attempts[k].ending == InProgress <==> m.lease.Some? && m.lease.value.token == m.attempts[k].token)
    && (m.lease.Some? ==> m.attempts[|m.attempts| - 1].ending == InProgress)
    && (forall i :: 0 <= i < |m.attempts| && m.attempts[i].ending == InProgress && m.attempts[k].ending == InProgress ==> i == k)
  }

  lemma SoundFence(m: Mail, k: nat)
    requires Sound(m) && k < |m.attempts|
    ensures FenceHolds(m, k)
  {
    Unseal(m);
    FenceOf(m, k);
  }

  /** SENDING, the token and the open attempt are one fact. */
  lemma FenceIsExact(ms: seq<Mail>, ss: seq<Step>, n: nat, k: nat)
    requires Run(ms, ss) && n < |ms| && k < |ms[n].attempts|
    ensures FenceHolds(ms[n], k)
  {
    RunKeeps(ms, ss, n);
    SoundFence(ms[n], k);
  }

  /** Once an attempt has ended, its token opens nothing, ever: no arming, no event, no
      outcome. */
  lemma EndedWorkerIsPowerless(ms: seq<Mail>, ss: seq<Step>, n: nat, o: nat, k: nat, active: set<Address>, now: Time, live: bool)
    requires Run(ms, ss) && n <= o < |ms| && k < |ms[n].attempts| && ms[n].attempts[k].ending != InProgress
    ensures k < |ms[o].attempts|
    ensures var token := ms[n].attempts[k].token;
      && !Fenced(ms[o], token, live, now)
      && ArmMail(ms[o], k, token, active, now) == (ms[o], LeaseLost)
      && (forall ids, out, at :: !CanFinish(ms[o], k, token, ids, out, at))
  {
    AttemptsEndOnce(ms, ss, n, o);
    assert Later(ms[n].attempts[k], ms[o].attempts[k]);
    FenceIsExact(ms, ss, o, k);
  }

  // ---- Reports ----

  /** What the worker of attempt k was told and did stays as it is. */
  ghost predicate SameFlags(m: Mail, n: Mail, k: nat) {
    k < |m.attempts| <= |n.attempts| && n.attempts[k].granted == m.attempts[k].granted && n.attempts[k].body == m.attempts[k].body
  }

  lemma OthersKeepFlags(m: Mail, s: Step, k: nat)
    requires k < |m.attempts| && !(s.Arm? && s.k == k) && !(s.Wire? && s.k == k)
    ensures SameFlags(m, Next(m, s), k)
  {
    match s {
      case Arm(j, token, active, now, seen) => { if ArmStep(m, j, token, active, now, seen) != m { ArmChanges(m, j, token, active, now, seen); } }
      case _ =>
    }
  }

  /** A worker's report stays legal through everything anybody else does, until the worker
      gets to record it: the fence decides then whether it still counts. */
  lemma ReportsStay(m: Mail, s: Step, k: nat, token: Token, ids: seq<Rid>, out: Result)
    requires Sound(m) && Reports(m, k, token, ids, out) && !(s.Arm? && s.k == k) && !(s.Wire? && s.k == k)
    ensures Reports(Next(m, s), k, token, ids, out)
  {
    SoundLater(m, s);
    OthersKeepFlags(m, s, k);
    assert Later(m.attempts[k], Next(m, s).attempts[k]);
    forall r ensures r in m.attempts[k].lines <==> r in Next(m, s).attempts[k].lines {
      assert r in m.attempts[k].lines.Keys <==> r in Next(m, s).attempts[k].lines.Keys;
    }
  }

  // ---- The gates that guard DATA ----

  /** An arming is the work of a fence call on a live lease, inside the schedule and before
      the deadline, with none of the attempt's recipients suppressed at that instant. */
  lemma ArmingPassedEveryGate(ms: seq<Mail>, ss: seq<Step>, n: nat, k: nat)
    requires Run(ms, ss) && n < |ss|
    requires k < |ms[n].attempts| && ms[n].attempts[k].armedAt.None?
    requires k < |ms[n + 1].attempts| && ms[n + 1].attempts[k].armedAt.Some?
    ensures ss[n].Arm? && ss[n].k == k && ms[n + 1].attempts[k].armedAt == Some(ss[n].now)
    ensures ms[n].lease.Some? && ms[n].lease.value.until > ss[n].now
    ensures ms[n].scheduleAt.Some? ==> ms[n].scheduleAt.value <= ss[n].now
    ensures ms[n].expiresAt.Some? ==> ss[n].now < ms[n].expiresAt.value
    ensures forall r :: r in ms[n].attempts[k].lines ==> r in ms[n].recipients && ms[n].recipients[r].address !in ss[n].active
  {
    assert StepTo(ms, ss, n + 1);
    RunKeeps(ms, ss, n);
    SoundLater(ms[n], ss[n]);
    var s := ss[n];
    assert s.Arm?;
    Unseal(ms[n]);
    ArmingGates(ms[n], k, s.k, s.token, s.active, s.now, s.seen);
  }

  lemma ArmingGates(m: Mail, k: nat, j: nat, token: Token, active: set<Address>, now: Time, seen: bool)
    requires AttemptsOk(m) && LeaseOk(m) && m.clock <= now
    requires k < |m.attempts| && m.attempts[k].armedAt.None?
    requires var n := ArmStep(m, j, token, active, now, seen); k < |n.attempts| && n.attempts[k].armedAt.Some?
    ensures j == k && ArmStep(m, j, token, active, now, seen).attempts[k].armedAt == Some(now)
    ensures m.lease.Some? && m.lease.value.until > now
    ensures m.scheduleAt.Some? ==> m.scheduleAt.value <= now
    ensures m.expiresAt.Some? ==> now < m.expiresAt.value
    ensures forall r :: r in m.attempts[k].lines ==> r in m.recipients && m.recipients[r].address !in active
  {
    ArmChanges(m, j, token, active, now, seen);
    OwnedIsLast(m, j, token);
    assert AttemptOk(m, m.attempts[k]);
    forall r | r in m.attempts[k].lines ensures r in m.recipients && m.recipients[r].address !in active {
      assert r in m.attempts[k].lines.Keys;
      assert OpenRows(m, m.attempts[k]);
    }
  }

  /** Every armed attempt respects the schedule and the deadline; a blocked attempt is not
      armed and its recipients never end accepted or in doubt. */
  lemma GatesHold(ms: seq<Mail>, ss: seq<Step>, n: nat, k: nat)
    requires Run(ms, ss) && n < |ms| && k < |ms[n].attempts|
    ensures var m, a := ms[n], ms[n].attempts[k];
      && (a.armedAt.Some? && m.scheduleAt.Some? ==> m.scheduleAt.value <= a.armedAt.value)
      && (a.armedAt.Some? && m.expiresAt.Some? ==> a.armedAt.value < m.expiresAt.value)
      && (a.body ==> a.armedAt.Some?)
      && (a.suppressed || a.expired ==>
            && a.armedAt.None? && !a.body
            && forall r :: r in a.lines ==> a.lines[r].status !in {Accepted, Unknown})
  {
    RunInv(ms, ss, n);
    var m, a := ms[n], ms[n].attempts[k];
    assert AttemptOk(m, a);
    forall r | r in a.lines && (a.suppressed || a.expired) ensures a.lines[r].status !in {Accepted, Unknown} {
      if a.ending.ByWorker? { assert WorkerLine(a, a.lines[r]); }
    }
  }

  // ---- Failover ----

  /** The audit evidence a switch records is always complete: every claimed recipient has
      an earlier attempt, on another provider. */
  lemma FailoverEvidenceComplete(ms: seq<Mail>, ss: seq<Step>, n: nat, r: Rid)
    requires Run(ms, ss) && n < |ss| && ss[n].Claim?
    requires var s := ss[n]; CanClaim(s.cfg, ms[n], s.p, s.limit, s.chosen, s.active, s.now)
    requires ms[n].route.Some? && ms[n].route.value != ss[n].p && r in ss[n].chosen
    ensures var k := LastBefore(ms[n].attempts, |ms[n].attempts|, r);
      k.Some? && k.value < |ms[n].attempts| && ms[n].attempts[k.value].provider != ss[n].p
  {
    var m, s := ms[n], ss[n];
    assert SafeFailover(m, s.now);
    MovableRow(m, r, s.now);
  }

  // ---- Projection ----

  lemma ProjectionOf(m: Mail)
    requires LeaseOk(m) && StatusOk(m)
    ensures m.lease.None? && !m.cancelled ==> m.status == Refresh(m.recipients)
    ensures m.status == One(Queued) ==> m.lease.None? && !Any(m.recipients, Unknown) && !Any(m.recipients, Sending)
    ensures m.status == One(Queued) ==> Any(m.recipients, Queued)
  {
  }

  /** Between transactions an unlocked message shows exactly the projection of its
      recipients, and a claim finds none in doubt and none being sent. */
  lemma ProjectionAgrees(ms: seq<Mail>, ss: seq<Step>, n: nat)
    requires Run(ms, ss) && n < |ms|
    ensures var m := ms[n];
      && (m.lease.None? && !m.cancelled ==> m.status == Refresh(m.recipients))
      && (m.status == One(Queued) ==> m.lease.None? && !Any(m.recipients, Unknown) && !Any(m.recipients, Sending))
      && (m.status == One(Queued) ==> Any(m.recipients, Queued))
  {
    RunInv(ms, ss, n);
    ProjectionOf(ms[n]);
  }

  ghost predicate Has(rs: map<Rid, Recipient>, ss: set<Status>) { exists r | r in rs :: rs[r].status in ss }

  ghost predicate Only(rs: map<Rid, Recipient>, ss: set<Status>) { forall r | r in rs :: rs[r].status in ss }

  /** When each status is shown, by the rows alone. */
  ghost predicate Shows(rs: map<Rid, Recipient>, s: Summary) { ShowsOpen(rs, s) && ShowsUniform(rs, s) && ShowsMixed(rs, s) }

  ghost predicate ShowsOpen(rs: map<Rid, Recipient>, s: Summary) {
    && (s == One(Unknown) <==> Has(rs, {Unknown}))
    && (s == One(Sending) <==> Has(rs, {Sending}) && !Has(rs, {Unknown}))
    && (s == One(Queued) <==> Has(rs, {Queued}) && !Has(rs, {Unknown, Sending}))
  }

  ghost predicate ShowsUniform(rs: map<Rid, Recipient>, s: Summary) {
    && (s == One(Expired) <==> Only(rs, {Expired}))
    && (s == One(Suppressed) <==> Only(rs, {Suppressed}))
    && (s == One(Delivered) <==> Only(rs, {Delivered}))
    && (s == One(Accepted) <==> Only(rs, {Accepted, Delivered}) && Has(rs, {Accepted}))
  }

  ghost predicate ShowsMixed(rs: map<Rid, Recipient>, s: Summary) {
    var open, taken := {Unknown, Sending, Queued}, {Accepted, Delivered};
    && (s == Partial <==> !Has(rs, open) && Has(rs, taken) && !Only(rs, taken))
    && (s == One(TempFailed) <==> !Has(rs, open + taken) && Has(rs, {TempFailed}))
    && (s == One(PermFailed) <==> !Has(rs, open + taken + {TempFailed}) && !Only(rs, {Expired}) && !Only(rs, {Suppressed}))
    && (s == Partial || (s.One? && s.status in open + taken + {Expired, Suppressed, TempFailed, PermFailed}))
  }

  lemma RefreshShowsOpen(rs: map<Rid, Recipient>)
    ensures ShowsOpen(rs, Refresh(rs))
  {
  }

  lemma RefreshShowsUniform(rs: map<Rid, Recipient>, r: Rid)
    requires r in rs
    ensures ShowsUniform(rs, Refresh(rs))
  {
  }

  lemma RefreshShowsMixed(rs: map<Rid, Recipient>, r: Rid)
    requires r in rs
    ensures ShowsMixed(rs, Refresh(rs))
  {
  }

  lemma RefreshShows(rs: map<Rid, Recipient>)
    requires rs.Keys != {}
    ensures Shows(rs, Refresh(rs))
  {
    var r :| r in rs.Keys;
    RefreshShowsOpen(rs);
    RefreshShowsUniform(rs, r);
    RefreshShowsMixed(rs, r);
  }

  /** In every state of every run: a locked message shows SENDING, a cancelled one CANCELLED,
      and any other exactly what its recipients add up to. */
  lemma ProjectionIsExact(ms: seq<Mail>, ss: seq<Step>, n: nat)
    requires Run(ms, ss) && n < |ms|
    ensures var m := ms[n];
      if m.cancelled then m.status == One(Cancelled)
      else if m.lease.Some? then m.status == One(Sending)
      else Shows(m.recipients, m.status) && !Has(m.recipients, {Sending})
  {
    RunKeeps(ms, ss, n);
    SoundShows(ms[n]);
  }

  lemma SoundShows(m: Mail)
    requires Sound(m)
    ensures if m.cancelled then m.status == One(Cancelled)
      else if m.lease.Some? then m.status == One(Sending)
      else Shows(m.recipients, m.status) && !Has(m.recipients, {Sending})
  {
    Unseal(m);
    RefreshShows(m.recipients);
    forall r | r in m.recipients ensures m.lease.None? ==> m.recipients[r].status != Sending { assert RowOk(m, r); }
  }

  // ---- Cancellation ----

  lemma CancelledHasNoWork(m: Mail)
    requires Inv(m) && m.cancelled
    ensures m.lease.None? && m.status == One(Cancelled)
    ensures forall k :: 0 <= k < |m.attempts| ==> !m.attempts[k].granted && m.attempts[k].armedAt.None? && !m.attempts[k].body
    ensures forall r :: r in m.recipients ==> m.recipients[r].status !in {Queued, TempFailed, Sending, Unknown}
  {
    forall k | 0 <= k < |m.attempts| ensures !m.attempts[k].granted && m.attempts[k].armedAt.None? && !m.attempts[k].body {
      assert AttemptOk(m, m.attempts[k]);
      assert !DeliveryEvidence(m.attempts[k]);
    }
    forall r | r in m.recipients ensures m.recipients[r].status !in {Queued, TempFailed, Sending, Unknown} {
      assert RowOk(m, r);
    }
  }

  /** What a cancelled message looks like to every transaction. */
  ghost predicate Inert(m: Mail) {
    && m.lease.None? && m.status == One(Cancelled)
    && (forall k :: 0 <= k < |m.attempts| ==> !m.attempts[k].granted && m.attempts[k].ending != InProgress)
    && (forall r :: r in m.recipients ==> m.recipients[r].status !in {Queued, TempFailed, Sending, Unknown})
  }

  lemma InertStep(m: Mail, s: Step)
    requires Inert(m)
    ensures Next(m, s) == m
  {
  }

  /** A cancelled message is final: no transaction changes it again. */
  lemma CancelledIsFinal(m: Mail, s: Step)
    requires Sound(m) && m.cancelled
    ensures Next(m, s) == m
  {
    assert Inert(m) by {
      Unseal(m);
      CancelledHasNoWork(m);
    }
    InertStep(m, s);
  }

  lemma {:induction false} CancelledStays(ms: seq<Mail>, ss: seq<Step>, n: nat, o: nat)
    requires Run(ms, ss) && n <= o < |ms| && ms[n].cancelled
    ensures ms[o] == ms[n]
    decreases o
  {
    if n < o {
      CancelledStays(ms, ss, n, o - 1);
      RunKeeps(ms, ss, o - 1);
      StepIs(ms, ss, o);
      CancelledIsFinal(ms[o - 1], ss[o - 1]);
    }
  }

  /** It was never armed, and never will be. */
  lemma CancelledNeverArmed(ms: seq<Mail>, ss: seq<Step>, n: nat, o: nat)
    requires Run(ms, ss) && n <= o < |ms| && ms[n].cancelled
    ensures ms[o] == ms[n]
    ensures forall k :: 0 <= k < |ms[o].attempts| ==> ms[o].attempts[k].armedAt.None? && !ms[o].attempts[k].body
  {
    CancelledStays(ms, ss, n, o);
    RunInv(ms, ss, n);
    CancelledHasNoWork(ms[n]);
  }
}
