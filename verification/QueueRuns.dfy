/** Whole runs of the delivery queue for one message: any interleaving of claims, fence
    calls, transmissions, outcomes, recoveries, schedules, sweeps, resolutions and
    cancellations, with workers that crash, lose answers or come back late. */
module QueueRuns {
  import opened Options
  import opened Delivery
  import opened SmtpClient
  import opened Queue
  import opened QueueInvariant
  import opened QueueSteps
  import opened QueueDelivery
  import opened QueueFinish

  datatype Step =
    | Claim(cfg: Policy, p: Pid, token: Token, limit: nat, chosen: set<Rid>, active: set<Address>, until: Time, now: Time)
    | Arm(k: nat, token: Token, active: set<Address>, now: Time, seen: bool)
    | Wire(k: nat)
    | Finish(cfg: Policy, k: nat, token: Token, ids: seq<Rid>, out: Result, at: Time, digest: Rid -> nat, now: Time)
    | Recover(now: Time)
    | Schedule(cfg: Policy, now: Time)
    | SweepExpired(now: Time)
    | SweepSuppressed(active: set<Address>, now: Time)
    | Resolve(r: Rid, expected: nat, verdict: Verdict, acknowledged: bool, active: set<Address>, now: Time)
    | Withdraw(now: Time)

  /** What the environment owes: the clock does not run backwards, a claim token is
      fresh, and a worker reports its own conversation. */
  ghost predicate Legal(m: Mail, s: Step) {
    match s
    case Claim(_, _, token, _, _, _, _, now) => m.clock <= now && forall k :: 0 <= k < |m.attempts| ==> m.attempts[k].token != token
    case Arm(_, _, _, now, _) => m.clock <= now
    case Wire(_) => true
    case Finish(_, k, token, ids, out, _, _, now) => m.clock <= now && Reports(m, k, token, ids, out)
    case Recover(now) => m.clock <= now
    case Schedule(_, now) => m.clock <= now
    case SweepExpired(now) => m.clock <= now
    case SweepSuppressed(_, now) => m.clock <= now
    case Resolve(_, _, _, _, _, now) => m.clock <= now
    case Withdraw(now) => m.clock <= now
  }

  /** A transaction whose guard fails changes nothing. */
  ghost function Next(m: Mail, s: Step): Mail {
    match s
    case Claim(cfg, p, token, limit, chosen, active, until, now) =>
      if CanClaim(cfg, m, p, limit, chosen, active, now) then ClaimMail(m, p, token, chosen, until, now) else m
    case Arm(k, token, active, now, seen) => ArmStep(m, k, token, active, now, seen)
    case Wire(k) => if CanTransmit(m, k) then TransmitMail(m, k) else m
    case Finish(cfg, k, token, ids, out, at, digest, now) =>
      if CanFinish(m, k, token, ids, out, now) then FinishMail(cfg, m, k, out, at, digest, now) else m
    case Recover(now) => if CanRecover(m, now) then RecoverMail(m, now) else m
    case Schedule(cfg, now) => if CanSchedule(m, now) then ScheduleMail(cfg, m, now) else m
    case SweepExpired(now) => if CanSweepExpired(m, now) then SweepExpiredMail(m, now) else m
    case SweepSuppressed(active, now) => if CanSweepSuppressed(m, active) then SweepSuppressedMail(m, active, now) else m
    case Resolve(r, expected, v, acknowledged, active, now) =>
      if CanResolve(m, r, expected, v, acknowledged, active, now) then ResolveMail(m, r, expected, v, now) else m
    case Withdraw(now) => if CanCancel(m) then CancelMail(m, now) else m
  }

  lemma WorkerStepKeeps(m: Mail, s: Step)
    requires Sound(m) && Legal(m, s) && (s.Claim? || s.Arm? || s.Wire? || s.Finish?)
    ensures Sound(Next(m, s))
  {
    match s {
      case Claim(cfg, p, token, limit, chosen, active, until, now) =>
        if CanClaim(cfg, m, p, limit, chosen, active, now) { ClaimKeeps(cfg, m, p, token, limit, chosen, active, until, now); }
      case Arm(k, token, active, now, seen) =>
        ArmKeeps(m, k, token, active, now, seen);
      case Wire(k) => if CanTransmit(m, k) { TransmitKeeps(m, k); }
      case Finish(cfg, k, token, ids, out, at, digest, now) =>
        if CanFinish(m, k, token, ids, out, now) { FinishKeeps(cfg, m, k, token, ids, out, at, digest, now); }
      case _ =>
    }
  }

  lemma SystemStepKeeps(m: Mail, s: Step)
    requires Sound(m) && Legal(m, s) && !(s.Claim? || s.Arm? || s.Wire? || s.Finish?)
    ensures Sound(Next(m, s))
  {
    match s {
      case Recover(now) => if CanRecover(m, now) { RecoverKeeps(m, now); }
      case Schedule(cfg, now) => if CanSchedule(m, now) { ScheduleKeeps(cfg, m, now); }
      case SweepExpired(now) => if CanSweepExpired(m, now) { SweepExpiredKeeps(m, now); }
      case SweepSuppressed(active, now) => if CanSweepSuppressed(m, active) { SweepSuppressedKeeps(m, active, now); }
      case Resolve(r, expected, v, acknowledged, active, now) =>
        if CanResolve(m, r, expected, v, acknowledged, active, now) { ResolveKeeps(m, r, expected, v, acknowledged, active, now); }
      case Withdraw(now) => if CanCancel(m) { CancelKeeps(m, now); }
      case _ =>
    }
  }

  /** Every step of every run keeps the invariant. */
  lemma NextKeeps(m: Mail, s: Step)
    requires Sound(m) && Legal(m, s)
    ensures Sound(Next(m, s))
  {
    if s.Claim? || s.Arm? || s.Wire? || s.Finish? { WorkerStepKeeps(m, s); } else { SystemStepKeeps(m, s); }
  }

  /** A run: the states and the steps between them, from a freshly enqueued message. */
  ghost predicate Run(ms: seq<Mail>, ss: seq<Step>) {
    && |ms| == |ss| + 1
    && JustEnqueued(ms[0])
    && forall i :: 0 < i < |ms| ==> StepTo(ms, ss, i)
  }

  ghost predicate StepTo(ms: seq<Mail>, ss: seq<Step>, i: nat)
    requires 0 < i < |ms| == |ss| + 1
  {
    Legal(ms[i - 1], ss[i - 1]) && ms[i] == Next(ms[i - 1], ss[i - 1])
  }

  ghost predicate JustEnqueued(m: Mail) {
    exists addresses: map<Rid, Address>, active: set<Address>, scheduleAt: Option<Time>, expiresAt: Option<Time>, now: Time ::
      addresses.Keys != {} && m == Enqueued(addresses, active, scheduleAt, expiresAt, now)
  }

  lemma StepIs(ms: seq<Mail>, ss: seq<Step>, i: nat)
    requires Run(ms, ss) && 0 < i < |ms|
    ensures ms[i] == Next(ms[i - 1], ss[i - 1])
  {
    assert StepTo(ms, ss, i);
  }

  lemma StartsWell(m: Mail)
    requires JustEnqueued(m)
    ensures Sound(m)
  {
    var addresses: map<Rid, Address>, active: set<Address>, scheduleAt: Option<Time>, expiresAt: Option<Time>, now: Time :|
      addresses.Keys != {} && m == Enqueued(addresses, active, scheduleAt, expiresAt, now);
    EnqueueEstablishes(addresses, active, scheduleAt, expiresAt, now);
  }

  lemma StepKeeps(ms: seq<Mail>, ss: seq<Step>, i: nat)
    requires Run(ms, ss) && 0 < i < |ms| && Sound(ms[i - 1])
    ensures Sound(ms[i])
  {
    assert StepTo(ms, ss, i);
    NextKeeps(ms[i - 1], ss[i - 1]);
  }

  /** The invariant holds in every state of every run. */
  lemma {:induction false} RunKeeps(ms: seq<Mail>, ss: seq<Step>, n: nat)
    requires Run(ms, ss) && n < |ms|
    ensures Sound(ms[n])
  {
    if n == 0 {
      StartsWell(ms[0]);
    } else {
      RunKeeps(ms, ss, n - 1);
      StepKeeps(ms, ss, n);
    }
  }

  lemma RunInv(ms: seq<Mail>, ss: seq<Step>, n: nat)
    requires Run(ms, ss) && n < |ms|
    ensures Inv(ms[n])
  {
    RunKeeps(ms, ss, n);
    Unseal(ms[n]);
  }

  /** The steps lead to the message from some enqueue. */
  ghost predicate Reaches(ss: seq<Step>, m: Mail) {
    exists ms :: Run(ms, ss) && ms[|ss|] == m
  }

  lemma ReachesStart(m: Mail)
    requires JustEnqueued(m)
    ensures Reaches([], m)
  {
    assert Run([m], []);
  }

  lemma RunExtends(ms: seq<Mail>, ss: seq<Step>, s: Step, n: Mail)
    requires Run(ms, ss) && Legal(ms[|ss|], s) && n == Next(ms[|ss|], s)
    ensures Run(ms + [n], ss + [s])
  {
    var ns, ts := ms + [n], ss + [s];
    forall i | 0 < i < |ns| ensures StepTo(ns, ts, i) {
      if i < |ms| { assert StepTo(ms, ss, i); }
    }
  }

  lemma ReachesNext(ss: seq<Step>, m: Mail, s: Step)
    requires Reaches(ss, m) && Legal(m, s)
    ensures Reaches(ss + [s], Next(m, s))
  {
    var ms :| Run(ms, ss) && ms[|ss|] == m;
    RunExtends(ms, ss, s, Next(m, s));
    assert (ms + [Next(m, s)])[|ss + [s]|] == Next(m, s);
  }

  lemma ReachesSound(ss: seq<Step>, m: Mail)
    requires Reaches(ss, m)
    ensures Sound(m)
  {
    var ms :| Run(ms, ss) && ms[|ss|] == m;
    RunKeeps(ms, ss, |ss|);
  }
}
