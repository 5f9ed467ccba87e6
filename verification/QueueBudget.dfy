/** The attempt budget over whole runs. */
module QueueBudget {
  import opened Options
  import opened Delivery
  import opened SmtpClient
  import opened Queue
  import opened QueueInvariant
  import opened QueueSteps
  import opened QueueDelivery
  import opened QueueFinish
  import opened QueueRuns
  import opened QueueSafety

  // ---- Acknowledged retries, counted ----

  ghost function Released(m: Mail, r: Rid): set<(Rid, nat)> {
    set p | p in m.retries && p.0 == r
  }

  /** The counter on the row is the number of acknowledged operator retries. */
  ghost predicate ManualOk(m: Mail) {
    forall r :: r in m.recipients ==> m.recipients[r].manual == |Released(m, r)|
  }

  ghost predicate SameManual(m: Mail, n: Mail) {
    n.retries == m.retries && n.recipients.Keys == m.recipients.Keys
    && forall r :: r in m.recipients ==> n.recipients[r].manual == m.recipients[r].manual
  }

  lemma FinishManual(cfg: Policy, m: Mail, k: nat, out: Result, at: Time, digest: Rid -> nat, now: Time)
    requires k < |m.attempts| && DistinctIds(out.rows)
    ensures SameManual(m, FinishMail(cfg, m, k, out, at, digest, now))
  {
    var n := RecordedMail(cfg, m, k, out, at, digest, now);
    RecordedManual(cfg, m, k, out, at, digest, now);
    ExpiryManual(n, now);
  }

  lemma RecordedManual(cfg: Policy, m: Mail, k: nat, out: Result, at: Time, digest: Rid -> nat, now: Time)
    requires k < |m.attempts| && DistinctIds(out.rows)
    ensures SameManual(m, RecordedMail(cfg, m, k, out, at, digest, now))
  {
  }

  lemma ExpiryManual(m: Mail, now: Time)
    ensures SameManual(m, ApplyExpiry(m, now)) && SameManual(m, Refreshed(ApplyExpiry(m, now)))
  {
  }

  lemma ClaimManual(m: Mail, p: Pid, token: Token, chosen: set<Rid>, until: Time, now: Time)
    ensures SameManual(m, ClaimMail(m, p, token, chosen, until, now))
  {
  }

  lemma ArmManual(m: Mail, k: nat, token: Token, active: set<Address>, now: Time, seen: bool)
    ensures SameManual(m, ArmStep(m, k, token, active, now, seen))
  {
  }

  lemma RecoverManual(m: Mail, now: Time)
    requires CanRecover(m, now)
    ensures SameManual(m, RecoverMail(m, now))
  {
    assert SameManual(m, ReclaimedMail(m, now));
    ExpiryManual(ReclaimedMail(m, now), now);
  }

  lemma ScheduleManual(cfg: Policy, m: Mail, now: Time)
    ensures SameManual(m, ScheduleMail(cfg, m, now))
  {
    ExpiryManual(m, now);
  }

  lemma OthersKeepManual(m: Mail, s: Step)
    requires !s.Finish?
    ensures SameManual(m, Next(m, s)) || (s.Resolve? && s.verdict == RetryIt && CanResolve(m, s.r, s.expected, s.verdict, s.acknowledged, s.active, s.now))
  {
    match s {
      case Claim(cfg, p, token, limit, chosen, active, until, now) => ClaimManual(m, p, token, chosen, until, now);
      case Arm(k, token, active, now, seen) => ArmManual(m, k, token, active, now, seen);
      case Recover(now) => if CanRecover(m, now) { RecoverManual(m, now); }
      case Schedule(cfg, now) => ScheduleManual(cfg, m, now);
      case _ =>
    }
  }

  lemma ReleaseCounts(m: Mail, n: Mail, r: Rid, k: nat)
    requires ManualOk(m) && r in m.recipients && (r, k) !in m.retries && n.retries == m.retries + {(r, k)}
    requires n.recipients.Keys == m.recipients.Keys
    requires forall s :: s in m.recipients ==> n.recipients[s].manual == m.recipients[s].manual + (if s == r then 1 else 0)
    ensures ManualOk(n)
  {
    forall s | s in n.recipients ensures n.recipients[s].manual == |Released(n, s)| {
      if s == r {
        assert Released(n, s) == Released(m, s) + {(r, k)};
        assert (r, k) !in Released(m, s);
      } else {
        assert Released(n, s) == Released(m, s);
      }
    }
  }

  lemma ResolveManual(m: Mail, r: Rid, expected: nat, acknowledged: bool, active: set<Address>, now: Time)
    requires Inv(m) && ManualOk(m) && CanResolve(m, r, expected, RetryIt, acknowledged, active, now)
    ensures ManualOk(ResolveMail(m, r, expected, RetryIt, now))
  {
    ResolveKeepsRoute(m, r, expected, RetryIt, acknowledged, active, now);
    ReleaseCounts(m, ResolveMail(m, r, expected, RetryIt, now), r, expected);
  }

  lemma NextManual(m: Mail, s: Step)
    requires Sound(m) && ManualOk(m)
    ensures ManualOk(Next(m, s))
  {
    if s.Finish? {
      if CanFinish(m, s.k, s.token, s.ids, s.out, s.now) {
        FinishManual(s.cfg, m, s.k, s.out, s.at, s.digest, s.now);
        SameManualKeeps(m, Next(m, s));
      }
    } else {
      OthersKeepManual(m, s);
      if SameManual(m, Next(m, s)) {
        SameManualKeeps(m, Next(m, s));
      } else {
        Unseal(m);
        ResolveManual(m, s.r, s.expected, s.acknowledged, s.active, s.now);
      }
    }
  }

  lemma SameManualKeeps(m: Mail, n: Mail)
    requires ManualOk(m) && SameManual(m, n)
    ensures ManualOk(n)
  {
    forall r | r in n.recipients ensures n.recipients[r].manual == |Released(n, r)| {
      assert Released(n, r) == Released(m, r);
    }
  }

  lemma ManualStart(m: Mail)
    requires JustEnqueued(m)
    ensures ManualOk(m)
  {
    forall r | r in m.recipients ensures m.recipients[r].manual == |Released(m, r)| {
      assert Released(m, r) == {};
    }
  }

  lemma ManualStep(ms: seq<Mail>, ss: seq<Step>, i: nat)
    requires Run(ms, ss) && 0 < i < |ms| && ManualOk(ms[i - 1])
    ensures ManualOk(ms[i])
  {
    StepIs(ms, ss, i);
    RunKeeps(ms, ss, i - 1);
    NextManual(ms[i - 1], ss[i - 1]);
  }

  lemma {:induction false} ManualIsExact(ms: seq<Mail>, ss: seq<Step>, n: nat)
    requires Run(ms, ss) && n < |ms|
    ensures ManualOk(ms[n])
  {
    if n == 0 {
      ManualStart(ms[0]);
    } else {
      ManualIsExact(ms, ss, n - 1);
      ManualStep(ms, ss, n);
    }
  }

  /** A recipient is attempted at most seven times plus once per acknowledged operator
      retry, through outcomes, schedules, suppression resumes and crash recovery. */
  lemma AttemptBudget(ms: seq<Mail>, ss: seq<Step>, n: nat, r: Rid)
    requires Run(ms, ss) && n < |ms| && r in ms[n].recipients
    ensures ms[n].recipients[r].attempts == Count(ms[n].attempts, r)
    ensures Count(ms[n].attempts, r) <= MAX_ATTEMPTS + |Released(ms[n], r)|
  {
    RunInv(ms, ss, n);
    ManualIsExact(ms, ss, n);
    assert RowOk(ms[n], r);
  }

  // ---- Claims of one message ----

  /** Recipient slots used by the attempts, within a set of recipients. */
  ghost function Load(attempts: seq<Attempt>, s: set<Rid>): nat {
    if attempts == [] then 0
    else Load(attempts[..|attempts| - 1], s) + |attempts[|attempts| - 1].lines.Keys * s|
  }

  lemma {:induction false} LoadEmpty(a: seq<Attempt>)
    ensures Load(a, {}) == 0
  {
    if a != [] {
      LoadEmpty(a[..|a| - 1]);
      assert a[|a| - 1].lines.Keys * {} == {};
    }
  }

  lemma {:induction false} LoadAdd(a: seq<Attempt>, s: set<Rid>, r: Rid)
    requires r !in s
    ensures Load(a, s + {r}) == Load(a, s) + Count(a, r)
  {
    if a != [] {
      LoadAdd(a[..|a| - 1], s, r);
      var keys := a[|a| - 1].lines.Keys;
      if r in keys {
        assert keys * (s + {r}) == keys * s + {r};
      } else {
        assert keys * (s + {r}) == keys * s;
      }
    }
  }

  lemma OneMore(b: nat, x: nat)
    ensures b * (x + 1) == b * x + b
  {
  }

  lemma {:induction false} LoadBound(a: seq<Attempt>, s: set<Rid>, b: nat)
    requires forall r :: r in s ==> Count(a, r) <= b
    ensures Load(a, s) <= b * |s|
    decreases |s|
  {
    if s == {} {
      LoadEmpty(a);
    } else {
      var r :| r in s;
      var rest := s - {r};
      LoadBound(a, rest, b);
      LoadAdd(a, rest, r);
      assert rest + {r} == s && |s| == |rest| + 1;
      OneMore(b, |rest|);
    }
  }

  lemma {:induction false} LoadCovers(a: seq<Attempt>, s: set<Rid>)
    requires forall k :: 0 <= k < |a| ==> a[k].lines.Keys != {} && a[k].lines.Keys <= s
    ensures |a| <= Load(a, s)
  {
    if a != [] {
      LoadCovers(a[..|a| - 1], s);
      var keys := a[|a| - 1].lines.Keys;
      assert keys * s == keys;
      assert |keys| > 0;
    }
  }

  lemma AttemptsBounded(m: Mail, b: nat)
    requires AttemptsOk(m)
    requires forall r :: r in m.recipients ==> Count(m.attempts, r) <= b
    ensures |m.attempts| <= b * |m.recipients|
  {
    LoadBound(m.attempts, m.recipients.Keys, b);
    forall k | 0 <= k < |m.attempts| ensures m.attempts[k].lines.Keys != {} && m.attempts[k].lines.Keys <= m.recipients.Keys {
      assert AttemptOk(m, m.attempts[k]);
    }
    LoadCovers(m.attempts, m.recipients.Keys);
  }

  /** A message of n recipients, each released at most c times, is claimed at most
      (7 + c) * n times: delivery terminates. */
  lemma ClaimsAreBounded(ms: seq<Mail>, ss: seq<Step>, n: nat, c: nat)
    requires Run(ms, ss) && n < |ms|
    requires forall r :: r in ms[n].recipients ==> |Released(ms[n], r)| <= c
    ensures |ms[n].attempts| <= (MAX_ATTEMPTS + c) * |ms[n].recipients|
  {
    forall r | r in ms[n].recipients ensures Count(ms[n].attempts, r) <= MAX_ATTEMPTS + c {
      AttemptBudget(ms, ss, n, r);
    }
    RunInv(ms, ss, n);
    AttemptsBounded(ms[n], MAX_ATTEMPTS + c);
  }
}
