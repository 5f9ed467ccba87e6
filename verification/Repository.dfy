/** The queue repository: all messages of the store and the provider controls, changed in
    place by the transactions of the workers and of the maintenance loop. */
module Repository {
  import opened Options
  import opened Delivery
  import opened SmtpClient
  import opened ClientPolicy
  import opened Queue
  import opened QueueInvariant
  import opened QueueSteps
  import opened QueueDelivery
  import opened QueueFinish
  import opened QueueRows
  import opened QueueProgress
  import R = QueueRuns
  import C = Controls

  type Mid = nat

  const BATCH: nat := 20
  const LEASE_MARGIN: int := 30 * 1_000_000_000

  /** The bounded maintenance batches. */
  datatype Chore = Scheduling | Expiring | Suppressing(active: set<Address>)

  function ChoreStep(cfg: Policy, chore: Chore, now: Time): R.Step {
    match chore
    case Scheduling => R.Schedule(cfg, now)
    case Expiring => R.SweepExpired(now)
    case Suppressing(active) => R.SweepSuppressed(active, now)
  }

  predicate CanDo(chore: Chore, m: Mail, now: Time) {
    match chore
    case Scheduling => CanSchedule(m, now)
    case Expiring => CanSweepExpired(m, now)
    case Suppressing(active) => CanSweepSuppressed(m, active)
  }

  function Do(cfg: Policy, chore: Chore, m: Mail, now: Time): Mail {
    match chore
    case Scheduling => ScheduleMail(cfg, m, now)
    case Expiring => SweepExpiredMail(m, now)
    case Suppressing(active) => SweepSuppressedMail(m, active, now)
  }

  // ---- Attempts and jobs ----

  /** An attempt and its row in the provider's books agree. */
  ghost predicate JobOk(jobs: seq<C.Job>, j: nat, m: Mail, k: nat)
    requires k < |m.attempts|
  {
    && j < |jobs| && jobs[j].provider == m.attempts[k].provider
    && (jobs[j].open <==> m.attempts[k].ending == InProgress)
    && (jobs[j].open ==> m.lease.Some? && jobs[j].until == m.lease.value.until)
  }

  ghost predicate Linked(jobs: seq<C.Job>, jobOf: map<(Mid, nat), nat>, mid: Mid, m: Mail) {
    forall k | 0 <= k < |m.attempts| :: (mid, k) in jobOf && JobOk(jobs, jobOf[(mid, k)], m, k)
  }

  ghost predicate OneToOne(jobOf: map<(Mid, nat), nat>) {
    forall x, y | x in jobOf && y in jobOf && x != y :: jobOf[x] != jobOf[y]
  }

  /** The provider's books do not notice this change of a message. */
  ghost predicate SameJobs(m: Mail, n: Mail) {
    && |n.attempts| == |m.attempts| && n.lease == m.lease
    && forall k | 0 <= k < |m.attempts| ::
         n.attempts[k].provider == m.attempts[k].provider && (n.attempts[k].ending == InProgress <==> m.attempts[k].ending == InProgress)
  }

  lemma Relinked(jobs: seq<C.Job>, jobOf: map<(Mid, nat), nat>, mid: Mid, m: Mail, n: Mail)
    requires Linked(jobs, jobOf, mid, m) && SameJobs(m, n)
    ensures Linked(jobs, jobOf, mid, n)
  {
    forall k | 0 <= k < |n.attempts| ensures (mid, k) in jobOf && JobOk(jobs, jobOf[(mid, k)], n, k) {
      assert JobOk(jobs, jobOf[(mid, k)], m, k);
    }
  }

  lemma ChoreKeeps(cfg: Policy, chore: Chore, m: Mail, now: Time)
    requires Sound(m) && CanDo(chore, m, now) && m.clock <= now
    ensures Sound(Do(cfg, chore, m, now)) && SameJobs(m, Do(cfg, chore, m, now)) && Do(cfg, chore, m, now).clock == now
  {
    R.NextKeeps(m, ChoreStep(cfg, chore, now));
  }

  lemma ArmSameJobs(m: Mail, k: nat, token: Token, active: set<Address>, now: Time, seen: bool)
    ensures SameJobs(m, ArmStep(m, k, token, active, now, seen))
    ensures ArmStep(m, k, token, active, now, seen).clock in {m.clock, now}
  {
  }

  /** One message, its attempts and their jobs. */
  ghost predicate MailOk(jobs: seq<C.Job>, jobOf: map<(Mid, nat), nat>, mid: Mid, m: Mail, clock: Time) {
    Sound(m) && m.clock <= clock && Linked(jobs, jobOf, mid, m)
  }

  /** The whole store against the providers' books: every attempt has its own job. */
  ghost predicate Books(jobs: seq<C.Job>, jobOf: map<(Mid, nat), nat>, mails: map<Mid, Mail>, clock: Time) {
    && (forall mid | mid in mails :: MailOk(jobs, jobOf, mid, mails[mid], clock))
    && OneToOne(jobOf)
    && (forall x | x in jobOf :: jobOf[x] < |jobs| && x.0 in mails && x.1 < |mails[x.0].attempts|)
  }

  lemma BooksPut(jobs: seq<C.Job>, jobOf: map<(Mid, nat), nat>, mails: map<Mid, Mail>, clock: Time, mid: Mid, n: Mail, now: Time)
    requires Books(jobs, jobOf, mails, clock) && clock <= now && mid in mails && Sound(n) && n.clock <= now && SameJobs(mails[mid], n)
    ensures Books(jobs, jobOf, mails[mid := n], now)
  {
    assert MailOk(jobs, jobOf, mid, mails[mid], clock);
    Relinked(jobs, jobOf, mid, mails[mid], n);
    forall x | x in mails && x != mid ensures MailOk(jobs, jobOf, x, mails[x], now) { assert MailOk(jobs, jobOf, x, mails[x], clock); }
  }

  lemma BooksAdd(jobs: seq<C.Job>, jobOf: map<(Mid, nat), nat>, mails: map<Mid, Mail>, clock: Time, mid: Mid, n: Mail, now: Time)
    requires Books(jobs, jobOf, mails, clock) && clock <= now && mid !in mails && Sound(n) && n.clock <= now && n.attempts == []
    ensures Books(jobs, jobOf, mails[mid := n], now)
  {
    forall x | x in mails ensures MailOk(jobs, jobOf, x, mails[x], now) { assert MailOk(jobs, jobOf, x, mails[x], clock); }
  }

  /** A claim adds one attempt and one job, and only they are new. */
  lemma BooksClaim(before: seq<C.Job>, j: C.Job, jobOf: map<(Mid, nat), nat>, mails: map<Mid, Mail>, clock: Time, mid: Mid,
                   token: Token, chosen: set<Rid>, now: Time)
    requires Books(before, jobOf, mails, clock) && clock <= now && mid in mails && mails[mid].status == One(Queued) && j.open
    requires Sound(ClaimMail(mails[mid], j.provider, token, chosen, j.until, now))
    ensures Books(before + [j], jobOf[(mid, |mails[mid].attempts|) := |before|],
                  mails[mid := ClaimMail(mails[mid], j.provider, token, chosen, j.until, now)], now)
  {
    var m := mails[mid];
    var n := ClaimMail(m, j.provider, token, chosen, j.until, now);
    var jobs, links := before + [j], jobOf[(mid, |m.attempts|) := |before|];
    assert MailOk(before, jobOf, mid, m, clock);
    ClaimLinks(before, jobs, jobOf, mid, m, j.provider, token, chosen, j.until, now);
    forall x | x in mails && x != mid ensures MailOk(jobs, links, x, mails[x], now) {
      assert MailOk(before, jobOf, x, mails[x], clock);
      forall k | 0 <= k < |mails[x].attempts| ensures JobOk(jobs, links[(x, k)], mails[x], k) { assert JobOk(before, jobOf[(x, k)], mails[x], k); }
    }
  }

  lemma ClaimLinks(before: seq<C.Job>, jobs: seq<C.Job>, jobOf: map<(Mid, nat), nat>, mid: Mid, m: Mail, p: Pid, token: Token,
                   chosen: set<Rid>, until: Time, now: Time)
    requires Linked(before, jobOf, mid, m) && |jobs| == |before| + 1 && before == jobs[..|before|]
    requires jobs[|before|].provider == p && jobs[|before|].open && jobs[|before|].until == until
    requires Sound(m) && m.status == One(Queued)
    ensures Linked(jobs, jobOf[(mid, |m.attempts|) := |before|], mid, ClaimMail(m, p, token, chosen, until, now))
  {
    var n := ClaimMail(m, p, token, chosen, until, now);
    var links := jobOf[(mid, |m.attempts|) := |before|];
    Quiet(m);
    forall k | 0 <= k < |n.attempts| ensures (mid, k) in links && JobOk(jobs, links[(mid, k)], n, k) {
      if k < |m.attempts| { assert JobOk(before, jobOf[(mid, k)], m, k); }
    }
  }

  lemma Quiet(m: Mail)
    requires Sound(m) && m.status == One(Queued)
    ensures forall k | 0 <= k < |m.attempts| :: m.attempts[k].ending != InProgress
  {
    Unseal(m);
    QueuedMeansQuiet(m);
  }

  /** Closing one job touches no other. */
  ghost predicate Closes(before: seq<C.Job>, jobs: seq<C.Job>, j: nat) {
    && j < |before| == |jobs| && !jobs[j].open && jobs[j].provider == before[j].provider
    && forall i | 0 <= i < |jobs| && i != j :: jobs[i] == before[i]
  }

  /** The message ends its last attempt and releases its lease. */
  ghost predicate EndsLast(m: Mail, n: Mail) {
    && |m.attempts| > 0 && |n.attempts| == |m.attempts|
    && var k := |m.attempts| - 1;
    && n.attempts == m.attempts[k := n.attempts[k]]
    && n.attempts[k].ending != InProgress && n.attempts[k].provider == m.attempts[k].provider
  }

  lemma OnlyTheLastIsOpen(m: Mail)
    requires Sound(m)
    ensures forall k | 0 <= k < |m.attempts| - 1 :: m.attempts[k].ending != InProgress
  {
    Unseal(m);
  }

  lemma BooksClose(before: seq<C.Job>, jobs: seq<C.Job>, jobOf: map<(Mid, nat), nat>, mails: map<Mid, Mail>, clock: Time, mid: Mid, n: Mail, now: Time)
    requires Books(before, jobOf, mails, clock) && clock <= now && mid in mails && Sound(n) && n.clock <= now && EndsLast(mails[mid], n)
    requires (mid, |n.attempts| - 1) in jobOf && Closes(before, jobs, jobOf[(mid, |n.attempts| - 1)])
    ensures Books(jobs, jobOf, mails[mid := n], now)
  {
    var m, last := mails[mid], |n.attempts| - 1;
    assert MailOk(before, jobOf, mid, m, clock);
    OnlyTheLastIsOpen(m);
    forall k | 0 <= k < |n.attempts| ensures (mid, k) in jobOf && JobOk(jobs, jobOf[(mid, k)], n, k) {
      assert JobOk(before, jobOf[(mid, k)], m, k);
      if k != last { assert jobOf[(mid, k)] != jobOf[(mid, last)]; }
    }
    forall x | x in mails && x != mid ensures MailOk(jobs, jobOf, x, mails[x], now) {
      assert MailOk(before, jobOf, x, mails[x], clock);
      forall k | 0 <= k < |mails[x].attempts| ensures JobOk(jobs, jobOf[(x, k)], mails[x], k) {
        assert JobOk(before, jobOf[(x, k)], mails[x], k);
        assert jobOf[(x, k)] != jobOf[(mid, last)];
      }
    }
  }

  // ---- The worker ----

  /** One call of the fence as the worker experiences it: the suppression list, the instant,
      and whether the answer came back. */
  datatype Fence = Fence(active: set<Address>, now: Time, seen: bool)

  /** What the worker makes of the answer; a lost one denies. */
  function Heard(answer: ArmAnswer, seen: bool): Permission {
    if !seen then DeniedOther(OtherError)
    else match answer
      case Armed => Granted
      case ArmSuppressed => DeniedSuppressed
      case ArmExpired => DeniedExpired
      case LeaseLost => DeniedOther(OtherError)
      case ArmFailed => DeniedOther(OtherError)
  }

  /** The conversation's script with the fence's real answer in it. */
  function Asked(net: Net, m: Mail, k: nat, token: Token, f: Fence): Net {
    net.(arm := Heard(ArmMail(m, k, token, f.active, f.now).1, f.seen))
  }

  /** A job as Claim handed it out: the attempt's own recipients, nothing told or sent yet. */
  ghost predicate Assigned(m: Mail, k: nat, token: Token, ids: seq<Rid>) {
    && k < |m.attempts| && m.attempts[k].token == token && !m.attempts[k].granted && !m.attempts[k].body
    && (forall r :: r in ids <==> r in m.attempts[k].lines)
    && (forall i, j :: 0 <= i < j < |ids| ==> ids[i] != ids[j])
  }

  /** The message after the worker's part, before the outcome is recorded. */
  function Conversed(m: Mail, k: nat, token: Token, f: Fence, reached: bool, sent: bool): Mail {
    var a := if reached then ArmStep(m, k, token, f.active, f.now, f.seen) else m;
    if sent && k < |a.attempts| then TransmitMail(a, k) else a
  }

  lemma ArmLeaves(m: Mail, k: nat, token: Token, active: set<Address>, now: Time)
    requires k < |m.attempts|
    ensures var n := ArmMail(m, k, token, active, now).0; |n.attempts| == |m.attempts| && SameWork(m.attempts[k], n.attempts[k])
    ensures ArmMail(m, k, token, active, now).1 == Armed ==> m.attempts[k].ending == InProgress
  {
    if Fenced(m, token, true, now) && Owns(m, k, token) {
      var a := m.attempts[k];
      assert SameWork(a, a.(suppressed := true)) && SameWork(a, a.(expired := true)) && SameWork(a, a.(armedAt := Some(now)));
    }
  }

  /** The fence does not touch what the worker was told and did. */
  ghost predicate SameWork(a: Attempt, b: Attempt) {
    b.lines == a.lines && b.token == a.token && b.body == a.body && b.granted == a.granted && b.ending == a.ending
  }

  /** The worker was granted DATA exactly when the durable fence says so. */
  lemma AskedGrants(m: Mail, k: nat, token: Token, f: Fence)
    requires k < |m.attempts| && !m.attempts[k].granted
    ensures var n := ArmStep(m, k, token, f.active, f.now, f.seen);
      && |n.attempts| == |m.attempts| && n.attempts[k].lines == m.attempts[k].lines && n.attempts[k].token == m.attempts[k].token
      && n.attempts[k].body == m.attempts[k].body && n.attempts[k].ending == m.attempts[k].ending
      && (n.attempts[k].granted <==> Heard(ArmMail(m, k, token, f.active, f.now).1, f.seen) == Granted)
      && (n.attempts[k].granted ==> n.attempts[k].ending == InProgress)
  {
    ArmLeaves(m, k, token, f.active, f.now);
  }

  /** A truthful conversation, held under the fence's answer, is a legal report. */
  lemma ReportIsLegal(m: Mail, k: nat, token: Token, ids: seq<Rid>, f: Fence, reached: bool, out: Result)
    requires Assigned(m, k, token, ids)
    requires Truthful(ids, reached && Heard(ArmMail(m, k, token, f.active, f.now).1, f.seen) == Granted, out)
    ensures Reports(Conversed(m, k, token, f, reached, out.bodyStarted), k, token, ids, out)
  {
    AskedGrants(m, k, token, f);
  }

  /** The fence comes after everything the conversation had to get past. */
  lemma FenceIsLast(net: Net, ids: seq<Rid>, arm: Permission)
    ensures Introduced(net.(arm := arm)) <==> Introduced(net)
    ensures ReachesFence(net.(arm := arm), ids) <==> ReachesFence(net, ids)
  {
    forall n: nat ensures LoggedIn(net.(arm := arm), n) <==> LoggedIn(net, n) { }
    forall i: nat ensures RcptAdmitted(net.(arm := arm), i) <==> RcptAdmitted(net, i) { }
  }

  class Repository {
    const cfg: Policy
    const controls: C.ProviderControls
    var mails: map<Mid, Mail>
    var jobOf: map<(Mid, nat), nat>
    var clock: Time

    ghost predicate Valid() reads this, controls {
      controls.Valid() && controls.clock <= clock && Books(controls.jobs, jobOf, mails, clock)
    }

    constructor (cfg: Policy, controls: C.ProviderControls, now: Time)
      requires controls.Valid() && controls.jobs == [] && controls.clock <= now
      ensures Valid() && mails == map[] && this.cfg == cfg && this.controls == controls && clock == now
    {
      this.cfg, this.controls, this.mails, this.jobOf, this.clock := cfg, controls, map[], map[], now;
    }

    /** Replace one message by a version its provider's books agree with. */
    method Put(mid: Mid, n: Mail, now: Time)
      requires Valid() && mid in mails && clock <= now && Sound(n) && n.clock <= now && SameJobs(mails[mid], n)
      modifies this
      ensures Valid() && mails == old(mails)[mid := n] && jobOf == old(jobOf) && clock == now
    {
      BooksPut(controls.jobs, jobOf, mails, clock, mid, n, now);
      mails, clock := mails[mid := n], now;
    }

    method Enqueue(mid: Mid, addresses: map<Rid, Address>, active: set<Address>, scheduleAt: Option<Time>, expiresAt: Option<Time>, now: Time)
      requires Valid() && mid !in mails && addresses.Keys != {} && clock <= now
      modifies this
      ensures Valid() && mails == old(mails)[mid := Enqueued(addresses, active, scheduleAt, expiresAt, now)]
      ensures jobOf == old(jobOf) && clock == now
    {
      EnqueueEstablishes(addresses, active, scheduleAt, expiresAt, now);
      var m := Enqueued(addresses, active, scheduleAt, expiresAt, now);
      BooksAdd(controls.jobs, jobOf, mails, clock, mid, m, now);
      mails, clock := mails[mid := m], now;
    }

    /** The rows a claim of this message for this provider would take now. */
    method PickBatch(mid: Mid, p: Pid, active: set<Address>, now: Time) returns (allowance: nat, batch: set<Rid>)
      requires mid in mails
      ensures allowance == C.Allowance(controls.cfg, controls.View(), p, now)
      ensures batch != {} ==> CanClaim(cfg, mails[mid], p, allowance, batch, active, now) && 1 <= |batch| <= allowance
      ensures batch == {} ==> forall b :: !CanClaim(cfg, mails[mid], p, allowance, b, active, now)
    {
      var m := mails[mid];
      batch := {};
      allowance := controls.Admission(p, now);
      if m.status != One(Queued) || !m.available || Elapsed(m.expiresAt, now) || (m.scheduleAt.Some? && m.scheduleAt.value > now) { return; }
      if allowance == 0 || !RouteAllowed(cfg, m, p, now) { return; }
      batch := SelectBatch(Eligible(cfg, m, active, now), allowance);
      if batch == {} { assert Eligible(cfg, m, active, now) == {}; }
    }

    /** Write the claim: message, attempt, lines, reservation and probe together. */
    method WriteClaim(mid: Mid, p: Pid, token: Token, limit: nat, batch: set<Rid>, active: set<Address>, until: Time, now: Time)
      requires Valid() && mid in mails && clock <= now
      requires CanClaim(cfg, mails[mid], p, limit, batch, active, now) && 1 <= |batch| <= C.Allowance(controls.cfg, controls.View(), p, now)
      requires forall k :: 0 <= k < |mails[mid].attempts| ==> mails[mid].attempts[k].token != token
      modifies this, controls
      ensures Valid()
      ensures mails == old(mails)[mid := ClaimMail(old(mails)[mid], p, token, batch, until, now)]
      ensures controls.View() == C.Started(controls.cfg, old(controls.View()), p, |batch|, until, now)
      ensures jobOf == old(jobOf)[(mid, |old(mails)[mid].attempts|) := |old(controls.jobs)|]
    {
      var m := mails[mid];
      ghost var jobs := controls.jobs;
      ghost var job := C.Job(p, |batch|, now, until, true, None, now);
      assert MailOk(jobs, jobOf, mid, m, clock);
      ClaimKeeps(cfg, m, p, token, limit, batch, active, until, now);
      BooksClaim(jobs, job, jobOf, mails, clock, mid, token, batch, now);
      var j := |controls.jobs|;
      controls.ReserveControls(p, |batch|, until, now);
      assert controls.jobs == jobs + [job];
      mails, jobOf, clock := mails[mid := ClaimMail(m, p, token, batch, until, now)], jobOf[(mid, |m.attempts|) := j], now;
    }

    /** Claim a batch of a message for a provider, within everything the controls allow. */
    method Claim(mid: Mid, p: Pid, token: Token, active: set<Address>, timeout: nat, now: Time) returns (allowance: nat, batch: set<Rid>)
      requires Valid() && mid in mails && clock <= now
      requires forall k :: 0 <= k < |mails[mid].attempts| ==> mails[mid].attempts[k].token != token
      modifies this, controls
      ensures Valid()
      ensures allowance == C.Allowance(controls.cfg, old(controls.View()), p, now)
      ensures batch == {} ==>
        && mails == old(mails) && jobOf == old(jobOf) && controls.View() == old(controls.View())
        && forall b :: !CanClaim(cfg, old(mails)[mid], p, allowance, b, active, now)
      ensures batch != {} ==>
        && CanClaim(cfg, old(mails)[mid], p, allowance, batch, active, now)
        && mails == old(mails)[mid := ClaimMail(old(mails)[mid], p, token, batch, now + timeout + LEASE_MARGIN, now)]
        && controls.View() == C.Started(controls.cfg, old(controls.View()), p, |batch|, now + timeout + LEASE_MARGIN, now)
        && jobOf == old(jobOf)[(mid, |old(mails)[mid].attempts|) := |old(controls.jobs)|]
    {
      allowance, batch := PickBatch(mid, p, active, now);
      if batch != {} { WriteClaim(mid, p, token, allowance, batch, active, now + timeout + LEASE_MARGIN, now); }
    }

    /** The fence in front of DATA.  `seen` says whether the worker got the answer. */
    method ArmData(mid: Mid, k: nat, token: Token, active: set<Address>, now: Time, seen: bool) returns (answer: ArmAnswer)
      requires Valid() && mid in mails && clock <= now
      modifies this
      ensures Valid() && jobOf == old(jobOf) && clock == now
      ensures mails == old(mails)[mid := ArmStep(old(mails)[mid], k, token, active, now, seen)]
      ensures answer == ArmMail(old(mails)[mid], k, token, active, now).1
    {
      var m := mails[mid];
      var n;
      n, answer := Arm(m, k, token, active, now, seen);
      assert MailOk(controls.jobs, jobOf, mid, m, clock);
      ArmKeeps(m, k, token, active, now, seen);
      ArmSameJobs(m, k, token, active, now, seen);
      Put(mid, n, now);
    }

    /** Record the outcome of an attempt and what it says about the provider. */
    method Finish(mid: Mid, k: nat, token: Token, ids: seq<Rid>, out: Result, at: Time, digest: Rid -> nat, now: Time) returns (ok: bool)
      requires Valid() && mid in mails && clock <= now && Reports(mails[mid], k, token, ids, out)
      modifies this, controls
      ensures Valid() && jobOf == old(jobOf)
      ensures ok <==> CanFinish(old(mails)[mid], k, token, ids, out, now)
      ensures !ok ==> mails == old(mails) && controls.View() == old(controls.View())
      ensures ok ==>
        && mails == old(mails)[mid := FinishMail(cfg, old(mails)[mid], k, out, at, digest, now)]
        && (mid, k) in jobOf && jobOf[(mid, k)] < |old(controls.jobs)|
        && controls.View() == C.Finished(controls.cfg, old(controls.View()), jobOf[(mid, k)], SampleOf(out), now)
    {
      var m := mails[mid];
      var n;
      ok, n := RecordOutcome(cfg, m, k, token, ids, out, at, digest, now);
      if !ok { return; }
      ghost var jobs := controls.jobs;
      assert MailOk(jobs, jobOf, mid, m, clock);
      FinishKeeps(cfg, m, k, token, ids, out, at, digest, now);
      FinishEnds(cfg, m, k, token, ids, out, at, digest, now);
      assert JobOk(jobs, jobOf[(mid, k)], m, k);
      controls.FinishHealth(jobOf[(mid, k)], SampleOf(out), now);
      BooksClose(jobs, controls.jobs, jobOf, mails, clock, mid, n, now);
      mails, clock := mails[mid := n], now;
    }

    /** The worker of attempt k puts the body on the wire. */
    method Transmit(mid: Mid, k: nat, now: Time)
      requires Valid() && mid in mails && clock <= now && CanTransmit(mails[mid], k)
      modifies this
      ensures Valid() && jobOf == old(jobOf) && clock == now
      ensures mails == old(mails)[mid := TransmitMail(old(mails)[mid], k)]
    {
      assert MailOk(controls.jobs, jobOf, mid, mails[mid], clock);
      TransmitKeeps(mails[mid], k);
      Put(mid, TransmitMail(mails[mid], k), now);
    }

    /** The worker's part: converse, with the fence as Send's callback, and transmit. */
    method Converse(mid: Mid, k: nat, token: Token, ids: seq<Rid>, net: Net, fence: Fence) returns (out: Result, reached: bool)
      requires Valid() && mid in mails && clock <= fence.now && Assigned(mails[mid], k, token, ids)
      modifies this
      ensures Valid() && jobOf == old(jobOf) && clock <= fence.now
      ensures EndedBeforeBody(net, ids, out) || (reached && EndedAfterBody(Asked(net, old(mails)[mid], k, token, fence), ids, out))
      ensures Truthful(ids, reached && Asked(net, old(mails)[mid], k, token, fence).arm == Granted, out)
      ensures out.bodyStarted ==> reached && ReachesBody(Asked(net, old(mails)[mid], k, token, fence), ids)
      ensures mails == old(mails)[mid := Conversed(old(mails)[mid], k, token, fence, reached, out.bodyStarted)]
    {
      ghost var m := mails[mid];
      out, reached := Prepare(net, ids);
      if !reached {
        out := Conclude(net, ids, out);
        return;
      }
      var answer := ArmData(mid, k, token, fence.active, fence.now, fence.seen);
      var asked := net.(arm := Heard(answer, fence.seen));
      FenceIsLast(net, ids, asked.arm);
      out := Complete(asked, ids, out);
      out := Conclude(asked, ids, out);
      AskedGrants(m, k, token, fence);
      if out.bodyStarted {
        ghost var armed := mails[mid];
        Transmit(mid, k, fence.now);
        LastWriteCounts(old(mails), mid, armed, mails[mid]);
      }
    }

    /** The worker up to its report: a job that cannot be prepared never converses. */
    method Work(mid: Mid, k: nat, token: Token, ids: seq<Rid>, trouble: Option<ErrorClass>, net: Net, fence: Fence) returns (out: Result, reached: bool)
      requires Valid() && mid in mails && clock <= fence.now && Assigned(mails[mid], k, token, ids)
      requires trouble.Some? ==> trouble.value in {CredentialDecryptionError, LocalStorageError}
      modifies this
      ensures Valid() && jobOf == old(jobOf) && clock <= fence.now
      ensures trouble.None? ==>
        && (EndedBeforeBody(net, ids, out) || (reached && EndedAfterBody(Asked(net, old(mails)[mid], k, token, fence), ids, out)))
        && (out.bodyStarted ==> ReachesBody(Asked(net, old(mails)[mid], k, token, fence), ids))
      ensures mails == old(mails)[mid := Conversed(old(mails)[mid], k, token, fence, reached, out.bodyStarted)]
      ensures Reports(mails[mid], k, token, ids, out)
    {
      ghost var m := mails[mid];
      if trouble.Some? {
        out := PreparationFailure(ids, trouble.value);
        reached := false;
        assert mails == mails[mid := m];
      } else {
        out, reached := Converse(mid, k, token, ids, net, fence);
      }
      ReportIsLegal(m, k, token, ids, fence, reached, out);
    }

    /** A worker's whole job: prepare, converse and record.  The report it records is proved
        to be legal, not assumed. */
    method Deliver(mid: Mid, k: nat, token: Token, ids: seq<Rid>, trouble: Option<ErrorClass>, net: Net, fence: Fence,
                   at: Time, digest: Rid -> nat, now: Time) returns (out: Result, reached: bool, ok: bool, ghost m: Mail)
      requires Valid() && mid in mails && clock <= fence.now <= now && Assigned(mails[mid], k, token, ids)
      requires trouble.Some? ==> trouble.value in {CredentialDecryptionError, LocalStorageError}
      modifies this, controls
      ensures Valid() && jobOf == old(jobOf)
      ensures trouble.None? ==>
        && (EndedBeforeBody(net, ids, out) || (reached && EndedAfterBody(Asked(net, old(mails)[mid], k, token, fence), ids, out)))
        && (out.bodyStarted ==> ReachesBody(Asked(net, old(mails)[mid], k, token, fence), ids))
      ensures m == Conversed(old(mails)[mid], k, token, fence, reached, out.bodyStarted)
      ensures ok <==> CanFinish(m, k, token, ids, out, now)
      ensures !ok ==> mails == old(mails)[mid := m]
      ensures ok ==> mails == old(mails)[mid := FinishMail(cfg, m, k, out, at, digest, now)]
    {
      out, reached := Work(mid, k, token, ids, trouble, net, fence);
      m := mails[mid];
      ok := Finish(mid, k, token, ids, out, at, digest, now);
      LastWriteCounts(old(mails), mid, m, mails[mid]);
    }

    /** Take back one expired lease. */
    method RecoverOne(mid: Mid, now: Time)
      requires Valid() && mid in mails && clock <= now && CanRecover(mails[mid], now)
      modifies this, controls
      ensures Valid() && jobOf == old(jobOf) && clock == now
      ensures mails == old(mails)[mid := RecoverMail(old(mails)[mid], now)]
      ensures (mid, |old(mails)[mid].attempts| - 1) in jobOf && jobOf[(mid, |old(mails)[mid].attempts| - 1)] < |old(controls.jobs)|
      ensures controls.View() == C.Recovered(old(controls.View()), jobOf[(mid, |old(mails)[mid].attempts| - 1)], now)
    {
      var m := mails[mid];
      var k := |m.attempts| - 1;
      ghost var jobs := controls.jobs;
      assert MailOk(jobs, jobOf, mid, m, clock);
      assert JobOk(jobs, jobOf[(mid, k)], m, k);
      RecoverKeeps(m, now);
      RecoverEnds(m, now);
      controls.RecoverProbe(jobOf[(mid, k)], now);
      BooksClose(jobs, controls.jobs, jobOf, mails, clock, mid, RecoverMail(m, now), now);
      mails, clock := mails[mid := RecoverMail(m, now)], now;
    }

    /** Take back the listed leases, one after the other. */
    method RecoverListed(ids: seq<Mid>, now: Time)
      requires Valid() && clock <= now && |ids| <= BATCH && Distinct(ids)
      requires forall i | 0 <= i < |ids| :: ids[i] in mails && CanRecover(mails[ids[i]], now)
      modifies this, controls
      ensures Valid() && jobOf == old(jobOf)
      ensures mails == Batched(old(mails), Reclaimed(old(mails), ids, now), ids, |ids|)
    {
      ghost var target := Reclaimed(mails, ids, now);
      BatchStart(mails, target, ids);
      var i := 0;
      while i < |ids|
        invariant 0 <= i <= |ids| && Valid() && clock <= now && jobOf == old(jobOf)
        invariant mails == Batched(old(mails), target, ids, i)
      {
        BatchStep(old(mails), target, ids, i);
        RecoverOne(ids[i], now);
        i := i + 1;
      }
    }

    /** Take back expired leases: the first twenty in the query's order, skipping messages
        locked by other transactions.  A batch that is not full leaves none behind. */
    method Recover(order: seq<Mid>, locked: set<Mid>, now: Time) returns (ids: seq<Mid>)
      requires Valid() && clock <= now && Distinct(order) && forall mid | mid in mails :: mid in order
      modifies this, controls
      ensures Valid() && jobOf == old(jobOf)
      ensures FirstOf(order, Stalled(old(mails), locked, now), BATCH, ids)
      ensures mails == Batched(old(mails), Reclaimed(old(mails), ids, now), ids, |ids|)
      ensures |ids| < BATCH ==> Stalled(mails, locked, now) == {}
    {
      ids := List(order, Stalled(mails, locked, now), BATCH);
      assert forall i | 0 <= i < |ids| :: ids[i] in Stalled(mails, locked, now);
      RecoverListed(ids, now);
      if |ids| < BATCH { NoneStalled(old(mails), order, locked, ids, now); }
    }

    /** One maintenance batch (schedule due retries, expire, or suppress) over the first
        twenty messages in the query's order, skipping locked ones. */
    method Maintain(chore: Chore, order: seq<Mid>, locked: set<Mid>, now: Time) returns (ids: seq<Mid>)
      requires Valid() && clock <= now && Distinct(order) && forall mid | mid in mails :: mid in order
      modifies this
      ensures Valid() && jobOf == old(jobOf)
      ensures FirstOf(order, Waiting(chore, old(mails), locked, now), BATCH, ids)
      ensures mails == Batched(old(mails), Maintained(cfg, chore, old(mails), ids, now), ids, |ids|)
      ensures |ids| < BATCH && (chore.Scheduling? ==> cfg.retry) ==> Waiting(chore, mails, locked, now) == {}
    {
      ids := List(order, Waiting(chore, mails, locked, now), BATCH);
      assert forall i | 0 <= i < |ids| :: ids[i] in Waiting(chore, mails, locked, now);
      MaintainListed(chore, ids, now);
      if |ids| < BATCH && (chore.Scheduling? ==> cfg.retry) { NoneWaiting(cfg, chore, old(mails), order, locked, ids, now); }
    }

    method MaintainListed(chore: Chore, ids: seq<Mid>, now: Time)
      requires Valid() && clock <= now && |ids| <= BATCH && Distinct(ids)
      requires forall i | 0 <= i < |ids| :: ids[i] in mails && CanDo(chore, mails[ids[i]], now)
      modifies this
      ensures Valid() && jobOf == old(jobOf)
      ensures mails == Batched(old(mails), Maintained(cfg, chore, old(mails), ids, now), ids, |ids|)
    {
      ghost var target := Maintained(cfg, chore, mails, ids, now);
      BatchStart(mails, target, ids);
      var i := 0;
      while i < |ids|
        invariant 0 <= i <= |ids| && Valid() && clock <= now && jobOf == old(jobOf)
        invariant mails == Batched(old(mails), target, ids, i)
      {
        BatchStep(old(mails), target, ids, i);
        DoOne(chore, ids[i], now);
        i := i + 1;
      }
    }

    method DoOne(chore: Chore, mid: Mid, now: Time)
      requires Valid() && mid in mails && clock <= now && CanDo(chore, mails[mid], now)
      modifies this
      ensures Valid() && jobOf == old(jobOf) && clock == now
      ensures mails == old(mails)[mid := Do(cfg, chore, old(mails)[mid], now)]
    {
      assert MailOk(controls.jobs, jobOf, mid, mails[mid], clock);
      ChoreKeeps(cfg, chore, mails[mid], now);
      var n := Perform(cfg, chore, mails[mid], now);
      Put(mid, n, now);
    }

    /** Record an operator's verdict on a recipient in doubt. */
    method ResolveUnknown(mid: Mid, r: Rid, expected: nat, v: Verdict, acknowledged: bool, active: set<Address>, now: Time) returns (ok: bool)
      requires Valid() && mid in mails && clock <= now
      modifies this
      ensures Valid() && jobOf == old(jobOf)
      ensures ok <==> CanResolve(old(mails)[mid], r, expected, v, acknowledged, active, now)
      ensures mails == if ok then old(mails)[mid := ResolveMail(old(mails)[mid], r, expected, v, now)] else old(mails)
    {
      var m := mails[mid];
      ok := CanResolve(m, r, expected, v, acknowledged, active, now);
      if ok {
        assert MailOk(controls.jobs, jobOf, mid, m, clock);
        ResolveKeeps(m, r, expected, v, acknowledged, active, now);
        Put(mid, ResolveMail(m, r, expected, v, now), now);
      }
    }

    /** Withdraw a message that nothing has been sent of. */
    method CancelPending(mid: Mid, now: Time) returns (ok: bool)
      requires Valid() && mid in mails && clock <= now
      modifies this
      ensures Valid() && jobOf == old(jobOf)
      ensures ok <==> CanCancel(old(mails)[mid])
      ensures mails == if ok then old(mails)[mid := CancelMail(old(mails)[mid], now)] else old(mails)
    {
      var m := mails[mid];
      ok := CanCancel(m);
      if ok {
        assert MailOk(controls.jobs, jobOf, mid, m, clock);
        CancelKeeps(m, now);
        Put(mid, CancelMail(m, now), now);
      }
    }
  }

  // ---- Bounded batches ----

  /** Unlocked messages whose lease has lapsed. */
  function Stalled(mails: map<Mid, Mail>, locked: set<Mid>, now: Time): set<Mid> {
    set mid | mid in mails && mid !in locked && CanRecover(mails[mid], now)
  }

  /** Unlocked messages the chore has work for. */
  function Waiting(chore: Chore, mails: map<Mid, Mail>, locked: set<Mid>, now: Time): set<Mid> {
    set mid | mid in mails && mid !in locked && CanDo(chore, mails[mid], now)
  }

  /** The first `limit` wanted entries of the order: one that is left out comes after a full
      batch. */
  ghost predicate FirstOf(order: seq<Mid>, want: set<Mid>, limit: nat, ids: seq<Mid>) {
    && |ids| <= limit && Distinct(ids)
    && (forall x | x in ids :: x in order && x in want)
    && forall i | 0 <= i < |order| && order[i] in want && order[i] !in ids :: |ids| == limit && forall x | x in ids :: x in order[..i]
  }

  method List(order: seq<Mid>, want: set<Mid>, limit: nat) returns (ids: seq<Mid>)
    requires Distinct(order)
    ensures FirstOf(order, want, limit, ids)
  {
    ids := [];
    var i := 0;
    while i < |order| && |ids| < limit
      invariant 0 <= i <= |order| && |ids| <= limit && Distinct(ids)
      invariant forall x | x in ids :: x in order[..i] && x in want
      invariant forall k | 0 <= k < i :: order[k] in want ==> order[k] in ids
    {
      assert order[..i + 1] == order[..i] + [order[i]];
      if order[i] in want { ids := ids + [order[i]]; }
      i := i + 1;
    }
    forall j | 0 <= j < |order| && order[j] in want && order[j] !in ids ensures |ids| == limit && forall x | x in ids :: x in order[..j] {
      forall x | x in ids ensures x in order[..j] { assert order[..i] <= order[..j]; }
    }
  }

  lemma NoneStalled(mails: map<Mid, Mail>, order: seq<Mid>, locked: set<Mid>, ids: seq<Mid>, now: Time)
    requires FirstOf(order, Stalled(mails, locked, now), BATCH, ids) && |ids| < BATCH && forall mid | mid in mails :: mid in order
    ensures Stalled(Batched(mails, Reclaimed(mails, ids, now), ids, |ids|), locked, now) == {}
  {
    var after := Batched(mails, Reclaimed(mails, ids, now), ids, |ids|);
    assert ids[..|ids|] == ids;
    forall mid | mid in after ensures mid !in Stalled(after, locked, now) {
      if mid in ids { assert after[mid] == RecoverMail(mails[mid], now); }
    }
  }

  lemma DoneAtOnce(cfg: Policy, chore: Chore, m: Mail, now: Time)
    requires CanDo(chore, m, now) && (chore.Scheduling? ==> cfg.retry)
    ensures !CanDo(chore, Do(cfg, chore, m, now), now)
  {
    match chore
    case Scheduling => ScheduleLeavesNothingDue(cfg, m, now);
    case Expiring => SweepExpiredSettles(m, now);
    case Suppressing(active) => SweepSuppressedSettles(m, active, now);
  }

  lemma NoneWaiting(cfg: Policy, chore: Chore, mails: map<Mid, Mail>, order: seq<Mid>, locked: set<Mid>, ids: seq<Mid>, now: Time)
    requires FirstOf(order, Waiting(chore, mails, locked, now), BATCH, ids) && |ids| < BATCH && (chore.Scheduling? ==> cfg.retry)
    requires forall mid | mid in mails :: mid in order
    ensures Waiting(chore, Batched(mails, Maintained(cfg, chore, mails, ids, now), ids, |ids|), locked, now) == {}
  {
    var after := Batched(mails, Maintained(cfg, chore, mails, ids, now), ids, |ids|);
    assert ids[..|ids|] == ids;
    forall mid | mid in after ensures mid !in Waiting(chore, after, locked, now) {
      if mid in ids {
        assert after[mid] == Do(cfg, chore, mails[mid], now);
        DoneAtOnce(cfg, chore, mails[mid], now);
      }
    }
  }

  ghost predicate Distinct(ids: seq<Mid>) { forall i, j | 0 <= i < j < |ids| :: ids[i] != ids[j] }

  /** What each listed message becomes. */
  ghost function Reclaimed(mails: map<Mid, Mail>, ids: seq<Mid>, now: Time): map<Mid, Mail> {
    map mid | mid in ids && mid in mails && CanRecover(mails[mid], now) :: RecoverMail(mails[mid], now)
  }

  ghost function Maintained(cfg: Policy, chore: Chore, mails: map<Mid, Mail>, ids: seq<Mid>, now: Time): map<Mid, Mail> {
    map mid | mid in ids && mid in mails :: Do(cfg, chore, mails[mid], now)
  }

  /** The store after the first n of the listed messages have been rewritten. */
  ghost function Batched(mails: map<Mid, Mail>, target: map<Mid, Mail>, ids: seq<Mid>, n: nat): map<Mid, Mail>
    requires n <= |ids|
  {
    map mid | mid in mails :: if mid in ids[..n] && mid in target then target[mid] else mails[mid]
  }

  lemma BatchStart(mails: map<Mid, Mail>, target: map<Mid, Mail>, ids: seq<Mid>)
    ensures Batched(mails, target, ids, 0) == mails
  {
  }

  lemma BatchStep(mails: map<Mid, Mail>, target: map<Mid, Mail>, ids: seq<Mid>, n: nat)
    requires n < |ids| && Distinct(ids) && ids[n] in mails && ids[n] in target
    ensures Batched(mails, target, ids, n)[ids[n]] == mails[ids[n]]
    ensures Batched(mails, target, ids, n + 1) == Batched(mails, target, ids, n)[ids[n] := target[ids[n]]]
  {
    assert ids[n] !in ids[..n];
    assert ids[..n + 1] == ids[..n] + [ids[n]];
  }

  // ---- Connections of the whole store ----

  ghost predicate LiveAttempt(m: Mail, k: nat, p: Pid, at: Time) {
    k < |m.attempts| && m.attempts[k].ending == InProgress && m.attempts[k].provider == p && m.lease.Some? && m.lease.value.until > at
  }

  /** Attempts of all messages that hold a live lease on a provider. */
  ghost function Live(mails: map<Mid, Mail>, jobOf: map<(Mid, nat), nat>, p: Pid, at: Time): set<(Mid, nat)> {
    set x | x in jobOf && x.0 in mails && LiveAttempt(mails[x.0], x.1, p, at)
  }

  lemma LiveIsAll(jobs: seq<C.Job>, jobOf: map<(Mid, nat), nat>, mails: map<Mid, Mail>, clock: Time, p: Pid, at: Time, mid: Mid, k: nat)
    requires Books(jobs, jobOf, mails, clock) && mid in mails && LiveAttempt(mails[mid], k, p, at)
    ensures (mid, k) in Live(mails, jobOf, p, at)
  {
    assert MailOk(jobs, jobOf, mid, mails[mid], clock);
  }

  /** In the whole store, at every instant, no more attempts hold a live lease on a provider
      than it allows connections. */
  lemma LiveAttemptsBounded(cfg: C.Config, s: C.State, jobOf: map<(Mid, nat), nat>, mails: map<Mid, Mail>, clock: Time, p: Pid, at: Time)
    requires C.Inv(cfg, s) && Books(s.jobs, jobOf, mails, clock) && p in cfg.providers && s.clock <= at
    ensures |Live(mails, jobOf, p, at)| <= cfg.providers[p].maxConnections
  {
    var live := Live(mails, jobOf, p, at);
    var images := set x | x in live :: jobOf[x];
    ImagesCount(live, jobOf);
    forall j | j in images ensures j in ActiveJobs(s.jobs, p, at) {
      var x :| x in live && jobOf[x] == j;
      assert MailOk(s.jobs, jobOf, x.0, mails[x.0], clock);
      assert JobOk(s.jobs, j, mails[x.0], x.1);
    }
    SubsetCount(images, ActiveJobs(s.jobs, p, at));
    ActiveJobsCount(s.jobs, p, at);
    C.ActiveShrinks(s.jobs, p, s.clock, at);
  }

  lemma LastWriteCounts(mails: map<Mid, Mail>, mid: Mid, m: Mail, n: Mail)
    ensures mails[mid := m][mid := n] == mails[mid := n]
  {
  }

  // ---- Transactions on one message ----

  /** The fence, step by step. */
  method Arm(m: Mail, k: nat, token: Token, active: set<Address>, now: Time, seen: bool) returns (n: Mail, answer: ArmAnswer)
    ensures n == ArmStep(m, k, token, active, now, seen)
    ensures answer == ArmMail(m, k, token, active, now).1
  {
    n := m;
    if !Fenced(m, token, true, now) { return m, LeaseLost; }
    if !Owns(m, k, token) { return m, ArmFailed; }
    var a := m.attempts[k];
    if a.armedAt.Some? { return m, LeaseLost; }
    if a.expired { return m, ArmExpired; }
    if a.suppressed { return m, ArmSuppressed; }
    var recipients, hits := SuppressRows(m, active, true);
    if hits > 0 {
      return m.(recipients := recipients, attempts := m.attempts[k := a.(suppressed := true)], clock := now), ArmSuppressed;
    }
    if Elapsed(m.expiresAt, now) {
      return m.(attempts := m.attempts[k := a.(expired := true)], clock := now), ArmExpired;
    }
    n := m.(attempts := m.attempts[k := a.(armedAt := Some(now), granted := a.granted || seen)], clock := now);
    answer := Armed;
  }

  /** Schedule one message's due rows. */
  method Schedule(cfg: Policy, m: Mail, now: Time) returns (n: Mail)
    ensures n == ScheduleMail(cfg, m, now)
  {
    var e := ApplyExpiry(m, now);
    var recipients := ScheduleRows(cfg, e, now);
    n := Refreshed(e.(recipients := recipients, clock := now));
  }

  /** Take one message's suppressed rows out. */
  method Sweep(m: Mail, active: set<Address>, now: Time) returns (n: Mail)
    ensures n == SweepSuppressedMail(m, active, now)
  {
    var recipients, hits := SuppressRows(m, active, false);
    var swept := m.(recipients := recipients);
    assert swept == ApplySuppression(m, active, false);
    n := Refreshed(swept).(clock := now);
  }

  /** One message of a maintenance batch. */
  method Perform(cfg: Policy, chore: Chore, m: Mail, now: Time) returns (n: Mail)
    ensures n == Do(cfg, chore, m, now)
  {
    match chore {
      case Scheduling => n := Schedule(cfg, m, now);
      case Expiring => n := Refreshed(ApplyExpiry(m, now)).(clock := now);
      case Suppressing(active) => n := Sweep(m, active, now);
    }
  }

  /** Check a worker's report against the rows and record it. */
  method RecordOutcome(cfg: Policy, m: Mail, k: nat, token: Token, ids: seq<Rid>, out: Result, at: Time, digest: Rid -> nat, now: Time)
    returns (ok: bool, n: Mail)
    ensures ok <==> CanFinish(m, k, token, ids, out, now)
    ensures ok ==> n == FinishMail(cfg, m, k, out, at, digest, now)
  {
    n := m;
    if !Fenced(m, token, false, now) || !Owns(m, k, token) { return false, m; }
    var a := m.attempts[k];
    if (a.suppressed || a.expired) && (out.bodyStarted || out.finalResponse) { return false, m; }
    if |out.rows| != |ids| { return false, m; }
    var recipients, lines;
    ok, recipients, lines := RecordRows(cfg, m, a, ids, out, at, digest);
    FitIsFinish(m, k, ids, out);
    if !ok { return; }
    TablesAreFinish(cfg, m, k, ids, out, at, digest, now, recipients, lines);
    var done := a.(ending := ByWorker(out.status), finishedAt := Some(at), dataStarted := out.bodyStarted, finalResponse := out.finalResponse, code := out.code, lines := lines);
    n := Refreshed(ApplyExpiry(m.(lease := None, clock := now, attempts := m.attempts[k := done], recipients := recipients), now));
  }

  /** The row loop's test is the specification's. */
  lemma FitIsFinish(m: Mail, k: nat, ids: seq<Rid>, out: Result)
    requires k < |m.attempts|
    ensures RowsFit(m, m.attempts[k], ids, out.rows) <==>
      && DistinctIds(out.rows)
      && forall i :: 0 <= i < |out.rows| ==>
           && out.rows[i].id in ids && out.rows[i].id in m.recipients
           && out.rows[i].status in {Accepted, TempFailed, PermFailed, Unknown}
           && ((m.attempts[k].suppressed || m.attempts[k].expired) ==> out.rows[i].status !in {Accepted, Unknown})
  {
  }

  lemma FinishEnds(cfg: Policy, m: Mail, k: nat, token: Token, ids: seq<Rid>, out: Result, at: Time, digest: Rid -> nat, now: Time)
    requires Sound(m) && CanFinish(m, k, token, ids, out, now)
    ensures k == |m.attempts| - 1 && EndsLast(m, FinishMail(cfg, m, k, out, at, digest, now))
    ensures FinishMail(cfg, m, k, out, at, digest, now).clock == now
  {
    assert k == |m.attempts| - 1 by {
      Unseal(m);
      OwnedIsLast(m, k, token);
    }
  }

  lemma RecoverEnds(m: Mail, now: Time)
    requires CanRecover(m, now)
    ensures EndsLast(m, RecoverMail(m, now)) && RecoverMail(m, now).clock == now
  {
  }

  // ---- Counting ----

  ghost function ActiveJobs(jobs: seq<C.Job>, p: Pid, at: Time): set<nat> {
    set j | 0 <= j < |jobs| && jobs[j].provider == p && jobs[j].open && jobs[j].until > at
  }

  lemma {:induction false} ActiveJobsCount(jobs: seq<C.Job>, p: Pid, at: Time)
    ensures |ActiveJobs(jobs, p, at)| == C.Active(jobs, p, at)
  {
    if jobs == [] {
      assert ActiveJobs(jobs, p, at) == {};
    } else {
      var n := |jobs| - 1;
      ActiveJobsCount(jobs[..n], p, at);
      var rest := ActiveJobs(jobs[..n], p, at);
      if jobs[n].provider == p && jobs[n].open && jobs[n].until > at {
        assert ActiveJobs(jobs, p, at) == rest + {n};
      } else {
        assert ActiveJobs(jobs, p, at) == rest;
      }
    }
  }

  lemma {:induction false} ImagesCount(xs: set<(Mid, nat)>, jobOf: map<(Mid, nat), nat>)
    requires xs <= jobOf.Keys && OneToOne(jobOf)
    ensures |set x | x in xs :: jobOf[x]| == |xs|
    decreases |xs|
  {
    var images := set x | x in xs :: jobOf[x];
    if xs == {} {
      assert images == {};
    } else {
      var x :| x in xs;
      var rest := xs - {x};
      ImagesCount(rest, jobOf);
      var others := set y | y in rest :: jobOf[y];
      assert images == others + {jobOf[x]};
      assert jobOf[x] !in others;
    }
  }

  lemma {:induction false} SubsetCount(a: set<nat>, b: set<nat>)
    requires a <= b
    ensures |a| <= |b|
    decreases |a|
  {
    if a != {} {
      var x :| x in a;
      SubsetCount(a - {x}, b - {x});
    }
  }
}
