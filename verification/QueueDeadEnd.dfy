/** An operator is meant to settle every recipient left in doubt.  One kind cannot be
    settled: the row says DELIVERY_UNKNOWN while its line in the attempt does not, and the
    resolution refuses that combination.  This module says exactly when it arises and
    that it is permanent. */
module QueueDeadEnd {
  import opened Options
  import opened Delivery
  import opened SmtpClient
  import opened Queue
  import opened QueueInvariant
  import opened QueueSteps
  import opened QueueDelivery
  import opened QueueFinish
  import opened QueueRuns
  import opened QueueSafety

  /** RCPT was answered with a code that is neither 25x nor 4xx nor 5xx, and the body was
      sent to the other recipients without a negative final reply. */
  predicate UnintelligibleRcpt(out: Result, row: Row) {
    && out.bodyStarted
    && row.stage == RcptRejected && !Negative(row.code)
    && !(out.finalResponse && Negative(out.code))
  }

  lemma DoubtWithoutDoubtfulLine(ids: seq<Rid>, permitted: bool, out: Result, i: nat, b: Budget)
    requires Truthful(ids, permitted, out) && i < |ids|
    ensures Decide(EvidenceOf(out, out.rows[i]), b).action == MarkUnknown && out.rows[i].status != Unknown
      <==> UnintelligibleRcpt(out, out.rows[i]) && out.rows[i].status in {TempFailed, PermFailed}
  {
    assert TruthfulRow(out, out.rows[i]);
    UncertainNeverRetried(EvidenceOf(out, out.rows[i]), b);
  }

  ghost predicate DeadEnd(m: Mail, r: Rid) {
    && r in m.recipients && m.recipients[r].status == Unknown
    && m.lease.None?
    && InLast(m, r) && m.attempts[|m.attempts| - 1].lines[r].status != Unknown
  }

  /** Recording an outcome strands a recipient exactly on an unintelligible RCPT reply. */
  lemma StrandedExactlyWhen(cfg: Policy, m: Mail, k: nat, token: Token, ids: seq<Rid>, out: Result, at: Time, digest: Rid -> nat, now: Time, i: nat)
    requires Inv(m) && CanFinish(m, k, token, ids, out, now) && Reports(m, k, token, ids, out) && m.clock <= now
    requires i < |ids| && ids[i] in m.recipients && m.recipients[ids[i]].status == Sending && !m.attempts[k].suppressed
    ensures DeadEnd(FinishMail(cfg, m, k, out, at, digest, now), ids[i]) <==> UnintelligibleRcpt(out, out.rows[i]) && out.rows[i].status in {TempFailed, PermFailed}
  {
    var r := ids[i];
    var x := m.recipients[r];
    OwnedIsLast(m, k, token);
    ReportedRows(m, k, token, ids, out);
    assert r in m.attempts[k].lines;
    var row := out.rows[i];
    assert row.id == r && ById(out.rows)[r] == row;
    DoubtWithoutDoubtfulLine(ids, m.attempts[k].granted, out, i, Budget(x.attempts, x.retryStarted, at, digest(r)));
    StrandedRow(cfg, m, k, out, row, at, digest, now, r);
    assert TruthfulRow(out, row);
  }

  lemma StrandedRow(cfg: Policy, m: Mail, k: nat, out: Result, row: Row, at: Time, digest: Rid -> nat, now: Time, r: Rid)
    requires k == |m.attempts| - 1 && DistinctIds(out.rows)
    requires r in m.recipients && r in m.attempts[k].lines && m.recipients[r].status == Sending && !m.attempts[k].suppressed
    requires r in ById(out.rows) && ById(out.rows)[r] == row && row.status in {Accepted, TempFailed, PermFailed, Unknown}
    ensures var x := m.recipients[r];
      var d := Decide(EvidenceOf(out, row), Budget(x.attempts, x.retryStarted, at, digest(r)));
      DeadEnd(FinishMail(cfg, m, k, out, at, digest, now), r) <==>
        d.action == MarkUnknown && row.status != Unknown
  {
    var n := RecordedMail(cfg, m, k, out, at, digest, now);
    RecordedRow(cfg, m, k, out, row, at, digest, now, r);
    StrandedStays(n, now, r);
  }

  lemma RecordedRow(cfg: Policy, m: Mail, k: nat, out: Result, row: Row, at: Time, digest: Rid -> nat, now: Time, r: Rid)
    requires k == |m.attempts| - 1 && DistinctIds(out.rows)
    requires r in m.recipients && r in m.attempts[k].lines && m.recipients[r].status == Sending && !m.attempts[k].suppressed
    requires r in ById(out.rows) && ById(out.rows)[r] == row && row.status in {Accepted, TempFailed, PermFailed, Unknown}
    ensures var n := RecordedMail(cfg, m, k, out, at, digest, now); var x := m.recipients[r];
      var d := Decide(EvidenceOf(out, row), Budget(x.attempts, x.retryStarted, at, digest(r)));
      && DeadEnd(n, r) <==> d.action == MarkUnknown && row.status != Unknown
  {
    var n := RecordedMail(cfg, m, k, out, at, digest, now);
    assert n.attempts[k].lines[r] == FinishRow(cfg, m.attempts[k], out, row, m.recipients[r], at, digest(r)).1;
    assert n.recipients[r] == FinishRow(cfg, m.attempts[k], out, row, m.recipients[r], at, digest(r)).0;
  }

  lemma StrandedStays(n: Mail, now: Time, r: Rid)
    ensures DeadEnd(Refreshed(ApplyExpiry(n, now)), r) <==> DeadEnd(n, r)
  {
  }

  lemma DoubtBlocks(m: Mail, s: Step)
    requires m.status == One(Unknown) && m.lease.None?
    ensures s.Claim? || s.Arm? || s.Finish? || s.Recover? || s.Schedule? || s.Withdraw? ==> Next(m, s) == m
  {
  }

  lemma SweepsKeepDoubt(m: Mail, r: Rid, active: set<Address>, now: Time)
    requires DeadEnd(m, r)
    ensures DeadEnd(SweepExpiredMail(m, now), r) && DeadEnd(SweepSuppressedMail(m, active, now), r)
  {
  }

  lemma OthersResolve(m: Mail, r: Rid, other: Rid, expected: nat, v: Verdict, acknowledged: bool, active: set<Address>, now: Time)
    requires DeadEnd(m, r) && CanResolve(m, other, expected, v, acknowledged, active, now)
    ensures DeadEnd(ResolveMail(m, other, expected, v, now), r)
  {
    LastBeforeIsLast(m.attempts, |m.attempts|, r);
  }

  /** No transaction ever leads out of it: the message stays DELIVERY_UNKNOWN and is never
      attempted again. */
  lemma DeadEndStep(m: Mail, s: Step, r: Rid)
    requires Sound(m) && DeadEnd(m, r)
    ensures DeadEnd(Next(m, s), r) && |Next(m, s).attempts| == |m.attempts|
    ensures m.status == One(Unknown)
  {
    assert m.status == One(Unknown) && m.lease.None? by {
      Unseal(m);
      assert RowOk(m, r);
      assert Any(m.recipients, Unknown);
    }
    DoubtBlocks(m, s);
    match s {
      case SweepExpired(now) => SweepsKeepDoubt(m, r, {}, now);
      case SweepSuppressed(active, now) => SweepsKeepDoubt(m, r, active, now);
      case Resolve(other, expected, v, acknowledged, active, now) =>
        if CanResolve(m, other, expected, v, acknowledged, active, now) {
          OthersResolve(m, r, other, expected, v, acknowledged, active, now);
        }
      case _ =>
    }
  }

  lemma DeadEndStatus(ms: seq<Mail>, ss: seq<Step>, n: nat, r: Rid)
    requires Run(ms, ss) && n < |ms| && DeadEnd(ms[n], r)
    ensures ms[n].status == One(Unknown)
  {
    RunKeeps(ms, ss, n);
    DeadEndStep(ms[n], Recover(0), r);
  }

  lemma DeadEndStepTo(ms: seq<Mail>, ss: seq<Step>, i: nat, r: Rid)
    requires Run(ms, ss) && 0 < i < |ms| && Sound(ms[i - 1]) && DeadEnd(ms[i - 1], r)
    ensures DeadEnd(ms[i], r) && |ms[i].attempts| == |ms[i - 1].attempts|
  {
    StepIs(ms, ss, i);
    DeadEndStep(ms[i - 1], ss[i - 1], r);
  }

  lemma {:induction false} DeadEndIsPermanent(ms: seq<Mail>, ss: seq<Step>, n: nat, o: nat, r: Rid)
    requires Run(ms, ss) && n <= o < |ms| && DeadEnd(ms[n], r)
    ensures DeadEnd(ms[o], r) && |ms[o].attempts| == |ms[n].attempts| && ms[o].status == One(Unknown)
    decreases o
  {
    if n < o {
      DeadEndIsPermanent(ms, ss, n, o - 1, r);
      RunKeeps(ms, ss, o - 1);
      DeadEndStepTo(ms, ss, o, r);
    }
    DeadEndStatus(ms, ss, o, r);
  }

  // ---- A run that gets there ----

  function ClaimBoth(): Step { Claim(Policy(true, true, true), 0, 0, 2, {0, 1}, {}, 60, 0) }

  function FenceCall(): Step { Arm(0, 0, {}, 0, true) }

  function Report(out: Result): Step { Finish(Policy(true, true, true), 0, 0, [0, 1], out, 0, r => 0, 0) }

  /** The claimed message: the worker may hold the permission to send, and may have used it. */
  ghost predicate Held(m: Mail, granted: bool, body: bool) {
    && m.status == One(Sending) && m.lease == Some(Lease(0, 60)) && m.expiresAt.None? && m.clock == 0
    && m.recipients.Keys == {0, 1} && m.recipients[0].status == Sending && m.recipients[1].status == Sending
    && |m.attempts| == 1
    && var a := m.attempts[0];
    && a.token == 0 && a.ending == InProgress && a.lines.Keys == {0, 1}
    && a.armedAt.Some? == a.granted == granted && a.body == body && !a.suppressed && !a.expired
  }

  lemma ClaimHolds(m: Mail)
    requires m == Mail(One(Queued), None, None, None, None, true, false, map[0 := NewRecipient(0), 1 := NewRecipient(1)], [], {}, 0)
    ensures Legal(m, ClaimBoth()) && Held(Next(m, ClaimBoth()), false, false)
  {
    assert Eligible(ClaimBoth().cfg, m, {}, 0) == {0, 1};
    assert IsBatch({0, 1}, 2, {0, 1});
    var n := ClaimMail(m, 0, 0, {0, 1}, 60, 0);
    assert Next(m, ClaimBoth()) == n;
    assert n.recipients.Keys == {0, 1} && n.attempts[0].lines.Keys == {0, 1};
  }

  /** Two recipients, nothing suppressed, no schedule and no deadline. */
  lemma FreshMail() returns (m: Mail)
    ensures JustEnqueued(m) && Legal(m, ClaimBoth()) && Held(Next(m, ClaimBoth()), false, false)
  {
    var addresses: map<Rid, Address> := map[0 := 0, 1 := 1];
    assert addresses.Keys != {} by { assert 0 in addresses; }
    m := Enqueued(addresses, {}, None, None, 0);
    assert m == Mail(One(Queued), None, None, None, None, true, false, map[0 := NewRecipient(0), 1 := NewRecipient(1)], [], {}, 0) by {
      assert m.recipients == map[0 := NewRecipient(0), 1 := NewRecipient(1)];
      assert m.recipients[0].status == Queued;
    }
    ClaimHolds(m);
  }

  lemma FenceGrants(m: Mail)
    requires Held(m, false, false)
    ensures Legal(m, FenceCall()) && Held(Next(m, FenceCall()), true, false)
  {
    assert Fenced(m, 0, true, 0) && Owns(m, 0, 0);
  }

  lemma BodyGoesOut(m: Mail)
    requires Held(m, true, false)
    ensures Legal(m, Wire(0)) && Held(Next(m, Wire(0)), true, true)
  {
  }

  lemma ReportIsTrue(m: Mail, out: Result)
    requires Held(m, true, true) && Truthful([0, 1], true, out) && out.bodyStarted
    ensures Reports(m, 0, 0, [0, 1], out) && CanFinish(m, 0, 0, [0, 1], out, 0)
  {
    var ids: seq<Rid> := [0, 1];
    forall r ensures r in ids <==> r in m.attempts[0].lines { assert r in m.attempts[0].lines <==> r in m.attempts[0].lines.Keys; }
    forall i | 0 <= i < 2 ensures out.rows[i].id == ids[i] && ids[i] in m.recipients.Keys && TruthfulRow(out, out.rows[i]) { }
  }

  /** The worker's report is legal and strands recipient 1. */
  lemma ReportStrands(m: Mail, out: Result)
    requires Sound(m) && Held(m, true, true) && Truthful([0, 1], true, out) && out.bodyStarted
    requires UnintelligibleRcpt(out, out.rows[1]) && out.rows[1].status in {TempFailed, PermFailed}
    ensures Legal(m, Report(out)) && DeadEnd(Next(m, Report(out)), 1)
  {
    ReportIsTrue(m, out);
    var s := Report(out);
    assert Next(m, s) == FinishMail(s.cfg, m, 0, out, 0, s.digest, 0);
    assert DeadEnd(Next(m, s), 1) by {
      Unseal(m);
      StrandedExactlyWhen(s.cfg, m, 0, 0, [0, 1], out, 0, s.digest, 0, 1);
    }
  }

  lemma ClaimStep() returns (m: Mail)
    ensures Reaches([ClaimBoth()], m) && Held(m, false, false)
  {
    var f := FreshMail();
    ReachesStart(f);
    ReachesNext([], f, ClaimBoth());
    m := Next(f, ClaimBoth());
    assert [] + [ClaimBoth()] == [ClaimBoth()];
  }

  lemma FenceStep(ss: seq<Step>, m: Mail) returns (n: Mail)
    requires Reaches(ss, m) && Held(m, false, false)
    ensures Reaches(ss + [FenceCall()], n) && Held(n, true, false)
  {
    FenceGrants(m);
    ReachesNext(ss, m, FenceCall());
    n := Next(m, FenceCall());
  }

  lemma BodyStep(ss: seq<Step>, m: Mail) returns (n: Mail)
    requires Reaches(ss, m) && Held(m, true, false)
    ensures Reaches(ss + [Wire(0)], n) && Held(n, true, true)
  {
    BodyGoesOut(m);
    ReachesNext(ss, m, Wire(0));
    n := Next(m, Wire(0));
  }

  lemma ReportStep(ss: seq<Step>, m: Mail, out: Result) returns (n: Mail)
    requires Reaches(ss, m) && Held(m, true, true) && Truthful([0, 1], true, out) && out.bodyStarted
    requires UnintelligibleRcpt(out, out.rows[1]) && out.rows[1].status in {TempFailed, PermFailed}
    ensures Reaches(ss + [Report(out)], n) && DeadEnd(n, 1)
  {
    ReachesSound(ss, m);
    ReportStrands(m, out);
    ReachesNext(ss, m, Report(out));
    n := Next(m, Report(out));
  }

  /** Enqueue, claim, fence, body and outcome. */
  ghost function StrandingSteps(out: Result): seq<Step> {
    [ClaimBoth()] + [FenceCall()] + [Wire(0)] + [Report(out)]
  }

  /** Every such outcome ends a run with the recipient stranded. */
  lemma StrandingRun(out: Result) returns (m: Mail)
    requires Truthful([0, 1], true, out) && out.bodyStarted
    requires UnintelligibleRcpt(out, out.rows[1]) && out.rows[1].status in {TempFailed, PermFailed}
    ensures Reaches(StrandingSteps(out), m) && DeadEnd(m, 1)
  {
    m := ClaimStep();
    m := FenceStep([ClaimBoth()], m);
    m := BodyStep([ClaimBoth()] + [FenceCall()], m);
    m := ReportStep([ClaimBoth()] + [FenceCall()] + [Wire(0)], m, out);
  }

  /** A server that admits one recipient, answers the other RCPT with 354, and accepts the
      body. */
  function SampleNet(): Net {
    Net(ImplicitTls, true, None, None, None, None, Answer(220), Answer(250), false, Lost(Eof, 0), Lost(Eof, 0),
        true, None, (i: nat) => Answer(235), (i: nat) => true, Answer(250), (i: nat) => if i == 0 then Answer(250) else Answer(354), Granted, Answer(354), None,
        Answer(250), (n: nat) => true)
  }

  /** Whatever its conversation reports, a run ends with that report and recipient 1 stranded. */
  lemma DeadEndWitness(out: Result) returns (m: Mail)
    requires EndedAfterBody(SampleNet(), [0, 1], out)
    ensures Reaches(StrandingSteps(out), m) && DeadEnd(m, 1)
  {
    var net := SampleNet();
    assert net.rcpt(0) == Answer(250) && net.rcpt(1) == Answer(354);
    assert RcptAdmitted(net, 0) && RcptDenied(net, 1);
    ConversationIsTruthful(net, [0, 1], out);
    assert SmtpClient.LateRow(net, 1, 1, out, out.rows[1]);
    m := StrandingRun(out);
  }

  /** And the conversation with that server does end so. */
  method SampleConversation() returns (out: Result)
    ensures EndedAfterBody(SampleNet(), [0, 1], out)
    ensures UnintelligibleRcpt(out, out.rows[1]) && out.rows[1].status == TempFailed
  {
    var net := SampleNet();
    out := Send(net, [0, 1]);
    assert net.rcpt(0) == Answer(250) && net.rcpt(1) == Answer(354);
    assert RcptAdmitted(net, 0);
    assert ReachesBody(net, [0, 1]);
    assert SmtpClient.LateRow(net, 1, 1, out, out.rows[1]);
  }
}
