/** From the wire to the verdict: what the policy answers to every way a conversation can
    end, stated on the script of replies and losses. */
module ClientPolicy {
  import opened Options
  import opened Delivery
  import opened SmtpClient

  function Verdict(out: Result, i: nat, b: Budget): Decision
    requires i < |out.rows|
  {
    Decide(EvidenceOf(out, out.rows[i]), b)
  }

  /** The server could not be reached, or no encrypted channel could be set up. */
  predicate NoChannel(net: Net) {
    || (Prepared(net) && !Dialed(net))
    || (Dialed(net) && net.security == ImplicitTls && net.handshake.Some?)
    || (Greeted(net) && net.security == Starttls && (!net.starttlsOffered || (net.starttls == Answer(220) && net.handshake.Some?)))
  }

  /** Then another attempt is made, on another provider if there is one. */
  lemma NoChannelMoves(net: Net, ids: seq<Rid>, out: Result, i: nat, b: Budget)
    requires SetupAccount(net, out) && SetupFailed(ids, out) && i < |ids| && NoChannel(net) && BudgetOpen(b)
    ensures Verdict(out, i, b).action == Retry && Verdict(out, i, b).failoverAllowed
  {
  }

  /** The reply the conversation stumbled over while the two sides were introducing themselves. */
  function BadGreeting(net: Net): Option<Reply> {
    if !Dialed(net) || (net.security == ImplicitTls && net.handshake.Some?) then None
    else if net.greeting != Answer(220) then Some(net.greeting)
    else if net.ehlo != Answer(250) then Some(net.ehlo)
    else if net.security != Starttls || !net.starttlsOffered then None
    else if net.starttls != Answer(220) then Some(net.starttls)
    else if net.handshake.Some? || net.ehloSecure == Answer(250) then None
    else Some(net.ehloSecure)
  }

  /** A server that does not want to talk is tried again, but not left; an outright 5xx is
      for an operator. */
  lemma BadGreetingStays(net: Net, ids: seq<Rid>, out: Result, i: nat, b: Budget)
    requires SetupAccount(net, out) && SetupFailed(ids, out) && i < |ids| && BadGreeting(net).Some? && BudgetOpen(b)
    ensures var r := BadGreeting(net).value;
      && Verdict(out, i, b).action == (if r.Answer? && Final5xx(r.code) then Manual else Retry)
      && !Verdict(out, i, b).failoverAllowed
  {
  }

  /** A login that lost its connection or was deferred with 4xx is tried again; any other
      refusal is a matter of configuration. */
  ghost predicate LoginVerdict(net: Net, n: nat, action: Action) {
    match net.auth(n)
    case Lost(err, _) => action == (if err == OtherError then Manual else Retry)
    case Answer(code) => action == (if Transient(code) then Retry else Manual)
  }

  lemma BrokenLogin(net: Net, n: nat, ids: seq<Rid>, out: Result, i: nat, b: Budget)
    requires BrokeOff(net, n, out) && SetupFailed(ids, out) && i < |ids| && BudgetOpen(b)
    ensures LoginVerdict(net, n, Verdict(out, i, b).action) && !Verdict(out, i, b).failoverAllowed
  {
  }

  lemma LoginIsConfiguration(net: Net, ids: seq<Rid>, out: Result, i: nat, b: Budget)
    requires SetupAccount(net, out) && SetupFailed(ids, out) && i < |ids| && Secured(net) && !Identified(net) && BudgetOpen(b)
    ensures !Verdict(out, i, b).failoverAllowed
    ensures !net.authOffered ==> Verdict(out, i, b).action == Manual
    ensures net.authOffered && net.authStart.Some? ==> Verdict(out, i, b).action == (if net.authStart.value == OtherError then Manual else Retry)
    ensures net.authOffered && net.authStart.None? ==> exists n: nat :: BrokeOff(net, n, out) && LoginVerdict(net, n, Verdict(out, i, b).action)
  {
    if net.authOffered && net.authStart.None? {
      var n: nat :| BrokeOff(net, n, out);
      BrokenLogin(net, n, ids, out, i, b);
    }
  }

  /** Losses that prove the peer cannot have gone on. */
  predicate CleanLoss(err: NetErr) { err in {DnsFailure, DialRefused, Reset} }

  /** What a reply to one command means for everybody it concerned. */
  function CommandVerdict(r: Reply): Action {
    match r
    case Answer(code) => if Transient(code) then Retry else if Final5xx(code) then Permanent else Manual
    case Lost(err, _) => if CleanLoss(err) then Retry else Manual
  }

  lemma SenderRefused(net: Net, ids: seq<Rid>, out: Result, i: nat, b: Budget)
    requires SetupAccount(net, out) && SetupFailed(ids, out) && i < |ids| && Identified(net) && net.mailFrom != Answer(250) && BudgetOpen(b)
    ensures Verdict(out, i, b).action == CommandVerdict(net.mailFrom) && !Verdict(out, i, b).failoverAllowed
  {
  }

  /** A broken envelope is nobody's to retry. */
  lemma BadEnvelopeIsManual(net: Net, ids: seq<Rid>, out: Result, i: nat, b: Budget)
    requires SetupAccount(net, out) && SetupFailed(ids, out) && i < |ids| && net.security != PlainText && !net.envelopeValid
    ensures Verdict(out, i, b).action == Manual
  {
  }

  /** A recipient that was refused by name is settled by its own reply, whatever becomes of
      the others. */
  lemma OwnReplyDecides(net: Net, ids: seq<Rid>, out: Result, i: nat, b: Budget)
    requires i < |ids| && |out.rows| == |ids| && RcptDenied(net, i) && Negative(net.rcpt(i).code)
    requires out.rows[i] == DeniedRow(ids[i], net.rcpt(i).code) && BudgetOpen(b)
    ensures Verdict(out, i, b).action == (if Transient(net.rcpt(i).code) then Retry else Permanent) && !Verdict(out, i, b).failoverAllowed
  {
  }

  /** A recipient without a reply of its own, when another's reply was lost. */
  lemma LostEnvelope(net: Net, ids: seq<Rid>, n: nat, out: Result, i: nat, b: Budget)
    requires LostAt(net, ids, n, out) && i < |ids| && !(i < n && RcptDenied(net, i)) && !out.bodyStarted && !out.finalResponse && BudgetOpen(b)
    ensures Verdict(out, i, b).action == CommandVerdict(net.rcpt(n)) && !Verdict(out, i, b).failoverAllowed
  {
  }

  /** An admitted recipient when the server refuses DATA: a 4xx lets the message move on. */
  lemma RefusedData(net: Net, ids: seq<Rid>, out: Result, i: nat, b: Budget)
    requires EnvelopeAccount(net, ids, out) && ReachesFence(net, ids) && net.arm == Granted && net.data != Answer(354)
    requires i < |ids| && RcptAdmitted(net, i) && !out.bodyStarted && !out.finalResponse && BudgetOpen(b)
    ensures |out.rows| == |ids| && Verdict(out, i, b).action == CommandVerdict(net.data)
    ensures Verdict(out, i, b).failoverAllowed <==> net.data.Answer? && Transient(net.data.code)
  {
    assert StoppedAt(net, ids, |ids|, out) && TellsReply(out, DataRejected, net.data);
    RefusedDataRow(net.data, out, ids[i], i, b);
  }

  lemma RefusedDataRow(r: Reply, out: Result, id: Rid, i: nat, b: Budget)
    requires i < |out.rows| && out.rows[i] == Row(id, if Final5xx(out.code) then PermFailed else TempFailed, out.stage, out.code)
    requires TellsReply(out, DataRejected, r) && !out.bodyStarted && !out.finalResponse && BudgetOpen(b)
    ensures Verdict(out, i, b).action == CommandVerdict(r)
    ensures Verdict(out, i, b).failoverAllowed <==> r.Answer? && Transient(r.code)
  {
  }

  /** An admitted recipient when the fence denies DATA is never failed for good. */
  lemma DeniedByFence(net: Net, ids: seq<Rid>, out: Result, i: nat, b: Budget)
    requires EnvelopeAccount(net, ids, out) && ReachesFence(net, ids) && net.arm in {DeniedSuppressed, DeniedExpired}
    requires i < |ids| && RcptAdmitted(net, i) && !out.bodyStarted && !out.finalResponse
    ensures |out.rows| == |ids| && Verdict(out, i, b).action == Manual && out.rows[i].status == TempFailed
  {
    assert StoppedAt(net, ids, |ids|, out);
  }

  /** Once the body is on the wire only the final reply speaks, and silence is doubt. */
  lemma FinalReplyDecides(net: Net, ids: seq<Rid>, out: Result, i: nat, b: Budget)
    requires EndedAfterBody(net, ids, out) && BodyAccount(net, out) && i < |ids| && RcptAdmitted(net, i) && BudgetOpen(b)
    ensures Verdict(out, i, b).action ==
      if net.stream.Some? || net.final.Lost? then MarkUnknown
      else if Positive(net.final.code) then Accept
      else if Transient(net.final.code) then Retry
      else if Final5xx(net.final.code) then Permanent
      else MarkUnknown
    ensures !Verdict(out, i, b).failoverAllowed
  {
    assert SmtpClient.LateRow(net, i, ids[i], out, out.rows[i]);
  }

  // ---- The provider's record ----

  /** What one finished attempt says about its provider. */
  function SampleOf(out: Result): Sample {
    var status := if out.status.One? then out.status.status else Accepted;
    ProviderOutcome(Evidence(out.stage, out.errorClass, status, out.code, out.code, out.finalResponse, out.bodyStarted), out.status.Partial?)
  }

  /** An unreachable or unwilling server is a failure of the provider, whatever it said. */
  lemma SetupSample(net: Net, ids: seq<Rid>, out: Result)
    requires SetupAccount(net, out) && SetupFailed(ids, out) && (NoChannel(net) || BadGreeting(net).Some?)
    ensures SampleOf(out) == Failure
  {
  }

  /** A refused login is ours; a deferred or broken one is the provider's. */
  lemma LoginSample(net: Net, n: nat, ids: seq<Rid>, out: Result)
    requires BrokeOff(net, n, out) && SetupFailed(ids, out)
    ensures SampleOf(out) == match net.auth(n)
      case Lost(err, _) => (if err == OtherError then Ignored else Failure)
      case Answer(code) => (if Transient(code) then Failure else Ignored)
  {
  }

  /** A recipient's refusal, a sender's refusal and our own fences say nothing about it. */
  lemma EnvelopeSample(net: Net, ids: seq<Rid>, out: Result)
    requires EnvelopeAccount(net, ids, out) && Introduced(net) && !out.bodyStarted && !out.finalResponse
    ensures (forall i :: 0 <= i < |ids| ==> RcptDenied(net, i)) ==> SampleOf(out) == Ignored
    ensures ReachesFence(net, ids) && net.arm in {DeniedSuppressed, DeniedExpired} ==> SampleOf(out) == Ignored
    ensures ReachesFence(net, ids) && net.arm == Granted && net.data != Answer(354) && net.data.Answer? ==>
      SampleOf(out) == (if Transient(net.data.code) then Failure else Ignored)
  {
  }

  /** An accepted body leaves at least one recipient accepted and none in doubt. */
  lemma AcceptedSums(net: Net, ids: seq<Rid>, out: Result, i: nat)
    requires EndedAfterBody(net, ids, out) && Sums(out.rows, out.status) && i < |ids| && RcptAdmitted(net, i)
    requires net.stream.None? && net.final.Answer? && Positive(net.final.code)
    ensures out.status in {Partial, One(Accepted)}
  {
    assert SmtpClient.LateRow(net, i, ids[i], out, out.rows[i]);
    assert out.rows[i].status == Accepted;
    forall j | 0 <= j < |ids| ensures out.rows[j].status != Unknown { assert SmtpClient.LateRow(net, j, ids[j], out, out.rows[j]); }
  }

  lemma UnacceptedSample(net: Net, out: Result)
    requires out.bodyStarted && BodyAccount(net, out) && !(net.stream.None? && net.final.Answer? && Positive(net.final.code))
    ensures SampleOf(out) ==
      if net.stream.Some? || net.final.Lost? then Failure else if Transient(net.final.code) then Failure else Ignored
  {
  }

  /** After the body: an acceptance is a success, a 4xx or a lost answer a failure, and a
      permanent refusal of the message says nothing. */
  lemma TransferSample(net: Net, ids: seq<Rid>, out: Result, i: nat)
    requires EndedAfterBody(net, ids, out) && BodyAccount(net, out) && Sums(out.rows, out.status) && i < |ids| && RcptAdmitted(net, i)
    ensures SampleOf(out) ==
      if net.stream.Some? || net.final.Lost? then Failure
      else if Positive(net.final.code) then Success
      else if Transient(net.final.code) then Failure
      else Ignored
  {
    if net.stream.None? && net.final.Answer? && Positive(net.final.code) {
      AcceptedSums(net, ids, out, i);
    } else {
      UnacceptedSample(net, out);
    }
  }
}
