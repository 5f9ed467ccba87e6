/** Delivery policy: what to do with one recipient after one SMTP attempt.

    The policy is a function of immutable evidence.  Its safety argument is that
    an automatic retry is chosen only when the remote side cannot have accepted
    the message for that recipient. */
module Delivery {
  import opened Options

  /** Instants and durations are nanoseconds. */
  type Time = int

  const MINUTE: int := 60_000_000_000
  const HOUR: int := 60 * MINUTE
  const WINDOW: int := 24 * HOUR
  const MAX_ATTEMPTS: nat := 7
  const INT64_MAX: int := 0x7fff_ffff_ffff_ffff

  /** States of a recipient row, also used for the per-attempt outcome. */
  datatype Status =
    | Queued | Sending | Accepted | TempFailed | PermFailed | Unknown
    | Bounced | Delivered | Suppressed | Cancelled | Expired
    | RcptOk  // RCPT answered 25x; exists only while a conversation is open

  /** Protocol stages named by the SMTP client. */
  datatype Stage =
    | NoStage
    | InvalidEnvelope | InvalidEml
    | DnsError | ConnectError | TlsError | GreetingError | EhloError | StarttlsError
    | AuthError | MailFromRejected | RcptRejected | RcptAccepted | RecorderError
    | DatabaseError | SuppressionBlocked | ExpiryBlocked
    | DataRejected | DataWriteError | FinalResponseError | FinalResponseUnknown | FinalResponse

  /** Error classes: a stage, a stage that timed out, or one of the special names. */
  datatype ErrorClass =
    | NoClass
    | AtStage(stage: Stage)
    | TimedOut(stage: Stage)
    | ConnectTimeout | ConnectRefused | ConnectionReset
    | AuthConnectionError | FinalResponseTimeout
    | CredentialDecryptionError | LocalStorageError | WorkerLeaseExpired

  datatype Action = Accept | Expire | Resume | Retry | Permanent | MarkUnknown | Manual | Suppress | Cancel | Resolution

  datatype Evidence = Evidence(
    stage: Stage,
    errorClass: ErrorClass,
    status: Status,
    code: int,
    finalCode: int,
    finalResponse: bool,
    bodyStarted: bool)

  datatype Decision = Decision(
    version: nat,
    action: Action,
    retryAfter: int,
    mayHaveDelivered: bool,
    failoverAllowed: bool,
    terminal: bool)

  /** `digest` is the first two bytes of the hash of the retry seed. */
  datatype Budget = Budget(attempts: int, startedAt: Option<Time>, now: Time, digest: nat)

  predicate Positive(code: int) { 200 <= code < 300 }
  predicate Negative(code: int) { 400 <= code < 600 }
  predicate Transient(code: int) { 400 <= code < 500 }
  predicate Final5xx(code: int) { 500 <= code < 600 }

  /** The server refused this recipient by name, at RCPT. */
  predicate RecipientRefused(e: Evidence) {
    e.stage == RcptRejected && Negative(e.code)
  }

  /** Error classes whose name starts with one of the connection-setup prefixes. */
  predicate SetupClass(c: ErrorClass) {
    match c
    case AtStage(s) => s in {DnsError, ConnectError, TlsError, StarttlsError, GreetingError, EhloError}
    case TimedOut(s) => s in {DnsError, ConnectError, TlsError, StarttlsError, GreetingError, EhloError}
    case ConnectTimeout => true
    case ConnectRefused => true
    case AuthConnectionError => true
    case _ => false
  }

  predicate SafeTemporary(e: Evidence) {
    || Transient(e.code)
    || (e.finalResponse && Transient(e.finalCode))
    || SetupClass(e.errorClass)
    || (e.errorClass == ConnectionReset && !e.bodyStarted)
  }

  function Plain(action: Action, may: bool, terminal: bool): Decision {
    Decision(2, action, 0, may, false, terminal)
  }

  /** The classification half of the policy, before the retry budget is applied. */
  function Classify(e: Evidence): Decision {
    var rcRejected := RecipientRefused(e);
    if e.status == Accepted && e.finalResponse && Positive(e.finalCode) then
      Plain(Accept, true, true)
    else if (!rcRejected && e.finalResponse && Positive(e.finalCode) && e.status != Accepted)
         || e.status == Unknown
         || (!rcRejected && e.bodyStarted && !(e.finalResponse && Negative(e.finalCode))) then
      Plain(MarkUnknown, true, false)
    else if rcRejected then
      if e.code >= 500 then Plain(Permanent, false, true) else Plain(Retry, false, false)
    else if e.errorClass == AtStage(AuthError) && Transient(e.code) then
      Plain(Retry, false, false)
    else if e.errorClass == AtStage(AuthError) || e.errorClass == CredentialDecryptionError then
      Plain(Manual, false, false)
    else if e.errorClass in {LocalStorageError, AtStage(DatabaseError), AtStage(RecorderError)} then
      Plain(Manual, false, false)
    else if e.errorClass in {AtStage(InvalidEml), AtStage(InvalidEnvelope)} then
      Plain(Manual, false, false)
    else if e.status == PermFailed && e.stage in {GreetingError, EhloError, StarttlsError} then
      Plain(Manual, false, false)
    else if e.status == PermFailed && (Final5xx(e.code) || (e.finalResponse && Final5xx(e.finalCode))) then
      Plain(Permanent, false, true)
    else if e.status == TempFailed && SafeTemporary(e) then
      Plain(Retry, false, false).(failoverAllowed :=
        && !e.bodyStarted
        && !e.finalResponse
        && (|| (e.code == 0 && e.stage in {DnsError, ConnectError, TlsError})
            || (e.stage == DataRejected && Transient(e.code))))
    else
      Plain(Manual, false, false)
  }

  function Pow4(n: nat): nat {
    if n == 0 then 1 else 4 * Pow4(n - 1)
  }

  /** The nominal delay: one minute, quadrupled per attempt, capped at twelve hours. */
  function BaseDelay(attempts: int): int
    requires 1 <= attempts
  {
    var base := MINUTE * Pow4(attempts - 1);
    if base > 12 * HOUR then 12 * HOUR else base
  }

  /** Stable jitter in thousandths, from the first two bytes of the seed's hash. */
  function Jitter(digest: nat): int { 800 + digest % 401 }

  function RetryDelay(attempts: int, digest: nat): int
    requires 1 <= attempts
  {
    BaseDelay(attempts) * Jitter(digest) / 1000
  }

  function GiveUp(d: Decision): Decision {
    d.(action := Manual, failoverAllowed := false, retryAfter := 0)
  }

  function Decide(e: Evidence, b: Budget): Decision {
    var d := Classify(e);
    if d.action != Retry then d
    else if b.attempts < 1 || b.startedAt.None? || b.now < b.startedAt.value then GiveUp(d)
    else if b.attempts >= MAX_ATTEMPTS || b.now >= b.startedAt.value + WINDOW then GiveUp(d)
    else
      var delay := RetryDelay(b.attempts, b.digest);
      if b.now + delay >= b.startedAt.value + WINDOW then GiveUp(d)
      else d.(retryAfter := delay)
  }

  /** The body reached the wire and no reply refused it for this recipient, or a
      final 2xx was seen: the remote side may hold the message. */
  predicate MayHoldMessage(e: Evidence) {
    && !RecipientRefused(e)
    && ((e.finalResponse && Positive(e.finalCode)) || (e.bodyStarted && !(e.finalResponse && Negative(e.finalCode))))
  }

  /** For every piece of evidence and every budget: when the remote side may hold
      the message the policy never sends again and never calls it failed, and only a
      proven final 2xx is called accepted. */
  lemma UncertainNeverRetried(e: Evidence, b: Budget)
    ensures var d := Decide(e, b);
      && (d.action == Accept <==> e.status == Accepted && e.finalResponse && Positive(e.finalCode))
      && (d.action == MarkUnknown <==> d.action != Accept && (MayHoldMessage(e) || e.status == Unknown))
      && (d.mayHaveDelivered <==> d.action in {Accept, MarkUnknown})
      && (d.terminal <==> d.action in {Accept, Permanent})
      && (d.action in {Retry, Permanent, Manual} ==> !MayHoldMessage(e) && e.status != Unknown)
      && d.action in {Accept, MarkUnknown, Retry, Permanent, Manual}
      && d.version == 2
  {
  }

  /** An automatic retry needs a 4xx naming the recipient, a 4xx for the whole
      message, or a failure before the body; switching provider needs more. */
  lemma RetryNeedsTransientEvidence(e: Evidence, b: Budget)
    ensures Decide(e, b).action == Retry ==>
      && (|| (RecipientRefused(e) && Transient(e.code))
          || (e.errorClass == AtStage(AuthError) && Transient(e.code))
          || (e.status == TempFailed && SafeTemporary(e)))
      && (e.bodyStarted ==> RecipientRefused(e) || (e.finalResponse && Negative(e.finalCode)))
    ensures Decide(e, b).failoverAllowed ==>
      && Decide(e, b).action == Retry
      && !e.bodyStarted && !e.finalResponse && !RecipientRefused(e)
      && (e.code == 0 || Transient(e.code))
      && e.stage in {DnsError, ConnectError, TlsError, DataRejected}
    ensures Decide(e, b).action == Permanent ==> Final5xx(e.code) || (e.finalResponse && Final5xx(e.finalCode))
  {
  }

  lemma Pow4Values()
    ensures Pow4(0) == 1 && Pow4(1) == 4 && Pow4(2) == 16 && Pow4(3) == 64 && Pow4(4) == 256 && Pow4(5) == 1024
  {
    assert Pow4(2) == 4 * Pow4(1) && Pow4(3) == 4 * Pow4(2);
    assert Pow4(4) == 4 * Pow4(3) && Pow4(5) == 4 * Pow4(4);
  }

  /** Table of nominal delays for the attempts a retry can follow. */
  lemma BaseDelays()
    ensures BaseDelay(1) == MINUTE && BaseDelay(2) == 4 * MINUTE && BaseDelay(3) == 16 * MINUTE
    ensures BaseDelay(4) == 64 * MINUTE && BaseDelay(5) == 256 * MINUTE && BaseDelay(6) == 720 * MINUTE
  {
    Pow4Values();
  }

  /** The nominal delays after the first to the sixth attempt, in minutes. */
  const BACKOFF: seq<nat> := [1, 4, 16, 64, 256, 720]

  /** A delay after attempt c lies between 0.8 and 1.2 times the nominal one. */
  predicate Paced(c: int, delay: int) {
    1 <= c <= 6 && 800 * BACKOFF[c - 1] * MINUTE <= 1000 * delay <= 1200 * BACKOFF[c - 1] * MINUTE
  }

  lemma DelaysArePaced(attempts: int, digest: nat)
    requires 1 <= attempts < MAX_ATTEMPTS
    ensures Paced(attempts, RetryDelay(attempts, digest))
  {
    RetryDelayBounds(attempts, digest);
    BaseDelays();
    assert attempts in {1, 2, 3, 4, 5, 6};
  }

  lemma BaseDelayIsAMinuteMultiple(attempts: int) returns (k: int)
    requires 1 <= attempts < MAX_ATTEMPTS
    ensures BaseDelay(attempts) == k * 1000 && MINUTE <= k * 1000 <= 12 * HOUR
  {
    BaseDelays();
    k := BaseDelay(attempts) / 1000;
    assert attempts in {1, 2, 3, 4, 5, 6};
  }

  /** Every product formed while computing a delay fits a signed 64-bit integer, and
      the delay is exactly 0.8 to 1.2 times the nominal one. */
  lemma RetryDelayBounds(attempts: int, digest: nat)
    requires 1 <= attempts < MAX_ATTEMPTS
    ensures MINUTE * Pow4(attempts - 1) <= INT64_MAX
    ensures BaseDelay(attempts) * Jitter(digest) <= INT64_MAX
    ensures 1000 * RetryDelay(attempts, digest) == BaseDelay(attempts) * Jitter(digest)
    ensures 800 * BaseDelay(attempts) <= 1000 * RetryDelay(attempts, digest) <= 1200 * BaseDelay(attempts)
    ensures 48 * MINUTE <= 60 * RetryDelay(attempts, digest)
  {
    assert MINUTE * Pow4(attempts - 1) <= INT64_MAX by {
      Pow4Values();
      assert attempts in {1, 2, 3, 4, 5, 6};
    }
    var k := BaseDelayIsAMinuteMultiple(attempts);
    Scaled(BaseDelay(attempts), k, Jitter(digest));
  }

  /** Jitter divides out exactly: the nominal delay is a multiple of a thousand. */
  lemma Scaled(base: int, k: int, j: int)
    requires base == k * 1000 && k >= 0 && 800 <= j <= 1200
    ensures base * j / 1000 == k * j && base * j == 1000 * (k * j)
    ensures 800 * k <= k * j <= 1200 * k
  {
    assert base * j == 1000 * (k * j);
    assert k * 800 <= k * j <= k * 1200;
  }

  /** Delays grow strictly with the attempt number whatever the two seeds hash to. */
  lemma RetryDelaysGrow(a1: int, d1: nat, a2: int, d2: nat)
    requires 1 <= a1 < a2 < MAX_ATTEMPTS
    ensures RetryDelay(a1, d1) < RetryDelay(a2, d2)
  {
    RetryDelayBounds(a1, d1);
    RetryDelayBounds(a2, d2);
    BaseDelays();
    assert a1 in {1, 2, 3, 4, 5, 6} && a2 in {1, 2, 3, 4, 5, 6};
    assert 1200 * BaseDelay(a1) < 800 * BaseDelay(a2);
  }

  // ---- The policy, read from the evidence alone ----

  /** Faults nobody else can mend: the configuration, this host, or the message itself. */
  predicate OwnFault(c: ErrorClass) {
    c in {AtStage(AuthError), CredentialDecryptionError, LocalStorageError, AtStage(DatabaseError), AtStage(RecorderError),
          AtStage(InvalidEml), AtStage(InvalidEnvelope)}
  }

  /** The server cannot have the message for this recipient. */
  predicate NothingHeld(e: Evidence) {
    && !(e.status == Accepted && e.finalResponse && Positive(e.finalCode))
    && !MayHoldMessage(e) && e.status != Unknown
  }

  /** A temporary failure that is not the recipient's, nor ours. */
  predicate ProviderTrouble(e: Evidence) {
    !RecipientRefused(e) && !OwnFault(e.errorClass) && e.status == TempFailed && SafeTemporary(e)
  }

  /** Attempts are left and the seed's deadline falls inside the 24 hours. */
  predicate BudgetOpen(b: Budget) {
    && 1 <= b.attempts < 7 && b.startedAt.Some? && b.startedAt.value <= b.now
    && b.now + RetryDelay(b.attempts, b.digest) < b.startedAt.value + WINDOW
  }

  /** An automatic retry is the answer if and only if nothing can be held, the trouble is
      temporary (the recipient was greylisted, the login was deferred, or the provider
      failed before the body or refused it with 4xx), and the budget is open. */
  lemma RetryExactlyWhen(e: Evidence, b: Budget)
    ensures Decide(e, b).action == Retry <==>
      && NothingHeld(e) && BudgetOpen(b)
      && (|| (e.stage == RcptRejected && Transient(e.code))
          || (!RecipientRefused(e) && e.errorClass == AtStage(AuthError) && Transient(e.code))
          || ProviderTrouble(e))
  {
    RetryStaysInWindow(e, b);
  }

  /** The recipient is given up if and only if nothing can be held and a 5xx says so: its own
      RCPT reply, or one for the whole message that is neither our fault nor a provider that
      does not want to talk. */
  lemma PermanentExactlyWhen(e: Evidence, b: Budget)
    ensures Decide(e, b).action == Permanent <==>
      && NothingHeld(e)
      && (|| (e.stage == RcptRejected && Final5xx(e.code))
          || (&& !RecipientRefused(e) && !OwnFault(e.errorClass) && e.status == PermFailed
              && e.stage !in {GreetingError, EhloError, StarttlsError}
              && (Final5xx(e.code) || (e.finalResponse && Final5xx(e.finalCode)))))
  {
  }

  /** Another provider may be tried if and only if the retry is for the provider's trouble and
      it showed before any body: no name, no connection, no TLS, or DATA refused with 4xx. */
  lemma FailoverExactlyWhen(e: Evidence, b: Budget)
    ensures Decide(e, b).failoverAllowed <==>
      && Decide(e, b).action == Retry && ProviderTrouble(e)
      && !e.bodyStarted && !e.finalResponse
      && (if e.stage == DataRejected then Transient(e.code) else e.stage in {DnsError, ConnectError, TlsError} && e.code == 0)
  {
  }

  /** Every other piece of evidence goes to an operator. */
  lemma ManualExactlyWhen(e: Evidence, b: Budget)
    ensures Decide(e, b).action == Manual <==> NothingHeld(e) && Decide(e, b).action !in {Retry, Permanent}
  {
    UncertainNeverRetried(e, b);
  }

  /** The jitter takes every value from 0.8 to 1.2, in thousandths. */
  lemma JitterSpreads(j: int)
    requires 800 <= j <= 1200
    ensures exists digest: nat :: digest < 65536 && Jitter(digest) == j
  {
    assert Jitter(j - 800) == j;
  }

  /** A granted retry waits for the delay of its seed and falls inside the 24-hour window. */
  lemma RetryStaysInWindow(e: Evidence, b: Budget)
    ensures Decide(e, b).action == Retry ==>
      && 1 <= b.attempts < MAX_ATTEMPTS
      && b.startedAt.Some? && b.startedAt.value <= b.now
      && Decide(e, b).retryAfter == RetryDelay(b.attempts, b.digest)
      && 0 < Decide(e, b).retryAfter
      && b.now + Decide(e, b).retryAfter < b.startedAt.value + WINDOW
    ensures Decide(e, b).action != Retry ==> Decide(e, b).retryAfter == 0
  {
    if 1 <= b.attempts < MAX_ATTEMPTS {
      RetryDelayBounds(b.attempts, b.digest);
    }
  }

  datatype Sample = Success | Failure | Ignored

  predicate ProviderFaultClass(c: ErrorClass) {
    || SetupClass(c)
    || c in {AtStage(DataWriteError), TimedOut(DataWriteError), AtStage(FinalResponseUnknown),
            TimedOut(FinalResponseUnknown), FinalResponseTimeout, TimedOut(FinalResponse), ConnectionReset}
  }

  /** What one attempt says about the provider's availability. `partial` marks an
      attempt whose aggregate status is PARTIAL_ACCEPTED. */
  function ProviderOutcome(e: Evidence, partial: bool): Sample {
    if e.finalResponse && Positive(e.finalCode) && (e.status == Accepted || partial) then Success
    else if e.errorClass in {LocalStorageError, AtStage(DatabaseError), AtStage(RecorderError), AtStage(InvalidEml),
                             AtStage(InvalidEnvelope), CredentialDecryptionError} then Ignored
    else if e.errorClass == AtStage(AuthError) then
      if Transient(e.code) then Failure else Ignored
    else if ProviderFaultClass(e.errorClass) then Failure
    else if e.stage in {DataRejected, FinalResponseError} && Transient(e.code) then Failure
    else Ignored
  }

  /** What a sample says: a success is an acceptance; a failure is a deferred login, a
      connection that failed or broke, or a 4xx to the message as a whole. */
  lemma OutcomeExactlyWhen(e: Evidence, partial: bool)
    ensures ProviderOutcome(e, partial) == Success <==> e.finalResponse && Positive(e.finalCode) && (e.status == Accepted || partial)
    ensures ProviderOutcome(e, partial) == Failure <==>
      && ProviderOutcome(e, partial) != Success
      && (|| (e.errorClass == AtStage(AuthError) && Transient(e.code))
          || (!OwnFault(e.errorClass) && ProviderFaultClass(e.errorClass))
          || (!OwnFault(e.errorClass) && e.stage in {DataRejected, FinalResponseError} && Transient(e.code)))
  {
  }

  /** Evidence that lets a recipient leave a provider also counts against that provider, and
      a recipient's own refusal never does. */
  lemma LeavingCountsAsFailure(e: Evidence, b: Budget)
    ensures Decide(e, b).failoverAllowed ==> ProviderOutcome(e, false) == Failure
    ensures e.stage == RcptRejected && e.errorClass == NoClass ==> ProviderOutcome(e, false) != Failure
  {
    FailoverExactlyWhen(e, b);
  }
}
