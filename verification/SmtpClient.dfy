/** One bounded SMTP conversation.

    The network, the event recorder and the durable permission to transmit are a
    script: any sequence of replies, losses and failures.  `Send` turns the script
    into one final status per recipient. */
module SmtpClient {
  import opened Options
  import opened Delivery

  type Rid = nat

  datatype NetErr = DnsFailure | DialRefused | Timeout | Reset | Eof | OtherError

  /** A reply line starts with three digits, the first one not zero. */
  type ReplyCode = c: int | 100 <= c < 1000 witness 250

  /** A parsed reply, or a lost one.  A malformed line can still carry a number. */
  datatype Reply = Answer(code: ReplyCode) | Lost(err: NetErr, partial: int)

  /** What ended an exchange: a reply with an unexpected code, or no usable reply. */
  datatype Fault = BadReply(code: int) | NoReply(err: NetErr)

  datatype Security = Starttls | ImplicitTls | PlainText

  /** The answer of the durable fence that guards DATA. */
  datatype Permission = Granted | DeniedSuppressed | DeniedExpired | DeniedOther(err: NetErr)

  datatype Net = Net(
    security: Security,
    envelopeValid: bool,
    payload: Option<NetErr>,
    dns: Option<NetErr>,
    connect: Option<NetErr>,
    handshake: Option<NetErr>,
    greeting: Reply,
    ehlo: Reply,
    starttlsOffered: bool,
    starttls: Reply,
    ehloSecure: Reply,
    authOffered: bool,
    authStart: Option<NetErr>,
    auth: nat -> Reply,
    challenge: nat -> bool,
    mailFrom: Reply,
    rcpt: nat -> Reply,
    arm: Permission,
    data: Reply,
    stream: Option<NetErr>,
    final: Reply,
    recorded: nat -> bool)

  datatype Row = Row(id: Rid, status: Status, stage: Stage, code: int)

  /** Attempt-level status; PARTIAL_ACCEPTED exists only at this level. */
  datatype Summary = One(status: Status) | Partial

  datatype Result = Result(
    status: Summary,
    stage: Stage,
    errorClass: ErrorClass,
    code: int,
    bodyStarted: bool,
    finalResponse: bool,
    events: nat,
    rows: seq<Row>)

  /** The reply class test of the textproto reader: a prefix of one to three digits. */
  predicate Matches(expected: nat, code: int) {
    if expected < 10 then code / 100 == expected
    else if expected < 100 then code / 10 == expected
    else code == expected
  }

  function Check(expected: nat, r: Reply): (f: Option<Fault>)
    ensures f.None? <==> r.Answer? && Matches(expected, r.code)
  {
    match r
    case Lost(err, _) => Some(NoReply(err))
    case Answer(code) => if Matches(expected, code) then None else Some(BadReply(code))
  }

  function ClassOf(stage: Stage, f: Fault): ErrorClass {
    var finalStage := stage in {FinalResponseError, FinalResponseUnknown, FinalResponse};
    if stage == AuthError && f.NoReply? && f.err != OtherError then AuthConnectionError
    else if stage in {AuthError, TlsError, RecorderError} then AtStage(stage)
    else match f
      case NoReply(DnsFailure) => AtStage(DnsError)
      case NoReply(DialRefused) => ConnectRefused
      case NoReply(Timeout) =>
        if finalStage then FinalResponseTimeout else if stage == ConnectError then ConnectTimeout else TimedOut(stage)
      case NoReply(Reset) => ConnectionReset
      case _ => AtStage(stage)
  }

  /** The status given to every recipient whose fate the failure decides. */
  function FaultStatus(f: Fault, uncertain: bool): Status {
    match f
    case BadReply(code) =>
      if Final5xx(code) then PermFailed
      else if uncertain && (code < 400 || code > 599) then Unknown
      else TempFailed
    case NoReply(_) => if uncertain then Unknown else TempFailed
  }

  /** Rows not yet settled by their own RCPT reply. */
  predicate Open(row: Row) {
    row.status == RcptOk || (row.status == TempFailed && row.code == 0)
  }

  /** The `fail` closure: record the failure, then settle every open row. */
  method Fail(out: Result, stage: Stage, f: Fault, uncertain: bool) returns (r: Result)
    ensures r == out.(stage := stage, errorClass := r.errorClass, code := r.code, rows := r.rows)
    ensures r.code == (if f.BadReply? then f.code else out.code)
    ensures r.errorClass == (if f.NoReply? && uncertain then ClassOf(FinalResponseUnknown, f) else ClassOf(stage, f))
    ensures |r.rows| == |out.rows|
    ensures forall i :: 0 <= i < |out.rows| ==>
      r.rows[i] == if Open(out.rows[i]) then Row(out.rows[i].id, FaultStatus(f, uncertain), stage, r.code) else out.rows[i]
  {
    r := out.(stage := stage, errorClass := ClassOf(stage, f));
    if f.BadReply? {
      r := r.(code := f.code);
    } else if uncertain {
      r := r.(errorClass := ClassOf(FinalResponseUnknown, f));
    }
    var status := FaultStatus(f, uncertain);
    var i := 0;
    while i < |r.rows|
      invariant 0 <= i <= |r.rows| == |out.rows|
      invariant r == out.(stage := stage, errorClass := r.errorClass, code := r.code, rows := r.rows)
      invariant r.code == (if f.BadReply? then f.code else out.code)
      invariant r.errorClass == (if f.NoReply? && uncertain then ClassOf(FinalResponseUnknown, f) else ClassOf(stage, f))
      invariant forall k :: i <= k < |out.rows| ==> r.rows[k] == out.rows[k]
      invariant forall k :: 0 <= k < i ==>
        r.rows[k] == if Open(out.rows[k]) then Row(out.rows[k].id, status, stage, r.code) else out.rows[k]
    {
      if Open(r.rows[i]) {
        r := r.(rows := r.rows[i := Row(r.rows[i].id, status, stage, r.code)]);
      }
      i := i + 1;
    }
  }

  /** The `event` closure: a recorder failure ends the conversation only while no
      body byte can have been sent. */
  method Event(net: Net, out: Result) returns (r: Result, ok: bool)
    ensures ok <==> net.recorded(out.events + 1) || out.bodyStarted
    ensures ok ==> r == out.(events := out.events + 1)
    ensures !ok ==> r == out.(events := out.events + 1, stage := RecorderError, errorClass := AtStage(RecorderError), rows := r.rows)
    ensures |r.rows| == |out.rows|
    ensures !ok ==> forall i :: 0 <= i < |out.rows| ==>
      r.rows[i] == if Open(out.rows[i]) then Row(out.rows[i].id, TempFailed, RecorderError, out.code) else out.rows[i]
  {
    r := out.(events := out.events + 1);
    ok := true;
    if !net.recorded(r.events) && !out.bodyStarted {
      r := Fail(r, RecorderError, NoReply(OtherError), false);
      ok := false;
    }
  }

  predicate Fresh(ids: seq<Rid>, out: Result) {
    && !out.bodyStarted && !out.finalResponse && out.code == 0 && out.errorClass == NoClass
    && |out.rows| == |ids|
    && forall i :: 0 <= i < |ids| ==> out.rows[i] == Row(ids[i], TempFailed, NoStage, 0)
  }

  /** Stages that only exist once RCPT has begun and carry no reply code of their own. */
  predicate EnvelopeStage(s: Stage) {
    s in {RcptRejected, RcptAccepted, SuppressionBlocked, ExpiryBlocked, DatabaseError}
  }

  /** Every row was settled alike, before any RCPT. */
  predicate SetupFailed(ids: seq<Rid>, out: Result) {
    && !out.bodyStarted && !out.finalResponse
    && |out.rows| == |ids|
    && !EnvelopeStage(out.stage)
    && forall i :: 0 <= i < |ids| ==>
         out.rows[i] == Row(ids[i], if Final5xx(out.code) then PermFailed else TempFailed, out.stage, out.code)
  }

  method Abort(ids: seq<Rid>, out: Result, stage: Stage, f: Fault) returns (r: Result)
    requires Fresh(ids, out) && !EnvelopeStage(stage)
    ensures SetupFailed(ids, r) && Blames(r, (stage, f))
  {
    r := Fail(out, stage, f, false);
  }

  method Note(net: Net, ids: seq<Rid>, out: Result) returns (r: Result, ok: bool)
    requires Fresh(ids, out)
    ensures ok ==> Fresh(ids, r)
    ensures !ok ==> SetupFailed(ids, r)
    ensures Recording(net) ==> ok
  {
    r, ok := Event(net, out);
  }

  /** No event is lost: the recorder never ends the conversation. */
  ghost predicate Recording(net: Net) { forall n: nat :: net.recorded(n) }

  function Missing(stage: Stage, e: Option<NetErr>): Option<(Stage, Fault)> {
    if e.Some? then Some((stage, NoReply(e.value))) else None
  }

  function At(stage: Stage, f: Option<Fault>): Option<(Stage, Fault)> {
    if f.Some? then Some((stage, f.value)) else None
  }

  function Refusal(stage: Stage, expected: nat, r: Reply): Option<(Stage, Fault)> { At(stage, Check(expected, r)) }

  const AUTH_ROUNDS: nat := 10

  /** The login exchange from reply i on: up to ten challenges, each of which must decode
      and be answerable, then 235. */
  function AuthFault(net: Net, i: nat): Option<Fault>
    decreases AUTH_ROUNDS - i
  {
    match net.auth(i)
    case Lost(err, _) => Some(NoReply(err))
    case Answer(code) =>
      if code == 334 && i < AUTH_ROUNDS then (if net.challenge(i) then AuthFault(net, i + 1) else Some(NoReply(OtherError)))
      else if code == 235 then None
      else Some(BadReply(code))
  }

  /** The server let the client in after n answered challenges. */
  ghost predicate LoggedIn(net: Net, n: nat) {
    net.auth(n) == Answer(235) && forall k: nat :: k < n ==> net.auth(k) == Answer(334) && net.challenge(k)
  }

  /** The challenge loop. */
  method Login(net: Net) returns (f: Option<Fault>)
    ensures f == AuthFault(net, 0)
    ensures f.None? <==> exists n: nat :: n <= AUTH_ROUNDS && LoggedIn(net, n)
  {
    var i := 0;
    var reply := net.auth(0);
    while reply.Answer? && reply.code == 334 && i < AUTH_ROUNDS
      invariant 0 <= i <= AUTH_ROUNDS && reply == net.auth(i) && AuthFault(net, i) == AuthFault(net, 0)
      invariant forall k: nat :: k < i ==> net.auth(k) == Answer(334) && net.challenge(k)
    {
      if !net.challenge(i) { return Some(NoReply(OtherError)); }
      i := i + 1;
      reply := net.auth(i);
    }
    assert reply == Answer(235) ==> LoggedIn(net, i);
    f := if reply.Lost? then Some(NoReply(reply.err)) else if reply.code == 235 then None else Some(BadReply(reply.code));
  }

  function Need(stage: Stage, met: bool): Option<(Stage, Fault)> {
    if met then None else Some((stage, NoReply(OtherError)))
  }

  /** The earlier of two obstacles, in the order the conversation meets them. */
  function Then(a: Option<(Stage, Fault)>, b: Option<(Stage, Fault)>): Option<(Stage, Fault)> {
    if a.Some? then a else b
  }

  function ConnectFault(net: Net): Option<(Stage, Fault)> {
    Then(Need(TlsError, net.security != PlainText),
    Then(Need(InvalidEnvelope, net.envelopeValid),
    Then(Missing(InvalidEml, net.payload),
    Then(Missing(DnsError, net.dns),
    Then(Missing(ConnectError, net.connect),
    Then(if net.security == ImplicitTls then Missing(TlsError, net.handshake) else None,
    Then(Refusal(GreetingError, 220, net.greeting),
         Refusal(EhloError, 250, net.ehlo))))))))
  }

  function StarttlsFault(net: Net): Option<(Stage, Fault)> {
    Then(Need(TlsError, net.starttlsOffered),
    Then(Refusal(StarttlsError, 220, net.starttls),
    Then(Missing(TlsError, net.handshake),
         Refusal(EhloError, 250, net.ehloSecure))))
  }

  function LoginFault(net: Net): Option<(Stage, Fault)> {
    Then(if net.security == Starttls then StarttlsFault(net) else None,
    Then(Need(AuthError, net.authOffered),
    Then(Missing(AuthError, net.authStart),
    Then(At(AuthError, AuthFault(net, 0)),
         Refusal(MailFromRejected, 250, net.mailFrom)))))
  }

  /** The result names the obstacle that ended the conversation. */
  predicate Blames(out: Result, fault: (Stage, Fault)) {
    && out.stage == fault.0
    && out.errorClass == ClassOf(fault.0, fault.1)
    && out.code == (if fault.1.BadReply? then fault.1.code else 0)
  }

  // ---- What the conversation got past, and what it says of the rest ----

  predicate Prepared(net: Net) { net.security != PlainText && net.envelopeValid && net.payload.None? }

  predicate Dialed(net: Net) { Prepared(net) && net.dns.None? && net.connect.None? }

  predicate Greeted(net: Net) {
    Dialed(net) && (net.security == ImplicitTls ==> net.handshake.None?) && net.greeting == Answer(220) && net.ehlo == Answer(250)
  }

  /** Nothing more is said in the clear. */
  predicate Secured(net: Net) {
    && Greeted(net)
    && (net.security == Starttls ==>
          net.starttlsOffered && net.starttls == Answer(220) && net.handshake.None? && net.ehloSecure == Answer(250))
  }

  ghost predicate Identified(net: Net) {
    Secured(net) && net.authOffered && net.authStart.None? && exists n: nat :: n <= 10 && LoggedIn(net, n)
  }

  ghost predicate Introduced(net: Net) { Identified(net) && net.mailFrom == Answer(250) }

  predicate Tells(out: Result, stage: Stage, kind: ErrorClass, code: int) {
    out.stage == stage && out.errorClass == kind && out.code == code
  }

  /** An exchange without a usable reply is named by what went wrong with the connection, or
      by its stage. */
  predicate TellsLoss(out: Result, stage: Stage, err: NetErr) {
    match err
    case DnsFailure => Tells(out, stage, AtStage(DnsError), 0)
    case DialRefused => Tells(out, stage, ConnectRefused, 0)
    case Timeout => Tells(out, stage, if stage == ConnectError then ConnectTimeout else TimedOut(stage), 0)
    case Reset => Tells(out, stage, ConnectionReset, 0)
    case Eof => Tells(out, stage, AtStage(stage), 0)
    case OtherError => Tells(out, stage, AtStage(stage), 0)
  }

  /** An unexpected reply is named by its stage, with its code. */
  predicate TellsReply(out: Result, stage: Stage, r: Reply) {
    match r
    case Answer(code) => Tells(out, stage, AtStage(stage), code)
    case Lost(err, _) => TellsLoss(out, stage, err)
  }

  predicate TellsLogin(out: Result, err: NetErr) {
    Tells(out, AuthError, if err == OtherError then AtStage(AuthError) else AuthConnectionError, 0)
  }

  /** The login broke off at reply n: a lost reply, a challenge that cannot be answered, or a
      reply that is not 235. */
  ghost predicate BrokeOff(net: Net, n: nat, out: Result) {
    && n <= 10 && (forall k: nat :: k < n ==> net.auth(k) == Answer(334) && net.challenge(k))
    && match net.auth(n)
       case Lost(err, _) => TellsLogin(out, err)
       case Answer(code) =>
         if code == 334 && n < 10 then !net.challenge(n) && Tells(out, AuthError, AtStage(AuthError), 0)
         else code != 235 && Tells(out, AuthError, AtStage(AuthError), code)
  }

  /** The first obstacle before MAIL is named, with all earlier ones absent. */
  predicate ConnectAccount(net: Net, out: Result) {
    && (net.security == PlainText ==> Tells(out, TlsError, AtStage(TlsError), 0))
    && (net.security != PlainText && !net.envelopeValid ==> Tells(out, InvalidEnvelope, AtStage(InvalidEnvelope), 0))
    && (net.security != PlainText && net.envelopeValid && net.payload.Some? ==> TellsLoss(out, InvalidEml, net.payload.value))
    && (Prepared(net) && net.dns.Some? ==> TellsLoss(out, DnsError, net.dns.value))
    && (Prepared(net) && net.dns.None? && net.connect.Some? ==> TellsLoss(out, ConnectError, net.connect.value))
    && (Dialed(net) && net.security == ImplicitTls && net.handshake.Some? ==> Tells(out, TlsError, AtStage(TlsError), 0))
    && (Dialed(net) && (net.security == ImplicitTls ==> net.handshake.None?) ==>
          && (net.greeting != Answer(220) ==> TellsReply(out, GreetingError, net.greeting))
          && (net.greeting == Answer(220) && net.ehlo != Answer(250) ==> TellsReply(out, EhloError, net.ehlo)))
  }

  predicate UpgradeAccount(net: Net, out: Result) {
    Greeted(net) && net.security == Starttls ==>
      && (!net.starttlsOffered ==> Tells(out, TlsError, AtStage(TlsError), 0))
      && (net.starttlsOffered && net.starttls != Answer(220) ==> TellsReply(out, StarttlsError, net.starttls))
      && (net.starttlsOffered && net.starttls == Answer(220) && net.handshake.Some? ==> Tells(out, TlsError, AtStage(TlsError), 0))
      && (net.starttlsOffered && net.starttls == Answer(220) && net.handshake.None? && net.ehloSecure != Answer(250) ==>
            TellsReply(out, EhloError, net.ehloSecure))
  }

  ghost predicate LoginAccount(net: Net, out: Result) {
    Secured(net) ==>
      && (!net.authOffered ==> Tells(out, AuthError, AtStage(AuthError), 0))
      && (net.authOffered && net.authStart.Some? ==> TellsLogin(out, net.authStart.value))
      && (net.authOffered && net.authStart.None? && !Identified(net) ==> exists n: nat :: BrokeOff(net, n, out))
      && (Identified(net) && net.mailFrom != Answer(250) ==> TellsReply(out, MailFromRejected, net.mailFrom))
  }

  ghost predicate SetupAccount(net: Net, out: Result) { ConnectAccount(net, out) && UpgradeAccount(net, out) && LoginAccount(net, out) }

  lemma ConnectMeans(net: Net)
    ensures ConnectFault(net).None? <==> Greeted(net)
  {
  }

  lemma ConnectTells(net: Net, out: Result)
    ensures ConnectFault(net).Some? && Blames(out, ConnectFault(net).value) ==> SetupAccount(net, out)
  {
  }

  /** The login exchange, seen from its end. */
  lemma {:induction false} AuthMeans(net: Net, i: nat, out: Result)
    requires i <= 10 && forall k: nat :: k < i ==> net.auth(k) == Answer(334) && net.challenge(k)
    ensures AuthFault(net, i).None? <==> exists n: nat :: n <= 10 && LoggedIn(net, n)
    ensures AuthFault(net, i).Some? && Blames(out, (AuthError, AuthFault(net, i).value)) ==> exists n: nat :: BrokeOff(net, n, out)
    decreases 10 - i
  {
    if net.auth(i) == Answer(334) && i < 10 && net.challenge(i) {
      AuthMeans(net, i + 1, out);
    } else if net.auth(i) == Answer(235) {
      assert LoggedIn(net, i);
    } else {
      if AuthFault(net, i).Some? && Blames(out, (AuthError, AuthFault(net, i).value)) { assert BrokeOff(net, i, out); }
    }
  }

  lemma UpgradeMeans(net: Net, out: Result)
    requires Greeted(net) && net.security == Starttls
    ensures StarttlsFault(net).None? <==> Secured(net)
    ensures StarttlsFault(net).Some? && Blames(out, StarttlsFault(net).value) ==> SetupAccount(net, out)
  {
  }

  lemma LoginMeans(net: Net, out: Result)
    requires Greeted(net)
    ensures LoginFault(net).None? <==> Introduced(net)
    ensures LoginFault(net).Some? && Blames(out, LoginFault(net).value) ==> SetupAccount(net, out)
  {
    AuthMeans(net, 0, out);
    if net.security == Starttls { UpgradeMeans(net, out); }
  }

  /** Validation, DNS, TCP, TLS, greeting, EHLO, up to the first obstacle. */
  method Reach(net: Net, ids: seq<Rid>, start: Result) returns (out: Result, ok: bool)
    requires Fresh(ids, start)
    ensures ok ==> Fresh(ids, out)
    ensures !ok ==> SetupFailed(ids, out)
    ensures ok ==> ConnectFault(net).None?
    ensures Recording(net) ==> (ok <==> ConnectFault(net).None?) && (!ok ==> Blames(out, ConnectFault(net).value))
  {
    out := start;
    ok := false;
    if net.security == PlainText { out := Abort(ids, out, TlsError, NoReply(OtherError)); return; }
    if !net.envelopeValid { out := Abort(ids, out, InvalidEnvelope, NoReply(OtherError)); return; }
    if net.payload.Some? { out := Abort(ids, out, InvalidEml, NoReply(net.payload.value)); return; }
    out, ok := Note(net, ids, out);
    if !ok { return; }
    if net.dns.Some? { out := Abort(ids, out, DnsError, NoReply(net.dns.value)); return out, false; }
    out, ok := Note(net, ids, out);
    if !ok { return; }
    if net.connect.Some? { out := Abort(ids, out, ConnectError, NoReply(net.connect.value)); return out, false; }
    out, ok := Note(net, ids, out);
    if !ok { return; }
    if net.security == ImplicitTls {
      if net.handshake.Some? { out := Abort(ids, out, TlsError, NoReply(net.handshake.value)); return out, false; }
      out, ok := Note(net, ids, out);
      if !ok { return; }
    }
    var f := Check(220, net.greeting);
    if f.Some? { out := Abort(ids, out, GreetingError, f.value); return out, false; }
    out, ok := Note(net, ids, out);
    if !ok { return; }
    f := Check(250, net.ehlo);
    if f.Some? { out := Abort(ids, out, EhloError, f.value); return out, false; }
    out, ok := Note(net, ids, out);
  }

  /** STARTTLS when it is the configured security, then AUTH and MAIL FROM. */
  method SignIn(net: Net, ids: seq<Rid>, start: Result) returns (out: Result, ok: bool)
    requires Fresh(ids, start)
    ensures ok ==> Fresh(ids, out)
    ensures !ok ==> SetupFailed(ids, out)
    ensures ok ==> LoginFault(net).None?
    ensures Recording(net) ==> (ok <==> LoginFault(net).None?) && (!ok ==> Blames(out, LoginFault(net).value))
  {
    out := start;
    ok := true;
    var f: Option<Fault> := None;
    if net.security == Starttls {
      if !net.starttlsOffered { out := Abort(ids, out, TlsError, NoReply(OtherError)); return out, false; }
      f := Check(220, net.starttls);
      if f.Some? { out := Abort(ids, out, StarttlsError, f.value); return out, false; }
      if net.handshake.Some? { out := Abort(ids, out, TlsError, NoReply(net.handshake.value)); return out, false; }
      out, ok := Note(net, ids, out);
      if !ok { return; }
      f := Check(250, net.ehloSecure);
      if f.Some? { out := Abort(ids, out, EhloError, f.value); return out, false; }
      out, ok := Note(net, ids, out);
      if !ok { return; }
    }
    out, ok := Note(net, ids, out);
    if !ok { return; }
    if !net.authOffered { out := Abort(ids, out, AuthError, NoReply(OtherError)); return out, false; }
    if net.authStart.Some? { out := Abort(ids, out, AuthError, NoReply(net.authStart.value)); return out, false; }
    f := Login(net);
    if f.Some? { out := Abort(ids, out, AuthError, f.value); return out, false; }
    out, ok := Note(net, ids, out);
    if !ok { return; }
    f := Check(250, net.mailFrom);
    if f.Some? { out := Abort(ids, out, MailFromRejected, f.value); return out, false; }
    out, ok := Note(net, ids, out);
  }

  /** A greeted connection, or the account of what prevented it. */
  method Connect(net: Net, ids: seq<Rid>, start: Result) returns (out: Result, ok: bool)
    requires Fresh(ids, start)
    ensures ok ==> Fresh(ids, out) && Greeted(net)
    ensures !ok ==> SetupFailed(ids, out)
    ensures Recording(net) ==> (ok <==> Greeted(net)) && (!ok ==> SetupAccount(net, out))
  {
    out, ok := Reach(net, ids, start);
    ConnectMeans(net);
    if !ok { ConnectTells(net, out); }
  }

  /** An encrypted, authenticated session with an accepted sender, or the account of what
      prevented it. */
  method Authenticate(net: Net, ids: seq<Rid>, start: Result) returns (out: Result, ok: bool)
    requires Fresh(ids, start) && Greeted(net)
    ensures ok ==> Fresh(ids, out) && Introduced(net)
    ensures !ok ==> SetupFailed(ids, out)
    ensures Recording(net) ==> (ok <==> Introduced(net)) && (!ok ==> SetupAccount(net, out))
  {
    out, ok := SignIn(net, ids, start);
    LoginMeans(net, out);
  }

  predicate RcptAdmitted(net: Net, i: nat) { net.rcpt(i).Answer? && Matches(25, net.rcpt(i).code) }

  /** Recipient i's own RCPT reply refused it. */
  predicate RcptDenied(net: Net, i: nat) { net.rcpt(i).Answer? && !Matches(25, net.rcpt(i).code) }

  function DeniedRow(id: Rid, code: int): Row {
    Row(id, if code >= 500 then PermFailed else TempFailed, RcptRejected, code)
  }

  /** A row settled before DATA: refused by its own reply, or by a failure that
      ended the conversation without a body. */
  predicate EarlyRow(net: Net, i: nat, id: Rid, out: Result, row: Row) {
    || (RcptDenied(net, i) && row == DeniedRow(id, net.rcpt(i).code))
    || row == Row(id, if Final5xx(out.code) then PermFailed else TempFailed, out.stage, out.code)
  }

  predicate EndedBeforeBody(net: Net, ids: seq<Rid>, out: Result) {
    && !out.bodyStarted && !out.finalResponse
    && |out.rows| == |ids|
    && out.stage != RcptAccepted
    && (EnvelopeStage(out.stage) ==> out.code == 0)
    && forall i :: 0 <= i < |ids| ==> EarlyRow(net, i, ids[i], out, out.rows[i])
  }

  /** After the RCPT loop each row says what its own reply said. */
  predicate EnvelopeRows(net: Net, ids: seq<Rid>, n: nat, out: Result) {
    && !out.bodyStarted && !out.finalResponse && out.code == 0 && out.errorClass == NoClass
    && |out.rows| == |ids|
    && forall i :: 0 <= i < |ids| ==>
         if i >= n then out.rows[i] == Row(ids[i], TempFailed, NoStage, 0)
         else if RcptAdmitted(net, i) then out.rows[i] == Row(ids[i], RcptOk, RcptAccepted, net.rcpt(i).code)
         else RcptDenied(net, i) && out.rows[i] == DeniedRow(ids[i], net.rcpt(i).code)
  }

  /** The conversation ended after n RCPT replies: the refused keep their own reply, everybody
      else shares the failure. */
  predicate StoppedAt(net: Net, ids: seq<Rid>, n: nat, out: Result) {
    && |out.rows| == |ids|
    && forall i :: 0 <= i < |ids| ==>
         out.rows[i] == if i < n && RcptDenied(net, i) then DeniedRow(ids[i], net.rcpt(i).code)
                        else Row(ids[i], if Final5xx(out.code) then PermFailed else TempFailed, out.stage, out.code)
  }

  /** Reply n to RCPT is the first that was lost. */
  predicate FirstLost(net: Net, n: nat) { net.rcpt(n).Lost? && forall i: nat :: i < n ==> net.rcpt(i).Answer? }

  /** The envelope and the fence: the first lost reply, the unanimous refusal, or the fence's
      denial is named, with the rows that go with it. */
  ghost predicate EnvelopeAccount(net: Net, ids: seq<Rid>, out: Result) {
    Introduced(net) ==>
      && (forall n: nat :: n < |ids| && FirstLost(net, n) ==> LostAt(net, ids, n, out))
      && (ids != [] && (forall i :: 0 <= i < |ids| ==> RcptDenied(net, i)) ==> Tells(out, RcptRejected, NoClass, 0) && StoppedAt(net, ids, |ids|, out))
      && (ids == [] ==> Tells(out, MailFromRejected, NoClass, 0))
      && (ReachesFence(net, ids) && net.arm != Granted ==>
            && StoppedAt(net, ids, |ids|, out)
            && match net.arm
               case DeniedSuppressed => Tells(out, SuppressionBlocked, AtStage(SuppressionBlocked), 0)
               case DeniedExpired => Tells(out, ExpiryBlocked, AtStage(ExpiryBlocked), 0)
               case DeniedOther(err) => TellsLoss(out, DatabaseError, err)
               case Granted => true)
      && (ReachesFence(net, ids) && net.arm == Granted && net.data != Answer(354) ==>
            TellsReply(out, DataRejected, net.data) && StoppedAt(net, ids, |ids|, out))
  }

  /** After the body an unusable answer leaves the doubt in the class. */
  predicate TellsDoubt(out: Result, stage: Stage, err: NetErr) {
    match err
    case DnsFailure => Tells(out, stage, AtStage(DnsError), 0)
    case DialRefused => Tells(out, stage, ConnectRefused, 0)
    case Timeout => Tells(out, stage, FinalResponseTimeout, 0)
    case Reset => Tells(out, stage, ConnectionReset, 0)
    case Eof => Tells(out, stage, AtStage(FinalResponseUnknown), 0)
    case OtherError => Tells(out, stage, AtStage(FinalResponseUnknown), 0)
  }

  predicate BodyAccount(net: Net, out: Result) {
    out.bodyStarted ==>
      if net.stream.Some? then TellsDoubt(out, DataWriteError, net.stream.value) && !out.finalResponse
      else match net.final
        case Lost(err, partial) => TellsDoubt(out, FinalResponseError, err) && (out.finalResponse <==> partial != 0)
        case Answer(code) => Tells(out, FinalResponseError, if Positive(code) then NoClass else AtStage(FinalResponseError), code) && out.finalResponse
  }

  method Stop(net: Net, ids: seq<Rid>, n: nat, out: Result, stage: Stage, f: Fault) returns (r: Result)
    requires EnvelopeRows(net, ids, n, out) && n <= |ids|
    requires stage != RcptAccepted && (EnvelopeStage(stage) ==> f.NoReply?)
    ensures EndedBeforeBody(net, ids, r) && Blames(r, (stage, f)) && StoppedAt(net, ids, n, r)
  {
    r := Fail(out, stage, f, false);
  }

  predicate LostAt(net: Net, ids: seq<Rid>, n: nat, out: Result) {
    n < |ids| && FirstLost(net, n) && TellsLoss(out, RcptRejected, net.rcpt(n).err) && StoppedAt(net, ids, n, out)
  }

  method StopAtLoss(net: Net, ids: seq<Rid>, n: nat, out: Result) returns (r: Result)
    requires n < |ids| && EnvelopeRows(net, ids, n, out) && FirstLost(net, n)
    ensures EndedBeforeBody(net, ids, r) && LostAt(net, ids, n, r)
  {
    r := Stop(net, ids, n, out, RcptRejected, NoReply(net.rcpt(n).err));
  }

  /** Record one RCPT reply. */
  method TakeReply(net: Net, ids: seq<Rid>, n: nat, out: Result) returns (r: Result)
    requires n < |ids| && EnvelopeRows(net, ids, n, out) && net.rcpt(n).Answer?
    ensures EnvelopeRows(net, ids, n + 1, r) && r == out.(rows := r.rows)
  {
    var code := net.rcpt(n).code;
    var f := Check(25, net.rcpt(n));
    r := out.(rows := out.rows[n := if f.Some? then DeniedRow(ids[n], code) else Row(ids[n], RcptOk, RcptAccepted, code)]);
  }

  /** The RCPT loop: one reply per recipient, a lost reply ends the conversation. */
  method Envelope(net: Net, ids: seq<Rid>, start: Result) returns (out: Result, ok: bool, accepted: nat)
    requires Fresh(ids, start)
    ensures ok ==> EnvelopeRows(net, ids, |ids|, out) && (accepted == 0 <==> forall i :: 0 <= i < |ids| ==> RcptDenied(net, i))
    ensures !ok ==> EndedBeforeBody(net, ids, out)
    ensures Recording(net) ==> (ok <==> forall i :: 0 <= i < |ids| ==> net.rcpt(i).Answer?)
    ensures Recording(net) && !ok ==> exists n: nat :: LostAt(net, ids, n, out)
  {
    out := start;
    ok := true;
    accepted := 0;
    var n := 0;
    while n < |ids|
      invariant 0 <= n <= |ids|
      invariant ok && EnvelopeRows(net, ids, n, out)
      invariant accepted == 0 ==> forall i :: 0 <= i < n ==> RcptDenied(net, i)
      invariant accepted > 0 ==> exists i :: 0 <= i < n && !RcptDenied(net, i)
      invariant forall i :: 0 <= i < n ==> net.rcpt(i).Answer?
    {
      if net.rcpt(n).Lost? {
        out := StopAtLoss(net, ids, n, out);
        return out, false, accepted;
      }
      out := TakeReply(net, ids, n, out);
      if Matches(25, net.rcpt(n).code) {
        assert !RcptDenied(net, n);
        accepted := accepted + 1;
      }
      n := n + 1;
      out, ok := Event(net, out);
      if !ok { return; }
    }
  }

  /** A row settled after the body reached the wire. */
  predicate LateRow(net: Net, i: nat, id: Rid, out: Result, row: Row) {
    if RcptDenied(net, i) then row == DeniedRow(id, net.rcpt(i).code)
    else
      && RcptAdmitted(net, i)
      && row.id == id
      && (|| (row.status == Accepted && row.stage == FinalResponse && row.code == net.rcpt(i).code
              && net.stream.None? && net.final.Answer? && Positive(net.final.code))
          || (row.status == Unknown && row.code == out.code && row.stage in {DataWriteError, FinalResponseError}
              && !(net.final.Answer? && net.stream.None? && (Positive(net.final.code) || Negative(net.final.code))))
          || (row.status == (if Final5xx(out.code) then PermFailed else TempFailed)
              && row.code == out.code && row.stage == FinalResponseError
              && net.stream.None? && net.final.Answer? && Negative(net.final.code)))
  }

  predicate EndedAfterBody(net: Net, ids: seq<Rid>, out: Result) {
    && out.bodyStarted && net.arm == Granted
    && |out.rows| == |ids|
    && (out.code != 0 ==> out.finalResponse && net.stream.None? && net.final.Answer? && net.final.code == out.code)
    && (out.finalResponse && net.final.Answer? ==> net.stream.None? && out.code == net.final.code)
    && (net.stream.None? && net.final.Answer? ==> out.finalResponse)
    && out.errorClass != AtStage(AuthError)
    && forall i :: 0 <= i < |ids| ==> LateRow(net, i, ids[i], out, out.rows[i])
  }

  /** The rows of an answered envelope, now with the body on the wire. */
  predicate BodyRows(net: Net, ids: seq<Rid>, out: Result) {
    && out.bodyStarted && net.arm == Granted && out.code == 0 && out.errorClass == NoClass
    && EnvelopeRows(net, ids, |ids|, out.(bodyStarted := false, finalResponse := false))
  }

  method LoseBody(net: Net, ids: seq<Rid>, out: Result) returns (r: Result)
    requires BodyRows(net, ids, out) && !out.finalResponse && net.stream.Some?
    ensures EndedAfterBody(net, ids, r) && BodyAccount(net, r)
  {
    r := Fail(out, DataWriteError, NoReply(net.stream.value), true);
  }

  method LoseFinal(net: Net, ids: seq<Rid>, out: Result, f: Fault) returns (r: Result)
    requires BodyRows(net, ids, out) && net.stream.None? && Check(2, net.final) == Some(f)
    requires out.finalResponse <==> net.final.Answer? || net.final.partial != 0
    ensures EndedAfterBody(net, ids, r) && BodyAccount(net, r)
  {
    r := Fail(out, FinalResponseError, f, true);
  }

  method Settle(net: Net, ids: seq<Rid>, start: Result) returns (out: Result)
    requires BodyRows(net, ids, start) && net.stream.None? && net.final.Answer? && Positive(net.final.code)
    ensures EndedAfterBody(net, ids, out) && BodyAccount(net, out)
  {
    out := start.(finalResponse := true, code := net.final.code, stage := FinalResponseError);
    var i := 0;
    while i < |ids|
      invariant 0 <= i <= |ids| == |out.rows|
      invariant out == start.(finalResponse := true, code := net.final.code, stage := FinalResponseError, rows := out.rows)
      invariant forall k :: 0 <= k < i ==> LateRow(net, k, ids[k], out, out.rows[k])
      invariant forall k :: i <= k < |ids| ==> out.rows[k] == start.rows[k]
    {
      if out.rows[i].status == RcptOk {
        out := out.(rows := out.rows[i := out.rows[i].(status := Accepted, stage := FinalResponse)]);
      }
      i := i + 1;
    }
  }

  /** Stream the body, read the final reply, settle the admitted rows. */
  method Transmit(net: Net, ids: seq<Rid>, start: Result) returns (out: Result)
    requires EnvelopeRows(net, ids, |ids|, start) && net.arm == Granted
    ensures EndedAfterBody(net, ids, out) && BodyAccount(net, out)
  {
    out := start.(bodyStarted := true);
    var ok: bool;
    out, ok := Event(net, out);
    if net.stream.Some? {
      out := LoseBody(net, ids, out);
      return;
    }
    out, ok := Event(net, out);
    if (if net.final.Answer? then net.final.code else net.final.partial) != 0 {
      out := out.(finalResponse := true);
    }
    var f := Check(2, net.final);
    if f.Some? {
      out := LoseFinal(net, ids, out, f.value);
      return;
    }
    out := Settle(net, ids, out);
    out, ok := Event(net, out);
    out, ok := Event(net, out);
  }

  /** The status of the whole attempt: unknown if any row is, accepted if all are, partial if
      some are, temporary if one is and none accepted, else permanent. */
  ghost predicate Sums(rows: seq<Row>, s: Summary) {
    && (s == One(Unknown) <==> exists i :: 0 <= i < |rows| && rows[i].status == Unknown)
    && (s == One(Accepted) <==> rows != [] && forall i :: 0 <= i < |rows| ==> rows[i].status == Accepted)
    && (s == Partial <==>
          && (forall i :: 0 <= i < |rows| ==> rows[i].status != Unknown)
          && (exists i :: 0 <= i < |rows| && rows[i].status == Accepted)
          && (exists i :: 0 <= i < |rows| && rows[i].status != Accepted))
    && (s == One(TempFailed) <==>
          && (forall i :: 0 <= i < |rows| ==> rows[i].status !in {Unknown, Accepted})
          && (exists i :: 0 <= i < |rows| && rows[i].status == TempFailed))
    && s in {One(Unknown), One(Accepted), Partial, One(TempFailed), One(PermFailed)}
  }

  /** Count the outcomes and derive the status of the whole attempt. */
  method Aggregate(rows: seq<Row>) returns (s: Summary)
    ensures Sums(rows, s)
  {
    var accepted, temporary, unknown := 0, 0, 0;
    var i := 0;
    while i < |rows|
      invariant 0 <= i <= |rows|
      invariant 0 <= accepted <= i && 0 <= temporary && 0 <= unknown
      invariant accepted == i <==> forall k :: 0 <= k < i ==> rows[k].status == Accepted
      invariant accepted > 0 <==> exists k :: 0 <= k < i && rows[k].status == Accepted
      invariant temporary > 0 <==> exists k :: 0 <= k < i && rows[k].status == TempFailed
      invariant unknown > 0 <==> exists k :: 0 <= k < i && rows[k].status == Unknown
    {
      match rows[i].status {
        case Accepted => accepted := accepted + 1;
        case TempFailed => temporary := temporary + 1;
        case Unknown => unknown := unknown + 1;
        case _ =>
      }
      i := i + 1;
    }
    if unknown > 0 { s := One(Unknown); }
    else if accepted == |rows| && accepted > 0 { s := One(Accepted); }
    else if accepted > 0 { s := Partial; }
    else if temporary > 0 { s := One(TempFailed); }
    else { s := One(PermFailed); }
  }

  /** With a working recorder, the body is sent exactly when nothing stands in the way:
      setup succeeds, every RCPT is answered, one is admitted, the fence grants DATA
      and the server asks for the body. */
  ghost predicate ReachesBody(net: Net, ids: seq<Rid>) {
    ReachesFence(net, ids) && net.arm == Granted && net.data == Answer(354)
  }

  ghost predicate ReachesFence(net: Net, ids: seq<Rid>) {
    && Introduced(net)
    && (forall i :: 0 <= i < |ids| ==> net.rcpt(i).Answer?)
    && (exists i :: 0 <= i < |ids| && RcptAdmitted(net, i))
  }

  method Refuse(net: Net, ids: seq<Rid>, out: Result) returns (r: Result)
    requires EnvelopeRows(net, ids, |ids|, out)
    requires forall i :: 0 <= i < |ids| ==> RcptDenied(net, i)
    ensures EndedBeforeBody(net, ids, r) && StoppedAt(net, ids, |ids|, r)
    ensures Tells(r, if ids == [] then MailFromRejected else RcptRejected, NoClass, 0)
  {
    r := out.(stage := if ids == [] then MailFromRejected else RcptRejected);
    forall i | 0 <= i < |ids| ensures EarlyRow(net, i, ids[i], r, r.rows[i]) {
      assert RcptDenied(net, i);
    }
  }

  /** Everything before the envelope. */
  method Introduce(net: Net, ids: seq<Rid>, start: Result) returns (out: Result, ok: bool)
    requires Fresh(ids, start)
    ensures ok ==> Fresh(ids, out) && Introduced(net)
    ensures !ok ==> SetupFailed(ids, out)
    ensures Recording(net) ==> (ok <==> Introduced(net)) && (!ok ==> SetupAccount(net, out))
  {
    out, ok := Connect(net, ids, start);
    if ok { out, ok := Authenticate(net, ids, out); }
  }

  lemma LossAccount(net: Net, ids: seq<Rid>, n: nat, out: Result)
    requires LostAt(net, ids, n, out)
    ensures EnvelopeAccount(net, ids, out) && !ReachesFence(net, ids)
  {
    forall k: nat | k < |ids| && FirstLost(net, k) ensures k == n { }
    assert !RcptDenied(net, n);
  }

  lemma RefusalAccount(net: Net, ids: seq<Rid>, out: Result)
    requires forall i :: 0 <= i < |ids| ==> RcptDenied(net, i)
    requires StoppedAt(net, ids, |ids|, out) && Tells(out, if ids == [] then MailFromRejected else RcptRejected, NoClass, 0)
    ensures EnvelopeAccount(net, ids, out) && !ReachesFence(net, ids)
  {
    forall k: nat | k < |ids| ensures !FirstLost(net, k) { assert RcptDenied(net, k); }
  }

  /** The envelope: ready when every RCPT was answered and some recipient was admitted. */
  method Enumerate(net: Net, ids: seq<Rid>, start: Result) returns (out: Result, ready: bool)
    requires Fresh(ids, start) && Introduced(net)
    ensures ready ==> EnvelopeRows(net, ids, |ids|, out) && ReachesFence(net, ids)
    ensures !ready ==> EndedBeforeBody(net, ids, out)
    ensures Recording(net) && !ready ==> !ReachesFence(net, ids) && EnvelopeAccount(net, ids, out)
  {
    var accepted: nat;
    out, ready, accepted := Envelope(net, ids, start);
    if !ready {
      if Recording(net) {
        ghost var n: nat :| LostAt(net, ids, n, out);
        LossAccount(net, ids, n, out);
      }
      return;
    }
    if accepted == 0 {
      out := Refuse(net, ids, out);
      RefusalAccount(net, ids, out);
      return out, false;
    }
    ghost var k :| 0 <= k < |ids| && !RcptDenied(net, k);
    assert RcptAdmitted(net, k);
  }

  /** Everything up to the fence: ready when some recipient was admitted. */
  method Prepare(net: Net, ids: seq<Rid>) returns (out: Result, ready: bool)
    ensures ready ==> EnvelopeRows(net, ids, |ids|, out) && ReachesFence(net, ids)
    ensures !ready ==> EndedBeforeBody(net, ids, out)
    ensures Recording(net) ==> (ready <==> ReachesFence(net, ids))
    ensures Recording(net) && !ready ==> SetupAccount(net, out) && EnvelopeAccount(net, ids, out)
    ensures Recording(net) && !Introduced(net) ==> SetupFailed(ids, out)
  {
    out := Result(One(TempFailed), ConnectError, NoClass, 0, false, false, 0, seq(|ids|, i requires 0 <= i < |ids| => Row(ids[i], TempFailed, NoStage, 0)));
    out, ready := Introduce(net, ids, out);
    if ready { out, ready := Enumerate(net, ids, out); }
    NothingBefore(net, out);
  }

  /** The fence's answer, DATA and the body. */
  method Complete(net: Net, ids: seq<Rid>, start: Result) returns (out: Result)
    requires EnvelopeRows(net, ids, |ids|, start) && ReachesFence(net, ids)
    ensures EndedBeforeBody(net, ids, out) || EndedAfterBody(net, ids, out)
    ensures out.bodyStarted <==> ReachesBody(net, ids)
    ensures EnvelopeAccount(net, ids, out) && BodyAccount(net, out)
  {
    if net.arm != Granted {
      var stage := if net.arm == DeniedSuppressed then SuppressionBlocked else if net.arm == DeniedExpired then ExpiryBlocked else DatabaseError;
      out := Stop(net, ids, |ids|, start, stage, NoReply(if net.arm.DeniedOther? then net.arm.err else OtherError));
      return;
    }
    var f := Check(354, net.data);
    if f.Some? {
      out := Stop(net, ids, |ids|, start, DataRejected, f.value);
      return;
    }
    out := Transmit(net, ids, start);
  }

  /** Sum the rows up; the finished result keeps every promise. */
  method Conclude(net: Net, ids: seq<Rid>, was: Result) returns (out: Result)
    requires EndedBeforeBody(net, ids, was) || EndedAfterBody(net, ids, was)
    ensures EndedBeforeBody(net, ids, out) || EndedAfterBody(net, ids, out)
    ensures out == was.(status := out.status)
    ensures Truthful(ids, net.arm == Granted, out)
    ensures forall i :: 0 <= i < |ids| && RemoteMayHold(net, out, i) ==> out.rows[i].status in {Accepted, Unknown}
    ensures Sums(out.rows, out.status)
  {
    var s := Aggregate(was.rows);
    out := was.(status := s);
    SummaryKeepsRows(net, ids, was, s);
    ConversationIsTruthful(net, ids, out);
    forall i | 0 <= i < |ids| && RemoteMayHold(net, out, i) ensures out.rows[i].status in {Accepted, Unknown} {
      UncertainBodyNeverRetried(net, ids, out, i, Budget(0, None, 0, 0));
    }
  }

  /** The whole conversation: one final status per recipient, in order, whatever the
      script; a body that may have been accepted is never called failed. */
  method Send(net: Net, ids: seq<Rid>) returns (out: Result)
    ensures EndedBeforeBody(net, ids, out) || EndedAfterBody(net, ids, out)
    ensures Truthful(ids, net.arm == Granted, out)
    ensures forall i :: 0 <= i < |ids| && RemoteMayHold(net, out, i) ==> out.rows[i].status in {Accepted, Unknown}
    ensures out.bodyStarted ==> ReachesBody(net, ids)
    ensures Recording(net) ==> (out.bodyStarted <==> ReachesBody(net, ids))
    ensures Recording(net) ==> SetupAccount(net, out) && EnvelopeAccount(net, ids, out) && BodyAccount(net, out)
    ensures Recording(net) && !Introduced(net) ==> SetupFailed(ids, out)
    ensures Sums(out.rows, out.status)
  {
    var ready: bool;
    out, ready := Prepare(net, ids);
    if ready { out := Complete(net, ids, out); }
    NothingBefore(net, out);
    ghost var was := out;
    out := Conclude(net, ids, out);
    SummaryKeepsAccount(net, ids, was, out.status);
  }

  lemma NothingBefore(net: Net, out: Result)
    ensures Introduced(net) ==> SetupAccount(net, out)
  {
  }

  lemma SummaryKeepsAccount(net: Net, ids: seq<Rid>, was: Result, s: Summary)
    ensures SetupAccount(net, was) ==> SetupAccount(net, was.(status := s))
    ensures EnvelopeAccount(net, ids, was) ==> EnvelopeAccount(net, ids, was.(status := s))
    ensures BodyAccount(net, was) ==> BodyAccount(net, was.(status := s))
    ensures SetupFailed(ids, was) ==> SetupFailed(ids, was.(status := s))
  {
    SummaryKeepsLogin(net, was, s);
    SummaryKeepsEnvelope(net, ids, was, s);
  }

  lemma SummaryKeepsLogin(net: Net, was: Result, s: Summary)
    ensures LoginAccount(net, was) ==> LoginAccount(net, was.(status := s))
  {
    forall n: nat | BrokeOff(net, n, was) ensures BrokeOff(net, n, was.(status := s)) { }
  }

  lemma SummaryKeepsEnvelope(net: Net, ids: seq<Rid>, was: Result, s: Summary)
    ensures EnvelopeAccount(net, ids, was) ==> EnvelopeAccount(net, ids, was.(status := s))
  {
    var out := was.(status := s);
    forall n: nat ensures StoppedAt(net, ids, n, was) ==> StoppedAt(net, ids, n, out) { }
    if EnvelopeAccount(net, ids, was) && Introduced(net) {
      forall n: nat | n < |ids| && FirstLost(net, n) ensures LostAt(net, ids, n, out) { assert LostAt(net, ids, n, was); }
    }
  }

  lemma SummaryKeepsRows(net: Net, ids: seq<Rid>, was: Result, s: Summary)
    ensures EndedBeforeBody(net, ids, was) ==> EndedBeforeBody(net, ids, was.(status := s))
    ensures EndedAfterBody(net, ids, was) ==> EndedAfterBody(net, ids, was.(status := s))
  {
    var out := was.(status := s);
    if EndedBeforeBody(net, ids, was) {
      forall i | 0 <= i < |ids| ensures EarlyRow(net, i, ids[i], out, out.rows[i]) {
        assert EarlyRow(net, i, ids[i], was, was.rows[i]);
      }
    }
    if EndedAfterBody(net, ids, was) {
      forall i | 0 <= i < |ids| ensures LateRow(net, i, ids[i], out, out.rows[i]) {
        assert LateRow(net, i, ids[i], was, was.rows[i]);
      }
    }
  }

  function EvidenceOf(out: Result, row: Row): Evidence {
    Evidence(row.stage, out.errorClass, row.status, row.code, out.code, out.finalResponse, out.bodyStarted)
  }

  /** What a row can say, given the attempt it belongs to. */
  predicate TruthfulRow(out: Result, row: Row) {
    && row.status in {Accepted, TempFailed, PermFailed, Unknown}
    && (row.status == Accepted ==> out.bodyStarted && out.finalResponse && Positive(out.code))
    && (row.status == Unknown ==> out.bodyStarted)
    && (row.status == PermFailed ==> row.code >= 500)
    && (row.status == TempFailed ==> row.code < 500 || row.code >= 600)
    && (row.status in {TempFailed, PermFailed} && out.bodyStarted ==>
          row.stage == RcptRejected || (row.stage == FinalResponseError && out.finalResponse && Negative(out.code)))
    && (row.stage in {SuppressionBlocked, DatabaseError, ExpiryBlocked} ==> row.status == TempFailed)
  }

  /** The promise the queue relies on when it records an outcome. */
  predicate Truthful(ids: seq<Rid>, permitted: bool, out: Result) {
    && |out.rows| == |ids|
    && (forall i :: 0 <= i < |ids| ==> out.rows[i].id == ids[i] && TruthfulRow(out, out.rows[i]))
    && (out.bodyStarted ==> permitted)
    && (out.finalResponse ==> out.bodyStarted)
  }

  /** Every conversation keeps the promise, and the codes it records are the
      server's own: nothing is called refused that was not refused. */
  lemma ConversationIsTruthful(net: Net, ids: seq<Rid>, out: Result)
    requires EndedBeforeBody(net, ids, out) || EndedAfterBody(net, ids, out)
    ensures Truthful(ids, net.arm == Granted, out)
    ensures forall i :: 0 <= i < |ids| && RecipientRefused(EvidenceOf(out, out.rows[i])) ==> RcptDenied(net, i)
    ensures out.finalResponse && Negative(out.code) ==> net.stream.None? && net.final.Answer? && Negative(net.final.code)
  {
  }

  /** The body was transmitted for recipient i and no negative reply covers it. */
  predicate RemoteMayHold(net: Net, out: Result, i: nat) {
    && out.bodyStarted
    && RcptAdmitted(net, i)
    && !(net.stream.None? && net.final.Answer? && Negative(net.final.code))
  }

  /** For every script: where the remote side may hold the message, the recipient ends
      accepted or unknown and the policy agrees; elsewhere the policy
      never claims a delivery unless the reply was unintelligible. */
  lemma UncertainBodyNeverRetried(net: Net, ids: seq<Rid>, out: Result, i: nat, b: Budget)
    requires EndedBeforeBody(net, ids, out) || EndedAfterBody(net, ids, out)
    requires i < |ids|
    ensures RemoteMayHold(net, out, i) ==> out.rows[i].status in {Accepted, Unknown}
    ensures RemoteMayHold(net, out, i) ==> Decide(EvidenceOf(out, out.rows[i]), b).action in {Accept, MarkUnknown}
    ensures Decide(EvidenceOf(out, out.rows[i]), b).action == Retry ==>
      && out.rows[i].status == TempFailed
      && (|| !out.bodyStarted
          || (RcptDenied(net, i) && Negative(net.rcpt(i).code))
          || (net.final.Answer? && Negative(net.final.code)))
    ensures Decide(EvidenceOf(out, out.rows[i]), b).action == Accept <==>
      out.bodyStarted && RcptAdmitted(net, i) && net.stream.None? && net.final.Answer? && Positive(net.final.code)
  {
    UncertainNeverRetried(EvidenceOf(out, out.rows[i]), b);
    RetryNeedsTransientEvidence(EvidenceOf(out, out.rows[i]), b);
    if out.bodyStarted {
      assert LateRow(net, i, ids[i], out, out.rows[i]);
    } else {
      assert EarlyRow(net, i, ids[i], out, out.rows[i]);
    }
  }

  /** A truthful result is retried only from TEMP_FAILED, and only when no body was
      sent or a negative reply covers the recipient. */
  lemma TruthfulRetry(ids: seq<Rid>, permitted: bool, out: Result, i: nat, b: Budget)
    requires Truthful(ids, permitted, out) && i < |ids|
    ensures var d := Decide(EvidenceOf(out, out.rows[i]), b); var row := out.rows[i];
      && (d.action == Retry ==> row.status == TempFailed)
      && (d.action == Retry ==> !out.bodyStarted || RecipientRefused(EvidenceOf(out, row)) || (out.finalResponse && Negative(out.code)))
      && (d.action == Accept <==> row.status == Accepted)
      && (row.status == Unknown ==> d.action == MarkUnknown)
      && (d.action == Permanent ==> row.status == PermFailed)
      && (d.failoverAllowed ==> d.action == Retry && !out.bodyStarted)
      && (d.action == MarkUnknown ==> out.bodyStarted)
  {
    assert TruthfulRow(out, out.rows[i]);
    UncertainNeverRetried(EvidenceOf(out, out.rows[i]), b);
    RetryNeedsTransientEvidence(EvidenceOf(out, out.rows[i]), b);
  }

  /** The worker's own result when the message never reaches the SMTP client. */
  method PreparationFailure(ids: seq<Rid>, reason: ErrorClass) returns (out: Result)
    requires reason in {CredentialDecryptionError, LocalStorageError}
    ensures Truthful(ids, false, out) && !out.bodyStarted
    ensures forall i, b :: 0 <= i < |ids| ==> Decide(EvidenceOf(out, out.rows[i]), b).action == Manual
  {
    out := Result(One(TempFailed), NoStage, reason, 0, false, false, 0, seq(|ids|, i requires 0 <= i < |ids| => Row(ids[i], TempFailed, NoStage, 0)));
  }
}
