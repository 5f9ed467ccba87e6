/** Stages and error classes by the names the relay stores.  The policy tests classes by the
    beginning of their names; here its tests on the classes are shown to be those. */
module ErrorNames {
  import opened Delivery
  import opened SmtpClient

  function StageName(s: Stage): string {
    match s
    case NoStage => ""
    case InvalidEnvelope => "INVALID_ENVELOPE"
    case InvalidEml => "INVALID_EML"
    case DnsError => "DNS_ERROR"
    case ConnectError => "CONNECT_ERROR"
    case TlsError => "TLS_ERROR"
    case GreetingError => "SMTP_GREETING_ERROR"
    case EhloError => "EHLO_ERROR"
    case StarttlsError => "STARTTLS_ERROR"
    case AuthError => "AUTH_ERROR"
    case MailFromRejected => "MAIL_FROM_REJECTED"
    case RcptRejected => "RCPT_REJECTED"
    case RcptAccepted => "RCPT_ACCEPTED"
    case RecorderError => "RECORDER_ERROR"
    case DatabaseError => "DATABASE_ERROR"
    case SuppressionBlocked => "SUPPRESSION_BLOCKED"
    case ExpiryBlocked => "EXPIRY_BLOCKED"
    case DataRejected => "DATA_REJECTED"
    case DataWriteError => "DATA_WRITE_ERROR"
    case FinalResponseError => "FINAL_RESPONSE_ERROR"
    case FinalResponseUnknown => "FINAL_RESPONSE_UNKNOWN"
    case FinalResponse => "FINAL_RESPONSE"
  }

  function ClassName(c: ErrorClass): string {
    match c
    case NoClass => ""
    case AtStage(s) => StageName(s)
    case TimedOut(s) => StageName(s) + "_TIMEOUT"
    case ConnectTimeout => "CONNECT_TIMEOUT"
    case ConnectRefused => "CONNECT_REFUSED"
    case ConnectionReset => "CONNECTION_RESET"
    case AuthConnectionError => "AUTH_CONNECTION_ERROR"
    case FinalResponseTimeout => "FINAL_RESPONSE_TIMEOUT"
    case CredentialDecryptionError => "CREDENTIAL_DECRYPTION_ERROR"
    case LocalStorageError => "LOCAL_STORAGE_ERROR"
    case WorkerLeaseExpired => "WORKER_LEASE_EXPIRED"
  }

  predicate StartsWith(name: string, prefix: string) {
    |prefix| <= |name| && forall i | 0 <= i < |prefix| :: name[i] == prefix[i]
  }

  /** Names of failures while the connection was set up. */
  predicate SetupName(name: string) {
    || StartsWith(name, "DNS_") || StartsWith(name, "CONNECT_") || StartsWith(name, "TLS_") || StartsWith(name, "STARTTLS_")
    || StartsWith(name, "SMTP_GREETING_") || StartsWith(name, "EHLO_") || StartsWith(name, "AUTH_CONNECTION_")
  }

  /** Names of failures after it. */
  predicate TransferName(name: string) {
    StartsWith(name, "DATA_WRITE_") || StartsWith(name, "FINAL_RESPONSE_UNKNOWN") || StartsWith(name, "FINAL_RESPONSE_TIMEOUT")
  }

  /** A name differs from a prefix at some position. */
  lemma Differs(name: string, prefix: string, i: nat)
    requires i < |prefix| && i < |name| && name[i] != prefix[i]
    ensures !StartsWith(name, prefix)
  {
  }

  predicate Begins(name: string, a: char, b: char) { |name| >= 2 && name[0] == a && name[1] == b }

  lemma Letters(name: string, prefix: string)
    requires |prefix| >= 2
    ensures StartsWith(name, prefix) ==> Begins(name, prefix[0], prefix[1])
  {
  }

  /** The first two letters settle most of it. */
  lemma SetupLetters(name: string)
    ensures SetupName(name) ==>
      || Begins(name, 'D', 'N') || Begins(name, 'C', 'O') || Begins(name, 'T', 'L') || Begins(name, 'S', 'T') || Begins(name, 'S', 'M')
      || Begins(name, 'E', 'H') || (Begins(name, 'A', 'U') && StartsWith(name, "AUTH_CONNECTION_"))
  {
    Letters(name, "DNS_");
    Letters(name, "CONNECT_");
    Letters(name, "TLS_");
    Letters(name, "STARTTLS_");
    Letters(name, "SMTP_GREETING_");
    Letters(name, "EHLO_");
    Letters(name, "AUTH_CONNECTION_");
  }

  lemma TransferLetters(name: string)
    ensures TransferName(name) ==> (Begins(name, 'D', 'A') && StartsWith(name, "DATA_WRITE_")) || Begins(name, 'F', 'I')
  {
    Letters(name, "DATA_WRITE_");
    Letters(name, "FINAL_RESPONSE_UNKNOWN");
    Letters(name, "FINAL_RESPONSE_TIMEOUT");
  }

  predicate SetupStage(s: Stage) { s in {DnsError, ConnectError, TlsError, StarttlsError, GreetingError, EhloError} }

  lemma SetupStageName(s: Stage, suffix: string)
    requires SetupStage(s)
    ensures SetupName(StageName(s) + suffix)
  {
  }

  lemma OtherStageName(s: Stage, suffix: string)
    requires !SetupStage(s) && s != NoStage
    ensures !SetupName(StageName(s) + suffix)
  {
    var name := StageName(s) + suffix;
    SetupLetters(name);
    assert name[0] == StageName(s)[0] && name[1] == StageName(s)[1];
    if s == AuthError { Differs(name, "AUTH_CONNECTION_", 5); }
  }

  lemma FinalNames(suffix: string)
    requires suffix in {"", "_TIMEOUT"}
    ensures TransferName("FINAL_RESPONSE_UNKNOWN" + suffix) && !TransferName("FINAL_RESPONSE_ERROR" + suffix)
    ensures TransferName("FINAL_RESPONSE" + suffix) <==> suffix != ""
  {
    Differs("FINAL_RESPONSE_ERROR" + suffix, "FINAL_RESPONSE_UNKNOWN", 15);
    Differs("FINAL_RESPONSE_ERROR" + suffix, "FINAL_RESPONSE_TIMEOUT", 15);
    Differs("FINAL_RESPONSE_ERROR" + suffix, "DATA_WRITE_", 0);
    if suffix == "" {
      assert !TransferName("FINAL_RESPONSE") by { Differs("FINAL_RESPONSE", "DATA_WRITE_", 0); }
      assert "FINAL_RESPONSE" + suffix == "FINAL_RESPONSE";
    }
  }

  lemma DataNames(suffix: string)
    ensures TransferName("DATA_WRITE_ERROR" + suffix) && !TransferName("DATA_REJECTED" + suffix) && !TransferName("DATABASE_ERROR" + suffix)
  {
    TransferLetters("DATA_REJECTED" + suffix);
    TransferLetters("DATABASE_ERROR" + suffix);
    Differs("DATA_REJECTED" + suffix, "DATA_WRITE_", 5);
    Differs("DATABASE_ERROR" + suffix, "DATA_WRITE_", 4);
  }

  /** The stages whose names announce a broken transfer. */
  lemma TransferStageName(s: Stage, suffix: string)
    requires s != NoStage && suffix in {"", "_TIMEOUT"}
    ensures TransferName(StageName(s) + suffix) <==> s in {DataWriteError, FinalResponseUnknown} || (s == FinalResponse && suffix != "")
  {
    var name := StageName(s) + suffix;
    if s in {FinalResponse, FinalResponseUnknown, FinalResponseError} {
      FinalNames(suffix);
    } else if s in {DataWriteError, DataRejected, DatabaseError} {
      DataNames(suffix);
    } else {
      TransferLetters(name);
      assert name[0] == StageName(s)[0] && name[1] == StageName(s)[1];
    }
  }

  lemma ConnectionNames()
    ensures SetupName("CONNECT_TIMEOUT") && SetupName("CONNECT_REFUSED") && SetupName("AUTH_CONNECTION_ERROR")
    ensures !SetupName("CONNECTION_RESET") && !SetupName("CREDENTIAL_DECRYPTION_ERROR")
  {
    assert "CONNECTION_RESET"[0] == 'C' && "CREDENTIAL_DECRYPTION_ERROR"[0] == 'C';
    Differs("CONNECTION_RESET", "CONNECT_", 7);
    Differs("CREDENTIAL_DECRYPTION_ERROR", "CONNECT_", 1);
  }

  lemma SpecialSetup(c: ErrorClass)
    requires !c.AtStage? && !c.TimedOut?
    ensures SetupName(ClassName(c)) <==> c in {ConnectTimeout, ConnectRefused, AuthConnectionError}
  {
    if c in {ConnectTimeout, ConnectRefused, AuthConnectionError, ConnectionReset, CredentialDecryptionError} {
      ConnectionNames();
    } else {
      SetupLetters(ClassName(c));
    }
  }

  lemma SpecialTransfer(c: ErrorClass)
    requires !c.AtStage? && !c.TimedOut?
    ensures TransferName(ClassName(c)) <==> c == FinalResponseTimeout
  {
    if c != FinalResponseTimeout { TransferLetters(ClassName(c)); }
  }

  lemma NoStageNames(suffix: string)
    requires suffix in {"", "_TIMEOUT"}
    ensures !SetupName(suffix) && !TransferName(suffix)
  {
    SetupLetters(suffix);
    TransferLetters(suffix);
  }

  lemma StagedNames(s: Stage, suffix: string)
    requires suffix in {"", "_TIMEOUT"}
    ensures SetupName(StageName(s) + suffix) <==> SetupStage(s)
    ensures TransferName(StageName(s) + suffix) <==> s in {DataWriteError, FinalResponseUnknown} || (s == FinalResponse && suffix != "")
  {
    if s == NoStage {
      assert StageName(s) + suffix == suffix;
      NoStageNames(suffix);
    } else {
      TransferStageName(s, suffix);
      if SetupStage(s) { SetupStageName(s, suffix); } else { OtherStageName(s, suffix); }
    }
  }

  /** The classes the policy treats as setup failures, and those the health record treats as
      provider failures, are exactly those whose stored names start like it. */
  lemma ClassesByName(c: ErrorClass)
    ensures SetupClass(c) <==> SetupName(ClassName(c))
    ensures ProviderFaultClass(c) <==> SetupName(ClassName(c)) || TransferName(ClassName(c)) || c == ConnectionReset
  {
    match c {
      case AtStage(s) =>
        StagedNames(s, "");
        assert StageName(s) + "" == StageName(s);
      case TimedOut(s) => StagedNames(s, "_TIMEOUT");
      case _ =>
        SpecialSetup(c);
        SpecialTransfer(c);
    }
  }

  /** A failure is a safe temporary one exactly by its codes and by the beginning of the name
      of its class; a reset counts only before the body. */
  lemma SafeTemporaryByName(e: Evidence)
    ensures SafeTemporary(e) <==>
      || 400 <= e.code <= 499
      || (e.finalResponse && 400 <= e.finalCode <= 499)
      || SetupName(ClassName(e.errorClass))
      || (e.errorClass == ConnectionReset && !e.bodyStarted)
  {
    ClassesByName(e.errorClass);
  }

  /** The client's classification on names. */
  function ClassifyName(stage: string, f: Fault): string {
    if stage == "AUTH_ERROR" && f.NoReply? && f.err in {DnsFailure, DialRefused, Timeout, Reset, Eof} then "AUTH_CONNECTION_ERROR"
    else if stage == "AUTH_ERROR" || stage == "TLS_ERROR" || stage == "RECORDER_ERROR" then stage
    else if f == NoReply(DnsFailure) then "DNS_ERROR"
    else if f == NoReply(DialRefused) then "CONNECT_REFUSED"
    else if f == NoReply(Timeout) then
      if StartsWith(stage, "FINAL_RESPONSE") then "FINAL_RESPONSE_TIMEOUT"
      else if stage == "CONNECT_ERROR" then "CONNECT_TIMEOUT"
      else stage + "_TIMEOUT"
    else if f == NoReply(Reset) then "CONNECTION_RESET"
    else stage
  }

  lemma FinalStageName(s: Stage)
    ensures StartsWith(StageName(s), "FINAL_RESPONSE") <==> s in {FinalResponseError, FinalResponseUnknown, FinalResponse}
  {
    Letters(StageName(s), "FINAL_RESPONSE");
  }

  lemma StageNamesDiffer(s: Stage)
    ensures StageName(s) == "AUTH_ERROR" <==> s == AuthError
    ensures StageName(s) == "TLS_ERROR" <==> s == TlsError
    ensures StageName(s) == "RECORDER_ERROR" <==> s == RecorderError
    ensures StageName(s) == "CONNECT_ERROR" <==> s == ConnectError
  {
    if StageName(s) == "AUTH_ERROR" { assert StageName(s)[0] == 'A'; }
    if StageName(s) == "TLS_ERROR" { assert StageName(s)[0] == 'T'; }
    if StageName(s) == "RECORDER_ERROR" { assert StageName(s)[1] == 'E' && StageName(s)[0] == 'R'; }
    if StageName(s) == "CONNECT_ERROR" { assert StageName(s)[0] == 'C'; }
  }

  lemma ClassifyAlike(stage: Stage, name: string, f: Fault)
    requires (name == "AUTH_ERROR" <==> stage == AuthError) && (name == "TLS_ERROR" <==> stage == TlsError)
    requires (name == "RECORDER_ERROR" <==> stage == RecorderError) && (name == "CONNECT_ERROR" <==> stage == ConnectError)
    requires stage == DnsError ==> name == "DNS_ERROR"
    requires StartsWith(name, "FINAL_RESPONSE") <==> stage in {FinalResponseError, FinalResponseUnknown, FinalResponse}
    ensures ClassifyName(name, f) == match ClassOf(stage, f)
      case AtStage(s) => if s == stage then name else "DNS_ERROR"
      case TimedOut(s) => name + "_TIMEOUT"
      case ConnectTimeout => "CONNECT_TIMEOUT"
      case ConnectRefused => "CONNECT_REFUSED"
      case ConnectionReset => "CONNECTION_RESET"
      case AuthConnectionError => "AUTH_CONNECTION_ERROR"
      case _ => "FINAL_RESPONSE_TIMEOUT"
    ensures var c := ClassOf(stage, f);
      c in {AtStage(stage), AtStage(DnsError), TimedOut(stage), ConnectTimeout, ConnectRefused, ConnectionReset, AuthConnectionError, FinalResponseTimeout}
  {
  }

  /** The class the client reports has exactly the name its classification builds. */
  lemma ClassOfByName(stage: Stage, f: Fault)
    ensures ClassName(ClassOf(stage, f)) == ClassifyName(StageName(stage), f)
  {
    StageNamesDiffer(stage);
    FinalStageName(stage);
    ClassifyAlike(stage, StageName(stage), f);
  }
}
