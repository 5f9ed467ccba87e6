/** Idempotent submission, cancellation and replacement over the whole store: the ledger,
    the quota charges, the messages and the links between a message and the one it
    supersedes.  Each call is one transaction; its commit may fail, or succeed without the
    caller learning it. */
module Submission {
  import opened Options
  import opened Delivery
  import opened SmtpClient
  import opened Queue
  import opened QueueInvariant
  import opened QueueSteps
  import opened QueueSafety
  import Runs = QueueRuns
  import F = Fingerprint
  import B = Budget
  import W = RollingWindow

  type Identity = B.Identity
  type Mid = nat

  datatype Entry = Entry(request: F.Document, message: Mid)

  /** A quota reservation: recipients charged to an identity's stream for one message. */
  datatype Charge = Charge(identity: Identity, stream: F.Stream, message: Mid, recipients: nat, at: Time)

  datatype Store = Store(
    limits: B.Config,
    ledger: map<(Identity, string), Entry>,
    mails: map<Mid, Mail>,
    owner: map<Mid, Identity>,
    predecessor: map<Mid, Mid>,
    charges: seq<Charge>)

  datatype Fate = Commits | Fails | CommitsUnseen

  datatype Refusal = Invalid | Conflict | Disabled | NotFound | NotCancellable | Unreserved(answer: B.Answer) | Unpublished | Uncertain

  datatype Answer = Stands(message: Mid, replayed: bool) | Refused(reason: Refusal)

  /** One submission: what the client sent, the identifier drawn for it, the switches of
      identity and stream, what the identity has scheduled, and what archive and commit
      answer.  The reservation is checked at `now` and stamped `at`. */
  datatype Call = Call(
    identity: Identity, key: string, request: F.Request, mid: Mid,
    enabled: bool, streamEnabled: bool, scheduledCount: nat, scheduledBytes: nat,
    published: bool, fate: Fate, active: set<Address>, now: Time, at: Time)

  // ---- Transactions ----

  predicate KeyOk(key: string) { 1 <= |key| <= 128 && forall i | 0 <= i < |key| :: '!' <= key[i] <= '~' }

  method ValidKey(key: string) returns (ok: bool)
    ensures ok == KeyOk(key)
  {
    if |key| < 1 || |key| > 128 { return false; }
    var i := 0;
    while i < |key|
      invariant 0 <= i <= |key| && forall j | 0 <= j < i :: '!' <= key[j] <= '~'
    {
      if key[i] < '!' || key[i] > '~' { return false; }
      i := i + 1;
    }
    ok := true;
  }

  predicate Owns(s: Store, identity: Identity, mid: Mid) { mid in s.mails && mid in s.owner && s.owner[mid] == identity }

  /** Why a pending message cannot be cancelled; a repeated cancellation is no error. */
  function CancelRefusal(s: Store, identity: Identity, mid: Mid, superseding: bool): Option<Refusal> {
    if !Owns(s, identity, mid) then Some(NotFound)
    else if s.mails[mid].cancelled then (if superseding then Some(NotCancellable) else None)
    else if CanCancel(s.mails[mid]) then None
    else Some(NotCancellable)
  }

  function CancelIn(s: Store, mid: Mid, now: Time): Store
    requires mid in s.mails
  {
    if s.mails[mid].cancelled then s else s.(mails := s.mails[mid := CancelMail(s.mails[mid], now)])
  }

  function Rows(recipients: seq<Address>): map<Rid, Address> { map i: Rid | 0 <= i < |recipients| :: recipients[i] }

  function NewMail(c: Call): Mail {
    Enqueued(Rows(c.request.recipients), c.active, c.request.scheduleAt, c.request.expiresAt, c.now)
  }

  /** The reservations as the budget reads them. */
  function Log(cs: seq<Charge>): (log: seq<W.Entry<B.Tag>>)
    ensures |log| == |cs|
    ensures forall i | 0 <= i < |cs| :: log[i] == W.Entry(cs[i].at, cs[i].recipients, (cs[i].identity, cs[i].stream))
  {
    seq(|cs|, (i: nat) requires i < |cs| => W.Entry(cs[i].at, cs[i].recipients, (cs[i].identity, cs[i].stream)))
  }

  function Quota(c: Call): B.Request {
    B.Request(c.identity, F.StreamOf(c.request), |c.request.recipients|, c.request.expiresAt, c.request.scheduleAt,
              if c.request.size < 0 then 0 else c.request.size, c.scheduledCount, c.scheduledBytes, c.enabled, c.streamEnabled)
  }

  function NewCharge(c: Call): Charge {
    Charge(c.identity, F.StreamOf(c.request), c.mid, |c.request.recipients|, c.at)
  }

  /** The rows a new submission writes, all or none. */
  function Stored(s: Store, c: Call): Store {
    var prior := c.request.predecessor;
    var s1 := if prior.Some? && prior.value in s.mails then CancelIn(s, prior.value, c.now) else s;
    Store(
      s1.limits,
      s1.ledger[(c.identity, c.key) := Entry(F.Canonical(c.request), c.mid)],
      s1.mails[c.mid := NewMail(c)],
      s1.owner[c.mid := c.identity],
      if prior.Some? then s1.predecessor[c.mid := prior.value] else s1.predecessor,
      s1.charges + [NewCharge(c)])
  }

  /** Why a superseding submission stops before the budget is asked. */
  function LinkRefusal(s: Store, c: Call): Option<Refusal> {
    var prior := c.request.predecessor;
    if prior.None? then None
    else if !c.enabled then Some(Disabled)
    else CancelRefusal(s, c.identity, prior.value, true)
  }

  ghost predicate Refuses(s: Store, c: Call, r: Refusal) {
    || LinkRefusal(s, c) == Some(r)
    || (LinkRefusal(s, c).None? && r.Unreserved? && r.answer != B.Reserved && !B.Admissible(s.limits, Log(s.charges), Quota(c), c.now)
        && B.Explains(s.limits, Log(s.charges), Quota(c), c.now, r.answer))
    || (LinkRefusal(s, c).None? && r == Unpublished && B.Admissible(s.limits, Log(s.charges), Quota(c), c.now) && !c.published)
  }

  /** Nothing stands in the way of storing the submission. */
  ghost predicate Storable(s: Store, c: Call) {
    LinkRefusal(s, c).None? && B.Admissible(s.limits, Log(s.charges), Quota(c), c.now) && c.published
  }

  /** What a submission may do to the store and answer. */
  ghost predicate Submits(s: Store, c: Call, s': Store, a: Answer) {
    if !KeyOk(c.key) || !F.Acceptable(c.request) then s' == s && a == Refused(Invalid)
    else if (c.identity, c.key) in s.ledger then
      var e := s.ledger[(c.identity, c.key)];
      s' == s && a == if e.request == F.Canonical(c.request) then Stands(e.message, true) else Refused(Conflict)
    else if !Storable(s, c) then s' == s && a.Refused? && Refuses(s, c, a.reason)
    else
      match c.fate
      case Commits => s' == Stored(s, c) && a == Stands(c.mid, false)
      case CommitsUnseen => s' == Stored(s, c) && a == Refused(Uncertain)
      case Fails => s' == s && a == Refused(Uncertain)
  }

  /** The store after a submission; its answer is decided up to the budget's reason. */
  ghost function Submit(s: Store, c: Call): Store {
    if KeyOk(c.key) && F.Acceptable(c.request) && (c.identity, c.key) !in s.ledger && Storable(s, c) && !c.fate.Fails? then Stored(s, c) else s
  }

  function Withdraw(s: Store, identity: Identity, mid: Mid, enabled: bool, fate: Fate, now: Time): (Store, Option<Refusal>) {
    if !enabled then (s, Some(Disabled))
    else if CancelRefusal(s, identity, mid, false).Some? || mid !in s.mails then (s, CancelRefusal(s, identity, mid, false))
    else (if fate.Fails? then s else CancelIn(s, mid, now), if fate.Commits? then None else Some(Uncertain))
  }

  function Empty(limits: B.Config): Store { Store(limits, map[], map[], map[], map[], []) }

  class Submissions {
    var store: Store

    constructor (limits: B.Config)
      ensures store == Empty(limits)
    {
      store := Empty(limits);
    }

    /** The transaction step by step: ledger first, then the superseded message, the quota,
        the archive, the new rows and the link; any refusal rolls everything back. */
    method EnqueueIdempotent(c: Call) returns (answer: Answer)
      modifies this
      ensures Submits(old(store), c, store, answer)
      ensures store == Submit(old(store), c)
      ensures c.mid !in old(store).mails && (answer == Stands(c.mid, false) || store != old(store)) ==> StoredAsRequested(old(store), c, store)
    {
      var keyOk := ValidKey(c.key);
      if !keyOk { return Refused(Invalid); }
      var fingerprint := F.RequestFingerprint(c.request);
      if fingerprint.None? { return Refused(Invalid); }
      var tx := store;
      if (c.identity, c.key) in tx.ledger {
        var e := tx.ledger[(c.identity, c.key)];
        if e.request != fingerprint.value { return Refused(Conflict); }
        return Stands(e.message, true);
      }
      tx := tx.(ledger := tx.ledger[(c.identity, c.key) := Entry(fingerprint.value, c.mid)]);
      var prior := c.request.predecessor;
      if prior.Some? {
        if !c.enabled { return Refused(Disabled); }
        var refusal := CancelRefusal(tx, c.identity, prior.value, true);
        if refusal.Some? { return Refused(refusal.value); }
        tx := CancelIn(tx, prior.value, c.now);
      }
      var reserved := B.Check(tx.limits, Log(tx.charges), Quota(c), c.now);
      if reserved != B.Reserved { return Refused(Unreserved(reserved)); }
      tx := tx.(charges := tx.charges + [NewCharge(c)]);
      if !c.published { return Refused(Unpublished); }
      tx := tx.(mails := tx.mails[c.mid := NewMail(c)], owner := tx.owner[c.mid := c.identity]);
      if prior.Some? { tx := tx.(predecessor := tx.predecessor[c.mid := prior.value]); }
      if c.fate.Fails? { return Refused(Uncertain); }
      if c.mid !in store.mails { StoredIsRequested(store, c); }
      store := tx;
      answer := if c.fate.Commits? then Stands(c.mid, false) else Refused(Uncertain);
    }

    method CancelPending(identity: Identity, mid: Mid, enabled: bool, fate: Fate, now: Time) returns (refusal: Option<Refusal>)
      modifies this
      ensures (store, refusal) == Withdraw(old(store), identity, mid, enabled, fate, now)
    {
      if !enabled { return Some(Disabled); }
      refusal := CancelRefusal(store, identity, mid, false);
      if refusal.Some? { return; }
      if !fate.Fails? { store := CancelIn(store, mid, now); }
      refusal := if fate.Commits? then None else Some(Uncertain);
    }
  }

  // ---- What is stored is what was asked ----

  /** The message a request asks for: its schedule and deadline, one waiting row per
      recipient, in order, taken out if its address is suppressed, and nothing tried yet. */
  ghost predicate AsRequested(c: Call, m: Mail) {
    && m.scheduleAt == c.request.scheduleAt && m.expiresAt == c.request.expiresAt
    && (forall r: Rid :: r in m.recipients <==> r < |c.request.recipients|)
    && (forall r: Rid | r in m.recipients :: RowAsRequested(m.recipients[r], c.request.recipients[r], c.active))
    && m.attempts == [] && m.lease.None? && m.route.None? && m.retries == {} && m.available && !m.cancelled && m.clock == c.now
    && m.status == One(if forall r | r in m.recipients :: m.recipients[r].address in c.active then Suppressed else Queued)
  }

  ghost predicate RowAsRequested(x: Recipient, address: Address, active: set<Address>) {
    && x.address == address && x.status == (if address in active then Suppressed else Queued)
    && x.attempts == 0 && x.retryStarted.None? && x.retryAt.None? && !x.automatic && !x.mayHave && x.manual == 0
  }

  /** What a stored submission adds, and that it changes nothing else: the superseded message
      is cancelled and linked, every other message is as it was. */
  ghost predicate StoredAsRequested(s: Store, c: Call, s': Store) {
    && s'.mails.Keys == s.mails.Keys + {c.mid} && AsRequested(c, s'.mails[c.mid])
    && (forall m | m in s.mails && c.request.predecessor != Some(m) :: s'.mails[m] == s.mails[m])
    && (c.request.predecessor.Some? ==>
          var p := c.request.predecessor.value;
          && p in s.mails && p in s.owner && s.owner[p] == c.identity
          && !s.mails[p].cancelled && CanCancel(s.mails[p]) && s'.mails[p] == CancelMail(s.mails[p], c.now)
          && s'.predecessor == s.predecessor[c.mid := p])
    && (c.request.predecessor.None? ==> s'.predecessor == s.predecessor)
    && s'.ledger == s.ledger[(c.identity, c.key) := Entry(F.Canonical(c.request), c.mid)]
    && s'.owner == s.owner[c.mid := c.identity]
    && s'.charges == s.charges + [Charge(c.identity, F.StreamOf(c.request), c.mid, |c.request.recipients|, c.at)]
    && s'.limits == s.limits
  }

  lemma NewMailAsRequested(c: Call)
    ensures AsRequested(c, NewMail(c))
  {
    var m := NewMail(c);
    var rows := Rows(c.request.recipients);
    forall r: Rid ensures r in m.recipients <==> r < |c.request.recipients| {
      assert r in rows <==> r < |c.request.recipients|;
      assert r in m.recipients <==> r in rows;
    }
    forall r: Rid | r in m.recipients ensures RowAsRequested(m.recipients[r], c.request.recipients[r], c.active) {
      assert rows[r] == c.request.recipients[r];
      var x := NewRecipient(rows[r]);
      assert m.recipients[r] == if Hit(x, c.active, false) then Suppressing(x) else x;
    }
  }

  lemma StoredIsRequested(s: Store, c: Call)
    requires c.mid !in s.mails && LinkRefusal(s, c).None?
    ensures StoredAsRequested(s, c, Stored(s, c))
  {
    NewMailAsRequested(c);
  }

  /** An accepted submission, or one that changed anything, stored exactly its request; its
      schedule lies ahead, at most 30 days and before its deadline. */
  lemma SubmissionStoresItsRequest(s: Store, c: Call, s': Store, a: Answer)
    requires Submits(s, c, s', a) && c.mid !in s.mails && (a == Stands(c.mid, false) || s' != s)
    ensures StoredAsRequested(s, c, s')
    ensures a in {Stands(c.mid, false), Refused(Uncertain)}
    ensures var q := c.request;
      && (q.scheduleAt.Some? ==> c.now < q.scheduleAt.value <= c.now + 30 * 24 * HOUR)
      && (q.expiresAt.Some? ==> c.now < q.expiresAt.value <= c.now + 30 * 24 * HOUR)
      && (q.scheduleAt.Some? && q.expiresAt.Some? ==> q.scheduleAt.value < q.expiresAt.value)
  {
    StoredIsRequested(s, c);
  }

  /** A cancellation request takes effect exactly for the caller's own message that can be
      cancelled; asking again is no error; nothing else changes. */
  lemma WithdrawMeans(s: Store, identity: Identity, mid: Mid, enabled: bool, fate: Fate, now: Time)
    ensures var (s', refusal) := Withdraw(s, identity, mid, enabled, fate, now);
      var own := mid in s.mails && mid in s.owner && s.owner[mid] == identity;
      && (s' != s ==> enabled && own && !s.mails[mid].cancelled && CanCancel(s.mails[mid]) && !fate.Fails?)
      && (enabled && own && !s.mails[mid].cancelled && CanCancel(s.mails[mid]) && !fate.Fails? ==>
            s' == s.(mails := s.mails[mid := CancelMail(s.mails[mid], now)]))
      && (refusal == Some(NotFound) <==> enabled && !own)
      && (refusal == Some(Disabled) <==> !enabled)
      && (refusal == Some(NotCancellable) <==> enabled && own && !s.mails[mid].cancelled && !CanCancel(s.mails[mid]))
      && (refusal.None? <==> enabled && own && (s.mails[mid].cancelled || CanCancel(s.mails[mid])) && fate.Commits?)
  {
  }

  // ---- Runs ----

  datatype Step =
    | Submission(call: Call)
    | Cancellation(identity: Identity, mid: Mid, enabled: bool, fate: Fate, now: Time)
    | Transfer(mid: Mid, addresses: map<Rid, Address>, active: set<Address>, now: Time)  // accepted over SMTP
    | Deliver(mid: Mid, step: Runs.Step)

  /** Identifiers are fresh and the clock of every message moves forward. */
  ghost predicate Legal(s: Store, step: Step) {
    match step
    case Submission(c) =>
      c.mid !in s.mails && c.now <= c.at && forall m | m in s.mails :: s.mails[m].clock <= c.now
    case Cancellation(_, mid, _, _, now) => mid in s.mails ==> s.mails[mid].clock <= now
    case Transfer(mid, addresses, _, _) => mid !in s.mails && addresses.Keys != {}
    case Deliver(mid, q) => mid in s.mails ==> Runs.Legal(s.mails[mid], q) && !q.Withdraw?
  }

  ghost function Next(s: Store, step: Step): Store {
    match step
    case Submission(c) => Submit(s, c)
    case Cancellation(identity, mid, enabled, fate, now) => Withdraw(s, identity, mid, enabled, fate, now).0
    case Transfer(mid, addresses, active, now) => s.(mails := s.mails[mid := Enqueued(addresses, active, None, None, now)])
    case Deliver(mid, q) => if mid in s.mails then s.(mails := s.mails[mid := Runs.Next(s.mails[mid], q)]) else s
  }

  ghost predicate Run(t: seq<Store>, ss: seq<Step>) {
    && |t| == |ss| + 1
    && t[0] == Empty(t[0].limits)
    && forall i | 0 < i < |t| :: StepTo(t, ss, i)
  }

  ghost predicate StepTo(t: seq<Store>, ss: seq<Step>, i: nat)
    requires 0 < i < |t| == |ss| + 1
  {
    Legal(t[i - 1], ss[i - 1]) && t[i] == Next(t[i - 1], ss[i - 1])
  }

  // ---- Invariant ----

  ghost predicate MailsOk(s: Store) { forall m | m in s.mails :: Sound(s.mails[m]) }

  /** Each ledger entry has its own message, owned by its identity. */
  ghost predicate LedgerOk(s: Store) {
    && (forall k | k in s.ledger :: Owns(s, k.0, s.ledger[k].message))
    && (forall k, l | k in s.ledger && l in s.ledger && k != l :: s.ledger[k].message != s.ledger[l].message)
  }

  /** Exactly one charge per ledger entry. */
  ghost predicate ChargesOk(s: Store) {
    && |s.charges| == |s.ledger|
    && (forall i | 0 <= i < |s.charges| :: s.charges[i].message in s.mails)
    && (forall i, j | 0 <= i < j < |s.charges| :: s.charges[i].message != s.charges[j].message)
    && (forall k | k in s.ledger :: Charged(s.charges, k.0, s.ledger[k].message))
  }

  ghost predicate Charged(cs: seq<Charge>, identity: Identity, m: Mid) {
    exists i | 0 <= i < |cs| :: cs[i].message == m && cs[i].identity == identity
  }

  /** A superseded message is cancelled, belongs to the same identity, and was superseded once. */
  ghost predicate LinksOk(s: Store) {
    && (forall m | m in s.predecessor :: LinkOk(s, m, s.predecessor[m]))
    && (forall m, n | m in s.predecessor && n in s.predecessor && m != n :: s.predecessor[m] != s.predecessor[n])
  }

  ghost predicate LinkOk(s: Store, m: Mid, p: Mid) {
    && m in s.mails && p in s.mails && s.mails[p].cancelled
    && m in s.owner && p in s.owner && s.owner[m] == s.owner[p]
  }

  /** Every reservation fitted its windows when it was made. */
  ghost predicate QuotaOk(s: Store) { B.AllRespected(s.limits, Log(s.charges)) }

  ghost predicate Inv(s: Store) { MailsOk(s) && LedgerOk(s) && ChargesOk(s) && LinksOk(s) }

  /** A message advances: its attempts only add up, what was asked for stays, and a
      cancellation is final. */
  ghost predicate Advances(m: Mail, n: Mail) { AllLater(m, n) && SameTerms(m, n) && (m.cancelled ==> n.cancelled) }

  /** How the store may grow: messages advance, entries, links and charges only add up. */
  ghost predicate Grows(s: Store, s': Store) {
    && (forall m | m in s.mails :: m in s'.mails && Advances(s.mails[m], s'.mails[m]))
    && (forall k | k in s.ledger :: k in s'.ledger && s'.ledger[k] == s.ledger[k])
    && (forall m | m in s.predecessor :: m in s'.predecessor && s'.predecessor[m] == s.predecessor[m])
    && s.charges <= s'.charges && s'.limits == s.limits
  }

  lemma StillLater(m: Mail)
    requires Sound(m)
    ensures Advances(m, m)
  {
    Unseal(m);
    SameLater(m, m);
  }

  lemma StillGrows(s: Store)
    requires MailsOk(s)
    ensures Grows(s, s)
  {
    forall m | m in s.mails ensures Advances(s.mails[m], s.mails[m]) { StillLater(s.mails[m]); }
  }

  lemma SameMailsGrow(s: Store, s': Store)
    requires MailsOk(s) && s'.mails == s.mails && s.charges <= s'.charges && s'.limits == s.limits
    requires forall k | k in s.ledger :: k in s'.ledger && s'.ledger[k] == s.ledger[k]
    requires forall m | m in s.predecessor :: m in s'.predecessor && s'.predecessor[m] == s.predecessor[m]
    ensures Grows(s, s')
  {
    forall m | m in s.mails ensures Advances(s.mails[m], s'.mails[m]) { StillLater(s.mails[m]); }
  }

  /** Replacing one message by a later version of itself. */
  lemma MailStep(s: Store, mid: Mid, n: Mail)
    requires Inv(s) && mid in s.mails && Sound(n) && Advances(s.mails[mid], n)
    ensures var s' := s.(mails := s.mails[mid := n]); Inv(s') && Grows(s, s')
  {
    var s' := s.(mails := s.mails[mid := n]);
    forall m | m in s.mails ensures Advances(s.mails[m], s'.mails[m]) { if m != mid { StillLater(s.mails[m]); } }
    forall m | m in s'.predecessor ensures LinkOk(s', m, s'.predecessor[m]) { assert LinkOk(s, m, s.predecessor[m]); }
    forall k | k in s'.ledger ensures Owns(s', k.0, s'.ledger[k].message) { assert Owns(s, k.0, s.ledger[k].message); }
  }

  lemma CancelStep(s: Store, mid: Mid, now: Time)
    requires Inv(s) && mid in s.mails && (s.mails[mid].cancelled || CanCancel(s.mails[mid])) && s.mails[mid].clock <= now
    ensures Inv(CancelIn(s, mid, now)) && Grows(s, CancelIn(s, mid, now)) && CancelIn(s, mid, now).mails[mid].cancelled
  {
    var m := s.mails[mid];
    if m.cancelled {
      StillGrows(s);
    } else {
      CancelKeeps(m, now);
      CancelLater(m, now);
      MailStep(s, mid, CancelMail(m, now));
    }
  }

  lemma CancelLater(m: Mail, now: Time)
    requires Sound(m)
    ensures Advances(m, CancelMail(m, now))
  {
    Unseal(m);
    SameLater(m, CancelMail(m, now));
  }

  lemma NewMailSound(addresses: map<Rid, Address>, active: set<Address>, scheduleAt: Option<Time>, expiresAt: Option<Time>, now: Time)
    requires addresses.Keys != {}
    ensures Sound(Enqueued(addresses, active, scheduleAt, expiresAt, now))
  {
    EnqueueEstablishes(addresses, active, scheduleAt, expiresAt, now);
  }

  /** Adding a message nobody refers to yet. */
  lemma AddMail(s: Store, mid: Mid, n: Mail)
    requires Inv(s) && mid !in s.mails && Sound(n)
    ensures var s' := s.(mails := s.mails[mid := n]); Inv(s') && Grows(s, s')
  {
    var s' := s.(mails := s.mails[mid := n]);
    forall m | m in s.mails ensures Advances(s.mails[m], s'.mails[m]) { StillLater(s.mails[m]); }
    forall m | m in s'.predecessor ensures LinkOk(s', m, s'.predecessor[m]) { assert LinkOk(s, m, s.predecessor[m]); }
    forall k | k in s'.ledger ensures Owns(s', k.0, s'.ledger[k].message) { assert Owns(s, k.0, s.ledger[k].message); }
  }

  /** The store with one more ledger entry, its owner and its charge. */
  ghost function Recorded(s: Store, k: (Identity, string), e: Entry, charge: Charge): Store {
    s.(ledger := s.ledger[k := e], owner := s.owner[e.message := k.0], charges := s.charges + [charge])
  }

  lemma RecordedLedger(s: Store, k: (Identity, string), e: Entry, charge: Charge)
    requires LedgerOk(s) && e.message in s.mails && e.message !in s.owner
    ensures LedgerOk(Recorded(s, k, e, charge))
  {
    var s' := Recorded(s, k, e, charge);
    forall l | l in s.ledger ensures Owns(s', l.0, s.ledger[l].message) && s.ledger[l].message != e.message {
      assert Owns(s, l.0, s.ledger[l].message);
    }
  }

  lemma RecordedCharges(s: Store, k: (Identity, string), e: Entry, charge: Charge)
    requires ChargesOk(s) && k !in s.ledger && e.message in s.mails
    requires forall i | 0 <= i < |s.charges| :: s.charges[i].message != e.message
    requires charge.message == e.message && charge.identity == k.0
    ensures ChargesOk(Recorded(s, k, e, charge))
  {
    var s' := Recorded(s, k, e, charge);
    assert |s'.ledger| == |s.ledger| + 1;
    forall l | l in s'.ledger ensures Charged(s'.charges, l.0, s'.ledger[l].message) {
      RecordedCharge(s, k, e, charge, l);
    }
  }

  lemma RecordedCharge(s: Store, k: (Identity, string), e: Entry, charge: Charge, l: (Identity, string))
    requires l == k || (l in s.ledger && Charged(s.charges, l.0, s.ledger[l].message))
    requires charge.message == e.message && charge.identity == k.0
    ensures Charged(Recorded(s, k, e, charge).charges, l.0, Recorded(s, k, e, charge).ledger[l].message)
  {
    var s' := Recorded(s, k, e, charge);
    if l == k {
      assert s'.charges[|s.charges|] == charge;
    } else {
      StillCharged(s.charges, l.0, s.ledger[l].message, charge);
    }
  }

  lemma StillCharged(cs: seq<Charge>, identity: Identity, m: Mid, c: Charge)
    requires Charged(cs, identity, m)
    ensures Charged(cs + [c], identity, m)
  {
    var i :| 0 <= i < |cs| && cs[i].message == m && cs[i].identity == identity;
    assert (cs + [c])[i] == cs[i];
  }

  lemma AddEntry(s: Store, k: (Identity, string), e: Entry, charge: Charge)
    requires Inv(s) && k !in s.ledger && e.message in s.mails && e.message !in s.owner && e.message !in s.predecessor
    requires forall i | 0 <= i < |s.charges| :: s.charges[i].message != e.message
    requires charge.message == e.message && charge.identity == k.0
    ensures Inv(Recorded(s, k, e, charge)) && Grows(s, Recorded(s, k, e, charge))
  {
    var s' := Recorded(s, k, e, charge);
    RecordedLedger(s, k, e, charge);
    RecordedCharges(s, k, e, charge);
    assert LinksOk(s') by {
      forall m | m in s'.predecessor ensures LinkOk(s', m, s'.predecessor[m]) { assert LinkOk(s, m, s.predecessor[m]); }
    }
    SameMailsGrow(s, s');
  }

  lemma AddLink(s: Store, m: Mid, p: Mid)
    requires Inv(s) && m !in s.predecessor && LinkOk(s, m, p)
    requires forall n | n in s.predecessor :: s.predecessor[n] != p
    ensures var s' := s.(predecessor := s.predecessor[m := p]); Inv(s') && Grows(s, s')
  {
    var s' := s.(predecessor := s.predecessor[m := p]);
    assert LinksOk(s') by {
      forall n | n in s'.predecessor ensures LinkOk(s', n, s'.predecessor[n]) { if n != m { assert LinkOk(s, n, s.predecessor[n]); } }
    }
    assert LedgerOk(s') by {
      forall k | k in s'.ledger ensures Owns(s', k.0, s'.ledger[k].message) { assert Owns(s, k.0, s.ledger[k].message); }
    }
    SameMailsGrow(s, s');
  }

  lemma GrowsTransitive(a: Store, b: Store, c: Store)
    requires Grows(a, b) && Grows(b, c)
    ensures Grows(a, c)
  {
    forall m | m in a.mails ensures Advances(a.mails[m], c.mails[m]) {
      assert Advances(a.mails[m], b.mails[m]) && Advances(b.mails[m], c.mails[m]);
      LaterTransitive(a.mails[m], b.mails[m], c.mails[m]);
    }
  }

  /** References point at existing messages. */
  ghost predicate Closed(s: Store) {
    && (forall m | m in s.owner :: m in s.mails)
    && (forall m | m in s.predecessor :: m in s.mails)
  }

  ghost predicate Steady(s: Store) { Closed(s) && QuotaOk(s) }

  /** One step is good: the invariant holds after it and the store has only grown. */
  ghost predicate Good(s: Store, s': Store) { Inv(s') && Steady(s') && Grows(s, s') }

  lemma StillGood(s: Store)
    requires Inv(s) && Steady(s)
    ensures Good(s, s)
  {
    StillGrows(s);
  }

  /** The superseded message is cancelled first. */
  ghost function Freed(s: Store, c: Call): Store {
    var prior := c.request.predecessor;
    if prior.Some? && prior.value in s.mails then CancelIn(s, prior.value, c.now) else s
  }

  lemma FreedKeeps(s: Store, c: Call)
    requires Inv(s) && Steady(s) && Legal(s, Submission(c)) && Storable(s, c)
    ensures Good(s, Freed(s, c))
  {
    var prior := c.request.predecessor;
    if prior.Some? { CancelStep(s, prior.value, c.now); } else { StillGrows(s); }
  }

  /** Then the new message is added and recorded. */
  lemma FiledKeeps(s: Store, c: Call)
    requires Inv(s) && Steady(s) && F.Acceptable(c.request) && (c.identity, c.key) !in s.ledger && c.mid !in s.mails
    requires B.Admissible(s.limits, Log(s.charges), Quota(c), c.now) && c.now <= c.at
    ensures Good(s, Filed(s, c))
  {
    assert Rows(c.request.recipients).Keys != {} by { assert 0 in Rows(c.request.recipients); }
    NewMailSound(Rows(c.request.recipients), c.active, c.request.scheduleAt, c.request.expiresAt, c.now);
    var s2 := s.(mails := s.mails[c.mid := NewMail(c)]);
    AddMail(s, c.mid, NewMail(c));
    var k, e := (c.identity, c.key), Entry(F.Canonical(c.request), c.mid);
    AddEntry(s2, k, e, NewCharge(c));
    GrowsTransitive(s, s2, Recorded(s2, k, e, NewCharge(c)));
    ChargeFits(s, c);
  }

  /** The new charge is the reservation that was checked. */
  lemma ChargeFits(s: Store, c: Call)
    requires QuotaOk(s) && B.Admissible(s.limits, Log(s.charges), Quota(c), c.now) && c.now <= c.at
    ensures B.AllRespected(s.limits, Log(s.charges + [NewCharge(c)]))
  {
    B.ReserveKeeps(s.limits, Log(s.charges), Quota(c), c.now, c.at);
    assert Log(s.charges + [NewCharge(c)]) == Log(s.charges) + [W.Entry(c.at, |c.request.recipients|, (c.identity, F.StreamOf(c.request)))];
  }

  /** The store with the new message filed. */
  ghost function Filed(s: Store, c: Call): Store {
    Recorded(s.(mails := s.mails[c.mid := NewMail(c)]), (c.identity, c.key), Entry(F.Canonical(c.request), c.mid), NewCharge(c))
  }

  lemma StoredIs(s: Store, c: Call)
    requires c.request.predecessor.Some? ==> c.request.predecessor.value in s.mails
    ensures var f := Filed(Freed(s, c), c);
      Stored(s, c) == if c.request.predecessor.Some? then f.(predecessor := f.predecessor[c.mid := c.request.predecessor.value]) else f
  {
  }

  lemma GoodTransitive(a: Store, b: Store, c: Store)
    requires Good(a, b) && Good(b, c)
    ensures Good(a, c)
  {
    GrowsTransitive(a, b, c);
  }

  /** Last, the new message is linked to the one it supersedes. */
  lemma LinkKeeps(s: Store, s3: Store, c: Call, p: Mid)
    requires Inv(s3) && Steady(s3) && c.mid !in s3.predecessor && LinkOk(s3, c.mid, p)
    requires LinksOk(s) && p in s.mails && !s.mails[p].cancelled && s3.predecessor == s.predecessor
    ensures Good(s3, s3.(predecessor := s3.predecessor[c.mid := p]))
  {
    SupersededOnce(s, s3, p);
    AddLink(s3, c.mid, p);
  }

  /** A stored submission: cancel the superseded message, file the new one, link them. */
  lemma StoredKeeps(s: Store, c: Call)
    requires Inv(s) && Steady(s) && Legal(s, Submission(c)) && F.Acceptable(c.request)
    requires (c.identity, c.key) !in s.ledger && Storable(s, c)
    ensures Good(s, Stored(s, c))
  {
    var s1, prior := Freed(s, c), c.request.predecessor;
    var s3 := Filed(s1, c);
    FreedKeeps(s, c);
    FreedSame(s, c);
    FiledKeeps(s1, c);
    GoodTransitive(s, s1, s3);
    StoredIs(s, c);
    if prior.Some? {
      LinkReady(s, c, prior.value);
      LinkKeeps(s, s3, c, prior.value);
      GoodTransitive(s, s3, Stored(s, c));
    }
  }

  lemma FreedSame(s: Store, c: Call)
    ensures var f := Freed(s, c);
      f.limits == s.limits && f.charges == s.charges && f.ledger == s.ledger && f.predecessor == s.predecessor && f.owner == s.owner && f.mails.Keys == s.mails.Keys
  {
  }

  lemma LinkReady(s: Store, c: Call, p: Mid)
    requires c.request.predecessor == Some(p) && LinkRefusal(s, c).None? && Closed(s) && c.mid !in s.mails
    ensures p in s.mails && !s.mails[p].cancelled
    ensures var f := Filed(Freed(s, c), c); LinkOk(f, c.mid, p) && f.predecessor == s.predecessor && c.mid !in f.predecessor
  {
  }

  /** A message that could still be cancelled has not been superseded. */
  lemma SupersededOnce(s: Store, s': Store, p: Mid)
    requires LinksOk(s) && p in s.mails && !s.mails[p].cancelled && s'.predecessor == s.predecessor
    ensures forall n | n in s'.predecessor :: s'.predecessor[n] != p
  {
    forall n | n in s'.predecessor ensures s'.predecessor[n] != p { assert LinkOk(s, n, s.predecessor[n]); }
  }

  lemma DeliverStep(s: Store, mid: Mid, q: Runs.Step)
    requires Inv(s) && mid in s.mails && Runs.Legal(s.mails[mid], q)
    ensures var s' := s.(mails := s.mails[mid := Runs.Next(s.mails[mid], q)]); Inv(s') && Grows(s, s')
  {
    var m := s.mails[mid];
    Runs.NextKeeps(m, q);
    SoundLater(m, q);
    NextTerms(m, q);
    if m.cancelled { CancelledIsFinal(m, q); }
    MailStep(s, mid, Runs.Next(m, q));
  }

  lemma SubmissionStep(s: Store, c: Call)
    requires Inv(s) && Steady(s) && Legal(s, Submission(c))
    ensures Good(s, Submit(s, c))
  {
    if Submit(s, c) == s { StillGood(s); } else { StoredKeeps(s, c); }
  }

  lemma CancellationStep(s: Store, identity: Identity, mid: Mid, enabled: bool, fate: Fate, now: Time)
    requires Inv(s) && Steady(s) && (mid in s.mails ==> s.mails[mid].clock <= now)
    ensures Good(s, Withdraw(s, identity, mid, enabled, fate, now).0)
  {
    if Withdraw(s, identity, mid, enabled, fate, now).0 != s { CancelStep(s, mid, now); } else { StillGood(s); }
  }

  lemma TransferStep(s: Store, mid: Mid, addresses: map<Rid, Address>, active: set<Address>, now: Time)
    requires Inv(s) && Steady(s) && mid !in s.mails && addresses.Keys != {}
    ensures Good(s, s.(mails := s.mails[mid := Enqueued(addresses, active, None, None, now)]))
  {
    NewMailSound(addresses, active, None, None, now);
    AddMail(s, mid, Enqueued(addresses, active, None, None, now));
  }

  lemma NextKeeps(s: Store, step: Step)
    requires Inv(s) && Steady(s) && Legal(s, step)
    ensures Good(s, Next(s, step))
  {
    match step {
      case Submission(c) => SubmissionStep(s, c);
      case Cancellation(identity, mid, enabled, fate, now) => CancellationStep(s, identity, mid, enabled, fate, now);
      case Transfer(mid, addresses, active, now) => TransferStep(s, mid, addresses, active, now);
      case Deliver(mid, q) => { if mid in s.mails { DeliverStep(s, mid, q); } else { StillGood(s); } }
    }
  }

  lemma StepGrows(t: seq<Store>, ss: seq<Step>, i: nat)
    requires Run(t, ss) && 0 < i < |t| && Inv(t[i - 1]) && Steady(t[i - 1])
    ensures Good(t[i - 1], t[i])
  {
    assert StepTo(t, ss, i);
    NextKeeps(t[i - 1], ss[i - 1]);
  }

  lemma {:induction false} RunKeeps(t: seq<Store>, ss: seq<Step>, n: nat)
    requires Run(t, ss) && n < |t|
    ensures Inv(t[n]) && Steady(t[n])
  {
    if n > 0 {
      RunKeeps(t, ss, n - 1);
      StepGrows(t, ss, n);
    }
  }

  lemma {:induction false} RunGrows(t: seq<Store>, ss: seq<Step>, i: nat, j: nat)
    requires Run(t, ss) && i <= j < |t|
    ensures Grows(t[i], t[j])
    decreases j
  {
    if i == j {
      RunKeeps(t, ss, i);
      StillGrows(t[i]);
    } else {
      RunGrows(t, ss, i, j - 1);
      RunKeeps(t, ss, j - 1);
      StepGrows(t, ss, j);
      GrowsTransitive(t[i], t[j - 1], t[j]);
    }
  }

  // ---- Idempotency ----

  /** Step i of the run is a submission that was answered `a`. */
  ghost predicate Answered(t: seq<Store>, ss: seq<Step>, i: nat, a: Answer)
    requires Run(t, ss) && i < |ss|
  {
    ss[i].Submission? && Submits(t[i], ss[i].call, t[i + 1], a)
  }

  /** An accepted submission, or one whose commit was not seen, leaves its entry. */
  lemma EntryIsRecorded(s: Store, c: Call, s': Store, a: Answer)
    requires Submits(s, c, s', a) && (a.Stands? || s' != s)
    ensures KeyOk(c.key) && F.Acceptable(c.request) && (c.identity, c.key) in s'.ledger
    ensures s'.ledger[(c.identity, c.key)] == Entry(F.Canonical(c.request), if a.Stands? then a.message else c.mid)
  {
  }

  lemma EntryStays(t: seq<Store>, ss: seq<Step>, i: nat, j: nat, k: (Identity, string))
    requires Run(t, ss) && i <= j < |t| && k in t[i].ledger
    ensures k in t[j].ledger && t[j].ledger[k] == t[i].ledger[k]
  {
    RunGrows(t, ss, i, j);
  }

  lemma Replay(s: Store, c: Call, e: Entry, s': Store, a: Answer)
    requires KeyOk(c.key) && F.Acceptable(c.request) && (c.identity, c.key) in s.ledger && s.ledger[(c.identity, c.key)] == e
    requires Submits(s, c, s', a)
    ensures s' == s && a == if e.request == F.Canonical(c.request) then Stands(e.message, true) else Refused(Conflict)
  {
  }

  /** One key, one message: after an accepted submission, every later submission under the
      same key is answered with the same message when it asks for the same thing and
      refused as a conflict when it does not; nothing is stored or charged again. */
  lemma OneKeyOneMessage(t: seq<Store>, ss: seq<Step>, i: nat, j: nat, a: Answer, b: Answer)
    requires Run(t, ss) && i < j < |ss| && Answered(t, ss, i, a) && Answered(t, ss, j, b) && a.Stands?
    requires ss[i].call.identity == ss[j].call.identity && ss[i].call.key == ss[j].call.key
    requires F.Acceptable(ss[j].call.request)
    ensures t[j + 1] == t[j]
    ensures b == if F.SameRequest(ss[i].call.request, ss[j].call.request) then Stands(a.message, true) else Refused(Conflict)
  {
    var c, d := ss[i].call, ss[j].call;
    EntryIsRecorded(t[i], c, t[i + 1], a);
    EntryStays(t, ss, i + 1, j, (c.identity, c.key));
    Replay(t[j], d, t[j].ledger[(c.identity, c.key)], t[j + 1], b);
    F.FingerprintIsIdentity(c.request, d.request);
  }

  /** A commit the client never heard of is found by its retry. */
  lemma UncertainCommitIsFound(t: seq<Store>, ss: seq<Step>, i: nat, j: nat, a: Answer, b: Answer)
    requires Run(t, ss) && i < j < |ss| && Answered(t, ss, i, a) && Answered(t, ss, j, b)
    requires ss[i].call.fate.CommitsUnseen? && t[i + 1] != t[i]
    requires ss[j].call.identity == ss[i].call.identity && ss[j].call.key == ss[i].call.key
    requires F.Acceptable(ss[j].call.request) && F.SameRequest(ss[i].call.request, ss[j].call.request)
    ensures a == Refused(Uncertain) && b == Stands(ss[i].call.mid, true)
  {
    var c, d := ss[i].call, ss[j].call;
    EntryIsRecorded(t[i], c, t[i + 1], a);
    EntryStays(t, ss, i + 1, j, (c.identity, c.key));
    Replay(t[j], d, t[j].ledger[(c.identity, c.key)], t[j + 1], b);
    F.FingerprintIsIdentity(c.request, d.request);
  }

  ghost function ChargesFor(cs: seq<Charge>, m: Mid): nat {
    if cs == [] then 0 else ChargesFor(cs[..|cs| - 1], m) + (if cs[|cs| - 1].message == m then 1 else 0)
  }

  lemma {:induction false} ChargedOnce(cs: seq<Charge>, i: nat)
    requires i < |cs| && forall a, b | 0 <= a < b < |cs| :: cs[a].message != cs[b].message
    ensures ChargesFor(cs, cs[i].message) == 1
  {
    var n := |cs| - 1;
    if i < n {
      assert cs[..n][i] == cs[i];
      ChargedOnce(cs[..n], i);
    } else {
      NotCharged(cs[..n], cs[n].message);
    }
  }

  lemma {:induction false} NotCharged(cs: seq<Charge>, m: Mid)
    requires forall a | 0 <= a < |cs| :: cs[a].message != m
    ensures ChargesFor(cs, m) == 0
  {
    if cs != [] { NotCharged(cs[..|cs| - 1], m); }
  }

  /** In every reachable state each ledger entry was charged exactly once, and there are no
      other charges. */
  lemma QuotaChargedOnce(t: seq<Store>, ss: seq<Step>, n: nat, k: (Identity, string))
    requires Run(t, ss) && n < |t| && k in t[n].ledger
    ensures ChargesFor(t[n].charges, t[n].ledger[k].message) == 1
    ensures |t[n].charges| == |t[n].ledger|
  {
    RunKeeps(t, ss, n);
    assert Charged(t[n].charges, k.0, t[n].ledger[k].message);
    var i :| 0 <= i < |t[n].charges| && t[n].charges[i].message == t[n].ledger[k].message && t[n].charges[i].identity == k.0;
    ChargedOnce(t[n].charges, i);
  }

  /** The charged rows are the rows the windows count: in every reachable state no minute,
      hour or day, wherever it ends, holds more recipients than identity or stream allow. */
  lemma QuotaWindowsHold(t: seq<Store>, ss: seq<Step>, n: nat, id: Identity, s: F.Stream, at: Time)
    requires Run(t, ss) && n < |t|
    ensures id in t[n].limits.identities ==> B.WindowsWithin(Log(t[n].charges), B.OfIdentity(id), t[n].limits.identities[id], at)
    ensures (id, s) in t[n].limits.streams ==> B.WindowsWithin(Log(t[n].charges), B.OfStream(id, s), t[n].limits.streams[(id, s)], at)
  {
    RunKeeps(t, ss, n);
    B.RespectedWindows(t[n].limits, Log(t[n].charges), id, s, at);
  }

  /** Over the rest of the run a stored submission is delivered as it was asked: recipient i
      keeps its address, no attempt starts before the schedule the request named, and none is
      armed at or after its deadline. */
  lemma RequestIsHonoured(t: seq<Store>, ss: seq<Step>, i: nat, j: nat)
    requires Run(t, ss) && i < j < |t| && ss[i].Submission? && t[i + 1] != t[i]
    ensures ss[i].call.mid in t[j].mails
    ensures var q, m := ss[i].call.request, t[j].mails[ss[i].call.mid];
      && (forall r: Rid :: r in m.recipients <==> r < |q.recipients|)
      && (forall r: Rid | r in m.recipients :: m.recipients[r].address == q.recipients[r])
      && (q.scheduleAt.Some? ==> forall k | 0 <= k < |m.attempts| :: q.scheduleAt.value <= m.attempts[k].startedAt)
      && (q.expiresAt.Some? ==> forall k | 0 <= k < |m.attempts| && m.attempts[k].armedAt.Some? :: m.attempts[k].armedAt.value < q.expiresAt.value)
  {
    var c := ss[i].call;
    StoredByStep(t, ss, i);
    StillAsRequested(t, ss, i + 1, j, c.mid);
    HonoursTerms(t[j].mails[c.mid]);
  }

  lemma StoredByStep(t: seq<Store>, ss: seq<Step>, i: nat)
    requires Run(t, ss) && i < |ss| && ss[i].Submission? && t[i + 1] != t[i]
    ensures ss[i].call.mid in t[i + 1].mails && AsRequested(ss[i].call, t[i + 1].mails[ss[i].call.mid])
  {
    assert StepTo(t, ss, i + 1);
    StoredIsRequested(t[i], ss[i].call);
  }

  lemma StillAsRequested(t: seq<Store>, ss: seq<Step>, i: nat, j: nat, m: Mid)
    requires Run(t, ss) && i <= j < |t| && m in t[i].mails
    ensures m in t[j].mails && SameTerms(t[i].mails[m], t[j].mails[m]) && Sound(t[j].mails[m])
  {
    RunGrows(t, ss, i, j);
    assert Advances(t[i].mails[m], t[j].mails[m]);
    RunKeeps(t, ss, j);
  }

  lemma HonoursTerms(m: Mail)
    requires Sound(m)
    ensures m.scheduleAt.Some? ==> forall k | 0 <= k < |m.attempts| :: m.scheduleAt.value <= m.attempts[k].startedAt
    ensures m.expiresAt.Some? ==> forall k | 0 <= k < |m.attempts| && m.attempts[k].armedAt.Some? :: m.attempts[k].armedAt.value < m.expiresAt.value
  {
    Unseal(m);
    forall k | 0 <= k < |m.attempts| ensures AttemptOk(m, m.attempts[k]) { }
  }

  // ---- Replacement chains ----

  /** No message is superseded twice, in any state of any run. */
  lemma SupersededAtMostOnce(t: seq<Store>, ss: seq<Step>, n: nat, a: Mid, b: Mid)
    requires Run(t, ss) && n < |t| && a in t[n].predecessor && b in t[n].predecessor
    requires t[n].predecessor[a] == t[n].predecessor[b]
    ensures a == b
  {
    RunKeeps(t, ss, n);
  }

  lemma NeverArmedLater(m: Mail, n: Mail)
    requires AllLater(m, n) && forall k :: 0 <= k < |n.attempts| ==> n.attempts[k].armedAt.None? && !n.attempts[k].body
    ensures forall k :: 0 <= k < |m.attempts| ==> m.attempts[k].armedAt.None? && !m.attempts[k].body
  {
    forall k | 0 <= k < |m.attempts| ensures m.attempts[k].armedAt.None? && !m.attempts[k].body {
      assert Later(m.attempts[k], n.attempts[k]);
    }
  }

  lemma CancelledQuiet(m: Mail)
    requires Sound(m) && m.cancelled
    ensures forall k :: 0 <= k < |m.attempts| ==> m.attempts[k].armedAt.None? && !m.attempts[k].body
  {
    Unseal(m);
    CancelledHasNoWork(m);
  }

  /** A message that some later message supersedes is armed at no time of the run, neither
      before nor after it was superseded. */
  lemma SupersededNeverArmed(t: seq<Store>, ss: seq<Step>, n: nat, o: nat, m: Mid)
    requires Run(t, ss) && n < |t| && o < |t| && m in t[n].predecessor && t[n].predecessor[m] in t[o].mails
    ensures var x := t[o].mails[t[n].predecessor[m]];
      forall k :: 0 <= k < |x.attempts| ==> x.attempts[k].armedAt.None? && !x.attempts[k].body
  {
    var p := t[n].predecessor[m];
    RunKeeps(t, ss, n);
    assert LinkOk(t[n], m, p);
    if n <= o {
      RunGrows(t, ss, n, o);
      RunKeeps(t, ss, o);
      CancelledQuiet(t[o].mails[p]);
    } else {
      RunGrows(t, ss, o, n);
      CancelledQuiet(t[n].mails[p]);
      NeverArmedLater(t[o].mails[p], t[n].mails[p]);
    }
  }

  /** A chain of replacements: each message supersedes the one before it. */
  ghost predicate Chain(s: Store, ms: seq<Mid>) {
    forall i | 0 < i < |ms| :: ms[i] in s.predecessor && s.predecessor[ms[i]] == ms[i - 1]
  }

  /** In a chain of any length at most the last message is ever armed for DATA. */
  lemma OnlyTheLastIsArmed(t: seq<Store>, ss: seq<Step>, n: nat, o: nat, ms: seq<Mid>, i: nat)
    requires Run(t, ss) && n < |t| && o < |t| && Chain(t[n], ms) && i < |ms| - 1 && ms[i] in t[o].mails
    ensures var x := t[o].mails[ms[i]];
      forall k :: 0 <= k < |x.attempts| ==> x.attempts[k].armedAt.None? && !x.attempts[k].body
  {
    assert ms[i + 1] in t[n].predecessor && t[n].predecessor[ms[i + 1]] == ms[i + 1 - 1];
    SupersededNeverArmed(t, ss, n, o, ms[i + 1]);
  }
}
