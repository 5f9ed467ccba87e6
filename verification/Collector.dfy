/** The mailbox collector: reads feedback mail by UID, commits one receipt per message, and
    advances a checkpoint.  Every transaction may commit, fail, or commit without the
    caller learning it; the mailbox answers whatever it likes. */
module Collector {
  import opened Options

  const MAX_BYTES := 0x10_0000
  const MAX_RECORDS := 10000
  const MAX_STORED := 104857600

  datatype Outcome = Imported | Oversize | Empty | Vanished
  datatype Receipt = Receipt(validity: nat, uid: nat, outcome: Outcome, reported: nat, stored: nat)
  datatype Kind = ValidityChanged | NextRegressed

  /** The source row with the receipts and alerts that reference it. */
  datatype Source = Source(
    identity: nat, validity: nat, lastUid: nat, records: nat, storedBytes: nat,
    receipts: seq<Receipt>, alerts: set<(nat, Kind)>)

  datatype Meta = Meta(uid: nat, size: int)
  datatype Body = Failed | Gone | Raw(size: nat)
  datatype Request = Request(identity: nat, batch: nat, accept: nat)
  datatype Snapshot = Snapshot(validity: nat, uidNext: nat)

  datatype Error = Invalid | MailboxChanged | Capacity | Fetch | Database

  /** What became of one transaction. */
  datatype Fate = Commits | Fails | CommitsUnseen

  // ---- Transactions ----

  datatype Opening = Refused(error: Error) | Alarm | Ready(source: Source)

  function Open(row: Option<Source>, o: Request, validity: nat): Opening {
    var s := match row case Some(s) => s case None => Source(o.identity, validity, 0, 0, 0, [], {});
    if s.identity != o.identity then Refused(MailboxChanged)
    else if s.records >= MAX_RECORDS then Refused(Capacity)
    else if s.validity == validity then Ready(s)
    else if o.accept != validity then Alarm
    else Ready(s.(validity := validity, lastUid := 0))
  }

  function Alerted(s: Source, validity: nat, kind: Kind): Option<Source> {
    if (validity, kind) in s.alerts then Some(s)
    else if s.records < MAX_RECORDS then Some(s.(alerts := s.alerts + {(validity, kind)}, records := s.records + 1))
    else None
  }

  predicate Known(s: Source, uid: nat) {
    exists i | 0 <= i < |s.receipts| :: s.receipts[i].validity == s.validity && s.receipts[i].uid == uid
  }

  /** One observed message: its receipt, its bytes and the checkpoint move together.  A
      message already receipted in this epoch only moves the checkpoint. */
  function Saved(s: Source, uid: nat, reported: nat, stored: nat, outcome: Outcome): Option<Source> {
    if Known(s, uid) then Some(s.(lastUid := uid))
    else if s.records < MAX_RECORDS && s.storedBytes + stored <= MAX_STORED then
      Some(s.(lastUid := uid, records := s.records + 1, storedBytes := s.storedBytes + stored,
              receipts := s.receipts + [Receipt(s.validity, uid, outcome, reported, stored)]))
    else None
  }

  // ---- What every transaction keeps ----

  function Stored(rs: seq<Receipt>): nat {
    if rs == [] then 0 else Stored(rs[..|rs| - 1]) + rs[|rs| - 1].stored
  }

  predicate ReceiptOk(r: Receipt) {
    && r.uid >= 1
    && r.stored == (if r.outcome == Imported then r.reported else 0)
    && (r.outcome == Imported ==> 1 <= r.reported <= MAX_BYTES)
    && (r.outcome == Empty ==> r.reported == 0)
  }

  /** The quotas are exact: a record per receipt and alert, bytes only for imported mail,
      and one receipt per message of an epoch. */
  ghost predicate Ledger(s: Source) {
    && s.records == |s.receipts| + |s.alerts| <= MAX_RECORDS
    && s.storedBytes == Stored(s.receipts) <= MAX_STORED
    && (forall i | 0 <= i < |s.receipts| :: ReceiptOk(s.receipts[i]))
    && (forall i, j | 0 <= i < j < |s.receipts| ::
          s.receipts[i].validity != s.receipts[j].validity || s.receipts[i].uid != s.receipts[j].uid)
  }

  /** Nothing at or below the checkpoint was skipped: each UID has a receipt, or a complete
      metadata reply for a window containing it did not list it. */
  ghost predicate Covered(s: Source, gaps: set<(nat, nat)>) {
    forall uid | 1 <= uid <= s.lastUid :: Known(s, uid) || (s.validity, uid) in gaps
  }

  ghost predicate Sound(s: Source, gaps: set<(nat, nat)>) { Ledger(s) && Covered(s, gaps) }

  /** Receipts and alerts are only added; the checkpoint moves back only with the epoch. */
  ghost predicate Extends(s: Source, s': Source) {
    && s'.identity == s.identity
    && s.receipts <= s'.receipts && s.alerts <= s'.alerts
    && (s'.validity == s.validity ==> s.lastUid <= s'.lastUid)
  }

  lemma ExtendsTransitive(a: Source, b: Source, c: Source)
    requires Extends(a, b) && Extends(b, c) && (b.validity == a.validity || c.validity != a.validity)
    ensures Extends(a, c)
  {
  }

  lemma StoredAppend(rs: seq<Receipt>, r: Receipt)
    ensures Stored(rs + [r]) == Stored(rs) + r.stored
  {
    assert (rs + [r])[..|rs|] == rs;
  }

  lemma KnownStays(s: Source, s': Source, uid: nat)
    requires s.receipts <= s'.receipts && s'.validity == s.validity && Known(s, uid)
    ensures Known(s', uid)
  {
    var i :| 0 <= i < |s.receipts| && s.receipts[i].validity == s.validity && s.receipts[i].uid == uid;
    assert s'.receipts[i] == s.receipts[i];
  }

  lemma AlertKeeps(s: Source, gaps: set<(nat, nat)>, validity: nat, kind: Kind)
    requires Sound(s, gaps) && Alerted(s, validity, kind).Some?
    ensures var s' := Alerted(s, validity, kind).value; Sound(s', gaps) && Extends(s, s')
  {
    var s' := Alerted(s, validity, kind).value;
    forall uid | 1 <= uid <= s'.lastUid ensures Known(s', uid) || (s'.validity, uid) in gaps {
      if Known(s, uid) { KnownStays(s, s', uid); }
    }
  }

  /** A message may be committed once everything between it and the checkpoint is known to
      be absent. */
  lemma SaveKeeps(s: Source, gaps: set<(nat, nat)>, uid: nat, reported: nat, stored: nat, outcome: Outcome)
    requires Sound(s, gaps) && uid > s.lastUid && ReceiptOk(Receipt(s.validity, uid, outcome, reported, stored))
    requires forall u | s.lastUid < u < uid :: (s.validity, u) in gaps
    requires Saved(s, uid, reported, stored, outcome).Some?
    ensures var s' := Saved(s, uid, reported, stored, outcome).value;
      Sound(s', gaps) && Extends(s, s') && Known(s', uid) && s'.lastUid == uid && s'.validity == s.validity
  {
    var s' := Saved(s, uid, reported, stored, outcome).value;
    if Known(s, uid) {
      KnownStays(s, s', uid);
    } else {
      StoredAppend(s.receipts, Receipt(s.validity, uid, outcome, reported, stored));
      assert s'.receipts[|s.receipts|].uid == uid;
    }
    forall u | 1 <= u <= s'.lastUid ensures Known(s', u) || (s'.validity, u) in gaps {
      if Known(s, u) { KnownStays(s, s', u); }
    }
  }

  lemma CheckpointKeeps(s: Source, gaps: set<(nat, nat)>, end: nat)
    requires Sound(s, gaps) && end >= s.lastUid
    requires forall u | s.lastUid < u <= end :: (s.validity, u) in gaps
    ensures Sound(s.(lastUid := end), gaps) && Extends(s, s.(lastUid := end))
  {
    var s' := s.(lastUid := end);
    forall u | 1 <= u <= end ensures Known(s', u) || (s'.validity, u) in gaps {
      if Known(s, u) { KnownStays(s, s', u); }
    }
  }

  lemma OpenKeeps(row: Option<Source>, o: Request, validity: nat, gaps: set<(nat, nat)>)
    requires row.Some? ==> Sound(row.value, gaps)
    requires Open(row, o, validity).Ready?
    ensures var s := Open(row, o, validity).source;
      && Sound(s, gaps) && s.validity == validity
      && (row.Some? ==> Extends(row.value, s))
      && (row.Some? && row.value.validity == validity ==> s == row.value)
  {
  }

  /** A mailbox is opened exactly when its identity is the known one, there is room for
      another record, and its epoch is the known one or the one the operator accepts; a new
      epoch starts at its beginning and keeps every receipt. */
  lemma OpenExactlyWhen(row: Option<Source>, o: Request, validity: nat)
    ensures row.None? ==> Open(row, o, validity) == Ready(Source(o.identity, validity, 0, 0, 0, [], {}))
    ensures row.Some? ==>
      var s, open := row.value, Open(row, o, validity);
      && (open == Refused(MailboxChanged) <==> s.identity != o.identity)
      && (open == Refused(Capacity) <==> s.identity == o.identity && s.records >= 10000)
      && (open == Alarm <==> s.identity == o.identity && s.records < 10000 && s.validity != validity && o.accept != validity)
      && (open.Ready? <==> s.identity == o.identity && s.records < 10000 && validity in {s.validity, o.accept})
      && (open.Ready? ==> open.source == if s.validity == validity then s else s.(validity := validity, lastUid := 0))
  {
  }

  lemma WiderGaps(s: Source, gaps: set<(nat, nat)>, more: set<(nat, nat)>)
    requires Sound(s, gaps) && gaps <= more
    ensures Sound(s, more)
  {
  }

  // ---- Metadata ----

  predicate Sorted(ms: seq<Meta>) { forall i, j | 0 <= i < j < |ms| :: ms[i].uid <= ms[j].uid }

  function Insert(ms: seq<Meta>, m: Meta): (r: seq<Meta>)
    ensures multiset(r) == multiset(ms) + multiset{m}
  {
    if ms == [] then [m]
    else if m.uid < ms[|ms| - 1].uid then
      assert ms == ms[..|ms| - 1] + [ms[|ms| - 1]];
      Insert(ms[..|ms| - 1], m) + [ms[|ms| - 1]]
    else ms + [m]
  }

  lemma {:induction false} InsertBelow(ms: seq<Meta>, m: Meta, top: nat)
    requires m.uid <= top && forall i | 0 <= i < |ms| :: ms[i].uid <= top
    ensures forall i | 0 <= i < |Insert(ms, m)| :: Insert(ms, m)[i].uid <= top
  {
    if ms != [] && m.uid < ms[|ms| - 1].uid { InsertBelow(ms[..|ms| - 1], m, top); }
  }

  lemma {:induction false} InsertSorts(ms: seq<Meta>, m: Meta)
    requires Sorted(ms)
    ensures Sorted(Insert(ms, m))
  {
    if ms != [] && m.uid < ms[|ms| - 1].uid {
      var init, last := ms[..|ms| - 1], ms[|ms| - 1];
      assert forall i | 0 <= i < |init| :: init[i] == ms[i];
      InsertSorts(init, m);
      InsertBelow(init, m, last.uid);
    }
  }

  method SortByUid(metadata: seq<Meta>) returns (ms: seq<Meta>)
    ensures Sorted(ms) && multiset(ms) == multiset(metadata)
  {
    ms := [];
    var i := 0;
    while i < |metadata|
      invariant 0 <= i <= |metadata| && Sorted(ms) && multiset(ms) == multiset(metadata[..i])
    {
      InsertSorts(ms, metadata[i]);
      assert metadata[..i + 1] == metadata[..i] + [metadata[i]];
      ms := Insert(ms, metadata[i]);
      i := i + 1;
    }
    assert metadata[..|metadata|] == metadata;
  }

  /** The reply is usable: within the window, sized, and without repetition. */
  predicate Usable(ms: seq<Meta>, start: nat, end: nat) {
    && (forall i | 0 <= i < |ms| :: start <= ms[i].uid <= end && ms[i].size >= 0)
    && (forall i, j | 0 <= i < j < |ms| :: ms[i].uid < ms[j].uid)
  }

  method CheckMetadata(ms: seq<Meta>, start: nat, end: nat) returns (ok: bool)
    requires Sorted(ms)
    ensures ok <==> Usable(ms, start, end)
  {
    var i := 0;
    while i < |ms|
      invariant 0 <= i <= |ms| && Usable(ms[..i], start, end)
    {
      var m := ms[i];
      if m.uid < start || m.uid > end || m.size < 0 || (i > 0 && m.uid == ms[i - 1].uid) { return false; }
      i := i + 1;
    }
    assert ms[..|ms|] == ms;
    ok := true;
  }

  ghost predicate Listed(ms: seq<Meta>, uid: nat) { exists i | 0 <= i < |ms| :: ms[i].uid == uid }

  /** The UIDs of the window that the reply leaves out. */
  ghost function Absent(ms: seq<Meta>, validity: nat, start: nat, end: nat): set<(nat, nat)> {
    set u | start <= u <= end && !Listed(ms, u) :: (validity, u)
  }

  // ---- One collection ----

  /** What to record for one listed message, or a reason to stop before it. */
  method Inspect(m: Meta, body: Body) returns (outcome: Outcome, stored: nat, error: Option<Error>)
    requires m.uid >= 1 && m.size >= 0
    ensures error.None? ==> forall v :: ReceiptOk(Receipt(v, m.uid, outcome, m.size, stored))
    ensures error.Some? <==> 0 < m.size <= MAX_BYTES && (body.Failed? || (body.Raw? && body.size <= MAX_BYTES && body.size != m.size))
    ensures error.None? ==> (outcome == Imported <==> 0 < m.size <= MAX_BYTES && body == Raw(m.size))
    ensures error.None? ==> (outcome == Vanished <==> 0 < m.size <= MAX_BYTES && body.Gone?)
    ensures error.None? ==> (outcome == Empty <==> m.size == 0)
  {
    error := None;
    if m.size > MAX_BYTES { return Oversize, 0, None; }
    if m.size == 0 { return Empty, 0, None; }
    match body {
      case Failed => { return Vanished, 0, Some(Fetch); }
      case Gone => { return Vanished, 0, None; }
      case Raw(n) => {
        if n > MAX_BYTES { return Oversize, 0, None; }
        if n != m.size { return Oversize, 0, Some(Fetch); }
        return Imported, n, None;
      }
    }
  }

  /** The receipt says what was seen: imported with all its bytes, or why not. */
  predicate RightReceipt(m: Meta, body: Body, r: Receipt) {
    && r.uid == m.uid && r.reported == m.size
    && (r.outcome == Imported <==> 0 < m.size <= 0x10_0000 && body == Raw(m.size))
    && (r.outcome == Vanished <==> 0 < m.size <= 0x10_0000 && body.Gone?)
    && (r.outcome == Empty <==> m.size == 0)
    && r.stored == if r.outcome == Imported then m.size else 0
  }

  /** The message has such a receipt in this epoch. */
  ghost predicate Filed(s: Source, m: Meta, body: Body) {
    exists k | 0 <= k < |s.receipts| :: s.receipts[k].validity == s.validity && RightReceipt(m, body, s.receipts[k])
  }

  /** A message that no later receipt names was known from the start. */
  lemma KnownBefore(s: Source, s': Source, uid: nat)
    requires s.receipts <= s'.receipts && s'.validity == s.validity && Known(s', uid)
    requires forall k | |s.receipts| <= k < |s'.receipts| :: s'.receipts[k].uid != uid
    ensures Known(s, uid)
  {
    var k :| 0 <= k < |s'.receipts| && s'.receipts[k].validity == s'.validity && s'.receipts[k].uid == uid;
    assert s.receipts[k] == s'.receipts[k];
  }

  /** The first n listed messages are settled, each known from the start or filed rightly, and
      nothing beyond the checkpoint is. */
  ghost predicate Progress(start: Source, s: Source, ms: seq<Meta>, n: nat, bodies: nat -> Body)
    requires n <= |ms|
  {
    && start.receipts <= s.receipts && s.validity == start.validity
    && (forall k | |start.receipts| <= k < |s.receipts| :: s.receipts[k].uid <= s.lastUid)
    && (forall j | 0 <= j < n :: Known(s, ms[j].uid))
    && (forall j | 0 <= j < n :: Known(start, ms[j].uid) || Filed(s, ms[j], bodies(ms[j].uid)))
  }

  lemma ProgressStep(start: Source, s: Source, s': Source, ms: seq<Meta>, n: nat, bodies: nat -> Body)
    requires n < |ms| && Progress(start, s, ms, n, bodies) && s.lastUid < ms[n].uid
    requires s.receipts <= s'.receipts && s'.validity == s.validity && s'.lastUid == ms[n].uid && Known(s', ms[n].uid)
    requires Known(s, ms[n].uid) || Filed(s', ms[n], bodies(ms[n].uid))
    requires forall k | |s.receipts| <= k < |s'.receipts| :: s'.receipts[k].uid == ms[n].uid
    ensures Progress(start, s', ms, n + 1, bodies)
  {
    if Known(s, ms[n].uid) { KnownBefore(start, s, ms[n].uid); }
    forall k | |start.receipts| <= k < |s'.receipts| ensures s'.receipts[k].uid <= s'.lastUid {
      if k < |s.receipts| { assert s'.receipts[k] == s.receipts[k]; }
    }
    forall j | 0 <= j < n ensures Known(s', ms[j].uid) && (Known(start, ms[j].uid) || Filed(s', ms[j], bodies(ms[j].uid))) {
      KnownStays(s, s', ms[j].uid);
      if Filed(s, ms[j], bodies(ms[j].uid)) { FiledStays(s, s', ms[j], bodies(ms[j].uid)); }
    }
  }

  lemma FiledStays(s: Source, s': Source, m: Meta, body: Body)
    requires s.receipts <= s'.receipts && s'.validity == s.validity && Filed(s, m, body)
    ensures Filed(s', m, body)
  {
    var k :| 0 <= k < |s.receipts| && s.receipts[k].validity == s.validity && RightReceipt(m, body, s.receipts[k]);
    assert s'.receipts[k] == s.receipts[k];
  }

  class Collector {
    var row: Option<Source>
    ghost var gaps: set<(nat, nat)>  // (epoch, UID) that a complete reply left out

    ghost predicate Valid() reads this { row.Some? ==> Sound(row.value, gaps) }

    constructor ()
      ensures Valid() && row.None? && gaps == {}
    {
      row, gaps := None, {};
    }

    /** Commit a new source row as the transaction's fate allows; false tells the caller to stop. */
    method Commit(s: Source, fate: Fate) returns (seen: bool)
      modifies this`row
      ensures seen == fate.Commits?
      ensures row == if fate.Fails? then old(row) else Some(s)
    {
      if !fate.Fails? { row := Some(s); }
      seen := fate.Commits?;
    }

    method Alert(validity: nat, kind: Kind, fate: Fate) returns (error: Option<Error>)
      requires Valid() && row.Some?
      modifies this`row
      ensures Valid() && row.Some? && Extends(old(row).value, row.value)
      ensures row.value.lastUid == old(row).value.lastUid && row.value.receipts == old(row).value.receipts
      ensures error.None? ==> (validity, kind) in row.value.alerts
    {
      var next := Alerted(row.value, validity, kind);
      if next.None? { return Some(Capacity); }
      AlertKeeps(row.value, gaps, validity, kind);
      var seen := Commit(next.value, fate);
      error := if seen then None else Some(Database);
    }

    /** Create the source row, or check it against this mailbox. */
    method Initialize(o: Request, validity: nat, fate: Fate, alertFate: Fate) returns (error: Option<Error>)
      requires Valid()
      modifies this`row
      ensures Valid()
      ensures old(row).Some? ==> row.Some? && Extends(old(row).value, row.value)
      ensures error.None? <==> Open(old(row), o, validity).Ready? && fate.Commits?
      ensures error.None? ==> row == Some(Open(old(row), o, validity).source) && row.value.validity == validity
    {
      match Open(row, o, validity) {
        case Refused(e) => { return Some(e); }
        case Alarm => {
          var e := Alert(validity, ValidityChanged, alertFate);
          return if e.Some? then e else Some(MailboxChanged);
        }
        case Ready(s) => {
          OpenKeeps(row, o, validity, gaps);
          var seen := Commit(s, fate);
          return if seen then None else Some(Database);
        }
      }
    }

    /** Commit one listed message, everything below it being settled. */
    method SaveOne(m: Meta, body: Body, importOk: bool, fate: Fate) returns (outcome: Outcome, error: Option<Error>)
      requires Valid() && row.Some? && row.value.lastUid < m.uid && m.size >= 0
      requires forall u | row.value.lastUid < u < m.uid :: (row.value.validity, u) in gaps
      modifies this`row
      ensures Valid() && row.Some? && Extends(old(row).value, row.value) && row.value.validity == old(row).value.validity
      ensures row.value.lastUid <= m.uid
      ensures error.None? ==> row.value.lastUid == m.uid && Known(row.value, m.uid)
      ensures error.None? ==> Known(old(row).value, m.uid) || Filed(row.value, m, body)
      ensures forall k | |old(row).value.receipts| <= k < |row.value.receipts| :: row.value.receipts[k].uid == m.uid
      ensures error.None? ==> (outcome == Imported <==> 0 < m.size <= MAX_BYTES && body == Raw(m.size))
    {
      var stored: nat, next: Option<Source>;
      outcome, stored, error := Inspect(m, body);
      if error.Some? { return; }
      next := Saved(row.value, m.uid, m.size, stored, outcome);
      if next.None? || (outcome == Imported && !Known(row.value, m.uid) && !importOk) { return outcome, Some(Capacity); }
      SaveKeeps(row.value, gaps, m.uid, m.size, stored, outcome);
      if !Known(row.value, m.uid) {
        assert next.value.receipts[|row.value.receipts|] == Receipt(row.value.validity, m.uid, outcome, m.size, stored);
      }
      var seen := Commit(next.value, fate);
      error := if seen then None else Some(Database);
    }

    /** Commit the next listed message. */
    method SaveNext(ghost first: Source, ms: seq<Meta>, i: nat, ghost start: nat, ghost end: nat, bodies: nat -> Body, importOk: nat -> bool, fate: nat -> Fate)
      returns (outcome: Outcome, error: Option<Error>)
      requires Valid() && row.Some? && i < |ms| && 1 <= start <= end
      requires Usable(ms, start, end) && Absent(ms, row.value.validity, start, end) <= gaps
      requires row.value.lastUid == (if i == 0 then start - 1 else ms[i - 1].uid) && Progress(first, row.value, ms, i, bodies)
      modifies this`row
      ensures Valid() && row.Some? && Extends(old(row).value, row.value) && row.value.validity == old(row).value.validity
      ensures row.value.lastUid <= ms[i].uid
      ensures error.None? ==> row.value.lastUid == ms[i].uid && Progress(first, row.value, ms, i + 1, bodies)
    {
      ghost var s := row.value;
      BetweenIsAbsent(ms, i, s, start, end, gaps);
      outcome, error := SaveOne(ms[i], bodies(ms[i].uid), importOk(ms[i].uid), fate(ms[i].uid));
      if error.None? { ProgressStep(first, s, row.value, ms, i, bodies); }
    }

    /** Commit the listed messages in UID order, stopping at the first failure. */
    method SaveAll(ms: seq<Meta>, start: nat, end: nat, bodies: nat -> Body, importOk: nat -> bool, fate: nat -> Fate)
      returns (imported: nat, issues: nat, error: Option<Error>)
      requires Valid() && row.Some? && start == row.value.lastUid + 1 <= end
      requires Usable(ms, start, end) && Absent(ms, row.value.validity, start, end) <= gaps
      modifies this`row
      ensures Valid() && row.Some? && Extends(old(row).value, row.value) && row.value.validity == old(row).value.validity
      ensures row.value.lastUid <= end
      ensures error.None? ==> imported + issues == |ms|
      ensures error.None? ==> row.value.lastUid == if ms == [] then old(row).value.lastUid else ms[|ms| - 1].uid
      ensures error.None? ==> forall i | 0 <= i < |ms| :: Known(row.value, ms[i].uid)
      ensures error.None? ==> forall i | 0 <= i < |ms| :: Known(old(row).value, ms[i].uid) || Filed(row.value, ms[i], bodies(ms[i].uid))
    {
      imported, issues, error := 0, 0, None;
      ghost var first := row.value;
      var i := 0;
      while i < |ms|
        invariant 0 <= i <= |ms| && Valid() && row.Some? && error.None? && imported + issues == i
        invariant Extends(first, row.value) && row.value.validity == first.validity && row.value.lastUid <= end
        invariant row.value.lastUid == if i == 0 then start - 1 else ms[i - 1].uid
        invariant Progress(first, row.value, ms, i, bodies)
      {
        ghost var s := row.value;
        var outcome: Outcome;
        outcome, error := SaveNext(first, ms, i, start, end, bodies, importOk, fate);
        ExtendsTransitive(first, s, row.value);
        if error.Some? { return; }
        if outcome == Imported { imported := imported + 1; } else { issues := issues + 1; }
        i := i + 1;
      }
    }

    /** Commit the window (from, end] of the mailbox and move the checkpoint to its end. */
    method CollectWindow(reply: seq<Meta>, end: nat, bodies: nat -> Body, importOk: nat -> bool, endFate: Fate, fate: nat -> Fate)
      returns (imported: nat, issues: nat, error: Option<Error>)
      requires Valid() && row.Some? && row.value.lastUid < end
      modifies this
      ensures Valid() && old(gaps) <= gaps
      ensures row.Some? && Extends(old(row).value, row.value) && row.value.validity == old(row).value.validity
      ensures row.value.lastUid <= end
      ensures error.None? ==> row.value.lastUid == end && forall i | 0 <= i < |reply| :: Known(row.value, reply[i].uid)
      ensures error.None? ==> forall i | 0 <= i < |reply| :: Known(old(row).value, reply[i].uid) || Filed(row.value, reply[i], bodies(reply[i].uid))
    {
      var start := row.value.lastUid + 1;
      var ms := SortByUid(reply);
      var usable := CheckMetadata(ms, start, end);
      if !usable { return 0, 0, Some(Fetch); }
      ghost var absent := Absent(ms, row.value.validity, start, end);
      WiderGaps(row.value, gaps, gaps + absent);
      gaps := gaps + absent;
      imported, issues, error := SaveAll(ms, start, end, bodies, importOk, fate);
      if error.Some? { return; }
      ghost var s := row.value;
      TailIsAbsent(ms, s, start, end, gaps);
      CheckpointKeeps(s, gaps, end);
      var seen := Commit(row.value.(lastUid := end), endFate);
      if !seen { return imported, issues, Some(Database); }
      ReplyKnown(reply, ms, s, row.value);
      ReplyFiled(reply, ms, old(row).value, s, row.value, bodies);
    }

    /** Collect once.  Success means the checkpoint stands at the end of the window and
        nothing in it was skipped; failure anywhere leaves a checkpoint behind which
        nothing was skipped. */
    method Collect(o: Request, snapshot: Snapshot, reply: Option<seq<Meta>>, bodies: nat -> Body, importOk: nat -> bool,
                   openFate: Fate, alertFate: Fate, endFate: Fate, fate: nat -> Fate)
      returns (imported: nat, issues: nat, error: Option<Error>)
      requires Valid()
      modifies this
      ensures Valid() && old(gaps) <= gaps
      ensures old(row).Some? ==> row.Some? && Extends(old(row).value, row.value)
      ensures error.None? ==> Open(old(row), o, snapshot.validity).Ready? && row.Some? && row.value.validity == snapshot.validity
      ensures error.None? ==>
        var from := Open(old(row), o, snapshot.validity).source.lastUid;
        && from < snapshot.uidNext
        && row.value.lastUid == (if from + o.batch < snapshot.uidNext then from + o.batch else snapshot.uidNext - 1)
        && (from < row.value.lastUid ==> reply.Some? && forall i | 0 <= i < |reply.value| :: Known(row.value, reply.value[i].uid))
      ensures error.None? && reply.Some? ==>
        var start := Open(old(row), o, snapshot.validity).source;
        start.lastUid < row.value.lastUid ==>
          forall i | 0 <= i < |reply.value| :: Known(start, reply.value[i].uid) || Filed(row.value, reply.value[i], bodies(reply.value[i].uid))
    {
      imported, issues := 0, 0;
      if o.batch < 1 || o.batch > 100 || snapshot.validity == 0 || snapshot.uidNext == 0 { return 0, 0, Some(Invalid); }
      if o.accept != 0 && o.accept != snapshot.validity { return 0, 0, Some(MailboxChanged); }
      error := Initialize(o, snapshot.validity, openFate, alertFate);
      if error.Some? { return; }
      var from := row.value.lastUid;
      if snapshot.uidNext <= from {
        error := Alert(snapshot.validity, NextRegressed, alertFate);
        return 0, 0, if error.Some? then error else Some(MailboxChanged);
      }
      var end := from + o.batch;
      if end >= snapshot.uidNext { end := snapshot.uidNext - 1; }
      if end == from { return 0, 0, None; }
      if reply.None? || |reply.value| > o.batch { return 0, 0, Some(Fetch); }
      imported, issues, error := CollectWindow(reply.value, end, bodies, importOk, endFate, fate);
    }
  }

  lemma ReplyKnown(reply: seq<Meta>, ms: seq<Meta>, s: Source, s': Source)
    requires multiset(ms) == multiset(reply) && s'.receipts == s.receipts && s'.validity == s.validity
    requires forall i | 0 <= i < |ms| :: Known(s, ms[i].uid)
    ensures forall i | 0 <= i < |reply| :: Known(s', reply[i].uid)
  {
    forall i | 0 <= i < |reply| ensures Known(s', reply[i].uid) {
      assert reply[i] in multiset(reply);
      assert reply[i] in multiset(ms);
      var j :| 0 <= j < |ms| && ms[j] == reply[i];
      KnownStays(s, s', ms[j].uid);
    }
  }

  lemma ReplyFiled(reply: seq<Meta>, ms: seq<Meta>, start: Source, s: Source, s': Source, bodies: nat -> Body)
    requires multiset(ms) == multiset(reply) && s'.receipts == s.receipts && s'.validity == s.validity
    requires forall i | 0 <= i < |ms| :: Known(start, ms[i].uid) || Filed(s, ms[i], bodies(ms[i].uid))
    ensures forall i | 0 <= i < |reply| :: Known(start, reply[i].uid) || Filed(s', reply[i], bodies(reply[i].uid))
  {
    forall i | 0 <= i < |reply| ensures Known(start, reply[i].uid) || Filed(s', reply[i], bodies(reply[i].uid)) {
      assert reply[i] in multiset(reply);
      assert reply[i] in multiset(ms);
      var j :| 0 <= j < |ms| && ms[j] == reply[i];
      if Filed(s, ms[j], bodies(ms[j].uid)) { FiledStays(s, s', ms[j], bodies(ms[j].uid)); }
    }
  }

  lemma BetweenIsAbsent(ms: seq<Meta>, i: nat, s: Source, start: nat, end: nat, gaps: set<(nat, nat)>)
    requires Usable(ms, start, end) && i < |ms| && Absent(ms, s.validity, start, end) <= gaps
    requires s.lastUid == if i == 0 then start - 1 else ms[i - 1].uid
    ensures forall u | s.lastUid < u < ms[i].uid :: (s.validity, u) in gaps
  {
    forall u | s.lastUid < u < ms[i].uid ensures (s.validity, u) in gaps {
      assert !Listed(ms, u);
      assert (s.validity, u) in Absent(ms, s.validity, start, end);
    }
  }

  lemma TailIsAbsent(ms: seq<Meta>, s: Source, start: nat, end: nat, gaps: set<(nat, nat)>)
    requires Usable(ms, start, end) && Absent(ms, s.validity, start, end) <= gaps
    requires s.lastUid == if ms == [] then start - 1 else ms[|ms| - 1].uid
    ensures forall u | s.lastUid < u <= end :: (s.validity, u) in gaps
  {
    forall u | s.lastUid < u <= end ensures (s.validity, u) in gaps {
      assert !Listed(ms, u);
      assert (s.validity, u) in Absent(ms, s.validity, start, end);
    }
  }
}
