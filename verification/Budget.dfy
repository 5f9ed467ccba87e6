/** Website submission budgets: recipients accepted per identity and per message stream,
    each in a minute, an hour and a day. */
module Budget {
  import opened Options
  import opened RollingWindow
  import opened Delivery
  import F = Fingerprint

  type Identity = nat
  type Tag = (Identity, F.Stream)

  const DAY: int := 24 * HOUR
  const HORIZON: int := 720 * HOUR
  const SCHEDULED_MESSAGES: nat := 100
  const SCHEDULED_BYTES: nat := 0x800_0000

  /** Zero disables a window. */
  datatype Limits = Limits(minute: nat, hour: nat, day: nat)

  /** The limits of the identities and of the streams that are configured. */
  datatype Config = Config(identities: map<Identity, Limits>, streams: map<Tag, Limits>)

  datatype Answer =
    | Reserved | NoIdentity | ExpiredSubmission | InvalidExpiry | InvalidSchedule | ScheduleCapacity
    | Disabled | BatchTooLarge | SubmissionBudget | StreamDenied | StreamBudget

  /** A request as the budget sees it: recipients, deadline, schedule, size, what the
      identity already has scheduled, and whether identity and stream are switched on. */
  datatype Request = Request(
    identity: Identity, stream: F.Stream, units: nat,
    expiresAt: Option<Time>, scheduleAt: Option<Time>, size: nat,
    scheduledCount: nat, scheduledBytes: nat, enabled: bool, streamEnabled: bool)

  function OfIdentity(id: Identity): Tag -> bool { (t: Tag) => t.0 == id }
  function OfStream(id: Identity, s: F.Stream): Tag -> bool { (t: Tag) => t == (id, s) }

  ghost predicate Respects(log: seq<Entry<Tag>>, covers: Tag -> bool, l: Limits) {
    && (l.minute > 0 ==> Admitted(log, covers, MINUTE, l.minute))
    && (l.hour > 0 ==> Admitted(log, covers, HOUR, l.hour))
    && (l.day > 0 ==> Admitted(log, covers, DAY, l.day))
  }

  ghost predicate Fits(log: seq<Entry<Tag>>, covers: Tag -> bool, l: Limits, units: nat, now: Time) {
    && (l.minute > 0 ==> Used(log, covers, now - MINUTE) + units <= l.minute)
    && (l.hour > 0 ==> Used(log, covers, now - HOUR) + units <= l.hour)
    && (l.day > 0 ==> Used(log, covers, now - DAY) + units <= l.day)
  }

  predicate BatchFits(l: Limits, units: nat) {
    (l.minute > 0 ==> units <= l.minute) && (l.hour > 0 ==> units <= l.hour) && (l.day > 0 ==> units <= l.day)
  }

  predicate Timely(q: Request, now: Time) {
    && (q.expiresAt.Some? ==> now < q.expiresAt.value <= now + HORIZON)
    && (q.scheduleAt.Some? ==>
          && now < q.scheduleAt.value <= now + HORIZON
          && (q.expiresAt.Some? ==> q.scheduleAt.value < q.expiresAt.value)
          && q.scheduledCount < SCHEDULED_MESSAGES
          && q.scheduledBytes + q.size <= SCHEDULED_BYTES)
  }

  /** Sum the units of three windows in one pass over the log. */
  method Usage(log: seq<Entry<Tag>>, covers: Tag -> bool, now: Time) returns (used: seq<nat>)
    ensures used == [Used(log, covers, now - MINUTE), Used(log, covers, now - HOUR), Used(log, covers, now - DAY)]
  {
    var minute, hour, day := 0, 0, 0;
    var i := 0;
    while i < |log|
      invariant 0 <= i <= |log|
      invariant minute == Used(log[..i], covers, now - MINUTE)
      invariant hour == Used(log[..i], covers, now - HOUR)
      invariant day == Used(log[..i], covers, now - DAY)
    {
      assert log[..i + 1][..i] == log[..i];
      if covers(log[i].tag) && log[i].at > now - DAY {
        day := day + log[i].units;
        if log[i].at > now - HOUR { hour := hour + log[i].units; }
        if log[i].at > now - MINUTE { minute := minute + log[i].units; }
      }
      i := i + 1;
    }
    assert log[..|log|] == log;
    used := [minute, hour, day];
  }

  /** The loop over the three limits, first for the batch alone, then with the usage. */
  method WithinLimits(l: Limits, used: seq<nat>, units: nat) returns (ok: bool)
    requires |used| == 3
    ensures ok <==>
      && (l.minute > 0 ==> used[0] + units <= l.minute)
      && (l.hour > 0 ==> used[1] + units <= l.hour)
      && (l.day > 0 ==> used[2] + units <= l.day)
  {
    var limits := [l.minute, l.hour, l.day];
    var i := 0;
    while i < 3
      invariant 0 <= i <= 3
      invariant forall k :: 0 <= k < i ==> limits[k] > 0 ==> used[k] + units <= limits[k]
    {
      if limits[i] > 0 && used[i] + units > limits[i] {
        return false;
      }
      i := i + 1;
    }
    assert limits[0] == l.minute && limits[1] == l.hour && limits[2] == l.day;
    ok := true;
  }

  /** One layer of the budget: the batch alone, then with the usage. */
  method CheckLayer(log: seq<Entry<Tag>>, covers: Tag -> bool, l: Limits, units: nat, now: Time, exhausted: Answer) returns (a: Answer)
    requires exhausted in {SubmissionBudget, StreamBudget}
    ensures a in {Reserved, BatchTooLarge, exhausted}
    ensures a == Reserved <==> Fits(log, covers, l, units, now)
    ensures a == BatchTooLarge <==> !BatchFits(l, units)
  {
    var fits := WithinLimits(l, [0, 0, 0], units);
    if !fits { return BatchTooLarge; }
    var used := Usage(log, covers, now);
    fits := WithinLimits(l, used, units);
    a := if fits then Reserved else exhausted;
  }

  /** Which time each answer complains about: a deadline that has passed or is more than 30
      days away, a schedule that is not between now and the deadline or 30 days, or no room
      for another scheduled message. */
  predicate TimesExplain(q: Request, now: Time, a: Answer) {
    var month := 30 * 24 * HOUR;
    match a
    case ExpiredSubmission => q.expiresAt.Some? && q.expiresAt.value <= now
    case InvalidExpiry => q.expiresAt.Some? && now + month < q.expiresAt.value
    case InvalidSchedule =>
      q.scheduleAt.Some? && (q.scheduleAt.value <= now || now + month < q.scheduleAt.value || (q.expiresAt.Some? && q.expiresAt.value <= q.scheduleAt.value))
    case ScheduleCapacity => q.scheduleAt.Some? && (q.scheduledCount >= 100 || q.scheduledBytes + q.size > 128 * 1024 * 1024)
    case _ =>
      && (q.expiresAt.Some? ==> now < q.expiresAt.value <= now + month)
      && (q.scheduleAt.Some? ==>
            && now < q.scheduleAt.value <= now + month && (q.expiresAt.Some? ==> q.scheduleAt.value < q.expiresAt.value)
            && q.scheduledCount < 100 && q.scheduledBytes + q.size <= 128 * 1024 * 1024)
  }

  /** Every answer names a reason that holds: the tests it comes after have passed. */
  ghost predicate Explains(cfg: Config, log: seq<Entry<Tag>>, q: Request, now: Time, a: Answer) {
    var own, stream := OfIdentity(q.identity), OfStream(q.identity, q.stream);
    && (a == NoIdentity <==> q.identity !in cfg.identities)
    && (a != NoIdentity ==>
          var l := cfg.identities[q.identity];
          && TimesExplain(q, now, a)
          && (a == Disabled ==> !q.enabled)
          && (a in {BatchTooLarge, SubmissionBudget, StreamDenied, StreamBudget, Reserved} ==> q.enabled)
          && (a == SubmissionBudget ==> BatchFits(l, q.units) && !Fits(log, own, l, q.units, now))
          && (a in {StreamDenied, StreamBudget, Reserved} ==> Fits(log, own, l, q.units, now))
          && (a == StreamDenied ==> (q.identity, q.stream) !in cfg.streams || !q.streamEnabled)
          && (a in {StreamBudget, Reserved} ==> (q.identity, q.stream) in cfg.streams && q.streamEnabled)
          && (a == BatchTooLarge ==> !BatchFits(l, q.units) || ((q.identity, q.stream) in cfg.streams && !BatchFits(cfg.streams[(q.identity, q.stream)], q.units)))
          && (a == StreamBudget ==>
                BatchFits(cfg.streams[(q.identity, q.stream)], q.units) && !Fits(log, stream, cfg.streams[(q.identity, q.stream)], q.units, now)))
  }

  /** Deadline and schedule. */
  method CheckTimes(q: Request, now: Time) returns (a: Answer)
    ensures a in {Reserved, ExpiredSubmission, InvalidExpiry, InvalidSchedule, ScheduleCapacity}
    ensures a == Reserved <==> Timely(q, now)
    ensures TimesExplain(q, now, a)
  {
    if q.expiresAt.Some? {
      if q.expiresAt.value <= now { return ExpiredSubmission; }
      if q.expiresAt.value > now + HORIZON { return InvalidExpiry; }
    }
    if q.scheduleAt.Some? {
      if q.expiresAt.Some? && q.expiresAt.value <= q.scheduleAt.value { return InvalidSchedule; }
      if !(now < q.scheduleAt.value <= now + HORIZON) { return InvalidSchedule; }
      if q.scheduledCount >= SCHEDULED_MESSAGES || q.scheduledBytes + q.size > SCHEDULED_BYTES { return ScheduleCapacity; }
    }
    a := Reserved;
  }

  /** What it takes for a request to be admitted at `now`. */
  ghost predicate Admissible(cfg: Config, log: seq<Entry<Tag>>, q: Request, now: Time) {
    && q.identity in cfg.identities && q.enabled
    && Timely(q, now)
    && Fits(log, OfIdentity(q.identity), cfg.identities[q.identity], q.units, now)
    && (q.identity, q.stream) in cfg.streams && q.streamEnabled
    && Fits(log, OfStream(q.identity, q.stream), cfg.streams[(q.identity, q.stream)], q.units, now)
  }

  /** The checks, in the order they answer. */
  method Check(cfg: Config, log: seq<Entry<Tag>>, q: Request, now: Time) returns (a: Answer)
    ensures a == Reserved <==> Admissible(cfg, log, q, now)
    ensures Explains(cfg, log, q, now, a)
  {
    if q.identity !in cfg.identities { return NoIdentity; }
    a := CheckTimes(q, now);
    if a != Reserved { return; }
    if !q.enabled { return Disabled; }
    a := CheckLayer(log, OfIdentity(q.identity), cfg.identities[q.identity], q.units, now, SubmissionBudget);
    if a != Reserved { return; }
    if (q.identity, q.stream) !in cfg.streams || !q.streamEnabled { return StreamDenied; }
    a := CheckLayer(log, OfStream(q.identity, q.stream), cfg.streams[(q.identity, q.stream)], q.units, now, StreamBudget);
  }

  class SubmissionBudgets {
    const cfg: Config
    var log: seq<Entry<Tag>>

    ghost predicate Valid()
      reads this
    {
      AllRespected(cfg, log)
    }

    constructor (cfg: Config)
      ensures Valid() && log == [] && this.cfg == cfg
    {
      this.cfg := cfg;
      log := [];
    }

    /** Reserve under the identity's row lock.  The usage is read at `now`; the row is
        stamped `at`, no earlier than the check. */
    method Reserve(q: Request, now: Time, at: Time) returns (a: Answer)
      requires Valid() && now <= at
      modifies this`log
      ensures Valid()
      ensures a == Reserved <==> Admissible(cfg, old(log), q, now)
      ensures Explains(cfg, old(log), q, now, a)
      ensures log == if a == Reserved then old(log) + [Entry(at, q.units, (q.identity, q.stream))] else old(log)
    {
      a := Check(cfg, log, q, now);
      if a == Reserved {
        ReserveKeeps(cfg, log, q, now, at);
        log := log + [Entry(at, q.units, (q.identity, q.stream))];
      }
    }

    /** No minute, hour or day, wherever it ends, holds more recipients than the identity
        or the stream allows. */
    lemma WindowsHold(id: Identity, s: F.Stream, t: Time)
      requires Valid()
      ensures id in cfg.identities ==> WindowsWithin(log, OfIdentity(id), cfg.identities[id], t)
      ensures (id, s) in cfg.streams ==> WindowsWithin(log, OfStream(id, s), cfg.streams[(id, s)], t)
    {
      RespectedWindows(cfg, log, id, s, t);
    }
  }

  ghost predicate AllRespected(cfg: Config, log: seq<Entry<Tag>>) {
    && (forall id :: id in cfg.identities ==> Respects(log, OfIdentity(id), cfg.identities[id]))
    && (forall t :: t in cfg.streams ==> Respects(log, OfStream(t.0, t.1), cfg.streams[t]))
  }

  /** Every window ending at t is within the limits. */
  ghost predicate WindowsWithin(log: seq<Entry<Tag>>, covers: Tag -> bool, l: Limits, t: Time) {
    && (l.minute > 0 ==> Within(log, covers, t - MINUTE, t) <= l.minute)
    && (l.hour > 0 ==> Within(log, covers, t - HOUR, t) <= l.hour)
    && (l.day > 0 ==> Within(log, covers, t - DAY, t) <= l.day)
  }

  /** An admitted reservation, stamped no earlier than its check, respects every budget. */
  lemma ReserveKeeps(cfg: Config, log: seq<Entry<Tag>>, q: Request, now: Time, at: Time)
    requires AllRespected(cfg, log) && Admissible(cfg, log, q, now) && now <= at
    ensures AllRespected(cfg, log + [Entry(at, q.units, (q.identity, q.stream))])
  {
    var e := Entry(at, q.units, (q.identity, q.stream));
    forall id | id in cfg.identities ensures Respects(log + [e], OfIdentity(id), cfg.identities[id]) {
      Extend(log, e, OfIdentity(id), cfg.identities[id], now);
    }
    forall t | t in cfg.streams ensures Respects(log + [e], OfStream(t.0, t.1), cfg.streams[t]) {
      Extend(log, e, OfStream(t.0, t.1), cfg.streams[t], now);
    }
  }

  lemma Extend(log: seq<Entry<Tag>>, e: Entry<Tag>, covers: Tag -> bool, l: Limits, now: Time)
    requires Respects(log, covers, l) && now <= e.at
    requires covers(e.tag) ==> Fits(log, covers, l, e.units, now)
    ensures Respects(log + [e], covers, l)
  {
    if l.minute > 0 { AppendAdmitted(log, e, covers, MINUTE, l.minute, now); }
    if l.hour > 0 { AppendAdmitted(log, e, covers, HOUR, l.hour, now); }
    if l.day > 0 { AppendAdmitted(log, e, covers, DAY, l.day, now); }
  }

  lemma RespectedWindows(cfg: Config, log: seq<Entry<Tag>>, id: Identity, s: F.Stream, t: Time)
    requires AllRespected(cfg, log)
    ensures id in cfg.identities ==> WindowsWithin(log, OfIdentity(id), cfg.identities[id], t)
    ensures (id, s) in cfg.streams ==> WindowsWithin(log, OfStream(id, s), cfg.streams[(id, s)], t)
  {
    if id in cfg.identities { LayerWindows(log, OfIdentity(id), cfg.identities[id], t); }
    if (id, s) in cfg.streams { LayerWindows(log, OfStream(id, s), cfg.streams[(id, s)], t); }
  }

  lemma LayerWindows(log: seq<Entry<Tag>>, covers: Tag -> bool, l: Limits, t: Time)
    requires Respects(log, covers, l)
    ensures WindowsWithin(log, covers, l, t)
  {
    if l.minute > 0 { NoWindowOverdrawn(log, covers, MINUTE, l.minute, t); }
    if l.hour > 0 { NoWindowOverdrawn(log, covers, HOUR, l.hour, t); }
    if l.day > 0 { NoWindowOverdrawn(log, covers, DAY, l.day, t); }
  }
}
