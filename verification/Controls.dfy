/** Provider controls: connection limits, rolling quotas of a provider and of its shared
    account group, and the circuit breaker.  A job is one delivery attempt as the provider
    sees it; quota is never refunded. */
module Controls {
  import opened Options
  import opened Delivery
  import W = RollingWindow
  import Fairness

  type Pid = nat
  type Gid = nat

  const UNLIMITED: int := 2147483647
  const SAMPLE_WINDOW: int := 10 * MINUTE
  const COOLDOWN: int := MINUTE

  /** A missing provider limit is no limit; so is a zero group limit. */
  datatype Provider = Provider(maxConnections: nat, hourly: Option<nat>, daily: Option<nat>, group: Option<Gid>, health: bool)
  datatype Group = Group(hourly: nat, daily: nat)
  datatype Config = Config(health: bool, providers: map<Pid, Provider>, groups: map<Gid, Group>)

  datatype Job = Job(provider: Pid, units: nat, startedAt: Time, until: Time, open: bool, sample: Option<Sample>, observedAt: Time)

  /** `since` is the number of jobs when the circuit opened. */
  datatype Circuit = Closed | Open(until: Time, since: nat) | HalfOpen(probe: nat, since: nat)

  /** `samplesSince` is None before the first time the circuit closed again. */
  datatype Health = Health(circuit: Circuit, samplesSince: Option<Time>)

  datatype State = State(jobs: seq<Job>, health: map<Pid, Health>, clock: Time)

  // ---- Admission ----

  /** Open jobs of a provider whose lease is alive at an instant. */
  function Active(jobs: seq<Job>, p: Pid, now: Time): nat {
    if jobs == [] then 0
    else
      var j := jobs[|jobs| - 1];
      Active(jobs[..|jobs| - 1], p, now) + (if j.provider == p && j.open && j.until > now then 1 else 0)
  }

  /** The quota ledger: one reservation per job, at its start. */
  function Ledger(jobs: seq<Job>): (log: seq<W.Entry<Pid>>)
    ensures |log| == |jobs|
    ensures forall i | 0 <= i < |jobs| :: log[i] == W.Entry(jobs[i].startedAt, jobs[i].units, jobs[i].provider)
  {
    seq(|jobs|, (i: nat) requires i < |jobs| => W.Entry(jobs[i].startedAt, jobs[i].units, jobs[i].provider))
  }

  function Only(p: Pid): Pid -> bool { q => q == p }

  function InGroup(cfg: Config, g: Gid): Pid -> bool {
    q => q in cfg.providers && cfg.providers[q].group == Some(g)
  }

  function Left(limit: Option<nat>, used: nat): int { if limit.Some? then limit.value - used else UNLIMITED }

  function GroupLimit(limit: nat): Option<nat> { if limit == 0 then None else Some(limit) }

  function Min(a: int, b: int): int { if a < b then a else b }

  function ProviderLeft(cfg: Config, s: State, p: Pid, now: Time): int
    requires p in cfg.providers
  {
    var log := Ledger(s.jobs);
    Min(Left(cfg.providers[p].hourly, W.Used(log, Only(p), now - HOUR)), Left(cfg.providers[p].daily, W.Used(log, Only(p), now - WINDOW)))
  }

  function GroupLeft(cfg: Config, s: State, p: Pid, now: Time): int
    requires p in cfg.providers
  {
    var g := cfg.providers[p].group;
    if g.None? || g.value !in cfg.groups then UNLIMITED
    else
      var log, limits := Ledger(s.jobs), cfg.groups[g.value];
      Min(Left(GroupLimit(limits.hourly), W.Used(log, InGroup(cfg, g.value), now - HOUR)),
          Left(GroupLimit(limits.daily), W.Used(log, InGroup(cfg, g.value), now - WINDOW)))
  }

  function Remaining(cfg: Config, s: State, p: Pid, now: Time): int
    requires p in cfg.providers
  {
    Min(ProviderLeft(cfg, s, p, now), GroupLeft(cfg, s, p, now))
  }

  /** Every limit that applies to the provider still has room for one recipient. */
  ghost predicate Room(cfg: Config, s: State, p: Pid, now: Time)
    requires p in cfg.providers
  {
    var log, v := Ledger(s.jobs), cfg.providers[p];
    && (v.hourly.Some? ==> W.Used(log, Only(p), now - HOUR) < v.hourly.value)
    && (v.daily.Some? ==> W.Used(log, Only(p), now - WINDOW) < v.daily.value)
    && (v.group.Some? && v.group.value in cfg.groups ==>
          var g := cfg.groups[v.group.value];
          && (g.hourly > 0 ==> W.Used(log, InGroup(cfg, v.group.value), now - HOUR) < g.hourly)
          && (g.daily > 0 ==> W.Used(log, InGroup(cfg, v.group.value), now - WINDOW) < g.daily))
  }

  predicate Guarded(cfg: Config, p: Pid) { cfg.health && p in cfg.providers && cfg.providers[p].health }

  predicate CircuitAdmits(cfg: Config, s: State, p: Pid, now: Time) {
    Guarded(cfg, p) && p in s.health ==>
      s.health[p].circuit.Closed? || (s.health[p].circuit.Open? && s.health[p].circuit.until <= now)
  }

  /** How many recipients a claim may take: none, or at most a quantum. */
  function Allowance(cfg: Config, s: State, p: Pid, now: Time): int {
    if p !in cfg.providers || Active(s.jobs, p, now) >= cfg.providers[p].maxConnections then 0
    else if Remaining(cfg, s, p, now) <= 0 || !CircuitAdmits(cfg, s, p, now) then 0
    else Min(Remaining(cfg, s, p, now), Fairness.FAIR_RECIPIENT_QUANTUM)
  }

  // ---- Transitions ----

  function Started(cfg: Config, s: State, p: Pid, units: nat, until: Time, now: Time): State {
    var probing := Guarded(cfg, p) && p in s.health && s.health[p].circuit.Open? && s.health[p].circuit.until <= now;
    State(s.jobs + [Job(p, units, now, until, true, None, now)],
          if probing then s.health[p := s.health[p].(circuit := HalfOpen(|s.jobs|, s.health[p].circuit.since))] else s.health,
          now)
  }

  predicate Counts(j: Job, p: Pid, since: Option<Time>, now: Time) {
    && j.provider == p && (since.Some? ==> j.startedAt >= since.value)
    && j.sample in {Some(Success), Some(Failure)} && j.observedAt > now - SAMPLE_WINDOW
  }

  function Samples(jobs: seq<Job>, p: Pid, since: Option<Time>, now: Time): set<nat> {
    set i | 0 <= i < |jobs| && Counts(jobs[i], p, since, now)
  }

  function Failures(jobs: seq<Job>, p: Pid, since: Option<Time>, now: Time): set<nat> {
    set i | 0 <= i < |jobs| && Counts(jobs[i], p, since, now) && jobs[i].sample == Some(Failure)
  }

  function HealthOf(s: State, p: Pid): Health { if p in s.health then s.health[p] else Health(Closed, None) }

  function NextCircuit(cfg: Config, jobs: seq<Job>, h: Health, i: nat, p: Pid, sample: Sample, now: Time): Circuit {
    if h.circuit.HalfOpen? && h.circuit.probe == i then
      if sample == Success then Closed else Open(now + COOLDOWN, |jobs|)
    else if h.circuit.Closed? && Guarded(cfg, p) && |Samples(jobs, p, h.samplesSince, now)| >= 5
            && |Failures(jobs, p, h.samplesSince, now)| * 2 >= |Samples(jobs, p, h.samplesSince, now)| then
      Open(now + COOLDOWN, |jobs|)
    else h.circuit
  }

  function Ended(s: State, i: nat, sample: Option<Sample>, now: Time): seq<Job>
    requires i < |s.jobs|
  {
    s.jobs[i := s.jobs[i].(open := false, sample := sample, observedAt := now)]
  }

  function Finished(cfg: Config, s: State, i: nat, sample: Sample, now: Time): State
    requires i < |s.jobs|
  {
    var p := s.jobs[i].provider;
    var jobs := Ended(s, i, Some(sample), now);
    var h := HealthOf(s, p);
    var next := NextCircuit(cfg, jobs, h, i, p, sample, now);
    State(jobs, s.health[p := Health(next, if next.Closed? && !h.circuit.Closed? then Some(now) else h.samplesSince)], now)
  }

  /** A crashed worker is no sample; an abandoned probe opens the circuit again. */
  function Recovered(s: State, i: nat, now: Time): State
    requires i < |s.jobs|
  {
    var jobs := Ended(s, i, None, now);
    State(jobs,
          map p | p in s.health ::
            if s.health[p].circuit.HalfOpen? && s.health[p].circuit.probe == i
            then s.health[p].(circuit := Open(now + COOLDOWN, |jobs|)) else s.health[p],
          now)
  }

  /** The rows behind the controls, updated in place under the provider lock. */
  class ProviderControls {
    const cfg: Config
    var jobs: seq<Job>
    var health: map<Pid, Health>
    var clock: Time

    ghost function View(): State reads this { State(jobs, health, clock) }

    ghost predicate Valid() reads this { Inv(cfg, View()) }

    constructor (cfg: Config, now: Time)
      ensures Valid() && View() == State([], map[], now) && this.cfg == cfg
    {
      this.cfg, this.jobs, this.health, this.clock := cfg, [], map[], now;
    }

    method Admission(p: Pid, now: Time) returns (allowance: int)
      ensures allowance == Allowance(cfg, View(), p, now)
      ensures 0 <= allowance <= Fairness.FAIR_RECIPIENT_QUANTUM
      ensures allowance > 0 <==>
        && p in cfg.providers && Active(jobs, p, now) < cfg.providers[p].maxConnections
        && Room(cfg, View(), p, now) && CircuitAdmits(cfg, View(), p, now)
      ensures allowance > 0 ==> allowance == Fairness.FAIR_RECIPIENT_QUANTUM || allowance == Remaining(cfg, View(), p, now)
    {
      if p !in cfg.providers { return 0; }
      if Active(jobs, p, now) >= cfg.providers[p].maxConnections { return 0; }
      var s := State(jobs, health, clock);
      var remaining := Remaining(cfg, s, p, now);
      if remaining <= 0 || !CircuitAdmits(cfg, s, p, now) { return 0; }
      allowance := Min(remaining, Fairness.FAIR_RECIPIENT_QUANTUM);
    }

    method ReserveControls(p: Pid, units: nat, until: Time, now: Time)
      requires Valid() && clock <= now && 1 <= units <= Allowance(cfg, View(), p, now)
      modifies this
      ensures Valid() && View() == Started(cfg, old(View()), p, units, until, now)
    {
      StartKeeps(cfg, View(), p, units, until, now);
      var attempt := |jobs|;
      jobs := jobs + [Job(p, units, now, until, true, None, now)];
      clock := now;
      if Guarded(cfg, p) && p in health && health[p].circuit.Open? && health[p].circuit.until <= now {
        health := health[p := health[p].(circuit := HalfOpen(attempt, health[p].circuit.since))];
      }
    }

    method FinishHealth(i: nat, sample: Sample, now: Time)
      requires Valid() && clock <= now && i < |jobs| && jobs[i].open
      modifies this
      ensures Valid() && View() == Finished(cfg, old(View()), i, sample, now)
    {
      RecordSample(i, sample, now);
      FinishKeeps(cfg, old(View()), i, sample, now);
    }

    /** Close the job and move the circuit. */
    method RecordSample(i: nat, sample: Sample, now: Time)
      requires i < |jobs|
      modifies this
      ensures View() == Finished(cfg, old(View()), i, sample, now)
    {
      var p := jobs[i].provider;
      jobs := jobs[i := jobs[i].(open := false, sample := Some(sample), observedAt := now)];
      clock := now;
      if p !in health { health := health[p := Health(Closed, None)]; }
      var h := health[p];
      var total, failed := |Samples(jobs, p, h.samplesSince, now)|, |Failures(jobs, p, h.samplesSince, now)|;
      var next := h.circuit;
      if h.circuit.HalfOpen? && h.circuit.probe == i {
        next := if sample == Success then Closed else Open(now + COOLDOWN, |jobs|);
      } else if h.circuit.Closed? && Guarded(cfg, p) && total >= 5 && failed * 2 >= total {
        next := Open(now + COOLDOWN, |jobs|);
      }
      if next != h.circuit {
        health := health[p := Health(next, if next.Closed? then Some(now) else h.samplesSince)];
      }
      assert health == old(health)[p := health[p]];
    }

    method RecoverProbe(i: nat, now: Time)
      requires Valid() && clock <= now && i < |jobs| && jobs[i].open
      modifies this
      ensures Valid() && View() == Recovered(old(View()), i, now)
    {
      RecoverKeeps(cfg, View(), i, now);
      jobs := jobs[i := jobs[i].(open := false, sample := None, observedAt := now)];
      clock := now;
      health := map p | p in health ::
        if health[p].circuit.HalfOpen? && health[p].circuit.probe == i
        then health[p].(circuit := Open(now + COOLDOWN, |jobs|)) else health[p];
    }
  }

  // ---- Invariant ----

  ghost predicate ConnectionsOk(cfg: Config, s: State) {
    forall p | p in cfg.providers :: Active(s.jobs, p, s.clock) <= cfg.providers[p].maxConnections
  }

  ghost predicate Within(s: State, covers: Pid -> bool, width: int, limit: Option<nat>) {
    limit.Some? ==> W.Admitted(Ledger(s.jobs), covers, width, limit.value)
  }

  ghost predicate QuotasOk(cfg: Config, s: State) {
    && (forall p | p in cfg.providers :: ProviderQuotaOk(cfg, s, p))
    && (forall g | g in cfg.groups :: GroupQuotaOk(cfg, s, g))
  }

  ghost predicate ProviderQuotaOk(cfg: Config, s: State, p: Pid)
    requires p in cfg.providers
  {
    Within(s, Only(p), HOUR, cfg.providers[p].hourly) && Within(s, Only(p), WINDOW, cfg.providers[p].daily)
  }

  ghost predicate GroupQuotaOk(cfg: Config, s: State, g: Gid)
    requires g in cfg.groups
  {
    && Within(s, InGroup(cfg, g), HOUR, GroupLimit(cfg.groups[g].hourly))
    && Within(s, InGroup(cfg, g), WINDOW, GroupLimit(cfg.groups[g].daily))
  }

  /** Nothing was started on an open circuit, and only the probe on a half-open one. */
  ghost predicate CircuitOk(cfg: Config, s: State, p: Pid, c: Circuit) {
    match c
    case Closed => true
    case Open(until, since) =>
      Guarded(cfg, p) && since <= |s.jobs| && forall i | since <= i < |s.jobs| :: s.jobs[i].provider != p
    case HalfOpen(probe, since) =>
      && Guarded(cfg, p) && since <= probe < |s.jobs|
      && s.jobs[probe].provider == p && s.jobs[probe].open
      && forall i | since <= i < |s.jobs| && i != probe :: s.jobs[i].provider != p
  }

  ghost predicate CircuitsOk(cfg: Config, s: State) { forall p | p in s.health :: CircuitOk(cfg, s, p, s.health[p].circuit) }

  ghost predicate Inv(cfg: Config, s: State) { ConnectionsOk(cfg, s) && QuotasOk(cfg, s) && CircuitsOk(cfg, s) }

  // ---- Connections ----

  lemma {:induction false} ActiveShrinks(jobs: seq<Job>, p: Pid, early: Time, late: Time)
    requires early <= late
    ensures Active(jobs, p, late) <= Active(jobs, p, early)
  {
    if jobs != [] { ActiveShrinks(jobs[..|jobs| - 1], p, early, late); }
  }

  lemma ActiveAppend(jobs: seq<Job>, j: Job, p: Pid, now: Time)
    ensures Active(jobs + [j], p, now) == Active(jobs, p, now) + (if j.provider == p && j.open && j.until > now then 1 else 0)
  {
    assert (jobs + [j])[..|jobs|] == jobs;
  }

  lemma {:induction false} ActiveEnds(jobs: seq<Job>, i: nat, j: Job, p: Pid, now: Time)
    requires i < |jobs| && !j.open
    ensures Active(jobs[i := j], p, now) <= Active(jobs, p, now)
  {
    var n := |jobs| - 1;
    if i < n {
      assert jobs[i := j][..n] == jobs[..n][i := j];
      ActiveEnds(jobs[..n], i, j, p, now);
    } else {
      assert jobs[i := j][..n] == jobs[..n];
    }
  }

  lemma StartConnections(cfg: Config, s: State, p: Pid, units: nat, until: Time, now: Time)
    requires ConnectionsOk(cfg, s) && s.clock <= now && Allowance(cfg, s, p, now) > 0
    ensures ConnectionsOk(cfg, Started(cfg, s, p, units, until, now))
  {
    forall q | q in cfg.providers ensures Active(Started(cfg, s, p, units, until, now).jobs, q, now) <= cfg.providers[q].maxConnections {
      ActiveShrinks(s.jobs, q, s.clock, now);
      ActiveAppend(s.jobs, Job(p, units, now, until, true, None, now), q, now);
    }
  }

  lemma EndConnections(cfg: Config, s: State, i: nat, sample: Option<Sample>, now: Time, s': State)
    requires ConnectionsOk(cfg, s) && s.clock <= now && i < |s.jobs|
    requires s'.jobs == Ended(s, i, sample, now) && s'.clock == now
    ensures ConnectionsOk(cfg, s')
  {
    forall q | q in cfg.providers ensures Active(s'.jobs, q, now) <= cfg.providers[q].maxConnections {
      ActiveShrinks(s.jobs, q, s.clock, now);
      ActiveEnds(s.jobs, i, s'.jobs[i], q, now);
    }
  }

  // ---- Quotas ----

  lemma LedgerAppend(jobs: seq<Job>, j: Job)
    ensures Ledger(jobs + [j]) == Ledger(jobs) + [W.Entry(j.startedAt, j.units, j.provider)]
  {
  }

  lemma LedgerEnds(s: State, i: nat, sample: Option<Sample>, now: Time)
    requires i < |s.jobs|
    ensures Ledger(Ended(s, i, sample, now)) == Ledger(s.jobs)
  {
  }

  /** One budget admits the new job: it covers it only if the remainder was checked. */
  lemma BudgetKeeps(s: State, s': State, covers: Pid -> bool, width: int, limit: Option<nat>, j: Job)
    requires s'.jobs == s.jobs + [j] && Within(s, covers, width, limit)
    requires covers(j.provider) ==> j.units <= Left(limit, W.Used(Ledger(s.jobs), covers, j.startedAt - width))
    ensures Within(s', covers, width, limit)
  {
    if limit.Some? {
      LedgerAppend(s.jobs, j);
      W.AppendAdmitted(Ledger(s.jobs), W.Entry(j.startedAt, j.units, j.provider), covers, width, limit.value, j.startedAt);
    }
  }

  lemma StartProviderQuota(cfg: Config, s: State, s': State, p: Pid, j: Job, q: Pid)
    requires q in cfg.providers && ProviderQuotaOk(cfg, s, q) && s'.jobs == s.jobs + [j] && j.provider == p
    requires p in cfg.providers && j.units <= ProviderLeft(cfg, s, p, j.startedAt)
    ensures ProviderQuotaOk(cfg, s', q)
  {
    BudgetKeeps(s, s', Only(q), HOUR, cfg.providers[q].hourly, j);
    BudgetKeeps(s, s', Only(q), WINDOW, cfg.providers[q].daily, j);
  }

  lemma StartGroupQuota(cfg: Config, s: State, s': State, p: Pid, j: Job, g: Gid)
    requires g in cfg.groups && GroupQuotaOk(cfg, s, g) && s'.jobs == s.jobs + [j] && j.provider == p
    requires p in cfg.providers && j.units <= GroupLeft(cfg, s, p, j.startedAt)
    ensures GroupQuotaOk(cfg, s', g)
  {
    BudgetKeeps(s, s', InGroup(cfg, g), HOUR, GroupLimit(cfg.groups[g].hourly), j);
    BudgetKeeps(s, s', InGroup(cfg, g), WINDOW, GroupLimit(cfg.groups[g].daily), j);
  }

  lemma StartQuotas(cfg: Config, s: State, p: Pid, units: nat, until: Time, now: Time)
    requires QuotasOk(cfg, s) && s.clock <= now && p in cfg.providers && units <= Remaining(cfg, s, p, now)
    ensures QuotasOk(cfg, Started(cfg, s, p, units, until, now))
  {
    var s' := Started(cfg, s, p, units, until, now);
    var j := s'.jobs[|s.jobs|];
    LedgerAppend(s.jobs, j);
    forall q | q in cfg.providers ensures ProviderQuotaOk(cfg, s', q) { StartProviderQuota(cfg, s, s', p, j, q); }
    forall g | g in cfg.groups ensures GroupQuotaOk(cfg, s', g) { StartGroupQuota(cfg, s, s', p, j, g); }
  }

  lemma EndQuotas(cfg: Config, s: State, i: nat, sample: Option<Sample>, now: Time, s': State)
    requires QuotasOk(cfg, s) && s.clock <= now && i < |s.jobs| && s'.jobs == Ended(s, i, sample, now) && s'.clock == now
    ensures QuotasOk(cfg, s')
  {
    LedgerEnds(s, i, sample, now);
    forall q | q in cfg.providers ensures ProviderQuotaOk(cfg, s', q) { assert ProviderQuotaOk(cfg, s, q); }
    forall g | g in cfg.groups ensures GroupQuotaOk(cfg, s', g) { assert GroupQuotaOk(cfg, s, g); }
  }

  // ---- Circuits ----

  lemma StartCircuits(cfg: Config, s: State, p: Pid, units: nat, until: Time, now: Time)
    requires CircuitsOk(cfg, s) && CircuitAdmits(cfg, s, p, now)
    ensures CircuitsOk(cfg, Started(cfg, s, p, units, until, now))
  {
    var s' := Started(cfg, s, p, units, until, now);
    forall q | q in s'.health ensures CircuitOk(cfg, s', q, s'.health[q].circuit) { assert CircuitOk(cfg, s, q, s.health[q].circuit); }
  }

  lemma FinishCircuits(cfg: Config, s: State, i: nat, sample: Sample, now: Time)
    requires CircuitsOk(cfg, s) && i < |s.jobs|
    ensures CircuitsOk(cfg, Finished(cfg, s, i, sample, now))
  {
    var s' := Finished(cfg, s, i, sample, now);
    var p := s.jobs[i].provider;
    forall q | q in s'.health ensures CircuitOk(cfg, s', q, s'.health[q].circuit) {
      if q in s.health { assert CircuitOk(cfg, s, q, s.health[q].circuit); }
    }
  }

  lemma RecoverCircuits(cfg: Config, s: State, i: nat, now: Time)
    requires CircuitsOk(cfg, s) && i < |s.jobs|
    ensures CircuitsOk(cfg, Recovered(s, i, now))
  {
    var s' := Recovered(s, i, now);
    forall q | q in s'.health ensures CircuitOk(cfg, s', q, s'.health[q].circuit) { assert CircuitOk(cfg, s, q, s.health[q].circuit); }
  }

  lemma StartKeeps(cfg: Config, s: State, p: Pid, units: nat, until: Time, now: Time)
    requires Inv(cfg, s) && s.clock <= now && 1 <= units <= Allowance(cfg, s, p, now)
    ensures Inv(cfg, Started(cfg, s, p, units, until, now))
  {
    StartConnections(cfg, s, p, units, until, now);
    StartQuotas(cfg, s, p, units, until, now);
    StartCircuits(cfg, s, p, units, until, now);
  }

  lemma FinishKeeps(cfg: Config, s: State, i: nat, sample: Sample, now: Time)
    requires Inv(cfg, s) && s.clock <= now && i < |s.jobs|
    ensures Inv(cfg, Finished(cfg, s, i, sample, now))
  {
    EndConnections(cfg, s, i, Some(sample), now, Finished(cfg, s, i, sample, now));
    EndQuotas(cfg, s, i, Some(sample), now, Finished(cfg, s, i, sample, now));
    FinishCircuits(cfg, s, i, sample, now);
  }

  lemma RecoverKeeps(cfg: Config, s: State, i: nat, now: Time)
    requires Inv(cfg, s) && s.clock <= now && i < |s.jobs|
    ensures Inv(cfg, Recovered(s, i, now))
  {
    EndConnections(cfg, s, i, None, now, Recovered(s, i, now));
    EndQuotas(cfg, s, i, None, now, Recovered(s, i, now));
    RecoverCircuits(cfg, s, i, now);
  }

  // ---- Runs ----

  datatype Step =
    | Start(p: Pid, units: nat, until: Time, now: Time)
    | Finish(i: nat, sample: Sample, now: Time)
    | Recover(i: nat, now: Time)

  predicate Legal(cfg: Config, s: State, step: Step) {
    && s.clock <= step.now
    && match step
       case Start(p, units, _, now) => 1 <= units <= Allowance(cfg, s, p, now)
       case Finish(i, _, _) => i < |s.jobs| && s.jobs[i].open
       case Recover(i, now) => i < |s.jobs| && s.jobs[i].open && s.jobs[i].until <= now
  }

  function Next(cfg: Config, s: State, step: Step): State
    requires Legal(cfg, s, step)
  {
    match step
    case Start(p, units, until, now) => Started(cfg, s, p, units, until, now)
    case Finish(i, sample, now) => Finished(cfg, s, i, sample, now)
    case Recover(i, now) => Recovered(s, i, now)
  }

  ghost predicate Run(cfg: Config, t: seq<State>, ss: seq<Step>) {
    && |t| == |ss| + 1
    && t[0].jobs == [] && t[0].health == map[]
    && forall i | 0 <= i < |ss| :: Legal(cfg, t[i], ss[i]) && t[i + 1] == Next(cfg, t[i], ss[i])
  }

  lemma EmptyOk(cfg: Config, s: State)
    requires s.jobs == [] && s.health == map[]
    ensures Inv(cfg, s)
  {
  }

  lemma NextKeeps(cfg: Config, s: State, step: Step)
    requires Inv(cfg, s) && Legal(cfg, s, step)
    ensures Inv(cfg, Next(cfg, s, step))
  {
    match step {
      case Start(p, units, until, now) => StartKeeps(cfg, s, p, units, until, now);
      case Finish(i, sample, now) => FinishKeeps(cfg, s, i, sample, now);
      case Recover(i, now) => RecoverKeeps(cfg, s, i, now);
    }
  }

  lemma {:induction false} RunKeeps(cfg: Config, t: seq<State>, ss: seq<Step>, n: nat)
    requires Run(cfg, t, ss) && n < |t|
    ensures Inv(cfg, t[n])
  {
    if n == 0 {
      EmptyOk(cfg, t[0]);
    } else {
      RunKeeps(cfg, t, ss, n - 1);
      NextKeeps(cfg, t[n - 1], ss[n - 1]);
    }
  }

  /** At no instant do more attempts with a live lease use a provider than it allows. */
  lemma ConnectionsBounded(cfg: Config, t: seq<State>, ss: seq<Step>, n: nat, p: Pid, at: Time)
    requires Run(cfg, t, ss) && n < |t| && p in cfg.providers && t[n].clock <= at
    ensures Active(t[n].jobs, p, at) <= cfg.providers[p].maxConnections
  {
    RunKeeps(cfg, t, ss, n);
    ActiveShrinks(t[n].jobs, p, t[n].clock, at);
  }

  /** In every hour and every day, wherever it starts, the recipient attempts reserved on a
      provider stay within its limit. */
  lemma ProviderQuotaHolds(cfg: Config, t: seq<State>, ss: seq<Step>, n: nat, p: Pid, at: Time)
    requires Run(cfg, t, ss) && n < |t| && p in cfg.providers
    ensures cfg.providers[p].hourly.Some? ==> W.Within(Ledger(t[n].jobs), Only(p), at - HOUR, at) <= cfg.providers[p].hourly.value
    ensures cfg.providers[p].daily.Some? ==> W.Within(Ledger(t[n].jobs), Only(p), at - WINDOW, at) <= cfg.providers[p].daily.value
  {
    RunKeeps(cfg, t, ss, n);
    assert ProviderQuotaOk(cfg, t[n], p);
    if cfg.providers[p].hourly.Some? { W.NoWindowOverdrawn(Ledger(t[n].jobs), Only(p), HOUR, cfg.providers[p].hourly.value, at); }
    if cfg.providers[p].daily.Some? { W.NoWindowOverdrawn(Ledger(t[n].jobs), Only(p), WINDOW, cfg.providers[p].daily.value, at); }
  }

  /** The same for the sum over all providers that share an account. */
  lemma GroupQuotaHolds(cfg: Config, t: seq<State>, ss: seq<Step>, n: nat, g: Gid, at: Time)
    requires Run(cfg, t, ss) && n < |t| && g in cfg.groups
    ensures cfg.groups[g].hourly > 0 ==> W.Within(Ledger(t[n].jobs), InGroup(cfg, g), at - HOUR, at) <= cfg.groups[g].hourly
    ensures cfg.groups[g].daily > 0 ==> W.Within(Ledger(t[n].jobs), InGroup(cfg, g), at - WINDOW, at) <= cfg.groups[g].daily
  {
    RunKeeps(cfg, t, ss, n);
    assert GroupQuotaOk(cfg, t[n], g);
    if cfg.groups[g].hourly > 0 { W.NoWindowOverdrawn(Ledger(t[n].jobs), InGroup(cfg, g), HOUR, cfg.groups[g].hourly, at); }
    if cfg.groups[g].daily > 0 { W.NoWindowOverdrawn(Ledger(t[n].jobs), InGroup(cfg, g), WINDOW, cfg.groups[g].daily, at); }
  }

  /** Since the circuit opened: no start while open, and one, still running, while half open. */
  lemma BreakerHolds(cfg: Config, t: seq<State>, ss: seq<Step>, n: nat, p: Pid, i: nat)
    requires Run(cfg, t, ss) && n < |t| && p in t[n].health && !t[n].health[p].circuit.Closed?
    requires t[n].health[p].circuit.since <= i < |t[n].jobs| && t[n].jobs[i].provider == p
    ensures t[n].health[p].circuit.HalfOpen? && i == t[n].health[p].circuit.probe && t[n].jobs[i].open
  {
    RunKeeps(cfg, t, ss, n);
    assert CircuitOk(cfg, t[n], p, t[n].health[p].circuit);
  }

  /** An open circuit is left only by a start after its cooldown, a half-open one only by
      its probe: other outcomes, however late, move neither. */
  lemma OnlyTheProbeDecides(cfg: Config, s: State, step: Step, p: Pid)
    requires Legal(cfg, s, step) && p in s.health
    ensures p in Next(cfg, s, step).health
    ensures var c, c' := s.health[p].circuit, Next(cfg, s, step).health[p].circuit;
      && (c.Open? && c' != c ==> step.Start? && step.p == p && c.until <= step.now && c' == HalfOpen(|s.jobs|, c.since))
      && (c.HalfOpen? && c' != c ==> !step.Start? && step.i == c.probe)
      && (c.HalfOpen? && c'.Closed? ==> step == Finish(c.probe, Success, step.now))
  {
  }

  /** A closed circuit opens exactly when the finished attempts of the last ten minutes are
      at least five and at least half of them failures; then nothing is admitted on the
      provider until the cooldown is over. */
  lemma FailuresOpenTheCircuit(cfg: Config, s: State, i: nat, sample: Sample, now: Time, at: Time)
    requires i < |s.jobs| && Guarded(cfg, s.jobs[i].provider) && HealthOf(s, s.jobs[i].provider).circuit.Closed?
    requires now <= at < now + COOLDOWN
    ensures var p := s.jobs[i].provider; var s' := Finished(cfg, s, i, sample, now); var since := HealthOf(s, p).samplesSince;
      && (s'.health[p].circuit.Open? <==>
            |Samples(s'.jobs, p, since, now)| >= 5 && |Failures(s'.jobs, p, since, now)| * 2 >= |Samples(s'.jobs, p, since, now)|)
      && (s'.health[p].circuit.Open? ==> Allowance(cfg, s', p, at) == 0)
  {
  }

  /** What the probe brings back decides: a success closes the circuit at once and starts a new
      sampling epoch, anything else opens it for another minute. */
  lemma ProbeDecides(cfg: Config, t: seq<State>, ss: seq<Step>, n: nat, p: Pid, sample: Sample, now: Time)
    requires Run(cfg, t, ss) && n < |t| && t[n].clock <= now && p in t[n].health && t[n].health[p].circuit.HalfOpen?
    ensures var step := Finish(t[n].health[p].circuit.probe, sample, now);
      && Legal(cfg, t[n], step)
      && var s' := Next(cfg, t[n], step);
      && p in s'.health
      && (sample == Success ==> s'.health[p] == Health(Closed, Some(now)) && CircuitAdmits(cfg, s', p, now))
      && (sample != Success ==> s'.health[p].circuit == Open(now + 60 * 1_000_000_000, |t[n].jobs|))
  {
    RunKeeps(cfg, t, ss, n);
    assert CircuitOk(cfg, t[n], p, t[n].health[p].circuit);
  }

  /** The samples a decision looks at: decided attempts of the provider in the last ten
      minutes, started since the circuit last closed. */
  lemma SamplesAre(jobs: seq<Job>, p: Pid, since: Option<Time>, now: Time, i: nat)
    ensures i in Samples(jobs, p, since, now) <==>
      && i < |jobs| && jobs[i].provider == p && jobs[i].sample.Some? && jobs[i].sample.value != Ignored
      && jobs[i].observedAt + 600 * 1_000_000_000 > now && (since.Some? ==> since.value <= jobs[i].startedAt)
    ensures i in Failures(jobs, p, since, now) <==> i in Samples(jobs, p, since, now) && jobs[i].sample == Some(Failure)
  {
  }

  /** With the health check off, for everybody or for the provider, its circuit neither refuses
      work nor opens on failures; with it on, it refuses exactly while open or probing. */
  lemma HealthSwitch(cfg: Config, s: State, p: Pid, i: nat, sample: Sample, now: Time)
    requires p in cfg.providers && p in s.health
    ensures !(cfg.health && cfg.providers[p].health) ==> CircuitAdmits(cfg, s, p, now)
    ensures !(cfg.health && cfg.providers[p].health) && i < |s.jobs| && s.jobs[i].provider == p && s.health[p].circuit.Closed? ==>
      p in Finished(cfg, s, i, sample, now).health && Finished(cfg, s, i, sample, now).health[p].circuit.Closed?
    ensures cfg.health && cfg.providers[p].health ==>
      (CircuitAdmits(cfg, s, p, now) <==> !s.health[p].circuit.HalfOpen? && (s.health[p].circuit.Open? ==> s.health[p].circuit.until <= now))
  {
  }

  /** A half-open circuit is never stuck: once its probe's lease has lapsed, recovery opens
      the circuit again. */
  lemma ProbeIsRecoverable(cfg: Config, t: seq<State>, ss: seq<Step>, n: nat, p: Pid, now: Time)
    requires Run(cfg, t, ss) && n < |t| && p in t[n].health && t[n].health[p].circuit.HalfOpen?
    requires var probe := t[n].health[p].circuit.probe; probe < |t[n].jobs| ==> t[n].jobs[probe].until <= now
    requires t[n].clock <= now
    ensures var step := Recover(t[n].health[p].circuit.probe, now);
      Legal(cfg, t[n], step) && Next(cfg, t[n], step).health[p].circuit == Open(now + COOLDOWN, |t[n].jobs|)
  {
    RunKeeps(cfg, t, ss, n);
    assert CircuitOk(cfg, t[n], p, t[n].health[p].circuit);
  }

  /** While the circuit stays closed the sampling epoch stands still. */
  lemma {:induction false} EpochStands(cfg: Config, t: seq<State>, ss: seq<Step>, a: nat, b: nat, p: Pid)
    requires Run(cfg, t, ss) && a <= b < |t|
    requires forall k | a <= k <= b :: p in t[k].health && t[k].health[p].circuit.Closed?
    ensures t[b].health[p].samplesSince == t[a].health[p].samplesSince
    decreases b
  {
    if a < b {
      EpochStands(cfg, t, ss, a, b - 1, p);
      assert t[b] == Next(cfg, t[b - 1], ss[b - 1]);
    }
  }

  /** After a probe closed the circuit it opens again only on new evidence: at least five
      finished attempts, all started after the closing, at least half of them failures. */
  lemma ReopeningNeedsNewEvidence(cfg: Config, t: seq<State>, ss: seq<Step>, a: nat, b: nat, p: Pid)
    requires Run(cfg, t, ss) && a < b < |ss|
    requires p in t[a].health && !t[a].health[p].circuit.Closed?
    requires forall k | a < k <= b :: p in t[k].health && t[k].health[p].circuit.Closed?
    requires p in t[b + 1].health && t[b + 1].health[p].circuit.Open?
    ensures exists samples: set<nat> ::
      && |samples| >= 5
      && (forall i | i in samples :: i < |t[b + 1].jobs| && t[b + 1].jobs[i].provider == p && t[b + 1].jobs[i].sample in {Some(Success), Some(Failure)}
                                     && t[b + 1].jobs[i].startedAt >= ss[a].now)
      && |set i | i in samples && i < |t[b + 1].jobs| && t[b + 1].jobs[i].sample == Some(Failure)| * 2 >= |samples|
  {
    assert t[a + 1] == Next(cfg, t[a], ss[a]) && t[b + 1] == Next(cfg, t[b], ss[b]);
    EpochStands(cfg, t, ss, a + 1, b, p);
    var since, jobs, now := t[b].health[p].samplesSince, t[b + 1].jobs, ss[b].now;
    assert since == Some(ss[a].now);
    var samples := Samples(jobs, p, since, now);
    assert Failures(jobs, p, since, now) == set i | i in samples && i < |jobs| && jobs[i].sample == Some(Failure);
  }
}
