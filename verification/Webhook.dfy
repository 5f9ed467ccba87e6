/** Webhook notifications: one outbox row per event, claimed under a lease, finished under a
    token, retired when exhausted and requeued by an operator.  Each row carries its
    append-only delivery log.  Times are in seconds. */
module Webhook {
  import opened Options

  const MAX_ATTEMPTS := 8
  const LEASE := 60
  const LIFETIME := 24 * 60 * 60
  const RETIRE_BATCH := 100

  datatype State = Pending | InFlight(token: nat, until: int) | Delivered | Dead

  datatype Outcome = Started | Retry | Acknowledged | Exhausted | ReplayRequested

  datatype Entry = Entry(generation: nat, attempt: nat, outcome: Outcome, at: int)

  /** What a worker carries from its claim to its finish. */
  datatype Claim = Claim(token: nat, attempt: nat, generation: nat)

  datatype Row = Row(
    endpoint: nat, state: State, attempts: nat, generation: nat, nextAt: int, deadline: int,
    log: seq<Entry>,
    claims: seq<Claim>)  // every claim ever handed out for this row

  function NewRow(endpoint: nat, now: int): Row {
    Row(endpoint, Pending, 0, 0, now, now + LIFETIME, [], [])
  }

  // ---- Transitions of one row ----

  predicate Unowned(r: Row, now: int) { r.state.Pending? || (r.state.InFlight? && r.state.until <= now) }

  predicate Retirable(r: Row, now: int) { Unowned(r, now) && (r.deadline <= now || r.attempts >= MAX_ATTEMPTS) }

  function Retired(r: Row, now: int): Row {
    r.(state := Dead, log := r.log + [Entry(r.generation, r.attempts, Exhausted, now)])
  }

  predicate Claimable(r: Row, now: int) {
    && r.attempts < MAX_ATTEMPTS && r.deadline > now
    && ((r.state.Pending? && r.nextAt <= now) || (r.state.InFlight? && r.state.until <= now))
  }

  function Claimed(r: Row, token: nat, now: int): Row {
    r.(state := InFlight(token, now + LEASE), attempts := r.attempts + 1,
       log := r.log + [Entry(r.generation, r.attempts + 1, Started, now)],
       claims := r.claims + [Claim(token, r.attempts + 1, r.generation)])
  }

  predicate Owned(r: Row, c: Claim, now: int) {
    r.state.InFlight? && r.state.token == c.token && r.state.until > now
  }

  function Pow2(n: nat): nat { if n == 0 then 1 else 2 * Pow2(n - 1) }

  /** One minute doubled per attempt, at most 64, plus up to fifteen seconds. */
  function Backoff(attempt: nat, jitter: nat): int {
    60 * Pow2(if attempt == 0 then 0 else if attempt - 1 < 6 then attempt - 1 else 6) + jitter
  }

  function Finished(r: Row, c: Claim, success: bool, jitter: nat, now: int): Row {
    var (state, outcome) :=
      if success then (Delivered, Acknowledged)
      else if c.attempt >= MAX_ATTEMPTS then (Dead, Exhausted)
      else (Pending, Retry);
    r.(state := state, nextAt := now + Backoff(c.attempt, jitter),
       log := r.log + [Entry(c.generation, c.attempt, outcome, now)])
  }

  predicate Replayable(r: Row, generation: nat) { r.state.Dead? && r.generation == generation }

  function Replayed(r: Row, now: int): Row {
    r.(state := Pending, attempts := 0, generation := r.generation + 1, nextAt := now, deadline := now + LIFETIME,
       log := r.log + [Entry(r.generation + 1, 0, ReplayRequested, now)])
  }

  // ---- Runs of one row ----

  datatype Step =
    | Retire(now: int)
    | TryClaim(token: nat, now: int)
    | Finish(claim: Claim, success: bool, jitter: nat, now: int)
    | Replay(seen: nat, now: int)

  /** The environment: the clock does not run backwards, tokens are fresh, and a worker
      finishes only a claim it was once given, at any later time and any number of times. */
  predicate Legal(r: Row, step: Step) {
    && (r.log != [] ==> r.log[|r.log| - 1].at <= step.now)
    && (step.TryClaim? ==> forall i | 0 <= i < |r.claims| :: r.claims[i].token != step.token)
    && (step.Finish? ==> step.claim in r.claims)
  }

  function Next(r: Row, step: Step): Row {
    match step
    case Retire(now) => if Retirable(r, now) then Retired(r, now) else r
    case TryClaim(token, now) => if Claimable(r, now) then Claimed(r, token, now) else r
    case Finish(c, success, jitter, now) => if Owned(r, c, now) then Finished(r, c, success, jitter, now) else r
    case Replay(seen, now) => if Replayable(r, seen) then Replayed(r, now) else r
  }

  ghost predicate IsRun(t: seq<Row>) {
    && t != []
    && (exists endpoint, now :: t[0] == NewRow(endpoint, now))
    && forall i | 0 <= i < |t| - 1 :: Follows(t[i], t[i + 1])
  }

  ghost predicate Follows(r: Row, r': Row) { exists step | Legal(r, step) :: r' == Next(r, step) }

  // ---- The log explains the row ----

  /** Which entry may follow which. */
  predicate MayFollow(p: Entry, e: Entry) {
    match e.outcome
    case ReplayRequested => p.outcome == Exhausted && e.generation == p.generation + 1 && e.attempt == 0
    case Started =>
      && p.outcome in {Started, Retry, ReplayRequested}
      && e.generation == p.generation && e.attempt == p.attempt + 1 <= MAX_ATTEMPTS
    case Retry => p.outcome == Started && e.generation == p.generation && e.attempt == p.attempt < MAX_ATTEMPTS
    case Acknowledged => p.outcome == Started && e.generation == p.generation && e.attempt == p.attempt
    case Exhausted =>
      p.outcome in {Started, Retry, ReplayRequested} && e.generation == p.generation && e.attempt == p.attempt
  }

  /** The entry before the first: the row was queued with generation 0. */
  const QUEUED := Entry(0, 0, ReplayRequested, 0)

  function LastEntry(log: seq<Entry>): Entry { if log == [] then QUEUED else log[|log| - 1] }

  predicate Grammar(log: seq<Entry>) {
    log != [] ==> Grammar(log[..|log| - 1]) && MayFollow(LastEntry(log[..|log| - 1]), log[|log| - 1])
  }

  predicate Explains(log: seq<Entry>, r: Row) {
    var last := LastEntry(log);
    && r.generation == last.generation && r.attempts == last.attempt
    && (r.state.InFlight? <==> last.outcome == Started)
    && (r.state.Delivered? <==> last.outcome == Acknowledged)
    && (r.state.Dead? <==> last.outcome == Exhausted)
  }

  /** The token on the row is that of the newest claim, and no two claims share one. */
  predicate Fenced(r: Row) {
    && (forall i, j | 0 <= i < j < |r.claims| :: r.claims[i].token != r.claims[j].token)
    && (r.state.InFlight? ==> r.claims != [] && r.claims[|r.claims| - 1] == Claim(r.state.token, r.attempts, r.generation))
  }

  /** Start times of one generation, in order. */
  function StartTimes(log: seq<Entry>, g: nat): seq<int> {
    if log == [] then []
    else
      var last := log[|log| - 1];
      StartTimes(log[..|log| - 1], g) + (if last.outcome == Started && last.generation == g then [last.at] else [])
  }

  predicate Spaced(ts: seq<int>) { forall i | 0 <= i < |ts| - 1 :: ts[i] + LEASE <= ts[i + 1] }

  /** The latest start of a generation. */
  function LastStart(log: seq<Entry>, g: nat): Option<int> {
    if log == [] then None
    else
      var last := log[|log| - 1];
      if last.outcome == Started && last.generation == g then Some(last.at) else LastStart(log[..|log| - 1], g)
  }

  /** Every start keeps its distance from the one before it in its generation. */
  predicate SpacedLog(log: seq<Entry>) {
    log != [] ==>
      var init, last := log[..|log| - 1], log[|log| - 1];
      && SpacedLog(init)
      && (last.outcome == Started && LastStart(init, last.generation).Some? ==> LastStart(init, last.generation).value + LEASE <= last.at)
  }

  predicate Paced(r: Row) {
    var t := LastStart(r.log, r.generation);
    t.Some? ==>
      && t.value <= LastEntry(r.log).at
      && (r.state.InFlight? ==> t.value + LEASE <= r.state.until)
      && (r.state.Pending? ==> t.value + LEASE <= r.nextAt)
  }

  ghost predicate Inv(r: Row) {
    && Grammar(r.log) && Explains(r.log, r) && Fenced(r)
    && Paced(r) && SpacedLog(r.log)
  }

  lemma Pow2Positive(n: nat)
    ensures Pow2(n) >= 1
  {
  }

  /** Starts of a generation the log has not reached. */
  lemma {:induction false} NoStartsAhead(log: seq<Entry>, g: nat)
    requires Grammar(log) && g > LastEntry(log).generation
    ensures LastStart(log, g) == None
  {
    if log != [] { NoStartsAhead(log[..|log| - 1], g); }
  }

  lemma GrammarAppend(log: seq<Entry>, e: Entry)
    requires Grammar(log) && MayFollow(LastEntry(log), e)
    ensures Grammar(log + [e]) && LastEntry(log + [e]) == e
  {
    assert (log + [e])[..|log|] == log;
  }

  lemma SpacedAppend(log: seq<Entry>, e: Entry)
    requires SpacedLog(log)
    requires e.outcome == Started && LastStart(log, e.generation).Some? ==> LastStart(log, e.generation).value + LEASE <= e.at
    ensures SpacedLog(log + [e])
  {
    assert (log + [e])[..|log|] == log;
  }

  lemma LastStartAppend(log: seq<Entry>, e: Entry, g: nat)
    ensures LastStart(log + [e], g) == if e.outcome == Started && e.generation == g then Some(e.at) else LastStart(log, g)
  {
    assert (log + [e])[..|log|] == log;
  }

  /** What the checks amount to: starts of one generation are a lease apart. */
  lemma {:induction false} StartsAreSpaced(log: seq<Entry>, g: nat)
    requires SpacedLog(log)
    ensures Spaced(StartTimes(log, g))
    ensures LastStart(log, g) == if StartTimes(log, g) == [] then None else Some(StartTimes(log, g)[|StartTimes(log, g)| - 1])
  {
    if log != [] { StartsAreSpaced(log[..|log| - 1], g); }
  }

  lemma RetireKeeps(r: Row, now: int)
    requires Inv(r) && Retirable(r, now) && Legal(r, Retire(now))
    ensures Inv(Retired(r, now))
  {
    var e := Entry(r.generation, r.attempts, Exhausted, now);
    GrammarAppend(r.log, e);
    SpacedAppend(r.log, e);
    LastStartAppend(r.log, e, r.generation);
  }

  lemma ClaimFence(r: Row, token: nat, now: int)
    requires Fenced(r) && forall i | 0 <= i < |r.claims| :: r.claims[i].token != token
    ensures Fenced(Claimed(r, token, now))
  {
  }

  lemma ClaimLog(r: Row, token: nat, now: int)
    requires Grammar(r.log) && Explains(r.log, r) && Claimable(r, now)
    ensures Grammar(Claimed(r, token, now).log) && Explains(Claimed(r, token, now).log, Claimed(r, token, now))
  {
    GrammarAppend(r.log, Entry(r.generation, r.attempts + 1, Started, now));
  }

  lemma ClaimPace(r: Row, token: nat, now: int)
    requires Paced(r) && SpacedLog(r.log) && Claimable(r, now)
    ensures Paced(Claimed(r, token, now)) && SpacedLog(Claimed(r, token, now).log)
  {
    var e := Entry(r.generation, r.attempts + 1, Started, now);
    SpacedAppend(r.log, e);
    LastStartAppend(r.log, e, r.generation);
  }

  lemma ClaimKeeps(r: Row, token: nat, now: int)
    requires Inv(r) && Claimable(r, now) && Legal(r, TryClaim(token, now))
    ensures Inv(Claimed(r, token, now))
  {
    ClaimFence(r, token, now);
    ClaimLog(r, token, now);
    ClaimPace(r, token, now);
  }

  lemma OwnerIsNewest(r: Row, c: Claim, now: int)
    requires Fenced(r) && c in r.claims && Owned(r, c, now)
    ensures c == r.claims[|r.claims| - 1] && c.attempt == r.attempts && c.generation == r.generation
  {
  }

  lemma FinishKeeps(r: Row, c: Claim, success: bool, jitter: nat, now: int)
    requires Inv(r) && Owned(r, c, now) && Legal(r, Finish(c, success, jitter, now))
    ensures Inv(Finished(r, c, success, jitter, now))
  {
    OwnerIsNewest(r, c, now);
    var r' := Finished(r, c, success, jitter, now);
    var e := r'.log[|r.log|];
    assert r'.log == r.log + [e];
    AttemptBound(r.log);
    GrammarAppend(r.log, e);
    SpacedAppend(r.log, e);
    LastStartAppend(r.log, e, r.generation);
    Pow2Positive(if c.attempt == 0 then 0 else if c.attempt - 1 < 6 then c.attempt - 1 else 6);
  }

  /** The pauses double from one minute to about an hour, whatever the jitter. */
  lemma BackoffDoubles(a: nat, b: nat, i: nat, j: nat)
    requires 1 <= a < b <= 7 && i <= 15 && j <= 15
    ensures 60 <= Backoff(a, i) < Backoff(b, j) <= 64 * 60 + 15
  {
    Pow2Values();
  }

  lemma Pow2Values()
    ensures Pow2(0) == 1 && Pow2(1) == 2 && Pow2(2) == 4 && Pow2(3) == 8 && Pow2(4) == 16 && Pow2(5) == 32 && Pow2(6) == 64
  {
    assert Pow2(2) == 2 * Pow2(1) && Pow2(4) == 2 * Pow2(3) && Pow2(6) == 2 * Pow2(5);
  }

  /** No entry counts past the attempt limit. */
  lemma {:induction false} AttemptBound(log: seq<Entry>)
    requires Grammar(log)
    ensures LastEntry(log).attempt <= MAX_ATTEMPTS
  {
    if log != [] { AttemptBound(log[..|log| - 1]); }
  }

  lemma ReplayKeeps(r: Row, seen: nat, now: int)
    requires Inv(r) && Replayable(r, seen) && Legal(r, Replay(seen, now))
    ensures Inv(Replayed(r, now))
  {
    var e := Entry(r.generation + 1, 0, ReplayRequested, now);
    GrammarAppend(r.log, e);
    SpacedAppend(r.log, e);
    LastStartAppend(r.log, e, r.generation + 1);
    NoStartsAhead(r.log, r.generation + 1);
  }

  lemma NextKeeps(r: Row, step: Step)
    requires Inv(r) && Legal(r, step)
    ensures Inv(Next(r, step))
  {
    match step {
      case Retire(now) => if Retirable(r, now) { RetireKeeps(r, now); }
      case TryClaim(token, now) => if Claimable(r, now) { ClaimKeeps(r, token, now); }
      case Finish(c, success, jitter, now) => if Owned(r, c, now) { FinishKeeps(r, c, success, jitter, now); }
      case Replay(seen, now) => if Replayable(r, seen) { ReplayKeeps(r, seen, now); }
    }
  }

  lemma {:induction false} RunKeeps(t: seq<Row>, k: nat)
    requires IsRun(t) && k < |t|
    ensures Inv(t[k])
  {
    if k > 0 {
      RunKeeps(t, k - 1);
      assert Follows(t[k - 1], t[k - 1 + 1]);
      var step :| Legal(t[k - 1], step) && t[k] == Next(t[k - 1], step);
      NextKeeps(t[k - 1], step);
    }
  }

  // ---- What the log can contain ----

  function Count(log: seq<Entry>, g: nat, outcome: Outcome): nat {
    if log == [] then 0
    else
      var last := log[|log| - 1];
      Count(log[..|log| - 1], g, outcome) + (if last.generation == g && last.outcome == outcome then 1 else 0)
  }

  /** The shape of each generation: past ones ended exhausted, the current one has started
      as often as its attempt counter says, later ones are untouched. */
  lemma {:induction false} GenerationShape(log: seq<Entry>, g: nat)
    requires Grammar(log)
    ensures Count(log, g, Started) <= MAX_ATTEMPTS
    ensures g == LastEntry(log).generation ==> Count(log, g, Started) == LastEntry(log).attempt
    ensures g > LastEntry(log).generation ==> Count(log, g, Started) == 0
    ensures Count(log, g, Acknowledged) ==
      if g == LastEntry(log).generation && LastEntry(log).outcome == Acknowledged then 1 else 0
    ensures Count(log, g, Exhausted) ==
      if g < LastEntry(log).generation || (g == LastEntry(log).generation && LastEntry(log).outcome == Exhausted) then 1 else 0
  {
    AttemptBound(log);
    if log != [] { GenerationShape(log[..|log| - 1], g); }
  }

  /** Over every run and for every generation: at most eight sends, a minute or more apart,
      at most one terminal entry; acknowledged exactly when the row is delivered. */
  lemma GenerationsAreBounded(t: seq<Row>, k: nat, g: nat)
    requires IsRun(t) && k < |t|
    ensures Count(t[k].log, g, Started) <= MAX_ATTEMPTS
    ensures Count(t[k].log, g, Acknowledged) + Count(t[k].log, g, Exhausted) <= 1
    ensures Count(t[k].log, g, Acknowledged) == 1 <==> t[k].state.Delivered? && t[k].generation == g
    ensures Count(t[k].log, g, Exhausted) == 1 <==> g < t[k].generation || (g == t[k].generation && t[k].state.Dead?)
    ensures Spaced(StartTimes(t[k].log, g))
  {
    RunKeeps(t, k);
    GenerationShape(t[k].log, g);
    StartsAreSpaced(t[k].log, g);
  }

  /** What the newest claimant's report does while its lease lives: a success delivers for
      good; a failure waits for the pause of its attempt, or ends the generation at the
      eighth. */
  lemma LiveClaimSettles(t: seq<Row>, k: nat, c: Claim, success: bool, jitter: nat, now: int)
    requires IsRun(t) && k < |t| && t[k].state.InFlight? && t[k].state.until > now
    requires c in t[k].claims && c == t[k].claims[|t[k].claims| - 1]
    ensures var r, r' := t[k], Next(t[k], Finish(c, success, jitter, now));
      && (success ==> r'.state == Delivered && LastEntry(r'.log).outcome == Acknowledged)
      && (!success && r.attempts == 8 ==> r'.state == Dead)
      && (!success && r.attempts < 8 ==> r'.state == Pending && Pause(r.attempts) <= r'.nextAt - now <= Pause(r.attempts) + jitter)
      && r' == r.(state := r'.state, nextAt := r'.nextAt, log := r.log + [Entry(r.generation, r.attempts, LastEntry(r'.log).outcome, now)])
  {
    RunKeeps(t, k);
    AttemptBound(t[k].log);
    Pow2Values();
    StartedIsCounted(t[k].log);
  }

  lemma StartedIsCounted(log: seq<Entry>)
    requires Grammar(log) && LastEntry(log).outcome == Started
    ensures 1 <= LastEntry(log).attempt
  {
  }

  /** Pauses after the first to the seventh attempt, in minutes. */
  const PAUSES: seq<nat> := [1, 2, 4, 8, 16, 32, 64]

  function Pause(attempt: nat): int { if 1 <= attempt <= 7 then 60 * PAUSES[attempt - 1] else 0 }

  /** A replay gives the dead row a whole new budget, at once. */
  lemma ReplayRenews(r: Row, now: int)
    requires r.state.Dead?
    ensures var r' := Next(r, Replay(r.generation, now));
      r'.state == Pending && r'.attempts == 0 && r'.generation == r.generation + 1 && r'.deadline == now + 86400 && Claimable(r', now)
  {
  }

  /** No row is stuck: one that nobody works on can be claimed when its pause is over, or
      retired when its attempts or its time are used up, and never both. */
  lemma NothingIsStuck(t: seq<Row>, k: nat, now: int)
    requires IsRun(t) && k < |t| && (t[k].state.Pending? || (t[k].state.InFlight? && t[k].state.until <= now))
    ensures Retirable(t[k], now) <==> t[k].attempts == 8 || t[k].deadline <= now
    ensures Claimable(t[k], now) <==> !Retirable(t[k], now) && (t[k].state.Pending? ==> t[k].nextAt <= now)
  {
    RunKeeps(t, k);
    AttemptBound(t[k].log);
  }

  // ---- Pauses and deadlines over runs ----

  /** The send at position i kept the pause of the failure before it. */
  predicate KeptPause(log: seq<Entry>, i: nat)
    requires i < |log|
  {
    0 < i && log[i].outcome == Started && log[i - 1].outcome == Retry ==> log[i - 1].at + Pause(log[i - 1].attempt) <= log[i].at
  }

  /** What the current generation's entries have to do with the row's deadline. */
  predicate InTime(r: Row, i: nat)
    requires i < |r.log|
  {
    r.log[i].generation == r.generation ==>
      && (r.log[i].outcome == Started ==> r.log[i].at < r.deadline)
      && (r.log[i].outcome == ReplayRequested ==> r.deadline == r.log[i].at + 24 * 60 * 60)
  }

  ghost predicate Punctual(r: Row) {
    && (forall i | 0 <= i < |r.log| :: KeptPause(r.log, i) && InTime(r, i))
    && (forall i | 0 <= i < |r.log| :: r.log[i].generation <= r.generation)
    && (r.state.Pending? && r.log != [] && LastEntry(r.log).outcome == Retry ==> LastEntry(r.log).at + Pause(LastEntry(r.log).attempt) <= r.nextAt)
  }

  lemma PunctualAppend(r: Row, r': Row, e: Entry)
    requires Punctual(r) && r'.log == r.log + [e] && e.generation == r'.generation && r.generation <= r'.generation
    requires r'.generation == r.generation ==> r'.deadline == r.deadline
    requires e.outcome == Started && r.log != [] && LastEntry(r.log).outcome == Retry ==> LastEntry(r.log).at + Pause(LastEntry(r.log).attempt) <= e.at
    requires e.outcome == Started ==> e.at < r'.deadline
    requires e.outcome == ReplayRequested ==> r'.deadline == e.at + 24 * 60 * 60
    requires r'.state.Pending? && e.outcome == Retry ==> e.at + Pause(e.attempt) <= r'.nextAt
    ensures Punctual(r')
  {
    forall i | 0 <= i < |r'.log| ensures KeptPause(r'.log, i) && InTime(r', i) && r'.log[i].generation <= r'.generation {
      if i < |r.log| { assert KeptPause(r.log, i) && InTime(r, i); }
    }
  }

  lemma NextPunctual(r: Row, step: Step)
    requires Inv(r) && Legal(r, step) && Punctual(r)
    ensures Punctual(Next(r, step))
  {
    var r' := Next(r, step);
    Pow2Values();
    AttemptBound(r.log);
    if r' != r {
      if step.Finish? { OwnerIsNewest(r, step.claim, step.now); }
      PunctualAppend(r, r', r'.log[|r.log|]);
    }
  }

  /** Over every run: a send that follows a failure comes no earlier than 1, 2, 4, up to 64
      minutes after it, by the number of the attempt; every send of a generation comes before
      its deadline, which is 24 hours after the replay that opened it. */
  lemma {:induction false} PausesAreKept(t: seq<Row>, k: nat)
    requires IsRun(t) && k < |t|
    ensures forall i | 0 <= i < |t[k].log| :: KeptPause(t[k].log, i) && InTime(t[k], i)
    ensures Punctual(t[k])
  {
    if k > 0 {
      PausesAreKept(t, k - 1);
      RunKeeps(t, k - 1);
      assert Follows(t[k - 1], t[k - 1 + 1]);
      var step :| Legal(t[k - 1], step) && t[k] == Next(t[k - 1], step);
      NextPunctual(t[k - 1], step);
    }
  }

  /** Delivered is final; Dead is left only by a replay that names the current generation. */
  lemma TerminalStates(r: Row, step: Step)
    requires r.state.Delivered? || r.state.Dead?
    ensures Next(r, step) != r ==> r.state.Dead? && step.Replay? && step.seen == r.generation
  {
  }

  /** Once delivered, delivered with the same log for the rest of the run. */
  lemma {:induction false} DeliveredForever(t: seq<Row>, i: nat, j: nat)
    requires IsRun(t) && i <= j < |t| && t[i].state.Delivered?
    ensures t[j] == t[i]
  {
    if i < j {
      DeliveredForever(t, i, j - 1);
      assert Follows(t[j - 1], t[j - 1 + 1]);
    }
  }

  /** Once dead, dead with the same log until a replay opens a new generation. */
  lemma {:induction false} DeadUntilReplayed(t: seq<Row>, i: nat, j: nat)
    requires IsRun(t) && i <= j < |t| && t[i].state.Dead?
    ensures t[j] == t[i] || t[j].generation > t[i].generation
  {
    if i < j {
      DeadUntilReplayed(t, i, j - 1);
      assert Follows(t[j - 1], t[j - 1 + 1]);
      var step :| Legal(t[j - 1], step) && t[j] == Next(t[j - 1], step);
      if t[j - 1] == t[i] { TerminalStates(t[j - 1], step); }
    }
  }

  /** A claimant that has been overtaken, that has finished once, or whose lease has lapsed
      can change nothing, and recovery may have the row. */
  lemma StaleClaimIsPowerless(t: seq<Row>, k: nat, c: Claim, success: bool, jitter: nat, now: int)
    requires IsRun(t) && k < |t| && c in t[k].claims
    requires c != t[k].claims[|t[k].claims| - 1] || !t[k].state.InFlight? || t[k].state.until <= now
    ensures Next(t[k], Finish(c, success, jitter, now)) == t[k]
    ensures t[k].state.InFlight? && t[k].state.until <= now ==> Claimable(t[k], now) || Retirable(t[k], now)
  {
    RunKeeps(t, k);
    if Owned(t[k], c, now) { OwnerIsNewest(t[k], c, now); }
  }

  // ---- The outbox ----

  /** Retire the first unlocked retirable rows of an endpoint, at most `budget` of them. */
  function RetireFirst(rows: seq<Row>, endpoint: nat, locked: set<nat>, now: int, k: nat, budget: nat): seq<Row>
    requires k <= |rows|
    decreases |rows| - k
  {
    if k == |rows| || budget == 0 then rows
    else if Retires(rows[k], k, endpoint, locked, now) then
      RetireFirst(rows[k := Retired(rows[k], now)], endpoint, locked, now, k + 1, budget - 1)
    else RetireFirst(rows, endpoint, locked, now, k + 1, budget)
  }

  predicate Retires(r: Row, k: nat, endpoint: nat, locked: set<nat>, now: int) {
    r.endpoint == endpoint && k !in locked && Retirable(r, now)
  }

  predicate Candidate(rows: seq<Row>, k: nat, endpoint: nat, locked: set<nat>, now: int) {
    k < |rows| && rows[k].endpoint == endpoint && k !in locked && Claimable(rows[k], now)
  }

  /** Every row the batch touched took one legal retirement; nothing else moved. */
  lemma {:induction false} RetireFirstRows(rows: seq<Row>, endpoint: nat, locked: set<nat>, now: int, k: nat, budget: nat)
    requires k <= |rows|
    ensures var out := RetireFirst(rows, endpoint, locked, now, k, budget);
      && |out| == |rows|
      && forall i | 0 <= i < |rows| :: out[i] == rows[i] || (i >= k && Retires(rows[i], i, endpoint, locked, now) && out[i] == Retired(rows[i], now))
    decreases |rows| - k
  {
    if k < |rows| && budget > 0 {
      if Retires(rows[k], k, endpoint, locked, now) {
        RetireFirstRows(rows[k := Retired(rows[k], now)], endpoint, locked, now, k + 1, budget - 1);
      } else {
        RetireFirstRows(rows, endpoint, locked, now, k + 1, budget);
      }
    }
  }

  class Outbox {
    var rows: seq<Row>

    ghost predicate Valid() reads this { forall i | 0 <= i < |rows| :: Inv(rows[i]) }

    constructor ()
      ensures Valid() && rows == []
    {
      rows := [];
    }

    /** A captured event becomes a pending row. */
    method Capture(endpoint: nat, now: int) returns (sequence: nat)
      requires Valid()
      modifies this
      ensures Valid() && sequence == |old(rows)| && rows == old(rows) + [NewRow(endpoint, now)]
    {
      sequence := |rows|;
      rows := rows + [NewRow(endpoint, now)];
    }

    /** Retire what is exhausted, then claim the row due longest. */
    method ClaimNext(endpoint: nat, eligible: bool, token: nat, locked: set<nat>, now: int) returns (sequence: int, c: Claim)
      requires Valid() && forall i | 0 <= i < |rows| :: Legal(rows[i], TryClaim(token, now))
      modifies this
      ensures Valid()
      ensures !eligible ==> rows == old(rows) && sequence == -1
      ensures var swept := RetireFirst(old(rows), endpoint, locked, now, 0, RETIRE_BATCH);
        eligible ==>
          if sequence < 0 then rows == swept && forall i: nat :: !Candidate(swept, i, endpoint, locked, now)
          else
            && Candidate(swept, sequence, endpoint, locked, now)
            && rows == swept[sequence := Claimed(swept[sequence], token, now)]
            && c == rows[sequence].claims[|swept[sequence].claims|]
            && forall i: nat | Candidate(swept, i, endpoint, locked, now) ::
                 swept[sequence].nextAt < swept[i].nextAt || (swept[sequence].nextAt == swept[i].nextAt && sequence <= i)
    {
      sequence, c := -1, Claim(0, 0, 0);
      if !eligible { return; }
      Sweep(endpoint, locked, token, now);
      ghost var swept := rows;
      var i := 0;
      while i < |rows|
        invariant 0 <= i <= |rows| && -1 <= sequence < i && rows == swept
        invariant sequence < 0 ==> forall j: nat | j < i :: !Candidate(rows, j, endpoint, locked, now)
        invariant sequence >= 0 ==> Candidate(rows, sequence, endpoint, locked, now)
        invariant sequence >= 0 ==> forall j: nat | j < i && Candidate(rows, j, endpoint, locked, now) ::
          rows[sequence].nextAt < rows[j].nextAt || (rows[sequence].nextAt == rows[j].nextAt && sequence <= j)
      {
        if Candidate(rows, i, endpoint, locked, now) && (sequence < 0 || rows[i].nextAt < rows[sequence].nextAt) {
          sequence := i;
        }
        i := i + 1;
      }
      if sequence >= 0 {
        ClaimKeeps(rows[sequence], token, now);
        rows := rows[sequence := Claimed(rows[sequence], token, now)];
        c := rows[sequence].claims[|rows[sequence].claims| - 1];
      }
    }

    /** The bounded retirement that opens every claim. */
    method Sweep(endpoint: nat, locked: set<nat>, token: nat, now: int)
      requires Valid() && forall i | 0 <= i < |rows| :: Legal(rows[i], TryClaim(token, now))
      modifies this
      ensures Valid() && rows == RetireFirst(old(rows), endpoint, locked, now, 0, RETIRE_BATCH)
      ensures forall i | 0 <= i < |rows| :: Legal(rows[i], TryClaim(token, now))
    {
      var k, left := 0, RETIRE_BATCH;
      while k < |rows|
        invariant 0 <= k <= |rows| && left >= 0 && Valid()
        invariant forall i | 0 <= i < |rows| :: Legal(rows[i], TryClaim(token, now))
        invariant RetireFirst(rows, endpoint, locked, now, k, left) == RetireFirst(old(rows), endpoint, locked, now, 0, RETIRE_BATCH)
      {
        if left == 0 { return; }
        if Retires(rows[k], k, endpoint, locked, now) {
          assert Legal(rows[k], TryClaim(token, now));
          assert Legal(rows[k], Retire(now));
          RetireKeeps(rows[k], now);
          rows := rows[k := Retired(rows[k], now)];
          left := left - 1;
        }
        k := k + 1;
      }
    }

    /** Record the result of one notification; refused unless the claim is still owned. */
    method Finish(sequence: nat, c: Claim, success: bool, jitter: nat, now: int) returns (ok: bool)
      requires Valid() && sequence < |rows| && Legal(rows[sequence], Step.Finish(c, success, jitter, now))
      modifies this
      ensures Valid()
      ensures ok == Owned(old(rows[sequence]), c, now)
      ensures rows == old(rows)[sequence := Next(old(rows[sequence]), Step.Finish(c, success, jitter, now))]
    {
      ok := Owned(rows[sequence], c, now);
      if ok {
        FinishKeeps(rows[sequence], c, success, jitter, now);
        rows := rows[sequence := Finished(rows[sequence], c, success, jitter, now)];
      }
    }

    /** Requeue a dead notification, provided nobody else did since the operator looked. */
    method Replay(sequence: int, seen: int, now: int) returns (ok: bool)
      requires Valid()
      requires 0 <= sequence < |rows| && seen >= 0 ==> Legal(rows[sequence], Step.Replay(seen, now))
      modifies this
      ensures Valid()
      ensures ok == (0 <= sequence < |old(rows)| && seen >= 0 && Replayable(old(rows)[sequence], seen))
      ensures rows == if ok then old(rows)[sequence := Replayed(old(rows)[sequence], now)] else old(rows)
    {
      if sequence < 0 || sequence >= |rows| || seen < 0 { return false; }
      ok := Replayable(rows[sequence], seen);
      if ok {
        ReplayKeeps(rows[sequence], seen, now);
        rows := rows[sequence := Replayed(rows[sequence], now)];
      }
    }
  }
}
