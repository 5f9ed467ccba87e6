/** The working-set limiter: callers reserve memory and spool space, wait in arrival order,
    and are woken by closing a channel that is replaced at every change.  A channel is
    modelled by its number; channel `epoch` is open and every earlier one is closed. */
module Limiter {

  datatype Request = Request(id: nat, memory: int, spool: int)

  /** A reservation handed out, with the once-flag of its release function. */
  datatype Grant = Grant(request: Request, released: bool)

  datatype State = State(
    memoryLimit: int, spoolLimit: int,
    memory: int, spool: int, peakMemory: int, peakSpool: int,
    waiting: int, queue: seq<Request>, epoch: nat, nextId: nat,
    grants: seq<Grant>,       // every grant so far, in the order they were made
    blocked: map<nat, nat>)   // sleeping waiter -> the channel it sleeps on

  /** What a caller sees of one turn of the waiting loop. */
  datatype Turn = Granted | Cancelled | Asleep

  function Initial(memoryLimit: int, spoolLimit: int): State {
    State(memoryLimit, spoolLimit, 0, 0, 0, 0, 0, [], 0, 0, [], map[])
  }

  predicate Admissible(s: State, memory: int, spool: int) {
    0 <= memory <= s.memoryLimit && 0 <= spool <= s.spoolLimit
  }

  predicate Fits(s: State, r: Request) {
    r.memory <= s.memoryLimit - s.memory && r.spool <= s.spoolLimit - s.spool
  }

  function Max(a: int, b: int): int { if a > b then a else b }

  function Without(q: seq<Request>, id: nat): seq<Request> {
    if q == [] then [] else if q[0].id == id then q[1..] else [q[0]] + Without(q[1..], id)
  }

  predicate Queued(s: State, id: nat) { exists i | 0 <= i < |s.queue| :: s.queue[i].id == id }

  /** A waiter runs again only when its channel was closed or its context ended. */
  predicate Awake(s: State, id: nat) { id in s.blocked ==> s.blocked[id] < s.epoch }

  // ---- Critical sections ----

  function Entered(s: State, memory: int, spool: int): State
    requires Admissible(s, memory, spool)
  {
    s.(waiting := s.waiting + 1, queue := s.queue + [Request(s.nextId, memory, spool)], nextId := s.nextId + 1)
  }

  function Left(s: State, id: nat): State {
    s.(waiting := s.waiting - 1, queue := Without(s.queue, id), epoch := s.epoch + 1, blocked := s.blocked - {id})
  }

  function Taken(s: State): State
    requires s.queue != []
  {
    var r := s.queue[0];
    s.(waiting := s.waiting - 1, queue := s.queue[1..], epoch := s.epoch + 1,
       memory := s.memory + r.memory, spool := s.spool + r.spool,
       peakMemory := Max(s.peakMemory, s.memory + r.memory), peakSpool := Max(s.peakSpool, s.spool + r.spool),
       grants := s.grants + [Grant(r, false)], blocked := s.blocked - {r.id})
  }

  predicate AtHead(s: State, id: nat) { s.queue != [] && s.queue[0].id == id && Fits(s, s.queue[0]) }

  function Polled(s: State, id: nat, cancelled: bool): State {
    if cancelled then Left(s, id)
    else if AtHead(s, id) then Taken(s)
    else s.(blocked := s.blocked[id := s.epoch])
  }

  function TurnOf(s: State, id: nat, cancelled: bool): Turn {
    if cancelled then Cancelled else if AtHead(s, id) then Granted else Asleep
  }

  function Released(s: State, i: nat): State
    requires i < |s.grants|
  {
    if s.grants[i].released then s
    else
      var r := s.grants[i].request;
      s.(memory := s.memory - r.memory, spool := s.spool - r.spool, epoch := s.epoch + 1,
         grants := s.grants[i := s.grants[i].(released := true)])
  }

  /** Find one's own request and splice it out. */
  method Splice(queue: seq<Request>, id: nat) returns (rest: seq<Request>)
    ensures rest == Without(queue, id)
  {
    var i := 0;
    while i < |queue|
      invariant 0 <= i <= |queue|
      invariant Without(queue, id) == queue[..i] + Without(queue[i..], id)
    {
      assert queue[i..][1..] == queue[i + 1..] && queue[..i] + [queue[i]] == queue[..i + 1];
      if queue[i].id == id {
        return queue[..i] + queue[i + 1..];
      }
      i := i + 1;
    }
    assert queue[i..] == [];
    rest := queue[..i];
  }

  class Limiter {
    const memoryLimit: int
    const spoolLimit: int
    var memory: int
    var spool: int
    var peakMemory: int
    var peakSpool: int
    var waiting: int
    var queue: seq<Request>
    var epoch: nat
    var nextId: nat
    var grants: seq<Grant>
    ghost var blocked: map<nat, nat>

    ghost function View(): State
      reads this
    {
      State(memoryLimit, spoolLimit, memory, spool, peakMemory, peakSpool, waiting, queue, epoch, nextId, grants, blocked)
    }

    constructor (memoryLimit: int, spoolLimit: int)
      ensures View() == Initial(memoryLimit, spoolLimit)
    {
      this.memoryLimit, this.spoolLimit := memoryLimit, spoolLimit;
      memory, spool, peakMemory, peakSpool, waiting := 0, 0, 0, 0, 0;
      queue, epoch, nextId, grants, blocked := [], 0, 0, [], map[];
    }

    /** Take the lock, refuse what could never fit, and join the queue. */
    method Enter(memory: int, spool: int) returns (id: nat, ok: bool)
      modifies this
      ensures ok == Admissible(old(View()), memory, spool)
      ensures View() == if ok then Entered(old(View()), memory, spool) else old(View())
      ensures ok ==> Queued(View(), id) && id == old(nextId)
    {
      if memory < 0 || spool < 0 || memory > memoryLimit || spool > spoolLimit { return 0, false; }
      id := nextId;
      waiting := waiting + 1;
      queue := queue + [Request(id, memory, spool)];
      nextId := nextId + 1;
      assert queue[|queue| - 1].id == id;
      ok := true;
    }

    /** One turn of the waiting loop, under the lock. */
    method Poll(id: nat, cancelled: bool) returns (turn: Turn)
      requires Queued(View(), id)
      modifies this
      ensures View() == Polled(old(View()), id, cancelled)
      ensures turn == TurnOf(old(View()), id, cancelled)
    {
      if cancelled {
        waiting := waiting - 1;
        queue := Splice(queue, id);
        epoch := epoch + 1;
        blocked := blocked - {id};
        return Cancelled;
      }
      var head := queue[0];
      if head.id == id && head.memory <= memoryLimit - memory && head.spool <= spoolLimit - spool {
        waiting := waiting - 1;
        queue := queue[1..];
        epoch := epoch + 1;
        memory := memory + head.memory;
        spool := spool + head.spool;
        if memory > peakMemory { peakMemory := memory; }
        if spool > peakSpool { peakSpool := spool; }
        grants := grants + [Grant(head, false)];
        blocked := blocked - {id};
        return Granted;
      }
      blocked := blocked[id := epoch];
      turn := Asleep;
    }

    /** The release function of grant i; only its first call acts. */
    method Release(i: nat)
      requires i < |grants|
      modifies this
      ensures View() == Released(old(View()), i)
    {
      if !grants[i].released {
        var r := grants[i].request;
        memory := memory - r.memory;
        spool := spool - r.spool;
        epoch := epoch + 1;
        grants := grants[i := grants[i].(released := true)];
      }
    }
  }

  // ---- Every interleaving of the critical sections ----

  datatype Step = Enter(memory: int, spool: int) | Poll(id: nat, cancelled: bool) | Release(i: nat)

  predicate Enabled(s: State, step: Step) {
    match step
    case Enter(memory, spool) => true
    case Poll(id, cancelled) => Queued(s, id) && (cancelled || Awake(s, id))
    case Release(i) => i < |s.grants|
  }

  function Next(s: State, step: Step): State
    requires Enabled(s, step)
  {
    match step
    case Enter(memory, spool) => if Admissible(s, memory, spool) then Entered(s, memory, spool) else s
    case Poll(id, cancelled) => Polled(s, id, cancelled)
    case Release(i) => Released(s, i)
  }

  /** The sequence of states a run passes through. */
  ghost predicate IsRun(t: seq<State>) {
    && t != []
    && (exists m, p | m >= 0 && p >= 0 :: t[0] == Initial(m, p))
    && forall i | 0 <= i < |t| - 1 :: Follows(t[i], t[i + 1])
  }

  ghost predicate Follows(s: State, s': State) { exists step | Enabled(s, step) :: s' == Next(s, step) }

  function HeldMemory(g: seq<Grant>): int {
    if g == [] then 0 else HeldMemory(g[1..]) + (if g[0].released then 0 else g[0].request.memory)
  }

  function HeldSpool(g: seq<Grant>): int {
    if g == [] then 0 else HeldSpool(g[1..]) + (if g[0].released then 0 else g[0].request.spool)
  }

  predicate Sized(s: State, r: Request) { Admissible(s, r.memory, r.spool) && r.id < s.nextId }

  /** Waiting and granted requests carry increasing tickets: grants are made in arrival order. */
  ghost predicate ArrivalOrder(s: State) {
    && (forall i, j | 0 <= i < j < |s.queue| :: s.queue[i].id < s.queue[j].id)
    && (forall i, j | 0 <= i < j < |s.grants| :: s.grants[i].request.id < s.grants[j].request.id)
    && (forall i, j | 0 <= i < |s.grants| && 0 <= j < |s.queue| :: s.grants[i].request.id < s.queue[j].id)
    && (forall i | 0 <= i < |s.queue| :: Sized(s, s.queue[i]))
    && (forall i | 0 <= i < |s.grants| :: Sized(s, s.grants[i].request))
  }

  /** The counters are exactly what is held, within the limits. */
  ghost predicate Conserves(s: State) {
    && s.waiting == |s.queue|
    && s.memory == HeldMemory(s.grants) && s.spool == HeldSpool(s.grants)
    && 0 <= s.memory <= s.peakMemory <= s.memoryLimit
    && 0 <= s.spool <= s.peakSpool <= s.spoolLimit
  }

  /** Nobody sleeps on the open channel while its turn has come. */
  ghost predicate NoLostWakeup(s: State) {
    && (forall id | id in s.blocked :: Queued(s, id) && s.blocked[id] <= s.epoch)
    && (s.queue != [] && !Awake(s, s.queue[0].id) ==> !Fits(s, s.queue[0]))
  }

  ghost predicate Inv(s: State) { ArrivalOrder(s) && Conserves(s) && NoLostWakeup(s) }

  lemma {:induction false} WithoutIs(q: seq<Request>, k: nat, id: nat)
    requires k < |q| && q[k].id == id
    requires forall i | 0 <= i < k :: q[i].id != id
    ensures Without(q, id) == q[..k] + q[k + 1..]
  {
    if k > 0 {
      var t := q[1..];
      WithoutIs(t, k - 1, id);
      assert t[..k - 1] == q[1..k] && t[k..] == q[k + 1..];
      assert q[..k] == [q[0]] + q[1..k];
    } else {
      assert q[..0] == [];
    }
  }

  lemma {:induction false} HeldAppend(g: seq<Grant>, x: Grant)
    ensures HeldMemory(g + [x]) == HeldMemory(g) + (if x.released then 0 else x.request.memory)
    ensures HeldSpool(g + [x]) == HeldSpool(g) + (if x.released then 0 else x.request.spool)
  {
    if g != [] {
      assert (g + [x])[1..] == g[1..] + [x];
      HeldAppend(g[1..], x);
    } else {
      assert g + [x] == [x] && [x][1..] == [];
    }
  }

  lemma {:induction false} HeldRelease(g: seq<Grant>, i: nat)
    requires i < |g| && !g[i].released
    ensures var h := g[i := g[i].(released := true)];
      && HeldMemory(h) == HeldMemory(g) - g[i].request.memory
      && HeldSpool(h) == HeldSpool(g) - g[i].request.spool
  {
    var h := g[i := g[i].(released := true)];
    if i > 0 {
      assert h[1..] == g[1..][i - 1 := g[i].(released := true)];
      HeldRelease(g[1..], i - 1);
    } else {
      assert h[1..] == g[1..];
    }
  }

  lemma {:induction false} HeldNonNegative(g: seq<Grant>)
    requires forall i | 0 <= i < |g| :: g[i].request.memory >= 0 && g[i].request.spool >= 0
    ensures HeldMemory(g) >= 0 && HeldSpool(g) >= 0
  {
    if g != [] { HeldNonNegative(g[1..]); }
  }

  lemma EnteredKeeps(s: State, memory: int, spool: int)
    requires Inv(s) && Admissible(s, memory, spool)
    ensures Inv(Entered(s, memory, spool))
  {
    var s' := Entered(s, memory, spool);
    forall id | id in s'.blocked ensures Queued(s', id) && id < s.nextId {
      var i :| 0 <= i < |s.queue| && s.queue[i].id == id;
      assert s'.queue[i].id == id && Sized(s, s.queue[i]);
    }
  }

  lemma LeftSplits(s: State, id: nat) returns (k: nat)
    requires Queued(s, id) && forall i, j | 0 <= i < j < |s.queue| :: s.queue[i].id < s.queue[j].id
    ensures k < |s.queue| && s.queue[k].id == id && Without(s.queue, id) == s.queue[..k] + s.queue[k + 1..]
  {
    k :| 0 <= k < |s.queue| && s.queue[k].id == id;
    WithoutIs(s.queue, k, id);
  }

  lemma LeftOrder(s: State, k: nat, id: nat)
    requires ArrivalOrder(s) && k < |s.queue| && Without(s.queue, id) == s.queue[..k] + s.queue[k + 1..]
    ensures ArrivalOrder(Left(s, id))
  {
    var s' := Left(s, id);
    assert forall i | 0 <= i < |s'.queue| :: s'.queue[i] == s.queue[if i < k then i else i + 1];
    forall i | 0 <= i < |s'.queue| ensures Sized(s', s'.queue[i]) {
      assert Sized(s, s.queue[if i < k then i else i + 1]);
    }
    forall i | 0 <= i < |s'.grants| ensures Sized(s', s'.grants[i].request) { assert Sized(s, s.grants[i].request); }
  }

  lemma LeftWakes(s: State, k: nat, id: nat)
    requires k < |s.queue| && s.queue[k].id == id
    requires NoLostWakeup(s) && Without(s.queue, id) == s.queue[..k] + s.queue[k + 1..]
    ensures NoLostWakeup(Left(s, id))
  {
    var s' := Left(s, id);
    forall x | x in s'.blocked ensures Queued(s', x) && s'.blocked[x] < s'.epoch {
      assert x in s.blocked && x != id;
      var i :| 0 <= i < |s.queue| && s.queue[i].id == x;
      assert s'.queue[if i < k then i else i - 1].id == x;
    }
  }

  lemma LeftKeeps(s: State, id: nat)
    requires Inv(s) && Queued(s, id)
    ensures Inv(Left(s, id))
  {
    var k := LeftSplits(s, id);
    LeftOrder(s, k, id);
    LeftWakes(s, k, id);
  }

  lemma TakenKeeps(s: State, id: nat)
    requires Inv(s) && AtHead(s, id)
    ensures Inv(Taken(s))
  {
    var s' := Taken(s);
    HeldAppend(s.grants, Grant(s.queue[0], false));
    forall x | x in s'.blocked ensures Queued(s', x) {
      var i :| 0 <= i < |s.queue| && s.queue[i].id == x;
      assert s'.queue[i - 1].id == x;
    }
    assert Sized(s, s.queue[0]);
  }

  lemma ReleasedKeeps(s: State, i: nat)
    requires Inv(s) && i < |s.grants|
    ensures Inv(Released(s, i))
  {
    if !s.grants[i].released {
      var s' := Released(s, i);
      HeldRelease(s.grants, i);
      assert forall j | 0 <= j < |s.grants| :: s'.grants[j].request == s.grants[j].request;
      assert Sized(s, s.grants[i].request);
      forall j | 0 <= j < |s.grants| ensures s'.grants[j].request.memory >= 0 && s'.grants[j].request.spool >= 0 {
        assert Sized(s, s.grants[j].request);
      }
      HeldNonNegative(s'.grants);
      assert s'.queue == s.queue && s'.blocked == s.blocked;
      forall x | x in s'.blocked ensures Queued(s', x) { assert Queued(s, x); }
    }
  }

  lemma NextKeeps(s: State, step: Step)
    requires Inv(s) && Enabled(s, step)
    ensures Inv(Next(s, step))
  {
    match step {
      case Enter(memory, spool) => if Admissible(s, memory, spool) { EnteredKeeps(s, memory, spool); }
      case Poll(id, cancelled) => {
        if cancelled { LeftKeeps(s, id); } else if AtHead(s, id) { TakenKeeps(s, id); }
      }
      case Release(i) => { ReleasedKeeps(s, i); }
    }
  }

  /** Every reachable state, under every interleaving, conserves the budget, serves in
      arrival order and loses no wakeup. */
  lemma {:induction false} RunKeeps(t: seq<State>, k: nat)
    requires IsRun(t) && k < |t|
    ensures Inv(t[k])
  {
    if k > 0 {
      RunKeeps(t, k - 1);
      assert Follows(t[k - 1], t[k - 1 + 1]);
      var step :| Enabled(t[k - 1], step) && t[k] == Next(t[k - 1], step);
      NextKeeps(t[k - 1], step);
    }
  }

  /** Never stuck: the head is granted on its next turn exactly when its request fits beside
      the grants still held; it is then awake, and with nothing held it always fits.  Nobody
      else is granted. */
  lemma HeadIsServed(t: seq<State>, k: nat)
    requires IsRun(t) && k < |t| && t[k].queue != []
    ensures var s, head := t[k], t[k].queue[0];
      && (TurnOf(s, head.id, false) == Granted <==>
            HeldMemory(s.grants) + head.memory <= s.memoryLimit && HeldSpool(s.grants) + head.spool <= s.spoolLimit)
      && (TurnOf(s, head.id, false) == Granted ==> Enabled(s, Poll(head.id, false)))
      && ((forall i | 0 <= i < |s.grants| :: s.grants[i].released) ==> TurnOf(s, head.id, false) == Granted)
      && (forall id | id != head.id :: TurnOf(s, id, false) != Granted)
  {
    RunKeeps(t, k);
    if forall i | 0 <= i < |t[k].grants| :: t[k].grants[i].released { NothingHeld(t[k].grants); }
    assert Sized(t[k], t[k].queue[0]);
  }

  lemma {:induction false} NothingHeld(g: seq<Grant>)
    requires forall i | 0 <= i < |g| :: g[i].released
    ensures HeldMemory(g) == 0 && HeldSpool(g) == 0
  {
    if g != [] { NothingHeld(g[1..]); }
  }

  /** The largest use any state of the run showed. */
  function HighestMemory(t: seq<State>): int {
    if t == [] then 0 else Max(HighestMemory(t[..|t| - 1]), t[|t| - 1].memory)
  }

  function HighestSpool(t: seq<State>): int {
    if t == [] then 0 else Max(HighestSpool(t[..|t| - 1]), t[|t| - 1].spool)
  }

  /** The recorded peaks are the true peaks. */
  lemma {:induction false} PeakIsExact(t: seq<State>)
    requires IsRun(t)
    ensures t[|t| - 1].peakMemory == HighestMemory(t) && t[|t| - 1].peakSpool == HighestSpool(t)
  {
    var n := |t|;
    RunKeeps(t, n - 1);
    if n > 1 {
      var u := t[..n - 1];
      assert u[0] == t[0];
      forall i | 0 <= i < |u| - 1 ensures Follows(u[i], u[i + 1]) { assert Follows(t[i], t[i + 1]); }
      PeakIsExact(u);
      RunKeeps(t, n - 2);
      assert Follows(t[n - 2], t[n - 2 + 1]);
      var s := t[n - 2];
      var step :| Enabled(s, step) && t[n - 1] == Next(s, step);
      if step.Release? && !s.grants[step.i].released { assert Sized(s, s.grants[step.i].request); }
      if step.Poll? && AtHead(s, step.id) { assert Sized(s, s.queue[0]); }
    } else {
      assert t[..0] == [];
      assert HighestMemory(t[..0]) == 0 && HighestSpool(t[..0]) == 0;
    }
  }
}
