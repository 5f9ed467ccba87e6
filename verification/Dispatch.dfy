/** Which work a worker gets next.  The owner whose turn is oldest goes first, its streams
    share the weighted wheel, the oldest message of the stream is taken, and a provider the
    message may move to is preferred to the one it is on.  The turns of every dispatcher
    satisfy the hypotheses of `Fairness`, so nobody starves. */
module Dispatch {
  import opened Options
  import opened Delivery
  import opened SmtpClient
  import opened Queue
  import opened QueueProgress
  import opened Repository
  import F = Fairness
  import C = Controls

  /** What never changes about a message: whose it is, its stream, when it came. */
  datatype Label = Label(owner: F.Owner, lane: nat, created: Time)

  datatype Relay = Relay(priority: int, timeout: nat)

  /** Rows other transactions hold; every query skips them. */
  datatype Locks = Locks(owners: set<F.Owner>, messages: set<Mid>, providers: set<Pid>)

  datatype Choice = Choice(owner: F.Owner, mid: Mid, provider: Pid, next: nat)

  /** The claims of one owner: the cursor before each and after the last, the streams that
      had work, and the stream that was served. */
  datatype Ride = Ride(cursors: seq<nat>, eligible: seq<set<nat>>, lanes: seq<nat>)

  // ---- What is ready ----

  /** Everything the claim tests except the provider. */
  predicate Startable(cfg: Policy, m: Mail, active: set<Address>, now: Time) {
    && m.status == One(Queued) && m.available
    && (m.scheduleAt.None? || m.scheduleAt.value <= now)
    && !Elapsed(m.expiresAt, now)
    && Eligible(cfg, m, active, now) != {}
  }

  /** Everything the queries of a claim read.  `usable` holds the static tests of a provider
      for a message: it is enabled, encrypts, and sends for the message's domains. */
  datatype Scene = Scene(cfg: Policy, ctl: C.Config, s: C.State, fleet: map<Pid, Relay>, usable: (Mid, Pid) -> bool, mails: map<Mid, Mail>, active: set<Address>, now: Time)

  /** The providers that would take the message now. */
  function Servers(sc: Scene, mid: Mid): set<Pid>
    requires mid in sc.mails
  {
    set p | p in sc.fleet && sc.usable(mid, p) && RouteAllowed(sc.cfg, sc.mails[mid], p, sc.now) && C.Allowance(sc.ctl, sc.s, p, sc.now) > 0
  }

  function Ready(sc: Scene): set<Mid> {
    set mid | mid in sc.mails && Startable(sc.cfg, sc.mails[mid], sc.active, sc.now) && Servers(sc, mid) != {}
  }

  /** A message is ready exactly when some usable provider with an allowance could claim a
      batch of it. */
  lemma ReadyMeansClaimable(sc: Scene, mid: Mid)
    ensures mid in Ready(sc) <==>
      mid in sc.mails && exists p, b :: Offers(sc, mid, p, b)
  {
    if mid in Ready(sc) {
      var p :| p in Servers(sc, mid);
      var allowance := C.Allowance(sc.ctl, sc.s, p, sc.now);
      var b := BatchExists(Eligible(sc.cfg, sc.mails[mid], sc.active, sc.now), allowance);
      assert Offers(sc, mid, p, b);
    }
    if mid in sc.mails && exists p, b :: Offers(sc, mid, p, b) {
      var p, b :| Offers(sc, mid, p, b);
      assert p in Servers(sc, mid);
      var r :| r in b;
      assert r in Eligible(sc.cfg, sc.mails[mid], sc.active, sc.now);
    }
  }

  /** The provider is usable for the message and could be given this batch now. */
  ghost predicate Offers(sc: Scene, mid: Mid, p: Pid, b: set<Rid>) {
    && mid in sc.mails && p in sc.fleet && sc.usable(mid, p) && C.Allowance(sc.ctl, sc.s, p, sc.now) >= 0
    && CanClaim(sc.cfg, sc.mails[mid], p, C.Allowance(sc.ctl, sc.s, p, sc.now), b, sc.active, sc.now)
  }

  // ---- Sorting ----

  datatype Key = Key(first: int, second: int, third: int)

  predicate Leq(a: Key, b: Key) {
    a.first < b.first || (a.first == b.first && (a.second < b.second || (a.second == b.second && a.third <= b.third)))
  }

  /** The first row in a query's order. */
  method Foremost(s: set<nat>, key: nat -> Key) returns (x: nat)
    requires s != {}
    ensures x in s && forall y | y in s :: Leq(key(x), key(y))
  {
    x :| x in s;
    var rest := s - {x};
    while rest != {}
      invariant rest <= s && x in s && forall y | y in s && y !in rest :: Leq(key(x), key(y))
    {
      var y :| y in rest;
      if !Leq(key(x), key(y)) { x := y; }
      rest := rest - {y};
    }
  }

  function OwnerKey(tickets: map<F.Owner, nat>, o: F.Owner): Key {
    Key(if o in tickets then tickets[o] else 0, o, 0)
  }

  function MessageKey(labels: map<Mid, Label>, mid: Mid): Key {
    Key(if mid in labels then labels[mid].created else 0, mid, 0)
  }

  /** A provider the message would move to comes before the one it is on. */
  function ProviderKey(fleet: map<Pid, Relay>, route: Option<Pid>, p: Pid): Key {
    Key(if route == Some(p) then 1 else 0, if p in fleet then fleet[p].priority else 0, p)
  }

  // ---- Histories ----

  ghost predicate RideOk(weights: seq<nat>, ride: Ride, cursor: nat) {
    && |ride.cursors| == |ride.lanes| + 1 && |ride.eligible| == |ride.lanes|
    && ride.cursors[|ride.lanes|] == cursor
    && forall t | 0 <= t < |ride.lanes| :: Stop(weights, ride, t)
  }

  ghost predicate Stop(weights: seq<nat>, ride: Ride, t: nat)
    requires t < |ride.lanes| == |ride.eligible| && |ride.cursors| == |ride.lanes| + 1
  {
    && F.Sum(weights) > 0
    && F.Chosen(weights, ride.eligible[t], ride.cursors[t], ride.lanes[t])
    && ride.cursors[t + 1] == F.SlotAt(weights, ride.cursors[t], F.Distance(weights, ride.lanes[t], ride.cursors[t]) + 1)
  }

  ghost function Ridden(ride: Ride, eligible: set<nat>, lane: nat, next: nat): Ride {
    Ride(ride.cursors + [next], ride.eligible + [eligible], ride.lanes + [lane])
  }

  lemma RideOn(weights: seq<nat>, ride: Ride, cursor: nat, eligible: set<nat>, lane: nat, next: nat)
    requires RideOk(weights, ride, cursor) && F.Sum(weights) > 0 && F.Chosen(weights, eligible, cursor, lane)
    requires next == F.SlotAt(weights, cursor, F.Distance(weights, lane, cursor) + 1)
    ensures RideOk(weights, Ridden(ride, eligible, lane, next), next)
  {
    var r := Ridden(ride, eligible, lane, next);
    forall t | 0 <= t < |r.lanes| ensures Stop(weights, r, t) {
      if t < |ride.lanes| { assert Stop(weights, ride, t); }
    }
  }

  /** The turns so far, up to the present tickets. */
  ghost predicate History(turns: seq<map<F.Owner, nat>>, readies: seq<set<F.Owner>>, served: seq<F.Owner>, tickets: map<F.Owner, nat>) {
    F.Turns(turns, readies, served) && turns[|served|] == tickets
  }

  lemma TurnAdded(turns: seq<map<F.Owner, nat>>, readies: seq<set<F.Owner>>, served: seq<F.Owner>, ready: set<F.Owner>, o: F.Owner, after: map<F.Owner, nat>)
    requires F.Turns(turns, readies, served) && F.GoesFirst(turns[|served|], ready, o) && F.TurnTaken(turns[|served|], after, o)
    ensures History(turns + [after], readies + [ready], served + [o], after)
  {
  }

  lemma OwnerJoins(turns: seq<map<F.Owner, nat>>, readies: seq<set<F.Owner>>, served: seq<F.Owner>, after: map<F.Owner, nat>)
    requires F.Turns(turns, readies, served) && turns[|served|].Keys <= after.Keys && forall o | o in turns[|served|] :: after[o] == turns[|served|][o]
    ensures History(turns[|served| := after], readies, served, after)
  {
  }

  ghost predicate Riding(weights: F.Owner -> seq<nat>, rides: map<F.Owner, Ride>, cursors: map<F.Owner, nat>) {
    rides.Keys == cursors.Keys && forall o | o in rides :: F.Wheel(weights(o)) && RideOk(weights(o), rides[o], cursors[o])
  }

  ghost predicate Labelled(weights: F.Owner -> seq<nat>, labels: map<Mid, Label>, tickets: map<F.Owner, nat>) {
    forall mid | mid in labels :: labels[mid].owner in tickets && labels[mid].lane < |weights(labels[mid].owner)|
  }

  // ---- Selection ----

  /** The owners with ready work that nobody holds. */
  function Queueing(labels: map<Mid, Label>, ready: set<Mid>, locks: Locks): set<F.Owner> {
    (set mid | mid in ready && mid in labels :: labels[mid].owner) - locks.owners
  }

  /** The ready messages of an owner that nobody holds. */
  function Mine(labels: map<Mid, Label>, ready: set<Mid>, o: F.Owner, locks: Locks): set<Mid> {
    set mid | mid in ready && mid in labels && labels[mid].owner == o && mid !in locks.messages
  }

  function Lanes(labels: map<Mid, Label>, mine: set<Mid>): set<nat> {
    set mid | mid in mine && mid in labels :: labels[mid].lane
  }

  method SelectOwner(tickets: map<F.Owner, nat>, owners: set<F.Owner>) returns (o: F.Owner)
    requires owners != {} && owners <= tickets.Keys
    ensures F.GoesFirst(tickets, owners, o)
  {
    o := Foremost(owners, (o: F.Owner) => OwnerKey(tickets, o));
    forall p | p in owners && p in tickets ensures tickets[o] < tickets[p] || (tickets[o] == tickets[p] && o <= p) {
      assert Leq(OwnerKey(tickets, o), OwnerKey(tickets, p));
    }
  }

  /** Its stream is the next one on the wheel with work, and it is the oldest message of that
      stream; `next` is the cursor after it. */
  ghost predicate NextInLane(weights: seq<nat>, labels: map<Mid, Label>, mine: set<Mid>, cursor: nat, mid: Mid, next: nat) {
    && mid in mine && mid in labels && F.Sum(weights) > 0
    && var lane := labels[mid].lane;
    && F.Chosen(weights, Lanes(labels, mine), cursor, lane)
    && next == F.SlotAt(weights, cursor, F.Distance(weights, lane, cursor) + 1)
    && forall x | x in mine && x in labels && labels[x].lane == lane ::
         labels[mid].created < labels[x].created || (labels[mid].created == labels[x].created && mid <= x)
  }

  method SelectMessage(weights: seq<nat>, labels: map<Mid, Label>, mine: set<Mid>, cursor: nat) returns (mid: Mid, next: nat)
    requires F.Wheel(weights) && mine != {} && mine <= labels.Keys && forall x | x in mine :: labels[x].lane < |weights|
    ensures NextInLane(weights, labels, mine, cursor, mid, next)
  {
    ghost var one :| one in mine;
    assert labels[one].lane in Lanes(labels, mine);
    var lane;
    lane, next := F.SelectLane(weights, Lanes(labels, mine), cursor);
    ghost var two :| two in mine && labels[two].lane == lane;
    var best := set x | x in mine && labels[x].lane == lane;
    assert two in best;
    mid := Foremost(best, (x: Mid) => MessageKey(labels, x));
    forall x | x in mine && labels[x].lane == lane ensures labels[mid].created < labels[x].created || (labels[mid].created == labels[x].created && mid <= x) {
      assert x in best;
      assert Leq(MessageKey(labels, mid), MessageKey(labels, x));
    }
  }

  /** Prefer a provider the message would move to, then priority, then identifier. */
  ghost predicate Preferred(fleet: map<Pid, Relay>, route: Option<Pid>, servers: set<Pid>, p: Pid) {
    && p in servers
    && (route.Some? && p == route.value ==> servers == {p})
    && forall q | q in servers && q in fleet && p in fleet :: (Some(q) == route <==> Some(p) == route) ==>
         fleet[p].priority < fleet[q].priority || (fleet[p].priority == fleet[q].priority && p <= q)
  }

  method SelectProvider(fleet: map<Pid, Relay>, route: Option<Pid>, servers: set<Pid>) returns (p: Pid)
    requires servers != {}
    ensures Preferred(fleet, route, servers, p)
  {
    p := Foremost(servers, (p: Pid) => ProviderKey(fleet, route, p));
    forall q | q in servers ensures Leq(ProviderKey(fleet, route, p), ProviderKey(fleet, route, q)) { }
    forall q | q in servers && q in fleet && p in fleet && (Some(q) == route <==> Some(p) == route)
      ensures fleet[p].priority < fleet[q].priority || (fleet[p].priority == fleet[q].priority && p <= q)
    {
      assert Leq(ProviderKey(fleet, route, p), ProviderKey(fleet, route, q));
    }
    if route == Some(p) {
      forall q | q in servers ensures q == p { assert Leq(ProviderKey(fleet, route, p), ProviderKey(fleet, route, q)); }
    }
  }

  lemma SomeoneQueues(labels: map<Mid, Label>, ready: set<Mid>, locks: Locks)
    requires ready <= labels.Keys && ready != {} && locks.owners == {}
    ensures Queueing(labels, ready, locks) != {}
  {
    var mid :| mid in ready;
    assert labels[mid].owner in Queueing(labels, ready, locks);
  }

  lemma SomethingIsMine(labels: map<Mid, Label>, ready: set<Mid>, locks: Locks, o: F.Owner)
    requires o in Queueing(labels, ready, locks) && locks.messages == {}
    ensures Mine(labels, ready, o, locks) != {}
  {
    var mid :| mid in ready && mid in labels && labels[mid].owner == o;
    assert mid in Mine(labels, ready, o, locks);
  }

  lemma LabelsStay(weights: F.Owner -> seq<nat>, labels: map<Mid, Label>, tickets: map<F.Owner, nat>, after: map<F.Owner, nat>)
    requires Labelled(weights, labels, tickets) && tickets.Keys <= after.Keys
    ensures Labelled(weights, labels, after)
  {
  }

  lemma TicketTaken(tickets: map<F.Owner, nat>, ticket: nat, o: F.Owner)
    requires o in tickets && forall p | p in tickets :: tickets[p] <= ticket
    ensures var after := tickets[o := ticket + 1]; F.TurnTaken(tickets, after, o) && forall p | p in after :: after[p] <= ticket + 1
    ensures tickets[o := ticket + 1].Keys == tickets.Keys
  {
  }

  /** The owner and the message as the two queries choose them. */
  ghost predicate Picked(weights: F.Owner -> seq<nat>, labels: map<Mid, Label>, tickets: map<F.Owner, nat>, cursors: map<F.Owner, nat>,
                         ready: set<Mid>, locks: Locks, o: F.Owner, mid: Mid, next: nat)
  {
    && F.GoesFirst(tickets, Queueing(labels, ready, locks), o) && o in cursors
    && mid in ready && mid in labels && labels[mid].owner == o
    && NextInLane(weights(o), labels, Mine(labels, ready, o, locks), cursors[o], mid, next)
  }

  lemma RiderMoves(weights: F.Owner -> seq<nat>, rides: map<F.Owner, Ride>, cursors: map<F.Owner, nat>, o: F.Owner, lanes: set<nat>, lane: nat, next: nat)
    requires Riding(weights, rides, cursors) && o in cursors && F.Sum(weights(o)) > 0 && F.Chosen(weights(o), lanes, cursors[o], lane)
    requires next == F.SlotAt(weights(o), cursors[o], F.Distance(weights(o), lane, cursors[o]) + 1)
    ensures Riding(weights, rides[o := Ridden(rides[o], lanes, lane, next)], cursors[o := next])
  {
    RideOn(weights(o), rides[o], cursors[o], lanes, lane, next);
  }

  lemma RiderJoins(weights: F.Owner -> seq<nat>, rides: map<F.Owner, Ride>, cursors: map<F.Owner, nat>, o: F.Owner)
    requires Riding(weights, rides, cursors) && o !in cursors && F.Wheel(weights(o))
    ensures Riding(weights, rides[o := Ride([0], [], [])], cursors[o := 0])
  {
  }

  lemma WindowOfTurns(turns: seq<map<F.Owner, nat>>, readies: seq<set<F.Owner>>, served: seq<F.Owner>, i: nat, j: nat)
    requires F.Turns(turns, readies, served) && i <= j <= |served|
    ensures F.Turns(turns[i..j + 1], readies[i..j], served[i..j])
  {
    forall t | 0 <= t < j - i
      ensures F.GoesFirst(turns[i..j + 1][t], readies[i..j][t], served[i..j][t]) && F.TurnTaken(turns[i..j + 1][t], turns[i..j + 1][t + 1], served[i..j][t])
    {
      assert F.GoesFirst(turns[i + t], readies[i + t], served[i + t]);
    }
  }

  lemma LaneWindow(weights: seq<nat>, ride: Ride, cursor: nat, i: nat, j: nat, l: nat)
    requires RideOk(weights, ride, cursor) && F.Wheel(weights) && l < |weights| && i <= j <= |ride.lanes|
    requires forall t | i <= t < j :: l in ride.eligible[t] && ride.lanes[t] != l
    ensures j - i <= F.Sum(weights) - weights[l]
  {
    F.SumPositive(weights);
    var cs, es, ls := ride.cursors[i..j + 1], ride.eligible[i..j], ride.lanes[i..j];
    forall t | 0 <= t < |ls|
      ensures F.Chosen(weights, es[t], cs[t], ls[t]) && l in es[t] && ls[t] != l
      ensures cs[t + 1] == F.SlotAt(weights, cs[t], F.Distance(weights, ls[t], cs[t]) + 1)
    {
      assert Stop(weights, ride, i + t);
    }
    F.LaneNotStarved(weights, l, cs, es, ls);
  }

  ghost predicate Unused(mails: map<Mid, Mail>, token: Token) {
    forall mid | mid in mails :: forall k | 0 <= k < |mails[mid].attempts| :: mails[mid].attempts[k].token != token
  }

  lemma ClaimFindsRows(sc: Scene, mid: Mid, p: Pid)
    requires mid in Ready(sc) && p in Servers(sc, mid)
    ensures Writable(sc, mid, p)
  {
    var allowance := C.Allowance(sc.ctl, sc.s, p, sc.now);
    var b := BatchExists(Eligible(sc.cfg, sc.mails[mid], sc.active, sc.now), allowance);
    assert CanClaim(sc.cfg, sc.mails[mid], p, allowance, b, sc.active, sc.now);
  }

  /** Some batch of the message can be written for the provider. */
  ghost predicate Writable(sc: Scene, mid: Mid, p: Pid) {
    && mid in sc.mails && p in sc.fleet && C.Allowance(sc.ctl, sc.s, p, sc.now) >= 0
    && exists b :: CanClaim(sc.cfg, sc.mails[mid], p, C.Allowance(sc.ctl, sc.s, p, sc.now), b, sc.active, sc.now)
  }

  /** The batch is written for that message and provider, within the provider's allowance. */
  ghost predicate Claimed(sc: Scene, mid: Mid, p: Pid, token: Token, batch: set<Rid>, after: map<Mid, Mail>) {
    && mid in sc.mails && p in sc.fleet && C.Allowance(sc.ctl, sc.s, p, sc.now) >= 0
    && CanClaim(sc.cfg, sc.mails[mid], p, C.Allowance(sc.ctl, sc.s, p, sc.now), batch, sc.active, sc.now)
    && after == sc.mails[mid := ClaimMail(sc.mails[mid], p, token, batch, sc.now + sc.fleet[p].timeout + LEASE_MARGIN, sc.now)]
  }

  // ---- The dispatcher ----

  class Dispatcher {
    const fleet: map<Pid, Relay>
    const weights: F.Owner -> seq<nat>
    var labels: map<Mid, Label>
    var tickets: map<F.Owner, nat>
    var cursors: map<F.Owner, nat>
    var ticket: nat
    ghost var turns: seq<map<F.Owner, nat>>
    ghost var readies: seq<set<F.Owner>>
    ghost var served: seq<F.Owner>
    ghost var rides: map<F.Owner, Ride>

    ghost predicate Valid() reads this {
      && tickets.Keys == cursors.Keys && Labelled(weights, labels, tickets) && Riding(weights, rides, cursors)
      && (forall o | o in tickets :: tickets[o] <= ticket)
      && History(turns, readies, served, tickets)
    }

    constructor (fleet: map<Pid, Relay>, weights: F.Owner -> seq<nat>)
      ensures Valid() && this.fleet == fleet && this.weights == weights && labels == map[] && served == []
    {
      this.fleet, this.weights := fleet, weights;
      labels, tickets, cursors, ticket := map[], map[], map[], 0;
      turns, readies, served, rides := [map[]], [], [], map[];
    }

    /** An owner joins with ticket zero. */
    method Join(o: F.Owner)
      requires Valid() && o !in tickets && F.Wheel(weights(o))
      modifies this
      ensures Valid() && labels == old(labels) && served == old(served) && readies == old(readies) && ticket == old(ticket)
      ensures tickets == old(tickets)[o := 0] && cursors == old(cursors)[o := 0]
    {
      RiderJoins(weights, rides, cursors, o);
      ghost var after := tickets[o := 0];
      OwnerJoins(turns, readies, served, after);
      tickets, cursors, rides, turns := tickets[o := 0], cursors[o := 0], rides[o := Ride([0], [], [])], turns[|served| := after];
    }

    /** A message arrives; its owner joins unless it is known. */
    method Register(mid: Mid, tag: Label)
      requires Valid() && mid !in labels && F.Wheel(weights(tag.owner)) && tag.lane < |weights(tag.owner)|
      modifies this
      ensures Valid() && labels == old(labels)[mid := tag] && served == old(served)
      ensures tickets == if tag.owner in old(tickets) then old(tickets) else old(tickets)[tag.owner := 0]
      ensures cursors == if tag.owner in old(tickets) then old(cursors) else old(cursors)[tag.owner := 0]
    {
      if tag.owner !in tickets { Join(tag.owner); }
      labels := labels[mid := tag];
    }

    /** Choose the owner, the stream and the message. */
    method SelectFair(ready: set<Mid>, locks: Locks) returns (pick: Option<(F.Owner, Mid)>, next: nat)
      requires Valid() && ready <= labels.Keys
      ensures pick.Some? ==> Picked(weights, labels, tickets, cursors, ready, locks, pick.value.0, pick.value.1, next)
      ensures pick.None? && locks.owners == {} && locks.messages == {} ==> ready == {}
    {
      pick, next := None, 0;
      if ready != {} && locks.owners == {} { SomeoneQueues(labels, ready, locks); }
      var owners := Queueing(labels, ready, locks);
      if owners == {} { return; }
      var o := SelectOwner(tickets, owners);
      if locks.messages == {} { SomethingIsMine(labels, ready, locks, o); }
      var mine := Mine(labels, ready, o, locks);
      if mine == {} { return; }
      var mid;
      mid, next := SelectMessage(weights(o), labels, mine, cursors[o]);
      pick := Some((o, mid));
    }

    method MoveWheel(ghost lanes: set<nat>, o: F.Owner, ghost lane: nat, next: nat)
      requires Valid() && o in cursors && F.Sum(weights(o)) > 0 && F.Chosen(weights(o), lanes, cursors[o], lane)
      requires next == F.SlotAt(weights(o), cursors[o], F.Distance(weights(o), lane, cursors[o]) + 1)
      modifies this`cursors, this`rides
      ensures Valid() && cursors == old(cursors)[o := next] && rides == old(rides)[o := Ridden(old(rides)[o], lanes, lane, next)]
    {
      RiderMoves(weights, rides, cursors, o, lanes, lane, next);
      rides, cursors := rides[o := Ridden(rides[o], lanes, lane, next)], cursors[o := next];
    }

    method TakeTicket(ghost owners: set<F.Owner>, o: F.Owner)
      requires Valid() && F.GoesFirst(tickets, owners, o)
      modifies this`tickets, this`ticket, this`turns, this`readies, this`served
      ensures Valid() && F.TurnTaken(old(tickets), tickets, o) && served == old(served) + [o] && readies == old(readies) + [owners]
    {
      var after := tickets[o := ticket + 1];
      TicketTaken(tickets, ticket, o);
      LabelsStay(weights, labels, tickets, after);
      TurnAdded(turns, readies, served, owners, o, after);
      tickets, ticket := after, ticket + 1;
      turns, readies, served := turns + [after], readies + [owners], served + [o];
      assert History(turns, readies, served, tickets);
    }

    /** The served owner goes to the end of the queue and its wheel moves on. */
    method TakeTurn(ghost ready: set<Mid>, ghost locks: Locks, o: F.Owner, ghost mid: Mid, next: nat)
      requires Valid() && Picked(weights, labels, tickets, cursors, ready, locks, o, mid, next)
      modifies this
      ensures Valid() && labels == old(labels) && F.TurnTaken(old(tickets), tickets, o) && cursors == old(cursors)[o := next]
      ensures served == old(served) + [o] && readies == old(readies) + [Queueing(labels, ready, locks)]
    {
      MoveWheel(Lanes(labels, Mine(labels, ready, o, locks)), o, labels[mid].lane, next);
      TakeTicket(Queueing(labels, ready, locks), o);
    }

    /** The choice every query of the claim agrees with. */
    ghost predicate Chooses(sc: Scene, locks: Locks, c: Choice) reads this {
      && Picked(weights, labels, tickets, cursors, Ready(sc), locks, c.owner, c.mid, c.next)
      && Preferred(fleet, sc.mails[c.mid].route, Servers(sc, c.mid) - locks.providers, c.provider)
    }

    method Choose(sc: Scene, locks: Locks) returns (choice: Option<Choice>)
      requires Valid() && sc.mails.Keys <= labels.Keys && sc.fleet == fleet
      ensures choice.Some? ==> Chooses(sc, locks, choice.value) && Writable(sc, choice.value.mid, choice.value.provider)
      ensures locks == Locks({}, {}, {}) ==> (choice.None? <==> Ready(sc) == {})
    {
      var ready := Ready(sc);
      var pick, next := SelectFair(ready, locks);
      if pick.None? { return None; }
      var (o, mid) := pick.value;
      var servers := Servers(sc, mid) - locks.providers;
      if servers == {} { return None; }
      var p := SelectProvider(fleet, sc.mails[mid].route, servers);
      ClaimFindsRows(sc, mid, p);
      choice := Some(Choice(o, mid, p, next));
    }

    ghost function See(repo: Repository, usable: (Mid, Pid) -> bool, active: set<Address>, now: Time): Scene reads repo, repo.controls {
      Scene(repo.cfg, repo.controls.cfg, repo.controls.View(), fleet, usable, repo.mails, active, now)
    }

    /** Write the batch of the chosen message for the chosen provider. */
    method Write(repo: Repository, ghost sc: Scene, mid: Mid, p: Pid, token: Token, active: set<Address>, now: Time) returns (batch: set<Rid>)
      requires repo.Valid() && repo.clock <= now && mid in repo.mails && p in fleet && Unused(repo.mails, token)
      requires sc == See(repo, sc.usable, active, now)
      modifies repo, repo.controls
      ensures repo.Valid()
      ensures batch == {} ==> repo.mails == old(repo.mails) && !Writable(sc, mid, p)
      ensures batch != {} ==> Claimed(sc, mid, p, token, batch, repo.mails)
    {
      var allowance;
      allowance, batch := repo.Claim(mid, p, token, active, fleet[p].timeout, now);
    }

    /** Write the chosen batch and take the turn together. */
    method Commit(repo: Repository, ghost sc: Scene, ghost ready: set<Mid>, ghost locks: Locks, c: Choice, token: Token, active: set<Address>, now: Time) returns (batch: set<Rid>)
      requires Valid() && Picked(weights, labels, tickets, cursors, ready, locks, c.owner, c.mid, c.next) && c.provider in fleet && c.mid in repo.mails
      requires repo.Valid() && repo.clock <= now && Unused(repo.mails, token) && sc == See(repo, sc.usable, active, now)
      modifies this, repo, repo.controls
      ensures Valid() && repo.Valid() && labels == old(labels)
      ensures batch == {} ==> repo.mails == old(repo.mails) && tickets == old(tickets) && cursors == old(cursors) && served == old(served) && !Writable(sc, c.mid, c.provider)
      ensures batch != {} ==>
        && Claimed(sc, c.mid, c.provider, token, batch, repo.mails)
        && F.TurnTaken(old(tickets), tickets, c.owner) && cursors == old(cursors)[c.owner := c.next]
        && served == old(served) + [c.owner] && readies == old(readies) + [Queueing(labels, ready, locks)]
    {
      batch := Write(repo, sc, c.mid, c.provider, token, active, now);
      if batch != {} {
        TakeTurn(ready, locks, c.owner, c.mid, c.next);
      }
    }

    /** One claim, from the choice of the owner to the written batch; `sc` is what its queries
        saw.  Without a lock held by anybody else it finds work exactly when some message is
        ready. */
    method Claim(repo: Repository, usable: (Mid, Pid) -> bool, locks: Locks, token: Token, active: set<Address>, now: Time)
      returns (choice: Option<Choice>, batch: set<Rid>, ghost sc: Scene)
      requires Valid() && repo.Valid() && repo.mails.Keys <= labels.Keys && repo.clock <= now && Unused(repo.mails, token)
      modifies this, repo, repo.controls
      ensures Valid() && repo.Valid() && labels == old(labels) && sc == old(See(repo, usable, active, now))
      ensures locks == Locks({}, {}, {}) ==> (choice.None? <==> Ready(sc) == {})
      ensures choice.None? ==> repo.mails == old(repo.mails) && tickets == old(tickets) && cursors == old(cursors) && served == old(served)
      ensures choice.Some? ==>
        && old(Chooses(sc, locks, choice.value))
        && Claimed(sc, choice.value.mid, choice.value.provider, token, batch, repo.mails)
        && F.TurnTaken(old(tickets), tickets, choice.value.owner)
        && cursors == old(cursors)[choice.value.owner := choice.value.next]
        && served == old(served) + [choice.value.owner] && readies == old(readies) + [Queueing(labels, Ready(sc), locks)]
        && choice.value.owner !in locks.owners && choice.value.mid !in locks.messages && choice.value.provider !in locks.providers
    {
      batch := {};
      var scene := Scene(repo.cfg, repo.controls.cfg, C.State(repo.controls.jobs, repo.controls.health, repo.controls.clock), fleet, usable, repo.mails, active, now);
      sc := scene;
      choice := Choose(scene, locks);
      if choice.Some? { batch := Commit(repo, sc, Ready(sc), locks, choice.value, token, active, now); }
    }

    /** Over the whole life of the dispatcher: while an owner has ready work nobody holds, it
        is passed over fewer times in a row than there are owners. */
    lemma OwnersTakeTurns(i: nat, j: nat, o: F.Owner)
      requires Valid() && i <= j <= |served| && |turns| == |served| + 1 && |readies| == |served|
      requires o in turns[i] && forall t | i <= t < j :: o in readies[t] && served[t] != o
      ensures j - i < |turns[j]|
    {
      WindowOfTurns(turns, readies, served, i, j);
      F.OwnerNotStarved(turns[i..j + 1], readies[i..j], served[i..j], o);
    }

    /** And within an owner, a stream with ready work is passed over at most total minus its
        weight times in a row. */
    lemma StreamsTakeTurns(o: F.Owner, i: nat, j: nat, l: nat)
      requires Valid() && o in rides && l < |weights(o)|
      requires i <= j <= |rides[o].lanes| == |rides[o].eligible|
      requires forall t | i <= t < j :: l in rides[o].eligible[t] && rides[o].lanes[t] != l
      ensures j - i <= F.Sum(weights(o)) - weights(o)[l]
    {
      LaneWindow(weights(o), rides[o], cursors[o], i, j, l);
    }
  }
}
