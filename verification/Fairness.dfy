/** Fair selection: owners take turns by ticket, and within an owner the message streams
    share a weighted wheel.  The wheel is a closed formula; here it is shown to be the walk
    over the weight-expanded slots, and starvation is bounded. */
module Fairness {
  import opened Options

  /** The recipients one claim may take. */
  const FAIR_RECIPIENT_QUANTUM: nat := 16

  /** Lane i owns weights[i] consecutive slots, in lane order. */
  ghost predicate Wheel(weights: seq<nat>) {
    weights != [] && forall i :: 0 <= i < |weights| ==> weights[i] >= 1
  }

  function Sum(weights: seq<nat>): nat {
    if weights == [] then 0 else Sum(weights[..|weights| - 1]) + weights[|weights| - 1]
  }

  /** The first slot of a lane. */
  function First(weights: seq<nat>, i: nat): nat
    requires i <= |weights|
  {
    Sum(weights[..i])
  }

  /** Turns until the lane's next slot, from the given cursor. */
  function Distance(weights: seq<nat>, i: nat, cursor: nat): nat
    requires i < |weights| && Sum(weights) > 0
  {
    var total := Sum(weights);
    var first := First(weights, i);
    var pos := cursor % total;
    if first <= pos < first + weights[i] then 0 else (first - pos + total) % total
  }

  /** The slot at the given offset from the cursor belongs to the lane. */
  ghost predicate Owns(weights: seq<nat>, i: nat, slot: nat)
    requires i < |weights|
  {
    First(weights, i) <= slot < First(weights, i) + weights[i]
  }

  function SlotAt(weights: seq<nat>, cursor: nat, d: nat): nat
    requires Sum(weights) > 0
  {
    (cursor + d) % Sum(weights)
  }

  // ---- Slots partition the wheel ----

  lemma {:induction false} SumSplits(weights: seq<nat>, i: nat)
    requires i < |weights|
    ensures First(weights, i + 1) == First(weights, i) + weights[i]
  {
    assert weights[..i + 1][..i] == weights[..i];
  }

  lemma {:induction false} FirstMonotone(weights: seq<nat>, i: nat, j: nat)
    requires i <= j <= |weights|
    ensures First(weights, i) <= First(weights, j)
    decreases j
  {
    if i < j {
      FirstMonotone(weights, i, j - 1);
      SumSplits(weights, j - 1);
    }
  }

  lemma LaneEnds(weights: seq<nat>, i: nat)
    requires i < |weights|
    ensures First(weights, i) + weights[i] <= Sum(weights)
  {
    SumSplits(weights, i);
    FirstMonotone(weights, i + 1, |weights|);
    assert weights[..|weights|] == weights;
  }

  /** The lane a slot belongs to. */
  function LaneOf(weights: seq<nat>, n: nat, slot: nat): nat
    requires 0 < n <= |weights|
  {
    if n == 1 || slot >= First(weights, n - 1) then n - 1 else LaneOf(weights, n - 1, slot)
  }

  lemma {:induction false} LaneOfOwns(weights: seq<nat>, n: nat, slot: nat)
    requires 0 < n <= |weights| && slot < First(weights, n)
    ensures LaneOf(weights, n, slot) < n && Owns(weights, LaneOf(weights, n, slot), slot)
  {
    SumSplits(weights, n - 1);
    if n > 1 && slot < First(weights, n - 1) {
      LaneOfOwns(weights, n - 1, slot);
    }
  }

  lemma OneOwner(weights: seq<nat>, i: nat, j: nat, slot: nat)
    requires i < |weights| && j < |weights| && Owns(weights, i, slot) && Owns(weights, j, slot)
    ensures i == j
  {
    SumSplits(weights, i);
    SumSplits(weights, j);
    if i < j { FirstMonotone(weights, i + 1, j); }
    if j < i { FirstMonotone(weights, j + 1, i); }
  }

  // ---- The closed form is the walk ----

  lemma WrapOnce(x: nat, total: nat)
    requires 0 < total && x < 2 * total
    ensures x % total == if x < total then x else x - total
  {
    if x >= total {
      assert x == total + (x - total);
      assert (x - total) % total == x - total;
      ModShift(x - total, total);
    }
  }

  lemma ModShift(y: nat, total: nat)
    requires 0 < total
    ensures (y + total) % total == y % total
  {
    var q, r := y / total, y % total;
    assert y + total == (q + 1) * total + r;
    ModUnique(y + total, total, q + 1, r);
  }

  lemma MulGap(a: nat, b: nat, t: nat)
    requires a < b
    ensures a * t + t <= b * t
  {
    assert b * t == a * t + (b - a) * t;
    assert (b - a) * t == (b - a - 1) * t + t;
  }

  lemma ModUnique(x: nat, total: nat, q: nat, r: nat)
    requires 0 < total && x == q * total + r && r < total
    ensures x % total == r
  {
    var p, s := x / total, x % total;
    DivMod(x, total);
    if p < q { MulGap(p, q, total); }
    if q < p { MulGap(q, p, total); }
  }

  lemma DivMod(x: nat, total: nat)
    requires 0 < total
    ensures x == x / total * total + x % total && x % total < total
  {
  }

  lemma ModBase(cursor: nat, d: nat, total: nat)
    requires 0 < total && d < total
    ensures (cursor + d) % total == if cursor % total + d < total then cursor % total + d else cursor % total + d - total
  {
    var q, pos := cursor / total, cursor % total;
    if pos + d < total {
      ModUnique(cursor + d, total, q, pos + d);
    } else {
      assert cursor + d == (q + 1) * total + (pos + d - total);
      ModUnique(cursor + d, total, q + 1, pos + d - total);
    }
  }

  /** The three cases hidden in the modular expression. */
  lemma DistanceCases(weights: seq<nat>, i: nat, cursor: nat)
    requires Wheel(weights) && i < |weights|
    ensures Sum(weights) > 0
    ensures var total, first, pos := Sum(weights), First(weights, i), cursor % Sum(weights);
      Distance(weights, i, cursor) ==
        if pos < first then first - pos
        else if pos < first + weights[i] then 0
        else first + total - pos
    ensures Distance(weights, i, cursor) <= Sum(weights) - weights[i]
  {
    LaneEnds(weights, i);
    var total, first := Sum(weights), First(weights, i);
    var pos := cursor % total;
    if pos < first || pos >= first + weights[i] {
      WrapOnce(first + total - pos, total);
    }
  }

  /** The lane's slot is reached exactly at its distance, and not before. */
  lemma DistanceReaches(weights: seq<nat>, i: nat, cursor: nat)
    requires Wheel(weights) && i < |weights|
    ensures Sum(weights) > 0 && Distance(weights, i, cursor) < Sum(weights)
    ensures Owns(weights, i, SlotAt(weights, cursor, Distance(weights, i, cursor)))
    ensures forall d :: 0 <= d < Sum(weights) && Owns(weights, i, SlotAt(weights, cursor, d)) ==> Distance(weights, i, cursor) <= d
  {
    DistanceCases(weights, i, cursor);
    LaneEnds(weights, i);
    var total := Sum(weights);
    ModBase(cursor, Distance(weights, i, cursor), total);
    forall d | 0 <= d < total && Owns(weights, i, SlotAt(weights, cursor, d)) ensures Distance(weights, i, cursor) <= d {
      ModBase(cursor, d, total);
    }
  }

  /** The reference: step along the slots until one belongs to an eligible lane. */
  ghost function Walk(weights: seq<nat>, eligible: set<nat>, cursor: nat, d: nat): Option<nat>
    requires Sum(weights) > 0 && weights != [] && d <= Sum(weights)
    decreases Sum(weights) - d
  {
    if d == Sum(weights) then None
    else if LaneOf(weights, |weights|, SlotAt(weights, cursor, d)) in eligible then Some(d)
    else Walk(weights, eligible, cursor, d + 1)
  }

  lemma SlotLane(weights: seq<nat>, cursor: nat, d: nat)
    requires Wheel(weights) && Sum(weights) > 0
    ensures var lane := LaneOf(weights, |weights|, SlotAt(weights, cursor, d)); lane < |weights| && Owns(weights, lane, SlotAt(weights, cursor, d))
  {
    assert weights[..|weights|] == weights;
    LaneOfOwns(weights, |weights|, SlotAt(weights, cursor, d));
  }

  lemma {:induction false} WalkFinds(weights: seq<nat>, eligible: set<nat>, cursor: nat, d: nat, i: nat)
    requires Wheel(weights) && Sum(weights) > 0 && i in eligible && i < |weights|
    requires (forall j :: j in eligible ==> j < |weights|) && (forall j :: j in eligible ==> Distance(weights, i, cursor) <= Distance(weights, j, cursor))
    requires d <= Distance(weights, i, cursor)
    ensures Walk(weights, eligible, cursor, d) == Some(Distance(weights, i, cursor))
    ensures LaneOf(weights, |weights|, SlotAt(weights, cursor, Distance(weights, i, cursor))) == i
    decreases Sum(weights) - d
  {
    DistanceReaches(weights, i, cursor);
    SlotLane(weights, cursor, Distance(weights, i, cursor));
    OneOwner(weights, LaneOf(weights, |weights|, SlotAt(weights, cursor, Distance(weights, i, cursor))), i,
             SlotAt(weights, cursor, Distance(weights, i, cursor)));
    if d < Distance(weights, i, cursor) {
      SlotLane(weights, cursor, d);
      var lane := LaneOf(weights, |weights|, SlotAt(weights, cursor, d));
      if lane in eligible {
        DistanceReaches(weights, lane, cursor);
      }
      WalkFinds(weights, eligible, cursor, d + 1, i);
    }
  }

  lemma SumPositive(weights: seq<nat>)
    requires Wheel(weights)
    ensures Sum(weights) > 0
  {
    LaneEnds(weights, 0);
  }

  /** Choose the eligible lane with the least distance, and the cursor after it: exactly
      what walking the slots from the cursor finds. */
  method SelectLane(weights: seq<nat>, eligible: set<nat>, cursor: nat) returns (lane: nat, next: nat)
    requires Wheel(weights) && eligible != {} && forall j :: j in eligible ==> j < |weights|
    ensures lane in eligible && Sum(weights) > 0 && Chosen(weights, eligible, cursor, lane)
    ensures Walk(weights, eligible, cursor, 0) == Some(Distance(weights, lane, cursor))
    ensures lane == LaneOf(weights, |weights|, SlotAt(weights, cursor, Distance(weights, lane, cursor)))
    ensures next == SlotAt(weights, cursor, Distance(weights, lane, cursor) + 1)
  {
    SumPositive(weights);
    var best: Option<nat> := None;
    var i := 0;
    while i < |weights|
      invariant 0 <= i <= |weights|
      invariant best.None? ==> forall j :: j in eligible ==> j >= i
      invariant best.Some? ==> best.value in eligible && best.value < i
      invariant best.Some? ==>
        forall j :: j in eligible && j < i ==> Distance(weights, best.value, cursor) <= Distance(weights, j, cursor)
    {
      if i in eligible && (best.None? || Distance(weights, i, cursor) < Distance(weights, best.value, cursor)) {
        best := Some(i);
      }
      i := i + 1;
    }
    ghost var some :| some in eligible;
    lane := best.value;
    next := (cursor + Distance(weights, lane, cursor) + 1) % Sum(weights);
    WalkFinds(weights, eligible, cursor, 0, lane);
  }

  // ---- A lane that stays eligible is served soon ----

  ghost predicate Chosen(weights: seq<nat>, eligible: set<nat>, cursor: nat, lane: nat)
    requires Sum(weights) > 0
  {
    && lane in eligible && lane < |weights|
    && forall j :: j in eligible && j < |weights| ==> Distance(weights, lane, cursor) <= Distance(weights, j, cursor)
  }

  /** Serving another lane brings the waiting one closer by the turns spent. */
  lemma Approaches(weights: seq<nat>, l: nat, cursor: nat, d: nat)
    requires Wheel(weights) && l < |weights| && Sum(weights) > 0 && d < Distance(weights, l, cursor)
    ensures Distance(weights, l, SlotAt(weights, cursor, d + 1)) == Distance(weights, l, cursor) - d - 1
  {
    var total := Sum(weights);
    DistanceCases(weights, l, cursor);
    LaneEnds(weights, l);
    ModBase(cursor, d + 1, total);
    var next := SlotAt(weights, cursor, d + 1);
    assert next < total;
    ModUnique(next, total, 0, next);
    DistanceCases(weights, l, next);
  }

  lemma DistinctDistances(weights: seq<nat>, i: nat, j: nat, cursor: nat)
    requires Wheel(weights) && i < |weights| && j < |weights| && Sum(weights) > 0
    requires Distance(weights, i, cursor) == Distance(weights, j, cursor)
    ensures i == j
  {
    DistanceReaches(weights, i, cursor);
    DistanceReaches(weights, j, cursor);
    OneOwner(weights, i, j, SlotAt(weights, cursor, Distance(weights, i, cursor)));
  }

  /** A lane eligible at every claim of its owner is passed over at most total minus its
      weight times in a row. */
  lemma {:induction false} LaneNotStarved(weights: seq<nat>, l: nat, cursors: seq<nat>, eligible: seq<set<nat>>, lanes: seq<nat>)
    requires Wheel(weights) && Sum(weights) > 0 && l < |weights|
    requires |cursors| == |lanes| + 1 && |eligible| == |lanes|
    requires forall t :: 0 <= t < |lanes| ==>
      && Chosen(weights, eligible[t], cursors[t], lanes[t])
      && l in eligible[t] && lanes[t] != l
      && cursors[t + 1] == SlotAt(weights, cursors[t], Distance(weights, lanes[t], cursors[t]) + 1)
    ensures |lanes| <= Distance(weights, l, cursors[0])
    ensures |lanes| <= Sum(weights) - weights[l]
    decreases |lanes|
  {
    DistanceCases(weights, l, cursors[0]);
    if |lanes| > 0 {
      var d := Distance(weights, lanes[0], cursors[0]);
      assert Chosen(weights, eligible[0], cursors[0], lanes[0]);
      if d == Distance(weights, l, cursors[0]) {
        DistinctDistances(weights, lanes[0], l, cursors[0]);
      }
      Approaches(weights, l, cursors[0], d);
      forall t | 0 <= t < |lanes[1..]| ensures
        && Chosen(weights, eligible[1..][t], cursors[1..][t], lanes[1..][t])
        && l in eligible[1..][t] && lanes[1..][t] != l
        && cursors[1..][t + 1] == SlotAt(weights, cursors[1..][t], Distance(weights, lanes[1..][t], cursors[1..][t]) + 1)
      {
        assert Chosen(weights, eligible[t + 1], cursors[t + 1], lanes[t + 1]);
      }
      LaneNotStarved(weights, l, cursors[1..], eligible[1..], lanes[1..]);
    }
  }

  // ---- Owners ----

  type Owner = nat

  /** The owner with the oldest ticket goes first; ties fall to the smaller key. */
  ghost predicate GoesFirst(tickets: map<Owner, nat>, eligible: set<Owner>, o: Owner) {
    && o in eligible && o in tickets
    && forall p :: p in eligible && p in tickets ==> tickets[o] < tickets[p] || (tickets[o] == tickets[p] && o <= p)
  }

  /** A committed claim takes a ticket above all others; owners may join with ticket zero. */
  ghost predicate TurnTaken(before: map<Owner, nat>, after: map<Owner, nat>, o: Owner) {
    && before.Keys <= after.Keys && o in before
    && (forall p :: p in before && p != o ==> after[p] == before[p])
    && (forall p :: p in before ==> before[p] < after[o])
  }

  ghost predicate Turns(tickets: seq<map<Owner, nat>>, eligible: seq<set<Owner>>, served: seq<Owner>) {
    && |tickets| == |served| + 1 && |eligible| == |served|
    && forall t :: 0 <= t < |served| ==>
         GoesFirst(tickets[t], eligible[t], served[t]) && TurnTaken(tickets[t], tickets[t + 1], served[t])
  }

  lemma {:induction false} StaysBehind(tickets: seq<map<Owner, nat>>, eligible: seq<set<Owner>>, served: seq<Owner>, i: nat, j: nat, o: Owner, p: Owner)
    requires Turns(tickets, eligible, served) && i < j <= |served| && o != p
    requires served[i] == p && o in tickets[i]
    requires forall t :: i < t < j ==> served[t] != o
    ensures o in tickets[j] && p in tickets[j] && tickets[j][o] < tickets[j][p]
    decreases j
  {
    assert TurnTaken(tickets[j - 1], tickets[j], served[j - 1]);
    if i + 1 < j {
      StaysBehind(tickets, eligible, served, i, j - 1, o, p);
    }
  }

  /** Between two turns of one owner, every owner that stayed eligible had a turn. */
  lemma NobodyServedTwice(tickets: seq<map<Owner, nat>>, eligible: seq<set<Owner>>, served: seq<Owner>, i: nat, j: nat, o: Owner)
    requires Turns(tickets, eligible, served) && i < j < |served|
    requires served[i] == served[j] && served[i] != o && o in tickets[i]
    requires forall t :: i <= t <= j ==> o in eligible[t]
    ensures exists t :: i < t < j && served[t] == o
  {
    if forall t :: i < t < j ==> served[t] != o {
      StaysBehind(tickets, eligible, served, i, j, o, served[i]);
    }
  }

  lemma {:induction false} DistinctFit(xs: seq<Owner>, s: set<Owner>)
    requires (forall i, j :: 0 <= i < j < |xs| ==> xs[i] != xs[j]) && (forall i :: 0 <= i < |xs| ==> xs[i] in s)
    ensures |xs| <= |s|
    decreases |xs|
  {
    if xs != [] {
      var x := xs[|xs| - 1];
      DistinctFit(xs[..|xs| - 1], s - {x});
    }
  }

  /** An eligible owner is served within one turn of every owner known at the end. */
  lemma OwnerNotStarved(tickets: seq<map<Owner, nat>>, eligible: seq<set<Owner>>, served: seq<Owner>, o: Owner)
    requires Turns(tickets, eligible, served) && o in tickets[0]
    requires forall t :: 0 <= t < |served| ==> o in eligible[t] && served[t] != o
    ensures |served| < |tickets[|served|]|
  {
    var last := |served|;
    forall t | 0 <= t <= last ensures o in tickets[t] && tickets[t].Keys <= tickets[last].Keys {
      KeysGrow(tickets, eligible, served, 0, t);
      KeysGrow(tickets, eligible, served, t, last);
    }
    forall i, j | 0 <= i < j < last ensures served[i] != served[j] {
      if served[i] == served[j] {
        NobodyServedTwice(tickets, eligible, served, i, j, o);
      }
    }
    forall t | 0 <= t < last ensures served[t] in tickets[last].Keys - {o} {
      assert GoesFirst(tickets[t], eligible[t], served[t]);
    }
    DistinctFit(served, tickets[last].Keys - {o});
  }

  lemma {:induction false} KeysGrow(tickets: seq<map<Owner, nat>>, eligible: seq<set<Owner>>, served: seq<Owner>, i: nat, j: nat)
    requires Turns(tickets, eligible, served) && i <= j <= |served|
    ensures tickets[i].Keys <= tickets[j].Keys
    decreases j
  {
    if i < j {
      KeysGrow(tickets, eligible, served, i, j - 1);
      assert TurnTaken(tickets[j - 1], tickets[j], served[j - 1]);
    }
  }
}
