/** Runtime, offline and auxiliary ownership.  Database sessions take advisory locks, check
    and insert ownership rows statement by statement, and can die between any two
    statements or right after a commit they never heard of.  Rows outlive sessions; locks
    do not. */
module Ownership {
  import opened Options

  type Session = nat
  type Id = nat
  type Slot = nat
  type Key = int

  datatype Owner = Owner(id: Id, offline: bool, session: Session)
  datatype Aux = Aux(slot: Slot, key: Key, session: Session)

  /** How far a session has come.  Pending and Leaving phases hold an uncommitted insert or
      delete. */
  datatype Phase =
    | RtAdmitted | RtLocked | RtPending(id: Id)
    | OffAdmitted | OffNoOwner | OffClear | OffLocked | OffPending(id: Id)
    | Owning(id: Id, offline: bool) | Leaving(id: Id, offline: bool)
    | AxAdmitted | AxClear | AxKeyed(id: Id, key: Key) | AxPending(id: Id, slot: Slot, key: Key)
    | AxOwning(id: Id, key: Key) | AxLeaving(id: Id, key: Key)
    | StAdmitted | StLocked | StPending(id: Id)
    | SaAdmitted | SaFound(id: Id, key: Key) | SaLocked(id: Id, key: Key) | SaPending(id: Id, key: Key)
    | Dead

  datatype Task = Runtime | Offline | Auxiliary | ReleaseStaleOwner | ReleaseStaleAuxiliary

  datatype World = World(owner: Option<Owner>, aux: map<Id, Aux>, sessions: map<Session, Phase>)

  // ---- Locks, as held by a phase ----

  /** Migration admission, exclusive. */
  predicate HoldsExclusive(p: Phase) {
    || p.OffAdmitted? || p.OffNoOwner? || p.OffClear? || p.OffLocked? || p.OffPending?
    || (p.Owning? && p.offline) || (p.Leaving? && p.offline)
    || p.StAdmitted? || p.StLocked? || p.StPending?
  }

  /** Migration admission, shared. */
  predicate HoldsShared(p: Phase) {
    || p.RtAdmitted? || p.RtLocked? || p.RtPending?
    || p.AxAdmitted? || p.AxClear? || p.AxKeyed? || p.AxPending? || p.AxOwning? || p.AxLeaving?
    || p.SaAdmitted? || p.SaFound? || p.SaLocked? || p.SaPending?
  }

  /** The runtime session lock. */
  predicate HoldsRuntime(p: Phase) {
    || p.RtLocked? || p.RtPending? || p.OffLocked? || p.OffPending? || p.Owning? || p.Leaving?
    || p.StLocked? || p.StPending?
  }

  /** The lock of one auxiliary row. */
  function KeyOf(p: Phase): Option<Key> {
    if p.AxKeyed? || p.AxPending? || p.AxOwning? || p.AxLeaving? || p.SaLocked? || p.SaPending? then Some(p.key) else None
  }

  /** The row lock on an auxiliary row. */
  function RowOf(p: Phase): Option<Id> {
    if p.SaFound? || p.SaLocked? || p.SaPending? || p.AxLeaving? then Some(p.id) else None
  }

  /** The slot of an uncommitted insert. */
  function SlotOf(p: Phase): Option<Slot> { if p.AxPending? then Some(p.slot) else None }

  /** The new identifier of an auxiliary owner, until its row exists. */
  function NewIdOf(p: Phase): Option<Id> { if p.AxKeyed? || p.AxPending? then Some(p.id) else None }

  predicate ExclusiveFree(w: World) { forall s | s in w.sessions :: !HoldsExclusive(w.sessions[s]) }
  predicate SharedFree(w: World) { forall s | s in w.sessions :: !HoldsShared(w.sessions[s]) }
  predicate RuntimeFree(w: World) { forall s | s in w.sessions :: !HoldsRuntime(w.sessions[s]) }
  predicate KeyFree(w: World, k: Key) { forall s | s in w.sessions :: KeyOf(w.sessions[s]) != Some(k) }
  predicate RowFree(w: World, id: Id) { forall s | s in w.sessions :: RowOf(w.sessions[s]) != Some(id) }
  predicate SlotFree(w: World, slot: Slot) { forall s | s in w.sessions :: SlotOf(w.sessions[s]) != Some(slot) }

  // ---- Steps ----

  datatype Step =
    | Begin(s: Session, task: Task)
    | Go(s: Session, id: Id, slot: Slot, key: Key)
    | Lose(s: Session)

  function Put(w: World, s: Session, p: Phase): World { w.(sessions := w.sessions[s := p]) }

  function First(w: World, task: Task): Phase {
    match task
    case Runtime => if ExclusiveFree(w) then RtAdmitted else Dead
    case Auxiliary => if ExclusiveFree(w) then AxAdmitted else Dead
    case ReleaseStaleAuxiliary => if ExclusiveFree(w) then SaAdmitted else Dead
    case Offline => if ExclusiveFree(w) && SharedFree(w) then OffAdmitted else Dead
    case ReleaseStaleOwner => if ExclusiveFree(w) && SharedFree(w) then StAdmitted else Dead
  }

  predicate SlotTaken(w: World, id: Id, slot: Slot, key: Key) {
    id in w.aux || exists i | i in w.aux :: w.aux[i].slot == slot || w.aux[i].key == key
  }

  /** The next statement of a session that does not commit. */
  function Statement(w: World, s: Session, p: Phase, id: Id, slot: Slot, key: Key): Phase {
    match p
    case RtAdmitted => if RuntimeFree(w) then RtLocked else Dead
    case RtLocked => if w.owner.None? then RtPending(id) else Dead
    case OffAdmitted => if w.owner.None? then OffNoOwner else Dead
    case OffNoOwner => if w.aux == map[] then OffClear else Dead
    case OffClear => if RuntimeFree(w) then OffLocked else Dead
    case OffLocked => if w.owner.None? then OffPending(id) else Dead
    case Owning(own, offline) => Leaving(own, offline)
    case AxAdmitted => if w.owner.Some? && w.owner.value.offline then Dead else AxClear
    case AxClear => if KeyFree(w, key) then AxKeyed(id, key) else Dead
    case AxKeyed(own, k) =>
      if SlotTaken(w, own, slot, k) then Dead
      else if SlotFree(w, slot) then AxPending(own, slot, k)
      else p  // waits for the other insert to commit or abort
    case AxOwning(own, k) => if RowFree(w, own) then AxLeaving(own, k) else p
    case StAdmitted => if RuntimeFree(w) then StLocked else Dead
    case StLocked => if w.owner.Some? && w.owner.value.id == id then StPending(id) else Dead
    case SaAdmitted =>
      if id !in w.aux then Dead
      else if RowFree(w, id) then SaFound(id, w.aux[id].key)
      else p
    case SaFound(own, k) => if KeyFree(w, k) then SaLocked(own, k) else Dead
    case SaLocked(own, k) => SaPending(own, k)
    case _ => p
  }

  predicate Commits(p: Phase) {
    p.RtPending? || p.OffPending? || p.Leaving? || p.AxPending? || p.AxLeaving? || p.StPending? || p.SaPending?
  }

  function Commit(w: World, s: Session, p: Phase): World
    requires Commits(p)
  {
    match p
    case RtPending(id) => Put(w, s, Owning(id, false)).(owner := Some(Owner(id, false, s)))
    case OffPending(id) => Put(w, s, Owning(id, true)).(owner := Some(Owner(id, true, s)))
    case Leaving(id, offline) => Put(w, s, Dead).(owner := None)
    case StPending(id) => Put(w, s, Dead).(owner := None)
    case AxPending(id, slot, key) => Put(w, s, AxOwning(id, key)).(aux := w.aux[id := Aux(slot, key, s)])
    case AxLeaving(id, key) => Put(w, s, Dead).(aux := w.aux - {id})
    case SaPending(id, key) => Put(w, s, Dead).(aux := w.aux - {id})
  }

  function Next(w: World, step: Step): World {
    match step
    case Begin(s, task) => if s in w.sessions then w else Put(w, s, First(w, task))
    case Lose(s) => if s in w.sessions then Put(w, s, Dead) else w
    case Go(s, id, slot, key) =>
      if s !in w.sessions then w
      else if Commits(w.sessions[s]) then Commit(w, s, w.sessions[s])
      else Put(w, s, Statement(w, s, w.sessions[s], id, slot, key))
  }

  /** Identifiers are random: a session never draws one that another is about to use. */
  predicate Legal(w: World, step: Step) {
    step.Go? && step.s in w.sessions && w.sessions[step.s].AxClear? ==>
      forall t | t in w.sessions :: NewIdOf(w.sessions[t]) != Some(step.id)
  }

  // ---- Invariant ----

  /** Two sessions never hold conflicting locks. */
  predicate Compatible(p: Phase, q: Phase) {
    && !(HoldsExclusive(p) && (HoldsExclusive(q) || HoldsShared(q)))
    && !(HoldsExclusive(q) && HoldsShared(p))
    && !(HoldsRuntime(p) && HoldsRuntime(q))
    && (KeyOf(p).Some? ==> KeyOf(p) != KeyOf(q))
    && (RowOf(p).Some? ==> RowOf(p) != RowOf(q))
    && (SlotOf(p).Some? ==> SlotOf(p) != SlotOf(q))
    && (NewIdOf(p).Some? ==> NewIdOf(p) != NewIdOf(q))
  }

  /** What a session has checked stays true for as long as it relies on it. */
  predicate PhaseOk(w: World, s: Session, p: Phase) {
    && (p.RtPending? || p.OffNoOwner? || p.OffClear? || p.OffLocked? || p.OffPending? ==> w.owner.None?)
    && (p.OffClear? || p.OffLocked? || p.OffPending? ==> w.aux == map[])
    && (p.Owning? || p.Leaving? ==> w.owner == Some(Owner(p.id, p.offline, s)))
    && (p.AxClear? || p.AxKeyed? || p.AxPending? ==> NoOffline(w))
    && (p.AxPending? ==> !SlotTaken(w, p.id, p.slot, p.key))
    && (p.AxOwning? || p.AxLeaving? ==> p.id in w.aux && w.aux[p.id].session == s && w.aux[p.id].key == p.key)
    && (p.StPending? ==> w.owner.Some? && w.owner.value.id == p.id && SessionDead(w, w.owner.value.session))
    && (p.SaFound? || p.SaLocked? || p.SaPending? ==> p.id in w.aux && w.aux[p.id].key == p.key)
    && (p.SaLocked? || p.SaPending? ==> SessionDead(w, w.aux[p.id].session))
  }

  predicate NoOffline(w: World) { w.owner.Some? ==> !w.owner.value.offline }

  predicate SessionDead(w: World, s: Session) { s in w.sessions && w.sessions[s] == Dead }

  /** A row belongs to the session that inserted it, as long as that session lives. */
  ghost predicate RowsOk(w: World) {
    && (w.owner.Some? ==>
          var o := w.owner.value;
          o.session in w.sessions && w.sessions[o.session] in {Owning(o.id, o.offline), Leaving(o.id, o.offline), Dead})
    && (forall id | id in w.aux ::
          var a := w.aux[id];
          a.session in w.sessions && w.sessions[a.session] in {AxOwning(id, a.key), AxLeaving(id, a.key), Dead})
  }

  /** The promise: offline work excludes everything else, and slots are exclusive. */
  ghost predicate Exclusion(w: World) {
    && (w.owner.Some? && w.owner.value.offline ==> w.aux == map[])
    && (forall i, j | i in w.aux && j in w.aux && i != j :: w.aux[i].slot != w.aux[j].slot && w.aux[i].key != w.aux[j].key)
  }

  ghost predicate LocksOk(ps: map<Session, Phase>) {
    forall s, t | s in ps && t in ps && s != t :: Compatible(ps[s], ps[t])
  }

  ghost predicate PhasesOk(w: World) { forall s | s in w.sessions :: PhaseOk(w, s, w.sessions[s]) }

  ghost predicate Inv(w: World) { LocksOk(w.sessions) && PhasesOk(w) && RowsOk(w) && Exclusion(w) }

  lemma LocksPut(ps: map<Session, Phase>, s: Session, p: Phase)
    requires LocksOk(ps) && forall t | t in ps && t != s :: Compatible(p, ps[t])
    ensures LocksOk(ps[s := p])
  {
  }

  /** Moving one session without touching a row. */
  lemma PutKeeps(w: World, s: Session, p: Phase)
    requires Inv(w)
    requires forall t | t in w.sessions && t != s :: Compatible(p, w.sessions[t])
    requires PhaseOk(Put(w, s, p), s, p)
    requires s in w.sessions ==> w.sessions[s] != Dead || p == Dead
    requires w.owner.Some? && w.owner.value.session == s ==> p in {Owning(w.owner.value.id, w.owner.value.offline), Leaving(w.owner.value.id, w.owner.value.offline), Dead}
    requires forall id | id in w.aux && w.aux[id].session == s :: p in {AxOwning(id, w.aux[id].key), AxLeaving(id, w.aux[id].key), Dead}
    ensures Inv(Put(w, s, p))
  {
    var w' := Put(w, s, p);
    LocksPut(w.sessions, s, p);
    forall t | t in w'.sessions ensures PhaseOk(w', t, w'.sessions[t]) {
      if t != s { assert PhaseOk(w, t, w.sessions[t]); }
    }
  }

  lemma DieKeeps(w: World, s: Session)
    requires Inv(w) && s in w.sessions
    ensures Inv(Put(w, s, Dead))
  {
    PutKeeps(w, s, Dead);
  }

  /** A session has no rows before it owns one. */
  lemma NoRowsYet(w: World, s: Session)
    requires RowsOk(w)
    requires s in w.sessions ==> w.sessions[s] != Dead && !w.sessions[s].Owning? && !w.sessions[s].Leaving? && !w.sessions[s].AxOwning? && !w.sessions[s].AxLeaving?
    ensures w.owner.Some? ==> w.owner.value.session != s
    ensures forall id | id in w.aux :: w.aux[id].session != s
  {
  }

  lemma BeginKeeps(w: World, s: Session, task: Task)
    requires Inv(w) && s !in w.sessions
    ensures Inv(Put(w, s, First(w, task)))
  {
    NoRowsYet(w, s);
    PutKeeps(w, s, First(w, task));
  }

  /** With the runtime lock in other hands, the owner's session is dead. */
  lemma OwnerIsDead(w: World, s: Session)
    requires Inv(w) && s in w.sessions && HoldsRuntime(w.sessions[s]) && w.owner.Some? && w.owner.value.session != s
    ensures SessionDead(w, w.owner.value.session)
  {
    assert Compatible(w.sessions[s], w.sessions[w.owner.value.session]);
  }

  lemma KeyOwnerIsDead(w: World, id: Id)
    requires Inv(w) && id in w.aux && KeyFree(w, w.aux[id].key)
    ensures SessionDead(w, w.aux[id].session)
  {
    var a := w.aux[id];
    assert KeyOf(w.sessions[a.session]) != Some(a.key);
  }

  lemma StatementKeeps(w: World, s: Session, id: Id, slot: Slot, key: Key)
    requires Inv(w) && s in w.sessions && !Commits(w.sessions[s]) && Legal(w, Go(s, id, slot, key))
    ensures Inv(Put(w, s, Statement(w, s, w.sessions[s], id, slot, key)))
  {
    var p := w.sessions[s];
    var q := Statement(w, s, p, id, slot, key);
    if q == Dead {
      DieKeeps(w, s);
    } else if q == p {
      assert Put(w, s, p) == w;
    } else {
      StatementLocks(w, s, id, slot, key);
      StatementFacts(w, s, id, slot, key);
      if p.Owning? || p.AxOwning? { OwnRows(w, s); } else { NoRowsYet(w, s); }
      PutKeeps(w, s, q);
    }
  }

  /** An owning session has exactly the row it owns. */
  lemma OwnRows(w: World, s: Session)
    requires RowsOk(w) && s in w.sessions && (w.sessions[s].Owning? || w.sessions[s].AxOwning?)
    ensures w.owner.Some? && w.owner.value.session == s ==> w.sessions[s] == Owning(w.owner.value.id, w.owner.value.offline)
    ensures forall id | id in w.aux && w.aux[id].session == s :: w.sessions[s] == AxOwning(id, w.aux[id].key)
  {
  }

  lemma StatementLocks(w: World, s: Session, id: Id, slot: Slot, key: Key)
    requires LocksOk(w.sessions) && s in w.sessions && !Commits(w.sessions[s]) && Legal(w, Go(s, id, slot, key))
    ensures var q := Statement(w, s, w.sessions[s], id, slot, key);
      forall t | t in w.sessions && t != s :: Compatible(q, w.sessions[t])
  {
    var q := Statement(w, s, w.sessions[s], id, slot, key);
    forall t | t in w.sessions && t != s ensures Compatible(q, w.sessions[t]) {
      assert Compatible(w.sessions[s], w.sessions[t]);
    }
  }

  lemma StatementFacts(w: World, s: Session, id: Id, slot: Slot, key: Key)
    requires Inv(w) && s in w.sessions && !Commits(w.sessions[s])
    ensures var q := Statement(w, s, w.sessions[s], id, slot, key); q != w.sessions[s] ==> PhaseOk(Put(w, s, q), s, q)
  {
    var p := w.sessions[s];
    if p.StLocked? && w.owner.Some? { NoRowsYet(w, s); OwnerIsDead(w, s); }
    if p.SaFound? && KeyFree(w, p.key) { NoRowsYet(w, s); FoundRow(w, s); KeyOwnerIsDead(w, p.id); }
    if p.SaLocked? { NoRowsYet(w, s); }
    StatementRows(w, s, id, slot, key);
  }

  lemma FoundRow(w: World, s: Session)
    requires PhasesOk(w) && s in w.sessions && w.sessions[s].SaFound?
    ensures w.sessions[s].id in w.aux && w.aux[w.sessions[s].id].key == w.sessions[s].key
  {
  }

  /** What the statement has just checked, it may rely on. */
  lemma StatementRows(w: World, s: Session, id: Id, slot: Slot, key: Key)
    requires s in w.sessions && !Commits(w.sessions[s]) && PhaseOk(w, s, w.sessions[s])
    requires w.sessions[s].StLocked? && w.owner.Some? ==> w.owner.value.session != s && SessionDead(w, w.owner.value.session)
    requires w.sessions[s].SaFound? && KeyFree(w, w.sessions[s].key) ==>
      w.aux[w.sessions[s].id].session != s && SessionDead(w, w.aux[w.sessions[s].id].session)
    requires w.sessions[s].SaLocked? ==> w.aux[w.sessions[s].id].session != s
    ensures var q := Statement(w, s, w.sessions[s], id, slot, key); q != w.sessions[s] ==> PhaseOk(Put(w, s, q), s, q)
  {
  }

  // ---- Commits ----

  /** Inserting the owner row disturbs nobody: whoever relies on its absence is locked out. */
  lemma OwnerSetOthers(w: World, s: Session, t: Session)
    requires s in w.sessions && t in w.sessions && t != s && (w.sessions[s].OffPending? || w.sessions[s].RtPending?)
    requires PhaseOk(w, s, w.sessions[s]) && PhaseOk(w, t, w.sessions[t]) && Compatible(w.sessions[s], w.sessions[t])
    ensures PhaseOk(Commit(w, s, w.sessions[s]), t, w.sessions[t])
    ensures Compatible(Commit(w, s, w.sessions[s]).sessions[s], w.sessions[t])
  {
  }

  lemma OwnerSetRows(w: World, s: Session)
    requires RowsOk(w) && Exclusion(w) && s in w.sessions && (w.sessions[s].OffPending? || w.sessions[s].RtPending?)
    requires PhaseOk(w, s, w.sessions[s])
    ensures RowsOk(Commit(w, s, w.sessions[s])) && Exclusion(Commit(w, s, w.sessions[s]))
  {
  }

  lemma OwnerCommitKeeps(w: World, s: Session)
    requires Inv(w) && s in w.sessions && (w.sessions[s].OffPending? || w.sessions[s].RtPending?)
    ensures Inv(Commit(w, s, w.sessions[s]))
  {
    var w' := Commit(w, s, w.sessions[s]);
    forall t | t in w.sessions && t != s ensures PhaseOk(w', t, w'.sessions[t]) && Compatible(w'.sessions[s], w'.sessions[t]) {
      OwnerSetOthers(w, s, t);
    }
    LocksPut(w.sessions, s, w'.sessions[s]);
    assert PhaseOk(w, s, w.sessions[s]);
    OwnerSetRows(w, s);
  }

  lemma OwnerGoneOthers(w: World, s: Session, t: Session)
    requires s in w.sessions && t in w.sessions && t != s && (w.sessions[s].Leaving? || w.sessions[s].StPending?)
    requires PhaseOk(w, t, w.sessions[t]) && Compatible(w.sessions[s], w.sessions[t])
    ensures PhaseOk(Commit(w, s, w.sessions[s]), t, w.sessions[t])
  {
  }

  lemma OwnerGoneRows(w: World, s: Session)
    requires RowsOk(w) && Exclusion(w) && s in w.sessions && (w.sessions[s].Leaving? || w.sessions[s].StPending?)
    ensures RowsOk(Commit(w, s, w.sessions[s])) && Exclusion(Commit(w, s, w.sessions[s]))
  {
  }

  lemma OwnerGoneKeeps(w: World, s: Session)
    requires Inv(w) && s in w.sessions && (w.sessions[s].Leaving? || w.sessions[s].StPending?)
    ensures Inv(Commit(w, s, w.sessions[s]))
  {
    var w' := Commit(w, s, w.sessions[s]);
    forall t | t in w.sessions && t != s ensures PhaseOk(w', t, w'.sessions[t]) && Compatible(w'.sessions[s], w'.sessions[t]) {
      OwnerGoneOthers(w, s, t);
    }
    LocksPut(w.sessions, s, w'.sessions[s]);
    assert PhaseOk(w, s, w.sessions[s]);
    OwnerGoneRows(w, s);
  }

  /** Inserting an auxiliary row disturbs nobody: offline sessions are locked out, and
      competing inserts have another slot, key and identifier. */
  lemma AuxSetOthers(w: World, s: Session, t: Session)
    requires s in w.sessions && t in w.sessions && t != s && w.sessions[s].AxPending?
    requires PhaseOk(w, s, w.sessions[s]) && PhaseOk(w, t, w.sessions[t]) && Compatible(w.sessions[s], w.sessions[t])
    ensures PhaseOk(Commit(w, s, w.sessions[s]), t, w.sessions[t])
    ensures Compatible(Commit(w, s, w.sessions[s]).sessions[s], w.sessions[t])
  {
  }

  lemma AuxSetRows(w: World, s: Session)
    requires RowsOk(w) && Exclusion(w) && s in w.sessions && w.sessions[s].AxPending? && PhaseOk(w, s, w.sessions[s])
    ensures RowsOk(Commit(w, s, w.sessions[s])) && Exclusion(Commit(w, s, w.sessions[s]))
  {
  }

  lemma AuxCommitKeeps(w: World, s: Session)
    requires Inv(w) && s in w.sessions && (w.sessions[s].AxPending?)
    ensures Inv(Commit(w, s, w.sessions[s]))
  {
    var w' := Commit(w, s, w.sessions[s]);
    forall t | t in w.sessions && t != s ensures PhaseOk(w', t, w'.sessions[t]) && Compatible(w'.sessions[s], w'.sessions[t]) {
      AuxSetOthers(w, s, t);
    }
    LocksPut(w.sessions, s, w'.sessions[s]);
    assert PhaseOk(w, s, w.sessions[s]);
    AuxSetRows(w, s);
  }

  lemma AuxGoneOthers(w: World, s: Session, t: Session)
    requires s in w.sessions && t in w.sessions && t != s && (w.sessions[s].AxLeaving? || w.sessions[s].SaPending?)
    requires PhaseOk(w, s, w.sessions[s]) && PhaseOk(w, t, w.sessions[t]) && Compatible(w.sessions[s], w.sessions[t])
    ensures PhaseOk(Commit(w, s, w.sessions[s]), t, w.sessions[t])
  {
  }

  lemma AuxGoneRows(w: World, s: Session)
    requires RowsOk(w) && Exclusion(w) && s in w.sessions && (w.sessions[s].AxLeaving? || w.sessions[s].SaPending?)
    requires PhaseOk(w, s, w.sessions[s])
    ensures RowsOk(Commit(w, s, w.sessions[s])) && Exclusion(Commit(w, s, w.sessions[s]))
  {
  }

  lemma AuxGoneKeeps(w: World, s: Session)
    requires Inv(w) && s in w.sessions && (w.sessions[s].AxLeaving? || w.sessions[s].SaPending?)
    ensures Inv(Commit(w, s, w.sessions[s]))
  {
    var w' := Commit(w, s, w.sessions[s]);
    forall t | t in w.sessions && t != s ensures PhaseOk(w', t, w'.sessions[t]) && Compatible(w'.sessions[s], w'.sessions[t]) {
      AuxGoneOthers(w, s, t);
    }
    LocksPut(w.sessions, s, w'.sessions[s]);
    assert PhaseOk(w, s, w.sessions[s]);
    AuxGoneRows(w, s);
  }

  lemma NextKeeps(w: World, step: Step)
    requires Inv(w) && Legal(w, step)
    ensures Inv(Next(w, step))
  {
    var s := step.s;
    match step {
      case Begin(_, task) => if s !in w.sessions { BeginKeeps(w, s, task); }
      case Lose(_) => if s in w.sessions { DieKeeps(w, s); }
      case Go(_, id, slot, key) => {
        if s in w.sessions {
          var p := w.sessions[s];
          if p.RtPending? || p.OffPending? { OwnerCommitKeeps(w, s); }
          else if p.Leaving? || p.StPending? { OwnerGoneKeeps(w, s); }
          else if p.AxPending? { AuxCommitKeeps(w, s); }
          else if p.AxLeaving? || p.SaPending? { AuxGoneKeeps(w, s); }
          else { StatementKeeps(w, s, id, slot, key); }
        }
      }
    }
  }

  // ---- Runs ----

  ghost predicate IsRun(t: seq<World>, ss: seq<Step>) {
    && |t| == |ss| + 1
    && t[0] == World(None, map[], map[])
    && forall i | 0 <= i < |ss| :: Legal(t[i], ss[i]) && t[i + 1] == Next(t[i], ss[i])
  }

  lemma {:induction false} RunKeeps(t: seq<World>, ss: seq<Step>, n: nat)
    requires IsRun(t, ss) && n < |t|
    ensures Inv(t[n])
  {
    if n > 0 {
      RunKeeps(t, ss, n - 1);
      NextKeeps(t[n - 1], ss[n - 1]);
    }
  }

  /** In every reachable state an offline row stands alone and every slot has one row. */
  lemma OfflineStandsAlone(t: seq<World>, ss: seq<Step>, n: nat)
    requires IsRun(t, ss) && n < |t|
    ensures t[n].owner.Some? && t[n].owner.value.offline ==> t[n].aux == map[]
    ensures forall i, j | i in t[n].aux && j in t[n].aux && i != j :: t[n].aux[i].slot != t[n].aux[j].slot
  {
    RunKeeps(t, ss, n);
  }

  /** While an offline session lives, nobody else is admitted to anything. */
  lemma OfflineIsAlone(t: seq<World>, ss: seq<Step>, n: nat, s: Session, u: Session)
    requires IsRun(t, ss) && n < |t| && s in t[n].sessions && u in t[n].sessions && s != u
    requires t[n].sessions[s].Owning? && t[n].sessions[s].offline
    ensures !HoldsExclusive(t[n].sessions[u]) && !HoldsShared(t[n].sessions[u]) && !t[n].sessions[u].Owning?
  {
    RunKeeps(t, ss, n);
    assert Compatible(t[n].sessions[s], t[n].sessions[u]);
  }

  /** The owner row disappears only through its own session, or through an operator's
      release after that session has died. */
  lemma OwnerRemoval(t: seq<World>, ss: seq<Step>, n: nat)
    requires IsRun(t, ss) && n < |ss| && t[n].owner.Some? && t[n + 1].owner != t[n].owner
    ensures t[n + 1].owner.None? && ss[n].Go? && ss[n].s in t[n].sessions
    ensures var o, p := t[n].owner.value, t[n].sessions[ss[n].s];
      (ss[n].s == o.session && p == Leaving(o.id, o.offline)) || (p == StPending(o.id) && SessionDead(t[n], o.session))
  {
    RunKeeps(t, ss, n);
    assert t[n + 1] == Next(t[n], ss[n]);
    var s := ss[n].s;
    if s in t[n].sessions { assert PhaseOk(t[n], s, t[n].sessions[s]); }
  }

  /** The same for an auxiliary row, which also never changes in place. */
  lemma AuxRemoval(t: seq<World>, ss: seq<Step>, n: nat, id: Id)
    requires IsRun(t, ss) && n < |ss| && id in t[n].aux
    ensures id in t[n + 1].aux ==> t[n + 1].aux[id] == t[n].aux[id]
    ensures id !in t[n + 1].aux ==>
      && ss[n].Go? && ss[n].s in t[n].sessions
      && var a, p := t[n].aux[id], t[n].sessions[ss[n].s];
      (ss[n].s == a.session && p == AxLeaving(id, a.key)) || (p == SaPending(id, a.key) && SessionDead(t[n], a.session))
  {
    RunKeeps(t, ss, n);
    assert t[n + 1] == Next(t[n], ss[n]);
    var s := ss[n].s;
    if s in t[n].sessions { assert PhaseOk(t[n], s, t[n].sessions[s]); }
  }

  /** A session that owns still has its row: nothing takes it away behind its back. */
  lemma OwnersKeepTheirRows(t: seq<World>, ss: seq<Step>, n: nat, s: Session)
    requires IsRun(t, ss) && n < |t| && s in t[n].sessions
    ensures t[n].sessions[s].Owning? ==> t[n].owner == Some(Owner(t[n].sessions[s].id, t[n].sessions[s].offline, s))
    ensures t[n].sessions[s].AxOwning? ==> t[n].sessions[s].id in t[n].aux && t[n].aux[t[n].sessions[s].id].session == s
  {
    RunKeeps(t, ss, n);
    assert PhaseOk(t[n], s, t[n].sessions[s]);
  }

  // ---- Undisturbed work succeeds ----

  /** A task begins and takes n statements without interruption. */
  function Undisturbed(w: World, s: Session, task: Task, id: Id, slot: Slot, key: Key, n: nat): World {
    if n == 0 then Next(w, Begin(s, task)) else Next(Undisturbed(w, s, task, id, slot, key, n - 1), Go(s, id, slot, key))
  }

  /** What the others hold does not depend on how far this session has come. */
  lemma LocksOfOthers(w: World, s: Session, p: Phase, slot: Slot, key: Key, id: Id)
    requires s !in w.sessions
    ensures !HoldsRuntime(p) ==> (RuntimeFree(Put(w, s, p)) <==> RuntimeFree(w))
    ensures KeyOf(p).None? ==> (KeyFree(Put(w, s, p), key) <==> KeyFree(w, key))
    ensures SlotOf(p).None? ==> (SlotFree(Put(w, s, p), slot) <==> SlotFree(w, slot))
    ensures RowOf(p).None? ==> (RowFree(Put(w, s, p), id) <==> RowFree(w, id))
  {
    forall t | t in w.sessions ensures Put(w, s, p).sessions[t] == w.sessions[t] { }
  }

  /** So a statement reads the world as if the session were not there. */
  lemma StatementOfOthers(w: World, s: Session, p: Phase, id: Id, slot: Slot, key: Key)
    requires s !in w.sessions && !Commits(p)
    ensures Statement(Put(w, s, p), s, p, id, slot, key) == Statement(w, s, p, id, slot, key)
  {
    LocksOfOthers(w, s, p, slot, if p.SaFound? then p.key else key, if p.AxOwning? then p.id else id);
  }

  lemma OneMore(w: World, s: Session, task: Task, id: Id, slot: Slot, key: Key, n: nat, p: Phase) returns (q: Phase)
    requires s !in w.sessions && !Commits(p) && Undisturbed(w, s, task, id, slot, key, n) == Put(w, s, p)
    ensures q == Statement(w, s, p, id, slot, key) && Undisturbed(w, s, task, id, slot, key, n + 1) == Put(w, s, q)
  {
    q := Statement(w, s, p, id, slot, key);
    StatementOfOthers(w, s, p, id, slot, key);
    assert w.sessions[s := p][s := q] == w.sessions[s := q];
  }

  lemma TheLast(w: World, s: Session, task: Task, id: Id, slot: Slot, key: Key, n: nat, p: Phase)
    requires s !in w.sessions && Undisturbed(w, s, task, id, slot, key, n) == Put(w, s, p)
    ensures Commits(p) ==> Undisturbed(w, s, task, id, slot, key, n + 1) == Commit(Put(w, s, p), s, p)
    ensures !Commits(p) ==> Undisturbed(w, s, task, id, slot, key, n + 1) == Put(w, s, Statement(w, s, p, id, slot, key))
  {
    if !Commits(p) { var q := OneMore(w, s, task, id, slot, key, n, p); }
  }

  /** A runtime becomes owner exactly when nobody works offline, nobody holds the runtime
      lock and no owner row is left behind; otherwise it changes no row. */
  lemma RuntimeAcquires(w: World, s: Session, id: Id, slot: Slot, key: Key)
    requires s !in w.sessions
    ensures var end := Undisturbed(w, s, Runtime, id, slot, key, 3);
      && s in end.sessions && end.aux == w.aux
      && (if ExclusiveFree(w) && RuntimeFree(w) && w.owner.None?
          then end.owner == Some(Owner(id, false, s)) && end.sessions[s] == Owning(id, false)
          else end.owner == w.owner && end.sessions[s] == Dead)
  {
    var p := First(w, Runtime);
    p := OneMore(w, s, Runtime, id, slot, key, 0, p);
    p := OneMore(w, s, Runtime, id, slot, key, 1, p);
    TheLast(w, s, Runtime, id, slot, key, 2, p);
  }

  /** Offline work begins exactly when nobody else is admitted to anything, nobody holds the
      runtime lock and no row of any kind is left behind; otherwise it changes no row. */
  lemma OfflineAcquires(w: World, s: Session, id: Id, slot: Slot, key: Key)
    requires s !in w.sessions
    ensures var end := Undisturbed(w, s, Offline, id, slot, key, 5);
      && s in end.sessions && end.aux == w.aux
      && (if ExclusiveFree(w) && SharedFree(w) && RuntimeFree(w) && w.owner.None? && w.aux == map[]
          then end.owner == Some(Owner(id, true, s)) && end.sessions[s] == Owning(id, true)
          else end.owner == w.owner && end.sessions[s] == Dead)
  {
    var p := OfflineClears(w, s, id, slot, key);
    p := OneMore(w, s, Offline, id, slot, key, 2, p);
    p := OneMore(w, s, Offline, id, slot, key, 3, p);
    TheLast(w, s, Offline, id, slot, key, 4, p);
  }

  lemma OfflineClears(w: World, s: Session, id: Id, slot: Slot, key: Key) returns (p: Phase)
    requires s !in w.sessions
    ensures Undisturbed(w, s, Offline, id, slot, key, 2) == Put(w, s, p)
    ensures p == if ExclusiveFree(w) && SharedFree(w) && w.owner.None? && w.aux == map[] then OffClear else Dead
  {
    p := First(w, Offline);
    p := OneMore(w, s, Offline, id, slot, key, 0, p);
    p := OneMore(w, s, Offline, id, slot, key, 1, p);
  }

  /** An auxiliary process gets its slot exactly when nobody works offline, now or by a row
      left behind, its lock is free, and neither a row nor an uncommitted insert has its
      slot; otherwise it changes no row, and still waits exactly for such an insert. */
  lemma AuxiliaryAcquires(w: World, s: Session, id: Id, slot: Slot, key: Key)
    requires s !in w.sessions
    ensures var end := Undisturbed(w, s, Auxiliary, id, slot, key, 4);
      var open := ExclusiveFree(w) && NoOffline(w) && KeyFree(w, key) && !SlotTaken(w, id, slot, key);
      && s in end.sessions && end.owner == w.owner
      && (if open && SlotFree(w, slot)
          then end.aux == w.aux[id := Aux(slot, key, s)] && end.sessions[s] == AxOwning(id, key)
          else end.aux == w.aux && end.sessions[s] == if open then AxKeyed(id, key) else Dead)
  {
    var p := AuxiliaryKeyed(w, s, id, slot, key);
    p := OneMore(w, s, Auxiliary, id, slot, key, 2, p);
    TheLast(w, s, Auxiliary, id, slot, key, 3, p);
  }

  lemma AuxiliaryKeyed(w: World, s: Session, id: Id, slot: Slot, key: Key) returns (p: Phase)
    requires s !in w.sessions
    ensures Undisturbed(w, s, Auxiliary, id, slot, key, 2) == Put(w, s, p)
    ensures p == if ExclusiveFree(w) && NoOffline(w) && KeyFree(w, key) then AxKeyed(id, key) else Dead
  {
    p := First(w, Auxiliary);
    p := OneMore(w, s, Auxiliary, id, slot, key, 0, p);
    p := OneMore(w, s, Auxiliary, id, slot, key, 1, p);
  }

  /** An operator's release removes the named owner row exactly when nothing else is running
      and that row is there. */
  lemma StaleOwnerIsReleased(w: World, s: Session, id: Id, slot: Slot, key: Key)
    requires s !in w.sessions
    ensures var end := Undisturbed(w, s, ReleaseStaleOwner, id, slot, key, 3);
      && end.aux == w.aux
      && end.owner == if ExclusiveFree(w) && SharedFree(w) && RuntimeFree(w) && w.owner.Some? && w.owner.value.id == id then None else w.owner
  {
    var p := First(w, ReleaseStaleOwner);
    p := OneMore(w, s, ReleaseStaleOwner, id, slot, key, 0, p);
    p := OneMore(w, s, ReleaseStaleOwner, id, slot, key, 1, p);
    TheLast(w, s, ReleaseStaleOwner, id, slot, key, 2, p);
  }

  /** And the named auxiliary row exactly when nobody works offline, the row is there and
      unlocked, and the lock of its owner is free. */
  lemma StaleAuxiliaryIsReleased(w: World, s: Session, id: Id, slot: Slot, key: Key)
    requires s !in w.sessions
    ensures var end := Undisturbed(w, s, ReleaseStaleAuxiliary, id, slot, key, 4);
      && end.owner == w.owner
      && end.aux == if ExclusiveFree(w) && id in w.aux && RowFree(w, id) && KeyFree(w, w.aux[id].key) then w.aux - {id} else w.aux
  {
    var p := StaleRowLocked(w, s, id, slot, key);
    p := OneMore(w, s, ReleaseStaleAuxiliary, id, slot, key, 2, p);
    TheLast(w, s, ReleaseStaleAuxiliary, id, slot, key, 3, p);
  }

  lemma StaleRowLocked(w: World, s: Session, id: Id, slot: Slot, key: Key) returns (p: Phase)
    requires s !in w.sessions
    ensures Undisturbed(w, s, ReleaseStaleAuxiliary, id, slot, key, 2) == Put(w, s, p)
    ensures ExclusiveFree(w) && id in w.aux && RowFree(w, id) && KeyFree(w, w.aux[id].key) ==> p == SaLocked(id, w.aux[id].key)
    ensures !(ExclusiveFree(w) && id in w.aux && RowFree(w, id) && KeyFree(w, w.aux[id].key)) ==>
      p == Dead || (p == SaAdmitted && id in w.aux && !RowFree(w, id))
  {
    p := First(w, ReleaseStaleAuxiliary);
    p := OneMore(w, s, ReleaseStaleAuxiliary, id, slot, key, 0, p);
    p := OneMore(w, s, ReleaseStaleAuxiliary, id, slot, key, 1, p);
  }
}
