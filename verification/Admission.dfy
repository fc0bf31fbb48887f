/**
 Admission of controller operations: a shared or exclusive lifetime lock, one gate per node found
 through an index that holds its gates weakly, and a closing flag re-read after every wait.
 */
module Admission {
  import opened Basics
  import Runs

  type Thread = nat
  type Node = u64
  type Gate = nat

  /** How the lifetime lock is wanted. */
  datatype Mode = Shared | Exclusive

  /**
   Where a thread is.  In the two admission loops `owned` says whether the lock object already owns
   its mutex; the checks at the top of the loop come before the ownership test, as in the source.
   */
  datatype Pc =
    | LifeCheck(mode: Mode, owned: bool)         // about to read the closing flag
    | LifeDecide(mode: Mode, owned: bool)        // flag was clear: cancellation, deadline, ownership
    | LifeTry(mode: Mode)                        // a bounded try-lock
    | LifeThrow(mode: Mode, owned: bool)         // an exception leaves the loop
    | Leased(mode: Mode)                         // lifetime lease granted
    | IndexWait(node: Node)
    | Pruning(node: Node, todo: set<Node>)       // holds the index mutex
    | Lookup(node: Node)                         // holds the index mutex
    | IndexUnlock(node: Node, gate: Gate)        // holds the index mutex and a strong reference
    | GateCheck(node: Node, gate: Gate, owned: bool)
    | GateDecide(node: Node, gate: Gate, owned: bool)
    | GateTry(node: Node, gate: Gate)
    | NodeLease(node: Node, gate: Gate)          // the lease is the caller's
    | GateUnlock(node: Node, gate: Gate, owned: bool)
    | ReferenceDrop(node: Node, gate: Gate)
    | LifeDrop(mode: Mode)
    | ShutdownLock                               // closing flag set, waiting for the exclusive lock
    | ShutdownHeld
    | CleanupCheck
    | CleanupLock
    | CleanupRecheck
    | CleanupUnlock
    | CleanupLease                               // AcquireCleanup returned an owning lock
    | Ended

  datatype State = State(
    closing: bool,
    shared: set<Thread>,
    exclusive: Option<Thread>,
    indexOwner: Option<Thread>,
    index: map<Node, Gate>,
    gates: map<Gate, Thread>,       // which gates are locked, and by whom
    nextGate: Gate,
    pcs: map<Thread, Pc>,
    barrier: bool)                  // some BeginShutdown has returned

  const START := State(false, {}, None, None, map[], map[], 0, map[], false)

  datatype Action =
    | AcquireLifetime(t: Thread, mode: Mode)
    | AcquireCleanup(t: Thread)
    | BeginShutdown(t: Thread)
    | Step(t: Thread)                            // the next step, without a timeout or cancellation
    | Throw(t: Thread)                           // the deadline passed or the operation was cancelled
    | TryFails(t: Thread)                        // a bounded try-lock ran out
    | Prune(t: Thread, node: Node)
    | AcquireNode(t: Thread, node: Node)         // with the lifetime lease at hand

  /** The strong reference a thread holds. */
  function Reference(pc: Pc): Option<(Node, Gate)> {
    match pc
    case IndexUnlock(n, g) => Some((n, g))
    case GateCheck(n, g, _) => Some((n, g))
    case GateDecide(n, g, _) => Some((n, g))
    case GateTry(n, g) => Some((n, g))
    case NodeLease(n, g) => Some((n, g))
    case GateUnlock(n, g, _) => Some((n, g))
    case ReferenceDrop(n, g) => Some((n, g))
    case _ => None
  }

  predicate Refers(pc: Pc, g: Gate) {
    Reference(pc).Some? && Reference(pc).value.1 == g
  }

  /** No thread keeps the gate alive. */
  predicate Expired(s: State, g: Gate) {
    forall t <- s.pcs :: !Refers(s.pcs[t], g)
  }

  predicate Free(s: State, mode: Mode) {
    s.exclusive.None? && (mode.Exclusive? ==> s.shared == {})
  }

  /** What a step does besides moving its thread. */
  datatype Effect =
    | Nothing
    | RaiseFlag
    | TakeLife(mode: Mode, barrier: bool)
    | DropLife(mode: Mode)
    | TakeIndex
    | DropIndex
    | Erase(node: Node)
    | Insert(node: Node)
    | LockGate(gate: Gate)
    | UnlockGate(gate: Gate)

  datatype Move = Move(pc: Pc, effect: Effect)

  function Apply(s: State, t: Thread, m: Move): State {
    var e := m.effect;
    State(
      s.closing || e.RaiseFlag?,
      if e == TakeLife(Shared, false) then s.shared + {t} else if e == DropLife(Shared) then s.shared - {t} else s.shared,
      if e.TakeLife? && e.mode.Exclusive? then Some(t) else if e == DropLife(Exclusive) then None else s.exclusive,
      if e.TakeIndex? then Some(t) else if e.DropIndex? then None else s.indexOwner,
      if e.Erase? then s.index - {e.node} else if e.Insert? then s.index[e.node := s.nextGate] else s.index,
      if e.LockGate? then s.gates[e.gate := t] else if e.UnlockGate? then s.gates - {e.gate} else s.gates,
      if e.Insert? then s.nextGate + 1 else s.nextGate,
      s.pcs[t := m.pc],
      s.barrier || (e.TakeLife? && e.barrier))
  }

  function Next(s: State, a: Action): Option<State> {
    var m := MoveOf(s, a);
    if m.None? then None else Some(Apply(s, a.t, m.value))
  }

  /** A new call, by a thread that runs nothing else. */
  function Start(a: Action): Option<Move> {
    match a
    case AcquireLifetime(_, m) => Some(Move(LifeCheck(m, false), Nothing))
    case AcquireCleanup(_) => Some(Move(CleanupCheck, Nothing))
    case BeginShutdown(_) => Some(Move(ShutdownLock, RaiseFlag))
    case _ => None
  }

  function Continue(s: State, a: Action, pc: Pc): Option<Move> {
    match a
    case Throw(_) => (
      match pc
      case LifeDecide(m, owned) => Some(Move(LifeThrow(m, owned), Nothing))
      case GateDecide(n, g, owned) => Some(Move(GateUnlock(n, g, owned), Nothing))
      case _ => None)
    case TryFails(_) => (
      match pc
      case LifeTry(m) => Some(Move(LifeCheck(m, false), Nothing))
      case GateTry(n, g) => Some(Move(GateCheck(n, g, false), Nothing))
      case _ => None)
    case Prune(_, n) =>
      if !pc.Pruning? || n !in pc.todo then None
      else Some(Move(Pruning(pc.node, pc.todo - {n}),
                     if n in s.index && Expired(s, s.index[n]) then Erase(n) else Nothing))
    case AcquireNode(_, n) =>
      if pc == Leased(Shared) || pc == CleanupLease then Some(Move(IndexWait(n), Nothing)) else None
    case Step(t) => StepOf(s, pc)
    case _ => None
  }

  function StepOf(s: State, pc: Pc): Option<Move> {
    match pc
    case LifeCheck(m, owned) => Some(Move(if s.closing then LifeThrow(m, owned) else LifeDecide(m, owned), Nothing))
    case LifeDecide(m, owned) => Some(Move(if owned then Leased(m) else LifeTry(m), Nothing))
    case LifeTry(m) => if Free(s, m) then Some(Move(LifeCheck(m, true), TakeLife(m, false))) else None
    case LifeThrow(m, owned) => Some(Move(Ended, if owned then DropLife(m) else Nothing))
    case Leased(m) => Some(Move(LifeDrop(m), Nothing))
    case IndexWait(n) => if s.indexOwner.None? then Some(Move(Pruning(n, s.index.Keys), TakeIndex)) else None
    case Pruning(n, todo) => if todo == {} then Some(Move(Lookup(n), Nothing)) else None
    case Lookup(n) =>
      if n in s.index && !Expired(s, s.index[n]) then Some(Move(IndexUnlock(n, s.index[n]), Nothing))
      else Some(Move(IndexUnlock(n, s.nextGate), Insert(n)))
    case IndexUnlock(n, g) => Some(Move(GateCheck(n, g, false), DropIndex))
    case GateCheck(n, g, owned) =>
      Some(Move(if s.closing then GateUnlock(n, g, owned) else GateDecide(n, g, owned), Nothing))
    case GateDecide(n, g, owned) => Some(Move(if owned then NodeLease(n, g) else GateTry(n, g), Nothing))
    case GateTry(n, g) => if g in s.gates then None else Some(Move(GateCheck(n, g, true), LockGate(g)))
    case NodeLease(n, g) => Some(Move(GateUnlock(n, g, true), Nothing))
    case GateUnlock(n, g, owned) => Some(Move(ReferenceDrop(n, g), if owned then UnlockGate(g) else Nothing))
    case ReferenceDrop(_, _) => Some(Move(LifeDrop(Shared), Nothing))
    case LifeDrop(m) => Some(Move(Ended, DropLife(m)))
    case ShutdownLock => if Free(s, Exclusive) then Some(Move(ShutdownHeld, TakeLife(Exclusive, true))) else None
    case ShutdownHeld => Some(Move(Ended, DropLife(Exclusive)))
    case CleanupCheck => Some(Move(if s.closing then Ended else CleanupLock, Nothing))
    case CleanupLock => if Free(s, Shared) then Some(Move(CleanupRecheck, TakeLife(Shared, false))) else None
    case CleanupRecheck => Some(Move(if s.closing then CleanupUnlock else CleanupLease, Nothing))
    case CleanupUnlock => Some(Move(Ended, DropLife(Shared)))
    case CleanupLease => Some(Move(LifeDrop(Shared), Nothing))
    case Ended => None
  }

  function MoveOf(s: State, a: Action): Option<Move> {
    if a.t in s.pcs then Continue(s, a, s.pcs[a.t]) else Start(a)
  }

  // ---------------------------------------------------------------------------------------------
  // The index on its own.
  // ---------------------------------------------------------------------------------------------

  /** The entries whose gate some thread keeps alive. */
  function Living(index: map<Node, Gate>, alive: set<Gate>): map<Node, Gate> {
    map n | n in index && index[n] in alive :: index[n]
  }

  /** Expired entries go; then the node's gate is found, or the next one is made: the index, the next gate, the gate. */
  function Found(index: map<Node, Gate>, next: Gate, node: Node, alive: set<Gate>): (map<Node, Gate>, Gate, Gate) {
    var living := Living(index, alive);
    if node in living then (living, next, living[node]) else (living[node := next], next + 1, next)
  }

  class GateIndex {
    var mNodeMutexes: map<Node, Gate>
    var mNextGate: Gate

    /** No entry names a gate that was never made. */
    ghost predicate Valid()
      reads this
    {
      forall n <- mNodeMutexes :: mNodeMutexes[n] < mNextGate
    }

    constructor ()
      ensures Valid() && mNodeMutexes == map[]
    {
      mNodeMutexes, mNextGate := map[], 0;
    }

    /** Under the index mutex: drops every expired entry, then finds the node's gate or makes one. */
    method GateFor(node: Node, alive: set<Gate>) returns (gate: Gate)
      requires Valid()
      modifies this
      ensures Valid()
      ensures (mNodeMutexes, mNextGate, gate) == Found(old(mNodeMutexes), old(mNextGate), node, alive)
      ensures mNodeMutexes == Living(old(mNodeMutexes), alive)[node := gate]
      ensures !(node in old(mNodeMutexes) && old(mNodeMutexes)[node] in alive) ==>
                forall n <- old(mNodeMutexes) :: gate != old(mNodeMutexes)[n]
    {
      var todo := mNodeMutexes.Keys;
      while todo != {}
        invariant Valid() && mNextGate == old(mNextGate) && todo <= mNodeMutexes.Keys <= old(mNodeMutexes).Keys
        invariant forall n <- mNodeMutexes :: mNodeMutexes[n] == old(mNodeMutexes)[n]
        invariant forall n <- old(mNodeMutexes) | n !in todo :: n in mNodeMutexes <==> old(mNodeMutexes)[n] in alive
        decreases todo
      {
        var entry :| entry in todo;
        todo := todo - {entry};
        if mNodeMutexes[entry] !in alive {
          mNodeMutexes := mNodeMutexes - {entry};
        }
      }
      assert mNodeMutexes == Living(old(mNodeMutexes), alive);
      if node in mNodeMutexes {
        gate := mNodeMutexes[node];
      } else {
        gate := mNextGate;
        mNextGate := mNextGate + 1;
        mNodeMutexes := mNodeMutexes[node := gate];
      }
    }
  }

  // ---------------------------------------------------------------------------------------------
  // What every step keeps.
  // ---------------------------------------------------------------------------------------------

  predicate HoldsShared(pc: Pc) {
    match pc
    case LifeCheck(m, owned) => m.Shared? && owned
    case LifeDecide(m, owned) => m.Shared? && owned
    case LifeThrow(m, owned) => m.Shared? && owned
    case LifeTry(_) => false
    case Leased(m) => m.Shared?
    case LifeDrop(m) => m.Shared?
    case ShutdownLock => false
    case ShutdownHeld => false
    case CleanupCheck => false
    case CleanupLock => false
    case Ended => false
    case _ => true
  }

  predicate HoldsExclusive(pc: Pc) {
    match pc
    case LifeCheck(m, owned) => m.Exclusive? && owned
    case LifeDecide(m, owned) => m.Exclusive? && owned
    case LifeThrow(m, owned) => m.Exclusive? && owned
    case Leased(m) => m.Exclusive?
    case LifeDrop(m) => m.Exclusive?
    case ShutdownHeld => true
    case _ => false
  }

  predicate HoldsIndex(pc: Pc) {
    pc.Pruning? || pc.Lookup? || pc.IndexUnlock?
  }

  predicate HoldsGate(pc: Pc, g: Gate) {
    match pc
    case GateCheck(_, h, owned) => owned && h == g
    case GateDecide(_, h, owned) => owned && h == g
    case NodeLease(_, h) => h == g
    case GateUnlock(_, h, owned) => owned && h == g
    case _ => false
  }

  /** Past the check that follows the acquisition of the lifetime lock: an operation runs under a lease. */
  predicate Admitted(pc: Pc) {
    match pc
    case LifeDecide(_, owned) => owned
    case Leased(_) => true
    case LifeDrop(_) => true
    case CleanupLease => true
    case IndexWait(_) => true
    case Pruning(_, _) => true
    case Lookup(_) => true
    case _ => Reference(pc).Some?
  }

  /** Who owns the lifetime lock in which mode is who is at a place that holds it. */
  ghost predicate OwnershipAgrees(s: State, t: Thread)
    requires t in s.pcs
  {
    && (t in s.shared <==> HoldsShared(s.pcs[t]))
    && (s.exclusive == Some(t) <==> HoldsExclusive(s.pcs[t]))
  }

  ghost predicate LifetimeAgrees(s: State) {
    && (s.exclusive.Some? ==> s.shared == {} && s.exclusive.value in s.pcs)
    && s.shared <= s.pcs.Keys
    && (forall t <- s.pcs :: OwnershipAgrees(s, t))
  }

  /** After the barrier the flag is up and nobody is admitted. */
  ghost predicate AdmissionAgrees(s: State) {
    && (s.barrier ==> s.closing)
    && (forall t <- s.pcs :: s.barrier ==> !Admitted(s.pcs[t]))
    && (forall t <- s.pcs :: s.pcs[t].ShutdownLock? || s.pcs[t].ShutdownHeld? ==> s.closing)
  }

  ghost predicate IndexMutexAgrees(s: State) {
    && (s.indexOwner.Some? ==> s.indexOwner.value in s.pcs)
    && (forall t <- s.pcs :: s.indexOwner == Some(t) <==> HoldsIndex(s.pcs[t]))
  }

  /** The index still names every gate that a thread keeps alive, under the node the thread means. */
  ghost predicate ReferenceAgrees(s: State, t: Thread)
    requires t in s.pcs
  {
    Reference(s.pcs[t]).Some? ==>
      var (n, g) := Reference(s.pcs[t]).value;
      n in s.index && s.index[n] == g
  }

  ghost predicate GateNamesAgree(s: State) {
    && (forall n <- s.index :: s.index[n] < s.nextGate)
    && (forall m <- s.index, n <- s.index | s.index[m] == s.index[n] :: m == n)
  }

  ghost predicate IndexAgrees(s: State) {
    GateNamesAgree(s) && forall t <- s.pcs :: ReferenceAgrees(s, t)
  }

  ghost predicate Inv(s: State) {
    LifetimeAgrees(s) && AdmissionAgrees(s) && IndexMutexAgrees(s) && IndexAgrees(s) && (forall g: Gate :: GateAgrees(s, g))
  }

  /** The shared side of one move, seen from the thread that makes it. */
  ghost predicate TracksShared(s: State, t: Thread, m: Move) {
    var held := t in s.pcs && HoldsShared(s.pcs[t]);
    && (HoldsShared(m.pc) <==> (held && m.effect != DropLife(Shared)) || m.effect == TakeLife(Shared, false))
    && (m.effect == DropLife(Shared) ==> held)
    && (m.effect != TakeLife(Shared, true))
  }

  ghost predicate TracksExclusive(s: State, t: Thread, m: Move) {
    var held := t in s.pcs && HoldsExclusive(s.pcs[t]);
    && (HoldsExclusive(m.pc) <==>
          (held && m.effect != DropLife(Exclusive)) || (m.effect.TakeLife? && m.effect.mode.Exclusive?))
    && (m.effect == DropLife(Exclusive) ==> held)
  }

  predicate TakesOnlyFree(s: State, m: Move) {
    m.effect.TakeLife? ==> Free(s, m.effect.mode)
  }

  ghost predicate TracksAdmission(s: State, t: Thread, m: Move) {
    && (Admitted(m.pc) ==> (t in s.pcs && Admitted(s.pcs[t])) || !s.closing)
    && (m.pc.ShutdownLock? ==> m.effect.RaiseFlag?)
    && (m.pc.ShutdownHeld? || (m.effect.TakeLife? && m.effect.barrier) ==>
          t in s.pcs && s.pcs[t].ShutdownLock? && m.pc.ShutdownHeld? && m.effect == TakeLife(Exclusive, true))
  }

  lemma MoveTracksShared(s: State, a: Action)
    requires MoveOf(s, a).Some?
    ensures TracksShared(s, a.t, MoveOf(s, a).value)
  {}

  lemma MoveTracksExclusive(s: State, a: Action)
    requires MoveOf(s, a).Some?
    ensures TracksExclusive(s, a.t, MoveOf(s, a).value) && TakesOnlyFree(s, MoveOf(s, a).value)
  {}

  lemma MoveTracksAdmission(s: State, a: Action)
    requires MoveOf(s, a).Some?
    ensures TracksAdmission(s, a.t, MoveOf(s, a).value)
  {}

  lemma ModesExclude(pc: Pc)
    ensures !(HoldsShared(pc) && HoldsExclusive(pc))
    ensures Admitted(pc) ==> HoldsShared(pc) || HoldsExclusive(pc)
  {}

  lemma ApplyKeepsLifetime(s: State, t: Thread, m: Move)
    requires LifetimeAgrees(s) && TracksShared(s, t, m) && TracksExclusive(s, t, m) && TakesOnlyFree(s, m)
    ensures LifetimeAgrees(Apply(s, t, m))
  {
    var s' := Apply(s, t, m);
    assert t in s.pcs ==> OwnershipAgrees(s, t);
    forall u <- s'.pcs ensures OwnershipAgrees(s', u) {
      if u != t {
        assert OwnershipAgrees(s, u);
        ModesExclude(s.pcs[u]);
      } else {
        ModesExclude(m.pc);
      }
    }
  }

  lemma ApplyKeepsAdmission(s: State, t: Thread, m: Move)
    requires LifetimeAgrees(s) && AdmissionAgrees(s) && TracksAdmission(s, t, m) && TakesOnlyFree(s, m)
    ensures AdmissionAgrees(Apply(s, t, m))
  {
    var s' := Apply(s, t, m);
    forall u <- s'.pcs ensures s'.barrier ==> !Admitted(s'.pcs[u]) {
      if u in s.pcs {
        assert OwnershipAgrees(s, u);
        ModesExclude(s.pcs[u]);
      }
    }
  }

  ghost predicate TracksIndex(s: State, t: Thread, m: Move) {
    var known := t in s.pcs;
    && (HoldsIndex(m.pc) <==> (known && HoldsIndex(s.pcs[t]) && m.effect != DropIndex) || m.effect == TakeIndex)
    && (m.effect == TakeIndex ==> s.indexOwner.None?)
    && (m.effect == DropIndex ==> known && HoldsIndex(s.pcs[t]))
  }

  lemma MoveTracksIndex(s: State, a: Action)
    requires MoveOf(s, a).Some?
    ensures TracksIndex(s, a.t, MoveOf(s, a).value)
  {}

  lemma ApplyKeepsIndexMutex(s: State, t: Thread, m: Move)
    requires IndexMutexAgrees(s) && TracksIndex(s, t, m)
    ensures IndexMutexAgrees(Apply(s, t, m))
  {}

  /** A reference is gained only from the index, and the index loses or replaces expired gates only. */
  ghost predicate TracksReferences(s: State, t: Thread, m: Move) {
    && (Reference(m.pc).Some? ==>
          var (n, g) := Reference(m.pc).value;
          || (t in s.pcs && Reference(m.pc) == Reference(s.pcs[t]) && !m.effect.Erase? && !m.effect.Insert?)
          || (n in s.index && s.index[n] == g && m.effect == Nothing)
          || (m.effect == Insert(n) && g == s.nextGate))
    && (m.effect.Erase? || m.effect.Insert? ==>
          m.effect.node in s.index ==> Expired(s, s.index[m.effect.node]))
  }

  lemma MoveTracksReferences(s: State, a: Action)
    requires MoveOf(s, a).Some?
    ensures TracksReferences(s, a.t, MoveOf(s, a).value)
  {}

  lemma ApplyKeepsReferences(s: State, t: Thread, m: Move)
    requires (forall v <- s.pcs :: ReferenceAgrees(s, v)) && TracksReferences(s, t, m)
    ensures forall u <- Apply(s, t, m).pcs :: ReferenceAgrees(Apply(s, t, m), u)
  {
    var s' := Apply(s, t, m);
    forall u <- s'.pcs ensures ReferenceAgrees(s', u) {
      if u != t && Reference(s.pcs[u]).Some? {
        assert ReferenceAgrees(s, u) && Refers(s.pcs[u], Reference(s.pcs[u]).value.1);
      } else if u == t && t in s.pcs {
        assert ReferenceAgrees(s, t);
      }
    }
  }

  /** Distinct nodes keep distinct gates: the only new gate is the next one. */
  lemma ApplyKeepsGateNames(s: State, t: Thread, m: Move)
    requires GateNamesAgree(s)
    ensures GateNamesAgree(Apply(s, t, m))
  {}

  ghost predicate TracksGate(s: State, t: Thread, m: Move, g: Gate) {
    var known := t in s.pcs;
    && (HoldsGate(m.pc, g) <==> (known && HoldsGate(s.pcs[t], g) && m.effect != UnlockGate(g)) || m.effect == LockGate(g))
    && (m.effect == LockGate(g) ==> g !in s.gates)
    && (m.effect == UnlockGate(g) ==> known && HoldsGate(s.pcs[t], g))
  }

  lemma MoveTracksGate(s: State, a: Action, g: Gate)
    requires MoveOf(s, a).Some?
    ensures TracksGate(s, a.t, MoveOf(s, a).value, g)
  {}

  /** The owner on record for `g`, if any, is the one thread that holds it. */
  ghost predicate GateAgrees(s: State, g: Gate) {
    && (g in s.gates ==> s.gates[g] in s.pcs && HoldsGate(s.pcs[s.gates[g]], g))
    && (forall t <- s.pcs | HoldsGate(s.pcs[t], g) :: g in s.gates && s.gates[g] == t)
  }

  lemma ApplyKeepsGate(s: State, t: Thread, m: Move, g: Gate)
    requires GateAgrees(s, g) && TracksGate(s, t, m, g)
    ensures GateAgrees(Apply(s, t, m), g)
  {
    var s' := Apply(s, t, m);
    assert m.effect != LockGate(g) && m.effect != UnlockGate(g) ==>
        (g in s'.gates <==> g in s.gates) && (g in s.gates ==> s'.gates[g] == s.gates[g]);
  }

  lemma StepKeepsInv(s: State, a: Action)
    requires Inv(s) && Next(s, a).Some?
    ensures Inv(Next(s, a).value)
  {
    var m := MoveOf(s, a).value;
    MoveTracksShared(s, a);
    MoveTracksExclusive(s, a);
    ApplyKeepsLifetime(s, a.t, m);
    MoveTracksAdmission(s, a);
    ApplyKeepsAdmission(s, a.t, m);
    MoveTracksIndex(s, a);
    ApplyKeepsIndexMutex(s, a.t, m);
    MoveTracksReferences(s, a);
    ApplyKeepsReferences(s, a.t, m);
    ApplyKeepsGateNames(s, a.t, m);
    forall g: Gate ensures GateAgrees(Apply(s, a.t, m), g) {
      MoveTracksGate(s, a, g);
      ApplyKeepsGate(s, a.t, m, g);
    }
  }

  lemma Reachable(acts: seq<Action>, s: State)
    requires Runs.Reaches(Next, START, acts, s)
    ensures Inv(s)
  {
    forall s: State, a | Inv(s) && Next(s, a).Some? ensures Inv(Next(s, a).value) {
      StepKeepsInv(s, a);
    }
    Runs.InvariantHolds(Next, Inv, START, acts, s);
  }

  // ---------------------------------------------------------------------------------------------
  // The promises.
  // ---------------------------------------------------------------------------------------------

  /** Two threads with strong references share a gate exactly when they mean the same node. */
  lemma OneGatePerNode(acts: seq<Action>, s: State, t: Thread, u: Thread)
    requires Runs.Reaches(Next, START, acts, s)
    requires t in s.pcs && u in s.pcs && Reference(s.pcs[t]).Some? && Reference(s.pcs[u]).Some?
    ensures Reference(s.pcs[t]).value.0 == Reference(s.pcs[u]).value.0 <==>
            Reference(s.pcs[t]).value.1 == Reference(s.pcs[u]).value.1
  {
    Reachable(acts, s);
    assert ReferenceAgrees(s, t) && ReferenceAgrees(s, u);
  }

  /** At no moment do two threads hold a lease for the same node, and every node lease stands under a shared lifetime lease. */
  lemma NodeExclusion(acts: seq<Action>, s: State, t: Thread, u: Thread)
    requires Runs.Reaches(Next, START, acts, s)
    requires t in s.pcs && u in s.pcs && s.pcs[t].NodeLease? && s.pcs[u].NodeLease?
    ensures s.pcs[t].node == s.pcs[u].node ==> t == u
    ensures t in s.shared && s.exclusive.None?
  {
    Reachable(acts, s);
    OneGatePerNode(acts, s, t, u);
    assert OwnershipAgrees(s, t);
    assert GateAgrees(s, s.pcs[t].gate) && HoldsGate(s.pcs[t], s.pcs[t].gate) && HoldsGate(s.pcs[u], s.pcs[u].gate);
  }

  /** An exclusive lifetime lease stands alone: nobody else is admitted in either mode. */
  lemma ExclusiveStandsAlone(acts: seq<Action>, s: State, t: Thread, u: Thread)
    requires Runs.Reaches(Next, START, acts, s)
    requires t in s.pcs && u in s.pcs && HoldsExclusive(s.pcs[t]) && (Admitted(s.pcs[u]) || HoldsExclusive(s.pcs[u]))
    ensures t == u
  {
    Reachable(acts, s);
    assert OwnershipAgrees(s, t) && OwnershipAgrees(s, u);
    ModesExclude(s.pcs[u]);
  }

  /** The barrier is up while a thread that began a shutdown holds the lock, and it never comes down. */
  lemma {:induction false} BarrierRises(s: State, acts: seq<Action>, s': State)
    requires Runs.Reaches(Next, s, acts, s') && (forall t <- s.pcs :: s.pcs[t].ShutdownHeld? ==> s.barrier)
    ensures forall t <- s'.pcs :: s'.pcs[t].ShutdownHeld? ==> s'.barrier
    ensures s.barrier ==> s'.barrier
    decreases |acts|
  {
    if acts == [] {
    } else {
      MoveTracksAdmission(s, acts[0]);
      BarrierRises(Next(s, acts[0]).value, acts[1..], s');
    }
  }

  /**
   From the moment a BeginShutdown returns, through every continuation, no operation is under a
   lifetime or node lease and none is ever admitted, whatever was already waiting; and a call that
   has ended, AcquireCleanup included, owns nothing.
   */
  lemma ShutdownBarrier(before: seq<Action>, s: State, c: Thread, after: seq<Action>, s': State, t: Thread)
    requires Runs.Reaches(Next, START, before, s) && c in s.pcs && s.pcs[c].ShutdownHeld?
    requires Runs.Reaches(Next, s, after, s') && t in s'.pcs
    ensures !Admitted(s'.pcs[t])
    ensures s'.pcs[t].Ended? ==> t !in s'.shared && s'.exclusive != Some(t)
  {
    BarrierRises(START, before, s);
    BarrierRises(s, after, s');
    Runs.Append(Next, START, before, s, after, s');
    Reachable(before + after, s');
    assert OwnershipAgrees(s', t);
  }

  // ---------------------------------------------------------------------------------------------
  // The steps under the index mutex are GateFor.
  // ---------------------------------------------------------------------------------------------

  /** `alive` are the gates that some thread keeps alive. */
  ghost predicate Knows(s: State, alive: set<Gate>) {
    forall g: Gate :: g in alive <==> !Expired(s, g)
  }

  /** The entries left when those in `todo` have been looked at. */
  function Pruned(index: map<Node, Gate>, todo: set<Node>, alive: set<Gate>): map<Node, Gate> {
    map n | n in index && (n in todo ==> index[n] in alive) :: index[n]
  }

  lemma SameKnowledge(s: State, s': State, t: Thread, alive: set<Gate>)
    requires Knows(s, alive) && t in s.pcs && t in s'.pcs && s'.pcs == s.pcs[t := s'.pcs[t]]
    requires Reference(s.pcs[t]).None? && Reference(s'.pcs[t]).None?
    ensures Knows(s', alive)
  {
    forall g: Gate ensures Expired(s', g) <==> Expired(s, g) {
      if !Expired(s', g) {
        var u :| u in s'.pcs && Refers(s'.pcs[u], g);
        assert u in s.pcs && Refers(s.pcs[u], g);
      }
      if !Expired(s, g) {
        var u :| u in s.pcs && Refers(s.pcs[u], g);
        assert u in s'.pcs && Refers(s'.pcs[u], g);
      }
    }
  }

  lemma PrunesOne(s: State, t: Thread, n: Node, alive: set<Gate>) returns (s': State)
    requires t in s.pcs && s.pcs[t].Pruning? && n in s.pcs[t].todo && Knows(s, alive)
    ensures Next(s, Prune(t, n)) == Some(s') && Knows(s', alive)
    ensures s' == s.(index := Pruned(s.index, {n}, alive), pcs := s.pcs[t := Pruning(s.pcs[t].node, s.pcs[t].todo - {n})])
  {
    var m := MoveOf(s, Prune(t, n)).value;
    s' := Apply(s, t, m);
    assert s'.index == Pruned(s.index, {n}, alive);
    SameKnowledge(s, s', t, alive);
  }

  lemma PrunedTogether(index: map<Node, Gate>, n: Node, todo: set<Node>, alive: set<Gate>)
    requires n in todo
    ensures Pruned(Pruned(index, {n}, alive), todo - {n}, alive) == Pruned(index, todo, alive)
  {}

  lemma {:induction false} PrunesAll(s: State, t: Thread, node: Node, todo: set<Node>, alive: set<Gate>) returns (s': State)
    requires t in s.pcs && s.pcs[t] == Pruning(node, todo) && Knows(s, alive)
    ensures Runs.Leads(Next, s, s') && Knows(s', alive)
    ensures s' == s.(index := Pruned(s.index, todo, alive), pcs := s.pcs[t := Pruning(node, {})])
    decreases todo
  {
    if todo == {} {
      s' := s;
      assert Runs.Reaches(Next, s, [], s);
      assert Pruned(s.index, todo, alive) == s.index && s.pcs[t := Pruning(node, {})] == s.pcs;
    } else {
      var n :| n in todo;
      var s1 := PrunesOne(s, t, n, alive);
      s' := PrunesAll(s1, t, node, todo - {n}, alive);
      PrunedTogether(s.index, n, todo, alive);
      assert s1.pcs[t := Pruning(node, {})] == s.pcs[t := Pruning(node, {})];
      Runs.OneLeads(Next, s, Prune(t, n), s1);
      Runs.LeadsOn(Next, s, s1, s');
    }
  }

  lemma EntersIndex(s: State, t: Thread, node: Node, alive: set<Gate>) returns (s': State)
    requires t in s.pcs && s.pcs[t] == IndexWait(node) && s.indexOwner.None? && Knows(s, alive)
    ensures Next(s, Step(t)) == Some(s') && Knows(s', alive) && s'.indexOwner == Some(t)
    ensures s'.index == s.index && s'.nextGate == s.nextGate && t in s'.pcs && s'.pcs[t] == Pruning(node, s.index.Keys)
    ensures s'.closing == s.closing && s'.gates == s.gates
  {
    s' := Apply(s, t, Move(Pruning(node, s.index.Keys), TakeIndex));
    SameKnowledge(s, s', t, alive);
  }

  /** Alone under the index mutex, a thread ends with the index, and holding the gate, that GateFor computes. */
  lemma IndexSectionIsGateFor(s: State, t: Thread, node: Node, alive: set<Gate>) returns (s': State)
    requires t in s.pcs && s.pcs[t] == IndexWait(node) && s.indexOwner.None? && Knows(s, alive)
    ensures Runs.Leads(Next, s, s') && s'.indexOwner == Some(t)
    ensures var (index, next, gate) := Found(s.index, s.nextGate, node, alive);
            s'.index == index && s'.nextGate == next && t in s'.pcs && s'.pcs[t] == IndexUnlock(node, gate)
    ensures s'.closing == s.closing && s'.gates == s.gates
  {
    var s1 := EntersIndex(s, t, node, alive);
    var s2 := PrunesAll(s1, t, node, s.index.Keys, alive);
    assert s2.index == Living(s.index, alive);
    s' := LooksUp(s2, t, node, alive);
    Runs.OneLeads(Next, s, Step(t), s1);
    Runs.LeadsOn(Next, s, s1, s2);
    Runs.LeadsOn(Next, s, s2, s');
  }

  lemma LooksUp(s: State, t: Thread, node: Node, alive: set<Gate>) returns (s': State)
    requires t in s.pcs && s.pcs[t] == Pruning(node, {}) && Knows(s, alive)
    requires forall n <- s.index :: s.index[n] in alive
    ensures Runs.Leads(Next, s, s') && s'.indexOwner == s.indexOwner
    ensures s'.closing == s.closing && s'.gates == s.gates
    ensures t in s'.pcs && s'.pcs[t] == IndexUnlock(node, if node in s.index then s.index[node] else s.nextGate)
    ensures s'.index == if node in s.index then s.index else s.index[node := s.nextGate]
    ensures s'.nextGate == if node in s.index then s.nextGate else s.nextGate + 1
  {
    var s1 := Apply(s, t, Move(Lookup(node), Nothing));
    SameKnowledge(s, s1, t, alive);
    s' := Apply(s1, t, MoveOf(s1, Step(t)).value);
    Runs.TwoSteps(Next, s, Step(t), s1, Step(t), s');
  }

  // ---------------------------------------------------------------------------------------------
  // What is free is granted, and what is refused is refused for a reason.
  // ---------------------------------------------------------------------------------------------

  /** The state with thread t at `pc`. */
  function At(s: State, t: Thread, pc: Pc): State {
    s.(pcs := s.pcs[t := pc])
  }

  /** The state with thread t at `pc`, holding the lifetime lock in a mode. */
  function Holding(s: State, t: Thread, mode: Mode, pc: Pc): State {
    if mode.Shared? then s.(pcs := s.pcs[t := pc], shared := s.shared + {t})
    else s.(pcs := s.pcs[t := pc], exclusive := Some(t))
  }

  /** A step that only moves its thread. */
  lemma Moves(s: State, t: Thread, pc: Pc, pc': Pc)
    requires MoveOf(At(s, t, pc), Step(t)) == Some(Move(pc', Nothing))
    ensures Next(At(s, t, pc), Step(t)) == Some(At(s, t, pc'))
  {
    assert s.pcs[t := pc][t := pc'] == s.pcs[t := pc'];
  }

  lemma MovesHolding(s: State, t: Thread, mode: Mode, pc: Pc, pc': Pc)
    requires MoveOf(Holding(s, t, mode, pc), Step(t)) == Some(Move(pc', Nothing))
    ensures Next(Holding(s, t, mode, pc), Step(t)) == Some(Holding(s, t, mode, pc'))
  {
    assert s.pcs[t := pc][t := pc'] == s.pcs[t := pc'];
  }

  lemma TakesLife(s: State, t: Thread, mode: Mode, barrier: bool, pc: Pc, pc': Pc)
    requires MoveOf(At(s, t, pc), Step(t)) == Some(Move(pc', TakeLife(mode, barrier))) && (barrier ==> s.barrier)
    requires mode.Shared? ==> !barrier
    ensures Next(At(s, t, pc), Step(t)) == Some(Holding(s, t, mode, pc'))
  {
    assert s.pcs[t := pc][t := pc'] == s.pcs[t := pc'];
  }

  lemma AsksForLease(s: State, t: Thread, mode: Mode)
    requires t !in s.pcs && !s.closing
    ensures Runs.Leads(Next, s, At(s, t, LifeTry(mode)))
  {
    var s1, s2 := At(s, t, LifeCheck(mode, false)), At(s, t, LifeDecide(mode, false));
    assert Next(s, AcquireLifetime(t, mode)) == Some(s1);
    Moves(s, t, LifeCheck(mode, false), LifeDecide(mode, false));
    Moves(s, t, LifeDecide(mode, false), LifeTry(mode));
    Runs.ThreeSteps(Next, s, AcquireLifetime(t, mode), s1, Step(t), s2, Step(t), At(s, t, LifeTry(mode)));
  }

  lemma GetsLease(s: State, t: Thread, mode: Mode)
    requires !s.closing && t !in s.shared && Free(s, mode)
    ensures Runs.Leads(Next, At(s, t, LifeTry(mode)), Holding(s, t, mode, Leased(mode)))
  {
    var s1, s2 := Holding(s, t, mode, LifeCheck(mode, true)), Holding(s, t, mode, LifeDecide(mode, true));
    TakesLife(s, t, mode, false, LifeTry(mode), LifeCheck(mode, true));
    MovesHolding(s, t, mode, LifeCheck(mode, true), LifeDecide(mode, true));
    MovesHolding(s, t, mode, LifeDecide(mode, true), Leased(mode));
    Runs.ThreeSteps(Next, At(s, t, LifeTry(mode)), Step(t), s1, Step(t), s2, Step(t), Holding(s, t, mode, Leased(mode)));
  }

  /**
   A lifetime lease is granted: while the controller is open, a new call gets the lease in its mode whenever the
   lock is free for that mode.
   */
  lemma LifetimeIsGranted(acts: seq<Action>, s: State, t: Thread, mode: Mode)
    requires Runs.Reaches(Next, START, acts, s) && !s.closing && t !in s.pcs
    requires s.exclusive.None? && (mode.Exclusive? ==> s.shared == {})
    ensures Runs.Leads(Next, s, Holding(s, t, mode, Leased(mode)))
  {
    Reachable(acts, s);
    AsksForLease(s, t, mode);
    GetsLease(s, t, mode);
    Runs.LeadsOn(Next, s, At(s, t, LifeTry(mode)), Holding(s, t, mode, Leased(mode)));
  }

  /** A cleanup lease is granted on the same terms. */
  lemma CleanupIsGranted(s: State, t: Thread)
    requires !s.closing && t !in s.pcs && s.exclusive.None?
    ensures Runs.Leads(Next, s, Holding(s, t, Shared, CleanupLease))
  {
    assert Next(s, AcquireCleanup(t)) == Some(At(s, t, CleanupCheck));
    Moves(s, t, CleanupCheck, CleanupLock);
    Runs.TwoSteps(Next, s, AcquireCleanup(t), At(s, t, CleanupCheck), Step(t), At(s, t, CleanupLock));
    CleanupLocks(s, t);
    Runs.LeadsOn(Next, s, At(s, t, CleanupLock), Holding(s, t, Shared, CleanupLease));
  }

  lemma CleanupLocks(s: State, t: Thread)
    requires !s.closing && s.exclusive.None?
    ensures Runs.Leads(Next, At(s, t, CleanupLock), Holding(s, t, Shared, CleanupLease))
  {
    TakesLife(s, t, Shared, false, CleanupLock, CleanupRecheck);
    MovesHolding(s, t, Shared, CleanupRecheck, CleanupLease);
    Runs.TwoSteps(Next, At(s, t, CleanupLock), Step(t), Holding(s, t, Shared, CleanupRecheck), Step(t),
                  Holding(s, t, Shared, CleanupLease));
  }

  /** Shutdown gets the exclusive lock as soon as nobody holds the lifetime lock. */
  lemma ShutdownIsGranted(s: State, t: Thread)
    requires t !in s.pcs && s.exclusive.None? && s.shared == {}
    ensures Runs.Leads(Next, s, Holding(s.(closing := true, barrier := true), t, Exclusive, ShutdownHeld))
  {
    var s1 := At(s.(closing := true), t, ShutdownLock);
    assert Next(s, BeginShutdown(t)) == Some(s1);
    assert s.pcs[t := ShutdownLock][t := ShutdownHeld] == s.pcs[t := ShutdownHeld];
    assert Next(s1, Step(t)) == Some(Holding(s.(closing := true, barrier := true), t, Exclusive, ShutdownHeld));
    Runs.TwoSteps(Next, s, BeginShutdown(t), s1, Step(t), Holding(s.(closing := true, barrier := true), t, Exclusive, ShutdownHeld));
  }

  /** Having left the index with its gate, a thread gets that gate if nobody has it. */
  lemma GateIsGranted(s: State, t: Thread, node: Node, gate: Gate)
    requires t in s.pcs && s.pcs[t] == IndexUnlock(node, gate) && !s.closing && gate !in s.gates
    ensures Runs.Leads(Next, s, GotGate(s, t, node, gate))
  {
    var u := s.(indexOwner := None);
    var s1, s2, s3 := At(u, t, GateCheck(node, gate, false)), At(u, t, GateDecide(node, gate, false)), At(u, t, GateTry(node, gate));
    assert Next(s, Step(t)) == Some(s1);
    Moves(u, t, GateCheck(node, gate, false), GateDecide(node, gate, false));
    Moves(u, t, GateDecide(node, gate, false), GateTry(node, gate));
    Runs.ThreeSteps(Next, s, Step(t), s1, Step(t), s2, Step(t), s3);
    GateIsLocked(u, t, node, gate);
    Runs.LeadsOn(Next, s, s3, GotGate(s, t, node, gate));
  }

  function GotGate(s: State, t: Thread, node: Node, gate: Gate): State {
    s.(indexOwner := None, gates := s.gates[gate := t], pcs := s.pcs[t := NodeLease(node, gate)])
  }

  lemma GateIsLocked(u: State, t: Thread, node: Node, gate: Gate)
    requires !u.closing && gate !in u.gates && u.indexOwner.None?
    ensures Runs.Leads(Next, At(u, t, GateTry(node, gate)), GotGate(u, t, node, gate))
  {
    var v := u.(gates := u.gates[gate := t]);
    var s1, s2 := At(v, t, GateCheck(node, gate, true)), At(v, t, GateDecide(node, gate, true));
    assert u.pcs[t := GateTry(node, gate)][t := GateCheck(node, gate, true)] == s1.pcs;
    assert Next(At(u, t, GateTry(node, gate)), Step(t)) == Some(s1);
    Moves(v, t, GateCheck(node, gate, true), GateDecide(node, gate, true));
    Moves(v, t, GateDecide(node, gate, true), NodeLease(node, gate));
    Runs.ThreeSteps(Next, At(u, t, GateTry(node, gate)), Step(t), s1, Step(t), s2, Step(t), GotGate(u, t, node, gate));
  }

  lemma LockedGatesAreKnown(s: State, gate: Gate)
    requires Inv(s) && gate in s.gates
    ensures gate < s.nextGate
  {
    assert GateAgrees(s, gate);
    var t := s.gates[gate];
    assert ReferenceAgrees(s, t) && Reference(s.pcs[t]).Some?;
  }

  ghost function AliveIn(s: State): set<Gate> {
    set t | t in s.pcs && Reference(s.pcs[t]).Some? :: Reference(s.pcs[t]).value.1
  }

  lemma AliveIsKnown(s: State)
    ensures Knows(s, AliveIn(s))
  {
    forall g: Gate ensures g in AliveIn(s) <==> !Expired(s, g) {
      if !Expired(s, g) {
        var t :| t in s.pcs && Refers(s.pcs[t], g);
      }
    }
  }

  /** The gate a node has, or will get, is free: nobody who keeps it alive has it locked. */
  ghost predicate GateFree(s: State, node: Node) {
    node in s.index && !Expired(s, s.index[node]) ==> s.index[node] !in s.gates
  }

  lemma FoundGateIsFree(s: State, node: Node)
    requires Inv(s) && GateFree(s, node)
    ensures Found(s.index, s.nextGate, node, AliveIn(s)).2 !in s.gates
  {
    AliveIsKnown(s);
    if s.nextGate in s.gates {
      LockedGatesAreKnown(s, s.nextGate);
    }
  }

  /** Under a shared lease, whichever call gave it, a node lease is granted when the index mutex and the node's gate are free. */
  lemma NodeIsGranted(acts: seq<Action>, s: State, t: Thread, node: Node) returns (s': State, gate: Gate)
    requires Runs.Reaches(Next, START, acts, s) && !s.closing
    requires t in s.pcs && (s.pcs[t] == Leased(Shared) || s.pcs[t] == CleanupLease)
    requires s.indexOwner.None? && GateFree(s, node)
    ensures Runs.Leads(Next, s, s') && t in s'.pcs && s'.pcs[t] == NodeLease(node, gate)
    ensures gate in s'.gates && s'.gates[gate] == t
  {
    Reachable(acts, s);
    var waiting := At(s, t, IndexWait(node));
    assert Next(s, AcquireNode(t, node)) == Some(waiting);
    FoundGateIsFree(s, node);
    AliveIsKnown(s);
    SameKnowledge(s, waiting, t, AliveIn(s));
    var found := IndexSectionIsGateFor(waiting, t, node, AliveIn(s));
    gate := found.pcs[t].gate;
    s' := GotGate(found, t, node, gate);
    GateIsGranted(found, t, node, gate);
    Runs.OneLeads(Next, s, AcquireNode(t, node), waiting);
    Runs.LeadsOn(Next, s, waiting, found);
    Runs.LeadsOn(Next, s, found, s');
  }

  /** So a new call can get from nothing to a node lease. */
  lemma FreeNodeIsGranted(acts: seq<Action>, s: State, t: Thread, node: Node) returns (s': State, gate: Gate)
    requires Runs.Reaches(Next, START, acts, s) && !s.closing && t !in s.pcs
    requires s.exclusive.None? && s.indexOwner.None? && GateFree(s, node)
    ensures Runs.Leads(Next, s, s') && t in s'.pcs && s'.pcs[t] == NodeLease(node, gate)
  {
    var leased := Holding(s, t, Shared, Leased(Shared));
    LifetimeIsGranted(acts, s, t, Shared);
    var more :| Runs.Reaches(Next, s, more, leased);
    Runs.Append(Next, START, acts, s, more, leased);
    SameGateFree(s, t, leased, node);
    s', gate := NodeIsGranted(acts + more, leased, t, node);
    Runs.LeadsOn(Next, s, leased, s');
  }

  lemma SameGateFree(s: State, t: Thread, s': State, node: Node)
    requires t !in s.pcs && s'.pcs == s.pcs[t := Leased(Shared)] && s'.index == s.index && s'.gates == s.gates
    requires GateFree(s, node)
    ensures GateFree(s', node)
  {
    if node in s.index && !Expired(s', s.index[node]) {
      var u :| u in s'.pcs && Refers(s'.pcs[u], s.index[node]);
      assert u in s.pcs && Refers(s.pcs[u], s.index[node]);
    }
  }

  /**
   Nobody is turned away without a reason: a call leaves the admission loops by an exception, and AcquireCleanup
   comes back with nothing, only when the controller is closing, the operation was canceled, or its time is up.
   */
  lemma RefusedForAReason(s: State, a: Action, s': State)
    requires Next(s, a) == Some(s')
    ensures s'.pcs[a.t].LifeThrow? ==> s.closing || a.Throw?
    ensures s'.pcs[a.t].GateUnlock? ==> s.closing || a.Throw? || (a.t in s.pcs && s.pcs[a.t].NodeLease?)
    ensures s'.pcs[a.t].CleanupUnlock? ==> s.closing
    ensures s'.pcs[a.t].Ended? && a.t in s.pcs && s.pcs[a.t].CleanupCheck? ==> s.closing
  {}

  /** A call that has ended owns no lock and keeps no gate alive, in any run. */
  lemma EndedOwnsNothing(acts: seq<Action>, s: State, t: Thread)
    requires Runs.Reaches(Next, START, acts, s) && t in s.pcs && s.pcs[t].Ended?
    ensures t !in s.shared && s.exclusive != Some(t) && s.indexOwner != Some(t)
    ensures forall g <- s.gates :: s.gates[g] != t
    ensures Reference(s.pcs[t]).None?
  {
    Reachable(acts, s);
    assert OwnershipAgrees(s, t);
    forall g <- s.gates ensures s.gates[g] != t {
      assert GateAgrees(s, g);
    }
  }

  /** Thread t drops the lifetime lock in a mode. */
  function WithoutLease(s: State, t: Thread, mode: Mode): State {
    if mode.Shared? then s.(shared := s.shared - {t}, pcs := s.pcs[t := Ended])
    else s.(exclusive := None, pcs := s.pcs[t := Ended])
  }

  lemma DropsLease(s: State, t: Thread, mode: Mode)
    ensures Next(At(s, t, LifeDrop(mode)), Step(t)) == Some(WithoutLease(s, t, mode))
  {
    assert s.pcs[t := LifeDrop(mode)][t := Ended] == s.pcs[t := Ended];
  }

  /** A lifetime lease is given back, and then everything is as without it. */
  lemma LeaseIsReturned(s: State, t: Thread, mode: Mode)
    requires t in s.pcs && (s.pcs[t] == Leased(mode) || (mode.Shared? && s.pcs[t] == CleanupLease))
    ensures Runs.Leads(Next, s, WithoutLease(s, t, mode))
  {
    assert Next(s, Step(t)) == Some(At(s, t, LifeDrop(mode)));
    DropsLease(s, t, mode);
    Runs.TwoSteps(Next, s, Step(t), At(s, t, LifeDrop(mode)), Step(t), WithoutLease(s, t, mode));
  }

  /** And so is a node lease, the gate first. */
  lemma NodeIsReturned(s: State, t: Thread)
    requires t in s.pcs && s.pcs[t].NodeLease?
    ensures Runs.Leads(Next, s, WithoutLease(s.(gates := s.gates - {s.pcs[t].gate}), t, Shared))
  {
    var NodeLease(node, gate) := s.pcs[t];
    var u := s.(gates := s.gates - {gate});
    var s1, s2 := At(s, t, GateUnlock(node, gate, true)), At(u, t, ReferenceDrop(node, gate));
    GateIsUnlocked(s, t, node, gate);
    Moves(u, t, ReferenceDrop(node, gate), LifeDrop(Shared));
    DropsLease(u, t, Shared);
    Runs.FourSteps(Next, s, Step(t), s1, Step(t), s2, Step(t), At(u, t, LifeDrop(Shared)), Step(t), WithoutLease(u, t, Shared));
  }

  lemma GateIsUnlocked(s: State, t: Thread, node: Node, gate: Gate)
    requires t in s.pcs && s.pcs[t] == NodeLease(node, gate)
    ensures Next(s, Step(t)) == Some(At(s, t, GateUnlock(node, gate, true)))
    ensures Next(At(s, t, GateUnlock(node, gate, true)), Step(t)) ==
            Some(At(s.(gates := s.gates - {gate}), t, ReferenceDrop(node, gate)))
  {
    assert s.pcs[t := GateUnlock(node, gate, true)][t := ReferenceDrop(node, gate)] == s.pcs[t := ReferenceDrop(node, gate)];
  }

  /** And everybody is turned away once the controller is closing: at the next look at the flag. */
  lemma ClosingRefuses(s: State, t: Thread)
    requires s.closing && t in s.pcs
    requires s.pcs[t].LifeCheck? || s.pcs[t].GateCheck? || s.pcs[t].CleanupCheck? || s.pcs[t].CleanupRecheck?
    ensures Next(s, Step(t)).Some?
    ensures var pc, pc' := s.pcs[t], Next(s, Step(t)).value.pcs[t];
            match pc
            case LifeCheck(m, owned) => pc' == LifeThrow(m, owned)
            case GateCheck(n, g, owned) => pc' == GateUnlock(n, g, owned)
            case CleanupCheck => pc' == Ended
            case _ => pc' == CleanupUnlock
  {}

  /** A lookup comes up with a gate that somebody keeps alive, or with a new one. */
  lemma LooksUpLiving(s: State, t: Thread, s': State)
    requires t in s.pcs && s.pcs[t].Lookup? && Next(s, Step(t)) == Some(s')
    ensures s'.pcs[t].IndexUnlock?
    ensures var node, gate := s.pcs[t].node, s'.pcs[t].gate;
            && s'.pcs[t].node == node && node in s'.index && s'.index[node] == gate
            && if node in s.index && !Expired(s, s.index[node]) then gate == s.index[node] && s'.index == s.index
               else gate == s.nextGate
  {}

  // ---------------------------------------------------------------------------------------------
  // Alone under the index mutex there is no other way than GateFor's.
  // ---------------------------------------------------------------------------------------------

  /** Thread t, alone since `s0`, is in the index section or behind it. */
  ghost predicate InSection(s0: State, s: State, t: Thread, node: Node, alive: set<Gate>) {
    && t in s.pcs
    && match s.pcs[t]
       case IndexWait(n) => n == node && s.index == s0.index && s.nextGate == s0.nextGate && Knows(s, alive)
       case Pruning(n, todo) =>
         && n == node && Knows(s, alive) && s.nextGate == s0.nextGate && todo <= s0.index.Keys
         && s.index == Pruned(s0.index, s0.index.Keys - todo, alive)
       case Lookup(n) => n == node && Knows(s, alive) && s.nextGate == s0.nextGate && s.index == Living(s0.index, alive)
       case IndexUnlock(n, g) => n == node && (s.index, s.nextGate, g) == Found(s0.index, s0.nextGate, node, alive)
       case Leased(_) => false
       case CleanupLease => false
       case LifeCheck(_, _) => false
       case LifeDecide(_, _) => false
       case LifeTry(_) => false
       case CleanupCheck => false
       case CleanupLock => false
       case CleanupRecheck => false
       case _ => true
  }

  lemma SectionPrunes(s0: State, s: State, t: Thread, node: Node, alive: set<Gate>, n: Node)
    requires InSection(s0, s, t, node, alive) && s.pcs[t].Pruning? && n in s.pcs[t].todo
    ensures Next(s, Prune(t, n)).Some? && InSection(s0, Next(s, Prune(t, n)).value, t, node, alive)
  {
    var todo := s.pcs[t].todo;
    var s' := PrunesOne(s, t, n, alive);
    assert s0.index.Keys - (todo - {n}) == (s0.index.Keys - todo) + {n};
    assert Pruned(Pruned(s0.index, s0.index.Keys - todo, alive), {n}, alive) ==
           Pruned(s0.index, (s0.index.Keys - todo) + {n}, alive);
  }

  lemma SectionSteps(s0: State, s: State, t: Thread, node: Node, alive: set<Gate>)
    requires InSection(s0, s, t, node, alive) && Next(s, Step(t)).Some?
    ensures InSection(s0, Next(s, Step(t)).value, t, node, alive)
  {
    var s' := Next(s, Step(t)).value;
    match s.pcs[t]
    case IndexWait(n) =>
      SameKnowledge(s, s', t, alive);
      assert s0.index.Keys - s0.index.Keys == {};
      assert Pruned(s0.index, {}, alive) == s0.index;
    case Pruning(n, todo) =>
      SameKnowledge(s, s', t, alive);
      assert Pruned(s0.index, s0.index.Keys - {}, alive) == Living(s0.index, alive);
    case Lookup(n) =>
    case _ =>
  }

  lemma {:induction false} SectionGoesOn(s0: State, s: State, t: Thread, node: Node, alive: set<Gate>, acts: seq<Action>, s': State)
    requires InSection(s0, s, t, node, alive) && Runs.Reaches(Next, s, acts, s') && forall a <- acts :: a.t == t
    ensures InSection(s0, s', t, node, alive)
    decreases |acts|
  {
    if acts != [] {
      var a := acts[0];
      assert a in acts;
      if a.Step? {
        SectionSteps(s0, s, t, node, alive);
      } else if a.Prune? {
        SectionPrunes(s0, s, t, node, alive, a.node);
      }
      SectionGoesOn(s0, Next(s, a).value, t, node, alive, acts[1..], s');
    }
  }

  /**
   Whatever steps a thread takes alone from outside the index mutex to its strong reference, in whatever order it
   prunes, it ends with the index, and holding the gate, that GateFor computes.
   */
  lemma IndexSectionOnlyGateFor(s: State, t: Thread, node: Node, alive: set<Gate>, acts: seq<Action>, s': State)
    requires t in s.pcs && s.pcs[t] == IndexWait(node) && Knows(s, alive)
    requires Runs.Reaches(Next, s, acts, s') && (forall a <- acts :: a.t == t) && t in s'.pcs && s'.pcs[t].IndexUnlock?
    ensures (s'.index, s'.nextGate, s'.pcs[t].gate) == Found(s.index, s.nextGate, node, alive)
  {
    SectionGoesOn(s, s, t, node, alive, acts, s');
  }

  // ---------------------------------------------------------------------------------------------
  // Every call can end.
  // ---------------------------------------------------------------------------------------------

  /** An upper bound on the steps a call still has to take. */
  function Left(pc: Pc): nat {
    match pc
    case Ended => 0
    case LifeThrow(_, _) => 1
    case LifeDecide(_, _) => 2
    case LifeCheck(_, _) => 3
    case LifeTry(_) => 4
    case LifeDrop(_) => 1
    case Leased(_) => 2
    case CleanupLease => 2
    case CleanupUnlock => 1
    case CleanupRecheck => 3
    case ShutdownHeld => 1
    case ReferenceDrop(_, _) => 2
    case GateUnlock(_, _, _) => 3
    case NodeLease(_, _) => 4
    case GateDecide(_, _, _) => 4
    case GateCheck(_, _, _) => 5
    case GateTry(_, _) => 6
    case IndexUnlock(_, _) => 7
    case Lookup(_) => 8
    case Pruning(_, todo) => 9 + |todo|
    case _ => 0
  }

  /** Where a call waits for a mutex without a deadline. */
  predicate Blocks(pc: Pc) {
    pc.IndexWait? || pc.ShutdownLock? || pc.CleanupLock? || pc.CleanupCheck?
  }

  /** The lifetime lock and the leases on it. */
  predicate InLifetime(pc: Pc) {
    || pc.LifeCheck? || pc.LifeDecide? || pc.LifeTry? || pc.LifeThrow? || pc.Leased? || pc.LifeDrop?
    || pc.ShutdownHeld? || pc.CleanupRecheck? || pc.CleanupUnlock? || pc.CleanupLease?
  }

  lemma LifetimeGoesOn(s: State, t: Thread) returns (a: Action)
    requires t in s.pcs && InLifetime(s.pcs[t])
    ensures a.t == t && MoveOf(s, a).Some?
    ensures var pc' := MoveOf(s, a).value.pc; !Blocks(pc') && Left(pc') < Left(s.pcs[t])
  {
    a := if s.pcs[t].LifeDecide? then Throw(t) else if s.pcs[t].LifeTry? then TryFails(t) else Step(t);
  }

  lemma PruningGoesOn(s: State, t: Thread) returns (a: Action)
    requires t in s.pcs && s.pcs[t].Pruning?
    ensures a.t == t && MoveOf(s, a).Some?
    ensures var pc' := MoveOf(s, a).value.pc; !Blocks(pc') && Left(pc') < Left(s.pcs[t])
  {
    var todo := s.pcs[t].todo;
    if todo == {} {
      a := Step(t);
    } else {
      var n :| n in todo;
      a := Prune(t, n);
      assert |todo - {n}| == |todo| - 1;
    }
  }

  lemma NodeGoesOn(s: State, t: Thread) returns (a: Action)
    requires t in s.pcs && !s.pcs[t].Ended? && !Blocks(s.pcs[t]) && !InLifetime(s.pcs[t]) && !s.pcs[t].Pruning?
    ensures a.t == t && MoveOf(s, a).Some?
    ensures var pc' := MoveOf(s, a).value.pc; !Blocks(pc') && Left(pc') < Left(s.pcs[t])
  {
    a := if s.pcs[t].GateDecide? then Throw(t) else if s.pcs[t].GateTry? then TryFails(t) else Step(t);
  }

  lemma CallGoesOn(s: State, t: Thread) returns (a: Action, s': State)
    requires t in s.pcs && !s.pcs[t].Ended? && !Blocks(s.pcs[t])
    ensures Next(s, a) == Some(s') && s'.pcs.Keys == s.pcs.Keys && s'.pcs == s.pcs[t := s'.pcs[t]]
    ensures !Blocks(s'.pcs[t]) && Left(s'.pcs[t]) < Left(s.pcs[t])
  {
    if InLifetime(s.pcs[t]) {
      a := LifetimeGoesOn(s, t);
    } else if s.pcs[t].Pruning? {
      a := PruningGoesOn(s, t);
    } else {
      a := NodeGoesOn(s, t);
    }
    s' := Apply(s, t, MoveOf(s, a).value);
  }

  lemma {:induction false} CallEnds(s: State, t: Thread) returns (s': State)
    requires t in s.pcs && !Blocks(s.pcs[t])
    ensures Runs.Leads(Next, s, s') && s'.pcs == s.pcs[t := Ended]
    decreases Left(s.pcs[t])
  {
    if s.pcs[t].Ended? {
      s' := s;
      assert Runs.Reaches(Next, s, [], s);
      assert s.pcs[t := Ended] == s.pcs;
    } else {
      var a, next := CallGoesOn(s, t);
      s' := CallEnds(next, t);
      assert next.pcs[t := Ended] == s.pcs[t := Ended];
      Runs.OneLeads(Next, s, a, next);
      Runs.LeadsOn(Next, s, next, s');
    }
  }

  /**
   A call is never stuck in the admission loops or under a lease: from every reachable state it can come to its end
   by itself, whoever holds the locks, by its deadline if need be, and it then owns nothing.
   */
  lemma EveryCallCanEnd(acts: seq<Action>, s: State, t: Thread) returns (s': State)
    requires Runs.Reaches(Next, START, acts, s) && t in s.pcs && !Blocks(s.pcs[t])
    ensures Runs.Leads(Next, s, s') && s'.pcs == s.pcs[t := Ended]
    ensures t !in s'.shared && s'.exclusive != Some(t) && s'.indexOwner != Some(t)
    ensures forall g <- s'.gates :: s'.gates[g] != t
  {
    s' := CallEnds(s, t);
    var more :| Runs.Reaches(Next, s, more, s');
    Runs.Append(Next, START, acts, s, more, s');
    EndedOwnsNothing(acts + more, s', t);
  }
}
