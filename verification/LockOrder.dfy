/**
 The locks of the controller and the order in which its operations take them: no reachable state of
 any number of concurrent operations is a deadlock.
 */
module LockOrder {
  import opened Basics
  import Runs

  type Thread = nat

  datatype Lock =
    | Instance                 // the process-wide guard of the active runtime
    | Lifetime
    | NodeIndex
    | NodeGate(node: u64)
    | CameraGate
    | Operation                // mOperationMutex
    | Runtime                  // mMutex
    | ChipStack
    | Completion(id: nat)      // the mutex of one operation's state

  function Rank(l: Lock): nat {
    match l
    case Instance => 0
    case Lifetime => 1
    case NodeIndex => 2
    case NodeGate(_) => 3
    case CameraGate => 4
    case Operation => 5
    case Runtime => 6
    case ChipStack => 7
    case Completion(_) => 8
  }

  /** Locks are held by scoped objects, so a lock program is nested: a body under a lock, then what follows. */
  datatype Program = Done | Under(lock: Lock, shared: bool, body: Program, next: Program)

  /** Every lock is taken above all that are held around it, the highest of which has rank `floor`; only the lifetime lock is shared. */
  predicate Rises(p: Program, floor: int) {
    match p
    case Done => true
    case Under(l, shared, body, next) =>
      floor < Rank(l) && (shared ==> l == Lifetime) && Rises(body, Rank(l)) && Rises(next, floor)
  }

  // ---------------------------------------------------------------------------------------------
  // What each operation does with its locks, waits on condition variables and network aside.
  // ---------------------------------------------------------------------------------------------

  /** Take `l` and drop it again, then go on. */
  function Brief(l: Lock, next: Program): (p: Program)
    ensures forall floor: int :: floor < Rank(l) && Rises(next, floor) ==> Rises(p, floor)
  {
    Under(l, false, Done, next)
  }

  /** Everything under `l`. */
  function Alone(l: Lock, body: Program): (p: Program)
    ensures forall floor: int :: floor < Rank(l) && Rises(body, Rank(l)) ==> Rises(p, floor)
  {
    Under(l, false, body, Done)
  }

  function UnderLease(body: Program): (p: Program)
    ensures forall floor: int :: floor < Rank(Lifetime) && Rises(body, Rank(Lifetime)) ==> Rises(p, floor)
  {
    Under(Lifetime, true, body, Done)
  }

  function AdmitNode(node: u64, body: Program): (p: Program)
    ensures forall floor: int :: floor < Rank(NodeIndex) && Rises(body, Rank(NodeGate(node))) ==> Rises(p, floor)
  {
    Brief(NodeIndex, Alone(NodeGate(node), body))
  }

  /** Check that the runtime is open, start a connected operation, wait for it, release its native client. */
  function Interact(id: nat, next: Program): (p: Program)
    ensures forall floor: int :: floor < Rank(Runtime) && Rises(next, floor) ==> Rises(p, floor)
  {
    assert Rises(Brief(Completion(id), Done), Rank(ChipStack));
    Brief(Runtime, Under(ChipStack, false, Brief(Completion(id), Done), Brief(Completion(id), Brief(ChipStack, next))))
  }

  /** Close subscriptions and the camera host, all under the exclusive lease. */
  function ShutDown(id: nat): Program {
    Alone(Lifetime, Alone(Operation, Alone(Runtime, Brief(ChipStack, Brief(Completion(id), Brief(ChipStack, Done))))))
  }

  datatype Task =
    | CreateRuntime            // one whose initialization fails, so that it also shuts down
    | Close
    | Metadata                 // fabric index, node list, camera state, signal polling
    | Interaction              // reads, writes, commands, events
    | Subscribe
    | CameraCommand            // start and candidates
    | Commission
    | Remove
    | CloseSubscription
    | CloseCamera
    | StackCallback            // the event loop completing an operation

  function ProgramOf(task: Task, node: u64, id: nat): Program {
    match task
    case CreateRuntime => Alone(Instance, Brief(Operation, Brief(ChipStack, ShutDown(id))))
    case Close => ShutDown(id)
    case Metadata => UnderLease(Alone(Operation, Brief(Runtime, Brief(ChipStack, Done))))
    case Interaction => UnderLease(AdmitNode(node, Interact(id, Done)))
    case Subscribe => UnderLease(AdmitNode(node, Interact(id, Brief(Operation, Done))))
    case CameraCommand =>
      UnderLease(Brief(Runtime, Brief(ChipStack, AdmitNode(node, Alone(CameraGate, Interact(id, Done))))))
    case Commission =>
      Alone(Lifetime, Alone(Operation, Brief(Completion(id), Interact(id, Done))))
    case Remove => Alone(Lifetime, Alone(Operation, Brief(Runtime, Brief(ChipStack, Done))))
    case CloseSubscription => UnderLease(Brief(ChipStack, Brief(Completion(id), Brief(Operation, Done))))
    case CloseCamera => UnderLease(Brief(ChipStack, AdmitNode(node, Alone(CameraGate, Interact(id, Brief(ChipStack, Done))))))
    case StackCallback => Alone(ChipStack, Brief(Completion(id), Done))
  }

  /** Every operation takes its locks in strictly increasing rank, the lifetime lock once, and shares only that one. */
  lemma EveryProgramRises(task: Task, node: u64, id: nat)
    ensures Rises(ProgramOf(task, node, id), -1)
  {
    assert forall floor: int :: Rises(Done, floor);
  }

  /** The locks of rank below the operation mutex, by which operations are told apart. */
  function Guards(p: Program): set<Lock> {
    match p
    case Done => {}
    case Under(l, _, body, next) => Guard(l) + Guards(body) + Guards(next)
  }

  function Guard(l: Lock): set<Lock> {
    if Rank(l) < 5 then {l} else {}
  }

  lemma BriefGuards(l: Lock, next: Program)
    ensures Guards(Brief(l, next)) == Guard(l) + Guards(next)
  {
    assert Guards(Done) == {};
  }

  lemma AloneGuards(l: Lock, shared: bool, body: Program)
    ensures Guards(Under(l, shared, body, Done)) == Guard(l) + Guards(body)
  {
    assert Guards(Done) == {};
  }

  lemma InteractGuards(id: nat, next: Program)
    ensures Guards(Interact(id, next)) == Guards(next)
  {
    var told, let := Brief(Completion(id), Done), Brief(Completion(id), Brief(ChipStack, next));
    BriefGuards(Completion(id), Done);
    BriefGuards(ChipStack, next);
    BriefGuards(Completion(id), Brief(ChipStack, next));
    assert Guards(Under(ChipStack, false, told, let)) == Guard(ChipStack) + Guards(told) + Guards(let);
    BriefGuards(Runtime, Under(ChipStack, false, told, let));
  }

  lemma NodeGuards(node: u64, body: Program)
    ensures Guards(AdmitNode(node, body)) == {NodeIndex, NodeGate(node)} + Guards(body)
  {
    AloneGuards(NodeGate(node), false, body);
    BriefGuards(NodeIndex, Alone(NodeGate(node), body));
  }

  lemma CameraGuards(node: u64, id: nat, next: Program)
    ensures Guards(AdmitNode(node, Alone(CameraGate, Interact(id, next)))) == {NodeIndex, NodeGate(node), CameraGate} + Guards(next)
  {
    InteractGuards(id, next);
    AloneGuards(CameraGate, false, Interact(id, next));
    NodeGuards(node, Alone(CameraGate, Interact(id, next)));
  }

  lemma ShutDownGuards(id: nat)
    ensures Guards(ShutDown(id)) == {Lifetime}
  {
    var closing := Brief(ChipStack, Brief(Completion(id), Brief(ChipStack, Done)));
    BriefGuards(ChipStack, Done);
    BriefGuards(Completion(id), Brief(ChipStack, Done));
    BriefGuards(ChipStack, Brief(Completion(id), Brief(ChipStack, Done)));
    AloneGuards(Runtime, false, closing);
    AloneGuards(Operation, false, Alone(Runtime, closing));
    AloneGuards(Lifetime, false, Alone(Operation, Alone(Runtime, closing)));
  }

  /**
   What guards an operation: the lifetime lock, which comes first and is exclusive where the runtime itself changes;
   whatever talks to one node takes the gate of that node, and of no other; and cameras have a gate of their own.
   */
  lemma WhatGuards(task: Task, node: u64, id: nat)
    ensures Guards(ProgramOf(task, node, id)) ==
            match task
            case CreateRuntime => {Instance, Lifetime}
            case StackCallback => {}
            case Interaction => {Lifetime, NodeIndex, NodeGate(node)}
            case Subscribe => {Lifetime, NodeIndex, NodeGate(node)}
            case CameraCommand => {Lifetime, NodeIndex, NodeGate(node), CameraGate}
            case CloseCamera => {Lifetime, NodeIndex, NodeGate(node), CameraGate}
            case _ => {Lifetime}
  {
    match task
    case CreateRuntime =>
      ShutDownGuards(id);
      BriefGuards(ChipStack, ShutDown(id));
      BriefGuards(Operation, Brief(ChipStack, ShutDown(id)));
      AloneGuards(Instance, false, Brief(Operation, Brief(ChipStack, ShutDown(id))));
    case Close => ShutDownGuards(id);
    case StackCallback =>
      BriefGuards(Completion(id), Done);
      AloneGuards(ChipStack, false, Brief(Completion(id), Done));
    case _ => LeasedGuards(task, node, id);
  }

  /** The body of an operation under the lifetime lock. */
  function Leased(task: Task, node: u64, id: nat): Program
    requires ProgramOf(task, node, id).Under? && ProgramOf(task, node, id).lock == Lifetime
  {
    ProgramOf(task, node, id).body
  }

  lemma LeasedGuards(task: Task, node: u64, id: nat)
    requires !task.CreateRuntime? && !task.Close? && !task.StackCallback?
    ensures Guards(ProgramOf(task, node, id)) == {Lifetime} + Guards(Leased(task, node, id))
    ensures Guards(Leased(task, node, id)) ==
            if task.Interaction? || task.Subscribe? then {NodeIndex, NodeGate(node)}
            else if task.CameraCommand? || task.CloseCamera? then {NodeIndex, NodeGate(node), CameraGate}
            else {}
  {
    AloneGuards(Lifetime, ProgramOf(task, node, id).shared, Leased(task, node, id));
    match task
    case Interaction =>
      InteractGuards(id, Done);
      NodeGuards(node, Interact(id, Done));
    case Subscribe =>
      BriefGuards(Operation, Done);
      InteractGuards(id, Brief(Operation, Done));
      NodeGuards(node, Interact(id, Brief(Operation, Done)));
    case CameraCommand =>
      CameraGuards(node, id, Done);
      var admitted := AdmitNode(node, Alone(CameraGate, Interact(id, Done)));
      BriefGuards(ChipStack, admitted);
      BriefGuards(Runtime, Brief(ChipStack, admitted));
    case CloseCamera =>
      BriefGuards(ChipStack, Done);
      CameraGuards(node, id, Brief(ChipStack, Done));
      BriefGuards(ChipStack, AdmitNode(node, Alone(CameraGate, Interact(id, Brief(ChipStack, Done)))));
    case Commission =>
      InteractGuards(id, Done);
      BriefGuards(Completion(id), Interact(id, Done));
      AloneGuards(Operation, false, Brief(Completion(id), Interact(id, Done)));
    case CloseSubscription =>
      BriefGuards(Operation, Done);
      BriefGuards(Completion(id), Brief(Operation, Done));
      BriefGuards(ChipStack, Brief(Completion(id), Brief(Operation, Done)));
    case _ =>
      BriefGuards(ChipStack, Done);
      BriefGuards(Runtime, Brief(ChipStack, Done));
      AloneGuards(Operation, false, Brief(Runtime, Brief(ChipStack, Done)));
  }

  lemma WhatComesFirst(task: Task, node: u64, id: nat)
    ensures Ops(ProgramOf(task, node, id)) != []
    ensures Ops(ProgramOf(task, node, id))[0] ==
            match task
            case CreateRuntime => Take(Instance)
            case StackCallback => Take(ChipStack)
            case _ => if task in {Close, Commission, Remove} then Take(Lifetime) else Share(Lifetime)
  {}

  // ---------------------------------------------------------------------------------------------
  // The machine.
  // ---------------------------------------------------------------------------------------------

  datatype Op = Take(lock: Lock) | Share(lock: Lock) | Drop(lock: Lock)

  function Ops(p: Program): seq<Op> {
    match p
    case Done => []
    case Under(l, shared, body, next) => [if shared then Share(l) else Take(l)] + (Ops(body) + ([Drop(l)] + Ops(next)))
  }

  /** From `held` on, `rest` takes every lock above all it holds, drops only what it holds, and ends with nothing. */
  predicate Ascending(held: set<Lock>, rest: seq<Op>)
    decreases |rest|
  {
    if rest == [] then held == {}
    else if rest[0].Drop? then rest[0].lock in held && Ascending(held - {rest[0].lock}, rest[1..])
    else (forall h <- held :: Rank(h) < Rank(rest[0].lock)) && Ascending(held + {rest[0].lock}, rest[1..])
  }

  lemma AscendOn(held: set<Lock>, op: Op, rest: seq<Op>)
    requires if op.Drop? then op.lock in held && Ascending(held - {op.lock}, rest)
             else (forall h <- held :: Rank(h) < Rank(op.lock)) && Ascending(held + {op.lock}, rest)
    ensures Ascending(held, [op] + rest)
  {
    assert ([op] + rest)[1..] == rest;
  }

  lemma OpsUnder(p: Program, rest: seq<Op>)
    requires p.Under?
    ensures Ops(p) + rest ==
            [if p.shared then Share(p.lock) else Take(p.lock)] +
            (Ops(p.body) + ([Drop(p.lock)] + (Ops(p.next) + rest)))
  {}

  lemma {:induction false} RisingAscends(p: Program, floor: int, held: set<Lock>, rest: seq<Op>)
    requires Rises(p, floor) && (forall h <- held :: Rank(h) <= floor) && Ascending(held, rest)
    ensures Ascending(held, Ops(p) + rest)
    decreases p
  {
    match p
    case Done => assert Ops(p) + rest == rest;
    case Under(l, shared, body, next) =>
      RisingAscends(next, floor, held, rest);
      var after := [Drop(l)] + (Ops(next) + rest);
      assert (held + {l}) - {l} == held;
      AscendOn(held + {l}, Drop(l), Ops(next) + rest);
      RisingAscends(body, Rank(l), held + {l}, after);
      AscendOn(held, if shared then Share(l) else Take(l), Ops(body) + after);
      OpsUnder(p, rest);
  }

  datatype Running = Running(exclusive: set<Lock>, shared: set<Lock>, rest: seq<Op>)

  type State = map<Thread, Running>

  datatype Action = Begin(t: Thread, task: Task, node: u64, id: nat) | Step(t: Thread)

  predicate Holds(r: Running, l: Lock) {
    l in r.exclusive || l in r.shared
  }

  /**
   Whether the lock operation can go ahead.  A shared acquisition also waits while anybody waits for
   the exclusive side: the least favourable of the behaviours a shared mutex may have.
   */
  predicate Enabled(s: State, t: Thread, op: Op) {
    match op
    case Drop(_) => true
    case Take(l) => forall u <- s | u != t :: !Holds(s[u], l)
    case Share(l) =>
      && (forall u <- s | u != t :: l !in s[u].exclusive)
      && (forall u <- s | u != t && s[u].rest != [] :: s[u].rest[0] != Take(l))
  }

  /** The thread that takes its next lock operation. */
  function Stepped(r: Running): Running
    requires r.rest != []
  {
    var l := r.rest[0].lock;
    match r.rest[0]
    case Take(_) => Running(r.exclusive + {l}, r.shared, r.rest[1..])
    case Share(_) => Running(r.exclusive, r.shared + {l}, r.rest[1..])
    case Drop(_) => Running(r.exclusive - {l}, r.shared - {l}, r.rest[1..])
  }

  function Next(s: State, a: Action): Option<State> {
    match a
    case Begin(t, task, node, id) =>
      if t in s then None else Some(s[t := Running({}, {}, Ops(ProgramOf(task, node, id)))])
    case Step(t) =>
      if t !in s || s[t].rest == [] || !Enabled(s, t, s[t].rest[0]) then None else
      Some(s[t := Stepped(s[t])])
  }

  ghost predicate Inv(s: State) {
    && (forall t <- s :: Ascending(s[t].exclusive + s[t].shared, s[t].rest))
    && (forall t <- s, u <- s, l | t != u && l in s[t].exclusive :: !Holds(s[u], l))
  }

  lemma BeginKeepsInv(s: State, t: Thread, task: Task, node: u64, id: nat)
    requires Inv(s) && t !in s
    ensures Inv(s[t := Running({}, {}, Ops(ProgramOf(task, node, id)))])
  {
    var rest := Ops(ProgramOf(task, node, id));
    EveryProgramRises(task, node, id);
    RisingAscends(ProgramOf(task, node, id), -1, {}, []);
    assert rest + [] == rest;
    var none: set<Lock> := {};
    assert none + none == none;
    assert Ascending({}, rest);
  }

  lemma SteppedAscends(r: Running)
    requires r.rest != [] && Ascending(r.exclusive + r.shared, r.rest)
    ensures Ascending(Stepped(r).exclusive + Stepped(r).shared, Stepped(r).rest)
  {
    var l, held := r.rest[0].lock, r.exclusive + r.shared;
    assert Stepped(r).exclusive + Stepped(r).shared == if r.rest[0].Drop? then held - {l} else held + {l};
  }

  lemma StepKeepsExclusion(s: State, t: Thread, u: Thread, v: Thread, l: Lock)
    requires Inv(s) && t in s && s[t].rest != [] && Enabled(s, t, s[t].rest[0])
    requires var s' := s[t := Stepped(s[t])]; u in s' && v in s' && u != v && l in s'[u].exclusive
    ensures !Holds(s[t := Stepped(s[t])][v], l)
  {
    assert !(u == t && l == s[t].rest[0].lock && s[t].rest[0].Take?) ==> l in s[u].exclusive;
  }

  lemma StepKeepsInv(s: State, a: Action)
    requires Inv(s) && Next(s, a).Some?
    ensures Inv(Next(s, a).value)
  {
    match a
    case Begin(t, task, node, id) => BeginKeepsInv(s, t, task, node, id);
    case Step(t) =>
      var s' := Next(s, a).value;
      SteppedAscends(s[t]);
      forall u <- s', v <- s', l | u != v && l in s'[u].exclusive ensures !Holds(s'[v], l) {
        StepKeepsExclusion(s, t, u, v, l);
      }
  }

  lemma Reachable(acts: seq<Action>, s: State)
    requires Runs.Reaches(Next, map[], acts, s)
    ensures Inv(s)
  {
    forall s: State, a | Inv(s) && Next(s, a).Some? ensures Inv(Next(s, a).value) {
      StepKeepsInv(s, a);
    }
    Runs.InvariantHolds(Next, Inv, map[], acts, s);
  }

  /** The rank a thread is waiting at. */
  function Wanted(r: Running): int {
    if r.rest == [] || r.rest[0].Drop? then -1 else Rank(r.rest[0].lock)
  }

  lemma {:induction false} HighestWaiter(s: State, among: set<Thread>) returns (t: Thread)
    requires among != {} && among <= s.Keys
    ensures t in among && forall u <- among :: Wanted(s[u]) <= Wanted(s[t])
    decreases |among|
  {
    t :| t in among;
    if among != {t} {
      var u := HighestWaiter(s, among - {t});
      if Wanted(s[t]) < Wanted(s[u]) {
        t := u;
      }
    }
  }

  /** Whoever holds a lock can move or waits at a higher rank. */
  lemma HolderMovesOrWaitsHigher(s: State, u: Thread, l: Lock)
    requires Inv(s) && u in s && Holds(s[u], l)
    ensures Next(s, Step(u)).Some? || Wanted(s[u]) > Rank(l)
  {
    assert l in s[u].exclusive + s[u].shared;
  }

  /** What stops a thread: a holder of the lock it wants, at worst by way of a thread that wants the same lock exclusively. */
  lemma BlockedByHolder(s: State, t: Thread)
    requires Inv(s) && t in s && s[t].rest != [] && (forall u <- s :: Next(s, Step(u)).None?)
    ensures !s[t].rest[0].Drop? && exists u <- s :: Holds(s[u], s[t].rest[0].lock)
  {
    assert Next(s, Step(t)).None?;
    var l := s[t].rest[0].lock;
    if s[t].rest[0].Share? && !(exists u <- s | u != t :: l in s[u].exclusive) {
      var w :| w in s && w != t && s[w].rest != [] && s[w].rest[0] == Take(l);
      assert Next(s, Step(w)).None?;
    }
  }

  lemma NotAllStuck(s: State, t: Thread)
    requires Inv(s) && t in s && s[t].rest != []
    ensures exists u <- s :: Next(s, Step(u)).Some?
  {
    var top := HighestWaiter(s, s.Keys);
    if forall u <- s :: Next(s, Step(u)).None? {
      BlockedByHolder(s, t);
      BlockedByHolder(s, top);
      var u :| u in s && Holds(s[u], s[top].rest[0].lock);
      HolderMovesOrWaitsHigher(s, u, s[top].rest[0].lock);
      assert false;
    }
  }

  /**
   Deadlock freedom: whatever operations run, for whatever nodes and in whatever interleaving, while
   any of them is unfinished at least one can take its next lock step.  And locks exclude.
   */
  lemma SomeoneCanStep(acts: seq<Action>, s: State, t: Thread)
    requires Runs.Reaches(Next, map[], acts, s)
    requires t in s && s[t].rest != []
    ensures exists u <- s :: Next(s, Step(u)).Some?
    ensures forall u <- s, l | u != t && l in s[t].exclusive :: !Holds(s[u], l)
  {
    Reachable(acts, s);
    NotAllStuck(s, t);
  }

  /** Any operation may begin at any time, with its whole program before it and no lock. */
  lemma BeginsAnyTime(s: State, t: Thread, task: Task, node: u64, id: nat)
    requires t !in s
    ensures Next(s, Begin(t, task, node, id)).Some?
    ensures var s' := Next(s, Begin(t, task, node, id)).value;
            && s'[t].rest == Ops(ProgramOf(task, node, id)) && s'.Keys == s.Keys + {t}
            && (forall l :: !Holds(s'[t], l)) && forall u <- s :: s'[u] == s[u]
  {}

  /** How many lock steps the threads still have to take. */
  function Work(s: State, threads: seq<Thread>): nat {
    if threads == [] then 0
    else (if threads[0] in s then |s[threads[0]].rest| else 0) + Work(s, threads[1..])
  }

  lemma {:induction false} StepIsWork(s: State, threads: seq<Thread>, t: Thread, s': State)
    requires Next(s, Step(t)) == Some(s')
    ensures Work(s', threads) <= Work(s, threads)
    ensures t in threads ==> Work(s', threads) < Work(s, threads)
  {
    if threads != [] {
      StepIsWork(s, threads[1..], t, s');
    }
  }

  lemma {:induction false} ThreadsOf(among: set<Thread>) returns (threads: seq<Thread>)
    ensures forall t :: t in threads <==> t in among
    decreases |among|
  {
    if among == {} {
      threads := [];
    } else {
      var t :| t in among;
      var rest := ThreadsOf(among - {t});
      threads := [t] + rest;
    }
  }

  predicate Finished(s: State) {
    forall t <- s :: s[t].rest == []
  }

  lemma {:induction false} WorkEnds(s: State, threads: seq<Thread>) returns (s': State)
    requires Inv(s) && forall t :: t in threads <==> t in s
    ensures Runs.Leads(Next, s, s') && s'.Keys == s.Keys && Finished(s')
    decreases Work(s, threads)
  {
    if Finished(s) {
      s' := s;
      assert Runs.Reaches(Next, s, [], s);
    } else {
      var t :| t in s && s[t].rest != [];
      var u, next := SomeStep(s, t);
      StepIsWork(s, threads, u, next);
      StepKeepsInv(s, Step(u));
      s' := WorkEnds(next, threads);
      Runs.OneLeads(Next, s, Step(u), next);
      Runs.LeadsOn(Next, s, next, s');
    }
  }

  lemma SomeStep(s: State, t: Thread) returns (u: Thread, next: State)
    requires Inv(s) && t in s && s[t].rest != []
    ensures u in s && Next(s, Step(u)) == Some(next) && next.Keys == s.Keys
  {
    NotAllStuck(s, t);
    u :| u in s && Next(s, Step(u)).Some?;
    next := Next(s, Step(u)).value;
  }

  /** From every reachable state all operations can be brought to their end, and then nobody holds a lock. */
  lemma EverythingCanFinish(acts: seq<Action>, s: State) returns (s': State)
    requires Runs.Reaches(Next, map[], acts, s)
    ensures Runs.Leads(Next, s, s') && s'.Keys == s.Keys
    ensures forall t <- s', l :: s'[t].rest == [] && !Holds(s'[t], l)
  {
    Reachable(acts, s);
    var threads := ThreadsOf(s.Keys);
    s' := WorkEnds(s, threads);
    FinishedHoldsNothing(acts, s, s');
  }

  lemma FinishedHoldsNothing(acts: seq<Action>, s: State, s': State)
    requires Runs.Reaches(Next, map[], acts, s) && Runs.Leads(Next, s, s') && Finished(s')
    ensures forall t <- s', l :: !Holds(s'[t], l)
  {
    var more :| Runs.Reaches(Next, s, more, s');
    Runs.Append(Next, map[], acts, s, more, s');
    Reachable(acts + more, s');
    forall t <- s', l ensures !Holds(s'[t], l) {
      assert Ascending(s'[t].exclusive + s'[t].shared, []);
    }
  }
}