/** Commissioning progress: events queue up and one background task at a time delivers them. */
module Progress {
  import opened Basics
  import Runs

  type Thread = nat

  /** The fields guarded by the progress mutex. */
  datatype Shared<T> = Shared(pending: seq<T>, scheduled: bool)

  const EMPTY_QUEUE: Shared<nat> := Shared([], false)

  /** Publish under the lock; the second part says that a drain task has to be started. */
  function Published<T>(c: Shared<T>, progress: T): (Shared<T>, bool) {
    (Shared(c.pending + [progress], true), !c.scheduled)
  }

  /** The locked part of the drain loop; None ends the drain. */
  function Taken<T>(c: Shared<T>): (Shared<T>, Option<T>) {
    if c.pending == [] then (Shared([], false), None) else (Shared(c.pending[1..], c.scheduled), Some(c.pending[0]))
  }

  /** What WaitForProgressDrain waits for. */
  predicate IsDrained<T>(c: Shared<T>) {
    !c.scheduled && c.pending == []
  }

  class CommissioningProgress<T> {
    var mPendingProgress: seq<T>
    var mProgressDrainScheduled: bool

    function Contents(): Shared<T>
      reads this
    {
      Shared(mPendingProgress, mProgressDrainScheduled)
    }

    constructor ()
      ensures Contents() == Shared([], false)
    {
      mPendingProgress, mProgressDrainScheduled := [], false;
    }

    method PublishLocked(progress: T) returns (scheduleDrain: bool)
      modifies this
      ensures mPendingProgress == old(mPendingProgress) + [progress] && mProgressDrainScheduled
      ensures scheduleDrain == !old(mProgressDrainScheduled)
      ensures (Contents(), scheduleDrain) == Published(old(Contents()), progress)
    {
      mPendingProgress := mPendingProgress + [progress];
      scheduleDrain := false;
      if !mProgressDrainScheduled {
        mProgressDrainScheduled := true;
        scheduleDrain := true;
      }
    }

    method TakeLocked() returns (progress: Option<T>)
      modifies this
      ensures progress.None? <==> old(mPendingProgress) == []
      ensures progress.Some? ==> old(mPendingProgress) == [progress.value] + mPendingProgress
      ensures progress.None? ==> mPendingProgress == []
      ensures mProgressDrainScheduled == (old(mProgressDrainScheduled) && progress.Some?)
      ensures (Contents(), progress) == Taken(old(Contents()))
    {
      if mPendingProgress == [] {
        mProgressDrainScheduled := false;
        return None;
      }
      progress := Some(mPendingProgress[0]);
      mPendingProgress := mPendingProgress[1..];
    }

    method DrainedLocked() returns (drained: bool)
      ensures drained <==> !mProgressDrainScheduled && mPendingProgress == []
      ensures drained == IsDrained(Contents())
    {
      drained := !mProgressDrainScheduled && mPendingProgress == [];
    }
  }

  // ---------------------------------------------------------------------------------------------
  // The interleavings of any number of publishers, drain tasks and waiters.
  // ---------------------------------------------------------------------------------------------

  datatype Pc =
    | Starting                  // published, will start the drain task
    | AtTop                     // a drain task about to take the lock
    | InHand(event: nat)        // a drain task about to raise the event
    | Waiting(seen: nat)        // WaitForProgressDrain; `seen` events were published before it was called
    | Returned(seen: nat, delivered: nat)   // it returned when that many had been delivered
    | Ended

  /** Events are numbered in publishing order, so `delivered` lists numbers below `published`. */
  datatype State = State(shared: Shared<nat>, pcs: map<Thread, Pc>, published: nat, delivered: seq<nat>)

  const START := State(EMPTY_QUEUE, map[], 0, [])

  datatype Action = Publish(t: Thread) | Wait(t: Thread) | Step(t: Thread)

  function Next(s: State, a: Action): Option<State> {
    match a
    case Publish(t) =>
      if t in s.pcs then None
      else
        var (shared, starts) := Published(s.shared, s.published);
        Some(State(shared, s.pcs[t := if starts then Starting else Ended], s.published + 1, s.delivered))
    case Wait(t) => if t in s.pcs then None else Some(s.(pcs := s.pcs[t := Waiting(s.published)]))
    case Step(t) =>
      if t !in s.pcs then None else
      match s.pcs[t]
      case Starting => Some(s.(pcs := s.pcs[t := AtTop]))   // the drain runs under the same name
      case AtTop =>
        var (shared, taken) := Taken(s.shared);
        Some(s.(shared := shared, pcs := s.pcs[t := if taken.None? then Ended else InHand(taken.value)]))
      case InHand(e) => Some(s.(delivered := s.delivered + [e], pcs := s.pcs[t := AtTop]))
      case Waiting(seen) =>
        if IsDrained(s.shared) then Some(s.(pcs := s.pcs[t := Returned(seen, |s.delivered|)])) else None
      case _ => None
  }

  /** A drain task, or the publisher that is about to start one. */
  predicate Draining(pc: Pc) {
    pc.Starting? || pc.AtTop? || pc.InHand?
  }

  function UpTo(n: nat): seq<nat> {
    seq(n, i => i)
  }

  ghost predicate OneDrain(s: State) {
    forall t <- s.pcs, u <- s.pcs | Draining(s.pcs[t]) && Draining(s.pcs[u]) :: t == u
  }

  /** Delivered, in hand, pending: the published sequence. */
  ghost predicate InOrder(s: State) {
    && ((forall t <- s.pcs :: !s.pcs[t].InHand?) ==> s.delivered + s.shared.pending == UpTo(s.published))
    && (forall t <- s.pcs | s.pcs[t].InHand? :: s.delivered + [s.pcs[t].event] + s.shared.pending == UpTo(s.published))
  }

  ghost predicate Inv(s: State) {
    && OneDrain(s)
    && (s.shared.scheduled <==> exists t <- s.pcs :: Draining(s.pcs[t]))
    && (s.shared.pending != [] ==> s.shared.scheduled)
    && InOrder(s)
    && (forall t <- s.pcs | s.pcs[t].Waiting? :: s.pcs[t].seen <= s.published)
    && (forall t <- s.pcs | s.pcs[t].Returned? :: s.pcs[t].seen <= s.pcs[t].delivered <= |s.delivered|)
  }

  lemma PublishKeepsOrder(s: State, a: Action)
    requires Inv(s) && Next(s, a).Some? && a.Publish?
    ensures InOrder(Next(s, a).value)
  {
    var s' := Next(s, a).value;
    assert UpTo(s.published) + [s.published] == UpTo(s'.published);
    assert forall t <- s'.pcs | s'.pcs[t].InHand? :: t in s.pcs && s.pcs[t].InHand?;
    assert s.delivered + s.shared.pending + [s.published] == s.delivered + s'.shared.pending;
    forall t <- s'.pcs | s'.pcs[t].InHand? ensures s'.delivered + [s'.pcs[t].event] + s'.shared.pending == UpTo(s'.published) {
      assert s.delivered + [s.pcs[t].event] + s.shared.pending + [s.published] == s'.delivered + [s'.pcs[t].event] + s'.shared.pending;
    }
    if forall t <- s'.pcs :: !s'.pcs[t].InHand? {
      assert forall t <- s.pcs :: s.pcs[t] == s'.pcs[t];
    }
  }

  lemma StepKeepsOrder(s: State, a: Action)
    requires Inv(s) && Next(s, a).Some?
    ensures InOrder(Next(s, a).value)
  {
    var s' := Next(s, a).value;
    if a.Publish? {
      PublishKeepsOrder(s, a);
    } else if a.Step? && s.pcs[a.t].AtTop? {
      assert forall t <- s.pcs :: !s.pcs[t].InHand?;
      if s.shared.pending != [] {
        assert s.delivered + s.shared.pending == s.delivered + [s.shared.pending[0]] + s'.shared.pending;
        assert forall t <- s'.pcs | s'.pcs[t].InHand? :: t == a.t;
        assert s'.pcs[a.t].InHand?;
      }
    } else if a.Step? && s.pcs[a.t].InHand? {
      assert s.delivered + [s.pcs[a.t].event] + s.shared.pending == UpTo(s.published);
      assert forall t <- s'.pcs :: !s'.pcs[t].InHand?;
    } else {
      assert forall t <- s'.pcs | s'.pcs[t].InHand? :: t in s.pcs && s.pcs[t] == s'.pcs[t];
      assert forall t <- s.pcs | s.pcs[t].InHand? :: s'.pcs[t] == s.pcs[t];
    }
  }

  lemma StepKeepsDrain(s: State, a: Action)
    requires Inv(s) && Next(s, a).Some?
    ensures var s' := Next(s, a).value;
            OneDrain(s') && (s'.shared.scheduled <==> exists t <- s'.pcs :: Draining(s'.pcs[t]))
            && (s'.shared.pending != [] ==> s'.shared.scheduled)
  {
    var s' := Next(s, a).value;
    if s.shared.scheduled {
      var t :| t in s.pcs && Draining(s.pcs[t]);
      assert a.t != t ==> Draining(s'.pcs[t]);
      assert a.t == t && s'.shared.scheduled ==> Draining(s'.pcs[t]);
    } else if s'.shared.scheduled {
      assert Draining(s'.pcs[a.t]);
    }
  }

  lemma StepKeepsWaiters(s: State, a: Action)
    requires Inv(s) && Next(s, a).Some?
    ensures var s' := Next(s, a).value;
            && (forall t <- s'.pcs | s'.pcs[t].Waiting? :: s'.pcs[t].seen <= s'.published)
            && (forall t <- s'.pcs | s'.pcs[t].Returned? :: s'.pcs[t].seen <= s'.pcs[t].delivered <= |s'.delivered|)
  {
    if a.Step? && s.pcs[a.t].Waiting? {
      assert forall t <- s.pcs :: !Draining(s.pcs[t]);
      assert s.delivered + s.shared.pending == s.delivered;
    }
  }

  lemma StepKeepsInv(s: State, a: Action)
    requires Inv(s) && Next(s, a).Some?
    ensures Inv(Next(s, a).value)
  {
    StepKeepsOrder(s, a);
    StepKeepsDrain(s, a);
    StepKeepsWaiters(s, a);
  }

  lemma Reachable(acts: seq<Action>, s: State)
    requires Runs.Reaches(Next, START, acts, s)
    ensures Inv(s)
  {
    forall s: State, a | Inv(s) && Next(s, a).Some? ensures Inv(Next(s, a).value) {
      StepKeepsInv(s, a);
    }
    Runs.InvariantHolds(Next, Inv, START, acts, s);
  }

  /** Every call is taken: an event is published under the next number, and exactly without a drain its thread starts one. */
  lemma CallsAreTaken(acts: seq<Action>, s: State, t: Thread)
    requires Runs.Reaches(Next, START, acts, s) && t !in s.pcs
    ensures Next(s, Publish(t)).Some?
    ensures var s' := Next(s, Publish(t)).value;
            && s'.published == s.published + 1 && s'.delivered == s.delivered
            && s'.shared.pending == s.shared.pending + [s.published] && s'.shared.scheduled
            && s'.pcs == s.pcs[t := if exists u <- s.pcs :: Draining(s.pcs[u]) then Ended else Starting]
    ensures Next(s, Wait(t)) == Some(s.(pcs := s.pcs[t := Waiting(s.published)]))
  {
    Reachable(acts, s);
  }

  /** At most one drain task is started or running, and one is exactly while the flag is set. */
  lemma OneDrainWhileScheduled(acts: seq<Action>, s: State)
    requires Runs.Reaches(Next, START, acts, s)
    ensures s.shared.scheduled <==> exists t <- s.pcs :: Draining(s.pcs[t])
    ensures forall t <- s.pcs, u <- s.pcs | Draining(s.pcs[t]) && Draining(s.pcs[u]) :: t == u
  {
    Reachable(acts, s);
  }

  /** Delivered, then the event in hand, then the pending ones: the events in the order they were published, all of them. */
  lemma DeliveredInOrder(acts: seq<Action>, s: State)
    requires Runs.Reaches(Next, START, acts, s)
    ensures s.delivered + s.shared.pending == UpTo(s.published)
            || exists t <- s.pcs :: s.pcs[t].InHand? && s.delivered + [s.pcs[t].event] + s.shared.pending == UpTo(s.published)
  {
    Reachable(acts, s);
  }

  /** WaitForProgressDrain returns only after everything published before it was called has been delivered, and nothing is left. */
  lemma WaitMeansDelivered(acts: seq<Action>, s: State, t: Thread)
    requires Runs.Reaches(Next, START, acts, s) && t in s.pcs
    ensures s.pcs[t].Returned? ==> s.pcs[t].seen <= s.pcs[t].delivered <= |s.delivered|
    ensures s.pcs[t].Waiting? && Next(s, Step(t)).Some? ==> s.delivered == UpTo(s.published)
  {
    Reachable(acts, s);
    if s.pcs[t].Waiting? && Next(s, Step(t)).Some? {
      assert forall u <- s.pcs :: !Draining(s.pcs[u]);
      assert s.delivered + s.shared.pending == s.delivered;
    }
  }

  /** A wait is over as soon as no drain is left: in a state without one every waiting thread can return. */
  lemma WaitIsOver(acts: seq<Action>, s: State, t: Thread)
    requires Runs.Reaches(Next, START, acts, s) && t in s.pcs && s.pcs[t].Waiting?
    requires forall u <- s.pcs :: !Draining(s.pcs[u])
    ensures Next(s, Step(t)).Some? && Next(s, Step(t)).value.pcs[t].Returned?
  {
    Reachable(acts, s);
  }

  /** What a drain in thread u still has to do. */
  function Work(s: State, u: Thread): nat
    requires u in s.pcs
  {
    2 * |s.shared.pending| + if s.pcs[u].Starting? then 2 else if s.pcs[u].InHand? then 2 else 1
  }

  lemma DrainSteps(s: State, u: Thread, t: Thread) returns (s': State)
    requires Inv(s) && u in s.pcs && Draining(s.pcs[u]) && t in s.pcs && s.pcs[t].Waiting?
    ensures Next(s, Step(u)) == Some(s') && s'.published == s.published
    ensures t in s'.pcs && s'.pcs[t] == s.pcs[t] && u in s'.pcs
    ensures Draining(s'.pcs[u]) ==> Work(s', u) < Work(s, u)
    ensures !Draining(s'.pcs[u]) ==> forall v <- s'.pcs :: !Draining(s'.pcs[v])
  {
    s' := Next(s, Step(u)).value;
  }

  lemma {:induction false} DrainEnds(s: State, u: Thread, t: Thread) returns (s': State)
    requires Inv(s) && u in s.pcs && Draining(s.pcs[u]) && t in s.pcs && s.pcs[t].Waiting?
    ensures Runs.Leads(Next, s, s') && Inv(s') && s'.published == s.published
    ensures t in s'.pcs && s'.pcs[t] == s.pcs[t] && forall v <- s'.pcs :: !Draining(s'.pcs[v])
    decreases Work(s, u)
  {
    s' := DrainSteps(s, u, t);
    StepKeepsInv(s, Step(u));
    Runs.OneLeads(Next, s, Step(u), s');
    if Draining(s'.pcs[u]) {
      var s1 := s';
      s' := DrainEnds(s1, u, t);
      Runs.LeadsOn(Next, s, s1, s');
    }
  }

  /**
   Every wait can come to its end: from every reachable state the drain, if there is one, runs to its end, with
   everything published by then delivered, and the wait returns.
   */
  lemma WaitCanReturn(acts: seq<Action>, s: State, t: Thread) returns (s': State)
    requires Runs.Reaches(Next, START, acts, s) && t in s.pcs && s.pcs[t].Waiting?
    ensures Runs.Leads(Next, s, s') && t in s'.pcs && s'.pcs[t].Returned? && s'.delivered == UpTo(s.published)
  {
    Reachable(acts, s);
    var drained := s;
    assert Runs.Reaches(Next, s, [], s);
    if u :| u in s.pcs && Draining(s.pcs[u]) {
      drained := DrainEnds(s, u, t);
    }
    s' := Next(drained, Step(t)).value;
    assert drained.delivered + drained.shared.pending == drained.delivered;
    Runs.LeadsFurther(Next, s, drained, Step(t), s');
  }
}
