/**
 The pending release of one audio allocation together with the allocation workflow: the release function is
 the deallocation of the stream that the attempt committed and recorded.
 */
module Cleanup {
  import opened Basics
  import Runs
  import P = PendingRelease
  import A = AudioAllocation
  import O = AudioOwnership

  /** `a` is the attempt that the cell belongs to. */
  datatype State = State(a: A.Id, cell: P.World, world: A.World)

  function Start(a: A.Id): State {
    State(a, P.START, A.START)
  }

  datatype Action =
    | InCell(cell: P.Action)              // cancellation, releases, and the steps of those who make them
    | InWorld(world: A.Action)            // everything else that any attempt, release or the camera does
    | Record(t: P.Thread)                 // the attempt records the stream it committed
    | Dispatch(t: P.Thread, r: A.Id)      // the release function begins: the deallocation of that stream
    | Return(t: P.Thread, r: A.Id)        // and returns when that deallocation is over

  predicate AtRelease(c: P.World, act: P.Action) {
    act.Step? && act.t in c.pcs && (c.pcs[act.t].Chosen? || c.pcs[act.t].Running?)
  }

  function Outcome(failure: Option<A.Raised>): Option<P.Failure> {
    if failure.None? then None else Some(0)
  }

  ghost function Next(s: State, act: Action): Option<State> {
    match act
    case InCell(cell) =>
      if cell.Record? || AtRelease(s.cell, cell) then None else Joined(s, P.Next(s.cell, cell), Some(s.world))
    case InWorld(world) =>
      if world.BeginRelease? && world.owner == Some(s.a) then None
      else Joined(s, Some(s.cell), A.SoundNext(s.world, world))
    case Record(t) =>
      if s.a !in s.world.attempts || !s.world.attempts[s.a].phase.Committed? || s.cell.recorded != [] then None
      else Joined(s, P.Next(s.cell, P.Record(t, s.world.attempts[s.a].phase.stream)), Some(s.world))
    case Dispatch(t, r) =>
      if t !in s.cell.pcs || !s.cell.pcs[t].Chosen? || s.cell.pcs[t].stream > 0xFFFF || s.a !in s.world.attempts then None
      else
        Joined(s, P.Next(s.cell, P.Step(t, None)), A.SoundNext(s.world, Deallocation(s, r, s.cell.pcs[t].stream)))
    case Return(t, r) =>
      if t !in s.cell.pcs || !s.cell.pcs[t].Running? || r !in s.world.releases then None
      else
        var release := s.world.releases[r];
        if release.owner != Some(s.a) || release.done.None? then None
        else Joined(s, P.Next(s.cell, P.Step(t, Outcome(release.done.value))), Some(s.world))
  }

  function Deallocation(s: State, r: A.Id, stream: u16): A.Action
    requires s.a in s.world.attempts
  {
    A.BeginRelease(r, s.world.attempts[s.a].key, stream, Some(s.a))
  }

  function Joined(s: State, cell: Option<P.World>, world: Option<A.World>): Option<State> {
    if cell.None? || world.None? then None else Some(State(s.a, cell.value, world.value))
  }

  predicate Owns(s: State, r: A.Id) {
    r in s.world.releases && s.world.releases[r].owner == Some(s.a)
  }

  predicate HasGranted(w: A.World, a: A.Id, stream: P.Identifier) {
    a in w.attempts && w.attempts[a].committed && w.attempts[a].fate.Granted? && w.attempts[a].fate.stream == stream
  }

  /** Only the stream that the attempt committed is ever recorded. */
  ghost predicate RecordAgrees(s: State) {
    s.cell.recorded == [] || (|s.cell.recorded| == 1 && HasGranted(s.world, s.a, s.cell.recorded[0]))
  }

  /** The deallocations of the attempt's own stream are the calls of the release function. */
  ghost predicate ReleasesAgree(s: State) {
    && (forall r | Owns(s, r) :: s.cell.calls == [s.world.releases[r].stream as P.Identifier])
    && (forall q, r | Owns(s, q) && Owns(s, r) :: q == r)
    && (s.cell.calls != [] ==> (exists r :: Owns(s, r)) && A.Spent(s.world, s.a))
  }

  ghost predicate Inv(s: State) {
    P.Inv(s.cell) && A.Inv(s.world) && A.ReleasingHeld(s.world) && RecordAgrees(s) && ReleasesAgree(s)
  }

  lemma GrantStays(w: A.World, act: A.Action, a: A.Id, stream: P.Identifier)
    requires A.Inv(w) && A.SoundNext(w, act).Some? && HasGranted(w, a, stream)
    ensures HasGranted(A.Next(w, act).value, a, stream)
  {
    assert A.AttemptAgrees(w, a);
    if A.IsAttempt(act) && act.a == a {
      A.ActorMoves(w, act);
    } else {
      A.BystanderStays(w, act, a);
    }
  }

  /** Other steps of the world neither add a release of the attempt's own nor change whose and of what one is. */
  lemma OwnReleasesStay(s: State, act: A.Action, r: A.Id)
    requires A.Next(s.world, act).Some? && !(act.BeginRelease? && act.owner == Some(s.a))
    ensures var s' := State(s.a, s.cell, A.Next(s.world, act).value);
            Owns(s', r) <==> Owns(s, r)
    ensures Owns(s, r) ==> A.Next(s.world, act).value.releases[r].stream == s.world.releases[r].stream
  {}

  lemma InWorldKeepsInv(s: State, act: A.Action)
    requires Inv(s) && Next(s, InWorld(act)).Some?
    ensures Inv(Next(s, InWorld(act)).value)
  {
    var s' := Next(s, InWorld(act)).value;
    A.StepKeepsInv(s.world, act);
    A.StepKeepsReleasingHeld(s.world, act);
    if s.cell.recorded != [] {
      GrantStays(s.world, act, s.a, s.cell.recorded[0]);
    }
    forall r ensures Owns(s', r) <==> Owns(s, r) {
      OwnReleasesStay(s, act, r);
    }
    forall r | Owns(s', r) ensures s'.cell.calls == [s'.world.releases[r].stream as P.Identifier] {
      OwnReleasesStay(s, act, r);
    }
    if s.cell.calls != [] {
      A.StepKeepsSpent(s.world, act, s.a);
    }
  }

  /** What the cell's own steps do to its logs. */
  lemma CellLogs(c: P.World, act: P.Action)
    requires P.Next(c, act).Some?
    ensures var c' := P.Next(c, act).value;
            && c'.recorded == (if act.Record? then c.recorded + [act.stream] else c.recorded)
            && (!(act.Step? && c.pcs[act.t].Chosen?) ==> c'.calls == c.calls)
            && (act.Step? && c.pcs[act.t].Chosen? ==> c'.calls == c.calls + [c.pcs[act.t].stream])
  {}

  lemma InCellKeepsInv(s: State, act: P.Action)
    requires Inv(s) && P.Next(s.cell, act).Some? && !act.Record? && !(act.Step? && s.cell.pcs[act.t].Chosen?)
    ensures Inv(State(s.a, P.Next(s.cell, act).value, s.world))
  {
    var s' := State(s.a, P.Next(s.cell, act).value, s.world);
    P.StepKeepsInv(s.cell, act);
    CellLogs(s.cell, act);
    assert forall r :: Owns(s', r) <==> Owns(s, r);
  }

  lemma RecordKeepsInv(s: State, t: P.Thread)
    requires Inv(s) && Next(s, Record(t)).Some?
    ensures Inv(Next(s, Record(t)).value)
  {
    var act := P.Record(t, s.world.attempts[s.a].phase.stream);
    var s' := Next(s, Record(t)).value;
    P.StepKeepsInv(s.cell, act);
    CellLogs(s.cell, act);
    assert A.AttemptAgrees(s.world, s.a);
    assert forall r :: Owns(s', r) <==> Owns(s, r);
  }

  /** A thread that has been chosen to release is the only one, and holds the recorded stream. */
  lemma ChosenStream(c: P.World, t: P.Thread)
    requires P.Inv(c) && t in c.pcs && c.pcs[t].Chosen?
    ensures c.calls == [] && c.pcs[t].stream in c.recorded
  {
    assert P.ThreadAgrees(c, t);
  }

  lemma DispatchKeepsInv(s: State, t: P.Thread, r: A.Id)
    requires Inv(s) && Next(s, Dispatch(t, r)).Some?
    ensures Inv(Next(s, Dispatch(t, r)).value)
  {
    var stream: u16 := s.cell.pcs[t].stream;
    var act := Deallocation(s, r, stream);
    ChosenStream(s.cell, t);
    P.StepKeepsInv(s.cell, P.Step(t, None));
    A.StepKeepsInv(s.world, act);
    A.StepKeepsReleasingHeld(s.world, act);
    A.BeginSpends(s.world, r, s.world.attempts[s.a].key, stream, s.a);
    GrantStays(s.world, act, s.a, s.cell.recorded[0]);
    DispatchKeepsLogs(s, t, r);
  }

  lemma DispatchKeepsLogs(s: State, t: P.Thread, r: A.Id)
    requires Inv(s) && Next(s, Dispatch(t, r)).Some? && s.cell.calls == []
    requires A.Spent(Next(s, Dispatch(t, r)).value.world, s.a)
    requires s.cell.recorded != [] ==> HasGranted(Next(s, Dispatch(t, r)).value.world, s.a, s.cell.recorded[0])
    ensures var s' := Next(s, Dispatch(t, r)).value; RecordAgrees(s') && ReleasesAgree(s')
  {
    var s', stream := Next(s, Dispatch(t, r)).value, s.cell.pcs[t].stream as u16;
    CellLogs(s.cell, P.Step(t, None));
    NewOwnRelease(s, r, stream);
    forall q ensures Owns(s', q) <==> q == r {
      assert !Owns(s, q);
    }
    assert s'.cell.calls == [s.cell.pcs[t].stream] && s'.cell.recorded == s.cell.recorded;
    assert s'.world.releases[r].stream == stream && stream as P.Identifier == s.cell.pcs[t].stream;
    assert Owns(s', r);
  }

  lemma NewOwnRelease(s: State, r: A.Id, stream: u16)
    requires s.a in s.world.attempts && A.Next(s.world, Deallocation(s, r, stream)).Some?
    ensures var s' := State(s.a, s.cell, A.Next(s.world, Deallocation(s, r, stream)).value);
            && Owns(s', r) && s'.world.releases[r].stream == stream
            && forall q | q != r :: Owns(s', q) <==> Owns(s, q)
  {}

  lemma StepKeepsInv(s: State, act: Action)
    requires Inv(s) && Next(s, act).Some?
    ensures Inv(Next(s, act).value)
  {
    match act
    case InCell(cell) => InCellKeepsInv(s, cell);
    case InWorld(world) => InWorldKeepsInv(s, world);
    case Record(t) => RecordKeepsInv(s, t);
    case Dispatch(t, r) => DispatchKeepsInv(s, t, r);
    case Return(t, r) => InCellKeepsInv(s, P.Step(t, Outcome(s.world.releases[r].done.value)));
  }

  lemma InvIsInductive()
    ensures Runs.Inductive(Next, Inv)
  {
    forall s: State, act | Inv(s) && Next(s, act).Some? ensures Inv(Next(s, act).value) {
      StepKeepsInv(s, act);
    }
  }

  lemma {:induction false} SameAttempt(s: State, acts: seq<Action>, s': State)
    requires Runs.Reaches(Next, s, acts, s')
    ensures s'.a == s.a
    decreases |acts|
  {
    if acts != [] {
      SameAttempt(Next(s, acts[0]).value, acts[1..], s');
    }
  }

  lemma Reachable(a: A.Id, acts: seq<Action>, s: State)
    requires Runs.Reaches(Next, Start(a), acts, s)
    ensures Inv(s) && s.a == a
  {
    SameAttempt(Start(a), acts, s);
    InvIsInductive();
    Runs.InvariantHolds(Next, Inv, Start(a), acts, s);
  }

  // ---------------------------------------------------------------------------------------------
  // The promise.
  // ---------------------------------------------------------------------------------------------

  /** No caller of the cell can move, and no deallocation is under way. */
  ghost predicate Quiescent(s: State) {
    && (forall t, outcome :: Next(s, InCell(P.Step(t, outcome))).None?)
    && (forall t, r :: Next(s, Dispatch(t, r)).None? && Next(s, Return(t, r)).None?)
    && (forall r <- s.world.releases :: s.world.releases[r].done.Some?)
  }

  lemma {:induction false} Unused(used: set<A.Id>) returns (r: A.Id)
    ensures forall x <- used :: x < r
  {
    if used == {} {
      r := 0;
    } else {
      var x :| x in used;
      var r' := Unused(used - {x});
      r := if x < r' then r' else x + 1;
      assert forall y <- used :: y == x || y in used - {x};
    }
  }

  /** The release function can always begin. */
  lemma DispatchIsEnabled(s: State, t: P.Thread) returns (r: A.Id)
    requires Inv(s) && t in s.cell.pcs && s.cell.pcs[t].Chosen?
    ensures Next(s, Dispatch(t, r)).Some?
  {
    ChosenStream(s.cell, t);
    r := Unused(s.world.releases.Keys);
    assert r !in s.world.releases;
  }

  lemma ReturnIsEnabled(s: State, t: P.Thread) returns (r: A.Id)
    requires Inv(s) && t in s.cell.pcs && s.cell.pcs[t].Running?
    requires forall r <- s.world.releases :: s.world.releases[r].done.Some?
    ensures Next(s, Return(t, r)).Some?
  {
    assert P.ThreadAgrees(s.cell, t);
    r :| Owns(s, r);
  }

  lemma QuiescentCell(s: State)
    requires Inv(s) && Quiescent(s)
    ensures P.Quiescent(s.cell)
  {
    forall t, outcome ensures P.Next(s.cell, P.Step(t, outcome)).None? {
      assert Next(s, InCell(P.Step(t, outcome))).None?;
      if t in s.cell.pcs && s.cell.pcs[t].Chosen? {
        var r := DispatchIsEnabled(s, t);
        assert false;
      } else if t in s.cell.pcs && s.cell.pcs[t].Running? {
        var r := ReturnIsEnabled(s, t);
        assert false;
      }
    }
  }

  lemma OneStepLogs(s: State, act: Action)
    requires Next(s, act).Some?
    ensures Next(s, act).value.cell.cell.canceled <==> s.cell.cell.canceled || (act.InCell? && act.cell.Cancel?)
    ensures Next(s, act).value.cell.recorded != [] <==> s.cell.recorded != [] || act.Record?
  {
    match act
    case InCell(cell) => P.OneStepLogs(s.cell, cell);
    case Record(t) => P.OneStepLogs(s.cell, P.Record(t, s.world.attempts[s.a].phase.stream));
    case Dispatch(t, r) => P.OneStepLogs(s.cell, P.Step(t, None));
    case Return(t, r) => P.OneStepLogs(s.cell, P.Step(t, Outcome(s.world.releases[r].done.value)));
    case InWorld(_) =>
  }

  /** The cell is canceled exactly after a cancellation, and holds a record exactly after one. */
  lemma {:induction false} RunLogs(s: State, acts: seq<Action>, s': State)
    requires Runs.Reaches(Next, s, acts, s')
    ensures s'.cell.cell.canceled <==> s.cell.cell.canceled || exists t :: InCell(P.Cancel(t)) in acts
    ensures s'.cell.recorded != [] <==> s.cell.recorded != [] || exists t :: Record(t) in acts
    decreases |acts|
  {
    if acts != [] {
      var act := acts[0];
      OneStepLogs(s, act);
      RunLogs(Next(s, act).value, acts[1..], s');
      assert acts == [act] + acts[1..];
      assert act.InCell? && act.cell.Cancel? ==> act == InCell(P.Cancel(act.cell.t));
      assert act.Record? ==> act == Record(act.t);
    }
  }

  /**
   A canceled allocation cleans up after itself: when nothing can move any more, an attempt that was canceled
   and had recorded its stream, in either order, has begun exactly one deallocation, of that stream; and the
   stream is confirmed gone, or its entry is uncertain.
   */
  lemma CanceledIsCleanedUp(a: A.Id, acts: seq<Action>, s: State)
    requires Runs.Reaches(Next, Start(a), acts, s) && Quiescent(s)
    requires (exists t :: InCell(P.Cancel(t)) in acts) && (exists t :: Record(t) in acts)
    ensures exists r :: Owns(s, r) && [s.world.releases[r].stream as P.Identifier] == s.cell.recorded &&
                        forall q | Owns(s, q) :: q == r
    ensures a in s.world.attempts
    ensures a in s.world.outstanding ==> O.Has(s.world.ledger.table, s.world.attempts[a].key, O.Uncertain)
  {
    Reachable(a, acts, s);
    RunLogs(Start(a), acts, s);
    QuiescentIsResolved(s);
  }

  lemma QuiescentIsResolved(s: State)
    requires Inv(s) && Quiescent(s) && s.cell.cell.canceled && s.cell.recorded != []
    ensures exists r :: Owns(s, r) && [s.world.releases[r].stream as P.Identifier] == s.cell.recorded &&
                        forall q | Owns(s, q) :: q == r
    ensures s.a in s.world.attempts
    ensures s.a in s.world.outstanding ==> O.Has(s.world.ledger.table, s.world.attempts[s.a].key, O.Uncertain)
  {
    QuiescentCell(s);
    P.QuiescentIsDone(s.cell);
    assert s.cell.calls == s.cell.recorded;
    var r :| Owns(s, r);
    assert [s.world.releases[r].stream as P.Identifier] == s.cell.recorded;
  }

  // ---------------------------------------------------------------------------------------------
  // What each part may do, and what the callers are told.
  // ---------------------------------------------------------------------------------------------

  /** The composition takes nothing away: the rest of the world goes on as it would, and a committed stream can be recorded. */
  lemma NothingIsTakenAway(s: State, act: A.Action, t: P.Thread)
    ensures !(act.BeginRelease? && act.owner == Some(s.a)) && A.SoundNext(s.world, act).Some? ==>
              Next(s, InWorld(act)) == Some(State(s.a, s.cell, A.SoundNext(s.world, act).value))
    ensures s.a in s.world.attempts && s.world.attempts[s.a].phase.Committed? && s.cell.recorded == [] && t !in s.cell.pcs ==>
              && Next(s, Record(t)).Some?
              && Next(s, Record(t)).value.cell.recorded == [s.world.attempts[s.a].phase.stream as P.Identifier]
    ensures t !in s.cell.pcs ==> Next(s, InCell(P.Cancel(t))).Some? && Next(s, InCell(P.Release(t))).Some?
  {}

  /** The attempt's own deallocation has come to a success or a failure, as `outcome` says. */
  ghost predicate CameTo(s: State, outcome: Option<P.Failure>) {
    exists r :: Owns(s, r) && s.world.releases[r].done.Some? && (outcome.None? <==> s.world.releases[r].done.value.None?)
  }

  ghost predicate Told(s: State, pc: P.Pc) {
    && (pc.Finishing? ==> CameTo(s, pc.outcome))
    && (pc.Returned? ==> CameTo(s, pc.outcome))
  }

  ghost predicate TellsTruth(s: State) {
    && (s.cell.cell.finished ==> CameTo(s, s.cell.cell.failure))
    && forall t <- s.cell.pcs :: Told(s, s.cell.pcs[t])
  }

  lemma CameToStays(s: State, act: Action, outcome: Option<P.Failure>)
    requires CameTo(s, outcome) && Next(s, act).Some?
    ensures CameTo(Next(s, act).value, outcome)
  {
    var r :| Owns(s, r) && s.world.releases[r].done.Some? && (outcome.None? <==> s.world.releases[r].done.value.None?);
    assert Owns(Next(s, act).value, r) && Next(s, act).value.world.releases[r] == s.world.releases[r];
  }

  lemma CellTells(s: State, cell: P.Action)
    requires TellsTruth(s) && Next(s, InCell(cell)).Some?
    ensures TellsTruth(Next(s, InCell(cell)).value)
  {
    var s' := Next(s, InCell(cell)).value;
    assert forall f :: CameTo(s', f) <==> CameTo(s, f) by {
      assert forall r :: Owns(s', r) <==> Owns(s, r);
    }
    assert cell.t in s.cell.pcs ==> Told(s, s.cell.pcs[cell.t]);
  }

  lemma ReturnTells(s: State, t: P.Thread, r: A.Id)
    requires TellsTruth(s) && Next(s, Return(t, r)).Some?
    ensures TellsTruth(Next(s, Return(t, r)).value)
  {
    var s' := Next(s, Return(t, r)).value;
    assert forall q :: Owns(s', q) <==> Owns(s, q);
    assert CameTo(s', Outcome(s.world.releases[r].done.value)) by {
      assert Owns(s', r);
    }
    forall f | CameTo(s, f) ensures CameTo(s', f) {
      CameToStays(s, Return(t, r), f);
    }
    assert Told(s, s.cell.pcs[t]);
  }

  lemma StepTells(s: State, act: Action)
    requires TellsTruth(s) && Next(s, act).Some?
    ensures TellsTruth(Next(s, act).value)
  {
    match act
    case InCell(cell) => CellTells(s, cell);
    case Return(t, r) => ReturnTells(s, t, r);
    case _ =>
      var s' := Next(s, act).value;
      forall f | CameTo(s, f) ensures CameTo(s', f) {
        CameToStays(s, act, f);
      }
      assert forall t <- s'.cell.pcs | t in s.cell.pcs :: Told(s, s.cell.pcs[t]);
  }

  /** Every Release that returns says how the one deallocation of the attempt's stream came out: success for success. */
  lemma ReleaseTellsTheOutcome(a: A.Id, acts: seq<Action>, s: State, t: P.Thread)
    requires Runs.Reaches(Next, Start(a), acts, s) && t in s.cell.pcs && s.cell.pcs[t].Returned?
    ensures exists r :: Owns(s, r) && s.world.releases[r].done.Some? &&
                        (s.cell.pcs[t].outcome.None? <==> s.world.releases[r].done.value.None?)
  {
    forall s: State, act | TellsTruth(s) && Next(s, act).Some? ensures TellsTruth(Next(s, act).value) {
      StepTells(s, act);
    }
    Runs.InvariantHolds(Next, TellsTruth, Start(a), acts, s);
    assert Told(s, s.cell.pcs[t]);
  }
}
