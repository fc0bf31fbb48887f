/**
 Once-only cleanup of a pending camera allocation: cancellation, the arrival of the identifier, and
 explicit releases race, and the release function must run once at most.
 */
module PendingRelease {
  import opened Basics
  import Runs

  type Identifier = u64
  /** An exception captured from the release function. */
  type Failure = nat
  type Thread = nat

  /** The fields guarded by the mutex. */
  datatype Cell = Cell(stream: Option<Identifier>, canceled: bool, started: bool, finished: bool, failure: Option<Failure>)

  const FRESH_CELL := Cell(None, false, false, false, None)

  /** What Release decides under its first lock. */
  datatype Entry = Wait | Nothing | Begin(stream: Identifier)

  function EntryOf(c: Cell): Entry {
    if c.started then Wait else if c.stream.None? then Nothing else Begin(c.stream.value)
  }

  function Canceled(c: Cell): Cell {
    c.(canceled := true)
  }

  function Recorded(c: Cell, stream: Identifier): Cell {
    c.(stream := Some(stream))
  }

  /** Release under its first lock. */
  function Entered(c: Cell): Cell {
    c.(started := c.started || EntryOf(c).Begin?)
  }

  function Finished(c: Cell, failure: Option<Failure>): Cell {
    c.(failure := failure, finished := true, stream := if failure.None? then None else c.stream)
  }

  /** The object itself; each method is one region of the source that runs under the mutex. */
  class PendingCameraRelease {
    var mStream: Option<Identifier>
    var mFailure: Option<Failure>
    var mCanceled: bool
    var mReleaseStarted: bool
    var mReleaseFinished: bool

    function Contents(): Cell
      reads this
    {
      Cell(mStream, mCanceled, mReleaseStarted, mReleaseFinished, mFailure)
    }

    constructor ()
      ensures Contents() == FRESH_CELL
    {
      mStream, mFailure := None, None;
      mCanceled, mReleaseStarted, mReleaseFinished := false, false, false;
    }

    method CancelLocked() returns (release: bool)
      modifies this
      ensures mCanceled && mStream == old(mStream) && mReleaseStarted == old(mReleaseStarted)
      ensures mReleaseFinished == old(mReleaseFinished) && mFailure == old(mFailure)
      ensures Contents() == Canceled(old(Contents()))
      ensures release == old(mStream).Some?
    {
      mCanceled := true;
      release := mStream.Some?;
    }

    method RecordLocked(stream: Identifier) returns (canceled: bool)
      modifies this
      ensures mStream == Some(stream) && mCanceled == old(mCanceled) && mReleaseStarted == old(mReleaseStarted)
      ensures mReleaseFinished == old(mReleaseFinished) && mFailure == old(mFailure)
      ensures Contents() == Recorded(old(Contents()), stream)
      ensures canceled == old(mCanceled)
    {
      mStream := Some(stream);
      canceled := mCanceled;
    }

    method EnterLocked() returns (entry: Entry)
      modifies this
      ensures entry == if old(mReleaseStarted) then Wait
                       else if old(mStream).None? then Nothing else Begin(old(mStream).value)
      ensures mReleaseStarted == (old(mReleaseStarted) || old(mStream).Some?)
      ensures mStream == old(mStream) && mCanceled == old(mCanceled)
      ensures mReleaseFinished == old(mReleaseFinished) && mFailure == old(mFailure)
      ensures entry == EntryOf(old(Contents()))
      ensures Contents() == Entered(old(Contents()))
    {
      if mReleaseStarted {
        return Wait;
      }
      if mStream.None? {
        return Nothing;
      }
      mReleaseStarted := true;
      return Begin(mStream.value);
    }

    method FinishLocked(failure: Option<Failure>)
      modifies this
      ensures mReleaseFinished && mFailure == failure && mStream == if failure.None? then None else old(mStream)
      ensures mCanceled == old(mCanceled) && mReleaseStarted == old(mReleaseStarted)
      ensures Contents() == Finished(old(Contents()), failure)
    {
      mFailure := failure;
      mReleaseFinished := true;
      if failure.None? {
        mStream := None;
      }
    }
  }

  // ---------------------------------------------------------------------------------------------
  // The interleavings.
  // ---------------------------------------------------------------------------------------------

  datatype Pc =
    | Handing                          // Cancel or Record will start a background release
    | Entering                         // Release called, mutex not yet taken
    | Chosen(stream: Identifier)       // this thread set mReleaseStarted and dropped the mutex
    | Running(stream: Identifier)      // inside the release function
    | Finishing(outcome: Option<Failure>)
    | Waiting                          // on the condition variable
    | Returned(late: bool, outcome: Option<Failure>)  // late: the release had started before it entered
    | Empty                            // Release found nothing to release
    | Quiet                            // Cancel or Record with nothing to hand over

  /** `recorded` and `calls` log the arguments of Record and of the release function; `worker` is who set mReleaseStarted. */
  datatype World = World(cell: Cell, pcs: map<Thread, Pc>, worker: Option<Thread>,
                         recorded: seq<Identifier>, calls: seq<Identifier>)

  const START := World(FRESH_CELL, map[], None, [], [])

  datatype Action =
    | Cancel(t: Thread)
    | Record(t: Thread, stream: Identifier)
    | Release(t: Thread)
    | Step(t: Thread, outcome: Option<Failure>)

  function Next(w: World, a: Action): Option<World> {
    match a
    case Cancel(t) =>
      if t in w.pcs then None else
      Some(w.(cell := Canceled(w.cell),
              pcs := w.pcs[t := if w.cell.stream.Some? then Handing else Quiet]))
    case Record(t, s) =>
      if t in w.pcs then None else
      Some(w.(cell := Recorded(w.cell, s), recorded := w.recorded + [s],
              pcs := w.pcs[t := if w.cell.canceled then Handing else Quiet]))
    case Release(t) =>
      if t in w.pcs then None else Some(w.(pcs := w.pcs[t := Entering]))
    case Step(t, outcome) =>
      if t !in w.pcs then None else
      match w.pcs[t]
      case Handing => Some(w.(pcs := w.pcs[t := Entering]))
      case Entering => (
        match EntryOf(w.cell)
        case Wait => Some(w.(pcs := w.pcs[t := Waiting]))
        case Nothing => Some(w.(pcs := w.pcs[t := Empty]))
        case Begin(s) =>
          Some(w.(cell := Entered(w.cell), worker := Some(t), pcs := w.pcs[t := Chosen(s)])))
      case Chosen(s) => Some(w.(calls := w.calls + [s], pcs := w.pcs[t := Running(s)]))
      case Running(_) => Some(w.(pcs := w.pcs[t := Finishing(outcome)]))
      case Finishing(f) =>
        Some(w.(cell := Finished(w.cell, f), pcs := w.pcs[t := Returned(false, f)]))
      case Waiting =>
        if w.cell.finished then Some(w.(pcs := w.pcs[t := Returned(true, w.cell.failure)])) else None
      case _ => None
  }

  predicate Active(pc: Pc) {
    pc.Chosen? || pc.Running? || pc.Finishing?
  }

  predicate OnItsWay(pc: Pc) {
    pc.Handing? || pc.Entering?
  }

  /** The thread that won the right to release, and where it is. */
  ghost predicate WorkerAgrees(w: World) {
    && (w.cell.started <==> w.worker.Some?)
    && (w.worker.Some? ==>
          && w.worker.value in w.pcs
          && var pc := w.pcs[w.worker.value];
             (if w.cell.finished then pc == Returned(false, w.cell.failure) else Active(pc)))
    && (!w.cell.started ==> !w.cell.finished && w.cell.failure.None?)
  }

  ghost predicate CallsAgree(w: World) {
    if w.worker.None? || w.worker.value !in w.pcs then w.calls == []
    else match w.pcs[w.worker.value]
      case Chosen(s) => w.calls == [] && s in w.recorded
      case Running(s) => w.calls == [s] && s in w.recorded
      case _ => |w.calls| == 1 && w.calls[0] in w.recorded
  }

  ghost predicate ThreadAgrees(w: World, t: Thread)
    requires t in w.pcs
  {
    && (Active(w.pcs[t]) ==> w.worker == Some(t))
    && (w.pcs[t] == Waiting ==> w.cell.started)
    && (w.pcs[t].Returned? ==> w.cell.finished && w.pcs[t].outcome == w.cell.failure)
    && (w.pcs[t].Returned? && !w.pcs[t].late ==> w.worker == Some(t))
  }

  /** Until a release starts the cell shows the last recorded stream, and a cancellation that met one is on its way to it. */
  ghost predicate PendingAgrees(w: World) {
    !w.cell.started ==>
      && w.cell.stream == (if w.recorded == [] then None else Some(w.recorded[|w.recorded| - 1]))
      && (w.cell.canceled && w.recorded != [] ==> exists t :: t in w.pcs && OnItsWay(w.pcs[t]))
  }

  ghost predicate Inv(w: World) {
    && WorkerAgrees(w)
    && CallsAgree(w)
    && (forall t <- w.pcs :: ThreadAgrees(w, t))
    && PendingAgrees(w)
  }

  lemma StepKeepsPending(w: World, a: Action)
    requires Inv(w) && Next(w, a).Some?
    ensures PendingAgrees(Next(w, a).value)
  {
    var w' := Next(w, a).value;
    if !w'.cell.started && w'.cell.canceled && w'.recorded != [] {
      if a.Step? || a.Release? {
        var t :| t in w.pcs && OnItsWay(w.pcs[t]);
        assert OnItsWay(w'.pcs[t]);
      } else {
        if w.cell.canceled && w.recorded != [] {
          var t :| t in w.pcs && OnItsWay(w.pcs[t]);
          assert t in w'.pcs && w'.pcs[t] == w.pcs[t];
        } else {
          assert OnItsWay(w'.pcs[a.t]);
        }
      }
    }
  }

  lemma StepKeepsWorker(w: World, a: Action)
    requires WorkerAgrees(w) && (forall t <- w.pcs :: ThreadAgrees(w, t)) && Next(w, a).Some?
    ensures WorkerAgrees(Next(w, a).value)
  {
    assert a.t in w.pcs ==> ThreadAgrees(w, a.t);
  }

  lemma StepKeepsCalls(w: World, a: Action)
    requires WorkerAgrees(w) && CallsAgree(w) && PendingAgrees(w) && Next(w, a).Some?
    requires a.t in w.pcs ==> ThreadAgrees(w, a.t)
    ensures CallsAgree(Next(w, a).value)
  {}

  lemma StepKeepsThread(w: World, a: Action, t: Thread)
    requires WorkerAgrees(w) && Next(w, a).Some? && t in Next(w, a).value.pcs
    requires t in w.pcs ==> ThreadAgrees(w, t)
    requires a.t in w.pcs ==> ThreadAgrees(w, a.t)
    ensures ThreadAgrees(Next(w, a).value, t)
  {}

  lemma StepKeepsInv(w: World, a: Action)
    requires Inv(w) && Next(w, a).Some?
    ensures Inv(Next(w, a).value)
  {
    var w' := Next(w, a).value;
    StepKeepsWorker(w, a);
    StepKeepsCalls(w, a);
    StepKeepsPending(w, a);
    forall t <- w'.pcs ensures ThreadAgrees(w', t) {
      StepKeepsThread(w, a, t);
    }
  }

  lemma Reachable(acts: seq<Action>, w: World)
    requires Runs.Reaches(Next, START, acts, w)
    ensures Inv(w)
  {
    forall w: World, a | Inv(w) && Next(w, a).Some? ensures Inv(Next(w, a).value) {
      StepKeepsInv(w, a);
    }
    Runs.InvariantHolds(Next, Inv, START, acts, w);
  }

  lemma OneStepLogs(w: World, a: Action)
    requires Next(w, a).Some?
    ensures Next(w, a).value.cell.canceled <==> w.cell.canceled || a.Cancel?
    ensures Next(w, a).value.recorded == if a.Record? then w.recorded + [a.stream] else w.recorded
  {}

  ghost predicate Records(acts: seq<Action>, s: Identifier) {
    exists t :: Record(t, s) in acts
  }

  /** A cell is canceled exactly after a cancellation, and what is recorded is what Record was called with. */
  lemma {:induction false} RunLogs(w: World, acts: seq<Action>, w': World)
    requires Runs.Reaches(Next, w, acts, w')
    ensures w'.cell.canceled <==> w.cell.canceled || exists t :: Cancel(t) in acts
    ensures forall s: Identifier :: s in w'.recorded <==> s in w.recorded || Records(acts, s)
    decreases |acts|
  {
    if acts != [] {
      var next := Next(w, acts[0]).value;
      OneStepLogs(w, acts[0]);
      RunLogs(next, acts[1..], w');
      assert acts == [acts[0]] + acts[1..];
      assert (exists t :: Cancel(t) in acts) <==> acts[0].Cancel? || exists t :: Cancel(t) in acts[1..] by {
        assert acts[0].Cancel? ==> acts[0] == Cancel(acts[0].t);
      }
      forall s: Identifier
        ensures Records(acts, s) <==> (acts[0].Record? && acts[0].stream == s) || Records(acts[1..], s)
      {
        assert acts[0].Record? ==> acts[0] == Record(acts[0].t, acts[0].stream);
      }
    }
  }

  /**
   In every interleaving of any number of cancellations, records and releases the release function is
   entered at most once, with a recorded identifier; and every Release that found it started returns
   only after it has finished, with the outcome of that one call.
   */
  lemma AtMostOnce(acts: seq<Action>, w: World)
    requires Runs.Reaches(Next, START, acts, w)
    ensures |w.calls| <= 1
    ensures forall s <- w.calls :: Records(acts, s)
    ensures forall t <- w.pcs | w.pcs[t].Returned? ::
              w.cell.finished && |w.calls| == 1 && w.pcs[t].outcome == w.cell.failure
  {
    Reachable(acts, w);
    RunLogs(START, acts, w);
    forall t <- w.pcs | w.pcs[t].Returned?
      ensures w.cell.finished && |w.calls| == 1 && w.pcs[t].outcome == w.cell.failure
    {
      assert ThreadAgrees(w, t);
    }
  }

  /**
   Every call is taken; Cancel hands a release over exactly when an identifier is there, and Record exactly when
   it comes behind a cancellation.
   */
  lemma CallsAreTaken(w: World, t: Thread, stream: Identifier)
    requires t !in w.pcs
    ensures var w' := Next(w, Cancel(t));
            w'.Some? && w'.value.pcs == w.pcs[t := if w.cell.stream.Some? then Handing else Quiet]
    ensures var w' := Next(w, Record(t, stream));
            w'.Some? && w'.value.pcs == w.pcs[t := if w.cell.canceled then Handing else Quiet]
    ensures Next(w, Release(t)) == Some(w.(pcs := w.pcs[t := Entering]))
  {}

  /** Without a cancellation or a call of Release the stream is never released. */
  lemma NothingIsReleasedUnasked(acts: seq<Action>, w: World)
    requires Runs.Reaches(Next, START, acts, w)
    requires forall t :: Cancel(t) !in acts && Release(t) !in acts
    ensures w.calls == [] && forall t <- w.pcs :: w.pcs[t].Quiet?
  {
    OnlyRecorded(START, acts, w);
  }

  lemma {:induction false} OnlyRecorded(w: World, acts: seq<Action>, w': World)
    requires Runs.Reaches(Next, w, acts, w') && forall t :: Cancel(t) !in acts && Release(t) !in acts
    requires !w.cell.canceled && w.calls == [] && forall t <- w.pcs :: w.pcs[t].Quiet?
    ensures w'.calls == [] && forall t <- w'.pcs :: w'.pcs[t].Quiet?
    decreases |acts|
  {
    if acts != [] {
      assert acts[0] in acts && acts[0] != Cancel(acts[0].t) && acts[0] != Release(acts[0].t);
      OnlyRecorded(Next(w, acts[0]).value, acts[1..], w');
    }
  }

  /** The release function has come to `outcome` in thread t. */
  ghost predicate CameTo(w: World, t: Thread, outcome: Option<Failure>) {
    && w.worker == Some(t) && t in w.pcs
    && (w.pcs[t] == Finishing(outcome) || w.pcs[t] == Returned(false, outcome))
  }

  lemma {:induction false} StaysCome(w: World, acts: seq<Action>, w': World, t: Thread, outcome: Option<Failure>)
    requires Inv(w) && CameTo(w, t, outcome) && Runs.Reaches(Next, w, acts, w')
    ensures Inv(w') && CameTo(w', t, outcome)
    decreases |acts|
  {
    if acts != [] {
      StepKeepsInv(w, acts[0]);
      StaysCome(Next(w, acts[0]).value, acts[1..], w', t, outcome);
    }
  }

  /** What the one call comes to is what every Release returns, then and in every continuation. */
  lemma OutcomeIsShared(before: seq<Action>, w: World, t: Thread, outcome: Option<Failure>, w1: World,
                        after: seq<Action>, w': World, u: Thread)
    requires Runs.Reaches(Next, START, before, w) && t in w.pcs && w.pcs[t].Running?
    requires Next(w, Step(t, outcome)) == Some(w1) && Runs.Reaches(Next, w1, after, w')
    requires u in w'.pcs && w'.pcs[u].Returned?
    ensures w'.pcs[u].outcome == outcome
  {
    Reachable(before, w);
    assert ThreadAgrees(w, t);
    StepKeepsInv(w, Step(t, outcome));
    StaysCome(w1, after, w', t, outcome);
    assert ThreadAgrees(w', u);
  }

  /** No thread can move any more, unless someone makes a new call. */
  ghost predicate Quiescent(w: World) {
    forall t, outcome :: Next(w, Step(t, outcome)).None?
  }

  /**
   When nothing can move, nobody is stuck waiting; and if there was both a cancellation and a record, in
   either order, the release function has run exactly once, with a recorded identifier, and finished.
   */
  lemma ExactlyOnceByQuiescence(acts: seq<Action>, w: World)
    requires Runs.Reaches(Next, START, acts, w) && Quiescent(w)
    ensures forall t <- w.pcs :: w.pcs[t].Returned? || w.pcs[t].Empty? || w.pcs[t].Quiet?
    ensures (exists t :: Cancel(t) in acts) && (exists s :: Records(acts, s)) ==>
              w.cell.finished && |w.calls| == 1 && Records(acts, w.calls[0])
  {
    Reachable(acts, w);
    RunLogs(START, acts, w);
    QuiescentIsDone(w);
    assert forall s: Identifier :: Records(acts, s) ==> s in w.recorded;
  }

  /** Something is recorded, and its release has started or is on its way. */
  ghost predicate UnderWay(w: World) {
    w.recorded != [] && (w.cell.started || exists t :: t in w.pcs && OnItsWay(w.pcs[t]))
  }

  lemma StepKeepsUnderWay(w: World, a: Action)
    requires Inv(w) && UnderWay(w) && Next(w, a).Some?
    ensures UnderWay(Next(w, a).value)
  {
    var w' := Next(w, a).value;
    if !w'.cell.started {
      var t :| t in w.pcs && OnItsWay(w.pcs[t]);
      assert t in w'.pcs && OnItsWay(w'.pcs[t]);
    }
  }

  lemma {:induction false} StaysUnderWay(w: World, acts: seq<Action>, w': World)
    requires Inv(w) && UnderWay(w) && Runs.Reaches(Next, w, acts, w')
    ensures Inv(w') && UnderWay(w')
    decreases |acts|
  {
    if acts != [] {
      StepKeepsInv(w, acts[0]);
      StepKeepsUnderWay(w, acts[0]);
      StaysUnderWay(Next(w, acts[0]).value, acts[1..], w');
    }
  }

  lemma UnderWayIsDone(w: World)
    requires Inv(w) && UnderWay(w) && Quiescent(w)
    ensures w.cell.finished && |w.calls| == 1
  {
    QuiescentIsDone(w);
    if w.worker.Some? {
      assert Next(w, Step(w.worker.value, None)).None?;
    }
  }

  /** A release asked for after a record is never for nothing, canceled or not: by quiescence the one call has been made. */
  lemma ReleaseIsHonored(before: seq<Action>, w: World, t: Thread, w1: World, after: seq<Action>, w': World)
    requires Runs.Reaches(Next, START, before, w) && exists s :: Records(before, s)
    requires Next(w, Release(t)) == Some(w1) && Runs.Reaches(Next, w1, after, w') && Quiescent(w')
    ensures w'.cell.finished && |w'.calls| == 1
  {
    Reachable(before, w);
    RunLogs(START, before, w);
    var s :| Records(before, s);
    assert s in w.recorded;
    StepKeepsInv(w, Release(t));
    assert t in w1.pcs && OnItsWay(w1.pcs[t]);
    StaysUnderWay(w1, after, w');
    UnderWayIsDone(w');
  }

  lemma QuiescentIsDone(w: World)
    requires Inv(w) && Quiescent(w)
    ensures forall t <- w.pcs :: w.pcs[t].Returned? || w.pcs[t].Empty? || w.pcs[t].Quiet?
    ensures w.cell.canceled && w.recorded != [] ==>
              w.cell.finished && |w.calls| == 1 && w.calls[0] in w.recorded
  {
    forall t <- w.pcs ensures w.pcs[t].Returned? || w.pcs[t].Empty? || w.pcs[t].Quiet? {
      assert ThreadAgrees(w, t);
      assert Next(w, Step(t, None)).None?;
      if w.worker.Some? {
        assert Next(w, Step(w.worker.value, None)).None?;
      }
    }
  }
}
