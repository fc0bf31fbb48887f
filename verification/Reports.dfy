/**
 Report delivery of a subscription (attribute and event subscriptions share the design): reports wait
 in a bounded buffer while there is no handler, and a new first handler drains it outside the lock.
 */
module Reports {
  import opened Basics
  import Runs

  const MAXIMUM_PENDING: nat := 256

  /** The fields guarded by the report mutex. */
  datatype Shared<T> = Shared(pending: seq<T>, handlers: nat, draining: bool, open: bool)

  function Buffered<T>(pending: seq<T>, report: T): seq<T> {
    (if |pending| == MAXIMUM_PENDING then pending[1..] else pending) + [report]
  }

  /** Publish goes to the buffer rather than straight to the handlers. */
  predicate MustBuffer<T>(c: Shared<T>) {
    c.handlers == 0 || c.draining
  }

  /** Publish under the lock; the second part says that the caller raises the report itself. */
  function Published<T>(c: Shared<T>, report: T): (Shared<T>, bool) {
    if !c.open then (c, false)
    else if MustBuffer(c) then (c.(pending := Buffered(c.pending, report)), false)
    else (c, true)
  }

  /** Adding a handler, first part: the batch to drain, if it is the first handler. */
  function Added<T>(c: Shared<T>): (Shared<T>, Option<seq<T>>) {
    if c.handlers > 0 then (c.(handlers := c.handlers + 1), None)
    else (Shared([], 1, true, c.open), Some(c.pending))
  }

  /** Between two batches; None ends the drain. */
  function Swapped<T>(c: Shared<T>): (Shared<T>, Option<seq<T>>) {
    if c.pending == [] then (c.(draining := false), None) else (c.(pending := []), Some(c.pending))
  }

  function Removed<T>(c: Shared<T>): Shared<T> {
    c.(handlers := if c.handlers > 0 then c.handlers - 1 else 0)
  }

  function Closed<T>(c: Shared<T>): Shared<T> {
    c.(open := false)
  }

  class Subscription<T> {
    var mPendingReports: seq<T>
    var mReportHandlerCount: nat
    var mDrainingPendingReports: bool
    var mOpen: bool                    // the close function has not been taken

    function Contents(): Shared<T>
      reads this
    {
      Shared(mPendingReports, mReportHandlerCount, mDrainingPendingReports, mOpen)
    }

    constructor ()
      ensures Contents() == Shared([], 0, false, true)
    {
      mPendingReports, mReportHandlerCount, mDrainingPendingReports, mOpen := [], 0, false, true;
    }

    /** The locked part of Publish; `raise` says that the caller delivers the report itself. */
    method PublishLocked(report: T) returns (raise: bool)
      modifies this
      ensures raise == (old(mOpen) && old(mReportHandlerCount) > 0 && !old(mDrainingPendingReports))
      ensures mPendingReports == if !old(mOpen) || raise then old(mPendingReports)
                                 else (if |old(mPendingReports)| == 256 then old(mPendingReports)[1..] else old(mPendingReports)) + [report]
      ensures mReportHandlerCount == old(mReportHandlerCount) && mOpen == old(mOpen)
      ensures mDrainingPendingReports == old(mDrainingPendingReports)
      ensures (Contents(), raise) == Published(old(Contents()), report)
    {
      if !mOpen {
        return false;
      }
      if mReportHandlerCount == 0 || mDrainingPendingReports {
        if |mPendingReports| == MAXIMUM_PENDING {
          mPendingReports := mPendingReports[1..];
        }
        mPendingReports := mPendingReports + [report];
        return false;
      }
      return true;
    }

    /** The first locked part of adding a handler: the batch to drain, if this is the first handler. */
    method AddLocked() returns (batch: Option<seq<T>>)
      modifies this
      ensures mReportHandlerCount == old(mReportHandlerCount) + 1 && mOpen == old(mOpen)
      ensures batch.Some? <==> old(mReportHandlerCount) == 0
      ensures batch.Some? ==> batch.value == old(mPendingReports) && mPendingReports == [] && mDrainingPendingReports
      ensures batch.None? ==> mPendingReports == old(mPendingReports) && mDrainingPendingReports == old(mDrainingPendingReports)
      ensures (Contents(), batch) == Added(old(Contents()))
    {
      mReportHandlerCount := mReportHandlerCount + 1;
      if mReportHandlerCount > 1 {
        return None;
      }
      mDrainingPendingReports := true;
      batch := Some(mPendingReports);
      mPendingReports := [];
    }

    /** The locked part between two batches; None ends the drain. */
    method SwapLocked() returns (batch: Option<seq<T>>)
      modifies this
      ensures batch.Some? <==> old(mPendingReports) != []
      ensures batch.Some? ==> batch.value == old(mPendingReports) && mDrainingPendingReports == old(mDrainingPendingReports)
      ensures batch.None? ==> !mDrainingPendingReports
      ensures mPendingReports == [] && mReportHandlerCount == old(mReportHandlerCount) && mOpen == old(mOpen)
      ensures (Contents(), batch) == Swapped(old(Contents()))
    {
      if mPendingReports == [] {
        mDrainingPendingReports := false;
        return None;
      }
      batch := Some(mPendingReports);
      mPendingReports := [];
    }

    method RemoveLocked()
      modifies this
      ensures mReportHandlerCount == if old(mReportHandlerCount) > 0 then old(mReportHandlerCount) - 1 else 0
      ensures Contents() == Removed(old(Contents()))
    {
      if mReportHandlerCount > 0 {
        mReportHandlerCount := mReportHandlerCount - 1;
      }
    }

    method CloseLocked()
      modifies this
      ensures !mOpen && Contents() == Closed(old(Contents()))
    {
      mOpen := false;
    }
  }

  // ---------------------------------------------------------------------------------------------
  // The interleavings.  Reports are numbered in the order they were published while open.
  // ---------------------------------------------------------------------------------------------

  datatype Drain = NoDrain | Batch(rest: seq<nat>, failed: bool) | Unwinding

  datatype State = State(shared: Shared<nat>, drain: Drain, inFlight: Option<nat>, published: nat,
                         delivered: seq<nat>, dropped: set<nat>)

  const START := State(Shared([], 0, false, true), NoDrain, None, 0, [], {})

  datatype Action =
    | Publish
    | RaiseInFlight
    | AddHandler
    | RaiseFromBatch(handlerFails: bool)
    | SwapBatch
    | Unwind
    | RemoveHandler
    | Close

  function Next(s: State, a: Action): Option<State> {
    var c := s.shared;
    match a
    case Publish =>
      // One publisher: the previous report has left its hands.
      if s.inFlight.Some? then None
      else if !c.open then Some(s)
      else
        var (shared, raise) := Published(c, s.published);
        Some(s.(shared := shared, published := s.published + 1, inFlight := if raise then Some(s.published) else None,
                dropped := s.dropped + if !raise && |c.pending| == MAXIMUM_PENDING then {c.pending[0]} else {}))
    case RaiseInFlight =>
      if s.inFlight.None? then None
      else Some(s.(delivered := s.delivered + [s.inFlight.value], inFlight := None))
    case AddHandler =>
      var (shared, batch) := Added(c);
      Some(s.(shared := shared, drain := if batch.Some? then Batch(batch.value, false) else s.drain))
    case RaiseFromBatch(fails) =>
      if !s.drain.Batch? || s.drain.rest == [] then None
      else Some(s.(delivered := s.delivered + [s.drain.rest[0]], drain := Batch(s.drain.rest[1..], s.drain.failed || fails)))
    case SwapBatch =>
      if !s.drain.Batch? || s.drain.rest != [] then None
      else
        var (shared, batch) := Swapped(c);
        Some(s.(shared := shared, drain := if batch.Some? then s.drain.(rest := batch.value)
                                           else if s.drain.failed then Unwinding else NoDrain))
    case Unwind =>
      if s.drain != Unwinding || c.handlers == 0 then None
      else Some(s.(shared := Removed(c), drain := NoDrain))
    case RemoveHandler =>
      // No handler is removed while one is being added.
      if s.drain != NoDrain then None
      else Some(s.(shared := Removed(c)))
    case Close => Some(s.(shared := Closed(c)))
  }

  function InHand(s: State): seq<nat> {
    if s.drain.Batch? then s.drain.rest else []
  }

  function Flying(s: State): seq<nat> {
    if s.inFlight.Some? then [s.inFlight.value] else []
  }

  /** Everything delivered, then everything still on its way, in delivery order. */
  function Line(s: State): seq<nat> {
    s.delivered + InHand(s) + s.shared.pending + Flying(s)
  }

  ghost predicate Rising(xs: seq<nat>) {
    forall i, j | 0 <= i < j < |xs| :: xs[i] < xs[j]
  }

  ghost predicate Discipline(s: State) {
    && (s.shared.draining <==> s.drain.Batch?)
    && (s.drain != NoDrain ==> s.shared.handlers > 0)
    && (s.shared.pending != [] ==> MustBuffer(s.shared))
    && (s.inFlight.Some? ==> s.shared.pending == [] && InHand(s) == [])
    && |s.shared.pending| <= MAXIMUM_PENDING
  }

  ghost predicate Accounted(s: State) {
    && Rising(Line(s))
    && (forall r: nat :: r < s.published <==> r in Line(s) || r in s.dropped)
    && (forall r <- s.dropped :: r !in Line(s))
  }

  ghost predicate Inv(s: State) {
    Discipline(s) && Accounted(s)
  }

  lemma RisingAppend(xs: seq<nat>, x: nat)
    requires Rising(xs) && forall y <- xs :: y < x
    ensures Rising(xs + [x])
  {
    forall i, j | 0 <= i < j < |xs + [x]| ensures (xs + [x])[i] < (xs + [x])[j] {
      assert xs[i] in xs;
    }
  }

  /** Publishing puts the new number at the end, or also takes the oldest buffered one out. */
  lemma PublishKeepsAccount(s: State)
    requires Inv(s) && Next(s, Publish).Some?
    ensures Accounted(Next(s, Publish).value)
  {
    var s' := Next(s, Publish).value;
    var n := s.published;
    if s.shared.open {
      assert forall y <- Line(s) :: y < n;
      if MustBuffer(s.shared) && |s.shared.pending| == MAXIMUM_PENDING {
        var front, x, back := s.delivered + InHand(s), s.shared.pending[0], s.shared.pending[1..];
        assert Line(s) == front + [x] + back;
        assert Line(s') == front + back + [n];
        DropOne(front, x, back);
        RisingAppend(front + back, n);
      } else {
        assert Line(s') == Line(s) + [n];
        RisingAppend(Line(s), n);
      }
    }
  }

  lemma DropOne(front: seq<nat>, x: nat, back: seq<nat>)
    requires Rising(front + [x] + back)
    ensures Rising(front + back) && x !in front + back
    ensures forall y :: y in front + [x] + back <==> y in front + back || y == x
  {
    var whole := front + [x] + back;
    forall i | 0 <= i < |front + back| ensures (front + back)[i] == whole[if i < |front| then i else i + 1] {}
    assert whole[|front|] == x;
  }

  lemma StepKeepsInv(s: State, a: Action)
    requires Inv(s) && Next(s, a).Some?
    ensures Inv(Next(s, a).value)
  {
    var s' := Next(s, a).value;
    if a.Publish? {
      PublishKeepsAccount(s);
    } else {
      assert Line(s') == Line(s);
    }
  }

  lemma Reachable(acts: seq<Action>, s: State)
    requires Runs.Reaches(Next, START, acts, s)
    ensures Inv(s)
  {
    forall s: State, a | Inv(s) && Next(s, a).Some? ensures Inv(Next(s, a).value) {
      StepKeepsInv(s, a);
    }
    Runs.InvariantHolds(Next, Inv, START, acts, s);
  }

  /**
   In every interleaving, what was delivered followed by what is in a drain's hand, buffered and in
   flight is in publishing order without repetition, and together with what was dropped it is
   exactly what was published while open.
   */
  lemma InOrderAndAccountedFor(acts: seq<Action>, s: State)
    requires Runs.Reaches(Next, START, acts, s)
    ensures Rising(Line(s)) && s.delivered <= Line(s)
    ensures forall r: nat :: r < s.published <==> (r in Line(s)) != (r in s.dropped)
    ensures |s.shared.pending| <= 256
  {
    Reachable(acts, s);
    assert Line(s) == s.delivered + (InHand(s) + s.shared.pending + Flying(s));
  }

  /** A report is dropped only by a publication that finds the buffer full, and then it is the oldest one buffered. */
  lemma DroppedOnlyWhenFull(acts: seq<Action>, s: State, a: Action)
    requires Runs.Reaches(Next, START, acts, s) && Next(s, a).Some? && Next(s, a).value.dropped != s.dropped
    ensures a == Publish && |s.shared.pending| == 256
    ensures var oldest := s.shared.pending[0];
            Next(s, a).value.dropped == s.dropped + {oldest} && forall r <- s.shared.pending :: oldest <= r
  {
    Reachable(acts, s);
    var front := s.delivered + InHand(s);
    assert Line(s) == front + s.shared.pending + Flying(s);
    forall j | 0 <= j < |s.shared.pending| ensures s.shared.pending[0] <= s.shared.pending[j] {
      assert Line(s)[|front|] == s.shared.pending[0] && Line(s)[|front| + j] == s.shared.pending[j];
    }
  }

  /** The publications of a run before its first close. */
  function Publications(acts: seq<Action>): nat {
    if acts == [] || acts[0].Close? then 0
    else (if acts[0].Publish? then 1 else 0) + Publications(acts[1..])
  }

  lemma {:induction false} PublicationsCount(s: State, acts: seq<Action>, s': State)
    requires Runs.Reaches(Next, s, acts, s')
    ensures s'.published == s.published + if s.shared.open then Publications(acts) else 0
    decreases |acts|
  {
    if acts != [] {
      PublicationsCount(Next(s, acts[0]).value, acts[1..], s');
    }
  }

  /** Every publication before the first close counts, and none after it. */
  lemma PublishedWhileOpen(acts: seq<Action>, s: State)
    requires Runs.Reaches(Next, START, acts, s)
    ensures s.published == Publications(acts)
  {
    PublicationsCount(START, acts, s);
  }

  /**
   Reports only wait for a reason: in every run the buffer is empty unless there is no handler or a drain is going
   on; and with a handler, no drain, and nothing in flight, everything published is delivered, but for what was dropped.
   */
  lemma NothingWaitsForNothing(acts: seq<Action>, s: State)
    requires Runs.Reaches(Next, START, acts, s)
    ensures s.shared.pending != [] ==> s.shared.handlers == 0 || s.shared.draining
    ensures s.shared.handlers > 0 && s.drain == NoDrain && s.inFlight.None? ==>
              forall r: nat | r < s.published :: r in s.delivered || r in s.dropped
  {
    Reachable(acts, s);
    if s.shared.handlers > 0 && s.drain == NoDrain && s.inFlight.None? {
      assert s.shared.pending == [];
      assert Line(s) == s.delivered;
    }
  }

  /** With a handler and no drain, a report is raised at once. */
  lemma RaisedAtOnce(acts: seq<Action>, s: State)
    requires Runs.Reaches(Next, START, acts, s) && s.shared.open
    requires s.shared.handlers > 0 && s.drain == NoDrain && s.inFlight.None?
    ensures Next(s, Publish).Some? && Next(s, Publish).value.inFlight == Some(s.published)
    ensures Next(s, Publish).value.shared.pending == []
  {
    Reachable(acts, s);
  }

  /** Every call is taken, and what it does to the subscription, in every reachable state. */
  lemma CallsAreTaken(acts: seq<Action>, s: State)
    requires Runs.Reaches(Next, START, acts, s)
    ensures s.inFlight.None? && !s.shared.open ==> Next(s, Publish) == Some(s)
    ensures Next(s, Close) == Some(s.(shared := s.shared.(open := false)))
    ensures Next(s, AddHandler) ==
            Some(if s.shared.handlers > 0 then s.(shared := s.shared.(handlers := s.shared.handlers + 1))
                 else s.(shared := Shared([], 1, true, s.shared.open), drain := Batch(s.shared.pending, false)))
    ensures s.drain == NoDrain ==>
              Next(s, RemoveHandler) ==
              Some(s.(shared := s.shared.(handlers := if s.shared.handlers > 0 then s.shared.handlers - 1 else 0)))
  {
    Reachable(acts, s);
  }

  /** A call of a handler has failed during the drain, or the drain is over and takes its handler out for that. */
  predicate Failing(s: State) {
    s.drain == Unwinding || (s.drain.Batch? && s.drain.failed)
  }

  /** A failure is remembered to the end of the drain, and nothing else counts as one. */
  lemma FailureIsRemembered(s: State, a: Action)
    requires Next(s, a).Some? && !a.Unwind? && !a.AddHandler?
    ensures Failing(Next(s, a).value) <==> Failing(s) || (a.RaiseFromBatch? && a.handlerFails)
  {}

  /** What a drain still has to do. */
  function Work(s: State): nat {
    |Flying(s)| + if s.drain.Batch? then 2 + |s.drain.rest| + 2 * |s.shared.pending| else if s.drain == Unwinding then 1 else 0
  }

  lemma WorkStep(s: State) returns (a: Action, s': State)
    requires Inv(s) && s.shared.handlers > 0 && Work(s) > 0
    ensures Next(s, a) == Some(s') && Work(s') < Work(s)
    ensures s'.published == s.published && s'.dropped == s.dropped
    ensures s'.shared.handlers == s.shared.handlers - (if a.Unwind? then 1 else 0)
    ensures if a.Unwind? then s.drain == Unwinding && Work(s') == 0 else Failing(s') == Failing(s)
  {
    a := if s.inFlight.Some? then RaiseInFlight
         else if s.drain == Unwinding then Unwind
         else if s.drain.rest != [] then RaiseFromBatch(false) else SwapBatch;
    s' := Next(s, a).value;
  }

  lemma NothingLeft(s: State)
    requires Inv(s) && Work(s) == 0 && s.shared.pending == []
    ensures s.drain == NoDrain && s.inFlight.None? && forall r: nat | r < s.published :: r in s.delivered || r in s.dropped
  {
    assert Line(s) == s.delivered;
  }

  /**
   A drain can always be brought to its end, and then everything published up to now has been delivered, but for
   what was dropped before. It takes its handler out exactly when a call of a handler has failed.
   */
  lemma {:induction false} DrainCanFinish(s: State) returns (s': State)
    requires Inv(s) && s.shared.handlers > 0
    ensures Runs.Leads(Next, s, s') && s'.drain == NoDrain && s'.inFlight.None?
    ensures s'.shared.handlers == s.shared.handlers - (if Failing(s) then 1 else 0)
    ensures s'.published == s.published && s'.dropped == s.dropped
    ensures forall r: nat | r < s.published :: r in s'.delivered || r in s.dropped
    decreases Work(s)
  {
    if Work(s) == 0 {
      s' := s;
      assert Runs.Reaches(Next, s, [], s);
      NothingLeft(s);
    } else {
      var a, next := WorkStep(s);
      StepKeepsInv(s, a);
      if a.Unwind? {
        s' := next;
        NothingLeft(s');
      } else {
        s' := DrainCanFinish(next);
      }
      Runs.OneLeads(Next, s, a, next);
      if !a.Unwind? {
        Runs.LeadsOn(Next, s, next, s');
      }
    }
  }

  /** After a close nothing is published any more, so nothing newer is ever delivered. */
  lemma NothingAfterClose(before: seq<Action>, s: State, closed: State, after: seq<Action>, s': State)
    requires Runs.Reaches(Next, START, before, s)
    requires Next(s, Close) == Some(closed) && Runs.Reaches(Next, closed, after, s')
    ensures s'.published == s.published && forall r <- s'.delivered :: r < s.published
  {
    Reachable(before, s);
    StepKeepsInv(s, Close);
    ClosedPublishesNothing(closed, after, s');
  }

  lemma {:induction false} ClosedPublishesNothing(s: State, acts: seq<Action>, s': State)
    requires !s.shared.open && Inv(s) && Runs.Reaches(Next, s, acts, s')
    ensures s'.published == s.published && forall r <- s'.delivered :: r < s.published
    decreases |acts|
  {
    if acts == [] {
      assert Line(s) == s.delivered + (InHand(s) + s.shared.pending + Flying(s));
      forall r <- s.delivered ensures r < s.published { assert r in Line(s); }
    } else {
      StepKeepsInv(s, acts[0]);
      ClosedPublishesNothing(Next(s, acts[0]).value, acts[1..], s');
    }
  }
}
