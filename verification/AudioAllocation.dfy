/**
 The allocation workflow over the ledger, run by any number of attempts and releases at once against
 a camera that grants or refuses streams.  `outstanding` is the camera's side of the story: the
 attempts whose stream was granted and not yet confirmed deallocated.
 */
module AudioAllocation {
  import opened Basics
  import opened AudioOwnership
  import C = Correlation
  import Runs

  type Id = nat

  /** How far the reported stage got; only the distinction the failure handler draws matters here. */
  datatype Stage = Validation | StreamAllocation | StreamSelection | StreamDeallocation

  /** An exception: a native operation error, which may carry an IM status, or anything else. */
  datatype Raised = Chip(im: bool) | Other

  /** What became of the allocation command. */
  datatype Fate = Unsent | InFlight | Granted(stream: u16) | Refused

  datatype Phase =
    | Starting
    | Invoking                                   // reserved; encoding and admission, nothing sent
    | Sent                                       // waiting for the command to complete
    | Answered(stream: u16)
    | Committed(stream: u16)                     // recording and readback
    | RollingBack(stream: u16, stage: Stage, raised: Raised)
    | Handling(stage: Stage, raised: Raised)     // about to report the failure to the ledger
    | Exited(succeeded: bool)

  datatype Attempt = Attempt(key: Key, phase: Phase, fate: Fate, committed: bool)

  datatype Release = Release(key: Key, stream: u16, owner: Option<Id>, done: Option<Option<Raised>>)

  datatype World = World(ledger: History, attempts: map<Id, Attempt>, releases: map<Id, Release>, outstanding: set<Id>)

  const START := World(EMPTY, map[], map[], {})

  datatype Action =
    | Begin(a: Id, key: Key)
    | ReserveEntry(a: Id)
    | FailLocally(a: Id, raised: Raised)
    | Dispatch(a: Id)
    | CameraGrants(a: Id, stream: u16)
    | CameraRefuses(a: Id)
    | Complete(a: Id, request: C.Request, callbacks: seq<C.Callback<Option<u16>>>)
    | TimeOut(a: Id)
    | CommitEntry(a: Id)
    | ReadBack(a: Id, failure: Option<(Stage, Raised)>)
    | ReleaseReturned(a: Id, r: Id)
    | HandleFailure(a: Id)
    | BeginRelease(r: Id, key: Key, stream: u16, owner: Option<Id>)
    | FinishRelease(r: Id, error: Option<Raised>)

  predicate KnownRejection(stage: Stage, raised: Raised) {
    stage == Validation || raised == Chip(true)
  }

  /** A response payload is its stream identifier field, if that reads as a 16-bit number.
      What the camera is trusted with: callbacks report a refusal, or a stream, only if that is what happened. */
  ghost predicate Honest(fate: Fate, q: C.Request, cs: seq<C.Callback<Option<u16>>>) {
    forall c <- cs ::
      && (C.Refuses(c) ==> fate == Refused)
      && (C.Correlated(q, c) && c.payload.Data? && c.payload.value.Some? ==> fate == Granted(c.payload.value.value))
  }

  function RaisedBy(e: C.Error): Raised {
    Chip(e.ImStatus?)
  }

  /** A step changes one attempt or one release, and makes at most one call of the ledger. */
  datatype Change = ToAttempt(a: Id, attempt: Attempt) | ToRelease(r: Id, release: Release)

  datatype Move = Move(change: Change, call: Option<Call>, granted: set<Id>, confirmed: set<Id>)

  function Apply(w: World, m: Move): World {
    World(
      if m.call.Some? then Advance(w.ledger, m.call.value) else w.ledger,
      if m.change.ToAttempt? then w.attempts[m.change.a := m.change.attempt] else w.attempts,
      if m.change.ToRelease? then w.releases[m.change.r := m.change.release] else w.releases,
      w.outstanding + m.granted - m.confirmed)
  }

  ghost function Next(w: World, act: Action): Option<World> {
    var m := MoveOf(w, act);
    if m.None? then None else Some(Apply(w, m.value))
  }

  ghost function MoveOf(w: World, act: Action): Option<Move> {
    match act
    case Begin(a, k) =>
      if a in w.attempts then None else Some(Move(ToAttempt(a, Attempt(k, Starting, Unsent, false)), None, {}, {}))
    case BeginRelease(r, k, s, owner) =>
      if r in w.releases || (owner.Some? && !MayRelease(w, owner.value, k, s)) then None
      else
        var refused := Refusal(w.ledger.table, Call.StartRelease(k, s)).Some?;
        Some(Move(ToRelease(r, Release(k, s, owner, if refused then Some(Some(Other)) else None)),
                  Some(Call.StartRelease(k, s)), {}, {}))
    case FinishRelease(r, failure) =>
      if r !in w.releases || w.releases[r].done.Some? then None
      else
        var rel := w.releases[r];
        Some(Move(ToRelease(r, rel.(done := Some(failure))), Some(Call.ReleaseFinished(rel.key, failure.None?)), {},
                  if failure.None? then Confirmed(w, rel) else {}))
    case _ => if act.a in w.attempts then AttemptMove(w, act, w.attempts[act.a]) else None
  }

  /** An attempt rolls back only the stream it committed. */
  predicate MayRelease(w: World, a: Id, k: Key, s: u16) {
    a in w.attempts && w.attempts[a].committed && w.attempts[a].key == k && w.attempts[a].fate == Granted(s)
  }

  /** The streams that a confirmed deallocation frees. */
  function Confirmed(w: World, rel: Release): set<Id> {
    set a | a in w.outstanding && a in w.attempts && w.attempts[a].key == rel.key
            && w.attempts[a].fate == Granted(rel.stream)
  }

  ghost function AttemptMove(w: World, act: Action, x: Attempt): Option<Move>
    requires !act.BeginRelease? && !act.FinishRelease?
  {
    var call := CallOf(act, x);
    var refused := call.Some? && Refusal(w.ledger.table, call.value).Some?;
    var y := Proceed(act, x, refused, Rollback(w, act));
    if y.None? then None
    else Some(Move(ToAttempt(act.a, y.value), call, if act.CameraGrants? then {act.a} else {}, {}))
  }

  /** The call an attempt makes in a step. */
  function CallOf(act: Action, x: Attempt): Option<Call> {
    match act
    case ReserveEntry(_) => Some(Call.Reserve(x.key))
    case CommitEntry(_) => if x.phase.Answered? then Some(Call.Commit(x.key, x.phase.stream)) else None
    case HandleFailure(_) =>
      if x.phase.Handling? then Some(Call.AllocationFailed(x.key, KnownRejection(x.phase.stage, x.phase.raised))) else None
    case _ => None
  }

  /** How the release that an attempt waits for ended, once it has. */
  function Rollback(w: World, act: Action): Option<Option<Raised>> {
    if act.ReleaseReturned? && act.r in w.releases && w.releases[act.r].owner == Some(act.a) then w.releases[act.r].done
    else None
  }

  /** The attempt after its step; `refused` says whether the ledger threw. */
  ghost function Proceed(act: Action, x: Attempt, refused: bool, rollback: Option<Option<Raised>>): Option<Attempt> {
    match act
    case ReserveEntry(_) =>
      if !x.phase.Starting? then None else Some(x.(phase := if refused then Exited(false) else Invoking))
    case FailLocally(_, raised) =>
      if !x.phase.Invoking? then None else Some(x.(phase := Handling(Validation, raised)))
    case Dispatch(_) => if !x.phase.Invoking? then None else Some(x.(phase := Sent, fate := InFlight))
    case CameraGrants(_, s) => if !x.fate.InFlight? then None else Some(x.(fate := Granted(s)))
    case CameraRefuses(_) => if !x.fate.InFlight? then None else Some(x.(fate := Refused))
    case Complete(_, q, cs) =>
      if !x.phase.Sent? || q.expected.None? || !q.needsData || !Honest(x.fate, q, cs) then None
      else Some(x.(phase := AfterCompletion(C.Outcome(q, cs))))
    case TimeOut(_) => if !x.phase.Sent? then None else Some(x.(phase := Handling(StreamAllocation, Other)))
    case CommitEntry(_) =>
      if !x.phase.Answered? then None
      else if refused then Some(x.(phase := Handling(StreamAllocation, Other)))
      else Some(x.(phase := Committed(x.phase.stream), committed := true))
    case ReadBack(_, failure) =>
      if !x.phase.Committed? then None
      else if failure.None? then Some(x.(phase := Exited(true)))
      else if !failure.value.0.StreamAllocation? && !failure.value.0.StreamSelection? then None
      else Some(x.(phase := RollingBack(x.phase.stream, failure.value.0, failure.value.1)))
    case ReleaseReturned(_, r) =>
      if !x.phase.RollingBack? || rollback.None? then None
      else if rollback.value.None? then Some(x.(phase := Handling(x.phase.stage, x.phase.raised)))
      else Some(x.(phase := Handling(StreamDeallocation, rollback.value.value)))
    case HandleFailure(_) => if !x.phase.Handling? then None else Some(x.(phase := Exited(false)))
    case _ => None
  }

  function AfterCompletion(o: Result<C.Payload<Option<u16>>, C.Error>): Phase {
    match o
    case Err(e) => Handling(StreamAllocation, RaisedBy(e))
    case Ok(payload) =>
      if payload.Data? && payload.value.Some? then Answered(payload.value.value)
      else Handling(StreamAllocation, Other)
  }

  // ---------------------------------------------------------------------------------------------
  // What every step keeps.
  // ---------------------------------------------------------------------------------------------

  /** Between its reservation and its own commit or failure report. */
  predicate Live(x: Attempt) {
    !x.committed && (x.phase.Invoking? || x.phase.Sent? || x.phase.Answered? || x.phase.Handling?)
  }

  /** A stream exists, or may still come to exist, that no deallocation has been confirmed for. */
  predicate Hot(w: World, a: Id) {
    a in w.attempts && (w.attempts[a].fate == InFlight || a in w.outstanding)
  }

  /** The phase of an attempt agrees with the fate of its command; `out` says whether its stream is outstanding. */
  predicate PhaseAgrees(x: Attempt, out: bool) {
    && (out ==> x.fate.Granted?)
    && (x.phase.Starting? || x.phase.Invoking? ==> x.fate == Unsent)
    && (x.phase.Starting? || x.phase.Invoking? || x.phase.Sent? || x.phase.Answered? ==> !x.committed)
    && (x.phase.Sent? ==> x.fate != Unsent)
    && (x.phase.Handling? && x.fate == Unsent ==> x.phase.stage == Validation)
    && (x.phase.Answered? || x.phase.Committed? ==> x.fate == Granted(x.phase.stream))
    && (x.phase.Committed? || x.phase.RollingBack? ==> x.committed)
    && (x.committed ==> x.fate.Granted?)
    && (x.phase.Handling? && !x.committed && KnownRejection(x.phase.stage, x.phase.raised) ==>
          x.fate == Unsent || x.fate == Refused)
    && ((x.phase.RollingBack? || (x.phase.Handling? && x.committed)) ==> x.phase.stage != Validation)
  }

  predicate AttemptAgrees(w: World, a: Id)
    requires a in w.attempts
  {
    PhaseAgrees(w.attempts[a], a in w.outstanding)
  }

  /** The key of a live attempt is on the ledger. */
  ghost predicate Reserved(w: World, a: Id)
    requires a in w.attempts
  {
    var x := w.attempts[a];
    Live(x) ==> Has(w.ledger.table, x.key, Pending) || Has(w.ledger.table, x.key, Uncertain)
  }

  ghost predicate OneReservation(w: World, a: Id, b: Id)
    requires a in w.attempts && b in w.attempts
  {
    Live(w.attempts[a]) && Live(w.attempts[b]) && w.attempts[a].key == w.attempts[b].key ==> a == b
  }

  /** The entry that remembers the stream of `a`. */
  predicate Remembers(t: Table, x: Attempt) {
    || Has(t, x.key, Uncertain)
    || (Live(x) && Has(t, x.key, Pending))
    || (x.committed && (Has(t, x.key, Owned) || Has(t, x.key, Releasing))
        && x.fate.Granted? && t[x.key].stream == Some(x.fate.stream))
  }

  /** A release under way holds the entry it started from. */
  ghost predicate ReleaseAgrees(w: World, r: Id)
    requires r in w.releases
  {
    var rel := w.releases[r];
    rel.done.None? ==> Has(w.ledger.table, rel.key, Releasing) && w.ledger.table[rel.key].stream == Some(rel.stream)
  }

  ghost predicate OneRelease(w: World, r: Id, s: Id)
    requires r in w.releases && s in w.releases
  {
    w.releases[r].done.None? && w.releases[s].done.None? && w.releases[r].key == w.releases[s].key ==> r == s
  }

  ghost predicate Agreement(w: World) {
    && w.outstanding <= w.attempts.Keys
    && (forall a <- w.attempts :: AttemptAgrees(w, a))
    && (forall a <- w.attempts :: Reserved(w, a))
    && (forall a <- w.attempts, b <- w.attempts :: OneReservation(w, a, b))
    && (forall r <- w.releases :: ReleaseAgrees(w, r))
    && (forall r <- w.releases, s <- w.releases :: OneRelease(w, r, s))
    && (forall a <- w.attempts | Hot(w, a) :: Remembers(w.ledger.table, w.attempts[a]))
  }

  ghost predicate Inv(w: World) {
    Consistent(w.ledger) && Agreement(w)
  }

  /**
   The failure report of a call whose own allocation was committed earlier, carrying an IM status, at
   a moment when the endpoint is reserved by another attempt.  The ledger is keyed by endpoint, so
   the report hits the other attempt's reservation.
   */
  ghost predicate StrayReport(w: World, act: Action) {
    && act.HandleFailure? && act.a in w.attempts
    && var x := w.attempts[act.a];
       && x.phase.Handling? && x.committed && KnownRejection(x.phase.stage, x.phase.raised)
       && Has(w.ledger.table, x.key, Pending)
  }

  ghost function SoundNext(w: World, act: Action): Option<World> {
    if StrayReport(w, act) then None else Next(w, act)
  }

  /** What a completed command says about the camera. */
  lemma CompletionIsHonest(q: C.Request, cs: seq<C.Callback<Option<u16>>>, fate: Fate)
    requires q.expected.Some? && Honest(fate, q, cs)
    ensures var o := C.Outcome(q, cs);
            && (o.Err? && o.error.ImStatus? ==> fate == Refused)
            && (o.Ok? && o.value.Data? && o.value.value.Some? ==> fate == Granted(o.value.value.value))
  {
    C.SucceedsOnlyOnOneCorrelatedResponse(q, cs);
    C.ImStatusComesFromThePeer(q, cs);
    var o := C.Outcome(q, cs);
    if o.Ok? {
      assert cs[0] in cs;
    }
  }

  lemma ProceedAgrees(act: Action, x: Attempt, out: bool, refused: bool, rollback: Option<Option<Raised>>)
    requires PhaseAgrees(x, out) && Proceed(act, x, refused, rollback).Some?
    ensures PhaseAgrees(Proceed(act, x, refused, rollback).value, out || act.CameraGrants?)
  {
    if act.Complete? && x.phase.Sent? && act.request.expected.Some? && Honest(x.fate, act.request, act.callbacks) {
      CompletionIsHonest(act.request, act.callbacks, x.fate);
    }
  }

  /** How one step of an attempt moves it between the ledger's states. */
  lemma ProceedKeeps(act: Action, x: Attempt, out: bool, refused: bool, rollback: Option<Option<Raised>>)
    requires PhaseAgrees(x, out) && Proceed(act, x, refused, rollback).Some?
    ensures var y := Proceed(act, x, refused, rollback).value;
            && y.key == x.key && (x.committed ==> y.committed)
            && (Live(y) && !Live(x) ==> act.ReserveEntry? && !refused)
            && (Live(x) && !Live(y) ==> (act.CommitEntry? && !refused) || act.HandleFailure?)
            && (y.committed && !x.committed ==> act.CommitEntry? && !refused && y.fate == Granted(x.phase.stream))
            && (y.fate != x.fate ==> !x.fate.Granted?)
            && (act.Dispatch? || act.CameraGrants? || act.CameraRefuses? || y.fate == x.fate)
            && (y.fate.InFlight? && !x.fate.InFlight? ==> Live(x) && Live(y))
  {
    if act.Complete? && x.phase.Sent? && act.request.expected.Some? && Honest(x.fate, act.request, act.callbacks) {
      CompletionIsHonest(act.request, act.callbacks, x.fate);
    }
  }

  /** What a call leaves of a reserved entry, unless it is a commit or a known rejection there. */
  lemma CallKeepsReserved(h: History, c: Call, k: Key)
    requires Has(h.table, k, Pending) || Has(h.table, k, Uncertain)
    requires c.key == k ==> Has(h.table, k, Uncertain) || (!c.Commit? && !(c.AllocationFailed? && c.knownRejection))
    ensures Has(Advance(h, c).table, k, Pending) || Has(Advance(h, c).table, k, Uncertain)
  {}

  predicate IsAttempt(act: Action) {
    !act.Begin? && !act.BeginRelease? && !act.FinishRelease?
  }

  /** The attempt that takes the step, with what is known of it. */
  ghost predicate ActorAgrees(w: World, act: Action, a: Id) {
    IsAttempt(act) && act.a in w.attempts ==>
      && AttemptAgrees(w, act.a) && Reserved(w, act.a)
      && (a in w.attempts ==> OneReservation(w, a, act.a))
  }

  lemma StepKeepsAttempt(w: World, act: Action, a: Id)
    requires Next(w, act).Some? && a in Next(w, act).value.attempts
    requires a in w.attempts ==> AttemptAgrees(w, a)
    requires a in w.outstanding ==> a in w.attempts
    ensures AttemptAgrees(Next(w, act).value, a)
  {
    if IsAttempt(act) && act.a == a {
      var x, call := w.attempts[a], CallOf(act, w.attempts[a]);
      ProceedAgrees(act, x, a in w.outstanding, call.Some? && Refusal(w.ledger.table, call.value).Some?, Rollback(w, act));
    }
  }

  /** The attempt that acts, before and after. */
  lemma ActorMoves(w: World, act: Action)
    requires IsAttempt(act) && act.a in w.attempts && AttemptAgrees(w, act.a) && Next(w, act).Some?
    ensures var (x, y, call) := (w.attempts[act.a], Next(w, act).value.attempts[act.a], CallOf(act, w.attempts[act.a]));
            var refused := call.Some? && Refusal(w.ledger.table, call.value).Some?;
            && Proceed(act, x, refused, Rollback(w, act)) == Some(y) && PhaseAgrees(y, act.a in Next(w, act).value.outstanding)
            && y.key == x.key && (x.committed ==> y.committed)
            && (Live(y) && !Live(x) ==> act.ReserveEntry? && !refused)
            && (Live(x) && !Live(y) ==> (act.CommitEntry? && !refused) || act.HandleFailure?)
            && (y.committed && !x.committed ==> act.CommitEntry? && !refused && y.fate == Granted(x.phase.stream))
            && (y.fate != x.fate ==> !x.fate.Granted?)
            && (y.fate.InFlight? && !x.fate.InFlight? ==> Live(x) && Live(y))
  {
    var x, call := w.attempts[act.a], CallOf(act, w.attempts[act.a]);
    var refused := call.Some? && Refusal(w.ledger.table, call.value).Some?;
    ProceedKeeps(act, x, act.a in w.outstanding, refused, Rollback(w, act));
    ProceedAgrees(act, x, act.a in w.outstanding, refused, Rollback(w, act));
  }

  /** An attempt that does not act is as it was. */
  lemma BystanderStays(w: World, act: Action, a: Id)
    requires Next(w, act).Some? && a in w.attempts && (IsAttempt(act) ==> act.a != a)
    ensures var w' := Next(w, act).value;
            a in w'.attempts && w'.attempts[a] == w.attempts[a] && (a in w'.outstanding ==> a in w.outstanding)
  {}

  lemma ActorKeepsReserved(w: World, act: Action)
    requires IsAttempt(act) && act.a in w.attempts && SoundNext(w, act).Some?
    requires AttemptAgrees(w, act.a) && Reserved(w, act.a)
    ensures Reserved(Next(w, act).value, act.a)
  {
    ActorMoves(w, act);
  }

  lemma BystanderKeepsReserved(w: World, act: Action, a: Id)
    requires SoundNext(w, act).Some? && a in w.attempts && (IsAttempt(act) ==> act.a != a)
    requires Reserved(w, a) && ActorAgrees(w, act, a)
    ensures Reserved(Next(w, act).value, a)
  {
    BystanderStays(w, act, a);
    var k, m := w.attempts[a].key, MoveOf(w, act).value;
    if Live(w.attempts[a]) && m.call.Some? {
      CallKeepsReserved(w.ledger, m.call.value, k);
    }
  }

  lemma StepKeepsReserved(w: World, act: Action, a: Id)
    requires Agreement(w) && SoundNext(w, act).Some? && a in Next(w, act).value.attempts
    ensures Reserved(Next(w, act).value, a)
  {
    if a in w.attempts {
      if IsAttempt(act) && act.a == a {
        ActorKeepsReserved(w, act);
      } else {
        BystanderKeepsReserved(w, act, a);
      }
    }
  }

  /** A reservation is only taken on a free key, so the one who takes it is alone. */
  lemma ActorKeepsOneReservation(w: World, act: Action, b: Id)
    requires IsAttempt(act) && act.a in w.attempts && Next(w, act).Some? && b in w.attempts && b != act.a
    requires AttemptAgrees(w, act.a) && OneReservation(w, act.a, b) && Reserved(w, b)
    ensures OneReservation(Next(w, act).value, act.a, b) && OneReservation(Next(w, act).value, b, act.a)
  {
    ActorMoves(w, act);
    BystanderStays(w, act, b);
  }

  lemma StepKeepsOneReservation(w: World, act: Action, a: Id, b: Id)
    requires Agreement(w) && SoundNext(w, act).Some?
    requires a in Next(w, act).value.attempts && b in Next(w, act).value.attempts
    ensures OneReservation(Next(w, act).value, a, b)
  {
    if a != b && a in w.attempts && b in w.attempts {
      if IsAttempt(act) && act.a == a {
        ActorKeepsOneReservation(w, act, b);
      } else if IsAttempt(act) && act.a == b {
        ActorKeepsOneReservation(w, act, a);
      } else {
        BystanderStays(w, act, a);
        BystanderStays(w, act, b);
      }
    }
  }

  /** A releasing entry is only touched by the end of a release. */
  lemma CallKeepsReleasing(h: History, c: Call, k: Key)
    requires Has(h.table, k, Releasing) && (c.key == k ==> !c.ReleaseFinished?)
    ensures Has(Advance(h, c).table, k, Releasing) && Advance(h, c).table[k].stream == h.table[k].stream
  {}

  lemma OldReleaseKept(w: World, act: Action, r: Id)
    requires SoundNext(w, act).Some? && r in w.releases && ReleaseAgrees(w, r)
    requires act.FinishRelease? && act.r in w.releases ==> OneRelease(w, r, act.r)
    ensures ReleaseAgrees(Next(w, act).value, r)
  {
    var m := MoveOf(w, act).value;
    if w.releases[r].done.None? && !(act.FinishRelease? && act.r == r) && m.call.Some? {
      CallKeepsReleasing(w.ledger, m.call.value, w.releases[r].key);
    }
  }

  lemma StepKeepsRelease(w: World, act: Action, r: Id)
    requires Agreement(w) && SoundNext(w, act).Some? && r in Next(w, act).value.releases
    ensures ReleaseAgrees(Next(w, act).value, r)
  {
    if r in w.releases {
      OldReleaseKept(w, act, r);
    }
  }

  lemma PairOfReleasesKept(w: World, act: Action, r: Id, s: Id)
    requires Next(w, act).Some? && r in Next(w, act).value.releases && s in Next(w, act).value.releases
    requires r in w.releases && s in w.releases ==> OneRelease(w, r, s)
    requires r in w.releases ==> ReleaseAgrees(w, r)
    requires s in w.releases ==> ReleaseAgrees(w, s)
    ensures OneRelease(Next(w, act).value, r, s)
  {}

  lemma StepKeepsOneRelease(w: World, act: Action, r: Id, s: Id)
    requires Agreement(w) && SoundNext(w, act).Some?
    requires r in Next(w, act).value.releases && s in Next(w, act).value.releases
    ensures OneRelease(Next(w, act).value, r, s)
  {
    PairOfReleasesKept(w, act, r, s);
  }

  /** What each call leaves of the entry that remembers a stream. */
  lemma CallKeepsMemory(h: History, c: Call, x: Attempt)
    requires Remembers(h.table, x)
    requires c.key == x.key ==>
               && !(c.Commit? && Has(h.table, x.key, Pending))
               && !(c.AllocationFailed? && c.knownRejection && Has(h.table, x.key, Pending))
               && !(c.AllocationFailed? && Has(h.table, x.key, Pending) && !Live(x))
               && !(c.ReleaseFinished? && c.succeeded && Has(h.table, x.key, Releasing))
    ensures Remembers(Advance(h, c).table, x)
  {}

  lemma BystanderRemembered(w: World, act: Action, a: Id)
    requires SoundNext(w, act).Some? && a in w.attempts && (IsAttempt(act) ==> act.a != a)
    requires AttemptAgrees(w, a) && Remembers(w.ledger.table, w.attempts[a]) && ActorAgrees(w, act, a)
    requires act.FinishRelease? && act.r in w.releases ==> ReleaseAgrees(w, act.r)
    requires Hot(Next(w, act).value, a)
    ensures Remembers(Next(w, act).value.ledger.table, w.attempts[a])
  {
    BystanderStays(w, act, a);
    var x, m := w.attempts[a], MoveOf(w, act).value;
    if m.call.Some? && !(act.FinishRelease? && act.error.None? && w.releases[act.r].key == x.key) {
      CallKeepsMemory(w.ledger, m.call.value, x);
    }
  }

  lemma ActorRemembered(w: World, act: Action)
    requires IsAttempt(act) && act.a in w.attempts && SoundNext(w, act).Some?
    requires AttemptAgrees(w, act.a) && Reserved(w, act.a)
    requires Hot(w, act.a) ==> Remembers(w.ledger.table, w.attempts[act.a])
    requires Hot(Next(w, act).value, act.a)
    ensures Remembers(Next(w, act).value.ledger.table, Next(w, act).value.attempts[act.a])
  {
    ActorMoves(w, act);
  }

  lemma StepKeepsMemory(w: World, act: Action, a: Id)
    requires Agreement(w) && SoundNext(w, act).Some? && Hot(Next(w, act).value, a)
    ensures Remembers(Next(w, act).value.ledger.table, Next(w, act).value.attempts[a])
  {
    if IsAttempt(act) && act.a == a {
      ActorRemembered(w, act);
    } else if a in w.attempts {
      BystanderStays(w, act, a);
      assert Hot(w, a);
      BystanderRemembered(w, act, a);
    }
  }

  lemma StepKeepsInv(w: World, act: Action)
    requires Inv(w) && SoundNext(w, act).Some?
    ensures Inv(Next(w, act).value)
  {
    var w' := Next(w, act).value;
    assert Consistent(w'.ledger) by { StepIsLedgerCall(w, act); }
    forall a <- w'.attempts ensures AttemptAgrees(w', a) { StepKeepsAttempt(w, act, a); }
    forall a <- w'.attempts ensures Reserved(w', a) { StepKeepsReserved(w, act, a); }
    forall a <- w'.attempts, b <- w'.attempts ensures OneReservation(w', a, b) { StepKeepsOneReservation(w, act, a, b); }
    forall r <- w'.releases ensures ReleaseAgrees(w', r) { StepKeepsRelease(w, act, r); }
    forall r <- w'.releases, s <- w'.releases ensures OneRelease(w', r, s) { StepKeepsOneRelease(w, act, r, s); }
    forall a <- w'.attempts | Hot(w', a) ensures Remembers(w'.ledger.table, w'.attempts[a]) { StepKeepsMemory(w, act, a); }
  }

  /** Every step is at most one call of the ledger, so what holds of all call sequences holds here. */
  lemma StepIsLedgerCall(w: World, act: Action)
    requires Consistent(w.ledger) && Next(w, act).Some?
    ensures Consistent(Next(w, act).value.ledger)
    ensures Next(w, act).value.ledger == w.ledger || exists c :: Next(w, act).value.ledger == Advance(w.ledger, c)
  {
    var m := MoveOf(w, act).value;
    if m.call.Some? {
      AdvanceKeepsConsistent(w.ledger, m.call.value);
      assert Next(w, act).value.ledger == Advance(w.ledger, m.call.value);
    }
  }

  // ---------------------------------------------------------------------------------------------
  // The promises.
  // ---------------------------------------------------------------------------------------------

  lemma InvIsInductive()
    ensures Runs.Inductive(SoundNext, Inv)
  {
    forall w: World, a | Inv(w) && SoundNext(w, a).Some? ensures Inv(SoundNext(w, a).value) {
      StepKeepsInv(w, a);
    }
  }

  lemma Reachable(acts: seq<Action>, w: World)
    requires Runs.Reaches(SoundNext, START, acts, w)
    ensures Inv(w)
  {
    InvIsInductive();
    Runs.InvariantHolds(SoundNext, Inv, START, acts, w);
  }

  /** `a` holds a stream the ledger would have to account for, and the ledger does not. */
  predicate Forgotten(w: World, a: Id) {
    a in w.outstanding && (a !in w.attempts || w.attempts[a].key !in w.ledger.table)
  }

  /**
   In every run without a stray report: a stream the camera granted and has not confirmed gone is on
   the ledger at every moment, and once its call has exited the entry is Uncertain, or Owned or
   Releasing under exactly that stream.
   */
  lemma NeverForgets(acts: seq<Action>, w: World, a: Id)
    requires Runs.Reaches(SoundNext, START, acts, w) && a in w.outstanding
    ensures a in w.attempts && !Forgotten(w, a)
    ensures w.attempts[a].phase.Exited? ==>
              var k := w.attempts[a].key;
              || Has(w.ledger.table, k, Uncertain)
              || ((Has(w.ledger.table, k, Owned) || Has(w.ledger.table, k, Releasing))
                  && w.attempts[a].fate.Granted? && w.ledger.table[k].stream == Some(w.attempts[a].fate.stream))
  {
    Reachable(acts, w);
    assert Hot(w, a) && Remembers(w.ledger.table, w.attempts[a]);
  }

  /**
   An entry leaves the ledger only when the attempt that reserved it never sent its command or was
   refused, or when the camera confirmed the deallocation; and nothing granted at that key is left over.
   */
  lemma DroppedOnlyWhenGone(acts: seq<Action>, w: World, act: Action, w': World, k: Key)
    requires Runs.Reaches(SoundNext, START, acts, w) && SoundNext(w, act) == Some(w')
    requires k in w.ledger.table && k !in w'.ledger.table
    ensures || (act.FinishRelease? && act.error.None? && act.r in w.releases && w.releases[act.r].key == k)
            || (act.HandleFailure? && act.a in w.attempts && w.attempts[act.a].key == k && !w.attempts[act.a].committed
                && (w.attempts[act.a].fate == Unsent || w.attempts[act.a].fate == Refused))
    ensures forall a <- w'.outstanding :: a in w'.attempts && w'.attempts[a].key != k
  {
    Reachable(acts, w);
    StepKeepsInv(w, act);
    DropIsAccounted(w, act, k);
    NobodyLeft(w', k);
  }

  /** Which failures of an uncommitted attempt free its key, by what became of its command. */
  lemma ReportFreesOrMarks(w: World, a: Id)
    requires Inv(w) && a in w.attempts && w.attempts[a].phase.Handling? && !w.attempts[a].committed
    requires Has(w.ledger.table, w.attempts[a].key, Pending)
    ensures SoundNext(w, HandleFailure(a)).Some?
    ensures var x, t := w.attempts[a], SoundNext(w, HandleFailure(a)).value.ledger.table;
            && (x.fate == Unsent || x.phase.raised == Chip(true) ==>
                  x.key !in t && Refusal(t, Call.Reserve(x.key)).None?)
            && (x.fate == InFlight || x.fate.Granted? ==> Has(t, x.key, Uncertain))
            && (x.fate == Refused && x.phase.raised != Chip(true) && x.phase.stage != Validation ==> Has(t, x.key, Uncertain))
  {
    assert AttemptAgrees(w, a);
    var k := w.attempts[a].key;
    FreedIsFewer(w.ledger.table, k);
  }

  lemma FreedIsFewer(t: Table, k: Key)
    requires k in t
    ensures |t - {k}| == |t| - 1
  {
    assert (t - {k}).Keys == t.Keys - {k};
  }

  /**
   The failure handler drops what it has to: in every run, when an attempt that never committed reports its
   failure while its key is reserved, the key becomes free for a new allocation if the command was never sent,
   and becomes uncertain if it may have been, or was, granted.
   */
  lemma FailureIsResolved(acts: seq<Action>, w: World, a: Id)
    requires Runs.Reaches(SoundNext, START, acts, w) && a in w.attempts && w.attempts[a].phase.Handling?
    requires !w.attempts[a].committed && Has(w.ledger.table, w.attempts[a].key, Pending)
    ensures SoundNext(w, HandleFailure(a)).Some?
    ensures var x, t := w.attempts[a], SoundNext(w, HandleFailure(a)).value.ledger.table;
            && (x.fate == Unsent ==> x.key !in t && Refusal(t, Call.Reserve(x.key)).None?)
            && (x.fate == InFlight || x.fate.Granted? ==> Has(t, x.key, Uncertain))
  {
    Reachable(acts, w);
    ReportFreesOrMarks(w, a);
  }

  /** An attempt does not change while others act. */
  lemma {:induction false} StaysPut(w: World, acts: seq<Action>, w': World, a: Id)
    requires Inv(w) && a in w.attempts && Runs.Reaches(SoundNext, w, acts, w')
    requires forall act <- acts :: IsAttempt(act) ==> act.a != a
    ensures Inv(w') && a in w'.attempts && w'.attempts[a] == w.attempts[a]
    decreases |acts|
  {
    if acts != [] {
      BystanderStays(w, acts[0], a);
      StepKeepsInv(w, acts[0]);
      StaysPut(Next(w, acts[0]).value, acts[1..], w', a);
    }
  }

  /** And it frees the key as well when the command came back with a status of the peer, whatever others did meanwhile. */
  lemma RefusalIsResolved(before: seq<Action>, w: World, a: Id, q: C.Request, cs: seq<C.Callback<Option<u16>>>,
                          told: World, between: seq<Action>, w': World)
    requires Runs.Reaches(SoundNext, START, before, w) && SoundNext(w, Complete(a, q, cs)) == Some(told)
    requires C.Outcome(q, cs).Err? && C.Outcome(q, cs).error.ImStatus?
    requires Runs.Reaches(SoundNext, told, between, w') && forall act <- between :: IsAttempt(act) ==> act.a != a
    requires a in w'.attempts && Has(w'.ledger.table, w'.attempts[a].key, Pending)
    ensures SoundNext(w', HandleFailure(a)).Some?
    ensures w'.attempts[a].key !in SoundNext(w', HandleFailure(a)).value.ledger.table
  {
    Reachable(before, w);
    StepKeepsInv(w, Complete(a, q, cs));
    CompletionHandled(w, a, q, cs);
    StaysPut(told, between, w', a);
    ReportFreesOrMarks(w', a);
  }

  lemma CompletionHandled(w: World, a: Id, q: C.Request, cs: seq<C.Callback<Option<u16>>>)
    requires Inv(w) && SoundNext(w, Complete(a, q, cs)).Some?
    requires C.Outcome(q, cs).Err? && C.Outcome(q, cs).error.ImStatus?
    ensures a in w.attempts && a in Next(w, Complete(a, q, cs)).value.attempts
    ensures var y := Next(w, Complete(a, q, cs)).value.attempts[a];
            y.phase == Handling(StreamAllocation, Chip(true)) && !y.committed
  {
    assert AttemptAgrees(w, a);
  }

  lemma NobodyLeft(w: World, k: Key)
    requires Agreement(w) && k !in w.ledger.table
    ensures forall a <- w.outstanding :: a in w.attempts && w.attempts[a].key != k
  {
    forall a <- w.outstanding ensures a in w.attempts && w.attempts[a].key != k {
      assert Hot(w, a) && Remembers(w.ledger.table, w.attempts[a]);
    }
  }

  lemma CallDrops(h: History, c: Call, k: Key)
    requires k in h.table && k !in Advance(h, c).table
    ensures c.key == k
    ensures (c.ReleaseFinished? && c.succeeded) || (c.AllocationFailed? && c.knownRejection && Has(h.table, k, Pending))
  {}

  lemma DropIsAccounted(w: World, act: Action, k: Key)
    requires SoundNext(w, act).Some? && k in w.ledger.table && k !in Next(w, act).value.ledger.table
    requires IsAttempt(act) && act.a in w.attempts ==> AttemptAgrees(w, act.a)
    ensures || (act.FinishRelease? && act.error.None? && act.r in w.releases && w.releases[act.r].key == k)
            || (act.HandleFailure? && act.a in w.attempts && w.attempts[act.a].key == k && !w.attempts[act.a].committed
                && (w.attempts[act.a].fate == Unsent || w.attempts[act.a].fate == Refused))
  {
    var m := MoveOf(w, act).value;
    CallDrops(w.ledger, m.call.value, k);
  }

  // ---------------------------------------------------------------------------------------------
  // What a release settles.
  // ---------------------------------------------------------------------------------------------

  /** The stream of an attempt is confirmed gone, or being deallocated, or given up as uncertain: not just owned. */
  predicate Spent(w: World, a: Id) {
    a in w.attempts && w.attempts[a].committed && w.attempts[a].fate.Granted? &&
    (a in w.outstanding ==>
       var k := w.attempts[a].key;
       || Has(w.ledger.table, k, Uncertain)
       || (Has(w.ledger.table, k, Releasing) && w.ledger.table[k].stream == Some(w.attempts[a].fate.stream)))
  }

  /** Beginning its release spends the stream, whether the ledger lets it start or not. */
  lemma BeginSpends(w: World, r: Id, k: Key, s: u16, a: Id)
    requires Inv(w) && Next(w, BeginRelease(r, k, s, Some(a))).Some?
    ensures Spent(Next(w, BeginRelease(r, k, s, Some(a))).value, a)
  {
    assert MayRelease(w, a, k, s);
    if a in w.outstanding {
      assert Hot(w, a) && Remembers(w.ledger.table, w.attempts[a]);
    }
  }

  lemma CallKeepsUncertain(h: History, c: Call, k: Key)
    requires Has(h.table, k, Uncertain)
    ensures Has(Advance(h, c).table, k, Uncertain)
  {}

  /** The end of the release under way at the key: the stream is confirmed gone, or uncertain from now on. */
  lemma FinishKeepsSpent(w: World, act: Action, a: Id)
    requires Inv(w) && Next(w, act).Some? && Spent(w, a)
    requires act.FinishRelease? && act.r in w.releases && w.releases[act.r].key == w.attempts[a].key
    ensures Spent(Next(w, act).value, a)
  {
    assert ReleaseAgrees(w, act.r);
  }

  lemma StepKeepsSpent(w: World, act: Action, a: Id)
    requires Inv(w) && SoundNext(w, act).Some? && Spent(w, a)
    ensures Spent(Next(w, act).value, a)
  {
    var k, m := w.attempts[a].key, MoveOf(w, act).value;
    assert AttemptAgrees(w, a);
    if IsAttempt(act) && act.a == a {
      ActorMoves(w, act);
    } else {
      BystanderStays(w, act, a);
    }
    if act.FinishRelease? && w.releases[act.r].key == k {
      FinishKeepsSpent(w, act, a);
    } else if m.call.Some? && a in w.outstanding {
      if Has(w.ledger.table, k, Uncertain) {
        CallKeepsUncertain(w.ledger, m.call.value, k);
      } else {
        CallKeepsReleasing(w.ledger, m.call.value, k);
      }
    }
  }

  /** Every entry that is releasing has its release under way. */
  ghost predicate ReleasingHeld(w: World) {
    forall k <- w.ledger.table | Has(w.ledger.table, k, Releasing) ::
      exists r <- w.releases :: w.releases[r].key == k && w.releases[r].done.None?
  }

  lemma CallReleasing(h: History, c: Call, k: Key)
    requires Has(Advance(h, c).table, k, Releasing)
    ensures Has(h.table, k, Releasing) || (c.StartRelease? && c.key == k && Refusal(h.table, c).None?)
    ensures c.key == k ==> !c.ReleaseFinished? || Refusal(h.table, c).Some?
  {}

  lemma OldReleaserKept(w: World, act: Action, k: Key, r: Id)
    requires Next(w, act).Some? && Has(Next(w, act).value.ledger.table, k, Releasing) && Has(w.ledger.table, k, Releasing)
    requires r in w.releases && w.releases[r].key == k && w.releases[r].done.None?
    ensures var w' := Next(w, act).value; r in w'.releases && w'.releases[r].key == k && w'.releases[r].done.None?
  {
    var m := MoveOf(w, act).value;
    if m.call.Some? {
      CallReleasing(w.ledger, m.call.value, k);
    }
  }

  lemma NewReleaser(w: World, act: Action, k: Key)
    requires Next(w, act).Some? && Has(Next(w, act).value.ledger.table, k, Releasing) && !Has(w.ledger.table, k, Releasing)
    ensures var w' := Next(w, act).value;
            act.BeginRelease? && act.r in w'.releases && w'.releases[act.r].key == k && w'.releases[act.r].done.None?
  {
    CallReleasing(w.ledger, MoveOf(w, act).value.call.value, k);
  }

  lemma StepKeepsReleasingHeld(w: World, act: Action)
    requires Inv(w) && ReleasingHeld(w) && Next(w, act).Some?
    ensures ReleasingHeld(Next(w, act).value)
  {
    var w' := Next(w, act).value;
    forall k <- w'.ledger.table | Has(w'.ledger.table, k, Releasing)
      ensures exists r <- w'.releases :: w'.releases[r].key == k && w'.releases[r].done.None?
    {
      if Has(w.ledger.table, k, Releasing) {
        var r :| r in w.releases && w.releases[r].key == k && w.releases[r].done.None?;
        OldReleaserKept(w, act, k, r);
      } else {
        NewReleaser(w, act, k);
      }
    }
  }

  /**
   The guard is not stronger than it has to be: after a stray report, any attempt that holds the
   reservation and has its stream, or has sent for it, or may still send for it, can end up forgotten.
   */
  lemma StrayReportForgets(w: World, act: Action, b: Id)
    requires Inv(w) && StrayReport(w, act) && b in w.attempts
    requires Live(w.attempts[b]) && w.attempts[b].key == w.attempts[act.a].key
    requires w.attempts[b].phase.Invoking? || w.attempts[b].fate == InFlight || b in w.outstanding
    ensures Next(w, act).Some?
    ensures exists acts, w' :: Runs.Reaches(Next, Next(w, act).value, acts, w') && Forgotten(w', b)
  {
    assert AttemptAgrees(w, act.a) && AttemptAgrees(w, b);
    var w1 := Next(w, act).value;
    assert w.attempts[b].key !in w1.ledger.table;
    if b in w.outstanding {
      assert Runs.Reaches(Next, w1, [], w1) && Forgotten(w1, b);
    } else if w.attempts[b].fate == InFlight {
      var w2 := Next(w1, CameraGrants(b, 0)).value;
      Runs.Prepend(Next, w1, CameraGrants(b, 0), [], w2);
      assert Forgotten(w2, b);
    } else {
      var w2 := Next(w1, Dispatch(b)).value;
      var w3 := Next(w2, CameraGrants(b, 0)).value;
      Runs.Prepend(Next, w2, CameraGrants(b, 0), [], w3);
      Runs.Prepend(Next, w1, Dispatch(b), [CameraGrants(b, 0)] + [], w3);
      assert Forgotten(w3, b);
    }
  }

  /** Every reservation is held by an attempt. */
  ghost predicate PendingHeld(w: World) {
    forall k <- w.ledger.table | Has(w.ledger.table, k, Pending) ::
      exists a <- w.attempts :: Live(w.attempts[a]) && w.attempts[a].key == k
  }

  /** A key becomes pending only by a reservation, and stays so only without a report or commit there. */
  lemma CallPending(h: History, c: Call, k: Key)
    requires Has(Advance(h, c).table, k, Pending)
    ensures Has(h.table, k, Pending) || (c == Call.Reserve(k) && Refusal(h.table, c).None?)
    ensures c.key == k ==> !c.AllocationFailed? && !(c.Commit? && Refusal(h.table, c).None?)
  {}

  lemma HolderKept(w: World, act: Action, k: Key, a: Id)
    requires Inv(w) && SoundNext(w, act).Some? && Has(Next(w, act).value.ledger.table, k, Pending)
    requires a in w.attempts && Live(w.attempts[a]) && w.attempts[a].key == k
    ensures var w' := Next(w, act).value; a in w'.attempts && Live(w'.attempts[a]) && w'.attempts[a].key == k
  {
    assert AttemptAgrees(w, a);
    if IsAttempt(act) && act.a == a {
      ActorMoves(w, act);
      var call := CallOf(act, w.attempts[a]);
      if call.Some? {
        CallPending(w.ledger, call.value, k);
      }
    } else {
      BystanderStays(w, act, a);
    }
  }

  lemma ReserverHolds(w: World, act: Action, k: Key)
    requires Inv(w) && SoundNext(w, act).Some?
    requires Has(Next(w, act).value.ledger.table, k, Pending) && !Has(w.ledger.table, k, Pending)
    ensures var w' := Next(w, act).value;
            act.ReserveEntry? && act.a in w'.attempts && Live(w'.attempts[act.a]) && w'.attempts[act.a].key == k
  {
    var m := MoveOf(w, act).value;
    CallPending(w.ledger, m.call.value, k);
    assert AttemptAgrees(w, act.a);
  }

  lemma StepKeepsPendingHeld(w: World, act: Action)
    requires Inv(w) && PendingHeld(w) && SoundNext(w, act).Some?
    ensures PendingHeld(Next(w, act).value)
  {
    var w' := Next(w, act).value;
    forall k <- w'.ledger.table | Has(w'.ledger.table, k, Pending)
      ensures exists a <- w'.attempts :: Live(w'.attempts[a]) && w'.attempts[a].key == k
    {
      if Has(w.ledger.table, k, Pending) {
        var a :| a in w.attempts && Live(w.attempts[a]) && w.attempts[a].key == k;
        HolderKept(w, act, k, a);
      } else {
        ReserverHolds(w, act, k);
      }
    }
  }

  /** No two calls on one endpoint. */
  ghost predicate Alone(w: World) {
    forall a <- w.attempts, b <- w.attempts :: w.attempts[a].key == w.attempts[b].key ==> a == b
  }

  lemma AttemptsStay(w: World, act: Action)
    requires Next(w, act).Some?
    ensures forall a <- w.attempts :: a in Next(w, act).value.attempts && Next(w, act).value.attempts[a].key == w.attempts[a].key
  {
    if IsAttempt(act) && act.a in w.attempts {
      var x, call := w.attempts[act.a], CallOf(act, w.attempts[act.a]);
      assert Proceed(act, x, call.Some? && Refusal(w.ledger.table, call.value).Some?, Rollback(w, act)).value.key == x.key;
    }
  }

  lemma {:induction false} AttemptsPersist(w: World, acts: seq<Action>, w': World)
    requires Runs.Reaches(Next, w, acts, w')
    ensures forall a <- w.attempts :: a in w'.attempts && w'.attempts[a].key == w.attempts[a].key
    decreases |acts|
  {
    if acts == [] {
    } else {
      AttemptsStay(w, acts[0]);
      AttemptsPersist(Next(w, acts[0]).value, acts[1..], w');
    }
  }

  lemma {:induction false} AloneMeansNoStrayReport(w: World, acts: seq<Action>, w': World)
    requires Inv(w) && PendingHeld(w) && Runs.Reaches(Next, w, acts, w') && Alone(w')
    ensures Runs.Reaches(SoundNext, w, acts, w')
    decreases |acts|
  {
    AttemptsPersist(w, acts, w');
    if acts == [] {
    } else {
      assert !StrayReport(w, acts[0]);
      StepKeepsInv(w, acts[0]);
      StepKeepsPendingHeld(w, acts[0]);
      AloneMeansNoStrayReport(Next(w, acts[0]).value, acts[1..], w');
    }
  }

  /**
   One call per endpoint, any outcome of every step, releases and cancellations interleaved at will:
   no granted stream is ever forgotten.
   */
  lemma OneCallNeverForgets(acts: seq<Action>, w: World, a: Id)
    requires Runs.Reaches(Next, START, acts, w) && Alone(w)
    ensures !Forgotten(w, a)
    ensures a in w.outstanding && w.attempts[a].phase.Exited? ==> !Has(w.ledger.table, w.attempts[a].key, Pending)
  {
    AloneMeansNoStrayReport(START, acts, w);
    if a in w.outstanding {
      NeverForgets(acts, w, a);
    }
  }

  ghost predicate LedgerConsistent(w: World) {
    Consistent(w.ledger)
  }

  /** Under all interleavings, stray reports included, deallocation commands stay within commits, stream by stream. */
  lemma NeverReleasesTwice(acts: seq<Action>, w: World, k: Key)
    requires Runs.Reaches(Next, START, acts, w)
    ensures Log(w.ledger.dispatches, k) <= Log(w.ledger.commits, k)
    ensures |Log(w.ledger.commits, k)| <= |Log(w.ledger.dispatches, k)| + 1
    ensures |w.ledger.table| <= CAPACITY
  {
    forall w: World, a | LedgerConsistent(w) && Next(w, a).Some? ensures LedgerConsistent(Next(w, a).value) {
      StepIsLedgerCall(w, a);
    }
    Runs.InvariantHolds(Next, LedgerConsistent, START, acts, w);
    assert EntryAgrees(w.ledger, k);
  }

  const PLACE := Key(1, 1)
  const ASKED := C.Request(C.Path(1, 0x551, 0), Some(1), true)

  function Answer(stream: u16): seq<C.Callback<Option<u16>>> {
    [C.OnResponse(C.Path(1, 0x551, 1), None, C.Data(Some(stream)))]
  }

  lemma AnswerIsTaken(stream: u16)
    ensures C.Outcome(ASKED, Answer(stream)) == Ok(C.Data(Some(stream)))
    ensures Honest(Granted(stream), ASKED, Answer(stream))
  {
    C.SucceedsOnlyOnOneCorrelatedResponse(ASKED, Answer(stream));
  }

  /** A new attempt on a free key reserves, sends, and is granted `stream`. */
  function Obtained(w: World, a: Id, k: Key, stream: u16): World {
    World(Advance(w.ledger, Call.Reserve(k)), w.attempts[a := Attempt(k, Sent, Granted(stream), false)], w.releases,
          w.outstanding + {a})
  }

  /** A step of an attempt, spelt out. */
  lemma Takes(w: World, act: Action, y: Attempt)
    requires IsAttempt(act) && act.a in w.attempts
    requires var call := CallOf(act, w.attempts[act.a]);
             Proceed(act, w.attempts[act.a], call.Some? && Refusal(w.ledger.table, call.value).Some?, Rollback(w, act)) == Some(y)
    ensures var call := CallOf(act, w.attempts[act.a]);
            Next(w, act) == Some(World(if call.Some? then Advance(w.ledger, call.value) else w.ledger,
                                       w.attempts[act.a := y], w.releases,
                                       if act.CameraGrants? then w.outstanding + {act.a} else w.outstanding))
  {
    assert w.outstanding + {} - {} == w.outstanding && w.outstanding + {act.a} - {} == w.outstanding + {act.a};
  }

  lemma Overwrite<T>(m: map<Id, T>, a: Id, x: T, y: T)
    ensures m[a := x][a := y] == m[a := y]
  {}

  lemma ObtainingSteps(w: World, a: Id, k: Key, stream: u16) returns (w1: World, w2: World, w3: World)
    requires a !in w.attempts && Refusal(w.ledger.table, Call.Reserve(k)).None?
    ensures Next(w, Begin(a, k)) == Some(w1) && Next(w1, ReserveEntry(a)) == Some(w2) && Next(w2, Dispatch(a)) == Some(w3)
    ensures Next(w3, CameraGrants(a, stream)) == Some(Obtained(w, a, k, stream))
  {
    var x1 := Attempt(k, Starting, Unsent, false);
    var x2, x3, x4 := x1.(phase := Invoking), x1.(phase := Sent, fate := InFlight), x1.(phase := Sent, fate := Granted(stream));
    var reserved := Advance(w.ledger, Call.Reserve(k));
    w1 := World(w.ledger, w.attempts[a := x1], w.releases, w.outstanding);
    w2 := World(reserved, w.attempts[a := x2], w.releases, w.outstanding);
    w3 := World(reserved, w.attempts[a := x3], w.releases, w.outstanding);
    assert w.outstanding + {} - {} == w.outstanding;
    Takes(w1, ReserveEntry(a), x2);
    Overwrite(w.attempts, a, x1, x2);
    Takes(w2, Dispatch(a), x3);
    Overwrite(w.attempts, a, x2, x3);
    Takes(w3, CameraGrants(a, stream), x4);
    Overwrite(w.attempts, a, x3, x4);
  }

  lemma Obtains(w: World, a: Id, k: Key, stream: u16)
    requires a !in w.attempts && Refusal(w.ledger.table, Call.Reserve(k)).None?
    ensures Runs.Leads(Next, w, Obtained(w, a, k, stream))
  {
    var w1, w2, w3 := ObtainingSteps(w, a, k, stream);
    Runs.FourSteps(Next, w, Begin(a, k), w1, ReserveEntry(a), w2, Dispatch(a), w3, CameraGrants(a, stream),
                   Obtained(w, a, k, stream));
  }

  /** After the answer, the commit, and a readback that finds the stream. */
  function Allocated(w: World, a: Id, k: Key, stream: u16): World {
    World(Advance(Advance(w.ledger, Call.Reserve(k)), Call.Commit(k, stream)),
          w.attempts[a := Attempt(k, Exited(true), Granted(stream), true)], w.releases, w.outstanding + {a})
  }

  lemma Commits(w: World, a: Id, k: Key, stream: u16)
    requires k !in w.ledger.table && |w.ledger.table| < 8 && stream != 0xFFFF
    ensures Runs.Leads(Next, Obtained(w, a, k, stream), Allocated(w, a, k, stream))
  {
    var w0 := Obtained(w, a, k, stream);
    var x1, x2 := Attempt(k, Answered(stream), Granted(stream), false), Attempt(k, Committed(stream), Granted(stream), true);
    var x3 := Attempt(k, Exited(true), Granted(stream), true);
    var owned := Advance(w0.ledger, Call.Commit(k, stream));
    var w1 := World(w0.ledger, w.attempts[a := x1], w.releases, w0.outstanding);
    var w2 := World(owned, w.attempts[a := x2], w.releases, w0.outstanding);
    var w3 := Allocated(w, a, k, stream);
    AnswerIsTaken(stream);
    Takes(w0, Complete(a, ASKED, Answer(stream)), x1);
    Overwrite(w.attempts, a, w0.attempts[a], x1);
    Takes(w1, CommitEntry(a), x2);
    Overwrite(w.attempts, a, x1, x2);
    Takes(w2, ReadBack(a, None), x3);
    Overwrite(w.attempts, a, x2, x3);
    Runs.ThreeSteps(Next, w0, Complete(a, ASKED, Answer(stream)), w1, CommitEntry(a), w2, ReadBack(a, None), w3);
  }

  lemma AllocatedOwns(w: World, a: Id, k: Key, stream: u16)
    requires k !in w.ledger.table && |w.ledger.table| < 8 && stream != 0xFFFF
    ensures Allocated(w, a, k, stream).ledger.table == w.ledger.table[k := Entry(Owned, Some(stream))]
  {}

  lemma ObtainsAndCommits(w: World, a: Id, k: Key, stream: u16)
    requires a !in w.attempts && k !in w.ledger.table && |w.ledger.table| < 8 && stream != 0xFFFF
    ensures Runs.Leads(Next, w, Allocated(w, a, k, stream))
  {
    Obtains(w, a, k, stream);
    Commits(w, a, k, stream);
    Runs.LeadsOn(Next, w, Obtained(w, a, k, stream), Allocated(w, a, k, stream));
  }

  /**
   A free key can be allocated: from any state a new attempt reserves it, sends, is granted the stream, answered,
   commits and succeeds, and the ledger then owns exactly that stream there.
   */
  lemma FreeKeyCanBeAllocated(w: World, a: Id, k: Key, stream: u16)
    requires a !in w.attempts && k !in w.ledger.table && |w.ledger.table| < 8 && stream != 0xFFFF
    ensures Runs.Leads(Next, w, Allocated(w, a, k, stream))
    ensures Allocated(w, a, k, stream).ledger.table == w.ledger.table[k := Entry(Owned, Some(stream))]
  {
    AllocatedOwns(w, a, k, stream);
    ObtainsAndCommits(w, a, k, stream);
  }

  /** And an owned stream can be released: its key becomes free, and no attempt is left with that stream there. */
  lemma OwnedCanBeReleased(w: World, r: Id, k: Key, stream: u16) returns (w': World)
    requires r !in w.releases && Has(w.ledger.table, k, Owned) && w.ledger.table[k].stream == Some(stream)
    ensures Runs.Leads(Next, w, w') && w'.ledger.table == w.ledger.table - {k} && w'.attempts == w.attempts
    ensures w'.outstanding == w.outstanding - Confirmed(w, Release(k, stream, None, None))
  {
    var begin, finish := BeginRelease(r, k, stream, None), FinishRelease(r, None);
    var going, done := Release(k, stream, None, None), Release(k, stream, None, Some(None));
    var w1 := World(Advance(w.ledger, Call.StartRelease(k, stream)), w.attempts, w.releases[r := going], w.outstanding);
    w' := World(Advance(w1.ledger, Call.ReleaseFinished(k, true)), w.attempts, w.releases[r := done],
                w.outstanding - Confirmed(w1, going));
    assert w.outstanding + {} - {} == w.outstanding;
    assert Next(w, begin) == Some(w1);
    assert w1.outstanding + {} == w1.outstanding && w1.releases[r := done] == w.releases[r := done];
    assert Next(w1, finish) == Some(w');
    assert Confirmed(w1, going) == Confirmed(w, going);
    assert w'.ledger.table == w.ledger.table - {k};
    Runs.TwoSteps(Next, w, begin, w1, finish, w');
  }

  const ONE_COMMIT := map[PLACE := [5 as u16]]
  const SPENT := History(map[], ONE_COMMIT, ONE_COMMIT)
  const AFTER_RELEASE := map[0 := Release(PLACE, 5, Some(0), Some(None))]

  const FAILING := Attempt(PLACE, Handling(StreamSelection, Chip(true)), Granted(5), true)

  const COMMITTED := Attempt(PLACE, Committed(5), Granted(5), true)
  const ROLLING := COMMITTED.(phase := RollingBack(5, StreamSelection, Chip(true)))
  const OWNED := World(History(map[PLACE := Entry(Owned, Some(5))], ONE_COMMIT, map[]), map[0 := ROLLING], map[], {0})
  const ROLLED_BACK := World(SPENT, map[0 := FAILING], AFTER_RELEASE, {})

  /** Attempt 0 commits stream 5, and its readback is refused by the camera. */
  lemma FirstCallCommits()
    ensures Runs.Leads(Next, Obtained(START, 0, PLACE, 5), OWNED)
  {
    var w0 := Obtained(START, 0, PLACE, 5);
    var answered := Attempt(PLACE, Answered(5), Granted(5), false);
    var w1 := World(w0.ledger, map[0 := answered], map[], {0});
    var w2 := World(OWNED.ledger, map[0 := COMMITTED], map[], {0});
    assert w0.ledger == History(map[PLACE := Entry(Pending, None)], map[], map[]);
    assert w0.attempts == map[0 := Attempt(PLACE, Sent, Granted(5), false)] && w0.outstanding == {0};
    AnswerIsTaken(5);
    Takes(w0, Complete(0, ASKED, Answer(5)), answered);
    Overwrite(map[], 0, w0.attempts[0], answered);
    Runs.OneLeads(Next, w0, Complete(0, ASKED, Answer(5)), w1);
    FirstCallOwns(w0.ledger, w1, w2);
    Runs.LeadsOn(Next, w0, w1, w2);
    Runs.LeadsOn(Next, w0, w2, OWNED);
  }

  lemma FirstCallOwns(ledger: History, w1: World, w2: World)
    requires ledger == History(map[PLACE := Entry(Pending, None)], map[], map[])
    requires w1 == World(ledger, map[0 := Attempt(PLACE, Answered(5), Granted(5), false)], map[], {0})
    requires w2 == World(OWNED.ledger, map[0 := COMMITTED], map[], {0})
    ensures Runs.Leads(Next, w1, w2) && Runs.Leads(Next, w2, OWNED)
  {
    assert Advance(ledger, Call.Commit(PLACE, 5)) == OWNED.ledger by {
      assert Log(ledger.commits, PLACE) + [5] == [5];
    }
    Takes(w1, CommitEntry(0), COMMITTED);
    Overwrite(map[], 0, w1.attempts[0], COMMITTED);
    Runs.OneLeads(Next, w1, CommitEntry(0), w2);
    var failing := ReadBack(0, Some((StreamSelection, Chip(true))));
    Takes(w2, failing, ROLLING);
    Overwrite(map[], 0, COMMITTED, ROLLING);
    Runs.OneLeads(Next, w2, failing, OWNED);
  }

  /** Its stream is released. */
  lemma FirstCallReleases()
    ensures Runs.Leads(Next, OWNED, ROLLED_BACK)
  {
    var going := map[0 := Release(PLACE, 5, Some(0), None)];
    var releasing := History(map[PLACE := Entry(Releasing, Some(5))], ONE_COMMIT, ONE_COMMIT);
    var w1 := World(releasing, map[0 := ROLLING], going, {0});
    var w2 := World(SPENT, map[0 := ROLLING], AFTER_RELEASE, {});
    assert Next(OWNED, BeginRelease(0, PLACE, 5, Some(0))) == Some(w1) by {
      assert Log(OWNED.ledger.dispatches, PLACE) + [5] == [5];
      assert Advance(OWNED.ledger, Call.StartRelease(PLACE, 5)) == releasing;
    }
    assert Next(w1, FinishRelease(0, None)) == Some(w2) by {
      assert Next(w1, FinishRelease(0, None)).value.outstanding == {};
      assert going[0 := AFTER_RELEASE[0]] == AFTER_RELEASE;
      assert Advance(releasing, Call.ReleaseFinished(PLACE, true)) == SPENT;
    }
    Takes(w2, ReleaseReturned(0, 0), FAILING);
    Overwrite(map[], 0, ROLLING, FAILING);
    Runs.OneLeads(Next, OWNED, BeginRelease(0, PLACE, 5, Some(0)), w1);
    Runs.OneLeads(Next, w1, FinishRelease(0, None), w2);
    Runs.OneLeads(Next, w2, ReleaseReturned(0, 0), ROLLED_BACK);
    Runs.LeadsOn(Next, OWNED, w1, w2);
    Runs.LeadsOn(Next, OWNED, w2, ROLLED_BACK);
  }

  const LOST := World(SPENT, map[0 := FAILING.(phase := Exited(false)),
                                 1 := Attempt(PLACE, Exited(false), Granted(6), false)], AFTER_RELEASE, {1})

  const SECOND := Attempt(PLACE, Sent, Granted(6), false)
  const ERASED := World(SPENT, map[0 := FAILING.(phase := Exited(false)), 1 := SECOND], AFTER_RELEASE, {1})

  /** The report of attempt 0 erases the reservation of attempt 1. */
  lemma LateReportErases()
    ensures Runs.Leads(Next, Obtained(ROLLED_BACK, 1, PLACE, 6), ERASED)
  {
    var w0 := Obtained(ROLLED_BACK, 1, PLACE, 6);
    assert w0.attempts == map[0 := FAILING, 1 := SECOND];
    assert w0.ledger == History(map[PLACE := Entry(Pending, None)], ONE_COMMIT, ONE_COMMIT);
    assert Advance(w0.ledger, Call.AllocationFailed(PLACE, true)) == SPENT;
    Takes(w0, HandleFailure(0), FAILING.(phase := Exited(false)));
    assert w0.attempts[0 := FAILING.(phase := Exited(false))] == ERASED.attempts;
    Runs.OneLeads(Next, w0, HandleFailure(0), ERASED);
  }

  /** Attempt 1, answered, can no longer commit. */
  lemma LateReportStrikes(struck: World)
    requires struck == World(SPENT, ERASED.attempts[1 := SECOND.(phase := Handling(StreamAllocation, Other))],
                             AFTER_RELEASE, {1})
    ensures Runs.Leads(Next, ERASED, struck)
  {
    AnswerIsTaken(6);
    var answered, refused := SECOND.(phase := Answered(6)), SECOND.(phase := Handling(StreamAllocation, Other));
    var w2 := World(SPENT, ERASED.attempts[1 := answered], AFTER_RELEASE, {1});
    Takes(ERASED, Complete(1, ASKED, Answer(6)), answered);
    Runs.OneLeads(Next, ERASED, Complete(1, ASKED, Answer(6)), w2);
    Takes(w2, CommitEntry(1), refused);
    Overwrite(ERASED.attempts, 1, answered, refused);
    Runs.OneLeads(Next, w2, CommitEntry(1), struck);
    Runs.LeadsOn(Next, ERASED, w2, struck);
  }

  /** And its own report finds nothing to mark. */
  lemma SecondCallExits(struck: World)
    requires struck == World(SPENT, ERASED.attempts[1 := SECOND.(phase := Handling(StreamAllocation, Other))],
                             AFTER_RELEASE, {1})
    ensures Runs.Leads(Next, struck, LOST)
  {
    var refused := SECOND.(phase := Handling(StreamAllocation, Other));
    var exited := refused.(phase := Exited(false));
    Takes(struck, HandleFailure(1), exited);
    Overwrite(ERASED.attempts, 1, refused, exited);
    assert ERASED.attempts[1 := exited] == LOST.attempts;
    Runs.OneLeads(Next, struck, HandleFailure(1), LOST);
  }

  /** The interleaving that loses a stream: every call has exited, stream 6 is live, and the ledger is empty. */
  lemma LateReportLosesStream()
    ensures Runs.Leads(Next, START, LOST)
    ensures Forgotten(LOST, 1) && LOST.ledger.table == map[] && LOST.attempts[1].fate == Granted(6)
    ensures LOST.attempts[0].phase == LOST.attempts[1].phase == Exited(false) && LOST.attempts.Keys == {0, 1}
  {
    var first, second := Obtained(START, 0, PLACE, 5), Obtained(ROLLED_BACK, 1, PLACE, 6);
    Obtains(START, 0, PLACE, 5);
    FirstCallCommits();
    Runs.LeadsOn(Next, START, first, OWNED);
    FirstCallReleases();
    Runs.LeadsOn(Next, START, OWNED, ROLLED_BACK);
    Obtains(ROLLED_BACK, 1, PLACE, 6);
    Runs.LeadsOn(Next, START, ROLLED_BACK, second);
    LateReportErases();
    Runs.LeadsOn(Next, START, second, ERASED);
    var struck := World(SPENT, ERASED.attempts[1 := SECOND.(phase := Handling(StreamAllocation, Other))],
                        AFTER_RELEASE, {1});
    LateReportStrikes(struck);
    Runs.LeadsOn(Next, START, ERASED, struck);
    SecondCallExits(struck);
    Runs.LeadsOn(Next, START, struck, LOST);
  }

  // ---------------------------------------------------------------------------------------------
  // What each step may do.
  // ---------------------------------------------------------------------------------------------

  /** A stream comes to exist by a grant, and ceases to exist by a deallocation of it, at its key, that succeeds: in no other way. */
  lemma OutstandingIff(w: World, act: Action, w': World, a: Id)
    requires Next(w, act) == Some(w')
    ensures a !in w.outstanding ==> (a in w'.outstanding <==> act.CameraGrants? && act.a == a)
    ensures a in w.outstanding ==>
              (a !in w'.outstanding <==>
                 && act.FinishRelease? && act.error.None? && a in w.attempts
                 && w.attempts[a].key == w.releases[act.r].key && w.attempts[a].fate == Granted(w.releases[act.r].stream))
  {}

  /** A release that the ledger refuses never reaches the camera: it is over, with a failure. */
  lemma RefusedReleaseFails(w: World, r: Id, k: Key, s: u16, owner: Option<Id>, w': World)
    requires Next(w, BeginRelease(r, k, s, owner)) == Some(w')
    ensures w'.releases[r].done == if Has(w.ledger.table, k, Owned) && w.ledger.table[k].stream == Some(s) then None
                                   else Some(Some(Other))
  {}

  /** A rollback goes on exactly when its own release is over; a failed one is what the caller is told. */
  lemma RollbackWaitsForItsOwn(w: World, a: Id, r: Id)
    requires a in w.attempts && w.attempts[a].phase.RollingBack?
    ensures Next(w, ReleaseReturned(a, r)).Some? <==>
              r in w.releases && w.releases[r].owner == Some(a) && w.releases[r].done.Some?
    ensures Next(w, ReleaseReturned(a, r)).Some? ==>
              var x, done := w.attempts[a].phase, w.releases[r].done.value;
              Next(w, ReleaseReturned(a, r)).value.attempts[a].phase ==
              if done.None? then Handling(x.stage, x.raised) else Handling(StreamDeallocation, done.value)
  {}

  /** The ways an attempt may fail on its own, and what it then reports. */
  lemma HowItFails(w: World, a: Id, raised: Raised, stage: Stage)
    requires a in w.attempts && (stage == StreamAllocation || stage == StreamSelection)
    ensures var x := w.attempts[a];
            && (x.phase.Invoking? ==>
                  Next(w, FailLocally(a, raised)) == Some(w.(attempts := w.attempts[a := x.(phase := Handling(Validation, raised))])))
            && (x.phase.Sent? ==>
                  Next(w, TimeOut(a)) == Some(w.(attempts := w.attempts[a := x.(phase := Handling(StreamAllocation, Other))])))
            && (x.phase.Committed? ==>
                  Next(w, ReadBack(a, Some((stage, raised)))) ==
                  Some(w.(attempts := w.attempts[a := x.(phase := RollingBack(x.phase.stream, stage, raised))])))
  {
    assert w.outstanding + {} - {} == w.outstanding;
  }

  /** The camera decides about a command in flight, either way, and only once; the wait ends with what it told, for a request that insists on its response and data. */
  lemma CameraDecides(w: World, a: Id, stream: u16, q: C.Request, cs: seq<C.Callback<Option<u16>>>)
    requires a in w.attempts
    ensures Next(w, CameraGrants(a, stream)).Some? <==> w.attempts[a].fate.InFlight?
    ensures Next(w, CameraRefuses(a)).Some? <==> w.attempts[a].fate.InFlight?
    ensures w.attempts[a].fate.InFlight? ==>
              && Next(w, CameraGrants(a, stream)).value.attempts[a] == w.attempts[a].(fate := Granted(stream))
              && Next(w, CameraRefuses(a)).value.attempts[a] == w.attempts[a].(fate := Refused)
    ensures Next(w, Complete(a, q, cs)).Some? <==>
              w.attempts[a].phase.Sent? && q.expected.Some? && q.needsData && Honest(w.attempts[a].fate, q, cs)
  {}

  /** What becomes of a call that the ledger refuses. */
  lemma HowItIsRefused(w: World, a: Id)
    requires a in w.attempts
    ensures var x := w.attempts[a];
            && (x.phase.Starting? && (x.key in w.ledger.table || |w.ledger.table| >= 8) ==>
                  Next(w, ReserveEntry(a)) == Some(w.(attempts := w.attempts[a := x.(phase := Exited(false))])))
            && (x.phase.Answered? && (!Has(w.ledger.table, x.key, Pending) || x.phase.stream == 0xFFFF) ==>
                  Next(w, CommitEntry(a)) == Some(w.(attempts := w.attempts[a := x.(phase := Handling(StreamAllocation, Other))])))
  {
    assert w.outstanding + {} - {} == w.outstanding;
  }

  /** How far an attempt is from its end. */
  function Left(phase: Phase): nat {
    match phase
    case Starting => 7
    case Invoking => 6
    case Sent => 6
    case Answered(_) => 5
    case Committed(_) => 4
    case RollingBack(_, _, _) => 3
    case Handling(_, _) => 1
    case Exited(_) => 0
  }

  /** A step that is open to an attempt, short of waiting for a rollback. */
  function WayOut(a: Id, phase: Phase): Action {
    match phase
    case Starting => ReserveEntry(a)
    case Invoking => FailLocally(a, Other)
    case Sent => TimeOut(a)
    case Answered(_) => CommitEntry(a)
    case Committed(_) => ReadBack(a, None)
    case _ => HandleFailure(a)
  }

  lemma WayIsOpen(x: Attempt, a: Id, refused: bool)
    requires !x.phase.Exited? && !x.phase.RollingBack?
    ensures var y := Proceed(WayOut(a, x.phase), x, refused, None);
            y.Some? && Left(y.value.phase) < Left(x.phase) && !y.value.phase.RollingBack?
  {}

  lemma AttemptGoesOn(w: World, a: Id) returns (act: Action, w': World)
    requires a in w.attempts && !w.attempts[a].phase.Exited? && !w.attempts[a].phase.RollingBack?
    ensures Next(w, act) == Some(w') && a in w'.attempts && Left(w'.attempts[a].phase) < Left(w.attempts[a].phase)
    ensures !w'.attempts[a].phase.RollingBack?
  {
    var x := w.attempts[a];
    act := WayOut(a, x.phase);
    var call := CallOf(act, x);
    var refused := call.Some? && Refusal(w.ledger.table, call.value).Some?;
    WayIsOpen(x, a, refused);
    var y := Proceed(act, x, refused, None).value;
    assert Rollback(w, act).None? && IsAttempt(act);
    Takes(w, act, y);
    w' := Next(w, act).value;
  }

  lemma {:induction false} AttemptEnds(w: World, a: Id) returns (w': World)
    requires a in w.attempts && !w.attempts[a].phase.RollingBack?
    ensures Runs.Leads(Next, w, w') && a in w'.attempts && w'.attempts[a].phase.Exited?
    decreases Left(w.attempts[a].phase)
  {
    if w.attempts[a].phase.Exited? {
      w' := w;
      assert Runs.Reaches(Next, w, [], w);
    } else {
      var act, next := AttemptGoesOn(w, a);
      w' := AttemptEnds(next, a);
      Runs.OneLeads(Next, w, act, next);
      Runs.LeadsOn(Next, w, next, w');
    }
  }

  /**
   No attempt is ever stuck: from every state it can come to its end, one that rolls back as soon as its
   own release is over.
   */
  lemma EveryAttemptCanEnd(w: World, a: Id, r: Id) returns (w': World)
    requires a in w.attempts
    requires w.attempts[a].phase.RollingBack? ==> r in w.releases && w.releases[r].owner == Some(a) && w.releases[r].done.Some?
    ensures Runs.Leads(Next, w, w') && a in w'.attempts && w'.attempts[a].phase.Exited?
  {
    if w.attempts[a].phase.RollingBack? {
      RollbackWaitsForItsOwn(w, a, r);
      var next := Next(w, ReleaseReturned(a, r)).value;
      w' := AttemptEnds(next, a);
      Runs.OneLeads(Next, w, ReleaseReturned(a, r), next);
      Runs.LeadsOn(Next, w, next, w');
    } else {
      w' := AttemptEnds(w, a);
    }
  }
}
