/**
 Microphone capture: the generation protocol that lets a capture be stopped at any time, and the bounded
 queue of updates to the audio sender.

 The code between two suspension points runs without interruption, so each such segment is one step. What
 the browser does (statistics, permission, tracks ending, updates failing, the deadline) is arbitrary.
 */
module Capture {
  import opened Basics
  import Runs

  type Track = nat
  type AttemptId = nat

  const MAXIMUM_UPDATES := 8

  // ---------------------------------------------------------------------------------------------
  // The sender's updates: replaceTrack calls, one after the other.
  // ---------------------------------------------------------------------------------------------

  /** `requested` is every update accepted so far; `settled` those that finished, and how. */
  datatype Updates = Updates(size: nat, waiting: seq<Option<Track>>, running: Option<Option<Track>>,
                             settled: seq<(Option<Track>, bool)>, requested: seq<Option<Track>>)

  const IDLE := Updates(0, [], None, [], [])

  function Request(u: Updates, track: Option<Track>): (Updates, bool) {
    if u.size >= MAXIMUM_UPDATES then (u, false)
    else (Updates(u.size + 1, u.waiting + [track], u.running, u.settled, u.requested + [track]), true)
  }

  /** One update more waits behind the others. */
  function Waits(u: Updates, track: Option<Track>): Updates {
    u.(size := u.size + 1, waiting := u.waiting + [track], requested := u.requested + [track])
  }

  predicate CanBegin(u: Updates) {
    u.running.None? && u.waiting != []
  }

  function Begin(u: Updates): Updates
    requires CanBegin(u)
  {
    Updates(u.size, u.waiting[1..], Some(u.waiting[0]), u.settled, u.requested)
  }

  function Settle(u: Updates, ok: bool): Updates
    requires u.running.Some? && u.size > 0
  {
    Updates(u.size - 1, u.waiting, None, u.settled + [(u.running.value, ok)], u.requested)
  }

  function Tracks(settled: seq<(Option<Track>, bool)>): seq<Option<Track>> {
    seq(|settled|, i requires 0 <= i < |settled| => settled[i].0)
  }

  function Running(u: Updates): seq<Option<Track>> {
    if u.running.Some? then [u.running.value] else []
  }

  /** Updates are carried out in the order requested, one at a time, and at most eight are outstanding. */
  ghost predicate InOrder(u: Updates) {
    && u.requested == Tracks(u.settled) + Running(u) + u.waiting
    && u.size == |Running(u)| + |u.waiting|
    && u.size <= MAXIMUM_UPDATES
  }

  /** The track the sender has: that of the last update that succeeded. */
  function SenderTrack(settled: seq<(Option<Track>, bool)>): Option<Track> {
    if settled == [] then None
    else
      var last := settled[|settled| - 1];
      if last.1 then last.0 else SenderTrack(settled[..|settled| - 1])
  }

  lemma UpdatesStayInOrder(u: Updates, track: Option<Track>, ok: bool)
    requires InOrder(u)
    ensures InOrder(Request(u, track).0) && (Request(u, track).1 <==> u.size < 8)
    ensures CanBegin(u) ==> InOrder(Begin(u))
    ensures u.running.Some? ==> u.size > 0 && InOrder(Settle(u, ok))
  {
    assert Request(u, track).1 ==> Request(u, track).0.requested == u.requested + [track];
    if CanBegin(u) {
      assert u.waiting == [u.waiting[0]] + u.waiting[1..];
    }
    if u.running.Some? {
      assert Tracks(u.settled + [(u.running.value, ok)]) == Tracks(u.settled) + [u.running.value];
    }
  }

  // ---------------------------------------------------------------------------------------------
  // The engine.
  // ---------------------------------------------------------------------------------------------

  /** `queues` holds every update queue made, one a start; `updates` is the one in use; `sender` is absent when closed. */
  datatype Engine = Engine(closed: bool, generation: nat, pending: Option<AttemptId>, capture: Option<Track>,
                           wanted: bool, enabled: bool, attached: bool, sender: Option<nat>,
                           queues: seq<Updates>, updates: nat)

  const NEW := Engine(true, 0, None, None, false, false, false, None, [IDLE], 0)

  function Requested(e: Engine, track: Option<Track>): seq<Updates>
    requires e.updates < |e.queues|
  {
    e.queues[e.updates := Request(e.queues[e.updates], track).0]
  }

  function Started(e: Engine): Engine {
    Engine(false, e.generation + 1, e.pending, e.capture, e.wanted, e.enabled, e.attached,
           Some(|e.queues|), e.queues + [IDLE], |e.queues|)
  }

  function Stopped(e: Engine): Engine
    requires e.updates < |e.queues|
  {
    Engine(e.closed, e.generation + 1, e.pending, None, false, false, false, e.sender,
           if e.sender.Some? then Requested(e, None) else e.queues, e.updates)
  }

  function Closed(e: Engine): Engine
    requires e.updates < |e.queues|
  {
    Stopped(e).(closed := true, sender := None)
  }

  function Begun(e: Engine, a: AttemptId): Engine {
    Engine(e.closed, e.generation + 1, Some(a), e.capture, true, e.enabled, e.attached, e.sender, e.queues, e.updates)
  }

  function Adopted(e: Engine, track: Track): Engine {
    Engine(e.closed, e.generation, e.pending, Some(track), e.wanted, true, false, e.sender, e.queues, e.updates)
  }

  predicate Active(e: Engine, generation: nat) {
    !e.closed && e.wanted && e.generation == generation
  }

  class RealtimeAudio {
    var closed: bool
    var generation: nat
    var pendingCapture: Option<AttemptId>
    var capture: Option<Track>
    var captureWanted: bool
    var captureEnabled: bool
    var captureAttached: bool
    var sender: Option<nat>
    var queues: seq<Updates>
    var senderUpdates: nat

    function Contents(): Engine
      reads this
    {
      Engine(closed, generation, pendingCapture, capture, captureWanted, captureEnabled, captureAttached, sender,
             queues, senderUpdates)
    }

    constructor ()
      ensures Contents() == NEW
    {
      closed, generation, pendingCapture, capture := true, 0, None, None;
      captureWanted, captureEnabled, captureAttached := false, false, false;
      sender, queues, senderUpdates := None, [IDLE], 0;
    }

    /** Refuses unless closed. */
    method Start() returns (ok: bool)
      modifies this
      ensures ok == old(closed) && Contents() == if ok then Started(old(Contents())) else old(Contents())
      ensures !closed && (ok ==> generation == old(generation) + 1 && sender == Some(|old(queues)|) && queues == old(queues) + [IDLE])
    {
      if !closed {
        return false;
      }
      closed := false;
      generation := generation + 1;
      senderUpdates := |queues|;
      queues := queues + [IDLE];
      sender := Some(senderUpdates);
      return true;
    }

    /** `eligible`: the user asked, talk is on, and the connection sends. Returns the new generation. */
    method StartCapture(eligible: bool, attempt: AttemptId) returns (begun: Option<nat>)
      modifies this
      ensures begun.Some? == (eligible && !old(closed) && old(pendingCapture).None? && !old(captureWanted))
      ensures Contents() == if begun.Some? then Begun(old(Contents()), attempt) else old(Contents())
      ensures begun.Some? ==> captureWanted && generation == begun.value == old(generation) + 1 && pendingCapture == Some(attempt)
      ensures closed == old(closed) && capture == old(capture) && queues == old(queues)
    {
      if !eligible || closed {
        return None;
      }
      if pendingCapture.Some? || captureWanted {
        return None;
      }
      captureWanted := true;
      generation := generation + 1;
      pendingCapture := Some(attempt);
      return Some(generation);
    }

    method StopCapture()
      requires senderUpdates < |queues|
      modifies this
      ensures Contents() == Stopped(old(Contents()))
      ensures !captureWanted && !captureEnabled && !captureAttached && capture.None? && generation == old(generation) + 1
      ensures closed == old(closed) && sender == old(sender) && pendingCapture == old(pendingCapture)
      ensures queues == if sender.Some? && old(queues)[senderUpdates].size < 8
                        then old(queues)[senderUpdates := Waits(old(queues)[senderUpdates], None)] else old(queues)
    {
      captureWanted := false;
      captureEnabled := false;
      captureAttached := false;
      generation := generation + 1;
      capture := None;
      if sender.Some? {
        var accepted := ReplaceTrack(None);
      }
    }

    /** Rejected when eight updates are outstanding. */
    method ReplaceTrack(track: Option<Track>) returns (accepted: bool)
      requires senderUpdates < |queues|
      modifies this`queues
      ensures queues == Requested(old(Contents()), track)
      ensures accepted == (old(queues)[senderUpdates].size < 8)
      ensures queues == if accepted then old(queues)[senderUpdates := Waits(old(queues)[senderUpdates], track)] else old(queues)
    {
      var updates := queues[senderUpdates];
      if updates.size >= MAXIMUM_UPDATES {
        return false;
      }
      queues := queues[senderUpdates := Updates(updates.size + 1, updates.waiting + [track], updates.running,
                                                updates.settled, updates.requested + [track])];
      return true;
    }

    /** The attempt has its stream: `usable` for one audio track, `controls` for a sender whose bit rate can be set. */
    method OnStream(attempt: nat, tracks: seq<Track>, usable: bool, controls: bool) returns (setting: bool)
      requires senderUpdates < |queues| && (usable ==> |tracks| == 1)
      modifies this
      ensures setting == (!old(closed) && old(captureWanted) && old(generation) == attempt && usable && controls)
      ensures setting ==> capture == Some(tracks[0]) && captureEnabled && !captureAttached && queues == old(queues)
      ensures Contents() == if setting then Adopted(old(Contents()), tracks[0])
                            else if Active(old(Contents()), attempt) then Stopped(old(Contents()))
                            else old(Contents())
    {
      if !Active(Contents(), attempt) {
        return false;
      }
      if usable {
        capture := Some(tracks[0]);
        captureEnabled := true;
        captureAttached := false;
      }
      if !usable || !controls {
        StopCapture();
        return false;
      }
      return true;
    }

    /** The sender's parameters are set: asks for the track to be sent. */
    method OnParametersSet(attempt: nat, track: Track) returns (asked: bool, accepted: bool)
      requires senderUpdates < |queues|
      modifies this`queues
      ensures asked == Active(old(Contents()), attempt) && (!asked ==> !accepted)
      ensures queues == if asked then Requested(old(Contents()), Some(track)) else old(queues)
      ensures accepted == (asked && old(queues)[senderUpdates].size < 8)
    {
      asked, accepted := Active(Contents(), attempt), false;
      if asked {
        accepted := ReplaceTrack(Some(track));
      }
    }

    method OnReplaced(attempt: nat)
      modifies this`captureAttached
      ensures captureAttached == (old(captureAttached) || Active(old(Contents()), attempt))
    {
      if Active(Contents(), attempt) {
        captureAttached := true;
      }
    }

    /** An attempt failed, or its deadline passed. */
    method OnFailure(attempt: nat)
      requires senderUpdates < |queues|
      modifies this
      ensures Contents() == if Active(old(Contents()), attempt) then Stopped(old(Contents())) else old(Contents())
    {
      if Active(Contents(), attempt) {
        StopCapture();
      }
    }

    method Close()
      requires senderUpdates < |queues|
      modifies this
      ensures Contents() == Closed(old(Contents()))
      ensures closed && sender.None? && !captureWanted && capture.None?
    {
      StopCapture();
      closed := true;
      sender := None;
    }
  }

  // ---------------------------------------------------------------------------------------------
  // Attempts to capture, as suspended computations.
  // ---------------------------------------------------------------------------------------------

  datatype Acquisition =
    | Queued
    | ReadingStatistics
    | AskingPermission
    | Granted(tracks: seq<Track>, usable: bool)
    | Refused

  datatype Pc =
    | Racing                                   // the acquisition against the deadline
    | SettingParameters(track: Track)
    | Replacing(track: Track, queue: nat, entry: Option<nat>)   // no entry: the queue overflowed
    | Done

  datatype Attempt = Attempt(generation: nat, acquisition: Acquisition, pc: Pc)

  /**
   `live`: tracks granted and not stopped; `leaked`: those nothing refers to any more; `undetached`: the
   queues that were full when a stop asked for the null track.
   */
  datatype State = State(engine: Engine, attempts: map<AttemptId, Attempt>, live: set<Track>, leaked: set<Track>,
                         nextTrack: Track, undetached: set<nat>)

  const START := State(NEW, map[], {}, {}, 0, {})

  datatype Action =
    | Start
    | StartCapture(a: AttemptId)
    | StopCapture                               // the user, a failed inspection, a lost connection
    | TrackEnded(track: Track)
    | Close
    | Acquire(a: AttemptId, ok: bool)
    | Grant(a: AttemptId, tracks: nat, usable: bool)
    | Finish(a: AttemptId)
    | Resume(a: AttemptId, ok: bool, controls: bool)
    | BeginUpdate(q: nat)
    | SettleUpdate(q: nat, ok: bool)

  datatype Effect =
    | NoEffect
    | StartEngine
    | StopCapturing
    | CloseEngine
    | BeginAttempt(a: AttemptId)
    | ClearPending
    | Adopt(track: Track)
    | RequestTrack(track: Track)
    | Attach
    | BeginIn(q: nat)
    | SettleIn(q: nat, ok: bool)

  datatype Move = Move(effect: Effect, a: AttemptId, attempt: Option<Attempt>, granted: seq<Track>, kept: bool,
                       stopped: set<Track>, lost: set<Track>)

  function Only(effect: Effect): Move {
    Move(effect, 0, None, [], false, {}, {})
  }

  function Step(effect: Effect, a: AttemptId, attempt: Attempt): Move {
    Move(effect, a, Some(attempt), [], false, {}, {})
  }

  function Elements(tracks: seq<Track>): set<Track> {
    set t | t in tracks
  }

  function MoveOf(s: State, action: Action): Option<Move> {
    match action
    case Start => if s.engine.closed then Some(Only(StartEngine)) else None
    case StartCapture(a) =>
      if a in s.attempts || s.engine.closed || s.engine.pending.Some? || s.engine.wanted then None
      else Some(Step(BeginAttempt(a), a, Attempt(s.engine.generation + 1, Queued, Racing)))
    case StopCapture => Some(Only(StopCapturing))
    case TrackEnded(t) => if s.engine.capture == Some(t) then Some(Only(StopCapturing)) else None
    case Close => Some(Only(CloseEngine))
    case Acquire(a, ok) => if a in s.attempts then AcquireMove(s.engine, a, s.attempts[a], ok) else None
    case Grant(a, n, usable) =>
      if a in s.attempts && s.attempts[a].acquisition.AskingPermission?
      then Some(GrantMove(s, a, s.attempts[a], n, usable)) else None
    case Finish(a) =>
      if a in s.attempts && (s.attempts[a].acquisition.Granted? || s.attempts[a].acquisition.Refused?)
      then Some(Only(if s.engine.pending == Some(a) then ClearPending else NoEffect)) else None
    case Resume(a, ok, controls) => if a in s.attempts then ResumeMove(s.engine, a, s.attempts[a], ok, controls) else None
    case BeginUpdate(q) => if q < |s.engine.queues| && CanBegin(s.engine.queues[q]) then Some(Only(BeginIn(q))) else None
    case SettleUpdate(q, ok) =>
      if q < |s.engine.queues| && s.engine.queues[q].running.Some? && s.engine.queues[q].size > 0
      then Some(Only(SettleIn(q, ok))) else None
  }

  /** The chain that asks for the microphone: it looks twice before it asks, and once when the answer is there. */
  function AcquireMove(e: Engine, a: AttemptId, at: Attempt, ok: bool): Option<Move> {
    var active := Active(e, at.generation);
    match at.acquisition
    case Queued => Some(Step(NoEffect, a, at.(acquisition := if active then ReadingStatistics else Refused)))
    case ReadingStatistics => Some(Step(NoEffect, a, at.(acquisition := if ok && active then AskingPermission else Refused)))
    case AskingPermission => if ok then None else Some(Step(NoEffect, a, at.(acquisition := Refused)))
    case _ => None
  }

  function GrantMove(s: State, a: AttemptId, at: Attempt, n: nat, usable: bool): Move {
    var tracks := seq(n, i => s.nextTrack + i);
    Move(NoEffect, a, Some(at.(acquisition := Granted(tracks, usable && n == 1))), tracks,
         Active(s.engine, at.generation), {}, {})
  }

  /** The attempt goes on after what it waited for succeeded, or failed, or the deadline passed. */
  function ResumeMove(e: Engine, a: AttemptId, at: Attempt, ok: bool, controls: bool): Option<Move> {
    var active := Active(e, at.generation);
    var done := at.(pc := Done);
    match at.pc
    case Racing =>
      if ok != at.acquisition.Granted? then None
      else if !active then Some(Move(NoEffect, a, Some(done), [], false, {}, if ok then Elements(at.acquisition.tracks) else {}))
      else if !ok then Some(Step(StopCapturing, a, done))
      else if !at.acquisition.usable || |at.acquisition.tracks| != 1 || !controls then
        Some(Move(StopCapturing, a, Some(done), [], false, Elements(at.acquisition.tracks), {}))
      else
        var track := at.acquisition.tracks[0];
        Some(Step(Adopt(track), a, at.(pc := SettingParameters(track))))
    case SettingParameters(track) =>
      if !active then Some(Move(NoEffect, a, Some(done), [], false, if ok then {track} else {}, {}))
      else if !ok then Some(Step(StopCapturing, a, done))
      else Some(Step(RequestTrack(track), a, at.(pc := Replacing(track, e.updates, EntryFor(e)))))
    case Replacing(track, q, entry) =>
      if ok && !Succeeded(e, q, entry) then None
      else if !active then Some(Move(NoEffect, a, Some(done), [], false, if ok then {track} else {}, {}))
      else Some(Step(if ok then Attach else StopCapturing, a, done))
    case Done => None
  }

  function EntryFor(e: Engine): Option<nat> {
    if e.updates < |e.queues| && e.queues[e.updates].size < MAXIMUM_UPDATES
    then Some(|e.queues[e.updates].requested|) else None
  }

  predicate Succeeded(e: Engine, q: nat, entry: Option<nat>) {
    && q < |e.queues| && entry.Some?
    && entry.value < |e.queues[q].settled| && e.queues[q].settled[entry.value].1
  }

  predicate Stops(effect: Effect) {
    effect.StopCapturing? || effect.CloseEngine?
  }

  function EngineAfter(e: Engine, effect: Effect): Engine
    requires e.updates < |e.queues|
  {
    match effect
    case NoEffect => e
    case StartEngine => Started(e)
    case StopCapturing => Stopped(e)
    case CloseEngine => Closed(e)
    case BeginAttempt(a) => Begun(e, a)
    case ClearPending => e.(pending := None)
    case Adopt(track) => Adopted(e, track)
    case RequestTrack(track) => e.(queues := Requested(e, Some(track)))
    case Attach => e.(attached := true)
    case BeginIn(q) => if q < |e.queues| && CanBegin(e.queues[q]) then e.(queues := e.queues[q := Begin(e.queues[q])]) else e
    case SettleIn(q, ok) =>
      if q < |e.queues| && e.queues[q].running.Some? && e.queues[q].size > 0
      then e.(queues := e.queues[q := Settle(e.queues[q], ok)]) else e
  }

  function LiveAfter(s: State, m: Move): set<Track> {
    s.live + (if m.kept then Elements(m.granted) else {})
    - m.stopped - (if Stops(m.effect) && s.engine.capture.Some? then {s.engine.capture.value} else {})
  }

  function Apply(s: State, m: Move): State
    requires s.engine.updates < |s.engine.queues|
  {
    State(
      EngineAfter(s.engine, m.effect),
      if m.attempt.Some? then s.attempts[m.a := m.attempt.value] else s.attempts,
      LiveAfter(s, m),
      s.leaked + m.lost * s.live,
      s.nextTrack + |m.granted|,
      UndetachedAfter(s.engine, s.undetached, m.effect))
  }

  function UndetachedAfter(e: Engine, undetached: set<nat>, effect: Effect): set<nat>
    requires e.updates < |e.queues|
  {
    if Stops(effect) && e.sender.Some? && e.queues[e.updates].size >= MAXIMUM_UPDATES
    then undetached + {e.updates} else undetached
  }

  function Next(s: State, action: Action): Option<State> {
    var m := MoveOf(s, action);
    if m.None? || s.engine.updates >= |s.engine.queues| then None else Some(Apply(s, m.value))
  }

  // ---------------------------------------------------------------------------------------------
  // What every step keeps.
  // ---------------------------------------------------------------------------------------------

  predicate FlagsAgree(e: Engine) {
    && e.updates < |e.queues|
    && (e.closed <==> e.sender.None?) && (e.sender.Some? ==> e.sender.value == e.updates)
    && (e.attached ==> e.enabled) && (e.enabled <==> e.capture.Some?)
    && (e.enabled ==> e.wanted) && (e.wanted ==> !e.closed)
  }

  ghost predicate QueuesAgree(queues: seq<Updates>) {
    forall q | 0 <= q < |queues| :: InOrder(queues[q])
  }

  /** The newest update of the queue is the one that attached the track, and it is done. */
  ghost predicate LastSucceeded(u: Updates, track: Option<Track>) {
    && |u.settled| == |u.requested| && u.settled != []
    && u.settled[|u.settled| - 1] == (track, true)
  }

  ghost predicate AttachedAgrees(e: Engine) {
    e.attached ==> e.updates < |e.queues| && LastSucceeded(e.queues[e.updates], e.capture)
  }

  ghost predicate AttemptsAgree(s: State) {
    && (forall a <- s.attempts :: s.attempts[a].generation <= s.engine.generation)
    && (forall a <- s.attempts, b <- s.attempts | a != b :: s.attempts[a].generation != s.attempts[b].generation)
    && (s.engine.wanted ==> exists a :: a in s.attempts && s.attempts[a].generation == s.engine.generation)
  }

  /** How far the current attempt is says what the engine's fields are. */
  ghost predicate PcAgrees(e: Engine, pc: Pc) {
    match pc
    case Racing => !e.enabled
    case SettingParameters(track) => e.capture == Some(track) && !e.attached
    case Replacing(track, q, entry) =>
      && e.capture == Some(track) && !e.attached && q == e.updates && q < |e.queues|
      && (entry.Some? ==>
            |e.queues[q].requested| == entry.value + 1 && e.queues[q].requested[entry.value] == Some(track))
    case Done => e.attached
  }

  ghost predicate CurrentAgrees(s: State) {
    forall a <- s.attempts | Active(s.engine, s.attempts[a].generation) ::
      PcAgrees(s.engine, s.attempts[a].pc) && (s.attempts[a].pc.Racing? || s.attempts[a].acquisition.Granted?)
  }

  predicate Holds(at: Attempt, t: Track) {
    at.pc.Racing? && at.acquisition.Granted? && t in at.acquisition.tracks
  }

  ghost predicate LiveAgrees(s: State) {
    forall t <- s.live ::
      s.engine.capture == Some(t) || t in s.leaked || exists a :: a in s.attempts && Holds(s.attempts[a], t)
  }

  /** With the microphone off the newest update asks for the null track, unless the queue had no room for that. */
  predicate DetachAgrees(e: Engine, undetached: set<nat>) {
    e.sender.Some? && !e.enabled && e.updates < |e.queues| && e.updates !in undetached ==>
      var u := e.queues[e.updates];
      u.requested == [] || u.requested[|u.requested| - 1] == None
  }

  ghost predicate Inv(s: State) {
    && FlagsAgree(s.engine) && QueuesAgree(s.engine.queues) && AttachedAgrees(s.engine) && DetachAgrees(s.engine, s.undetached)
    && AttemptsAgree(s) && CurrentAgrees(s) && LiveAgrees(s)
  }

  /** What a move may do, given where its attempt stands. */
  ghost predicate Fits(s: State, m: Move) {
    var e := s.engine;
    && (m.effect.StartEngine? ==> e.closed)
    && (m.attempt.None? ==> m.effect in {NoEffect, StartEngine, StopCapturing, CloseEngine, ClearPending} || m.effect.BeginIn? || m.effect.SettleIn?)
    && (m.attempt.Some? && m.effect.BeginAttempt? ==>
          !e.closed && !e.wanted && m.a !in s.attempts && m.attempt.value == Attempt(e.generation + 1, Queued, Racing))
    && (m.attempt.Some? && !m.effect.BeginAttempt? ==>
          m.a in s.attempts && m.attempt.value.generation == s.attempts[m.a].generation &&
          FitsAttempt(e, m, s.attempts[m.a], m.attempt.value))
  }

  ghost predicate FitsAttempt(e: Engine, m: Move, at: Attempt, at': Attempt) {
    && (at'.acquisition == at.acquisition || (m.effect.NoEffect? && at'.pc == at.pc && !at.acquisition.Granted?))
    && match m.effect
       case NoEffect => Active(e, at.generation) ==> at'.pc == at.pc
       case StopCapturing => Active(e, at.generation)
       case Adopt(t) =>
         Active(e, at.generation) && at.pc.Racing? && at'.pc == SettingParameters(t) && at.acquisition.Granted?
       case RequestTrack(t) =>
         Active(e, at.generation) && at.pc == SettingParameters(t) && at'.pc == Replacing(t, e.updates, EntryFor(e))
       case Attach => Active(e, at.generation) && at.pc.Replacing? && Succeeded(e, at.pc.queue, at.pc.entry) && at'.pc.Done?
       case _ => false
  }

  /** No granted track is dropped unseen: it stays with its attempt, is stopped, is adopted, or is recorded as lost. */
  ghost predicate FitsTracks(s: State, m: Move) {
    && (m.attempt.Some? && m.a in s.attempts ==>
          forall t | Holds(s.attempts[m.a], t) ::
            Holds(m.attempt.value, t) || t in m.stopped || t in m.lost || m.effect == Adopt(t))
    && (m.kept ==>
          m.attempt.Some? && m.a in s.attempts && Active(s.engine, s.attempts[m.a].generation) &&
          !s.attempts[m.a].acquisition.Granted? && m.attempt.value.pc == s.attempts[m.a].pc &&
          m.attempt.value.acquisition.Granted? && m.attempt.value.acquisition.tracks == m.granted)
  }

  lemma MoveFitsTracks(s: State, action: Action)
    requires MoveOf(s, action).Some?
    ensures FitsTracks(s, MoveOf(s, action).value)
  {}

  lemma MoveFits(s: State, action: Action)
    requires MoveOf(s, action).Some?
    ensures Fits(s, MoveOf(s, action).value)
  {}

  lemma EffectKeepsFlags(s: State, m: Move)
    requires Inv(s) && Fits(s, m)
    ensures FlagsAgree(Apply(s, m).engine)
  {
    if m.effect.Adopt? || m.effect.Attach? {
      assert Active(s.engine, s.attempts[m.a].generation);
    }
  }

  lemma EffectKeepsQueues(e: Engine, effect: Effect)
    requires FlagsAgree(e) && QueuesAgree(e.queues)
    ensures QueuesAgree(EngineAfter(e, effect).queues)
  {
    match effect
    case StopCapturing => UpdatesStayInOrder(e.queues[e.updates], None, true);
    case CloseEngine => UpdatesStayInOrder(e.queues[e.updates], None, true);
    case RequestTrack(track) => UpdatesStayInOrder(e.queues[e.updates], Some(track), true);
    case BeginIn(q) => if q < |e.queues| { UpdatesStayInOrder(e.queues[q], None, true); }
    case SettleIn(q, ok) => if q < |e.queues| { UpdatesStayInOrder(e.queues[q], None, ok); }
    case _ =>
  }

  lemma EffectKeepsAttached(s: State, m: Move)
    requires Inv(s) && Fits(s, m)
    ensures AttachedAgrees(Apply(s, m).engine)
  {
    var e := s.engine;
    if m.effect.Attach? {
      var at := s.attempts[m.a];
      assert Active(e, at.generation);
      assert InOrder(e.queues[e.updates]);
    } else if m.effect.BeginIn? || m.effect.SettleIn? {
      assert InOrder(e.queues[e.updates]);
    } else if m.effect.Adopt? || m.effect.RequestTrack? {
      assert Active(e, s.attempts[m.a].generation);
    }
  }

  lemma EffectKeepsDetached(e: Engine, undetached: set<nat>, effect: Effect)
    requires FlagsAgree(e) && DetachAgrees(e, undetached) && (effect.RequestTrack? ==> e.enabled)
    ensures DetachAgrees(EngineAfter(e, effect), UndetachedAfter(e, undetached, effect))
  {}

  lemma RequestsWhileEnabled(s: State, m: Move)
    requires CurrentAgrees(s) && FlagsAgree(s.engine) && Fits(s, m)
    ensures m.effect.RequestTrack? ==> s.engine.enabled
  {
    if m.effect.RequestTrack? {
      assert Active(s.engine, s.attempts[m.a].generation);
    }
  }

  lemma ApplyKeepsAttempts(s: State, m: Move)
    requires Inv(s) && Fits(s, m)
    ensures AttemptsAgree(Apply(s, m))
  {
    var s' := Apply(s, m);
    if s'.engine.wanted {
      if m.effect.BeginAttempt? {
        assert m.attempt.Some? ==> s'.attempts[m.a].generation == s'.engine.generation;
      } else {
        var a :| a in s.attempts && s.attempts[a].generation == s.engine.generation;
        assert a in s'.attempts && s'.attempts[a].generation == s'.engine.generation;
      }
    }
  }

  lemma ApplyKeepsCurrent(s: State, m: Move, a: AttemptId)
    requires Inv(s) && Fits(s, m) && a in Apply(s, m).attempts
    requires Active(Apply(s, m).engine, Apply(s, m).attempts[a].generation)
    ensures PcAgrees(Apply(s, m).engine, Apply(s, m).attempts[a].pc)
    ensures Apply(s, m).attempts[a].pc.Racing? || Apply(s, m).attempts[a].acquisition.Granted?
  {
    var s' := Apply(s, m);
    if !m.effect.BeginAttempt? {
      assert a in s.attempts && Active(s.engine, s.attempts[a].generation);
      assert m.attempt.Some? && m.effect != NoEffect ==> Active(s.engine, s.attempts[m.a].generation) && m.a == a;
    }
  }

  lemma ApplyKeepsLive(s: State, m: Move, t: Track)
    requires Inv(s) && Fits(s, m) && FitsTracks(s, m) && t in Apply(s, m).live
    ensures var s' := Apply(s, m);
            s'.engine.capture == Some(t) || t in s'.leaked || exists a :: a in s'.attempts && Holds(s'.attempts[a], t)
  {
    var s' := Apply(s, m);
    if t !in s.live {
      assert Holds(s'.attempts[m.a], t);
    } else if s.engine.capture != Some(t) && t !in s.leaked {
      var a :| a in s.attempts && Holds(s.attempts[a], t);
      assert m.attempt.Some? && m.a == a ==> Holds(s'.attempts[a], t) || s'.engine.capture == Some(t) || t in s'.leaked;
      assert !(m.attempt.Some? && m.a == a) ==> a in s'.attempts && Holds(s'.attempts[a], t);
    }
  }

  lemma StepKeepsInv(s: State, action: Action)
    requires Inv(s) && Next(s, action).Some?
    ensures Inv(Next(s, action).value)
  {
    var m, s' := MoveOf(s, action).value, Next(s, action).value;
    MoveFits(s, action);
    MoveFitsTracks(s, action);
    EffectKeepsFlags(s, m);
    EffectKeepsQueues(s.engine, m.effect);
    EffectKeepsAttached(s, m);
    RequestsWhileEnabled(s, m);
    EffectKeepsDetached(s.engine, s.undetached, m.effect);
    ApplyKeepsAttempts(s, m);
    forall a <- s'.attempts | Active(s'.engine, s'.attempts[a].generation)
      ensures PcAgrees(s'.engine, s'.attempts[a].pc) && (s'.attempts[a].pc.Racing? || s'.attempts[a].acquisition.Granted?)
    {
      ApplyKeepsCurrent(s, m, a);
    }
    forall t <- s'.live
      ensures s'.engine.capture == Some(t) || t in s'.leaked || exists a :: a in s'.attempts && Holds(s'.attempts[a], t)
    {
      ApplyKeepsLive(s, m, t);
    }
  }

  lemma Reachable(acts: seq<Action>, s: State)
    requires Runs.Reaches(Next, START, acts, s)
    ensures Inv(s)
  {
    assert InOrder(IDLE);
    forall s: State, action | Inv(s) && Next(s, action).Some? ensures Inv(Next(s, action).value) {
      StepKeepsInv(s, action);
    }
    Runs.InvariantHolds(Next, Inv, START, acts, s);
  }

  // ---------------------------------------------------------------------------------------------
  // What every run keeps.
  // ---------------------------------------------------------------------------------------------

  /**
   Attached implies enabled, which implies that a capture is wanted on an open engine and there is a track;
   and attached means that the sender really has that track, with no update outstanding.
   */
  lemma FlagsAreHonest(acts: seq<Action>, s: State)
    requires Runs.Reaches(Next, START, acts, s)
    ensures var e := s.engine;
            && (e.attached ==> e.enabled)
            && (e.enabled ==> e.wanted && !e.closed && e.capture.Some?)
            && (e.attached ==>
                  e.updates < |e.queues| &&
                  var u := e.queues[e.updates];
                  u.requested != [] && SenderTrack(u.settled) == e.capture && u.size == 0 && u.requested[|u.requested| - 1] == e.capture)
  {
    Reachable(acts, s);
    var e := s.engine;
    if e.attached {
      var u := e.queues[e.updates];
      assert InOrder(u);
      assert u.requested[|u.requested| - 1] == Tracks(u.settled)[|u.settled| - 1];
    }
  }

  /**
   With the microphone off and all updates done, the sender has no track: unless the null-track update
   failed, or eight updates were outstanding when it was asked for.
   */
  lemma OffMeansDetached(acts: seq<Action>, s: State)
    requires Runs.Reaches(Next, START, acts, s)
    requires !s.engine.enabled && s.engine.sender.Some? && s.engine.updates < |s.engine.queues|
    ensures var u := s.engine.queues[s.engine.updates];
            u.size == 0 && SenderTrack(u.settled).Some? ==>
              u.settled != [] && (s.engine.updates in s.undetached || !u.settled[|u.settled| - 1].1)
  {
    Reachable(acts, s);
    var u := s.engine.queues[s.engine.updates];
    assert InOrder(u);
    if u.size == 0 && u.settled != [] {
      assert u.requested[|u.requested| - 1] == Tracks(u.settled)[|u.settled| - 1];
    }
  }

  /** The updates a queue still has to carry out, in order. */
  function Outstanding(u: Updates): seq<Option<Track>> {
    Running(u) + u.waiting
  }

  /** How the updates end if all that are outstanding succeed. */
  function Finally(u: Updates): seq<(Option<Track>, bool)> {
    u.settled + seq(|Outstanding(u)|, i requires 0 <= i < |Outstanding(u)| => (Outstanding(u)[i], true))
  }

  lemma BeginKeepsEnd(u: Updates)
    requires CanBegin(u)
    ensures Finally(Begin(u)) == Finally(u)
  {
    assert Outstanding(Begin(u)) == Outstanding(u);
  }

  lemma SuccessKeepsEnd(u: Updates)
    requires u.running.Some? && u.size > 0
    ensures Finally(Settle(u, true)) == Finally(u)
  {
    assert Outstanding(u) == [u.running.value] + Outstanding(Settle(u, true));
  }

  predicate IsSuccess(action: Action) {
    action.BeginUpdate? || (action.SettleUpdate? && action.ok)
  }

  lemma SuccessStep(s: State, action: Action, q: nat)
    requires Next(s, action).Some? && IsSuccess(action) && q < |s.engine.queues|
    ensures var e, e' := s.engine, Next(s, action).value.engine;
            |e'.queues| == |e.queues| && Finally(e'.queues[q]) == Finally(e.queues[q]) && e' == e.(queues := e'.queues)
  {
    var u := s.engine.queues[q];
    if action.BeginUpdate? && action.q == q {
      BeginKeepsEnd(u);
    } else if action.SettleUpdate? && action.q == q {
      SuccessKeepsEnd(u);
    }
  }

  /** While nothing happens but updates succeeding, a queue is on its way to the same end. */
  lemma {:induction false} SuccessesReachEnd(s: State, acts: seq<Action>, s': State, q: nat)
    requires Runs.Reaches(Next, s, acts, s') && (forall a <- acts :: IsSuccess(a)) && q < |s.engine.queues|
    ensures |s'.engine.queues| == |s.engine.queues| && Finally(s'.engine.queues[q]) == Finally(s.engine.queues[q])
    ensures s'.engine == s.engine.(queues := s'.engine.queues)
    decreases |acts|
  {
    if acts != [] {
      SuccessStep(s, acts[0], q);
      SuccessesReachEnd(Next(s, acts[0]).value, acts[1..], s', q);
    }
  }

  /** What a stop leaves the sender with, at the level of its queue. */
  lemma StopEnds(u: Updates)
    requires InOrder(u)
    ensures u.size == MAXIMUM_UPDATES ==> u.requested != []
    ensures SenderTrack(Finally(Request(u, None).0)) == None <==>
            u.size < MAXIMUM_UPDATES || (u.requested != [] && u.requested[|u.requested| - 1] == None)
  {
    var u' := Request(u, None).0;
    UpdatesStayInOrder(u, None, true);
    assert Outstanding(u') != [] && u'.requested[|u'.requested| - 1] == Outstanding(u')[|Outstanding(u')| - 1];
    assert Finally(u')[|Finally(u')| - 1] == (u'.requested[|u'.requested| - 1], true);
  }

  /**
   Exactly when a stop takes the track off the sender: if from the stop on nothing happens but the
   outstanding updates succeeding, the sender ends up without a track if and only if fewer than eight updates
   were outstanding at the stop, or the newest of them already asked for the null track.
   */
  lemma StopDetachesIff(before: seq<Action>, s: State, stopped: State, after: seq<Action>, s': State)
    requires Runs.Reaches(Next, START, before, s) && s.engine.sender.Some?
    requires Next(s, StopCapture) == Some(stopped)
    requires Runs.Reaches(Next, stopped, after, s') && forall a <- after :: IsSuccess(a)
    requires s.engine.updates < |s.engine.queues| == |s'.engine.queues|
    requires s'.engine.queues[s.engine.updates].size == 0
    ensures var u := s.engine.queues[s.engine.updates];
            SenderTrack(s'.engine.queues[s.engine.updates].settled) == None <==>
            u.size < 8 || (u.requested != [] && u.requested[|u.requested| - 1] == None)
  {
    var q := s.engine.updates;
    InOrderThroughout(before, s, q);
    StopRequests(s);
    SuccessesReachEnd(stopped, after, s', q);
    InOrderThroughout(before + [StopCapture] + after, s', q) by {
      Runs.Append(Next, stopped, [], stopped, after, s');
      Runs.Prepend(Next, s, StopCapture, after, s');
      Runs.Append(Next, START, before, s, [StopCapture] + after, s');
      assert before + ([StopCapture] + after) == before + [StopCapture] + after;
    }
    StopEnds(s.engine.queues[q]);
    DoneIsEnd(s'.engine.queues[q]);
  }

  lemma StopRequests(s: State)
    requires s.engine.sender.Some? && s.engine.updates < |s.engine.queues|
    ensures Next(s, StopCapture).Some?
    ensures var e, e' := s.engine, Next(s, StopCapture).value.engine;
            |e'.queues| == |e.queues| && e'.queues[e.updates] == Request(e.queues[e.updates], None).0
  {}

  lemma InOrderThroughout(acts: seq<Action>, s: State, q: nat)
    requires Runs.Reaches(Next, START, acts, s) && q < |s.engine.queues|
    ensures InOrder(s.engine.queues[q])
  {
    Reachable(acts, s);
  }

  lemma DoneIsEnd(u: Updates)
    requires InOrder(u) && u.size == 0
    ensures Finally(u) == u.settled
  {
    assert Outstanding(u) == [];
  }

  /** A wanted capture is never forgotten: its attempt is still going on, or the capture is attached. */
  lemma WantedIsPursued(acts: seq<Action>, s: State)
    requires Runs.Reaches(Next, START, acts, s)
    requires s.engine.wanted
    ensures exists a :: a in s.attempts && Active(s.engine, s.attempts[a].generation) &&
                        (s.attempts[a].pc.Done? <==> s.engine.attached)
  {
    Reachable(acts, s);
    var a :| a in s.attempts && s.attempts[a].generation == s.engine.generation;
    assert PcAgrees(s.engine, s.attempts[a].pc);
  }

  /** What an attempt that is no longer current does to the engine: at most it stops being the pending one. */
  lemma SupersededChangesNothing(s: State, action: Action)
    requires Next(s, action).Some?
    requires action.Resume? || action.Acquire? || action.Grant? || action.Finish?
    requires !Active(s.engine, s.attempts[action.a].generation)
    ensures var e, e' := s.engine, Next(s, action).value.engine;
            e' == e.(pending := e'.pending) && (e'.pending == e.pending || action.Finish?)
    ensures Next(s, action).value.live <= s.live
  {}

  /** At most one attempt is current, so no two attempts can both go on. */
  lemma OneCurrentAttempt(acts: seq<Action>, s: State, a: AttemptId, b: AttemptId)
    requires Runs.Reaches(Next, START, acts, s)
    requires a in s.attempts && Active(s.engine, s.attempts[a].generation)
    requires b in s.attempts && Active(s.engine, s.attempts[b].generation)
    ensures a == b
  {
    Reachable(acts, s);
  }

  /** Sender updates are carried out in the order they were accepted, and at most eight are outstanding. */
  lemma SenderUpdatesInOrder(acts: seq<Action>, s: State, q: nat)
    requires Runs.Reaches(Next, START, acts, s) && q < |s.engine.queues|
    ensures var u := s.engine.queues[q];
            && 0 <= u.size <= 8 && u.size == |u.requested| - |u.settled|
            && forall i | 0 <= i < |u.settled| :: u.settled[i].0 == u.requested[i]
  {
    Reachable(acts, s);
    var u := s.engine.queues[q];
    assert InOrder(u);
    forall i | 0 <= i < |u.settled| ensures u.settled[i].0 == u.requested[i] {
      assert Tracks(u.settled)[i] == u.requested[i];
    }
  }

  /**
   With the microphone off every track ever granted is stopped, but for those an attempt has been granted
   and not yet looked at, and those lost that way.
   */
  lemma OffMeansStopped(acts: seq<Action>, s: State, t: Track)
    requires Runs.Reaches(Next, START, acts, s)
    requires !s.engine.enabled && t in s.live
    ensures t in s.leaked || exists a :: a in s.attempts && Holds(s.attempts[a], t)
  {
    Reachable(acts, s);
  }

  /**
   A track is lost exactly when its attempt is superseded after the grant was looked at and before the
   attempt goes on.
   */
  lemma LostIff(s: State, action: Action, t: Track)
    requires Next(s, action).Some? && t !in s.leaked
    ensures t in Next(s, action).value.leaked <==>
            && action.Resume? && action.ok && t in s.live && Holds(s.attempts[action.a], t)
            && !Active(s.engine, s.attempts[action.a].generation)
  {}

  /** The attempt goes on superseded, and holds a track that is still live. */
  ghost predicate Loses(s: State, action: Action) {
    && action.Resume? && action.ok && action.a in s.attempts && !Active(s.engine, s.attempts[action.a].generation)
    && exists t <- s.live :: Holds(s.attempts[action.a], t)
  }

  ghost predicate SomeStepLoses(s: State, acts: seq<Action>)
    decreases |acts|
  {
    && acts != [] && Next(s, acts[0]).Some?
    && (Loses(s, acts[0]) || SomeStepLoses(Next(s, acts[0]).value, acts[1..]))
  }

  lemma LosingStep(s: State, action: Action)
    requires Next(s, action).Some?
    ensures s.leaked <= Next(s, action).value.leaked
    ensures s.leaked == {} ==> (Next(s, action).value.leaked != {} <==> Loses(s, action))
  {
    var s' := Next(s, action).value;
    if s.leaked == {} {
      forall t ensures t in s'.leaked ==> Loses(s, action) {
        LostIff(s, action, t);
      }
      if Loses(s, action) {
        var t :| t in s.live && Holds(s.attempts[action.a], t);
        LostIff(s, action, t);
      }
    }
  }

  lemma {:induction false} LeakedGrows(s: State, acts: seq<Action>, s': State)
    requires Runs.Reaches(Next, s, acts, s')
    ensures s.leaked <= s'.leaked
    decreases |acts|
  {
    if acts != [] {
      LosingStep(s, acts[0]);
      LeakedGrows(Next(s, acts[0]).value, acts[1..], s');
    }
  }

  /** A run loses a track if and only if in some step of it a superseded attempt goes on with a live grant. */
  lemma {:induction false} RunLosesIff(s: State, acts: seq<Action>, s': State)
    requires Runs.Reaches(Next, s, acts, s') && s.leaked == {}
    ensures s'.leaked != {} <==> SomeStepLoses(s, acts)
    decreases |acts|
  {
    if acts != [] {
      LosingStep(s, acts[0]);
      var next := Next(s, acts[0]).value;
      if next.leaked == {} {
        RunLosesIff(next, acts[1..], s');
      } else {
        LeakedGrows(next, acts[1..], s');
      }
    }
  }

  /**
   Turns of the event loop: when permission is granted to an attempt that is waiting for it, the look at the
   grant and the continuation of the attempt run in one turn.
   */
  datatype Turn =
    | One(action: Action)
    | GrantAndResume(a: AttemptId, tracks: nat, usable: bool, controls: bool)

  function NextTurn(s: State, turn: Turn): Option<State> {
    match turn
    case One(action) =>
      if action.Grant? && action.a in s.attempts && s.attempts[action.a].pc.Racing? then None else Next(s, action)
    case GrantAndResume(a, n, usable, controls) =>
      var granted := Next(s, Grant(a, n, usable));
      if granted.None? then None else Next(granted.value, Resume(a, true, controls))
  }

  predicate Waiting(at: Attempt) {
    at.pc.Racing? && at.acquisition.Granted?
  }

  /** No attempt is between its grant and its continuation; track numbers are given out in order. */
  ghost predicate Settled(s: State) {
    && s.leaked == {}
    && (forall a <- s.attempts :: !Waiting(s.attempts[a]))
    && (forall t <- s.live :: t < s.nextTrack)
  }

  lemma MoveSettled(s: State, action: Action)
    requires Settled(s) && MoveOf(s, action).Some?
    requires action.Grant? ==> !s.attempts[action.a].pc.Racing?
    ensures var m := MoveOf(s, action).value;
            && m.lost == {} && (m.attempt.Some? ==> !Waiting(m.attempt.value))
            && (forall t <- m.granted :: t < s.nextTrack + |m.granted|)
  {}

  lemma OneKeepsSettled(s: State, action: Action)
    requires Settled(s) && NextTurn(s, One(action)).Some?
    ensures Settled(NextTurn(s, One(action)).value)
  {
    MoveSettled(s, action);
  }

  /** After a grant only its attempt waits, and what it holds is live only if it is current. */
  ghost predicate OnlyWaiting(s: State, a: AttemptId) {
    && s.leaked == {} && a in s.attempts && s.attempts[a].acquisition.Granted?
    && (forall b <- s.attempts | b != a :: !Waiting(s.attempts[b]))
    && (forall t <- s.live :: t < s.nextTrack)
    && (Active(s.engine, s.attempts[a].generation) || Elements(s.attempts[a].acquisition.tracks) !! s.live)
  }

  lemma GrantLeavesOneWaiting(s: State, a: AttemptId, n: nat, usable: bool)
    requires Settled(s) && Next(s, Grant(a, n, usable)).Some?
    ensures OnlyWaiting(Next(s, Grant(a, n, usable)).value, a)
  {}

  lemma ResumeSettles(s: State, a: AttemptId, controls: bool)
    requires OnlyWaiting(s, a) && Next(s, Resume(a, true, controls)).Some?
    ensures Settled(Next(s, Resume(a, true, controls)).value)
  {}

  lemma PairKeepsSettled(s: State, a: AttemptId, n: nat, usable: bool, controls: bool)
    requires Settled(s) && NextTurn(s, GrantAndResume(a, n, usable, controls)).Some?
    ensures Settled(NextTurn(s, GrantAndResume(a, n, usable, controls)).value)
  {
    GrantLeavesOneWaiting(s, a, n, usable);
    ResumeSettles(Next(s, Grant(a, n, usable)).value, a, controls);
  }

  /** Turn by turn, nothing is ever lost: with the microphone off no granted track is live. */
  lemma OffMeansNothingLive(turns: seq<Turn>, s: State)
    requires Runs.Reaches(NextTurn, START, turns, s)
    ensures s.leaked == {} && (!s.engine.enabled ==> s.live == {})
  {
    var inv := (s: State) => Inv(s) && Settled(s);
    assert InOrder(IDLE);
    forall s: State, turn | inv(s) && NextTurn(s, turn).Some? ensures inv(NextTurn(s, turn).value) {
      match turn
      case One(action) =>
        StepKeepsInv(s, action);
        OneKeepsSettled(s, action);
      case GrantAndResume(a, n, usable, controls) =>
        StepKeepsInv(s, Grant(a, n, usable));
        StepKeepsInv(Next(s, Grant(a, n, usable)).value, Resume(a, true, controls));
        PairKeepsSettled(s, a, n, usable, controls);
    }
    Runs.InvariantHolds(NextTurn, inv, START, turns, s);
    assert forall t <- s.live, a <- s.attempts :: !Holds(s.attempts[a], t);
  }

  // ---------------------------------------------------------------------------------------------
  // Runs: a track is lost, and a track stays on the sender.
  // ---------------------------------------------------------------------------------------------

  /** A step, field by field. */
  lemma Goes(s: State, action: Action, m: Move) returns (s': State)
    requires MoveOf(s, action) == Some(m) && s.engine.updates < |s.engine.queues|
    ensures Next(s, action) == Some(s') && s'.engine == EngineAfter(s.engine, m.effect)
    ensures m.attempt.Some? ==> s'.attempts.Keys == s.attempts.Keys + {m.a} && s'.attempts[m.a] == m.attempt.value
    ensures m.attempt.None? ==> s'.attempts == s.attempts
    ensures s'.live == LiveAfter(s, m) && s'.leaked == s.leaked + m.lost * s.live
    ensures s'.nextTrack == s.nextTrack + |m.granted|
  {
    s' := Apply(s, m);
  }

  /** The engine is open on queue 1, which holds `u`, and attempt 0 is at `at`. */
  ghost predicate Attempting(s: State, u: Updates, at: Attempt) {
    var e := s.engine;
    && !e.closed && e.sender == Some(1) && e.updates == 1 && e.queues == [IDLE, u]
    && s.attempts.Keys == {0} && s.attempts[0] == at && s.leaked == {}
  }

  /** Nothing was captured yet. */
  ghost predicate Ready(s: State, u: Updates) {
    var e := s.engine;
    && !e.closed && e.sender == Some(1) && e.updates == 1 && e.queues == [IDLE, u]
    && e.pending.None? && e.capture.None? && !e.wanted && !e.enabled && !e.attached
    && s.attempts == map[] && s.live == {} && s.leaked == {} && s.nextTrack == 0
  }

  lemma AttemptBegins(s: State, u: Updates) returns (asking: State)
    requires Ready(s, u)
    ensures Runs.Leads(Next, s, asking) && asking.live == {} && asking.nextTrack == 0
    ensures Attempting(asking, u, Attempt(s.engine.generation + 1, AskingPermission, Racing))
    ensures Active(asking.engine, s.engine.generation + 1) && asking.engine.capture.None?
  {
    var at := Attempt(s.engine.generation + 1, Queued, Racing);
    var s1 := Goes(s, StartCapture(0), Step(BeginAttempt(0), 0, at));
    var s2 := Goes(s1, Acquire(0, true), Step(NoEffect, 0, at.(acquisition := ReadingStatistics)));
    asking := Goes(s2, Acquire(0, true), Step(NoEffect, 0, at.(acquisition := AskingPermission)));
    Runs.ThreeSteps(Next, s, StartCapture(0), s1, Acquire(0, true), s2, Acquire(0, true), asking);
  }

  /** A current attempt is granted one audio track, number 0. */
  lemma AttemptIsGranted(s: State, u: Updates, at: Attempt) returns (granted: State)
    requires Attempting(s, u, at) && at.acquisition.AskingPermission? && Active(s.engine, at.generation)
    requires s.live == {} && s.nextTrack == 0
    ensures Runs.Leads(Next, s, granted) && Attempting(granted, u, at.(acquisition := Granted([0], true)))
    ensures granted.live == {0} && granted.engine == s.engine
  {
    assert seq(1, i => s.nextTrack + i) == [0];
    var m := Move(NoEffect, 0, Some(at.(acquisition := Granted([0], true))), [0], true, {}, {});
    granted := Goes(s, Grant(0, 1, true), m);
    Runs.OneLeads(Next, s, Grant(0, 1, true), granted);
  }

  /** A stop comes between the grant and the continuation of the attempt, which then lets go of the track. */
  lemma StopThenResumeLoses(s: State, u: Updates, at: Attempt) returns (lost: State)
    requires Attempting(s, u, at) && at.acquisition == Granted([0], true) && at.pc.Racing?
    requires s.live == {0} && Active(s.engine, at.generation) && s.engine.capture.None?
    ensures Runs.Leads(Next, s, lost) && lost.leaked == {0} && lost.live == {0} && !lost.engine.wanted
  {
    var s1 := Goes(s, StopCapture, Only(StopCapturing));
    assert Elements([0]) == {0};
    lost := Goes(s1, Resume(0, true, true), Move(NoEffect, 0, Some(at.(pc := Done)), [], false, {}, {0}));
    Runs.TwoSteps(Next, s, StopCapture, s1, Resume(0, true, true), lost);
  }

  /** The engine right after its first start. */
  const STARTED := State(Engine(false, 1, None, None, false, false, false, Some(1), [IDLE, IDLE], 1), map[], {}, {}, 0, {})

  lemma FirstStart()
    ensures Next(START, Start) == Some(STARTED) && Runs.Leads(Next, START, STARTED)
  {
    var m := Only(StartEngine);
    assert LiveAfter(START, m) == {} && START.leaked + m.lost * START.live == {};
    assert [IDLE] + [IDLE] == [IDLE, IDLE];
    assert Next(START, Start) == Some(STARTED);
    Runs.OneLeads(Next, START, Start, STARTED);
  }

  /** The concrete run that loses a track: it stays live, the microphone is off, and nothing refers to it. */
  lemma TrackCanBeLost() returns (lost: State)
    ensures Runs.Leads(Next, START, lost) && lost.leaked == {0} && lost.live == {0} && !lost.engine.wanted
  {
    FirstStart();
    var asking := AttemptBegins(STARTED, IDLE);
    var granted := AttemptIsGranted(asking, IDLE, asking.attempts[0]);
    lost := StopThenResumeLoses(granted, IDLE, granted.attempts[0]);
    Runs.LeadsOn(Next, START, STARTED, asking);
    Runs.LeadsOn(Next, START, asking, granted);
    Runs.LeadsOn(Next, START, granted, lost);
  }

  function Nones(k: nat): (r: seq<Option<Track>>) {
    seq(k, _ => None)
  }

  /** A queue in which nothing but k requests for the null track wait. */
  function Pile(k: nat): Updates {
    Updates(k, Nones(k), None, [], Nones(k))
  }

  /** After k stops with nothing captured. */
  function PiledUp(k: nat): State {
    STARTED.(engine := STARTED.engine.(generation := 1 + k, queues := [IDLE, Pile(k)]))
  }

  lemma StopPiles(k: nat)
    requires k < MAXIMUM_UPDATES
    ensures Next(PiledUp(k), StopCapture) == Some(PiledUp(k + 1))
  {
    assert Nones(k) + [None] == Nones(k + 1);
    assert [IDLE, Pile(k)][1 := Pile(k + 1)] == [IDLE, Pile(k + 1)];
    var s, m := PiledUp(k), Only(StopCapturing);
    assert LiveAfter(s, m) == {} && s.leaked + m.lost * s.live == {};
    assert Stopped(s.engine) == PiledUp(k + 1).engine;
  }

  lemma {:induction false} StopsPileUp(k: nat)
    requires k <= MAXIMUM_UPDATES
    ensures Runs.Leads(Next, START, PiledUp(k))
  {
    if k == 0 {
      FirstStart();
      assert Nones(0) == [] && PiledUp(0) == STARTED;
    } else {
      StopsPileUp(k - 1);
      StopPiles(k - 1);
      Runs.LeadsFurther(Next, START, PiledUp(k - 1), StopCapture, PiledUp(k));
    }
  }

  /** The attempt adopts its track and asks for it to be sent: the eighth update. */
  lemma TrackIsEighth(s: State, at: Attempt) returns (asked: State)
    requires Attempting(s, Pile(7), at) && at.acquisition == Granted([0], true) && at.pc.Racing?
    requires s.live == {0} && Active(s.engine, at.generation)
    ensures Runs.Leads(Next, s, asked)
    ensures asked.engine.sender == Some(1) && asked.engine.updates == 1
    ensures asked.engine.queues == [IDLE, Request(Pile(7), Some(0)).0]
  {
    var s1 := Goes(s, Resume(0, true, true), Step(Adopt(0), 0, at.(pc := SettingParameters(0))));
    asked := Goes(s1, Resume(0, true, true), Step(RequestTrack(0), 0, at.(pc := Replacing(0, 1, Some(7)))));
    Runs.TwoSteps(Next, s, Resume(0, true, true), s1, Resume(0, true, true), asked);
  }

  lemma StopFindsNoRoom(s: State) returns (stopped: State)
    requires s.engine.sender == Some(1) && s.engine.updates == 1
    requires s.engine.queues == [IDLE, Request(Pile(7), Some(0)).0]
    ensures Next(s, StopCapture) == Some(stopped) && !stopped.engine.enabled
    ensures stopped.engine.sender == Some(1) && stopped.engine.updates == 1 && stopped.engine.queues == s.engine.queues
  {
    stopped := Goes(s, StopCapture, Only(StopCapturing));
  }

  /** Every queue can be run down by its updates succeeding. */
  lemma {:induction false} SuccessesCanFinish(s: State, q: nat) returns (acts: seq<Action>, s': State)
    requires q < |s.engine.queues| && s.engine.updates < |s.engine.queues| && InOrder(s.engine.queues[q])
    ensures Runs.Reaches(Next, s, acts, s') && forall a <- acts :: IsSuccess(a)
    ensures |s'.engine.queues| == |s.engine.queues| && InOrder(s'.engine.queues[q]) && s'.engine.queues[q].size == 0
    decreases 2 * |s.engine.queues[q].waiting| + |Running(s.engine.queues[q])|
  {
    var u := s.engine.queues[q];
    UpdatesStayInOrder(u, None, true);
    if u.size == 0 {
      acts, s' := [], s;
    } else {
      var a := if u.running.Some? then SettleUpdate(q, true) else BeginUpdate(q);
      var next := Next(s, a).value;
      var rest: seq<Action>;
      rest, s' := SuccessesCanFinish(next, q);
      acts := [a] + rest;
      Runs.Prepend(Next, s, a, rest, s');
    }
  }

  /** Eight outstanding, the newest for the track: the stop is refused the null track, and the track ends up sent. */
  lemma FullQueueKeepsTrack() returns (s: State)
    ensures Runs.Leads(Next, START, s) && !s.engine.enabled && s.engine.sender == Some(1) && |s.engine.queues| == 2
    ensures s.engine.queues[1].size == 0 && SenderTrack(s.engine.queues[1].settled) == Some(0)
  {
    var asked := TrackIsAsked();
    var stopped := StopFindsNoRoom(asked);
    Runs.LeadsFurther(Next, START, asked, StopCapture, stopped);
    var full := Request(Pile(7), Some(0)).0;
    PileInOrder(full);
    var acts: seq<Action>;
    acts, s := SuccessesCanFinish(stopped, 1);
    SuccessesReachEnd(stopped, acts, s, 1);
    DoneIsEnd(s.engine.queues[1]);
    Runs.LeadsOn(Next, START, stopped, s);
  }

  lemma PileInOrder(full: Updates)
    requires full == Request(Pile(7), Some(0)).0
    ensures InOrder(full) && SenderTrack(Finally(full)) == Some(0)
  {
    assert InOrder(Pile(7));
    UpdatesStayInOrder(Pile(7), Some(0), true);
    assert Outstanding(full) == Nones(7) + [Some(0)];
    assert Finally(full)[|Finally(full)| - 1] == (Some(0), true);
  }

  lemma TrackIsAsked() returns (asked: State)
    ensures Runs.Leads(Next, START, asked) && asked.engine.sender == Some(1) && asked.engine.updates == 1
    ensures asked.engine.queues == [IDLE, Request(Pile(7), Some(0)).0]
  {
    StopsPileUp(7);
    var asking := AttemptBegins(PiledUp(7), Pile(7));
    var granted := AttemptIsGranted(asking, Pile(7), asking.attempts[0]);
    asked := TrackIsEighth(granted, granted.attempts[0]);
    Runs.LeadsOn(Next, START, PiledUp(7), asking);
    Runs.LeadsOn(Next, START, asking, granted);
    Runs.LeadsOn(Next, START, granted, asked);
  }

  // ---------------------------------------------------------------------------------------------
  // What is granted: a capture can attach, and can always be stopped.
  // ---------------------------------------------------------------------------------------------

  /** An attempt is at `at`, and the engine is `e`. */
  function At(s: State, e: Engine, a: AttemptId, at: Attempt): State {
    State(e, s.attempts[a := at], s.live, s.leaked, s.nextTrack, s.undetached)
  }

  lemma StepsTo(s: State, action: Action, effect: Effect, a: AttemptId, at: Attempt)
    requires MoveOf(s, action) == Some(Step(effect, a, at)) && !Stops(effect) && s.engine.updates < |s.engine.queues|
    ensures Next(s, action) == Some(At(s, EngineAfter(s.engine, effect), a, at))
  {
    var m := Step(effect, a, at);
    assert LiveAfter(s, m) == s.live && s.leaked + m.lost * s.live == s.leaked;
  }

  /** A new attempt of the next generation, with `acquisition`. */
  function AttemptAt(s: State, a: AttemptId, acquisition: Acquisition): State {
    At(s, Begun(s.engine, a), a, Attempt(s.engine.generation + 1, acquisition, Racing))
  }

  lemma AttemptGoesOn(s: State, a: AttemptId, from: Acquisition, to: Acquisition, action: Action)
    requires !s.engine.closed && s.engine.updates < |s.engine.queues| && action == Acquire(a, true)
    requires (from == Queued && to == ReadingStatistics) || (from == ReadingStatistics && to == AskingPermission)
    ensures Next(AttemptAt(s, a, from), action) == Some(AttemptAt(s, a, to))
  {
    var at := Attempt(s.engine.generation + 1, to, Racing);
    StepsTo(AttemptAt(s, a, from), action, NoEffect, a, at);
    assert AttemptAt(s, a, from).attempts[a := at] == s.attempts[a := at];
  }

  /** Nothing stands in the way of a new attempt. */
  predicate Free(s: State, a: AttemptId) {
    && !s.engine.closed && s.engine.pending.None? && !s.engine.wanted && a !in s.attempts
    && s.engine.updates < |s.engine.queues|
  }

  lemma PermissionIsAsked(s: State, a: AttemptId)
    requires Free(s, a)
    ensures Runs.Leads(Next, s, AttemptAt(s, a, AskingPermission))
  {
    StepsTo(s, StartCapture(a), BeginAttempt(a), a, Attempt(s.engine.generation + 1, Queued, Racing));
    AttemptGoesOn(s, a, Queued, ReadingStatistics, Acquire(a, true));
    AttemptGoesOn(s, a, ReadingStatistics, AskingPermission, Acquire(a, true));
    Runs.ThreeSteps(Next, s, StartCapture(a), AttemptAt(s, a, Queued), Acquire(a, true), AttemptAt(s, a, ReadingStatistics),
                    Acquire(a, true), AttemptAt(s, a, AskingPermission));
  }

  /** The attempt holds the next track, and is about to send it. */
  function TrackAt(s: State, a: AttemptId, e: Engine, pc: Pc): State {
    State(e, s.attempts[a := Attempt(s.engine.generation + 1, Granted([s.nextTrack], true), pc)],
          s.live + {s.nextTrack}, s.leaked, s.nextTrack + 1, s.undetached)
  }

  lemma PermissionIsGranted(s: State, a: AttemptId)
    requires Free(s, a)
    ensures Next(AttemptAt(s, a, AskingPermission), Grant(a, 1, true)) == Some(TrackAt(s, a, Begun(s.engine, a), Racing))
  {
    var asking, granted := AttemptAt(s, a, AskingPermission), TrackAt(s, a, Begun(s.engine, a), Racing);
    assert seq(1, i => asking.nextTrack + i) == [s.nextTrack];
    var m := MoveOf(asking, Grant(a, 1, true)).value;
    assert m == Move(NoEffect, a, Some(granted.attempts[a]), [s.nextTrack], true, {}, {});
    assert Elements([s.nextTrack]) == {s.nextTrack};
    assert LiveAfter(asking, m) == granted.live && s.leaked + m.lost * s.live == s.leaked;
    assert asking.attempts[a := granted.attempts[a]] == granted.attempts;
  }

  function AdoptedEngine(s: State, a: AttemptId): Engine {
    Adopted(Begun(s.engine, a), s.nextTrack)
  }

  lemma TrackIsAdopted(s: State, a: AttemptId)
    requires Free(s, a)
    ensures Next(TrackAt(s, a, Begun(s.engine, a), Racing), Resume(a, true, true)) ==
            Some(TrackAt(s, a, AdoptedEngine(s, a), SettingParameters(s.nextTrack)))
  {
    var granted := TrackAt(s, a, Begun(s.engine, a), Racing);
    var at := granted.attempts[a].(pc := SettingParameters(s.nextTrack));
    StepsTo(granted, Resume(a, true, true), Adopt(s.nextTrack), a, at);
    assert granted.attempts[a := at] == s.attempts[a := at];
  }

  /** Where in the queue the update that sends the track is. */
  function EntryAt(s: State): nat
    requires s.engine.updates < |s.engine.queues|
  {
    |s.engine.queues[s.engine.updates].requested|
  }

  /** The track is asked for: one update more waits. */
  function TrackAsked(s: State, a: AttemptId): State
    requires s.engine.updates < |s.engine.queues|
  {
    var q := s.engine.updates;
    var queues := s.engine.queues[q := Waits(s.engine.queues[q], Some(s.nextTrack))];
    TrackAt(s, a, AdoptedEngine(s, a).(queues := queues), Replacing(s.nextTrack, q, Some(EntryAt(s))))
  }

  lemma SendingIsAsked(s: State, a: AttemptId)
    requires Free(s, a) && s.engine.queues[s.engine.updates].size < 8
    ensures Next(TrackAt(s, a, AdoptedEngine(s, a), SettingParameters(s.nextTrack)), Resume(a, true, true)) ==
            Some(TrackAsked(s, a))
  {
    var setting := TrackAt(s, a, AdoptedEngine(s, a), SettingParameters(s.nextTrack));
    var at := TrackAsked(s, a).attempts[a];
    StepsTo(setting, Resume(a, true, true), RequestTrack(s.nextTrack), a, at);
    assert setting.attempts[a := at] == s.attempts[a := at];
  }

  lemma TrackIsAskedFor(s: State, a: AttemptId)
    requires Free(s, a) && s.engine.queues[s.engine.updates].size < 8
    ensures Runs.Leads(Next, s, TrackAsked(s, a))
  {
    PermissionIsGranted(s, a);
    TrackIsAdopted(s, a);
    SendingIsAsked(s, a);
    PermissionIsAsked(s, a);
    Runs.ThreeSteps(Next, AttemptAt(s, a, AskingPermission), Grant(a, 1, true), TrackAt(s, a, Begun(s.engine, a), Racing),
                    Resume(a, true, true), TrackAt(s, a, AdoptedEngine(s, a), SettingParameters(s.nextTrack)),
                    Resume(a, true, true), TrackAsked(s, a));
    Runs.LeadsOn(Next, s, AttemptAt(s, a, AskingPermission), TrackAsked(s, a));
  }

  lemma SuccessOnlySettles(s: State, action: Action)
    requires IsSuccess(action) && Next(s, action).Some?
    ensures Next(s, action).value == s.(engine := s.engine.(queues := Next(s, action).value.engine.queues))
  {
    var m := MoveOf(s, action).value;
    assert LiveAfter(s, m) == s.live && s.leaked + m.lost * s.live == s.leaked;
  }

  /** Updates that succeed touch nothing but the queues. */
  lemma {:induction false} SuccessesOnlySettle(s: State, acts: seq<Action>, s': State)
    requires Runs.Reaches(Next, s, acts, s') && forall a <- acts :: IsSuccess(a)
    ensures s' == s.(engine := s.engine.(queues := s'.engine.queues))
    decreases |acts|
  {
    if acts != [] {
      SuccessOnlySettles(s, acts[0]);
      SuccessesOnlySettle(Next(s, acts[0]).value, acts[1..], s');
    }
  }

  /** Nothing but queues changed, and every update of queue q is done, the newest with success. */
  ghost predicate RunDown(s: State, q: nat, s': State) {
    && s' == s.(engine := s.engine.(queues := s'.engine.queues)) && q < |s.engine.queues| == |s'.engine.queues|
    && var u, u' := s.engine.queues[q], s'.engine.queues[q];
       && u.requested != [] && u'.size == 0 && |u'.settled| == |u.requested|
       && u'.settled[|u.requested| - 1] == (u.requested[|u.requested| - 1], true)
  }

  lemma SuccessesRunDown(s: State, acts: seq<Action>, s': State, q: nat)
    requires Runs.Reaches(Next, s, acts, s') && (forall a <- acts :: IsSuccess(a)) && q < |s.engine.queues|
    requires |s'.engine.queues| == |s.engine.queues|
    requires InOrder(s.engine.queues[q]) && s.engine.queues[q].waiting != []
    requires InOrder(s'.engine.queues[q]) && s'.engine.queues[q].size == 0
    ensures RunDown(s, q, s')
  {
    SuccessesReachEnd(s, acts, s', q);
    SuccessesOnlySettle(s, acts, s');
    DoneIsEnd(s'.engine.queues[q]);
    NewestSucceeds(s.engine.queues[q]);
  }

  lemma QueueRunsDown(s: State, q: nat) returns (s': State)
    requires q < |s.engine.queues| && s.engine.updates < |s.engine.queues| && InOrder(s.engine.queues[q])
    requires s.engine.queues[q].waiting != []
    ensures Runs.Leads(Next, s, s') && RunDown(s, q, s')
  {
    var acts: seq<Action>;
    acts, s' := SuccessesCanFinish(s, q);
    SuccessesRunDown(s, acts, s', q);
  }

  lemma NewestSucceeds(u: Updates)
    requires InOrder(u) && u.waiting != []
    ensures |Finally(u)| == |u.requested| && Finally(u)[|u.requested| - 1] == (u.requested[|u.requested| - 1], true)
  {
    assert Outstanding(u)[|Outstanding(u)| - 1] == u.waiting[|u.waiting| - 1];
  }

  /** What capturing has come to: the track is live, the sender has it, and the flags say so. */
  ghost predicate Captures(s: State, a: AttemptId, t: Track) {
    && s.engine.wanted && s.engine.enabled && s.engine.attached && s.engine.pending.None? && s.engine.capture == Some(t)
    && t in s.live && a in s.attempts && s.attempts[a].pc.Done?
    && s.engine.updates < |s.engine.queues|
    && s.engine.queues[s.engine.updates].size == 0 && SenderTrack(s.engine.queues[s.engine.updates].settled) == Some(t)
  }

  /** The update that sends the track is done. */
  ghost predicate Sent(s: State, a: AttemptId, t: Track, generation: nat) {
    var e := s.engine;
    && e.updates < |e.queues| && e.queues[e.updates].size == 0 && e.queues[e.updates].settled != []
    && Active(e, generation) && e.enabled && e.capture == Some(t) && e.pending == Some(a) && t in s.live
    && a in s.attempts
    && var last := |e.queues[e.updates].settled| - 1;
       && e.queues[e.updates].settled[last] == (Some(t), true)
       && s.attempts[a] == Attempt(generation, Granted([t], true), Replacing(t, e.updates, Some(last)))
  }

  lemma SentAttaches(s: State, a: AttemptId, t: Track, generation: nat) returns (attached: State)
    requires Sent(s, a, t, generation)
    ensures Next(s, Resume(a, true, true)) == Some(attached)
    ensures attached.engine == s.engine.(attached := true) && attached.live == s.live && a in attached.attempts
    ensures attached.attempts[a] == Attempt(generation, Granted([t], true), Done)
  {
    var at := s.attempts[a].(pc := Done);
    StepsTo(s, Resume(a, true, true), Attach, a, at);
    attached := At(s, s.engine.(attached := true), a, at);
  }

  lemma RequestIsLetGo(s: State, a: AttemptId) returns (s': State)
    requires s.engine.updates < |s.engine.queues| && s.engine.pending == Some(a)
    requires a in s.attempts && s.attempts[a].acquisition.Granted?
    ensures Next(s, Finish(a)) == Some(s') && s' == s.(engine := s.engine.(pending := None))
  {
    s' := Goes(s, Finish(a), Only(ClearPending));
    assert s'.live == s.live && s'.leaked == s.leaked;
  }

  lemma SentEnds(s: State, a: AttemptId, t: Track, generation: nat) returns (s': State)
    requires Sent(s, a, t, generation)
    ensures Runs.Leads(Next, s, s') && Captures(s', a, t)
  {
    var attached := SentAttaches(s, a, t, generation);
    s' := RequestIsLetGo(attached, a);
    Runs.TwoSteps(Next, s, Resume(a, true, true), attached, Finish(a), s');
  }

  lemma RunDownIsSent(s: State, a: AttemptId, sent: State)
    requires Free(s, a) && RunDown(TrackAsked(s, a), s.engine.updates, sent)
    ensures Sent(sent, a, s.nextTrack, s.engine.generation + 1)
  {
    var u := s.engine.queues[s.engine.updates];
    assert Waits(u, Some(s.nextTrack)).requested == u.requested + [Some(s.nextTrack)];
  }

  lemma AskedIsSent(s: State, a: AttemptId) returns (sent: State)
    requires Free(s, a) && s.engine.queues[s.engine.updates].size < 8 && InOrder(s.engine.queues[s.engine.updates])
    ensures Runs.Leads(Next, TrackAsked(s, a), sent) && Sent(sent, a, s.nextTrack, s.engine.generation + 1)
  {
    AskedInOrder(s, a);
    sent := QueueRunsDown(TrackAsked(s, a), s.engine.updates);
    RunDownIsSent(s, a, sent);
  }

  lemma AskedInOrder(s: State, a: AttemptId)
    requires Free(s, a) && s.engine.queues[s.engine.updates].size < 8 && InOrder(s.engine.queues[s.engine.updates])
    ensures var e := TrackAsked(s, a).engine;
            e.updates == s.engine.updates < |e.queues| && InOrder(e.queues[e.updates]) && e.queues[e.updates].waiting != []
  {
    UpdatesStayInOrder(s.engine.queues[s.engine.updates], Some(s.nextTrack), true);
  }

  /**
   A capture can attach: from every reachable state with an open engine and no capture wanted or pending, where
   fewer than eight updates are outstanding, a run leads to the sender having the next track granted.
   */
  lemma CaptureCanAttach(acts: seq<Action>, s: State, a: AttemptId) returns (s': State)
    requires Runs.Reaches(Next, START, acts, s)
    requires !s.engine.closed && s.engine.pending.None? && !s.engine.wanted && a !in s.attempts
    requires s.engine.updates < |s.engine.queues| && s.engine.queues[s.engine.updates].size < 8
    ensures Runs.Leads(Next, s, s') && Captures(s', a, s.nextTrack)
  {
    InOrderThroughout(acts, s, s.engine.updates);
    TrackIsAskedFor(s, a);
    var sent := AskedIsSent(s, a);
    s' := SentEnds(sent, a, s.nextTrack, s.engine.generation + 1);
    Runs.LeadsOn(Next, s, TrackAsked(s, a), sent);
    Runs.LeadsOn(Next, s, sent, s');
  }

  /** A closed engine can always be started, on a queue of its own in which nothing waits. */
  lemma EngineCanStart(acts: seq<Action>, s: State) returns (s': State)
    requires Runs.Reaches(Next, START, acts, s) && s.engine.closed
    ensures Next(s, Start) == Some(s') && !s'.engine.closed && !s'.engine.wanted && s'.engine.pending == s.engine.pending
    ensures s'.engine.updates == |s.engine.queues| && s'.engine.queues == s.engine.queues + [Updates(0, [], None, [], [])]
  {
    Reachable(acts, s);
    s' := Apply(s, Only(StartEngine));
  }

  /** Off: nothing is wanted, enabled, attached or captured. */
  predicate Off(e: Engine) {
    !e.wanted && !e.enabled && !e.attached && e.capture.None?
  }

  /**
   Capture can always be stopped: by the user, by closing and by its track ending, whatever else goes on; the flags
   fall at once, and the track is stopped.
   */
  lemma StopsAtOnce(acts: seq<Action>, s: State, action: Action) returns (s': State)
    requires Runs.Reaches(Next, START, acts, s)
    requires action == StopCapture || action == Close || (s.engine.capture.Some? && action == TrackEnded(s.engine.capture.value))
    ensures Next(s, action) == Some(s') && Off(s'.engine)
    ensures s.engine.capture.Some? ==> s.engine.capture.value !in s'.live
    ensures s'.engine.closed == (s.engine.closed || action == Close)
  {
    Reachable(acts, s);
    s' := Apply(s, MoveOf(s, action).value);
  }

  /** What an attempt waits for may fail, or its deadline pass: if it is the current one, capture is off at once. */
  lemma FailureStops(acts: seq<Action>, s: State, a: AttemptId, controls: bool) returns (s': State)
    requires Runs.Reaches(Next, START, acts, s)
    requires a in s.attempts && Active(s.engine, s.attempts[a].generation)
    requires !s.attempts[a].pc.Done? && !(s.attempts[a].pc.Racing? && s.attempts[a].acquisition.Granted?)
    ensures Next(s, Resume(a, false, controls)) == Some(s') && Off(s'.engine) && s'.attempts[a].pc.Done?
  {
    Reachable(acts, s);
    s' := Apply(s, MoveOf(s, Resume(a, false, controls)).value);
  }

  /** A superseded attempt ends where it next goes on, whatever it waited for, and leaves the engine alone. */
  lemma SupersededEnds(acts: seq<Action>, s: State, a: AttemptId, controls: bool) returns (s': State)
    requires Runs.Reaches(Next, START, acts, s)
    requires a in s.attempts && !Active(s.engine, s.attempts[a].generation) && !s.attempts[a].pc.Done?
    ensures Next(s, Resume(a, s.attempts[a].pc.Racing? && s.attempts[a].acquisition.Granted?, controls)) == Some(s')
    ensures s'.attempts[a].pc.Done? && s'.engine == s.engine
  {
    Reachable(acts, s);
    s' := Apply(s, MoveOf(s, Resume(a, s.attempts[a].pc.Racing? && s.attempts[a].acquisition.Granted?, controls)).value);
  }

  /** A grant is adopted if and only if its attempt is current, it is one usable track, and the sender has bit-rate controls. */
  lemma AdoptsIff(acts: seq<Action>, s: State, a: AttemptId, controls: bool, s': State)
    requires Runs.Reaches(Next, START, acts, s) && a in s.attempts && s.attempts[a].pc.Racing? && s.attempts[a].acquisition.Granted?
    requires Next(s, Resume(a, true, controls)) == Some(s') && Active(s.engine, s.attempts[a].generation)
    ensures var Granted(tracks, usable) := s.attempts[a].acquisition;
            && (s'.engine.enabled <==> usable && |tracks| == 1 && controls)
            && (s'.engine.enabled ==> s'.engine.capture == Some(tracks[0]) && !s'.engine.attached)
            && (!s'.engine.enabled ==> Off(s'.engine) && Elements(tracks) !! s'.live)
  {
    Reachable(acts, s);
  }

  /** The user may refuse, or there may be no device. */
  lemma PermissionMayBeRefused(s: State, a: AttemptId)
    requires a in s.attempts && s.attempts[a].acquisition.AskingPermission? && s.engine.updates < |s.engine.queues|
    ensures Next(s, Acquire(a, false)) == Some(At(s, s.engine, a, s.attempts[a].(acquisition := Refused)))
    ensures Next(s, Acquire(a, true)).None?
  {
    StepsTo(s, Acquire(a, false), NoEffect, a, s.attempts[a].(acquisition := Refused));
  }

  /** Turns leave nothing out but the grants to an attempt that would then not go on in the same turn. */
  lemma TurnsAreSteps(s: State, action: Action, a: AttemptId, n: nat, usable: bool, controls: bool)
    ensures !(action.Grant? && action.a in s.attempts && s.attempts[action.a].pc.Racing?) ==> NextTurn(s, One(action)) == Next(s, action)
    ensures a in s.attempts && s.attempts[a].pc.Racing? && Next(s, Grant(a, n, usable)).Some? ==>
              NextTurn(s, GrantAndResume(a, n, usable, controls)).Some?
  {}

  /** The browser has not yet answered the request of an attempt. */
  predicate Open(at: Attempt) {
    !at.acquisition.Granted? && !at.acquisition.Refused?
  }

  ghost predicate OpenIsPending(s: State) {
    forall a <- s.attempts | Open(s.attempts[a]) :: s.engine.pending == Some(a)
  }

  lemma MoveKeepsOpen(s: State, action: Action)
    requires OpenIsPending(s) && MoveOf(s, action).Some?
    ensures var m := MoveOf(s, action).value;
            && (m.effect.BeginAttempt? ==> s.engine.pending.None? && m.attempt.Some? && m.effect.a == m.a)
            && (m.attempt.Some? && Open(m.attempt.value) ==> m.effect.BeginAttempt? || (m.a in s.attempts && Open(s.attempts[m.a])))
            && (m.effect.ClearPending? ==> m.attempt.None? && forall a <- s.attempts :: !Open(s.attempts[a]))
  {}

  lemma StepKeepsPending(s: State, action: Action)
    requires OpenIsPending(s) && Next(s, action).Some?
    ensures OpenIsPending(Next(s, action).value)
  {
    MoveKeepsOpen(s, action);
    MoveMadePending(s, MoveOf(s, action).value);
  }

  lemma MoveMadePending(s: State, m: Move)
    requires OpenIsPending(s) && s.engine.updates < |s.engine.queues|
    requires m.effect.BeginAttempt? ==> s.engine.pending.None? && m.attempt.Some? && m.effect.a == m.a
    requires m.attempt.Some? && Open(m.attempt.value) ==> m.effect.BeginAttempt? || (m.a in s.attempts && Open(s.attempts[m.a]))
    requires m.effect.ClearPending? ==> m.attempt.None? && forall a <- s.attempts :: !Open(s.attempts[a])
    ensures OpenIsPending(Apply(s, m))
  {}

  /** At most one request for the microphone is open at any moment: that of the pending attempt. */
  lemma OneRequestAtATime(acts: seq<Action>, s: State, a: AttemptId)
    requires Runs.Reaches(Next, START, acts, s) && a in s.attempts && Open(s.attempts[a])
    ensures s.engine.pending == Some(a)
    ensures forall b <- s.attempts | Open(s.attempts[b]) :: b == a
  {
    forall s: State, action | OpenIsPending(s) && Next(s, action).Some? ensures OpenIsPending(Next(s, action).value) {
      StepKeepsPending(s, action);
    }
    Runs.InvariantHolds(Next, OpenIsPending, START, acts, s);
  }

  /** Permission is asked for only by an attempt that is still the current one; a superseded one gives up. */
  lemma OnlyTheCurrentAsks(s: State, action: Action, a: AttemptId, s': State)
    requires Next(s, action) == Some(s') && a in s'.attempts
    ensures s'.attempts[a].acquisition.AskingPermission? && !(a in s.attempts && s.attempts[a].acquisition.AskingPermission?) ==>
              a in s.attempts && Active(s.engine, s.attempts[a].generation) && action == Acquire(a, true)
    ensures action.Acquire? && action.a == a && a in s.attempts && !Active(s.engine, s.attempts[a].generation) ==>
              s'.attempts[a].acquisition.Refused?
  {}

  /** Exactly when an attempt can begin, and whose end ends a capture. */
  lemma BeginsIff(acts: seq<Action>, s: State, a: AttemptId, t: Track)
    requires Runs.Reaches(Next, START, acts, s)
    ensures Next(s, StartCapture(a)).Some? <==> a !in s.attempts && !s.engine.closed && s.engine.pending.None? && !s.engine.wanted
    ensures Next(s, TrackEnded(t)).Some? <==> s.engine.capture == Some(t)
  {
    Reachable(acts, s);
  }
}