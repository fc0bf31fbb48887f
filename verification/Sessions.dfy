/**
 Camera session handles: the host that owns at most one native session, and the operations that start
 and close sessions under the lifetime lease and the camera gate.
 */
module Sessions {
  import opened Basics
  import Runs

  const INVALID_ENDPOINT: u16 := 0xFFFF

  /**
   `endpoint` is the requestor endpoint object, by its identifier; `client` the command client object, by the
   handle of the session it was made for.
   */
  datatype Core = Core(active: u64, nextHandle: u64, nextEndpoint: u16, endpoint: Option<u16>, client: Option<u64>,
                       native: u64, bound: bool)

  const FRESH := Core(0, 1, 1, None, None, 0, false)

  /**
   How the native calls of one operation turn out; `retired` says that there is no session left to end, or no
   protocol identity to end it with.
   */
  datatype Native = Native(bindOk: bool, registerOk: bool, session: Option<u64>, closeOk: bool, unregisterOk: bool,
                           retired: bool, infoOk: bool)

  datatype Fault = Busy | Exhausted | Failed

  function Create(c: Core, n: Native): (Core, Result<u64, Fault>) {
    if c.active != 0 then (c, Err(Busy))
    else if c.nextEndpoint == INVALID_ENDPOINT || c.nextHandle == 0 then (c, Err(Exhausted))
    else if !c.bound && !n.bindOk then (c, Err(Failed))
    else
      var c' := c.(bound := true, nextEndpoint := (c.nextEndpoint + 1) % 0x1_0000);
      if !n.registerOk || n.session.None? then (c', Err(Failed))
      else
        (c'.(endpoint := Some(c.nextEndpoint), client := Some(c.nextHandle), native := n.session.value, active := c.nextHandle,
             nextHandle := (c.nextHandle + 1) % 0x1_0000_0000_0000_0000),
         Ok(c.nextHandle))
  }

  predicate Validate(c: Core, handle: u64) {
    handle != 0 && handle == c.active && c.endpoint.Some? && c.client.Some?
  }

  function CloseLocal(c: Core, handle: u64, n: Native): (Core, bool) {
    if handle != c.active then (c, true)
    else
      var c' := c.(client := None);
      if !n.closeOk || !n.unregisterOk then (c', false) else (c'.(endpoint := None, active := 0), true)
  }

  function Shutdown(c: Core, n: Native): (Core, bool) {
    var c' := c.(bound := false, client := None);
    if c.endpoint.Some? && !n.unregisterOk then (c', false) else (c'.(endpoint := None, active := 0), true)
  }

  class CameraControllerRuntime {
    var mActiveHandle: u64
    var mNextHandle: u64
    var mNextEndpoint: u16
    var mEndpoint: Option<u16>
    var mClient: Option<u64>
    var mNativeHandle: u64
    var mBindingsInitialized: bool

    function Contents(): Core
      reads this
    {
      Core(mActiveHandle, mNextHandle, mNextEndpoint, mEndpoint, mClient, mNativeHandle, mBindingsInitialized)
    }

    constructor ()
      ensures Contents() == FRESH
    {
      mActiveHandle, mNextHandle, mNextEndpoint := 0, 1, 1;
      mEndpoint, mClient, mNativeHandle, mBindingsInitialized := None, None, 0, false;
    }

    method CreateSession(n: Native) returns (handle: Result<u64, Fault>)
      requires mActiveHandle == 0 ==> mEndpoint.None? && mClient.None?
      modifies this
      ensures handle.Ok? <==>
                && old(mActiveHandle) == 0 && old(mNextEndpoint) != 0xFFFF && old(mNextHandle) != 0
                && (old(mBindingsInitialized) || n.bindOk) && n.registerOk && n.session.Some?
      ensures handle.Ok? ==>
                && handle.value == old(mNextHandle) == mActiveHandle && mEndpoint == Some(old(mNextEndpoint))
                && mClient.Some? && mNativeHandle == n.session.value && mBindingsInitialized
      ensures handle == Err(Busy) <==> old(mActiveHandle) != 0
      ensures handle == Err(Exhausted) <==> old(mActiveHandle) == 0 && (old(mNextEndpoint) == 0xFFFF || old(mNextHandle) == 0)
      ensures handle == Err(Busy) || handle == Err(Exhausted) ==> Contents() == old(Contents())
      ensures handle == Err(Failed) ==>
                if !old(mBindingsInitialized) && !n.bindOk then !mBindingsInitialized && mNextEndpoint == old(mNextEndpoint)
                else mBindingsInitialized && mNextEndpoint == old(mNextEndpoint) + 1
      ensures handle.Ok? ==> mNextEndpoint == old(mNextEndpoint) + 1
      ensures handle.Err? ==>
                && mActiveHandle == old(mActiveHandle) && mEndpoint == old(mEndpoint) && mClient == old(mClient)
                && mNextHandle == old(mNextHandle) && mNativeHandle == old(mNativeHandle)
      ensures (Contents(), handle) == Create(old(Contents()), n)
    {
      if mActiveHandle != 0 {
        return Err(Busy);
      }
      if mNextEndpoint == INVALID_ENDPOINT || mNextHandle == 0 {
        return Err(Exhausted);
      }
      if !mBindingsInitialized {
        if !n.bindOk {
          return Err(Failed);
        }
        mBindingsInitialized := true;
      }
      mEndpoint := Some(mNextEndpoint);
      mNextEndpoint := (mNextEndpoint + 1) % 0x1_0000;
      if !n.registerOk {
        mEndpoint := None;
        return Err(Failed);
      }
      if n.session.None? {
        mEndpoint := None;
        return Err(Failed);
      }
      mNativeHandle := n.session.value;
      mClient := Some(mNextHandle);
      mActiveHandle := mNextHandle;
      mNextHandle := (mNextHandle + 1) % 0x1_0000_0000_0000_0000;
      return Ok(mActiveHandle);
    }

    method CloseLocalSession(handle: u64, n: Native) returns (ok: bool)
      requires handle == mActiveHandle ==> mEndpoint.Some?
      modifies this
      ensures handle != old(mActiveHandle) ==> ok && Contents() == old(Contents())
      ensures handle == old(mActiveHandle) ==>
                && ok == (n.closeOk && n.unregisterOk) && mClient.None?
                && mActiveHandle == (if ok then 0 else handle) && mEndpoint == (if ok then None else old(mEndpoint))
      ensures mNextHandle == old(mNextHandle) && mNextEndpoint == old(mNextEndpoint) && mBindingsInitialized == old(mBindingsInitialized)
      ensures (Contents(), ok) == CloseLocal(old(Contents()), handle, n)
    {
      if handle != mActiveHandle {
        return true;
      }
      mClient := None;
      if !n.closeOk {
        return false;
      }
      if !n.unregisterOk {
        return false;
      }
      mEndpoint := None;
      mActiveHandle := 0;
      return true;
    }

    method ShutdownHost(n: Native) returns (ok: bool)
      modifies this
      ensures ok == (old(mEndpoint).None? || n.unregisterOk) && mClient.None? && !mBindingsInitialized
      ensures ok ==> mActiveHandle == 0 && mEndpoint.None?
      ensures !ok ==> mActiveHandle == old(mActiveHandle) && mEndpoint == old(mEndpoint)
      ensures mNextHandle == old(mNextHandle) && mNextEndpoint == old(mNextEndpoint)
      ensures (Contents(), ok) == Shutdown(old(Contents()), n)
    {
      mBindingsInitialized := false;
      mClient := None;
      if mEndpoint.Some? {
        if !n.unregisterOk {
          return false;
        }
        mEndpoint := None;
      }
      mActiveHandle := 0;
      return true;
    }
  }

  // ---------------------------------------------------------------------------------------------
  // The callers.
  // ---------------------------------------------------------------------------------------------

  type Thread = nat

  /** Why a command is sent: an offer, candidates, or one of the three ways to end a session. */
  datatype Purpose = Offer | Trickle | AbortEnd | CloseEnd | ShutEnd

  /** The objects that a command operation is built from, and that its callback uses later. */
  datatype Objects = Objects(client: Option<u64>, endpoint: Option<u16>, native: u64)

  function ObjectsOf(c: Core): Objects {
    Objects(c.client, c.endpoint, c.native)
  }

  /** How far Send is. */
  datatype Stage =
    | Check                           // about to validate under the stack lock
    | Build                           // validated; the lock is released
    | Connect(objects: Objects)       // polling until the connection calls back
    | Await                           // sent; polling for the result

  datatype Pc =
    | StartWait                       // StartCamera called
    | StartLeased
    | StartGated
    | Sending(purpose: Purpose, handle: u64, stage: Stage)
    | Offered(handle: u64)            // about to read the session's metadata
    | StartClosing(handle: u64)
    | TrickleWait(handle: u64)        // SendCameraCandidates called
    | TrickleLeased(handle: u64)
    | TrickleLooked(handle: u64)
    | CloseWait(handle: u64)          // CloseCamera called
    | CloseLeased(handle: u64)
    | CloseLooked(handle: u64)        // the first validation passed
    | CloseGated(handle: u64)
    | Closing(handle: u64)
    | GateDrop
    | LeaseDrop
    | ShutWait                        // Close called
    | ShutHeld
    | ShutDown
    | Ended

  datatype Session = Session(handle: u64, native: u64, endpoint: u16)

  /** A command that went out: the handle it was meant for, the objects it was built from, and those the host had then. */
  datatype Sent = Sent(purpose: Purpose, handle: u64, built: Objects, found: Objects)

  /** `issued`: the sessions Create returned, in order; `sent`: the commands that went out. */
  datatype State = State(core: Core, shared: set<Thread>, exclusive: Option<Thread>, gate: Option<Thread>,
                         pcs: map<Thread, Pc>, issued: seq<Session>, sent: seq<Sent>)

  const START := State(FRESH, {}, None, None, map[], [], [])

  datatype Action =
    | StartCamera(t: Thread)
    | SendCandidates(t: Thread, handle: u64)
    | CloseCamera(t: Thread, handle: u64)
    | Close(t: Thread)
    | Step(t: Thread, native: Native)
    | Fail(t: Thread)                 // admission refused, no connection, canceled, timed out, refused by the peer

  /** What a step does to the locks, and to the host. */
  datatype LockEffect = NoLock | TakeLease | DropLease | TakeGate | DropGate | TakeAll | DropAll

  datatype HostEffect =
    | NoChange
    | Creates(native: Native)
    | Sends(sent: Sent)
    | ClosesLocal(handle: u64, native: Native)
    | ShutsDown(native: Native)

  datatype Move = Move(pc: Pc, locks: LockEffect, host: HostEffect)

  function IssuedAfter(s: State, n: Native): seq<Session> {
    var (core, handle) := Create(s.core, n);
    if handle.Ok? then s.issued + [Session(handle.value, core.native, core.endpoint.value)] else s.issued
  }

  function CoreAfter(c: Core, e: HostEffect): Core {
    match e
    case Creates(n) => Create(c, n).0
    case ClosesLocal(h, n) => CloseLocal(c, h, n).0
    case ShutsDown(n) => Shutdown(c, n).0
    case _ => c
  }

  function Apply(s: State, t: Thread, m: Move): State {
    State(
      CoreAfter(s.core, m.host),
      if m.locks.TakeLease? then s.shared + {t} else if m.locks.DropLease? then s.shared - {t} else s.shared,
      if m.locks.TakeAll? then Some(t) else if m.locks.DropAll? then None else s.exclusive,
      if m.locks.TakeGate? then Some(t) else if m.locks.DropGate? then None else s.gate,
      s.pcs[t := m.pc],
      if m.host.Creates? then IssuedAfter(s, m.host.native) else s.issued,
      if m.host.Sends? then s.sent + [m.host.sent] else s.sent)
  }

  function Next(s: State, a: Action): Option<State> {
    var m := MoveOf(s, a);
    if m.None? then None else Some(Apply(s, a.t, m.value))
  }

  function MoveOf(s: State, a: Action): Option<Move> {
    if a.t in s.pcs then Continue(s, a, s.pcs[a.t]) else Begin(a)
  }

  function Begin(a: Action): Option<Move> {
    match a
    case StartCamera(_) => Some(Move(StartWait, NoLock, NoChange))
    case SendCandidates(_, h) => Some(Move(TrickleWait(h), NoLock, NoChange))
    case CloseCamera(_, h) => Some(Move(CloseWait(h), NoLock, NoChange))
    case Close(_) => Some(Move(ShutWait, NoLock, NoChange))
    case _ => None
  }

  function Continue(s: State, a: Action, pc: Pc): Option<Move> {
    match a
    case Fail(_) => FailOf(pc)
    case Step(_, n) => if pc.Sending? then Some(SendStep(s.core, pc, n)) else StepOf(s, pc, n)
    case _ => None
  }

  function FailOf(pc: Pc): Option<Move> {
    match pc
    case StartWait => Some(Move(Ended, NoLock, NoChange))
    case StartLeased => Some(Move(LeaseDrop, NoLock, NoChange))
    case StartGated => Some(Move(GateDrop, NoLock, NoChange))
    case Sending(p, h, stage) =>
      if stage.Connect? || stage.Await? then Some(Move(AfterSend(p, h, false), NoLock, NoChange)) else None
    case Offered(h) => Some(Move(AfterSend(Offer, h, false), NoLock, NoChange))
    case TrickleWait(_) => Some(Move(Ended, NoLock, NoChange))
    case TrickleLeased(_) => Some(Move(LeaseDrop, NoLock, NoChange))
    case TrickleLooked(_) => Some(Move(LeaseDrop, NoLock, NoChange))
    case CloseWait(_) => Some(Move(Ended, NoLock, NoChange))
    case CloseLooked(_) => Some(Move(LeaseDrop, NoLock, NoChange))
    case ShutHeld => Some(Move(ShutDown, NoLock, NoChange))
    case _ => None
  }

  predicate IsEnd(p: Purpose) {
    p.AbortEnd? || p.CloseEnd? || p.ShutEnd?
  }

  /** Where the caller goes on after Send returned. */
  function AfterSend(p: Purpose, h: u64, ok: bool): Pc {
    match p
    case Offer => if ok then Offered(h) else Sending(AbortEnd, h, Check)
    case Trickle => GateDrop
    case AbortEnd => StartClosing(h)
    case CloseEnd => Closing(h)
    case ShutEnd => ShutDown
  }

  /**
   Send: it validates under the stack lock and releases that; builds the operation from the host's objects;
   and when the connection calls back sends through the objects it was built from.
   */
  function SendStep(c: Core, pc: Pc, n: Native): Move
    requires pc.Sending?
  {
    var Sending(p, h, stage) := pc;
    match stage
    case Check =>
      if !Validate(c, h) then Move(AfterSend(p, h, false), NoLock, NoChange)
      else if IsEnd(p) && n.retired then Move(AfterSend(p, h, true), NoLock, NoChange)
      else if !n.infoOk then Move(AfterSend(p, h, false), NoLock, NoChange)
      else Move(Sending(p, h, Build), NoLock, NoChange)
    case Build => Move(Sending(p, h, Connect(ObjectsOf(c))), NoLock, NoChange)
    case Connect(objects) => Move(Sending(p, h, Await), NoLock, Sends(Sent(p, h, objects, ObjectsOf(c))))
    case Await => Move(AfterSend(p, h, true), NoLock, NoChange)
  }

  function StepOf(s: State, pc: Pc, n: Native): Option<Move> {
    match pc
    case StartWait => if s.exclusive.None? then Some(Move(StartLeased, TakeLease, NoChange)) else None
    case StartLeased => if s.gate.None? then Some(Move(StartGated, TakeGate, NoChange)) else None
    case StartGated =>
      var handle := Create(s.core, n).1;
      Some(Move(if handle.Ok? then Sending(Offer, handle.value, Check) else GateDrop, NoLock, Creates(n)))
    case Offered(_) => Some(Move(GateDrop, NoLock, NoChange))
    case StartClosing(h) => Some(Move(GateDrop, NoLock, ClosesLocal(h, n)))
    case TrickleWait(h) => if s.exclusive.None? then Some(Move(TrickleLeased(h), TakeLease, NoChange)) else None
    case TrickleLeased(h) => Some(Move(if Validate(s.core, h) then TrickleLooked(h) else LeaseDrop, NoLock, NoChange))
    case TrickleLooked(h) => if s.gate.None? then Some(Move(Sending(Trickle, h, Check), TakeGate, NoChange)) else None
    case CloseWait(h) => if s.exclusive.None? then Some(Move(CloseLeased(h), TakeLease, NoChange)) else None
    case CloseLeased(h) => Some(Move(if Validate(s.core, h) then CloseLooked(h) else LeaseDrop, NoLock, NoChange))
    case CloseLooked(h) => if s.gate.None? then Some(Move(CloseGated(h), TakeGate, NoChange)) else None
    case CloseGated(h) =>
      Some(Move(if Validate(s.core, h) then Sending(CloseEnd, h, Check) else GateDrop, NoLock, NoChange))
    case Closing(h) => Some(Move(GateDrop, NoLock, ClosesLocal(h, n)))
    case GateDrop => Some(Move(LeaseDrop, DropGate, NoChange))
    case LeaseDrop => Some(Move(Ended, DropLease, NoChange))
    case ShutWait => if s.exclusive.None? && s.shared == {} then Some(Move(ShutHeld, TakeAll, NoChange)) else None
    case ShutHeld =>
      Some(Move(if s.core.active != 0 then Sending(ShutEnd, s.core.active, Check) else ShutDown, NoLock, NoChange))
    case ShutDown => Some(Move(Ended, DropAll, ShutsDown(n)))
    case _ => None
  }

  predicate HoldsAll(pc: Pc) {
    pc.ShutHeld? || pc.ShutDown? || (pc.Sending? && pc.purpose.ShutEnd?)
  }

  predicate HoldsLease(pc: Pc) {
    !(pc.StartWait? || pc.TrickleWait? || pc.CloseWait? || pc.ShutWait? || HoldsAll(pc) || pc.Ended?)
  }

  predicate HoldsGate(pc: Pc) {
    && HoldsLease(pc)
    && !(pc.StartLeased? || pc.TrickleLeased? || pc.TrickleLooked? || pc.CloseLeased? || pc.CloseLooked? || pc.LeaseDrop?)
  }

  /** The session a thread is entitled to use without looking again. */
  predicate Uses(pc: Pc, h: u64) {
    || (pc.Sending? && pc.handle == h && (pc.stage.Check? ==> !pc.purpose.Trickle? && !pc.purpose.ShutEnd?))
    || pc == Offered(h) || pc == StartClosing(h) || pc == Closing(h)
  }

  predicate Connecting(pc: Pc) {
    pc.Sending? && pc.stage.Connect?
  }

  ghost predicate LeasesAgree(s: State) {
    && (s.exclusive.Some? ==> s.shared == {} && s.exclusive.value in s.pcs)
    && s.shared <= s.pcs.Keys
    && (forall t <- s.pcs :: t in s.shared <==> HoldsLease(s.pcs[t]))
    && (forall t <- s.pcs :: s.exclusive == Some(t) <==> HoldsAll(s.pcs[t]))
  }

  ghost predicate GateAgrees(s: State) {
    && (s.gate.Some? ==> s.gate.value in s.pcs)
    && (forall t <- s.pcs :: s.gate == Some(t) <==> HoldsGate(s.pcs[t]))
  }

  /** Handles are issued as 1, 2, 3, ...; the active one is the last; each cost a requestor endpoint of its own. */
  ghost predicate HostAgrees(c: Core, issued: seq<Session>) {
    && (forall i | 0 <= i < |issued| :: issued[i].handle == i + 1)
    && c.nextHandle == |issued| + 1
    && |issued| < c.nextEndpoint
    && (c.active != 0 <==> c.endpoint.Some?)
    && (c.endpoint.Some? ==> c.endpoint.value + 1 == c.nextEndpoint)
    && (c.client.Some? ==> c.active != 0 && c.client == Some(c.active))
    && (forall i | 0 <= i < |issued| :: issued[i].endpoint < c.nextEndpoint)
    && (forall i, j | 0 <= i < j < |issued| :: issued[i].endpoint < issued[j].endpoint)
    && (c.active != 0 ==>
          issued != [] && issued[|issued| - 1] == Session(c.active, c.native, c.endpoint.value))
  }

  ghost predicate UsersAgree(s: State) {
    forall t <- s.pcs, h: u64 | Uses(s.pcs[t], h) :: Validate(s.core, h)
  }

  /** What a command was built from is still there. */
  ghost predicate BuiltAgree(s: State) {
    forall t <- s.pcs | Connecting(s.pcs[t]) :: s.pcs[t].stage.objects == ObjectsOf(s.core)
  }

  /** The objects of a session. */
  function ObjectsFor(i: Session): Objects {
    Objects(Some(i.handle), Some(i.endpoint), i.native)
  }

  /** The command was built from, and found, exactly the objects of the session it was meant for. */
  predicate IsOf(e: Sent, i: Session) {
    e.handle == i.handle && e.built == ObjectsFor(i) && e.found == ObjectsFor(i)
  }

  ghost predicate SentAgree(s: State) {
    forall e <- s.sent :: exists i :: 0 <= i < |s.issued| && IsOf(e, s.issued[i])
  }

  ghost predicate Inv(s: State) {
    && LeasesAgree(s) && GateAgrees(s) && HostAgrees(s.core, s.issued)
    && UsersAgree(s) && BuiltAgree(s) && SentAgree(s)
  }

  ghost predicate TracksLocks(s: State, t: Thread, m: Move) {
    var pc := if t in s.pcs then s.pcs[t] else Ended;
    && (HoldsLease(m.pc) <==> (HoldsLease(pc) && !m.locks.DropLease?) || m.locks.TakeLease?)
    && (HoldsGate(m.pc) <==> (HoldsGate(pc) && !m.locks.DropGate?) || m.locks.TakeGate?)
    && (HoldsAll(m.pc) <==> (HoldsAll(pc) && !m.locks.DropAll?) || m.locks.TakeAll?)
    && (m.locks.DropLease? ==> HoldsLease(pc))
    && (m.locks.DropGate? ==> HoldsGate(pc))
    && (m.locks.DropAll? ==> HoldsAll(pc))
    && (m.locks.TakeLease? ==> s.exclusive.None?)
    && (m.locks.TakeGate? ==> s.gate.None?)
    && (m.locks.TakeAll? ==> s.exclusive.None? && s.shared == {})
  }

  predicate LeavesHost(e: HostEffect) {
    e.NoChange? || e.Sends?
  }

  /** The host changes only under lease and gate, or under the exclusive lease. */
  ghost predicate TracksHost(s: State, t: Thread, m: Move) {
    var pc := if t in s.pcs then s.pcs[t] else Ended;
    && (!LeavesHost(m.host) ==> (HoldsLease(pc) && HoldsGate(pc)) || HoldsAll(pc))
    && (m.host.ClosesLocal? ==> Uses(pc, m.host.handle))
    && (m.host.ShutsDown? ==> pc.ShutDown?)
    && (m.host.Creates? && Create(s.core, m.host.native).1.Ok? ==>
          m.pc == Sending(Offer, Create(s.core, m.host.native).1.value, Check))
  }

  /** A session is used only after a look at it, and objects only as they were found then. */
  ghost predicate TracksUse(s: State, t: Thread, m: Move) {
    var pc := if t in s.pcs then s.pcs[t] else Ended;
    && (forall h: u64 | Uses(m.pc, h) ::
          || (Uses(pc, h) && LeavesHost(m.host))
          || (m.host.NoChange? && Validate(s.core, h))
          || (m.host.Creates? && Create(s.core, m.host.native).1 == Ok(h)))
    && (Connecting(m.pc) ==> m.host.NoChange? && m.pc.stage.objects == ObjectsOf(s.core))
    && (m.host.Sends? ==>
          && Connecting(pc) && m.host.sent.handle == pc.handle
          && m.host.sent.built == pc.stage.objects && m.host.sent.found == ObjectsOf(s.core))
  }

  lemma SendStepTracks(s: State, t: Thread, n: Native)
    requires t in s.pcs && s.pcs[t].Sending?
    ensures var m := SendStep(s.core, s.pcs[t], n); TracksLocks(s, t, m) && TracksHost(s, t, m) && TracksUse(s, t, m)
  {}

  lemma FailTracks(s: State, t: Thread)
    requires t in s.pcs && FailOf(s.pcs[t]).Some?
    ensures var m := FailOf(s.pcs[t]).value; TracksLocks(s, t, m) && TracksHost(s, t, m) && TracksUse(s, t, m)
  {}

  lemma StepTracks(s: State, t: Thread, n: Native)
    requires t in s.pcs && StepOf(s, s.pcs[t], n).Some?
    ensures var m := StepOf(s, s.pcs[t], n).value; TracksLocks(s, t, m) && TracksHost(s, t, m) && TracksUse(s, t, m)
  {}

  lemma MoveTracks(s: State, a: Action)
    requires MoveOf(s, a).Some?
    ensures var m := MoveOf(s, a).value; TracksLocks(s, a.t, m) && TracksHost(s, a.t, m) && TracksUse(s, a.t, m)
  {
    if a.t in s.pcs {
      if a.Fail? {
        FailTracks(s, a.t);
      } else if s.pcs[a.t].Sending? {
        SendStepTracks(s, a.t, a.native);
      } else {
        StepTracks(s, a.t, a.native);
      }
    }
  }

  lemma ApplyKeepsLocks(s: State, t: Thread, m: Move)
    requires LeasesAgree(s) && GateAgrees(s) && TracksLocks(s, t, m)
    ensures LeasesAgree(Apply(s, t, m)) && GateAgrees(Apply(s, t, m))
  {}

  lemma CreateKeepsHost(s: State, n: Native)
    requires HostAgrees(s.core, s.issued)
    ensures HostAgrees(Create(s.core, n).0, IssuedAfter(s, n))
  {
    var core, issued := Create(s.core, n).0, IssuedAfter(s, n);
    if issued != s.issued {
      assert core.nextEndpoint == s.core.nextEndpoint + 1 && core.nextHandle == s.core.nextHandle + 1;
      assert forall i | 0 <= i < |s.issued| :: issued[i] == s.issued[i];
      assert issued[|s.issued|] == Session(core.active, core.native, core.endpoint.value);
    }
  }

  lemma CloseKeepsHost(c: Core, issued: seq<Session>, h: u64, n: Native)
    requires HostAgrees(c, issued)
    ensures HostAgrees(CloseLocal(c, h, n).0, issued) && HostAgrees(Shutdown(c, n).0, issued)
  {}

  lemma ApplyKeepsHost(s: State, t: Thread, m: Move)
    requires HostAgrees(s.core, s.issued)
    ensures HostAgrees(Apply(s, t, m).core, Apply(s, t, m).issued)
    ensures s.issued <= Apply(s, t, m).issued
  {
    match m.host
    case Creates(n) => CreateKeepsHost(s, n);
    case ClosesLocal(h, n) => CloseKeepsHost(s.core, s.issued, h, n);
    case ShutsDown(n) => CloseKeepsHost(s.core, s.issued, 0, n);
    case _ =>
  }

  /** A command that goes out uses the objects of its own session: its thread uses that session. */
  lemma ApplyKeepsSent(s: State, t: Thread, m: Move)
    requires HostAgrees(s.core, s.issued) && SentAgree(s) && s.issued <= Apply(s, t, m).issued
    requires m.host.Sends? ==> s.issued != [] && IsOf(m.host.sent, s.issued[|s.issued| - 1])
    ensures SentAgree(Apply(s, t, m))
  {
    var s' := Apply(s, t, m);
    forall e <- s'.sent ensures exists i :: 0 <= i < |s'.issued| && IsOf(e, s'.issued[i]) {
      if e in s.sent {
        var i :| 0 <= i < |s.issued| && IsOf(e, s.issued[i]);
        assert IsOf(e, s'.issued[i]);
      } else {
        assert IsOf(e, s'.issued[|s.issued| - 1]);
      }
    }
  }

  /** While a thread uses a session nobody else changes the host: it holds lease and gate, or everything. */
  lemma OthersLeaveHost(s: State, t: Thread, m: Move, u: Thread, h: u64)
    requires LeasesAgree(s) && GateAgrees(s) && TracksLocks(s, t, m) && TracksHost(s, t, m)
    requires u in s.pcs && u != t && Uses(s.pcs[u], h)
    ensures LeavesHost(m.host)
  {
    assert HoldsAll(s.pcs[u]) ==> s.exclusive == Some(u);
    assert !HoldsAll(s.pcs[u]) ==> s.gate == Some(u) && u in s.shared;
  }

  lemma ApplyKeepsUser(s: State, t: Thread, m: Move, u: Thread, h: u64)
    requires LeasesAgree(s) && GateAgrees(s) && HostAgrees(s.core, s.issued) && UsersAgree(s)
    requires TracksLocks(s, t, m) && TracksHost(s, t, m) && TracksUse(s, t, m)
    requires u in Apply(s, t, m).pcs && Uses(Apply(s, t, m).pcs[u], h)
    ensures Validate(Apply(s, t, m).core, h)
  {
    if u != t {
      OthersLeaveHost(s, t, m, u, h);
    }
  }

  lemma ApplyKeepsBuilt(s: State, t: Thread, m: Move, u: Thread)
    requires LeasesAgree(s) && GateAgrees(s) && BuiltAgree(s)
    requires TracksLocks(s, t, m) && TracksHost(s, t, m) && TracksUse(s, t, m)
    requires u in Apply(s, t, m).pcs && Connecting(Apply(s, t, m).pcs[u])
    ensures Apply(s, t, m).pcs[u].stage.objects == ObjectsOf(Apply(s, t, m).core)
  {
    if u != t {
      OthersLeaveHost(s, t, m, u, s.pcs[u].handle);
    }
  }

  lemma SendsItsOwn(s: State, t: Thread, m: Move)
    requires HostAgrees(s.core, s.issued) && UsersAgree(s) && BuiltAgree(s) && TracksUse(s, t, m) && m.host.Sends?
    ensures s.issued != [] && IsOf(m.host.sent, s.issued[|s.issued| - 1])
  {
    assert Uses(s.pcs[t], s.pcs[t].handle);
    assert Validate(s.core, s.pcs[t].handle);
  }

  lemma StepKeepsInv(s: State, a: Action)
    requires Inv(s) && Next(s, a).Some?
    ensures Inv(Next(s, a).value)
  {
    var s', m := Next(s, a).value, MoveOf(s, a).value;
    MoveTracks(s, a);
    ApplyKeepsLocks(s, a.t, m);
    ApplyKeepsHost(s, a.t, m);
    if m.host.Sends? {
      SendsItsOwn(s, a.t, m);
    }
    ApplyKeepsSent(s, a.t, m);
    forall u <- s'.pcs, h: u64 | Uses(s'.pcs[u], h) ensures Validate(s'.core, h) {
      ApplyKeepsUser(s, a.t, m, u, h);
    }
    forall u <- s'.pcs | Connecting(s'.pcs[u]) ensures s'.pcs[u].stage.objects == ObjectsOf(s'.core) {
      ApplyKeepsBuilt(s, a.t, m, u);
    }
  }

  lemma Reachable(acts: seq<Action>, s: State)
    requires Runs.Reaches(Next, START, acts, s)
    ensures Inv(s)
  {
    forall s: State, a | Inv(s) && Next(s, a).Some? ensures Inv(Next(s, a).value) {
      StepKeepsInv(s, a);
    }
    Runs.InvariantHolds(Next, Inv, START, acts, s);
  }

  /**
   Handles are issued as 1, 2, 3, ... and requestor endpoints strictly increase, so neither is ever used
   twice; neither counter wraps; only the last session issued can be active.
   */
  lemma HandlesAreNeverReused(acts: seq<Action>, s: State)
    requires Runs.Reaches(Next, START, acts, s)
    ensures forall i | 0 <= i < |s.issued| :: s.issued[i].handle == i + 1
    ensures forall i, j | 0 <= i < j < |s.issued| :: s.issued[i].endpoint < s.issued[j].endpoint < 0xFFFF
    ensures |s.issued| < 0xFFFF && s.core.nextHandle == |s.issued| + 1
    ensures s.core.active != 0 ==>
              s.core.active == |s.issued| && s.core.native == s.issued[|s.issued| - 1].native
  {
    Reachable(acts, s);
  }

  lemma UserIsCurrent(s: State, t: Thread, h: u64)
    requires Inv(s) && t in s.pcs && Uses(s.pcs[t], h)
    ensures Validate(s.core, h) && h == |s.issued| && h > 0
    ensures ObjectsOf(s.core) == ObjectsFor(s.issued[h - 1])
  {
    assert UsersAgree(s);
    assert Validate(s.core, h);
  }

  /**
   While a thread uses a session, whatever the others do and for however long, the host stands still: the
   session stays the active one, and its client, endpoint and native session stay in place.
   */
  lemma {:induction false} HostStandsStill(s: State, acts: seq<Action>, s': State, t: Thread, h: u64)
    requires Inv(s) && t in s.pcs && Uses(s.pcs[t], h)
    requires Runs.Reaches(Next, s, acts, s') && forall a <- acts :: a.t != t
    ensures s'.core == s.core && t in s'.pcs && s'.pcs[t] == s.pcs[t]
    decreases |acts|
  {
    if acts != [] {
      StepKeepsInv(s, acts[0]);
      OthersStandStill(s, acts[0], t, h);
      HostStandsStill(Next(s, acts[0]).value, acts[1..], s', t, h);
    }
  }

  lemma OthersStandStill(s: State, a: Action, t: Thread, h: u64)
    requires Inv(s) && t in s.pcs && Uses(s.pcs[t], h) && Next(s, a).Some? && a.t != t
    ensures var s' := Next(s, a).value; s'.core == s.core && t in s'.pcs && s'.pcs[t] == s.pcs[t]
  {
    MoveTracks(s, a);
    OthersLeaveHost(s, a.t, MoveOf(s, a).value, t, h);
  }

  /**
   Sending to and closing a session reach that session: from the validation on, its thread holds lease and
   gate, or the exclusive lease; a command it sends goes through the objects of that session, which the host
   still has; and its local close frees the slot exactly when the native steps succeed.
   */
  lemma ClosesExactlyItsSession(acts: seq<Action>, s: State, t: Thread, h: u64, n: Native)
    requires Runs.Reaches(Next, START, acts, s)
    requires t in s.pcs && Uses(s.pcs[t], h)
    ensures s.core.active == h && h == |s.issued| && h > 0
    ensures if HoldsAll(s.pcs[t]) then s.exclusive == Some(t) else s.gate == Some(t) && t in s.shared
    ensures Connecting(s.pcs[t]) ==>
              var objects := ObjectsFor(s.issued[h - 1]);
              && Next(s, Step(t, n)).Some?
              && Next(s, Step(t, n)).value.sent == s.sent + [Sent(s.pcs[t].purpose, h, objects, objects)]
    ensures s.pcs[t].Closing? || s.pcs[t].StartClosing? ==>
              && Next(s, Step(t, n)).Some?
              && (Next(s, Step(t, n)).value.core.active == 0 <==> n.closeOk && n.unregisterOk)
  {
    Reachable(acts, s);
    UserSendsAndCloses(s, t, h, n);
  }

  lemma UserSendsAndCloses(s: State, t: Thread, h: u64, n: Native)
    requires Inv(s) && t in s.pcs && Uses(s.pcs[t], h)
    ensures s.core.active == h && h == |s.issued| && h > 0
    ensures if HoldsAll(s.pcs[t]) then s.exclusive == Some(t) else s.gate == Some(t) && t in s.shared
    ensures Connecting(s.pcs[t]) ==>
              var objects := ObjectsFor(s.issued[h - 1]);
              && Next(s, Step(t, n)).Some?
              && Next(s, Step(t, n)).value.sent == s.sent + [Sent(s.pcs[t].purpose, h, objects, objects)]
    ensures s.pcs[t].Closing? || s.pcs[t].StartClosing? ==>
              && Next(s, Step(t, n)).Some?
              && (Next(s, Step(t, n)).value.core.active == 0 <==> n.closeOk && n.unregisterOk)
  {
    UserIsCurrent(s, t, h);
  }

  /**
   Every command ever sent, by whichever caller, was built from the client, endpoint and native session made
   for the handle it was meant for, and the host still had all three when it went out.
   */
  lemma CommandsReachTheirSession(acts: seq<Action>, s: State, k: nat)
    requires Runs.Reaches(Next, START, acts, s) && k < |s.sent|
    ensures 1 <= s.sent[k].handle <= |s.issued| && IsOf(s.sent[k], s.issued[s.sent[k].handle - 1])
  {
    Reachable(acts, s);
    assert s.sent[k] in s.sent;
  }

  // ---------------------------------------------------------------------------------------------
  // A local close that fails.
  // ---------------------------------------------------------------------------------------------

  /** The slot is taken by a session that no longer validates. */
  predicate Stuck(c: Core) {
    c.active != 0 && c.client.None?
  }

  ghost predicate NoShutdown(s: State) {
    forall t <- s.pcs :: !s.pcs[t].ShutWait? && !HoldsAll(s.pcs[t])
  }

  /** Closing a valid session leaves the slot stuck exactly when the native close or the unregistration fails. */
  lemma CloseSticksIff(c: Core, h: u64, n: Native)
    requires Validate(c, h)
    ensures Stuck(CloseLocal(c, h, n).0) <==> !(n.closeOk && n.unregisterOk)
    ensures !Stuck(CloseLocal(c, h, n).0) <==> CloseLocal(c, h, n).0.active == 0
  {}

  /**
   A stuck slot stays stuck: until the controller is closed, no run of starts and closes changes the host,
   so no session can be created, and the failed close cannot be repeated.
   */
  lemma {:induction false} StuckUntilShutdown(s: State, acts: seq<Action>, s': State)
    requires Inv(s) && Stuck(s.core) && NoShutdown(s)
    requires forall a <- acts :: !a.Close?
    requires Runs.Reaches(Next, s, acts, s')
    ensures s'.core == s.core && s'.issued == s.issued
    ensures forall h: u64 :: !Validate(s'.core, h)
    ensures forall n: Native :: Create(s'.core, n) == (s'.core, Err(Busy))
    decreases |acts|
  {
    if acts != [] {
      var a := acts[0];
      var m := MoveOf(s, a).value;
      StepKeepsInv(s, a);
      MoveTracks(s, a);
      StuckStep(s, a);
      StuckUntilShutdown(Next(s, a).value, acts[1..], s');
    }
  }

  lemma StuckStep(s: State, a: Action)
    requires Inv(s) && Stuck(s.core) && NoShutdown(s) && !a.Close?
    requires Next(s, a).Some?
    ensures Next(s, a).value.core == s.core && Next(s, a).value.issued == s.issued
    ensures NoShutdown(Next(s, a).value)
  {
    var m := MoveOf(s, a).value;
    MoveTracks(s, a);
    var h: u64 := if m.host.ClosesLocal? then m.host.handle else 0;
    assert !Validate(s.core, h);
  }

  // ---------------------------------------------------------------------------------------------
  // Runs: the slot does get stuck, and the gate is needed.
  // ---------------------------------------------------------------------------------------------

  const WORKS := Native(true, true, Some(7), true, true, false, true)
  const RETIRED := WORKS.(retired := true)
  const LIVE := Core(1, 2, 2, Some(1), Some(1), 7, true)
  const OBJECTS := Objects(Some(1), Some(1), 7)

  /** A step, field by field. */
  lemma Goes(s: State, a: Action, m: Move) returns (s': State)
    requires MoveOf(s, a) == Some(m) && !m.locks.TakeAll? && !m.locks.DropAll?
    ensures Next(s, a) == Some(s') && s'.core == CoreAfter(s.core, m.host)
    ensures s'.pcs.Keys == s.pcs.Keys + {a.t} && s'.pcs[a.t] == m.pc
    ensures forall u <- s.pcs | u != a.t :: s'.pcs[u] == s.pcs[u]
    ensures s'.exclusive == s.exclusive
    ensures s'.gate == if m.locks.TakeGate? then Some(a.t) else if m.locks.DropGate? then None else s.gate
    ensures s'.sent == if m.host.Sends? then s.sent + [m.host.sent] else s.sent
  {
    s' := Apply(s, a.t, m);
  }

  /** Only thread 0 is there, at `pc`, with the gate. */
  ghost predicate AtGate(s: State, pc: Pc, c: Core) {
    s.pcs.Keys == {0} && s.pcs[0] == pc && s.core == c && s.gate == Some(0) && s.exclusive.None? && s.sent == []
  }

  /** Session 1 is there, and its offer is about to be sent. */
  ghost predicate Offering(s: State) {
    AtGate(s, Sending(Offer, 1, Check), LIVE)
  }

  lemma FirstStartEnters() returns (s: State)
    ensures Runs.Leads(Next, START, s) && AtGate(s, StartGated, FRESH)
  {
    var called := Goes(START, StartCamera(0), Move(StartWait, NoLock, NoChange));
    s := FirstStartLocks(called);
    Runs.OneLeads(Next, START, StartCamera(0), called);
    Runs.LeadsOn(Next, START, called, s);
  }

  lemma FirstStartLocks(s: State) returns (gated: State)
    requires s.pcs.Keys == {0} && s.pcs[0] == StartWait && s.core == FRESH
    requires s.exclusive.None? && s.gate.None? && s.sent == []
    ensures Runs.Leads(Next, s, gated) && AtGate(gated, StartGated, FRESH)
  {
    var s1 := Goes(s, Step(0, WORKS), Move(StartLeased, TakeLease, NoChange));
    gated := Goes(s1, Step(0, WORKS), Move(StartGated, TakeGate, NoChange));
    Runs.TwoSteps(Next, s, Step(0, WORKS), s1, Step(0, WORKS), gated);
  }

  lemma GatedCreates(s: State) returns (offering: State)
    requires AtGate(s, StartGated, FRESH)
    ensures Runs.Leads(Next, s, offering) && Offering(offering)
  {
    assert Create(FRESH, WORKS) == (LIVE, Ok(1));
    offering := Goes(s, Step(0, WORKS), Move(Sending(Offer, 1, Check), NoLock, Creates(WORKS)));
    Runs.OneLeads(Next, s, Step(0, WORKS), offering);
  }

  lemma FirstStartCreates() returns (s: State)
    ensures Runs.Leads(Next, START, s) && Offering(s)
  {
    var entered := FirstStartEnters();
    s := GatedCreates(entered);
    Runs.LeadsOn(Next, START, entered, s);
  }

  /** The offer fails, and nobody is left to be told. */
  lemma OfferFails(s: State) returns (closing: State)
    requires Offering(s)
    ensures Runs.Leads(Next, s, closing) && AtGate(closing, StartClosing(1), LIVE)
  {
    var noInfo := WORKS.(infoOk := false);
    var s1 := Goes(s, Step(0, noInfo), Move(Sending(AbortEnd, 1, Check), NoLock, NoChange));
    closing := Goes(s1, Step(0, RETIRED), Move(StartClosing(1), NoLock, NoChange));
    Runs.TwoSteps(Next, s, Step(0, noInfo), s1, Step(0, RETIRED), closing);
  }

  /** Then the native close fails. */
  lemma CloseSticks(s: State) returns (stuck: State)
    requires AtGate(s, StartClosing(1), LIVE)
    ensures Runs.Leads(Next, s, stuck) && Stuck(stuck.core)
    ensures stuck.pcs.Keys == {0} && stuck.pcs[0] == Ended
  {
    var failing := WORKS.(closeOk := false);
    var s1 := Goes(s, Step(0, failing), Move(GateDrop, NoLock, ClosesLocal(1, failing)));
    var s2 := Goes(s1, Step(0, WORKS), Move(LeaseDrop, DropGate, NoChange));
    stuck := Goes(s2, Step(0, WORKS), Move(Ended, DropLease, NoChange));
    Runs.ThreeSteps(Next, s, Step(0, failing), s1, Step(0, WORKS), s2, Step(0, WORKS), stuck);
  }

  /** The slot does get stuck: a failed start alone can do it, and every call has ended. */
  lemma SlotCanStick() returns (stuck: State)
    ensures Runs.Leads(Next, START, stuck) && Stuck(stuck.core)
    ensures stuck.pcs.Keys == {0} && stuck.pcs[0] == Ended
  {
    var offering := FirstStartCreates();
    var closing := OfferFails(offering);
    stuck := CloseSticks(closing);
    Runs.LeadsOn(Next, START, offering, closing);
    Runs.LeadsOn(Next, START, closing, stuck);
  }

  /** Thread 0 waits for its connection, and thread 1 is at `pc`. */
  ghost predicate Beside(s: State, pc: Pc) {
    && s.pcs.Keys == {0, 1} && s.pcs[0] == Sending(Offer, 1, Connect(OBJECTS)) && s.pcs[1] == pc
    && s.core == LIVE && s.exclusive.None? && s.sent == []
  }

  lemma OfferConnects(s: State) returns (connecting: State)
    requires Offering(s)
    ensures Runs.Leads(Next, s, connecting) && AtGate(connecting, Sending(Offer, 1, Connect(OBJECTS)), LIVE)
  {
    var s1 := Goes(s, Step(0, WORKS), Move(Sending(Offer, 1, Build), NoLock, NoChange));
    connecting := Goes(s1, Step(0, WORKS), Move(Sending(Offer, 1, Connect(OBJECTS)), NoLock, NoChange));
    Runs.TwoSteps(Next, s, Step(0, WORKS), s1, Step(0, WORKS), connecting);
  }

  lemma CloserCalls(s: State) returns (called: State)
    requires AtGate(s, Sending(Offer, 1, Connect(OBJECTS)), LIVE)
    ensures Runs.Leads(Next, s, called) && Beside(called, CloseWait(1))
  {
    called := Goes(s, CloseCamera(1, 1), Move(CloseWait(1), NoLock, NoChange));
    Runs.OneLeads(Next, s, CloseCamera(1, 1), called);
  }

  lemma CloserLooks(s: State) returns (looked: State)
    requires Beside(s, CloseWait(1))
    ensures Runs.Leads(Next, s, looked) && Beside(looked, CloseLooked(1))
  {
    var s1 := Goes(s, Step(1, WORKS), Move(CloseLeased(1), TakeLease, NoChange));
    looked := Goes(s1, Step(1, WORKS), Move(CloseLooked(1), NoLock, NoChange));
    Runs.TwoSteps(Next, s, Step(1, WORKS), s1, Step(1, WORKS), looked);
  }

  /** Thread 1 has looked at the session it is to close while thread 0 waits. */
  lemma CloserCrosses() returns (crossing: State)
    ensures Runs.Leads(Next, START, crossing) && Beside(crossing, CloseLooked(1))
  {
    var offering := FirstStartCreates();
    var connecting := OfferConnects(offering);
    var called := CloserCalls(connecting);
    crossing := CloserLooks(called);
    Runs.LeadsOn(Next, START, offering, connecting);
    Runs.LeadsOn(Next, START, connecting, called);
    Runs.LeadsOn(Next, START, called, crossing);
  }

  /** The same operations, but the camera gate lets everyone through. */
  function NextWithoutGate(s: State, a: Action): Option<State> {
    Next(s.(gate := None), a)
  }

  lemma CloserPasses(s: State) returns (closing: State)
    requires Beside(s, CloseLooked(1))
    ensures Runs.Leads(NextWithoutGate, s, closing) && Beside(closing, Closing(1))
  {
    var t1 := Goes(s.(gate := None), Step(1, WORKS), Move(CloseGated(1), TakeGate, NoChange));
    var t2 := Goes(t1.(gate := None), Step(1, WORKS), Move(Sending(CloseEnd, 1, Check), NoLock, NoChange));
    closing := Goes(t2.(gate := None), Step(1, RETIRED), Move(Closing(1), NoLock, NoChange));
    Runs.ThreeSteps(NextWithoutGate, s, Step(1, WORKS), t1, Step(1, WORKS), t2, Step(1, RETIRED), closing);
  }

  lemma OfferIsLost(s: State) returns (lost: State)
    requires Beside(s, Closing(1))
    ensures Runs.Leads(NextWithoutGate, s, lost) && lost.sent == [Sent(Offer, 1, OBJECTS, Objects(None, None, 7))]
  {
    var sent := Sent(Offer, 1, OBJECTS, Objects(None, None, 7));
    var t1 := Goes(s.(gate := None), Step(1, WORKS), Move(GateDrop, NoLock, ClosesLocal(1, WORKS)));
    lost := Goes(t1.(gate := None), Step(0, WORKS), Move(Sending(Offer, 1, Await), NoLock, Sends(sent)));
    Runs.TwoSteps(NextWithoutGate, s, Step(1, WORKS), t1, Step(0, WORKS), lost);
  }

  /**
   Without the gate a reachable state leads to a command that goes out through a client and an endpoint that
   are gone: the validation under the stack lock does not protect what is used after it.
   */
  lemma GateIsNeeded() returns (crossing: State, lost: State)
    ensures Runs.Leads(Next, START, crossing) && Runs.Leads(NextWithoutGate, crossing, lost)
    ensures lost.sent == [Sent(Offer, 1, OBJECTS, Objects(None, None, 7))]
  {
    crossing := CloserCrosses();
    var closing := CloserPasses(crossing);
    lost := OfferIsLost(closing);
    Runs.LeadsOn(NextWithoutGate, crossing, closing, lost);
  }

  // ---------------------------------------------------------------------------------------------
  // Runs: what is free can be had, and what is valid can be used.
  // ---------------------------------------------------------------------------------------------

  /** The state with thread t at `pc`. */
  function At(s: State, t: Thread, pc: Pc): State {
    s.(pcs := s.pcs[t := pc])
  }

  /** And with lease and gate. */
  function InGate(s: State, t: Thread, pc: Pc): State {
    s.(pcs := s.pcs[t := pc], shared := s.shared + {t}, gate := Some(t))
  }

  lemma Steps(s: State, t: Thread, pc: Pc, n: Native, pc': Pc)
    requires MoveOf(At(s, t, pc), Step(t, n)) == Some(Move(pc', NoLock, NoChange))
    ensures Next(At(s, t, pc), Step(t, n)) == Some(At(s, t, pc'))
  {
    assert s.pcs[t := pc][t := pc'] == s.pcs[t := pc'];
  }

  /** After a command for session h went through. */
  function CommandSent(s: State, t: Thread, p: Purpose, h: u64): State {
    s.(pcs := s.pcs[t := AfterSend(p, h, true)], sent := s.sent + [Sent(p, h, ObjectsOf(s.core), ObjectsOf(s.core))])
  }

  /** A command for a valid session that is still there goes out, whatever its purpose, through the objects of the host. */
  lemma CommandGoesOut(s: State, t: Thread, p: Purpose, h: u64)
    requires Validate(s.core, h)
    ensures Runs.Leads(Next, At(s, t, Sending(p, h, Check)), CommandSent(s, t, p, h))
  {
    var objects := ObjectsOf(s.core);
    Steps(s, t, Sending(p, h, Check), WORKS, Sending(p, h, Build));
    Steps(s, t, Sending(p, h, Build), WORKS, Sending(p, h, Connect(objects)));
    Runs.TwoSteps(Next, At(s, t, Sending(p, h, Check)), Step(t, WORKS), At(s, t, Sending(p, h, Build)), Step(t, WORKS),
                  At(s, t, Sending(p, h, Connect(objects))));
    CommandConnects(s, t, p, h);
    Runs.LeadsOn(Next, At(s, t, Sending(p, h, Check)), At(s, t, Sending(p, h, Connect(objects))), CommandSent(s, t, p, h));
  }

  lemma CommandConnects(s: State, t: Thread, p: Purpose, h: u64)
    ensures Runs.Leads(Next, At(s, t, Sending(p, h, Connect(ObjectsOf(s.core)))), CommandSent(s, t, p, h))
  {
    var objects := ObjectsOf(s.core);
    var u := s.(sent := s.sent + [Sent(p, h, objects, objects)]);
    assert s.pcs[t := Sending(p, h, Connect(objects))][t := Sending(p, h, Await)] == s.pcs[t := Sending(p, h, Await)];
    assert Next(At(s, t, Sending(p, h, Connect(objects))), Step(t, WORKS)) == Some(At(u, t, Sending(p, h, Await)));
    Steps(u, t, Sending(p, h, Await), WORKS, AfterSend(p, h, true));
    Runs.TwoSteps(Next, At(s, t, Sending(p, h, Connect(objects))), Step(t, WORKS), At(u, t, Sending(p, h, Await)),
                  Step(t, WORKS), CommandSent(s, t, p, h));
  }

  /** The host after a start that works. */
  function WithSession(s: State, n: Native): State {
    s.(core := Create(s.core, n).0, issued := IssuedAfter(s, n))
  }

  lemma StartEntersGate(s: State, t: Thread)
    requires t !in s.pcs && s.exclusive.None? && s.gate.None?
    ensures Runs.Leads(Next, s, InGate(s, t, StartGated))
  {
    var leased := s.(pcs := s.pcs[t := StartLeased], shared := s.shared + {t});
    assert Next(s, StartCamera(t)) == Some(At(s, t, StartWait));
    assert s.pcs[t := StartWait][t := StartLeased] == leased.pcs;
    assert Next(At(s, t, StartWait), Step(t, WORKS)) == Some(leased);
    assert leased.pcs[t := StartGated] == s.pcs[t := StartGated];
    assert Next(leased, Step(t, WORKS)) == Some(InGate(s, t, StartGated));
    Runs.ThreeSteps(Next, s, StartCamera(t), At(s, t, StartWait), Step(t, WORKS), leased, Step(t, WORKS), InGate(s, t, StartGated));
  }

  lemma GateCreates(s: State, t: Thread)
    requires Create(s.core, WORKS).1.Ok?
    ensures Runs.Leads(Next, InGate(s, t, StartGated), InGate(WithSession(s, WORKS), t, Sending(Offer, s.core.nextHandle, Check)))
  {
    var next := InGate(WithSession(s, WORKS), t, Sending(Offer, s.core.nextHandle, Check));
    assert s.pcs[t := StartGated][t := Sending(Offer, s.core.nextHandle, Check)] == next.pcs;
    assert Next(InGate(s, t, StartGated), Step(t, WORKS)) == Some(next);
    Runs.OneLeads(Next, InGate(s, t, StartGated), Step(t, WORKS), next);
  }

  lemma FreeSlotCreates(s: State)
    requires HostAgrees(s.core, s.issued) && s.core.active == 0 && |s.issued| < 0xFFFF && s.core.nextEndpoint < 0xFFFF
    ensures Create(s.core, WORKS).1 == Ok(|s.issued| + 1)
    ensures Validate(Create(s.core, WORKS).0, |s.issued| + 1)
  {}

  /** How a start ends that worked. */
  function AfterStart(s: State, t: Thread): State
    requires |s.issued| < 0xFFFF
  {
    CommandSent(InGate(WithSession(s, WORKS), t, StartGated), t, Offer, |s.issued| + 1)
  }

  /**
   A free slot can be taken, whatever happened before: in every reachable state with no session, an endpoint number
   left and the locks free, a start gets the next handle, which is then the valid one, and its offer goes out.
   */
  lemma FreeSlotCanBeTaken(acts: seq<Action>, s: State, t: Thread)
    requires Runs.Reaches(Next, START, acts, s) && t !in s.pcs && s.exclusive.None? && s.gate.None?
    requires s.core.active == 0 && s.core.nextEndpoint < 0xFFFF && |s.issued| < 0xFFFF
    ensures Runs.Leads(Next, s, AfterStart(s, t))
    ensures AfterStart(s, t).pcs[t] == Offered(|s.issued| + 1) && Validate(AfterStart(s, t).core, |s.issued| + 1)
    ensures |AfterStart(s, t).sent| == |s.sent| + 1
  {
    Reachable(acts, s);
    FreeSlotCreates(s);
    var h: u64 := |s.issued| + 1;
    var u := WithSession(s, WORKS);
    StartEntersGate(s, t);
    GateCreates(s, t);
    SameInGate(u, t, Sending(Offer, h, Check));
    CommandGoesOut(InGate(u, t, StartGated), t, Offer, h);
    Runs.LeadsOn(Next, s, InGate(s, t, StartGated), InGate(u, t, Sending(Offer, h, Check)));
    Runs.LeadsOn(Next, s, InGate(u, t, Sending(Offer, h, Check)), AfterStart(s, t));
  }

  lemma SameInGate(s: State, t: Thread, pc: Pc)
    ensures At(InGate(s, t, StartGated), t, pc) == InGate(s, t, pc)
  {
    assert s.pcs[t := StartGated][t := pc] == s.pcs[t := pc];
  }

  /** And with the lease alone. */
  function Leased(s: State, t: Thread, pc: Pc): State {
    s.(pcs := s.pcs[t := pc], shared := s.shared + {t})
  }

  lemma CloserEnters(s: State, t: Thread, h: u64)
    requires t !in s.pcs && s.exclusive.None? && Validate(s.core, h)
    ensures Runs.Leads(Next, s, Leased(s, t, CloseLooked(h)))
  {
    assert Next(s, CloseCamera(t, h)) == Some(At(s, t, CloseWait(h)));
    assert s.pcs[t := CloseWait(h)][t := CloseLeased(h)] == s.pcs[t := CloseLeased(h)];
    assert Next(At(s, t, CloseWait(h)), Step(t, WORKS)) == Some(Leased(s, t, CloseLeased(h)));
    assert s.pcs[t := CloseLeased(h)][t := CloseLooked(h)] == s.pcs[t := CloseLooked(h)];
    assert Next(Leased(s, t, CloseLeased(h)), Step(t, WORKS)) == Some(Leased(s, t, CloseLooked(h)));
    Runs.ThreeSteps(Next, s, CloseCamera(t, h), At(s, t, CloseWait(h)), Step(t, WORKS), Leased(s, t, CloseLeased(h)),
                    Step(t, WORKS), Leased(s, t, CloseLooked(h)));
  }

  lemma CloserValidates(s: State, t: Thread, h: u64)
    requires s.gate.None? && Validate(s.core, h)
    ensures Runs.Leads(Next, Leased(s, t, CloseLooked(h)), InGate(s, t, Sending(CloseEnd, h, Check)))
  {
    assert s.pcs[t := CloseLooked(h)][t := CloseGated(h)] == s.pcs[t := CloseGated(h)];
    assert Next(Leased(s, t, CloseLooked(h)), Step(t, WORKS)) == Some(InGate(s, t, CloseGated(h)));
    assert s.pcs[t := CloseGated(h)][t := Sending(CloseEnd, h, Check)] == s.pcs[t := Sending(CloseEnd, h, Check)];
    assert Next(InGate(s, t, CloseGated(h)), Step(t, WORKS)) == Some(InGate(s, t, Sending(CloseEnd, h, Check)));
    Runs.TwoSteps(Next, Leased(s, t, CloseLooked(h)), Step(t, WORKS), InGate(s, t, CloseGated(h)), Step(t, WORKS),
                  InGate(s, t, Sending(CloseEnd, h, Check)));
  }

  /** After a thread at its local close is through. */
  function LocallyClosed(s: State, t: Thread, h: u64): State {
    s.(core := CloseLocal(s.core, h, WORKS).0, gate := None, shared := s.shared - {t}, pcs := s.pcs[t := Ended])
  }

  lemma ClosesAndLeaves(s: State, t: Thread, h: u64)
    requires t in s.pcs && (s.pcs[t] == Closing(h) || s.pcs[t] == StartClosing(h))
    ensures Runs.Leads(Next, s, LocallyClosed(s, t, h))
  {
    var c := CloseLocal(s.core, h, WORKS).0;
    var s1, s2 := s.(core := c, pcs := s.pcs[t := GateDrop]), s.(core := c, gate := None, pcs := s.pcs[t := LeaseDrop]);
    assert Next(s, Step(t, WORKS)) == Some(s1);
    assert s1.pcs[t := LeaseDrop] == s2.pcs;
    assert Next(s1, Step(t, WORKS)) == Some(s2);
    assert s2.pcs[t := Ended] == s.pcs[t := Ended];
    assert Next(s2, Step(t, WORKS)) == Some(LocallyClosed(s, t, h));
    Runs.ThreeSteps(Next, s, Step(t, WORKS), s1, Step(t, WORKS), s2, Step(t, WORKS), LocallyClosed(s, t, h));
  }

  /** How a close ends that worked. */
  function AfterClose(s: State, t: Thread, h: u64): State {
    LocallyClosed(CommandSent(InGate(s, t, GateDrop), t, CloseEnd, h), t, h)
  }

  /**
   A valid session can be closed: with the locks free a close sends one End, through the session's own objects, and
   leaves the slot free and its locks returned.
   */
  lemma ValidSessionCanBeClosed(s: State, t: Thread, h: u64)
    requires t !in s.pcs && s.exclusive.None? && s.gate.None? && t !in s.shared && Validate(s.core, h)
    ensures Runs.Leads(Next, s, AfterClose(s, t, h))
    ensures var s' := AfterClose(s, t, h);
            && s'.core.active == 0 && s'.core.endpoint.None? && s'.sent == s.sent + [Sent(CloseEnd, h, ObjectsOf(s.core), ObjectsOf(s.core))]
            && s'.gate.None? && s'.shared == s.shared && s'.pcs[t].Ended?
  {
    CloserEnters(s, t, h);
    CloserValidates(s, t, h);
    Runs.LeadsOn(Next, s, Leased(s, t, CloseLooked(h)), InGate(s, t, Sending(CloseEnd, h, Check)));
    CloserFinishes(s, t, h);
    Runs.LeadsOn(Next, s, InGate(s, t, Sending(CloseEnd, h, Check)), AfterClose(s, t, h));
  }

  lemma CloserFinishes(s: State, t: Thread, h: u64)
    requires Validate(s.core, h)
    ensures Runs.Leads(Next, InGate(s, t, Sending(CloseEnd, h, Check)), AfterClose(s, t, h))
  {
    var u := InGate(s, t, GateDrop);
    assert u.pcs[t := Sending(CloseEnd, h, Check)] == s.pcs[t := Sending(CloseEnd, h, Check)];
    assert At(u, t, Sending(CloseEnd, h, Check)) == InGate(s, t, Sending(CloseEnd, h, Check));
    CommandGoesOut(u, t, CloseEnd, h);
    ClosesAndLeaves(CommandSent(u, t, CloseEnd, h), t, h);
    Runs.LeadsOn(Next, InGate(s, t, Sending(CloseEnd, h, Check)), CommandSent(u, t, CloseEnd, h), AfterClose(s, t, h));
  }

  /** And its peer can be sent candidates. */
  lemma CandidatesCanBeSent(s: State, t: Thread, h: u64)
    requires t !in s.pcs && s.exclusive.None? && s.gate.None? && Validate(s.core, h)
    ensures Runs.Leads(Next, s, CommandSent(InGate(s, t, GateDrop), t, Trickle, h))
  {
    var u := InGate(s, t, GateDrop);
    assert u.pcs[t := Sending(Trickle, h, Check)] == s.pcs[t := Sending(Trickle, h, Check)];
    TricklerEnters(s, t, h);
    CommandGoesOut(u, t, Trickle, h);
    assert At(u, t, Sending(Trickle, h, Check)) == InGate(s, t, Sending(Trickle, h, Check));
    Runs.LeadsOn(Next, s, InGate(s, t, Sending(Trickle, h, Check)), CommandSent(u, t, Trickle, h));
  }

  lemma TricklerEnters(s: State, t: Thread, h: u64)
    requires t !in s.pcs && s.exclusive.None? && s.gate.None? && Validate(s.core, h)
    ensures Runs.Leads(Next, s, InGate(s, t, Sending(Trickle, h, Check)))
  {
    assert Next(s, SendCandidates(t, h)) == Some(At(s, t, TrickleWait(h)));
    assert s.pcs[t := TrickleWait(h)][t := TrickleLeased(h)] == s.pcs[t := TrickleLeased(h)];
    assert Next(At(s, t, TrickleWait(h)), Step(t, WORKS)) == Some(Leased(s, t, TrickleLeased(h)));
    assert s.pcs[t := TrickleLeased(h)][t := TrickleLooked(h)] == s.pcs[t := TrickleLooked(h)];
    assert Next(Leased(s, t, TrickleLeased(h)), Step(t, WORKS)) == Some(Leased(s, t, TrickleLooked(h)));
    assert s.pcs[t := TrickleLooked(h)][t := Sending(Trickle, h, Check)] == s.pcs[t := Sending(Trickle, h, Check)];
    assert Next(Leased(s, t, TrickleLooked(h)), Step(t, WORKS)) == Some(InGate(s, t, Sending(Trickle, h, Check)));
    Runs.FourSteps(Next, s, SendCandidates(t, h), At(s, t, TrickleWait(h)), Step(t, WORKS), Leased(s, t, TrickleLeased(h)),
                   Step(t, WORKS), Leased(s, t, TrickleLooked(h)), Step(t, WORKS), InGate(s, t, Sending(Trickle, h, Check)));
  }

  /** The state with thread t at `pc`, holding everything. */
  function Alone(s: State, t: Thread, pc: Pc): State {
    s.(pcs := s.pcs[t := pc], exclusive := Some(t))
  }

  function AfterShutdown(s: State, t: Thread, h: u64): State {
    var u := CommandSent(Alone(s, t, ShutHeld), t, ShutEnd, h);
    u.(core := Shutdown(u.core, WORKS).0, exclusive := None, pcs := s.pcs[t := Ended])
  }

  /** Closing the controller ends a valid session as well, and frees the slot. */
  lemma ShutdownEndsTheSession(s: State, t: Thread, h: u64)
    requires t !in s.pcs && s.exclusive.None? && s.shared == {} && Validate(s.core, h)
    ensures Runs.Leads(Next, s, AfterShutdown(s, t, h))
    ensures var s' := AfterShutdown(s, t, h);
            s'.core.active == 0 && s'.sent == s.sent + [Sent(ShutEnd, h, ObjectsOf(s.core), ObjectsOf(s.core))]
  {
    ShutterEnters(s, t, h);
    ShutterFinishes(s, t, h);
    Runs.LeadsOn(Next, s, Alone(s, t, Sending(ShutEnd, h, Check)), AfterShutdown(s, t, h));
  }

  lemma ShutterEnters(s: State, t: Thread, h: u64)
    requires t !in s.pcs && s.exclusive.None? && s.shared == {} && Validate(s.core, h)
    ensures Runs.Leads(Next, s, Alone(s, t, Sending(ShutEnd, h, Check)))
  {
    assert Next(s, Close(t)) == Some(At(s, t, ShutWait));
    assert s.pcs[t := ShutWait][t := ShutHeld] == s.pcs[t := ShutHeld];
    assert Next(At(s, t, ShutWait), Step(t, WORKS)) == Some(Alone(s, t, ShutHeld));
    assert s.pcs[t := ShutHeld][t := Sending(ShutEnd, h, Check)] == s.pcs[t := Sending(ShutEnd, h, Check)];
    assert Next(Alone(s, t, ShutHeld), Step(t, WORKS)) == Some(Alone(s, t, Sending(ShutEnd, h, Check)));
    Runs.ThreeSteps(Next, s, Close(t), At(s, t, ShutWait), Step(t, WORKS), Alone(s, t, ShutHeld), Step(t, WORKS),
                    Alone(s, t, Sending(ShutEnd, h, Check)));
  }

  lemma ShutterFinishes(s: State, t: Thread, h: u64)
    requires Validate(s.core, h)
    ensures Runs.Leads(Next, Alone(s, t, Sending(ShutEnd, h, Check)), AfterShutdown(s, t, h))
  {
    var u := Alone(s, t, ShutHeld);
    var sent := CommandSent(u, t, ShutEnd, h);
    assert u.pcs[t := Sending(ShutEnd, h, Check)] == s.pcs[t := Sending(ShutEnd, h, Check)];
    assert At(u, t, Sending(ShutEnd, h, Check)) == Alone(s, t, Sending(ShutEnd, h, Check));
    assert sent.pcs[t := Ended] == s.pcs[t := Ended];
    assert Next(sent, Step(t, WORKS)) == Some(AfterShutdown(s, t, h));
    Runs.OneLeads(Next, sent, Step(t, WORKS), AfterShutdown(s, t, h));
    CommandGoesOut(u, t, ShutEnd, h);
    Runs.LeadsOn(Next, Alone(s, t, Sending(ShutEnd, h, Check)), sent, AfterShutdown(s, t, h));
  }

  // ---------------------------------------------------------------------------------------------
  // Failures: every call can end, and a start that fails gives its session up.
  // ---------------------------------------------------------------------------------------------

  ghost predicate HasSent(s: State, p: Purpose, h: u64) {
    exists e <- s.sent :: e.purpose == p && e.handle == h
  }

  ghost predicate Tells(s: State, pc: Pc) {
    && (pc.Sending? && pc.stage.Await? ==> HasSent(s, pc.purpose, pc.handle))
    && (pc.Offered? ==> HasSent(s, Offer, pc.handle))
  }

  ghost predicate TellsTruth(s: State) {
    forall t <- s.pcs :: Tells(s, s.pcs[t])
  }

  lemma SentStays(s: State, a: Action, p: Purpose, h: u64)
    requires HasSent(s, p, h) && Next(s, a).Some?
    ensures HasSent(Next(s, a).value, p, h)
  {
    var e :| e in s.sent && e.purpose == p && e.handle == h;
    assert e in Next(s, a).value.sent;
  }

  lemma MoverTells(s: State, a: Action)
    requires TellsTruth(s) && Next(s, a).Some?
    ensures Tells(Next(s, a).value, Next(s, a).value.pcs[a.t])
  {
    var s', m := Next(s, a).value, MoveOf(s, a).value;
    if m.host.Sends? {
      assert m.host.sent in s'.sent;
    } else if a.t in s.pcs && s.pcs[a.t].Sending? && s.pcs[a.t].stage.Await? {
      SentStays(s, a, s.pcs[a.t].purpose, s.pcs[a.t].handle);
    }
  }

  lemma StepTells(s: State, a: Action)
    requires TellsTruth(s) && Next(s, a).Some?
    ensures TellsTruth(Next(s, a).value)
  {
    var s' := Next(s, a).value;
    forall t <- s'.pcs ensures Tells(s', s'.pcs[t]) {
      if t == a.t {
        MoverTells(s, a);
      } else if s.pcs[t].Sending? && s.pcs[t].stage.Await? {
        SentStays(s, a, s.pcs[t].purpose, s.pcs[t].handle);
      } else if s.pcs[t].Offered? {
        SentStays(s, a, Offer, s.pcs[t].handle);
      }
    }
  }

  /** No start goes on as offered unless its offer was sent: a failure in sending is never taken for success. */
  lemma OfferedMeansSent(acts: seq<Action>, s: State, t: Thread)
    requires Runs.Reaches(Next, START, acts, s) && t in s.pcs && s.pcs[t].Offered?
    ensures exists e <- s.sent :: e.purpose == Offer && e.handle == s.pcs[t].handle
  {
    forall s: State, a | TellsTruth(s) && Next(s, a).Some? ensures TellsTruth(Next(s, a).value) {
      StepTells(s, a);
    }
    Runs.InvariantHolds(Next, TellsTruth, START, acts, s);
    assert Tells(s, s.pcs[t]);
  }

  /** How a start ends whose offer failed. */
  function GivenUp(s: State, t: Thread, h: u64): State {
    LocallyClosed(CommandSent(InGate(s, t, GateDrop), t, AbortEnd, h), t, h)
  }

  /**
   A start that fails once its session is made, at the connection, at the answer or at the metadata, goes on to send
   an End, through the session's own objects, and to free the slot.
   */
  lemma FailedStartGivesUp(s: State, t: Thread, h: u64, pc: Pc)
    requires Validate(s.core, h)
    requires pc == Offered(h) || (pc.Sending? && pc.purpose.Offer? && pc.handle == h && (pc.stage.Connect? || pc.stage.Await?))
    ensures Runs.Leads(Next, InGate(s, t, pc), GivenUp(s, t, h))
    ensures var s' := GivenUp(s, t, h);
            && s'.core.active == 0 && s'.sent == s.sent + [Sent(AbortEnd, h, ObjectsOf(s.core), ObjectsOf(s.core))]
            && s'.gate.None? && s'.pcs[t].Ended?
  {
    var u, aborting := InGate(s, t, GateDrop), InGate(s, t, Sending(AbortEnd, h, Check));
    assert s.pcs[t := pc][t := Sending(AbortEnd, h, Check)] == aborting.pcs;
    assert Next(InGate(s, t, pc), Fail(t)) == Some(aborting);
    assert u.pcs[t := Sending(AbortEnd, h, Check)] == aborting.pcs;
    assert At(u, t, Sending(AbortEnd, h, Check)) == aborting;
    AbortFinishes(s, t, h);
    Runs.OneLeads(Next, InGate(s, t, pc), Fail(t), aborting);
    Runs.LeadsOn(Next, InGate(s, t, pc), aborting, GivenUp(s, t, h));
  }

  lemma AbortFinishes(s: State, t: Thread, h: u64)
    requires Validate(s.core, h)
    ensures Runs.Leads(Next, At(InGate(s, t, GateDrop), t, Sending(AbortEnd, h, Check)), GivenUp(s, t, h))
  {
    var u := InGate(s, t, GateDrop);
    CommandGoesOut(u, t, AbortEnd, h);
    ClosesAndLeaves(CommandSent(u, t, AbortEnd, h), t, h);
    Runs.LeadsOn(Next, At(u, t, Sending(AbortEnd, h, Check)), CommandSent(u, t, AbortEnd, h), GivenUp(s, t, h));
  }

  /** A shutdown whose commissioner was never initialized sends no End. */
  lemma ShutdownMaySkipTheEnd(s: State, t: Thread)
    ensures Next(Alone(s, t, ShutHeld), Fail(t)) == Some(Alone(s, t, ShutDown))
  {
    assert s.pcs[t := ShutHeld][t := ShutDown] == s.pcs[t := ShutDown];
  }

  function StagesLeft(stage: Stage): nat {
    match stage
    case Check => 4
    case Build => 3
    case Connect(_) => 2
    case Await => 1
  }

  /** An upper bound on the steps a call still has to take, apart from waiting for a lock. */
  function Left(pc: Pc): nat {
    match pc
    case Ended => 0
    case LeaseDrop => 1
    case ShutDown => 1
    case GateDrop => 2
    case Closing(_) => 3
    case StartClosing(_) => 3
    case Sending(p, _, stage) => StagesLeft(stage) + if p.Offer? then 8 else 3
    case Offered(_) => 8
    case ShutHeld => 8
    case CloseGated(_) => 8
    case TrickleLooked(_) => 8
    case TrickleLeased(_) => 9
    case CloseLooked(_) => 9
    case CloseLeased(_) => 10
    case StartGated => 13
    case _ => 15
  }

  lemma CallGoesOn(s: State, t: Thread) returns (a: Action, s': State)
    requires t in s.pcs && !s.pcs[t].Ended? && !s.pcs[t].ShutWait?
    ensures Next(s, a) == Some(s') && s'.pcs.Keys == s.pcs.Keys && Left(s'.pcs[t]) < Left(s.pcs[t])
    ensures forall u <- s.pcs | u != t :: s'.pcs[u] == s.pcs[u]
    ensures !s'.pcs[t].ShutWait?
  {
    a := if FailOf(s.pcs[t]).Some? then Fail(t) else Step(t, WORKS);
    s' := Next(s, a).value;
  }

  lemma {:induction false} CallEnds(s: State, t: Thread) returns (s': State)
    requires t in s.pcs && !s.pcs[t].ShutWait?
    ensures Runs.Leads(Next, s, s') && t in s'.pcs && s'.pcs[t].Ended?
    ensures forall u <- s.pcs | u != t :: u in s'.pcs && s'.pcs[u] == s.pcs[u]
    decreases Left(s.pcs[t])
  {
    if s.pcs[t].Ended? {
      s' := s;
      assert Runs.Reaches(Next, s, [], s);
    } else {
      var a, next := CallGoesOn(s, t);
      s' := CallEnds(next, t);
      Runs.OneLeads(Next, s, a, next);
      Runs.LeadsOn(Next, s, next, s');
    }
  }

  /**
   No call is ever stuck: from every reachable state any call but a shutdown that waits for the others can come to
   its end on its own, whoever holds the locks, and it then holds none.
   */
  lemma EveryCallCanEnd(acts: seq<Action>, s: State, t: Thread) returns (s': State)
    requires Runs.Reaches(Next, START, acts, s) && t in s.pcs && !s.pcs[t].ShutWait?
    ensures Runs.Leads(Next, s, s') && t in s'.pcs && s'.pcs[t].Ended?
    ensures t !in s'.shared && s'.exclusive != Some(t) && s'.gate != Some(t)
    ensures forall u <- s.pcs | u != t :: u in s'.pcs && s'.pcs[u] == s.pcs[u]
  {
    s' := CallEnds(s, t);
    EndedHoldsNothing(acts, s, s', t);
  }

  lemma EndedHoldsNothing(acts: seq<Action>, s: State, s': State, t: Thread)
    requires Runs.Reaches(Next, START, acts, s) && Runs.Leads(Next, s, s') && t in s'.pcs && s'.pcs[t].Ended?
    ensures t !in s'.shared && s'.exclusive != Some(t) && s'.gate != Some(t)
  {
    var more :| Runs.Reaches(Next, s, more, s');
    Runs.Append(Next, START, acts, s, more, s');
    Reachable(acts + more, s');
  }

  /** A start whose metadata can be read returns its locks and leaves the session to its caller. */
  lemma OfferedReturns(s: State, t: Thread, h: u64)
    ensures Runs.Leads(Next, InGate(s, t, Offered(h)),
                       s.(pcs := s.pcs[t := Ended], shared := (s.shared + {t}) - {t}, gate := None))
  {
    var s1, s2, s3 := InGate(s, t, GateDrop), Leased(s.(gate := None), t, LeaseDrop),
        s.(pcs := s.pcs[t := Ended], shared := (s.shared + {t}) - {t}, gate := None);
    assert s.pcs[t := Offered(h)][t := GateDrop] == s1.pcs;
    assert s1.pcs[t := LeaseDrop] == s2.pcs && s2.pcs[t := Ended] == s3.pcs;
    assert Next(InGate(s, t, Offered(h)), Step(t, WORKS)) == Some(s1);
    assert Next(s1, Step(t, WORKS)) == Some(s2);
    assert Next(s2, Step(t, WORKS)) == Some(s3);
    Runs.ThreeSteps(Next, InGate(s, t, Offered(h)), Step(t, WORKS), s1, Step(t, WORKS), s2, Step(t, WORKS), s3);
  }

  /** A call for a handle that does not validate turns back before the camera gate. */
  lemma UnknownTurnsBack(s: State, t: Thread, h: u64, n: Native)
    requires t in s.pcs && s.pcs[t] in {TrickleLeased(h), CloseLeased(h)}
    ensures Next(s, Step(t, n)).Some?
    ensures Next(s, Step(t, n)).value.pcs[t] == if Validate(s.core, h) then
                                                 if s.pcs[t].TrickleLeased? then TrickleLooked(h) else CloseLooked(h)
                                               else LeaseDrop
    ensures Next(s, Step(t, n)).value.core == s.core
  {}
}
