/**
 The receiver's candidate queues: local candidates held back until the offer is out, remote candidates held
 back until the answer is applied, and the chain that delivers one message after the other.

 Code between two suspension points runs without interruption and is one step; events of the peer
 connection, faults and out-of-band stops come between any two steps.
 */
module Ice {
  import opened Basics
  import Runs

  type Token = nat
  type PeerId = nat

  /** `valid`: the shape and the lengths are acceptable. */
  datatype Candidate = Candidate(id: nat, valid: bool)

  const MAXIMUM_PENDING := 32
  const MAXIMUM_BATCH := 16

  datatype Message =
    | Start(token: Token, wellFormed: bool, supported: bool)
    | Stop(token: Token)
    | Answer(token: Token, valid: bool)
    | Ice(token: Token, candidates: seq<Candidate>)
    | Other(token: Token)

  datatype Core = Core(peer: Option<PeerId>, token: Option<Token>, described: bool, remote: seq<Candidate>,
                       local: seq<Candidate>, offered: bool)

  const NEW := Core(None, None, false, [], [], false)

  function Closed(c: Core): Core {
    Core(None, c.token, false, [], [], false)
  }

  datatype GatherResult = Ignored | Published | Held | Overflowed

  function Gather(c: Core, p: PeerId, candidate: Candidate): (Core, GatherResult) {
    if c.peer != Some(p) then (c, Ignored)
    else if c.offered then (c, Published)
    else if |c.local| < MAXIMUM_PENDING then (c.(local := c.local + [candidate]), Held)
    else (Closed(c), Overflowed)
  }

  /** A batch of remote candidates before the answer is applied: all queued, or `ok` is false where it stopped. */
  function Hold(remote: seq<Candidate>, batch: seq<Candidate>): (r: (seq<Candidate>, bool))
    ensures remote <= r.0 && r.0 <= remote + batch
    ensures r.1 ==> r.0 == remote + batch
    ensures |remote| <= MAXIMUM_PENDING ==> |r.0| <= MAXIMUM_PENDING
    ensures (forall c <- remote :: c.valid) ==> forall c <- r.0 :: c.valid
    decreases |batch|
  {
    if batch == [] then (remote, true)
    else if !batch[0].valid || |remote| == MAXIMUM_PENDING then (remote, false)
    else
      assert remote + [batch[0]] + batch[1..] == remote + batch;
      Hold(remote + [batch[0]], batch[1..])
  }

  /** A batch is held if and only if all of it is valid and fits among 32; otherwise exactly up to what stopped it. */
  lemma {:induction false} HoldsIff(remote: seq<Candidate>, batch: seq<Candidate>)
    requires |remote| <= 32
    ensures Hold(remote, batch).1 <==> (forall k | 0 <= k < |batch| :: batch[k].valid) && |remote| + |batch| <= 32
    ensures !Hold(remote, batch).1 ==>
              var held := |Hold(remote, batch).0| - |remote|;
              && held < |batch| && (forall k | 0 <= k < held :: batch[k].valid)
              && (!batch[held].valid || |remote| + held == 32)
    decreases |batch|
  {
    if batch != [] && batch[0].valid && |remote| < MAXIMUM_PENDING {
      HoldsIff(remote + [batch[0]], batch[1..]);
      assert forall k | 0 < k < |batch| :: batch[k] == batch[1..][k - 1];
    }
  }

  lemma HoldStep(remote: seq<Candidate>, batch: seq<Candidate>, i: nat)
    requires i < |batch|
    ensures Hold(remote, batch[i..]) ==
            if !batch[i].valid || |remote| == MAXIMUM_PENDING then (remote, false) else Hold(remote + [batch[i]], batch[i + 1..])
  {
    assert batch[i..][0] == batch[i] && batch[i..][1..] == batch[i + 1..];
  }

  class Receiver {
    var peer: Option<PeerId>
    var token: Option<Token>
    var remoteDescriptionSet: bool
    var pendingRemoteCandidates: seq<Candidate>
    var pendingLocalCandidates: seq<Candidate>
    var offerPublished: bool

    function Contents(): Core
      reads this
    {
      Core(peer, token, remoteDescriptionSet, pendingRemoteCandidates, pendingLocalCandidates, offerPublished)
    }

    constructor ()
      ensures Contents() == NEW
    {
      peer, token, remoteDescriptionSet := None, None, false;
      pendingRemoteCandidates, pendingLocalCandidates, offerPublished := [], [], false;
    }

    method CloseReceiver()
      modifies this
      ensures Contents() == Closed(old(Contents()))
      ensures peer.None? && token == old(token) && !remoteDescriptionSet && !offerPublished
      ensures pendingRemoteCandidates == [] && pendingLocalCandidates == []
    {
      peer := None;
      pendingRemoteCandidates := [];
      pendingLocalCandidates := [];
      offerPublished := false;
      remoteDescriptionSet := false;
    }

    method OnIceCandidate(ownedPeer: PeerId, candidate: Candidate) returns (r: GatherResult)
      modifies this
      ensures (Contents(), r) == Gather(old(Contents()), ownedPeer, candidate)
      ensures r.Ignored? <==> old(peer) != Some(ownedPeer)
      ensures r.Published? <==> old(peer) == Some(ownedPeer) && old(offerPublished)
      ensures r.Overflowed? <==> old(peer) == Some(ownedPeer) && !old(offerPublished) && |old(pendingLocalCandidates)| >= 32
      ensures pendingLocalCandidates == match r
                                        case Ignored => old(pendingLocalCandidates)
                                        case Published => old(pendingLocalCandidates)
                                        case Held => old(pendingLocalCandidates) + [candidate]
                                        case Overflowed => []
      ensures if r.Overflowed? then peer.None?
              else peer == old(peer) && offerPublished == old(offerPublished) &&
                   pendingRemoteCandidates == old(pendingRemoteCandidates) && remoteDescriptionSet == old(remoteDescriptionSet)
    {
      if peer != Some(ownedPeer) {
        return Ignored;
      }
      if offerPublished {
        return Published;
      } else if |pendingLocalCandidates| < MAXIMUM_PENDING {
        pendingLocalCandidates := pendingLocalCandidates + [candidate];
        return Held;
      } else {
        CloseReceiver();
        return Overflowed;
      }
    }

    /** The local description is set: the offer goes out, then the candidates held so far, in order. */
    method PublishOffer(ownedPeer: PeerId) returns (out: seq<Out>)
      modifies this
      ensures peer == old(peer) && token == old(token)
      ensures remoteDescriptionSet == old(remoteDescriptionSet)
      ensures pendingRemoteCandidates == old(pendingRemoteCandidates)
      ensures if old(peer) == Some(ownedPeer) then
                offerPublished && pendingLocalCandidates == [] &&
                out == [OfferOut] + CandidatesOut(old(pendingLocalCandidates))
              else
                out == [] && Contents() == old(Contents())
    {
      out := [];
      if peer != Some(ownedPeer) {
        return;
      }
      out := [OfferOut];
      offerPublished := true;
      var i := 0;
      while i < |pendingLocalCandidates|
        invariant 0 <= i <= |pendingLocalCandidates|
        invariant Contents() == old(Contents()).(offered := true)
        invariant out == [OfferOut] + CandidatesOut(pendingLocalCandidates[..i])
      {
        OneMoreOut(pendingLocalCandidates[..i], pendingLocalCandidates[i]);
        assert pendingLocalCandidates[..i + 1] == pendingLocalCandidates[..i] + [pendingLocalCandidates[i]];
        out := out + [CandidateOut(pendingLocalCandidates[i])];
        i := i + 1;
      }
      assert pendingLocalCandidates[..i] == pendingLocalCandidates;
      pendingLocalCandidates := [];
    }

    /** A batch that arrives before the answer is applied. */
    method HoldRemote(candidates: seq<Candidate>) returns (ok: bool)
      modifies this`pendingRemoteCandidates
      ensures (pendingRemoteCandidates, ok) == Hold(old(pendingRemoteCandidates), candidates)
    {
      assert candidates[0..] == candidates;
      var i := 0;
      while i < |candidates|
        invariant 0 <= i <= |candidates|
        invariant Hold(pendingRemoteCandidates, candidates[i..]) == Hold(old(pendingRemoteCandidates), candidates)
      {
        HoldStep(pendingRemoteCandidates, candidates, i);
        if !candidates[i].valid {
          return false;
        }
        if |pendingRemoteCandidates| == MAXIMUM_PENDING {
          return false;
        }
        pendingRemoteCandidates := pendingRemoteCandidates + [candidates[i]];
        i := i + 1;
      }
      return true;
    }
  }

  // ---------------------------------------------------------------------------------------------
  // Deliveries.
  // ---------------------------------------------------------------------------------------------

  datatype Out = OfferOut | CandidateOut(candidate: Candidate)

  function CandidatesOut(candidates: seq<Candidate>): seq<Out> {
    if candidates == [] then []
    else CandidatesOut(candidates[..|candidates| - 1]) + [CandidateOut(candidates[|candidates| - 1])]
  }

  /** Where the message being delivered waits. */
  datatype Handler =
    | Idle
    | CreatingOffer(p: PeerId)
    | SettingLocal(p: PeerId)
    | Describing(p: PeerId)
    | Flushing(p: PeerId, added: nat)
    | Adding(p: PeerId, rest: seq<Candidate>)

  /**
   One peer connection: the token and the queue position of the message that started it, the local
   candidates it gathered while current, what was published for it and under which tokens, the remote
   candidates accepted for it and those added to it.
   */
  datatype Peer = Peer(token: Token, start: nat, gathered: seq<Candidate>, out: seq<Out>, tokens: set<Token>,
                       received: seq<Candidate>, added: seq<Candidate>, described: bool)

  /** `queue`: every message that joined the delivery chain; those before `next` have been taken. */
  datatype State = State(core: Core, handler: Handler, queue: seq<Message>, next: nat, peers: seq<Peer>)

  const START := State(NEW, Idle, [], 0, [])

  datatype Action =
    | Arrive(m: Message)
    | Deliver
    | Resume(ok: bool)
    | Gathered(p: PeerId, candidate: Candidate)
    | Fault                      // a deadline, a decoding error, an audio error

  /** What a step does. The logs it extends are those of the newest peer. */
  datatype Move = Move(core: Core, handler: Handler, queued: seq<Message>, taken: nat, created: bool,
                       gathered: seq<Candidate>, out: seq<Out>, received: seq<Candidate>, added: seq<Candidate>,
                       described: bool)

  function Go(core: Core, handler: Handler, taken: nat): Move {
    Move(core, handler, [], taken, false, [], [], [], [], false)
  }

  function Fail(c: Core, taken: nat): Move {
    Go(Closed(c), Idle, taken)
  }

  function MoveOf(s: State, action: Action): Option<Move> {
    MoveFrom(s.core, s.handler, |s.peers|, Upcoming(s), action)
  }

  function Upcoming(s: State): Option<Message> {
    if s.next < |s.queue| then Some(s.queue[s.next]) else None
  }

  /** `id` is the identifier a new peer gets, and `upcoming` the message first in the queue. */
  function MoveFrom(c: Core, h: Handler, id: PeerId, upcoming: Option<Message>, action: Action): Option<Move> {
    match action
    case Arrive(m) =>
      if m.Stop? && c.token == Some(m.token) then Some(Go(Closed(c), h, 0))
      else Some(Move(c, h, [m], 0, false, [], [], [], [], false))
    case Deliver => if h.Idle? && upcoming.Some? then Some(DeliverMove(c, id, upcoming.value)) else None
    case Resume(ok) =>
      if h.Idle? then None
      else if !ok then Some(Fail(c, 0))
      else if c.peer != Some(h.p) then Some(Go(c, Idle, 0))
      else Some(ResumeMove(c, h))
    case Gathered(p, candidate) =>
      var (core, r) := Gather(c, p, candidate);
      Some(Move(core, h, [], 0, false, if r.Ignored? || r.Overflowed? then [] else [candidate],
                if r.Published? then [CandidateOut(candidate)] else [], [], [], false))
    case Fault => if c.peer.Some? then Some(Go(Closed(c), h, 0)) else None
  }

  function DeliverMove(c: Core, id: PeerId, m: Message): Move {
    if m.Start? then
      if !m.wellFormed || c.peer.Some? then Fail(c, 1)
      else if !m.supported then Fail(c.(token := Some(m.token)), 1)
      else
        Move(Core(Some(id), Some(m.token), c.described, c.remote, c.local, c.offered), CreatingOffer(id), [], 1,
             true, [], [], [], [], false)
    else if c.token != Some(m.token) then Fail(c, 1)
    else if m.Stop? then Go(Closed(c), Idle, 1)
    else if c.peer.None? then Fail(c, 1)
    else
      match m
      case Answer(_, valid) => if valid then Go(c, Describing(c.peer.value), 1) else Fail(c, 1)
      case Ice(_, candidates) =>
        if |candidates| > MAXIMUM_BATCH then Fail(c, 1)
        else if c.described then AddNext(c, c.peer.value, candidates, 1)
        else
          var (remote, ok) := Hold(c.remote, candidates);
          Move(if ok then c.(remote := remote) else Closed(c), Idle, [], 1, false, [], [], remote[|c.remote|..], [], false)
      case _ => Fail(c, 1)
  }

  /** The next candidate of a batch goes straight to the peer, which is awaited. */
  function AddNext(c: Core, p: PeerId, rest: seq<Candidate>, taken: nat): Move {
    if rest == [] then Go(c, Idle, taken)
    else if !rest[0].valid then Fail(c, taken)
    else Move(c, Adding(p, rest[1..]), [], taken, false, [], [], [rest[0]], [rest[0]], false)
  }

  function FlushNext(c: Core, p: PeerId, done: nat, described: bool): Move {
    if done < |c.remote| then
      Move(c, Flushing(p, done + 1), [], 0, false, [], [], [], [c.remote[done]], described)
    else Move(c.(remote := []), Idle, [], 0, false, [], [], [], [], described)
  }

  /** The message goes on, and its peer is still the current one. */
  function ResumeMove(c: Core, handler: Handler): Move
    requires !handler.Idle?
  {
    match handler
    case CreatingOffer(p) => Go(c, SettingLocal(p), 0)
    case SettingLocal(p) =>
      Move(c.(offered := true, local := []), Idle, [], 0, false, [], [OfferOut] + CandidatesOut(c.local), [], [], false)
    case Describing(p) => FlushNext(c.(described := true), p, 0, true)
    case Flushing(p, done) => FlushNext(c, p, done, false)
    case Adding(p, rest) => AddNext(c, p, rest, 0)
  }

  function Plus<T>(s: seq<T>, more: seq<T>): seq<T> {
    if more == [] then s else s + more
  }

  function Extended(l: Peer, m: Move, token: Option<Token>): Peer {
    Peer(l.token, l.start, Plus(l.gathered, m.gathered), Plus(l.out, m.out),
         if m.out != [] && token.Some? then l.tokens + {token.value} else l.tokens,
         Plus(l.received, m.received), Plus(l.added, m.added), l.described || m.described)
  }

  function PeersAfter(s: State, m: Move): seq<Peer> {
    if m.created && m.core.token.Some? then
      s.peers + [Peer(m.core.token.value, s.next, [], [], {}, [], [], false)]
    else if s.peers == [] then []
    else s.peers[..|s.peers| - 1] + [Extended(s.peers[|s.peers| - 1], m, m.core.token)]
  }

  function Apply(s: State, m: Move): State {
    State(m.core, m.handler, s.queue + m.queued, s.next + m.taken, PeersAfter(s, m))
  }

  function Next(s: State, action: Action): Option<State> {
    var m := MoveOf(s, action);
    if m.None? then None else Some(Apply(s, m.value))
  }

  // ---------------------------------------------------------------------------------------------
  // What every step keeps.
  // ---------------------------------------------------------------------------------------------

  /** The remote candidates of those messages i, i + 1, ..., j - 1 that carry the token, in order. */
  function CandidatesFor(token: Token, queue: seq<Message>, i: nat, j: nat): seq<Candidate>
    requires j <= |queue|
  {
    if i >= j then [] else Plus(CandidatesFor(token, queue, i, j - 1), Carried(token, queue[j - 1]))
  }

  function Carried(token: Token, m: Message): seq<Candidate> {
    if m.Ice? && m.token == token then m.candidates else []
  }

  function Rest(h: Handler): seq<Candidate> {
    if h.Adding? then h.rest else []
  }

  /** Before the offer everything gathered is held; after it everything gathered is out. */
  ghost predicate LocalAgrees(c: Core, l: Peer) {
    && |c.local| <= MAXIMUM_PENDING
    && if c.offered then c.local == [] && l.out == [OfferOut] + CandidatesOut(l.gathered)
       else l.out == [] && l.gathered == c.local
  }

  /** Before the answer everything received is held; then what is held is added, in order, and then the rest directly. */
  ghost predicate RemoteAgrees(c: Core, h: Handler, l: Peer) {
    && |c.remote| <= MAXIMUM_PENDING && c.described == l.described
    && (h.Flushing? || h.Adding? ==> c.described)
    && if h.Flushing? then h.added <= |c.remote| && l.received == l.added + c.remote[h.added..]
       else if c.described then c.remote == [] && l.received == l.added
       else l.added == [] && l.received == c.remote
  }

  /** For the current peer; `sent` is what the messages taken since its start carried for it. */
  ghost predicate CurrentAgrees(c: Core, h: Handler, l: Peer, sent: seq<Candidate>) {
    LocalAgrees(c, l) && RemoteAgrees(c, h, l) && Plus(l.received, Rest(h)) == sent
    && (h.CreatingOffer? || h.SettingLocal? ==> !c.offered)
  }

  /** For every peer, for ever. */
  ghost predicate PeerAgrees(l: Peer, sent: seq<Candidate>) {
    && (l.out == [] || l.out == [OfferOut] + CandidatesOut(l.gathered))
    && l.tokens <= {l.token}
    && l.received <= sent && (forall c <- l.received :: c.valid)
    && l.added <= l.received && (l.added != [] ==> l.described)
  }

  /** What the messages taken so far carried for a peer behind its start. */
  function SentTo(queue: seq<Message>, next: nat, l: Peer): seq<Candidate>
    requires next <= |queue|
  {
    CandidatesFor(l.token, queue, l.start + 1, next)
  }

  function Sent(s: State, l: Peer): seq<Candidate>
    requires s.next <= |s.queue|
  {
    SentTo(s.queue, s.next, l)
  }

  ghost predicate Wired(s: State) {
    && s.next <= |s.queue|
    && (s.core.peer.Some? ==> s.core.peer.value + 1 == |s.peers| && s.core.token == Some(s.peers[s.core.peer.value].token))
    && (!s.handler.Idle? ==> s.handler.p + 1 == |s.peers|)
    && (s.core.peer.None? ==> s.core == Closed(s.core))
    && forall i | 0 <= i < |s.peers| :: s.peers[i].start < s.next
  }

  ghost predicate Inv(s: State) {
    && Wired(s)
    && (forall i | 0 <= i < |s.peers| :: PeerAgrees(s.peers[i], Sent(s, s.peers[i])))
    && (s.core.peer.Some? ==>
          var l := s.peers[|s.peers| - 1];
          CurrentAgrees(s.core, s.handler, l, Sent(s, l)))
  }

  /** What a move has to do right for the current peer, whose log becomes `l'`. */
  ghost predicate Keeps(c: Core, m: Move, l': Peer, sent: seq<Candidate>) {
    && PeerAgrees(l', sent)
    && (m.core.peer == c.peer ==> m.core.token == c.token && CurrentAgrees(m.core, m.handler, l', sent))
    && (m.core.peer != c.peer ==> m.core == Closed(c))
  }

  /** The current peer, its log, and the candidates sent to it so far. */
  ghost predicate IsCurrent(c: Core, h: Handler, l: Peer, sent: seq<Candidate>) {
    c.peer.Some? && c.token == Some(l.token) && CurrentAgrees(c, h, l, sent) && PeerAgrees(l, sent)
  }

  lemma OneMoreOut(a: seq<Candidate>, c: Candidate)
    ensures CandidatesOut(a + [c]) == CandidatesOut(a) + [CandidateOut(c)]
  {
    assert (a + [c])[..|a|] == a;
  }

  /** A peer that agrees as current one agrees for ever. */
  lemma CurrentIsKept(c: Core, h: Handler, l: Peer, sent: seq<Candidate>)
    requires CurrentAgrees(c, h, l, sent) && l.tokens <= {l.token} && forall x <- l.received :: x.valid
    ensures PeerAgrees(l, sent)
  {}

  /** Closing changes no log. */
  lemma ClosingKeeps(c: Core, l: Peer, sent: seq<Candidate>, carried: seq<Candidate>, m: Move)
    requires c.peer.Some? && PeerAgrees(l, sent)
    requires m == Go(Closed(c), m.handler, m.taken)
    ensures Keeps(c, m, Extended(l, m, m.core.token), Plus(sent, carried))
  {
    assert Extended(l, m, m.core.token) == l;
  }

  /** One more local candidate, held or published. */
  lemma GatheredOne(c: Core, l: Peer, candidate: Candidate)
    requires LocalAgrees(c, l) && (c.offered || |c.local| < MAXIMUM_PENDING)
    ensures var c' := if c.offered then c else c.(local := c.local + [candidate]);
            var out := if c.offered then l.out + [CandidateOut(candidate)] else l.out;
            LocalAgrees(c', l.(gathered := l.gathered + [candidate], out := out))
  {
    OneMoreOut(l.gathered, candidate);
  }

  lemma GatherKeeps(c: Core, h: Handler, l: Peer, sent: seq<Candidate>, p: PeerId, candidate: Candidate, m: Move)
    requires IsCurrent(c, h, l, sent)
    requires var (core, r) := Gather(c, p, candidate);
             m == Move(core, h, [], 0, false, if r.Ignored? || r.Overflowed? then [] else [candidate],
                       if r.Published? then [CandidateOut(candidate)] else [], [], [], false)
    ensures Keeps(c, m, Extended(l, m, m.core.token), sent)
  {
    var l' := Extended(l, m, m.core.token);
    if m.gathered == [] {
      assert l' == l;
    } else {
      GatheredOne(c, l, candidate);
      assert l' == l.(gathered := l.gathered + [candidate],
                      out := if c.offered then l.out + [CandidateOut(candidate)] else l.out, tokens := l'.tokens);
      CurrentIsKept(m.core, h, l', sent);
    }
  }

  /** The next candidate of a batch: `rest` is what the message still carries. */
  lemma AddNextKeeps(c: Core, h: Handler, l: Peer, sent: seq<Candidate>, rest: seq<Candidate>, taken: nat)
    requires c.peer.Some? && c.token == Some(l.token) && LocalAgrees(c, l) && RemoteAgrees(c, h, l)
    requires !h.Flushing? && c.described && l.received + rest == sent
    requires l.tokens <= {l.token} && forall x <- l.received :: x.valid
    ensures var m := AddNext(c, c.peer.value, rest, taken);
            Keeps(c, m, Extended(l, m, m.core.token), sent)
  {
    var m := AddNext(c, c.peer.value, rest, taken);
    var l' := Extended(l, m, m.core.token);
    if m.core.peer == c.peer {
      assert l'.received + Rest(m.handler) == sent;
      CurrentIsKept(m.core, m.handler, l', sent);
    } else {
      assert l' == l;
      CurrentIsKept(c, Adding(c.peer.value, rest), l, sent);
    }
  }

  lemma FlushNextRemote(c: Core, l: Peer, done: nat, described: bool)
    requires c.peer.Some? && c.described && (described || l.described) && |c.remote| <= MAXIMUM_PENDING
    requires done <= |c.remote| && l.received == l.added + c.remote[done..]
    ensures var m := FlushNext(c, c.peer.value, done, described);
            RemoteAgrees(m.core, m.handler, Extended(l, m, m.core.token))
  {
    if done < |c.remote| {
      var x, rest := c.remote[done], c.remote[done + 1..];
      assert c.remote[done..] == [x] + rest;
      assert l.added + ([x] + rest) == (l.added + [x]) + rest;
    } else {
      assert c.remote[done..] == [];
    }
  }

  /** The next held candidate: those before `done` are added. */
  lemma FlushNextKeeps(c: Core, l: Peer, sent: seq<Candidate>, done: nat, described: bool)
    requires c.peer.Some? && c.token == Some(l.token) && LocalAgrees(c, l)
    requires c.described && (described || l.described) && |c.remote| <= MAXIMUM_PENDING
    requires done <= |c.remote| && l.received == l.added + c.remote[done..] && l.received == sent
    requires l.tokens <= {l.token} && forall x <- l.received :: x.valid
    ensures var m := FlushNext(c, c.peer.value, done, described);
            Keeps(c, m, Extended(l, m, m.core.token), sent)
  {
    var m := FlushNext(c, c.peer.value, done, described);
    var l' := Extended(l, m, m.core.token);
    FlushNextRemote(c, l, done, described);
    assert l'.received == l.received && l'.out == l.out && l'.gathered == l.gathered && l'.tokens == l.tokens;
    CurrentIsKept(m.core, m.handler, l', sent);
  }

  lemma PublishKeeps(c: Core, h: Handler, l: Peer, sent: seq<Candidate>, p: PeerId)
    requires IsCurrent(c, h, l, sent) && h == SettingLocal(p)
    ensures var m := ResumeMove(c, h);
            Keeps(c, m, Extended(l, m, m.core.token), sent)
  {
    var m := ResumeMove(c, h);
    CurrentIsKept(m.core, m.handler, Extended(l, m, m.core.token), sent);
  }

  lemma DescribeKeeps(c: Core, h: Handler, l: Peer, sent: seq<Candidate>, p: PeerId)
    requires IsCurrent(c, h, l, sent) && h == Describing(p) && p == c.peer.value
    ensures var m := ResumeMove(c, h);
            Keeps(c, m, Extended(l, m, m.core.token), sent)
  {
    FlushNextKeeps(c.(described := true), l, sent, 0, true);
  }

  lemma ResumeKeeps(c: Core, h: Handler, l: Peer, sent: seq<Candidate>)
    requires IsCurrent(c, h, l, sent) && !h.Idle? && h.p == c.peer.value
    ensures var m := ResumeMove(c, h);
            Keeps(c, m, Extended(l, m, m.core.token), sent)
  {
    match h
    case CreatingOffer(p) => assert Extended(l, ResumeMove(c, h), c.token) == l;
    case SettingLocal(p) => PublishKeeps(c, h, l, sent, p);
    case Describing(p) => DescribeKeeps(c, h, l, sent, p);
    case Flushing(p, done) => FlushNextKeeps(c, l, sent, done, false);
    case Adding(p, rest) => AddNextKeeps(c, h, l, sent, rest, 0);
  }

  lemma HoldKeeps(c: Core, h: Handler, l: Peer, sent: seq<Candidate>, candidates: seq<Candidate>, m: Move)
    requires IsCurrent(c, h, l, sent) && h.Idle? && !c.described
    requires var (remote, ok) := Hold(c.remote, candidates);
             m == Move(if ok then c.(remote := remote) else Closed(c), Idle, [], 1, false, [], [],
                       remote[|c.remote|..], [], false)
    ensures Keeps(c, m, Extended(l, m, m.core.token), sent + candidates)
  {
    var (remote, ok) := Hold(c.remote, candidates);
    var l' := Extended(l, m, m.core.token);
    assert l.received == c.remote == sent && l.added == [];
    assert c.remote + remote[|c.remote|..] == remote;
    assert l' == Peer(l.token, l.start, l.gathered, l.out, l.tokens, remote, [], false);
    if ok {
      CurrentIsKept(m.core, m.handler, l', sent + candidates);
    } else {
      HeldIsKept(l, remote, sent + candidates);
    }
  }

  /** A batch refused in the middle leaves a log that agrees. */
  lemma HeldIsKept(l: Peer, remote: seq<Candidate>, sent: seq<Candidate>)
    requires PeerAgrees(l, l.received) && remote <= sent && forall c <- remote :: c.valid
    ensures PeerAgrees(Peer(l.token, l.start, l.gathered, l.out, l.tokens, remote, [], false), sent)
  {}

  /** The message carried nothing for the peer, or closes it. */
  lemma DeliverKeeps(c: Core, l: Peer, sent: seq<Candidate>, id: PeerId, message: Message)
    requires IsCurrent(c, Idle, l, sent)
    ensures var m := DeliverMove(c, id, message);
            !m.created && Keeps(c, m, Extended(l, m, m.core.token), Plus(sent, Carried(l.token, message)))
  {
    var m := DeliverMove(c, id, message);
    var l' := Extended(l, m, m.core.token);
    if m == Go(Closed(c), Idle, 1) {
      ClosingKeeps(c, l, sent, Carried(l.token, message), m);
    } else if message.Answer? {
      assert l' == l;
    } else if c.described {
      AddNextKeeps(c, Idle, l, sent + message.candidates, message.candidates, 1);
    } else {
      HoldKeeps(c, Idle, l, sent, message.candidates, m);
    }
  }

  /** What the message taken by a move carries for a peer. */
  function Newly(m: Move, l: Peer, upcoming: Option<Message>): seq<Candidate> {
    if m.taken == 1 && upcoming.Some? then Carried(l.token, upcoming.value) else []
  }

  lemma {:induction false} ArrivalsChangeNothing(token: Token, queue: seq<Message>, more: seq<Message>, i: nat, j: nat)
    requires j <= |queue|
    ensures CandidatesFor(token, queue + more, i, j) == CandidatesFor(token, queue, i, j)
    decreases j
  {
    if i < j {
      ArrivalsChangeNothing(token, queue, more, i, j - 1);
    }
  }

  lemma OneMoreSent(queue: seq<Message>, more: seq<Message>, next: nat, l: Peer)
    requires next < |queue| && l.start < next
    ensures SentTo(queue + more, next + 1, l) == Plus(SentTo(queue, next, l), Carried(l.token, queue[next]))
  {
    ArrivalsChangeNothing(l.token, queue, more, l.start + 1, next);
  }

  lemma SentStays(s: State, m: Move, l: Peer)
    requires s.next <= |s.queue| && l.start < s.next && m.taken == 0
    ensures Sent(Apply(s, m), l) == Sent(s, l)
  {
    ArrivalsChangeNothing(l.token, s.queue, m.queued, l.start + 1, s.next);
  }

  lemma SentTakes(s: State, m: Move, l: Peer)
    requires s.next < |s.queue| && l.start < s.next && m.taken == 1
    ensures Sent(Apply(s, m), l) == Plus(Sent(s, l), Carried(l.token, s.queue[s.next]))
  {
    OneMoreSent(s.queue, m.queued, s.next, l);
  }

  /** What has been sent to a peer grows by what the message just taken carries. */
  lemma SentGrows(s: State, m: Move, l: Peer)
    requires s.next <= |s.queue| && l.start < s.next
    requires m.taken == 0 || (m.taken == 1 && s.next < |s.queue|)
    ensures Sent(Apply(s, m), l) == Plus(Sent(s, l), Newly(m, l, Upcoming(s)))
  {
    if m.taken == 1 {
      SentTakes(s, m, l);
    } else {
      SentStays(s, m, l);
    }
  }

  /** A peer's log that does not change still agrees when more is sent. */
  lemma MoreIsSent(l: Peer, sent: seq<Candidate>, more: seq<Candidate>)
    requires PeerAgrees(l, sent)
    ensures PeerAgrees(l, Plus(sent, more))
  {}

  /** What every move keeps of the wiring, whichever it is. */
  ghost predicate Plain(s: State, m: Move) {
    && (m.taken == 0 || (m.taken == 1 && s.next < |s.queue|))
    && (m.created ==> m.taken == 1 && s.core.peer.None? && m.handler == CreatingOffer(|s.peers|) &&
                      m.core == Core(Some(|s.peers|), m.core.token, false, [], [], false) && m.core.token.Some?)
    && (!m.created ==> (m.core.peer == s.core.peer && m.core.token == s.core.token) || m.core.peer.None?)
    && (m.core.peer.None? ==> m.core == Closed(m.core))
    && (!m.created ==> m.handler.Idle? || (!s.handler.Idle? && m.handler.p == s.handler.p) ||
                       (s.core.peer.Some? && m.handler.p == s.core.peer.value))
    && (!m.created && s.core.peer.None? ==>
          m.core.peer.None? && m.gathered == [] && m.out == [] && m.received == [] && m.added == [] && !m.described)
  }

  lemma DeliveriesArePlain(s: State)
    requires Wired(s) && s.handler.Idle? && s.next < |s.queue|
    ensures Plain(s, DeliverMove(s.core, |s.peers|, s.queue[s.next]))
  {}

  lemma ContinuationsArePlain(s: State)
    requires Wired(s) && !s.handler.Idle? && s.core.peer == Some(s.handler.p)
    ensures Plain(s, ResumeMove(s.core, s.handler))
  {}

  lemma MovesArePlain(s: State, action: Action)
    requires Wired(s) && MoveOf(s, action).Some?
    ensures Plain(s, MoveOf(s, action).value)
  {
    if action.Deliver? {
      DeliveriesArePlain(s);
    } else if action == Resume(true) && s.core.peer == Some(s.handler.p) {
      ContinuationsArePlain(s);
    }
  }

  lemma PlainKeepsWired(s: State, m: Move)
    requires Wired(s) && Plain(s, m)
    ensures Wired(Apply(s, m))
  {}

  lemma FailKeeps(c: Core, l: Peer, sent: seq<Candidate>, h: Handler)
    requires c.peer.Some? && PeerAgrees(l, sent)
    ensures var m := Go(Closed(c), h, 0);
            Keeps(c, m, Extended(l, m, m.core.token), sent)
  {
    assert Extended(l, Go(Closed(c), h, 0), c.token) == l;
  }

  /** A message that only joins the queue changes neither the host nor a log. */
  lemma QueueingKeeps(c: Core, h: Handler, l: Peer, sent: seq<Candidate>, message: Message)
    requires IsCurrent(c, h, l, sent)
    ensures var m := Move(c, h, [message], 0, false, [], [], [], [], false);
            Keeps(c, m, Extended(l, m, m.core.token), sent)
  {
    assert Extended(l, Move(c, h, [message], 0, false, [], [], [], [], false), c.token) == l;
  }

  /** A move other than a delivery takes no message, so nothing more is sent. */
  lemma OtherMoveKeeps(c: Core, h: Handler, l: Peer, sent: seq<Candidate>, id: PeerId, upcoming: Option<Message>,
                       action: Action)
    requires IsCurrent(c, h, l, sent) && (!h.Idle? ==> h.p == c.peer.value) && !action.Deliver?
    requires MoveFrom(c, h, id, upcoming, action).Some?
    ensures var m := MoveFrom(c, h, id, upcoming, action).value;
            m.taken == 0 && Keeps(c, m, Extended(l, m, m.core.token), sent)
  {
    match action
    case Arrive(message) =>
      if message.Stop? && c.token == Some(message.token) {
        FailKeeps(c, l, sent, h);
      } else {
        QueueingKeeps(c, h, l, sent, message);
      }
    case Resume(ok) =>
      if ok {
        ResumeKeeps(c, h, l, sent);
        ResumeTakesNothing(c, h);
      } else {
        FailKeeps(c, l, sent, Idle);
      }
    case Gathered(p, candidate) => GatherKeeps(c, h, l, sent, p, candidate, MoveFrom(c, h, id, upcoming, action).value);
    case Fault => FailKeeps(c, l, sent, h);
  }

  lemma ResumeTakesNothing(c: Core, h: Handler)
    requires !h.Idle?
    ensures ResumeMove(c, h).taken == 0
  {}

  lemma MoveKeeps(c: Core, h: Handler, l: Peer, sent: seq<Candidate>, id: PeerId, upcoming: Option<Message>,
                  action: Action)
    requires IsCurrent(c, h, l, sent) && (!h.Idle? ==> h.p == c.peer.value)
    requires MoveFrom(c, h, id, upcoming, action).Some?
    ensures var m := MoveFrom(c, h, id, upcoming, action).value;
            Keeps(c, m, Extended(l, m, m.core.token), Plus(sent, Newly(m, l, upcoming)))
  {
    var m := MoveFrom(c, h, id, upcoming, action).value;
    if action.Deliver? {
      DeliverKeeps(c, l, sent, id, upcoming.value);
      assert m.taken == 1;
    } else {
      OtherMoveKeeps(c, h, l, sent, id, upcoming, action);
    }
  }

  /** A peer whose log does not change goes on agreeing. */
  lemma OldPeerKept(s: State, m: Move, l: Peer)
    requires s.next <= |s.queue| && l.start < s.next && PeerAgrees(l, Sent(s, l))
    requires m.taken == 0 || (m.taken == 1 && s.next < |s.queue|)
    ensures PeerAgrees(l, Sent(Apply(s, m), l))
  {
    SentGrows(s, m, l);
    MoreIsSent(l, Sent(s, l), Newly(m, l, Upcoming(s)));
  }

  /** A new peer starts with nothing sent to it. */
  lemma NewPeer(s: State, m: Move)
    requires Wired(s) && Plain(s, m) && m.created
    ensures var s' := Apply(s, m);
            var l := s'.peers[|s.peers|];
            Sent(s', l) == [] && PeerAgrees(l, []) && CurrentAgrees(s'.core, s'.handler, l, [])
  {
    var s' := Apply(s, m);
  }

  /** With no current peer a move extends no log. */
  lemma StartKeeps(s: State, m: Move)
    requires Inv(s) && Plain(s, m) && s.core.peer.None?
    ensures Inv(Apply(s, m))
  {
    var s' := Apply(s, m);
    PlainKeepsWired(s, m);
    NothingExtended(s, m);
    forall i | 0 <= i < |s'.peers| ensures PeerAgrees(s'.peers[i], Sent(s', s'.peers[i])) {
      if i < |s.peers| {
        OldPeerKept(s, m, s.peers[i]);
      } else {
        NewPeer(s, m);
      }
    }
    if m.created {
      NewPeer(s, m);
    }
  }

  lemma NothingExtended(s: State, m: Move)
    requires Wired(s) && Plain(s, m) && s.core.peer.None?
    ensures forall i | 0 <= i < |s.peers| :: Apply(s, m).peers[i] == s.peers[i]
    ensures |Apply(s, m).peers| == if m.created then |s.peers| + 1 else |s.peers|
  {
    if s.peers != [] {
      var l := s.peers[|s.peers| - 1];
      assert !m.created ==> Extended(l, m, m.core.token) == l;
    }
  }

  lemma CurrentKeeps(s: State, m: Move)
    requires Inv(s) && Plain(s, m) && s.core.peer.Some? && !m.created
    requires var l := s.peers[|s.peers| - 1];
             Keeps(s.core, m, Extended(l, m, m.core.token), Plus(Sent(s, l), Newly(m, l, Upcoming(s))))
    ensures Inv(Apply(s, m))
  {
    var s' := Apply(s, m);
    PlainKeepsWired(s, m);
    var n := |s.peers| - 1;
    NewestSent(s, m);
    forall i | 0 <= i < |s'.peers| ensures PeerAgrees(s'.peers[i], Sent(s', s'.peers[i])) {
      if i < n {
        OldPeerKept(s, m, s.peers[i]);
        assert s'.peers[i] == s.peers[i];
      }
    }
  }

  lemma NewestSent(s: State, m: Move)
    requires Wired(s) && Plain(s, m) && s.core.peer.Some? && !m.created
    ensures var s', l := Apply(s, m), s.peers[|s.peers| - 1];
            && |s'.peers| == |s.peers| && s'.peers[|s.peers| - 1] == Extended(l, m, m.core.token)
            && Sent(s', Extended(l, m, m.core.token)) == Plus(Sent(s, l), Newly(m, l, Upcoming(s)))
  {
    var l := s.peers[|s.peers| - 1];
    SentGrows(s, m, l);
    SameSent(Apply(s, m), l, Extended(l, m, m.core.token));
  }

  lemma SameSent(s: State, l: Peer, l': Peer)
    requires l.start < s.next <= |s.queue| && l'.start == l.start && l'.token == l.token
    ensures Sent(s, l) == Sent(s, l')
  {}

  lemma StepKeepsInv(s: State, action: Action)
    requires Inv(s) && Next(s, action).Some?
    ensures Inv(Next(s, action).value)
  {
    var m := MoveOf(s, action).value;
    MovesArePlain(s, action);
    if s.core.peer.Some? {
      var l := s.peers[|s.peers| - 1];
      MoveKeeps(s.core, s.handler, l, Sent(s, l), |s.peers|, Upcoming(s), action);
      CurrentKeeps(s, m);
    } else {
      StartKeeps(s, m);
    }
  }

  lemma Reachable(acts: seq<Action>, s: State)
    requires Runs.Reaches(Next, START, acts, s)
    ensures Inv(s)
  {
    forall s: State, action | Inv(s) && Next(s, action).Some? ensures Inv(Next(s, action).value) {
      StepKeepsInv(s, action);
    }
    Runs.InvariantHolds(Next, Inv, START, acts, s);
  }

  // ---------------------------------------------------------------------------------------------
  // What every run keeps.
  // ---------------------------------------------------------------------------------------------

  /** For every peer ever: nothing is published before its offer, and from then on exactly the candidates it gathered, in order. */
  lemma LocalCandidatesInOrder(acts: seq<Action>, s: State, i: nat)
    requires Runs.Reaches(Next, START, acts, s) && i < |s.peers|
    ensures var l := s.peers[i]; l.out == [] || l.out == [OfferOut] + CandidatesOut(l.gathered)
  {
    Reachable(acts, s);
    PeerByIndex(s, i);
  }

  /** Whatever is published for a peer goes out under the token of its own start; at most 32 are held back. */
  lemma PublishedUnderOwnToken(acts: seq<Action>, s: State, i: nat)
    requires Runs.Reaches(Next, START, acts, s) && i < |s.peers|
    ensures s.peers[i].tokens <= {s.peers[i].token}
    ensures s.core.peer == Some(i) ==> (s.core.offered <==> s.peers[i].out != [])
    ensures |s.core.local| <= MAXIMUM_PENDING
  {
    Reachable(acts, s);
    QueuesAreBounded(s);
    OwnToken(s, i);
  }

  lemma OwnToken(s: State, i: nat)
    requires Inv(s) && i < |s.peers|
    ensures s.peers[i].tokens <= {s.peers[i].token}
    ensures s.core.peer == Some(i) ==> (s.core.offered <==> s.peers[i].out != [])
  {
    PeerByIndex(s, i);
  }

  lemma {:induction false} CandidatesForPrefix(token: Token, queue: seq<Message>, i: nat, n: nat, j: nat)
    requires n <= j <= |queue|
    ensures CandidatesFor(token, queue, i, n) <= CandidatesFor(token, queue, i, j)
    decreases j
  {
    if n < j {
      CandidatesForPrefix(token, queue, i, n, j - 1);
    }
  }

  /**
   For every peer ever: the candidates added to it are a prefix of those that its own token's messages,
   queued behind its start, carry. So none sent for an earlier peer is ever added to a later one.
   */
  lemma RemoteCandidatesInOrder(acts: seq<Action>, s: State, i: nat)
    requires Runs.Reaches(Next, START, acts, s) && i < |s.peers|
    ensures var l := s.peers[i];
            l.start < |s.queue| && l.added <= CandidatesFor(l.token, s.queue, l.start + 1, |s.queue|)
  {
    Reachable(acts, s);
    AddedAt(s, i);
  }

  lemma AddedAt(s: State, i: nat)
    requires Inv(s) && i < |s.peers|
    ensures var l := s.peers[i];
            l.start < |s.queue| && l.added <= CandidatesFor(l.token, s.queue, l.start + 1, |s.queue|)
  {
    PeerByIndex(s, i);
    AddedInOrder(s, s.peers[i]);
  }

  /** They are all valid, none is added before the remote description is set, and at most 32 are held back. */
  lemma RemoteCandidatesWait(acts: seq<Action>, s: State, i: nat)
    requires Runs.Reaches(Next, START, acts, s) && i < |s.peers|
    ensures forall c <- s.peers[i].added :: c.valid
    ensures s.peers[i].added != [] ==> s.peers[i].described
    ensures |s.core.remote| <= MAXIMUM_PENDING
  {
    Reachable(acts, s);
    QueuesAreBounded(s);
    PeerByIndex(s, i);
    AddedInOrder(s, s.peers[i]);
  }

  lemma PeerByIndex(s: State, i: nat)
    requires Inv(s) && i < |s.peers|
    ensures s.peers[i].start < s.next <= |s.queue| && PeerAgrees(s.peers[i], Sent(s, s.peers[i]))
  {}

  lemma QueuesAreBounded(s: State)
    requires Inv(s)
    ensures |s.core.local| <= MAXIMUM_PENDING && |s.core.remote| <= MAXIMUM_PENDING
  {}

  lemma AddedInOrder(s: State, l: Peer)
    requires l.start < s.next <= |s.queue| && PeerAgrees(l, Sent(s, l))
    ensures l.added <= CandidatesFor(l.token, s.queue, l.start + 1, |s.queue|) && forall c <- l.added :: c.valid
  {
    CandidatesForPrefix(l.token, s.queue, l.start + 1, s.next, |s.queue|);
    forall c <- l.added ensures c.valid {
      assert c in l.received;
    }
  }

  /** And none is forgotten: between deliveries an answered peer has been given everything sent to it. */
  lemma NothingIsForgotten(acts: seq<Action>, s: State)
    requires Runs.Reaches(Next, START, acts, s)
    requires s.core.peer.Some? && s.core.peer.value < |s.peers| && s.handler.Idle? && s.core.described
    ensures var l := s.peers[s.core.peer.value];
            l.start < s.next <= |s.queue| && l.added == CandidatesFor(l.token, s.queue, l.start + 1, s.next)
  {
    Reachable(acts, s);
    AddedAll(s);
  }

  lemma AddedAll(s: State)
    requires Inv(s) && s.core.peer.Some? && s.core.peer.value < |s.peers| && s.handler.Idle? && s.core.described
    ensures var l := s.peers[s.core.peer.value];
            l.start < s.next <= |s.queue| && l.added == CandidatesFor(l.token, s.queue, l.start + 1, s.next)
  {
    PeerByIndex(s, s.core.peer.value);
  }

  /** While a message is being delivered for a peer no other is current: its failure can only close that peer. */
  lemma DeliveryOwnsItsPeer(acts: seq<Action>, s: State)
    requires Runs.Reaches(Next, START, acts, s) && !s.handler.Idle?
    ensures s.core.peer == None || s.core.peer == Some(s.handler.p)
  {
    Reachable(acts, s);
    WiredOwns(s);
  }

  lemma WiredOwns(s: State)
    requires Wired(s) && !s.handler.Idle?
    ensures s.core.peer == None || s.core.peer == Some(s.handler.p)
  {}

  /** A peer that is no longer current is never touched again: nothing is published for it or added to it. */
  lemma ClosedForEver(before: seq<Action>, s: State, after: seq<Action>, s': State, i: nat)
    requires Runs.Reaches(Next, START, before, s) && Runs.Reaches(Next, s, after, s')
    requires i < |s.peers| && s.core.peer != Some(i)
    ensures i < |s'.peers| && s'.peers[i] == s.peers[i] && s'.core.peer != Some(i)
  {
    Reachable(before, s);
    ClosedThroughout(s, after, s', i);
  }

  /**
   A stop under the current token takes effect at once, whatever is being delivered, and for good: in no
   continuation is anything more published for its peer or added to it.
   */
  lemma StopIsFinal(before: seq<Action>, s: State, token: Token, stopped: State, after: seq<Action>, s': State)
    requires Runs.Reaches(Next, START, before, s)
    requires s.core.peer.Some? && s.core.peer.value < |s.peers| && s.core.token == Some(token)
    requires Next(s, Arrive(Stop(token))) == Some(stopped) && Runs.Reaches(Next, stopped, after, s')
    ensures var p := s.core.peer.value;
            stopped.core.peer.None? && p < |s'.peers| && s'.peers[p] == s.peers[p] && s'.core.peer != Some(p)
  {
    Reachable(before, s);
    StopCloses(s, token);
    ClosedThroughout(stopped, after, s', s.core.peer.value);
  }

  lemma StopCloses(s: State, token: Token)
    requires Wired(s) && s.core.token == Some(token)
    ensures Next(s, Arrive(Stop(token))).Some?
    ensures var stopped := Next(s, Arrive(Stop(token))).value;
            Wired(stopped) && stopped.core.peer.None? && stopped.peers == s.peers
  {
    var m := Go(Closed(s.core), s.handler, 0);
    MovesArePlain(s, Arrive(Stop(token)));
    PlainKeepsWired(s, m);
    if s.peers != [] {
      var l := s.peers[|s.peers| - 1];
      assert Extended(l, m, m.core.token) == l;
      assert s.peers == s.peers[..|s.peers| - 1] + [l];
    }
  }

  lemma {:induction false} ClosedThroughout(s: State, acts: seq<Action>, s': State, i: nat)
    requires Wired(s) && i < |s.peers| && s.core.peer != Some(i)
    requires Runs.Reaches(Next, s, acts, s')
    ensures i < |s'.peers| && s'.peers[i] == s.peers[i] && s'.core.peer != Some(i)
    decreases |acts|
  {
    if acts != [] {
      MovesArePlain(s, acts[0]);
      PlainKeepsWired(s, MoveOf(s, acts[0]).value);
      ClosedStaysClosed(s, MoveOf(s, acts[0]).value, i);
      ClosedThroughout(Next(s, acts[0]).value, acts[1..], s', i);
    }
  }

  lemma ClosedStaysClosed(s: State, m: Move, i: nat)
    requires Wired(s) && Plain(s, m) && i < |s.peers| && s.core.peer != Some(i)
    ensures var s' := Apply(s, m); i < |s'.peers| && s'.peers[i] == s.peers[i] && s'.core.peer != Some(i)
  {
    if s.core.peer.None? {
      NothingExtended(s, m);
    }
  }

  // ---------------------------------------------------------------------------------------------
  // What is granted: candidates are kept, offers go out, answers are applied, and nothing else closes a peer.
  // ---------------------------------------------------------------------------------------------

  /** The newest peer's log becomes `l`; the queue is as it was, up to the position. */
  function With(s: State, core: Core, h: Handler, next: nat, l: Peer): State
    requires s.peers != []
  {
    State(core, h, s.queue, next, s.peers[|s.peers| - 1 := l])
  }

  lemma StepsWith(s: State, a: Action, m: Move)
    requires s.peers != [] && MoveOf(s, a) == Some(m) && !m.created && m.queued == []
    ensures Next(s, a) == Some(With(s, m.core, m.handler, s.next + m.taken, Extended(s.peers[|s.peers| - 1], m, m.core.token)))
  {
    var n := |s.peers| - 1;
    var l := Extended(s.peers[n], m, m.core.token);
    assert s.peers[..n] + [l] == s.peers[n := l];
    assert s.queue + [] == s.queue;
  }

  /**
   A candidate gathered for the current peer is published at once behind the offer and kept before it; only
   the 33rd before the offer closes the peer. One gathered for any other peer changes nothing.
   */
  lemma GatheredIsKept(acts: seq<Action>, s: State, p: PeerId, candidate: Candidate, s': State)
    requires Runs.Reaches(Next, START, acts, s) && Next(s, Gathered(p, candidate)) == Some(s')
    ensures s.core.peer != Some(p) ==> s' == s
    ensures s.core.peer == Some(p) ==>
              && p < |s.peers|
              && var l := s.peers[p];
                 if l.out == [] && |l.gathered| >= 32 then s'.core.peer.None? && s'.peers == s.peers
                 else
                   && s'.core.peer == Some(p) && p < |s'.peers|
                   && s'.peers[p].gathered == l.gathered + [candidate]
                   && s'.peers[p].out == if l.out == [] then [] else l.out + [CandidateOut(candidate)]
  {
    Reachable(acts, s);
    GatheredFrom(s, p, candidate);
  }

  lemma GatheredFrom(s: State, p: PeerId, candidate: Candidate)
    requires Inv(s)
    ensures Next(s, Gathered(p, candidate)).Some?
    ensures s.core.peer != Some(p) ==> Next(s, Gathered(p, candidate)) == Some(s)
    ensures s.core.peer == Some(p) ==>
              var s' := Next(s, Gathered(p, candidate)).value;
              && p < |s.peers|
              && var l := s.peers[p];
                 if l.out == [] && |l.gathered| >= 32 then s'.core.peer.None? && s'.peers == s.peers
                 else
                   && s'.core.peer == Some(p) && p < |s'.peers|
                   && s'.peers[p].gathered == l.gathered + [candidate]
                   && s'.peers[p].out == if l.out == [] then [] else l.out + [CandidateOut(candidate)]
  {
    var m := MoveOf(s, Gathered(p, candidate)).value;
    if s.peers == [] {
      assert s.queue + [] == s.queue;
    } else {
      StepsWith(s, Gathered(p, candidate), m);
      if m.gathered == [] {
        Unextended(s, m);
      }
    }
  }

  lemma Unextended(s: State, m: Move)
    requires s.peers != [] && m.gathered == m.received == m.added == [] && m.out == [] && !m.described
    ensures var n := |s.peers| - 1; s.peers[n := Extended(s.peers[n], m, m.core.token)] == s.peers
  {
    var n := |s.peers| - 1;
    assert Extended(s.peers[n], m, m.core.token) == s.peers[n];
  }

  // Offers.

  /** The state with the offer of a new peer out. */
  function Offered(s: State, token: Token): State {
    var peer := Peer(token, s.next, [], [OfferOut], {token}, [], [], false);
    State(Core(Some(|s.peers|), Some(token), false, [], [], true), Idle, s.queue, s.next + 1, s.peers + [peer])
  }

  function Starting(s: State, token: Token, h: Handler): State {
    var peer := Peer(token, s.next, [], [], {}, [], [], false);
    State(Core(Some(|s.peers|), Some(token), false, [], [], false), h, s.queue, s.next + 1, s.peers + [peer])
  }

  /** Without a peer a well-formed start is not refused: a run brings its peer up and its offer out, in every reachable state. */
  lemma OfferGoesOut(acts: seq<Action>, s: State, token: Token)
    requires Runs.Reaches(Next, START, acts, s)
    requires s.core.peer.None? && s.handler.Idle? && s.next < |s.queue| && s.queue[s.next] == Start(token, true, true)
    ensures Runs.Leads(Next, s, Offered(s, token))
  {
    Reachable(acts, s);
    StartIsDelivered(s, token);
    var creating := Starting(s, token, CreatingOffer(|s.peers|));
    var setting := Starting(s, token, SettingLocal(|s.peers|));
    OfferIsCreated(s, token);
    OfferIsPublished(s, token);
    Runs.ThreeSteps(Next, s, Deliver, creating, Resume(true), setting, Resume(true), Offered(s, token));
  }

  lemma StartIsDelivered(s: State, token: Token)
    requires Wired(s)
    requires s.core.peer.None? && s.handler.Idle? && s.next < |s.queue| && s.queue[s.next] == Start(token, true, true)
    ensures Next(s, Deliver) == Some(Starting(s, token, CreatingOffer(|s.peers|)))
  {
    assert s.queue + [] == s.queue;
  }

  lemma OfferIsCreated(s: State, token: Token)
    ensures Next(Starting(s, token, CreatingOffer(|s.peers|)), Resume(true)) ==
            Some(Starting(s, token, SettingLocal(|s.peers|)))
  {
    var creating := Starting(s, token, CreatingOffer(|s.peers|));
    var m := MoveOf(creating, Resume(true)).value;
    StepsWith(creating, Resume(true), m);
    Unextended(creating, m);
  }

  lemma OfferIsPublished(s: State, token: Token)
    ensures Next(Starting(s, token, SettingLocal(|s.peers|)), Resume(true)) == Some(Offered(s, token))
  {
    var setting := Starting(s, token, SettingLocal(|s.peers|));
    var m := MoveOf(setting, Resume(true)).value;
    StepsWith(setting, Resume(true), m);
    var before, after := setting.peers[|s.peers|], Offered(s, token).peers[|s.peers|];
    assert m.out == [OfferOut] + [] == [OfferOut] && [] + m.out == m.out;
    var none: set<Token> := {};
    assert none + {token} == {token};
    assert Extended(before, m, m.core.token) == after;
    assert setting.peers[|s.peers| := after] == s.peers + [after];
  }

  /** The offer of a peer goes out with every candidate it has gathered so far behind it. */
  lemma OfferBringsCandidates(acts: seq<Action>, s: State, s': State)
    requires Runs.Reaches(Next, START, acts, s) && s.handler.SettingLocal? && s.core.peer == Some(s.handler.p)
    requires Next(s, Resume(true)) == Some(s')
    ensures var p := s.handler.p;
            && p < |s.peers| && p < |s'.peers| && s.peers[p].out == []
            && s'.core.peer == Some(p) && s'.handler.Idle?
            && s'.peers[p].gathered == s.peers[p].gathered
            && s'.peers[p].out == [OfferOut] + CandidatesOut(s.peers[p].gathered)
  {
    Reachable(acts, s);
    OfferFrom(s);
  }

  lemma OfferFrom(s: State)
    requires Inv(s) && s.handler.SettingLocal? && s.core.peer == Some(s.handler.p)
    ensures Next(s, Resume(true)).Some?
    ensures var p, s' := s.handler.p, Next(s, Resume(true)).value;
            && p < |s.peers| && p < |s'.peers| && s.peers[p].out == []
            && s'.core.peer == Some(p) && s'.handler.Idle?
            && s'.peers[p].gathered == s.peers[p].gathered
            && s'.peers[p].out == [OfferOut] + CandidatesOut(s.peers[p].gathered)
  {
    OfferPending(s);
    var p := s.handler.p;
    var m := Move(s.core.(offered := true, local := []), Idle, [], 0, false, [],
                  [OfferOut] + CandidatesOut(s.core.local), [], [], false);
    StepsWith(s, Resume(true), m);
    assert [] + m.out == m.out;
    assert Extended(s.peers[p], m, m.core.token).out == m.out;
  }

  lemma OfferPending(s: State)
    requires Inv(s) && s.handler.SettingLocal? && s.core.peer == Some(s.handler.p)
    ensures |s.peers| == s.handler.p + 1
    ensures var l := s.peers[|s.peers| - 1]; l.out == [] && l.gathered == s.core.local
  {}

  // Answers.

  /** Everything held is added, and the remote description is set. */
  function Answered(s: State, next: nat): State
    requires s.core.peer.Some? && s.peers != []
  {
    var l := s.peers[|s.peers| - 1];
    With(s, s.core.(described := true, remote := []), Idle, next, l.(added := l.received, described := true))
  }

  function Flushed(s: State, done: nat): State
    requires s.core.peer.Some? && s.peers != [] && done <= |s.core.remote|
  {
    var l := s.peers[|s.peers| - 1];
    With(s, s.core.(remote := []), Idle, s.next, l.(added := l.added + s.core.remote[done..]))
  }

  lemma FlushStep(s: State, p: PeerId, done: nat)
    requires s.handler == Flushing(p, done) && s.core.peer == Some(p) && s.peers != [] && done < |s.core.remote|
    ensures var l := s.peers[|s.peers| - 1];
            var t := With(s, s.core, Flushing(p, done + 1), s.next, l.(added := l.added + [s.core.remote[done]]));
            Next(s, Resume(true)) == Some(t) && Flushed(t, done + 1) == Flushed(s, done)
  {
    var m := MoveOf(s, Resume(true)).value;
    StepsWith(s, Resume(true), m);
    var l, rest := s.peers[|s.peers| - 1], s.core.remote[done + 1..];
    assert s.core.remote[done..] == [s.core.remote[done]] + rest;
    assert l.added + ([s.core.remote[done]] + rest) == (l.added + [s.core.remote[done]]) + rest;
  }

  lemma FlushEnds(s: State, p: PeerId)
    requires s.handler == Flushing(p, |s.core.remote|) && s.core.peer == Some(p) && s.peers != []
    ensures Next(s, Resume(true)) == Some(Flushed(s, |s.core.remote|))
  {
    var m := MoveOf(s, Resume(true)).value;
    StepsWith(s, Resume(true), m);
    var l := s.peers[|s.peers| - 1];
    assert l.added + s.core.remote[|s.core.remote|..] == l.added;
  }

  lemma {:induction false} FlushLeads(s: State, p: PeerId, done: nat)
    requires s.handler == Flushing(p, done) && s.core.peer == Some(p) && s.peers != [] && done <= |s.core.remote|
    ensures Runs.Leads(Next, s, Flushed(s, done))
    decreases |s.core.remote| - done
  {
    if done == |s.core.remote| {
      FlushEnds(s, p);
      Runs.OneLeads(Next, s, Resume(true), Flushed(s, done));
    } else {
      FlushStep(s, p, done);
      var t := Next(s, Resume(true)).value;
      FlushLeads(t, p, done + 1);
      Runs.OneLeads(Next, s, Resume(true), t);
      Runs.LeadsOn(Next, s, t, Flushed(t, done + 1));
    }
  }

  function Describes(s: State): State
    requires s.core.peer.Some? && s.peers != []
  {
    With(s, s.core, Describing(s.core.peer.value), s.next + 1, s.peers[|s.peers| - 1])
  }

  lemma AnswerIsDelivered(s: State, token: Token)
    requires Inv(s) && s.core.peer.Some? && s.handler.Idle?
    requires s.core.token == Some(token) && s.next < |s.queue| && s.queue[s.next] == Answer(token, true)
    ensures s.peers != [] && Next(s, Deliver) == Some(Describes(s))
  {
    var m := MoveOf(s, Deliver).value;
    StepsWith(s, Deliver, m);
    Unextended(s, m);
  }

  /** The remote description is set, and the first of the candidates held goes to the peer. */
  function FirstAdded(t: State): State
    requires t.core.peer.Some? && t.peers != [] && t.core.remote != []
  {
    var l := t.peers[|t.peers| - 1];
    With(t, t.core.(described := true), Flushing(t.core.peer.value, 1), t.next,
         l.(added := l.added + [t.core.remote[0]], described := true))
  }

  lemma DescribedStep(t: State)
    requires t.core.peer.Some? && t.handler == Describing(t.core.peer.value) && t.peers != []
    requires var l := t.peers[|t.peers| - 1]; l.received == l.added + t.core.remote
    ensures Next(t, Resume(true)) == Some(if t.core.remote == [] then Answered(t, t.next) else FirstAdded(t))
  {
    StepsWith(t, Resume(true), MoveOf(t, Resume(true)).value);
    var l := t.peers[|t.peers| - 1];
    assert l.added + [] == l.added;
    assert t.core.remote == [] ==> l.received == l.added;
  }

  lemma FirstAddedEnds(t: State)
    requires t.core.peer.Some? && t.peers != [] && t.core.remote != []
    requires var l := t.peers[|t.peers| - 1]; l.received == l.added + t.core.remote
    ensures Flushed(FirstAdded(t), 1) == Answered(t, t.next)
  {
    var l := t.peers[|t.peers| - 1];
    FirstThenRest(l.added, t.core.remote);
  }

  lemma FirstAddedLeads(t: State)
    requires t.core.peer.Some? && t.peers != [] && t.core.remote != []
    requires var l := t.peers[|t.peers| - 1]; l.received == l.added + t.core.remote
    ensures Runs.Leads(Next, FirstAdded(t), Answered(t, t.next))
  {
    FirstAddedEnds(t);
    FlushLeads(FirstAdded(t), t.core.peer.value, 1);
  }

  lemma DescribedLeads(t: State)
    requires t.core.peer.Some? && t.handler == Describing(t.core.peer.value) && t.peers != []
    requires var l := t.peers[|t.peers| - 1]; l.received == l.added + t.core.remote
    ensures Runs.Leads(Next, t, Answered(t, t.next))
  {
    DescribedStep(t);
    if t.core.remote == [] {
      Runs.OneLeads(Next, t, Resume(true), Answered(t, t.next));
    } else {
      FirstAddedLeads(t);
      Runs.OneLeads(Next, t, Resume(true), FirstAdded(t));
      Runs.LeadsOn(Next, t, FirstAdded(t), Answered(t, t.next));
    }
  }

  lemma BetweenDeliveries(s: State)
    requires Inv(s) && s.core.peer.Some? && s.handler.Idle?
    ensures |s.peers| == s.core.peer.value + 1
    ensures var l := s.peers[|s.peers| - 1];
            && l.received == l.added + s.core.remote && s.core.described == l.described
            && if s.core.described then s.core.remote == [] else l.added == []
  {
    IdleAgrees(s.core, s.peers[|s.peers| - 1]);
  }

  lemma IdleAgrees(c: Core, l: Peer)
    requires RemoteAgrees(c, Idle, l)
    ensures l.received == l.added + c.remote && c.described == l.described
    ensures if c.described then c.remote == [] else l.added == []
  {
    assert l.added + [] == l.added && [] + c.remote == c.remote;
  }

  /** An answer under the current token is not refused: a run describes the peer and gives it everything held, in every reachable state. */
  lemma AnswerIsApplied(acts: seq<Action>, s: State, token: Token)
    requires Runs.Reaches(Next, START, acts, s) && s.core.peer.Some? && s.handler.Idle?
    requires s.core.token == Some(token) && s.next < |s.queue| && s.queue[s.next] == Answer(token, true)
    ensures s.peers != [] && Runs.Leads(Next, s, Answered(s, s.next + 1))
  {
    Reachable(acts, s);
    AnswerIsDelivered(s, token);
    BetweenDeliveries(s);
    var t := Describes(s);
    assert Answered(t, t.next) == Answered(s, s.next + 1);
    DescribedLeads(t);
    Runs.OneLeads(Next, s, Deliver, t);
    Runs.LeadsOn(Next, s, t, Answered(s, s.next + 1));
  }

  // Remote candidates.

  /** The batch is with the peer. */
  function BatchAdded(s: State, batch: seq<Candidate>, next: nat): State
    requires s.peers != []
  {
    var l := s.peers[|s.peers| - 1];
    With(s, s.core, Idle, next, l.(received := l.received + batch, added := l.added + batch))
  }

  lemma FirstThenRest(done: seq<Candidate>, batch: seq<Candidate>)
    requires batch != []
    ensures done + batch == (done + [batch[0]]) + batch[1..]
  {}

  lemma AddStep(s: State, p: PeerId, batch: seq<Candidate>)
    requires s.handler == Adding(p, batch) && s.core.peer == Some(p) && s.peers != [] && batch != [] && batch[0].valid
    ensures var l := s.peers[|s.peers| - 1];
            var t := With(s, s.core, Adding(p, batch[1..]), s.next,
                          l.(received := l.received + [batch[0]], added := l.added + [batch[0]]));
            Next(s, Resume(true)) == Some(t) && BatchAdded(t, batch[1..], s.next) == BatchAdded(s, batch, s.next)
  {
    StepsWith(s, Resume(true), MoveOf(s, Resume(true)).value);
    var l := s.peers[|s.peers| - 1];
    FirstThenRest(l.added, batch);
    FirstThenRest(l.received, batch);
  }

  lemma AddEnds(s: State, p: PeerId)
    requires s.handler == Adding(p, []) && s.core.peer == Some(p) && s.peers != []
    ensures Next(s, Resume(true)) == Some(BatchAdded(s, [], s.next))
  {
    StepsWith(s, Resume(true), MoveOf(s, Resume(true)).value);
    var l := s.peers[|s.peers| - 1];
    assert l.added + [] == l.added && l.received + [] == l.received;
  }

  lemma {:induction false} AddLeads(s: State, p: PeerId, batch: seq<Candidate>)
    requires s.handler == Adding(p, batch) && s.core.peer == Some(p) && s.peers != [] && forall c <- batch :: c.valid
    ensures Runs.Leads(Next, s, BatchAdded(s, batch, s.next))
    decreases |batch|
  {
    if batch == [] {
      AddEnds(s, p);
      Runs.OneLeads(Next, s, Resume(true), BatchAdded(s, batch, s.next));
    } else {
      AddStep(s, p, batch);
      var t := Next(s, Resume(true)).value;
      AddLeads(t, p, batch[1..]);
      Runs.OneLeads(Next, s, Resume(true), t);
      Runs.LeadsOn(Next, s, t, BatchAdded(t, batch[1..], s.next));
    }
  }

  /** Taking the message leaves the peer as if the batch were about to go to it. */
  lemma BatchIsDelivered(s: State, token: Token, batch: seq<Candidate>)
    requires s.peers != [] && s.core.peer.Some? && s.handler.Idle? && s.core.described
    requires s.core.token == Some(token) && s.next < |s.queue| && s.queue[s.next] == Ice(token, batch)
    requires |batch| <= 16 && batch != [] && batch[0].valid
    ensures var l := s.peers[|s.peers| - 1];
            var t := With(s, s.core, Adding(s.core.peer.value, batch[1..]), s.next + 1,
                          l.(received := l.received + [batch[0]], added := l.added + [batch[0]]));
            Next(s, Deliver) == Some(t) && BatchAdded(t, batch[1..], t.next) == BatchAdded(s, batch, s.next + 1)
  {
    StepsWith(s, Deliver, MoveOf(s, Deliver).value);
    var l := s.peers[|s.peers| - 1];
    FirstThenRest(l.added, batch);
    FirstThenRest(l.received, batch);
  }

  lemma EmptyBatchIsDelivered(s: State, token: Token)
    requires s.peers != [] && s.core.peer.Some? && s.handler.Idle? && s.core.described
    requires s.core.token == Some(token) && s.next < |s.queue| && s.queue[s.next] == Ice(token, [])
    ensures Next(s, Deliver) == Some(BatchAdded(s, [], s.next + 1))
  {
    StepsWith(s, Deliver, MoveOf(s, Deliver).value);
    var l := s.peers[|s.peers| - 1];
    assert l.added + [] == l.added && l.received + [] == l.received;
  }

  /** Up to sixteen valid candidates under the token of a described peer all reach it, from every reachable state. */
  lemma CandidatesAreAdded(acts: seq<Action>, s: State, token: Token, batch: seq<Candidate>)
    requires Runs.Reaches(Next, START, acts, s) && s.core.peer.Some? && s.handler.Idle? && s.core.described
    requires s.core.token == Some(token) && s.next < |s.queue| && s.queue[s.next] == Ice(token, batch)
    requires |batch| <= 16 && forall c <- batch :: c.valid
    ensures s.peers != [] && Runs.Leads(Next, s, BatchAdded(s, batch, s.next + 1))
  {
    Reachable(acts, s);
    BetweenDeliveries(s);
    if batch == [] {
      EmptyBatchIsDelivered(s, token);
      Runs.OneLeads(Next, s, Deliver, BatchAdded(s, batch, s.next + 1));
    } else {
      BatchIsDelivered(s, token, batch);
      var t := Next(s, Deliver).value;
      AddLeads(t, s.core.peer.value, batch[1..]);
      Runs.OneLeads(Next, s, Deliver, t);
      Runs.LeadsOn(Next, s, t, BatchAdded(t, batch[1..], t.next));
    }
  }

  /** Why a message under the current token may close its peer. */
  predicate Acceptable(s: State, m: Message) {
    match m
    case Answer(_, valid) => valid
    case Ice(_, batch) =>
      && |batch| <= 16
      && if s.core.described then batch == [] || batch[0].valid
         else (forall k | 0 <= k < |batch| :: batch[k].valid) && |s.core.remote| + |batch| <= 32
    case _ => false
  }

  /**
   Whether the next message leaves a peer behind: a well-formed, supported start while there is none, or an
   acceptable message under the current token. Any other closes whatever peer there is.
   */
  lemma DeliveryKeepsPeerIff(acts: seq<Action>, s: State, s': State)
    requires Runs.Reaches(Next, START, acts, s) && Next(s, Deliver) == Some(s')
    ensures s.next < |s.queue| && s.handler.Idle? && s'.next == s.next + 1 && s'.queue == s.queue
    ensures var m := s.queue[s.next];
            s'.core.peer.Some? <==>
              if s.core.peer.None? then m.Start? && m.wellFormed && m.supported
              else Some(m.token) == s.core.token && Acceptable(s, m)
    ensures s'.core.peer.Some? && s.core.peer.Some? ==> s'.core.peer == s.core.peer
  {
    Reachable(acts, s);
    QueuesAreBounded(s);
    DeliveryFrom(s);
  }

  lemma DeliveryFrom(s: State)
    requires |s.core.remote| <= 32 && Next(s, Deliver).Some?
    ensures s.next < |s.queue| && s.handler.Idle?
    ensures var (m, s') := (s.queue[s.next], Next(s, Deliver).value);
            && s'.next == s.next + 1 && s'.queue == s.queue
            && (s'.core.peer.Some? <==>
                  if s.core.peer.None? then m.Start? && m.wellFormed && m.supported
                  else Some(m.token) == s.core.token && Acceptable(s, m))
            && (s'.core.peer.Some? && s.core.peer.Some? ==> s'.core.peer == s.core.peer)
  {
    assert s.queue + [] == s.queue;
    var m := s.queue[s.next];
    if m.Ice? && !s.core.described {
      HoldsIff(s.core.remote, m.candidates);
    }
  }

  /** The message being delivered may fail at any time, and a fault may come: either closes the current peer. */
  lemma FailureCloses(s: State, a: Action)
    requires (a == Resume(false) && !s.handler.Idle?) || (a == Fault && s.core.peer.Some?)
    ensures Next(s, a).Some? && Next(s, a).value.core.peer.None?
    ensures Next(s, a).value.handler == if a == Fault then s.handler else Idle
  {}

  /** A message waits its turn behind those already there, but for a stop under the current token, which never waits. */
  lemma OnlyStopsOvertake(acts: seq<Action>, s: State, m: Message)
    requires Runs.Reaches(Next, START, acts, s)
    ensures Next(s, Arrive(m)).Some?
    ensures var s' := Next(s, Arrive(m)).value;
            && s'.peers == s.peers && s'.next == s.next && s'.handler == s.handler
            && if m.Stop? && s.core.token == Some(m.token) then s'.queue == s.queue && s'.core.peer.None?
               else s'.queue == s.queue + [m] && s'.core == s.core
  {
    var move := MoveOf(s, Arrive(m)).value;
    if s.peers != [] {
      Unextended(s, move);
      assert s.peers[..|s.peers| - 1] + [s.peers[|s.peers| - 1]] == s.peers;
    }
    assert s.queue + [] == s.queue;
  }
}
