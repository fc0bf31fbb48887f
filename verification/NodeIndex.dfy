/**
 The commissioned-node index: the list kept in memory, the bytes kept in storage, and the operations that
 change both.

 Storage keeps one value under one key. A read into a buffer that is too small says so; a write or a
 delete that fails leaves the stored value as it was.
 */
module NodeIndex {
  import opened Basics

  const ID_BYTES := 8
  const MAXIMUM_NODES := 8191           // UINT16_MAX / 8
  const UINT16_MAX := 0xFFFF

  type Bytes = seq<u8>

  datatype Fault = StorageFailed | IndexTooLarge | IndexInvalid | TooManyNodes | UnpairFailed

  // ---------------------------------------------------------------------------------------------
  // The stored form: each identifier as eight bytes, least significant first.
  // ---------------------------------------------------------------------------------------------

  function Word(x: nat, width: nat): (r: Bytes)
    ensures |r| == width
  {
    if width == 0 then [] else [x % 256] + Word(x / 256, width - 1)
  }

  function Value(b: Bytes): nat {
    if b == [] then 0 else b[0] + 256 * Value(b[1..])
  }

  function Power(width: nat): nat {
    if width == 0 then 1 else 256 * Power(width - 1)
  }

  lemma {:induction false} WordValue(x: nat, width: nat)
    requires x < Power(width)
    ensures Value(Word(x, width)) == x
  {
    if width > 0 {
      WordValue(x / 256, width - 1);
      assert Word(x, width)[1..] == Word(x / 256, width - 1);
    }
  }

  lemma {:induction false} ValueFits(b: Bytes)
    ensures Value(b) < Power(|b|)
  {
    if b != [] {
      ValueFits(b[1..]);
    }
  }

  lemma PowerOfId()
    ensures Power(ID_BYTES) == 0x1_0000_0000_0000_0000
  {
    assert Power(4) == 0x1_0000_0000;
    assert Power(8) == 256 * (256 * (256 * (256 * Power(4))));
  }

  function Image(nodes: seq<u64>): (r: Bytes)
    ensures |r| == ID_BYTES * |nodes|
  {
    if nodes == [] then [] else Word(nodes[0], ID_BYTES) + Image(nodes[1..])
  }

  function IdOf(b: Bytes): u64
    requires |b| == ID_BYTES
  {
    ValueFits(b);
    PowerOfId();
    Value(b)
  }

  function Nodes(b: Bytes): (r: seq<u64>)
    requires |b| % ID_BYTES == 0
    ensures ID_BYTES * |r| == |b|
  {
    if b == [] then [] else [IdOf(b[..ID_BYTES])] + Nodes(b[ID_BYTES..])
  }

  /** The stored form loses nothing. */
  lemma {:induction false} NodesOfImage(nodes: seq<u64>)
    ensures Nodes(Image(nodes)) == nodes
  {
    if nodes != [] {
      PowerOfId();
      WordValue(nodes[0], ID_BYTES);
      NodesOfImage(nodes[1..]);
      assert Image(nodes)[..ID_BYTES] == Word(nodes[0], ID_BYTES);
      assert Image(nodes)[ID_BYTES..] == Image(nodes[1..]);
    }
  }

  // ---------------------------------------------------------------------------------------------
  // Load and persist, as functions of the two lists.
  // ---------------------------------------------------------------------------------------------

  /** `None` is a missing value. */
  type Stored = Option<Bytes>

  function Loaded(memory: seq<u64>, stored: Stored): Result<seq<u64>, Fault> {
    if stored.None? then Ok(memory)
    else if |stored.value| > ID_BYTES * MAXIMUM_NODES then Err(IndexTooLarge)
    else if stored.value == [] || |stored.value| % ID_BYTES != 0 then Err(IndexInvalid)
    else Ok(Nodes(stored.value))
  }

  function Kept(nodes: seq<u64>): Stored {
    if nodes == [] then None else Some(Image(nodes))
  }

  /** What a persist leaves in storage; `writable` says whether the storage accepts it. */
  function Persisted(nodes: seq<u64>, stored: Stored, writable: bool): (Stored, Result<(), Fault>) {
    if nodes == [] && stored.None? then (None, Ok(()))
    else if |nodes| > MAXIMUM_NODES then (stored, Err(TooManyNodes))
    else if !writable then (stored, Err(StorageFailed))
    else (Kept(nodes), Ok(()))
  }

  /** Persisting and loading into a fresh controller restores the list: for every list short enough, and no other. */
  lemma PersistThenLoad(nodes: seq<u64>, stored: Stored)
    ensures Persisted(nodes, stored, true).1.Ok? <==> |nodes| <= 8191
    ensures |nodes| <= 8191 ==> Loaded([], Persisted(nodes, stored, true).0) == Ok(nodes)
  {
    NodesOfImage(nodes);
  }

  datatype Read = NotFound | TooSmall | ReadFailed | Found(bytes: Bytes)

  class NodeStore {
    var value: Stored

    constructor (stored: Stored)
      ensures value == stored
    {
      value := stored;
    }

    method SyncGetKeyValue(size: u16, readable: bool) returns (r: Read)
      ensures r == if !readable then ReadFailed else if value.None? then NotFound
                   else if |value.value| > size then TooSmall else Found(value.value)
    {
      if !readable {
        return ReadFailed;
      }
      if value.None? {
        return NotFound;
      }
      return if |value.value| > size then TooSmall else Found(value.value);
    }

    /** Fails as well when there is nothing to delete. */
    method SyncDeleteKeyValue(writable: bool) returns (missing: bool, ok: bool)
      modifies this
      ensures missing == old(value).None? && ok == (writable && !missing)
      ensures value == if ok then None else old(value)
    {
      missing := value.None?;
      ok := writable && !missing;
      if ok {
        value := None;
      }
    }

    method SyncSetKeyValue(bytes: Bytes, size: u16, writable: bool) returns (ok: bool)
      requires size == |bytes|
      modifies this
      ensures ok == writable && value == if ok then Some(bytes) else old(value)
    {
      ok := writable;
      if ok {
        value := Some(bytes);
      }
    }
  }

  class ControllerRuntime {
    const mStorage: NodeStore
    var mCommissionedNodes: seq<u64>

    constructor (storage: NodeStore)
      ensures mStorage == storage && mCommissionedNodes == []
    {
      mStorage := storage;
      mCommissionedNodes := [];
    }

    /** The buffer grows 1, 2, 4, ..., 4096, 8191 identifiers; its size in bytes always fits sixteen bits. */
    method LoadCommissionedNodes(readable: bool) returns (r: Result<(), Fault>)
      modifies this
      ensures !readable ==> r == Err(StorageFailed)
      ensures readable ==>
                match Loaded(old(mCommissionedNodes), mStorage.value)
                case Ok(nodes) => r == Ok(()) && mCommissionedNodes == nodes
                case Err(fault) => r == Err(fault)
      ensures r.Err? ==> mCommissionedNodes == old(mCommissionedNodes)
      ensures r.Ok? && mStorage.value.None? ==> mCommissionedNodes == old(mCommissionedNodes)
      ensures r.Ok? && mStorage.value.Some? ==>
                && 8 <= |mStorage.value.value| <= 65528 && |mStorage.value.value| % 8 == 0
                && mCommissionedNodes == Nodes(mStorage.value.value)
      ensures r == Err(IndexTooLarge) <==> readable && mStorage.value.Some? && |mStorage.value.value| > 65528
    {
      var capacity := 1;
      while true
        invariant 1 <= capacity <= MAXIMUM_NODES
        invariant mCommissionedNodes == old(mCommissionedNodes)
        invariant capacity > 1 ==> readable && mStorage.value.Some?
        decreases MAXIMUM_NODES - capacity
      {
        var size: u16 := ID_BYTES * capacity;
        var read := mStorage.SyncGetKeyValue(size, readable);
        if read.NotFound? {
          return Ok(());
        }
        if read.TooSmall? {
          if capacity == MAXIMUM_NODES {
            return Err(IndexTooLarge);
          }
          capacity := Min(capacity * 2, MAXIMUM_NODES);
          continue;
        }
        if read.ReadFailed? {
          return Err(StorageFailed);
        }
        if |read.bytes| == 0 || |read.bytes| % ID_BYTES != 0 {
          return Err(IndexInvalid);
        }
        mCommissionedNodes := Nodes(read.bytes);
        return Ok(());
      }
    }

    method PersistCommissionedNodes(writable: bool) returns (r: Result<(), Fault>)
      modifies mStorage
      ensures r.Ok? ==> mStorage.value == if mCommissionedNodes == [] then None else Some(Image(mCommissionedNodes))
      ensures r.Err? ==> mStorage.value == old(mStorage.value)
      ensures r == Err(TooManyNodes) <==> |mCommissionedNodes| > 8191
      ensures |mCommissionedNodes| <= 8191 && writable ==> r.Ok?
      ensures (mStorage.value, r) == Persisted(mCommissionedNodes, old(mStorage.value), writable)
    {
      if mCommissionedNodes == [] {
        var missing, ok := mStorage.SyncDeleteKeyValue(writable);
        return if ok || missing then Ok(()) else Err(StorageFailed);
      }
      var byteCount := |mCommissionedNodes| * ID_BYTES;
      if byteCount > UINT16_MAX {
        return Err(TooManyNodes);
      }
      var ok := mStorage.SyncSetKeyValue(Image(mCommissionedNodes), byteCount, writable);
      return if ok then Ok(()) else Err(StorageFailed);
    }

    /** The end of a commissioning and of a recovery. */
    method AddNode(node: u64, writable: bool) returns (r: Result<(), Fault>)
      modifies this, mStorage
      ensures node in old(mCommissionedNodes) ==>
                r.Ok? && mCommissionedNodes == old(mCommissionedNodes) && mStorage.value == old(mStorage.value)
      ensures node !in old(mCommissionedNodes) ==> mCommissionedNodes == old(mCommissionedNodes) + [node]
      ensures (Index(mCommissionedNodes, mStorage.value), r) ==
              Added(Index(old(mCommissionedNodes), old(mStorage.value)), node, writable)
    {
      r := Ok(());
      if node !in mCommissionedNodes {
        mCommissionedNodes := mCommissionedNodes + [node];
        r := PersistCommissionedNodes(writable);
      }
    }

    method RemoveNode(node: u64, unpairs: bool, writable: bool) returns (r: Result<(), Fault>)
      modifies this, mStorage
      ensures !unpairs ==> r.Err? && mCommissionedNodes == old(mCommissionedNodes) && mStorage.value == old(mStorage.value)
      ensures unpairs ==> mCommissionedNodes == Without(old(mCommissionedNodes), node)
      ensures (Index(mCommissionedNodes, mStorage.value), r) ==
              Removed(Index(old(mCommissionedNodes), old(mStorage.value)), node, unpairs, writable)
    {
      if !unpairs {
        return Err(UnpairFailed);
      }
      mCommissionedNodes := Without(mCommissionedNodes, node);
      r := PersistCommissionedNodes(writable);
    }
  }

  // ---------------------------------------------------------------------------------------------
  // The operations, and runs of them.
  // ---------------------------------------------------------------------------------------------

  datatype Index = Index(memory: seq<u64>, stored: Stored)

  function Without(nodes: seq<u64>, node: u64): (r: seq<u64>) {
    if nodes == [] then []
    else (if nodes[0] == node then [] else [nodes[0]]) + Without(nodes[1..], node)
  }

  function Added(i: Index, node: u64, writable: bool): (Index, Result<(), Fault>) {
    if node in i.memory then (i, Ok(()))
    else
      var memory := i.memory + [node];
      var (stored, r) := Persisted(memory, i.stored, writable);
      (Index(memory, stored), r)
  }

  function Removed(i: Index, node: u64, unpairs: bool, writable: bool): (Index, Result<(), Fault>) {
    if !unpairs then (i, Err(UnpairFailed))
    else
      var memory := Without(i.memory, node);
      var (stored, r) := Persisted(memory, i.stored, writable);
      (Index(memory, stored), r)
  }

  datatype Action =
    | Add(node: u64, writable: bool)
    | Remove(node: u64, unpairs: bool, writable: bool)
    | Restart                       // a new controller loads the index from storage

  function Do(i: Index, a: Action): (Index, Result<(), Fault>) {
    match a
    case Add(node, writable) => Added(i, node, writable)
    case Remove(node, unpairs, writable) => Removed(i, node, unpairs, writable)
    case Restart =>
      match Loaded([], i.stored)
      case Ok(nodes) => (Index(nodes, i.stored), Ok(()))
      case Err(fault) => (Index([], i.stored), Err(fault))
  }

  const EMPTY := Index([], None)

  ghost predicate NoDuplicates(nodes: seq<u64>) {
    forall j, k | 0 <= j < k < |nodes| :: nodes[j] != nodes[k]
  }

  /** Storage holds exactly the list in memory. */
  predicate Synced(i: Index) {
    i.stored == Kept(i.memory)
  }

  lemma {:induction false} WithoutFacts(nodes: seq<u64>, node: u64)
    requires NoDuplicates(nodes)
    ensures NoDuplicates(Without(nodes, node)) && |Without(nodes, node)| <= |nodes|
    ensures forall n: u64 :: n in Without(nodes, node) <==> n in nodes && n != node
  {
    if nodes != [] {
      var rest := Without(nodes[1..], node);
      WithoutFacts(nodes[1..], node);
      assert nodes[0] !in rest;
      assert forall k | 0 <= k < |rest| :: rest[k] in rest;
    }
  }

  ghost predicate Keeps(stored: Stored, kept: seq<u64>) {
    NoDuplicates(kept) && |kept| <= MAXIMUM_NODES && stored == Kept(kept)
  }

  /** What storage holds is the image of some list without duplicates that can be loaded. */
  ghost predicate Sound(i: Index) {
    NoDuplicates(i.memory) && exists kept :: Keeps(i.stored, kept)
  }

  lemma LoadsKept(stored: Stored, kept: seq<u64>)
    requires Keeps(stored, kept)
    ensures Loaded([], stored) == Ok(kept)
  {
    NodesOfImage(kept);
  }

  lemma KeptIsUnique(a: seq<u64>, b: seq<u64>)
    requires Kept(a) == Kept(b)
    ensures a == b
  {
    NodesOfImage(a);
    NodesOfImage(b);
  }

  lemma PersistKeeps(memory: seq<u64>, stored: Stored, kept: seq<u64>, writable: bool)
    requires NoDuplicates(memory) && Keeps(stored, kept)
    ensures var (stored', r) := Persisted(memory, stored, writable);
            if r.Ok? then Keeps(stored', memory) else stored' == stored
  {}

  lemma AddKeepsSound(i: Index, node: u64, writable: bool)
    requires Sound(i)
    ensures var (i', r) := Added(i, node, writable);
            Sound(i') && (r.Ok? && (Synced(i) || node !in i.memory) ==> Synced(i'))
  {
    if node !in i.memory {
      var kept :| Keeps(i.stored, kept);
      PersistKeeps(i.memory + [node], i.stored, kept, writable);
    }
  }

  lemma RemoveKeepsSound(i: Index, node: u64, unpairs: bool, writable: bool)
    requires Sound(i)
    ensures var (i', r) := Removed(i, node, unpairs, writable);
            Sound(i') && (r.Ok? ==> Synced(i')) && (r == Err(UnpairFailed) ==> i' == i)
  {
    if unpairs {
      var kept :| Keeps(i.stored, kept);
      WithoutFacts(i.memory, node);
      PersistKeeps(Without(i.memory, node), i.stored, kept, writable);
    }
  }

  lemma RestartKeepsSound(i: Index)
    requires Sound(i)
    ensures var (i', r) := Do(i, Restart);
            Sound(i') && r.Ok? && Synced(i') && (Synced(i) ==> i' == i)
  {
    var kept :| Keeps(i.stored, kept);
    LoadsKept(i.stored, kept);
    if Synced(i) {
      KeptIsUnique(i.memory, kept);
    }
  }

  lemma StepKeepsSound(i: Index, a: Action)
    requires Sound(i)
    ensures Sound(Do(i, a).0)
    ensures Synced(i) && Do(i, a).1 in {Ok(()), Err(UnpairFailed)} ==> Synced(Do(i, a).0)
  {
    match a
    case Add(node, writable) =>
      AddKeepsSound(i, node, writable);
      assert Added(i, node, writable).1 != Err(UnpairFailed);
    case Remove(node, unpairs, writable) => RemoveKeepsSound(i, node, unpairs, writable);
    case Restart => RestartKeepsSound(i);
  }

  lemma {:induction false} RunKeepsSound(i: Index, acts: seq<Action>)
    requires Sound(i)
    ensures Sound(After(i, acts))
    decreases |acts|
  {
    if acts != [] {
      StepKeepsSound(i, acts[0]);
      RunKeepsSound(Do(i, acts[0]).0, acts[1..]);
    }
  }

  function After(i: Index, acts: seq<Action>): Index
    decreases |acts|
  {
    if acts == [] then i else After(Do(i, acts[0]).0, acts[1..])
  }

  /** No storage operation of the run failed. */
  predicate StorageHeld(i: Index, acts: seq<Action>)
    decreases |acts|
  {
    acts == [] || (Do(i, acts[0]).1 in {Ok(()), Err(UnpairFailed)} && StorageHeld(Do(i, acts[0]).0, acts[1..]))
  }

  /**
   The index never holds a node twice, whatever fails; it can always be loaded again; and in a run in which
   no storage operation fails, storage equals memory throughout, so a restart changes nothing.
   */
  lemma IndexIsKept(acts: seq<Action>)
    ensures var i := After(EMPTY, acts);
            && NoDuplicates(i.memory)
            && Loaded([], i.stored).Ok?
            && (StorageHeld(EMPTY, acts) ==> Synced(i) && Do(i, Restart) == (i, Ok(())))
  {
    assert Keeps(EMPTY.stored, []);
    RunKeepsSound(EMPTY, acts);
    RestartKeepsSound(After(EMPTY, acts));
    if StorageHeld(EMPTY, acts) {
      SyncedRun(EMPTY, acts);
    }
  }

  lemma {:induction false} SyncedRun(i: Index, acts: seq<Action>)
    requires Sound(i) && Synced(i) && StorageHeld(i, acts)
    ensures Synced(After(i, acts))
    decreases |acts|
  {
    if acts != [] {
      StepKeepsSound(i, acts[0]);
      SyncedRun(Do(i, acts[0]).0, acts[1..]);
    }
  }

  /** What the calls of a run last asked for: whether the node is to be in the index. */
  function Wanted(acts: seq<Action>, node: u64, before: bool): bool
    decreases |acts|
  {
    if acts == [] then before
    else
      var a := acts[0];
      Wanted(acts[1..], node, if a.Add? && a.node == node then true
                              else if a.Remove? && a.node == node && a.unpairs then false else before)
  }

  lemma StepFollows(i: Index, a: Action, node: u64)
    requires Sound(i) && Synced(i) && Do(i, a).1 in {Ok(()), Err(UnpairFailed)}
    ensures node in Do(i, a).0.memory <==>
            if a.Add? && a.node == node then true
            else if a.Remove? && a.node == node && a.unpairs then false else node in i.memory
  {
    match a
    case Add(n, _) =>
    case Remove(n, unpairs, _) => if unpairs { WithoutFacts(i.memory, n); }
    case Restart => RestartKeepsSound(i);
  }

  lemma {:induction false} RunFollows(i: Index, acts: seq<Action>, node: u64)
    requires Sound(i) && Synced(i) && StorageHeld(i, acts)
    ensures node in After(i, acts).memory <==> Wanted(acts, node, node in i.memory)
    decreases |acts|
  {
    if acts != [] {
      StepFollows(i, acts[0], node);
      StepKeepsSound(i, acts[0]);
      RunFollows(Do(i, acts[0]).0, acts[1..], node);
    }
  }

  /**
   The index does what it is asked: in a run in which no storage operation fails, a node is in the list, and found
   after a restart, exactly when the last commissioning, recovery or successful removal of it was not the removal.
   */
  lemma IndexFollowsItsCalls(acts: seq<Action>, node: u64)
    requires StorageHeld(EMPTY, acts)
    ensures node in After(EMPTY, acts).memory <==> Wanted(acts, node, false)
    ensures Durable(After(EMPTY, acts), node) <==> Wanted(acts, node, false)
  {
    assert Keeps(EMPTY.stored, []);
    RunFollows(EMPTY, acts, node);
    IndexIsKept(acts);
  }

  /** Does a restart find the node? */
  predicate Durable(i: Index, node: u64) {
    var loaded := Loaded([], i.stored);
    loaded.Ok? && node in loaded.value
  }

  /**
   A commissioning or recovery that reports success has made the node durable exactly when the node was new
   to the list in memory, or was durable before.
   */
  lemma AddedIsDurableIff(i: Index, node: u64, writable: bool)
    requires Sound(i) && Added(i, node, writable).1.Ok?
    ensures Durable(Added(i, node, writable).0, node) <==> node !in i.memory || Durable(i, node)
  {
    AddKeepsSound(i, node, writable);
    var i' := Added(i, node, writable).0;
    if node !in i.memory {
      var kept :| Keeps(i'.stored, kept);
      KeptIsUnique(i'.memory, kept);
      LoadsKept(i'.stored, kept);
    }
  }

  /** So a write that fails once is never made up for: the next attempt reports success and writes nothing. */
  lemma RetryIsNotDurable(i: Index, node: u64, writable: bool)
    requires Sound(i) && !Durable(i, node) && node !in i.memory
    ensures var failed := Added(i, node, false).0;
            var (retried, r) := Added(failed, node, writable);
            Added(i, node, false).1.Err? && r.Ok? && retried.stored == i.stored && !Durable(retried, node)
  {}
}
