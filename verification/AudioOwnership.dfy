/**
 The audio ownership ledger: which (node, endpoint) pairs have an audio allocation that is pending,
 owned, being released, or of unknown fate on the camera.
 */
module AudioOwnership {
  import opened Basics
  import Runs

  datatype Key = Key(node: u64, endpoint: u16)

  datatype State = Pending | Owned | Releasing | Uncertain

  datatype Entry = Entry(state: State, stream: Option<u16>)

  type Table = map<Key, Entry>

  const CAPACITY: nat := 8
  const NO_STREAM: u16 := 0xFFFF

  datatype Call =
    | Reserve(key: Key)
    | Commit(key: Key, stream: u16)
    | AllocationFailed(key: Key, knownRejection: bool)
    | StartRelease(key: Key, stream: u16)
    | ReleaseFinished(key: Key, succeeded: bool)

  datatype Fault = AlreadyPresent | TableFull | InvalidMetadata | NotOwned | NotReleasing

  predicate Has(t: Table, k: Key, st: State) {
    k in t && t[k].state == st
  }

  /** Why the ledger throws on a call, if it does. */
  function Refusal(t: Table, c: Call): Option<Fault> {
    match c
    case Reserve(k) =>
      if k in t then Some(AlreadyPresent) else if |t| >= CAPACITY then Some(TableFull) else None
    case Commit(k, s) =>
      if !Has(t, k, Pending) || s == NO_STREAM then Some(InvalidMetadata) else None
    case AllocationFailed(_, _) => None
    case StartRelease(k, s) =>
      if !Has(t, k, Owned) || t[k].stream != Some(s) then Some(NotOwned) else None
    case ReleaseFinished(k, _) =>
      if !Has(t, k, Releasing) then Some(NotReleasing) else None
  }

  /** The table after a call; a refused call changes nothing. */
  function After(t: Table, c: Call): Table {
    if Refusal(t, c).Some? then t else
    match c
    case Reserve(k) => t[k := Entry(Pending, None)]
    case Commit(k, s) => t[k := Entry(Owned, Some(s))]
    case AllocationFailed(k, known) =>
      if !Has(t, k, Pending) then t
      else if known then t - {k}
      else t[k := t[k].(state := Uncertain)]
    case StartRelease(k, _) => t[k := t[k].(state := Releasing)]
    case ReleaseFinished(k, ok) =>
      if ok then t - {k} else t[k := t[k].(state := Uncertain)]
  }

  class CameraAudioAllocationOwnership {
    var entries: Table

    constructor ()
      ensures entries == map[]
    {
      entries := map[];
    }

    method Reserve(node: u64, endpoint: u16) returns (fault: Option<Fault>)
      modifies this
      ensures fault == if Key(node, endpoint) in old(entries) then Some(AlreadyPresent)
                       else if |old(entries)| >= 8 then Some(TableFull) else None
      ensures entries == if fault.None? then old(entries)[Key(node, endpoint) := Entry(Pending, None)] else old(entries)
      ensures fault == Refusal(old(entries), Call.Reserve(Key(node, endpoint)))
      ensures entries == After(old(entries), Call.Reserve(Key(node, endpoint)))
    {
      var key := Key(node, endpoint);
      if key in entries {
        return Some(AlreadyPresent);
      }
      if |entries| >= CAPACITY {
        return Some(TableFull);
      }
      entries := entries[key := Entry(Pending, None)];
      return None;
    }

    method Commit(node: u64, endpoint: u16, stream: u16) returns (fault: Option<Fault>)
      modifies this
      ensures fault.None? <==> Has(old(entries), Key(node, endpoint), Pending) && stream != 0xFFFF
      ensures entries == if fault.None? then old(entries)[Key(node, endpoint) := Entry(Owned, Some(stream))] else old(entries)
      ensures fault == Refusal(old(entries), Call.Commit(Key(node, endpoint), stream))
      ensures entries == After(old(entries), Call.Commit(Key(node, endpoint), stream))
    {
      var key := Key(node, endpoint);
      if key !in entries || entries[key].state != Pending || stream == NO_STREAM {
        return Some(InvalidMetadata);
      }
      var entry := entries[key];
      entry := entry.(stream := Some(stream));
      entry := entry.(state := Owned);
      entries := entries[key := entry];
      return None;
    }

    method AllocationFailed(node: u64, endpoint: u16, knownRejection: bool)
      modifies this
      ensures !Has(old(entries), Key(node, endpoint), Pending) ==> entries == old(entries)
      ensures Has(old(entries), Key(node, endpoint), Pending) ==>
                entries == if knownRejection then old(entries) - {Key(node, endpoint)}
                           else old(entries)[Key(node, endpoint) := Entry(Uncertain, old(entries)[Key(node, endpoint)].stream)]
      ensures entries == After(old(entries), Call.AllocationFailed(Key(node, endpoint), knownRejection))
    {
      var key := Key(node, endpoint);
      if key in entries && entries[key].state == Pending {
        if knownRejection {
          entries := entries - {key};
        } else {
          entries := entries[key := entries[key].(state := Uncertain)];
        }
      }
    }

    method StartRelease(node: u64, endpoint: u16, stream: u16) returns (fault: Option<Fault>)
      modifies this
      ensures fault.None? <==>
                Has(old(entries), Key(node, endpoint), Owned) && old(entries)[Key(node, endpoint)].stream == Some(stream)
      ensures entries == if fault.None? then old(entries)[Key(node, endpoint) := Entry(Releasing, Some(stream))] else old(entries)
      ensures fault == Refusal(old(entries), Call.StartRelease(Key(node, endpoint), stream))
      ensures entries == After(old(entries), Call.StartRelease(Key(node, endpoint), stream))
    {
      var key := Key(node, endpoint);
      if key !in entries || entries[key].state != Owned || entries[key].stream != Some(stream) {
        return Some(NotOwned);
      }
      entries := entries[key := entries[key].(state := Releasing)];
      return None;
    }

    method ReleaseFinished(node: u64, endpoint: u16, succeeded: bool) returns (fault: Option<Fault>)
      modifies this
      ensures fault.None? <==> Has(old(entries), Key(node, endpoint), Releasing)
      ensures entries == if fault.Some? then old(entries)
                         else if succeeded then old(entries) - {Key(node, endpoint)}
                         else old(entries)[Key(node, endpoint) := Entry(Uncertain, old(entries)[Key(node, endpoint)].stream)]
      ensures fault == Refusal(old(entries), Call.ReleaseFinished(Key(node, endpoint), succeeded))
      ensures entries == After(old(entries), Call.ReleaseFinished(Key(node, endpoint), succeeded))
    {
      var key := Key(node, endpoint);
      if key !in entries || entries[key].state != Releasing {
        return Some(NotReleasing);
      }
      if succeeded {
        entries := entries - {key};
      } else {
        entries := entries[key := entries[key].(state := Uncertain)];
      }
      return None;
    }
  }

  // ---------------------------------------------------------------------------------------------
  // Histories: the ledger together with what was committed and which deallocations were dispatched.
  // A deallocation command goes to the camera exactly when StartRelease does not throw.
  // ---------------------------------------------------------------------------------------------

  datatype History = History(table: Table, commits: map<Key, seq<u16>>, dispatches: map<Key, seq<u16>>)

  const EMPTY := History(map[], map[], map[])

  function Log(m: map<Key, seq<u16>>, k: Key): seq<u16> {
    if k in m then m[k] else []
  }

  function Advance(h: History, c: Call): History {
    if Refusal(h.table, c).Some? then h else
    var h' := h.(table := After(h.table, c));
    match c
    case Commit(k, s) => h'.(commits := h.commits[k := Log(h.commits, k) + [s]])
    case StartRelease(k, s) => h'.(dispatches := h.dispatches[k := Log(h.dispatches, k) + [s]])
    case _ => h'
  }

  function Next(h: History, c: Call): Option<History> {
    Some(Advance(h, c))
  }

  /** Commits not yet spent on a deallocation. */
  function Unspent(t: Table, k: Key): seq<u16> {
    if Has(t, k, Owned) && t[k].stream.Some? then [t[k].stream.value] else []
  }

  /** What the entry of `k`, if any, says about the history of `k`. */
  ghost predicate EntryAgrees(h: History, k: Key) {
    && Log(h.commits, k) == Log(h.dispatches, k) + Unspent(h.table, k)
    && (k in h.table ==>
          var entry := h.table[k];
          match entry.state
          case Pending => entry.stream.None?
          case Owned => entry.stream.Some? && entry.stream.value != NO_STREAM
          case Releasing =>
            && entry.stream.Some? && entry.stream.value != NO_STREAM
            && Log(h.dispatches, k) != []
            && Log(h.dispatches, k)[|Log(h.dispatches, k)| - 1] == entry.stream.value
          case Uncertain => true)
  }

  ghost predicate Consistent(h: History) {
    && |h.table| <= CAPACITY
    && (forall k :: EntryAgrees(h, k))
  }

  lemma AdvanceKeepsEntry(h: History, c: Call, k: Key)
    requires EntryAgrees(h, k)
    ensures EntryAgrees(Advance(h, c), k)
  {}

  lemma AdvanceKeepsCapacity(h: History, c: Call)
    requires |h.table| <= CAPACITY
    ensures |Advance(h, c).table| <= CAPACITY
  {
    var after := After(h.table, c);
    if Refusal(h.table, c).None? && c.Reserve? {
      assert after.Keys == h.table.Keys + {c.key};
    } else {
      assert after.Keys <= h.table.Keys;
      SubsetSize(after.Keys, h.table.Keys);
    }
  }

  lemma AdvanceKeepsConsistent(h: History, c: Call)
    requires Consistent(h)
    ensures Consistent(Advance(h, c))
  {
    AdvanceKeepsCapacity(h, c);
    forall k ensures EntryAgrees(Advance(h, c), k) {
      AdvanceKeepsEntry(h, c, k);
    }
  }

  lemma {:induction false} SubsetSize<T>(a: set<T>, b: set<T>)
    requires a <= b
    ensures |a| <= |b|
  {
    assert b == a + (b - a);
  }

  /**
   Whatever the calls and however they interleave, the deallocations dispatched for an endpoint are,
   in order, the streams committed there, short of at most the one still owned.  So no commit pays
   for two deallocations and no deallocation names another stream.
   */
  lemma OnceOnly(calls: seq<Call>, h: History, k: Key)
    requires Runs.Reaches(Next, EMPTY, calls, h)
    ensures |h.table| <= 8
    ensures Log(h.dispatches, k) <= Log(h.commits, k)
    ensures |Log(h.commits, k)| == |Log(h.dispatches, k)| + (if Has(h.table, k, Owned) then 1 else 0)
    ensures Has(h.table, k, Owned) || Has(h.table, k, Releasing) ==>
              h.table[k].stream.Some? && h.table[k].stream.value != 0xFFFF
    ensures Has(h.table, k, Owned) ==> Log(h.commits, k) == Log(h.dispatches, k) + [h.table[k].stream.value]
    ensures Has(h.table, k, Releasing) ==>
              Log(h.dispatches, k) != [] && Log(h.dispatches, k)[|Log(h.dispatches, k)| - 1] == h.table[k].stream.value
  {
    forall h: History, c | Consistent(h) && Next(h, c).Some? ensures Consistent(Next(h, c).value) {
      AdvanceKeepsConsistent(h, c);
    }
    Runs.InvariantHolds(Next, Consistent, EMPTY, calls, h);
    assert EntryAgrees(h, k);
  }

  /** Once the fate of a stream is uncertain no sequence of calls changes or drops its entry. */
  lemma {:induction false} UncertainAbsorbs(h: History, calls: seq<Call>, h': History, k: Key)
    requires Has(h.table, k, Uncertain) && Runs.Reaches(Next, h, calls, h')
    ensures k in h'.table && h'.table[k] == h.table[k]
    decreases |calls|
  {
    if calls == [] {
    } else {
      UncertainAbsorbs(Next(h, calls[0]).value, calls[1..], h', k);
    }
  }

  /** A free key below capacity can be reserved and committed under any real stream, and the log tells so. */
  lemma CanBeCommitted(h: History, k: Key, s: u16)
    requires k !in h.table && |h.table| < 8 && s != 0xFFFF
    ensures Advance(Advance(h, Reserve(k)), Commit(k, s)) ==
            History(h.table[k := Entry(Owned, Some(s))], h.commits[k := Log(h.commits, k) + [s]], h.dispatches)
  {
    assert Advance(h, Reserve(k)).table == h.table[k := Entry(Pending, None)];
    assert h.table[k := Entry(Pending, None)][k := Entry(Owned, Some(s))] == h.table[k := Entry(Owned, Some(s))];
  }

  /** An owned stream can be released: one dispatch names it, and the key is free after a success and uncertain otherwise. */
  lemma CanBeReleased(h: History, k: Key, s: u16, ok: bool)
    requires k in h.table && h.table[k] == Entry(Owned, Some(s))
    ensures Advance(Advance(h, StartRelease(k, s)), ReleaseFinished(k, ok)) ==
            History(if ok then h.table - {k} else h.table[k := Entry(Uncertain, Some(s))],
                    h.commits, h.dispatches[k := Log(h.dispatches, k) + [s]])
  {
    var releasing := h.table[k := Entry(Releasing, Some(s))];
    assert Advance(h, StartRelease(k, s)).table == releasing;
    assert releasing - {k} == h.table - {k};
    assert releasing[k := Entry(Uncertain, Some(s))] == h.table[k := Entry(Uncertain, Some(s))];
  }

  /** A failed allocation leaves its key free after a known rejection, and uncertain otherwise. */
  lemma CanFail(h: History, k: Key, known: bool)
    requires k !in h.table && |h.table| < 8
    ensures Advance(Advance(h, Reserve(k)), AllocationFailed(k, known)) ==
            h.(table := if known then h.table else h.table[k := Entry(Uncertain, None)])
  {
    assert Advance(h, Reserve(k)).table == h.table[k := Entry(Pending, None)];
    assert h.table[k := Entry(Pending, None)] - {k} == h.table;
    assert h.table[k := Entry(Pending, None)][k := Entry(Uncertain, None)] == h.table[k := Entry(Uncertain, None)];
  }
}
