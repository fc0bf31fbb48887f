# Verification models for the Matter controller component

A Dafny model of the concurrency, ownership and data-bridging logic of the Windows controller component and of
its camera sample, with proofs. `dafny verify dfyconfig.toml` checks everything.

Two forms recur. A *class* carries the fields of one source object, and each of its methods is one region the
source runs without interruption (a lock region, or the code between two suspension points); its contract ties the
new fields to a pure function of the old ones. A *machine* then runs the same functions, and the steps between them,
for any number of threads (the machine prunes the gate index entry by entry; `Admission.IndexSectionIsGateFor` shows
that it ends as the method says): `MoveOf` says what one thread may do next, `Apply` what that changes, and `Runs` lifts
"every step keeps it" to "every run keeps it". The theorems quantify over every run, so over every interleaving. Beside
what never happens they say what always can: `Runs.Leads` states that some run leads from one state to another, so that
a lease is granted, a session closed, a capture attached, a stuck call ended.

| file | what it models |
|---|---|
| `Admission.dfy` | lifetime lock, weakly indexed node gates, closing flag |
| `LockOrder.dfy` | the locks every operation takes, and why they never deadlock |
| `PendingRelease.dfy`, `Cleanup.dfy` | once-only release of a camera stream under cancellation, and its composition with the allocation workflow |
| `AudioOwnership.dfy`, `Correlation.dfy`, `AudioAllocation.dfy` | the audio ledger, the correlation of a command's response, and the allocation workflow against a camera that grants or refuses |
| `Tlv.dfy`, `TlvLaws.dfy`, `TlvBridge.dfy` | property trees to TLV tokens and back (Appendix A of the Matter Core Specification): meaning, laws, and the recursive procedures over a writer and a cursor-style reader |
| `Reports.dfy`, `Progress.dfy` | bounded report buffering, and the serialized progress drain |
| `Sessions.dfy` | camera session handles and requestor endpoints |
| `Discovery.dfy` | the walk over descriptor parts lists |
| `NodeIndex.dfy` | the commissioned-node index in memory and in storage |
| `Capture.dfy` | the sample's microphone generations and sender queue |
| `Ice.dfy` | the sample's candidate queues and serialized delivery |
| `Profiles.dfy` | the sample's audio profile choice and cache |
| `Basics.dfy` | shared values, and runs of a machine |

## What the proofs found

* **A late failure report can erase another call's reservation.** The tail of an allocation reports its failure by
  endpoint, not by attempt. `AudioAllocation.LateReportLosesStream` is a run in which that loses a granted stream;
  `NeverForgets` shows nothing is lost without such a report, and `StrayReportForgets` that each such report can.
* **A failed local close leaves the camera slot taken.** `Sessions.CloseSticksIff` says exactly when,
  `SlotCanStick` is a run from the start that gets there, and `StuckUntilShutdown` shows that no later call frees the
  slot: the session no longer validates, so the close cannot be repeated.
* **The validation inside Send protects nothing after it.** The command is built and sent later, without the stack
  lock. `Sessions.CommandsReachTheirSession` holds because of the camera gate and the lifetime lease;
  `GateIsNeeded` is a run that, without the gate, sends through a client that is gone.
* **A node whose index write failed once is never written by a retry.** `NodeIndex.RetryIsNotDurable` and, exactly,
  `AddedIsDurableIff`. `README.md:513` of the repository presents recovery as restoring the index; the code does so only when the
  node is not already in the list in memory, and the model follows the code.
* **A full sender queue keeps a stopped track attached.** `Capture.FullQueueKeepsTrack` is the run: seven stops
  leave seven null updates outstanding, a capture's track is the eighth, and the next stop is refused. Exactly when a
  stop does detach, if all outstanding updates succeed, is `Capture.StopDetachesIff`.
* **A granted microphone track can be lost** if a stop falls between the look at the grant and the continuation
  of the attempt: `Capture.TrackCanBeLost` is the run, and `RunLosesIff` says which runs do. This is an interleaving of
  microtasks that the model allows; where the look and the continuation run in one turn of the event loop it cannot
  happen (`Capture.OffMeansNothingLive`).

## Model

| member | source | states |
|---|---|---|
| Admission.GateIndex.GateFor | winrt/Projection.cpp:135-155 | Under the index mutex exactly the expired entries go; a node keeps its living gate, and otherwise gets one no entry ever named |
| Admission.IndexSectionIsGateFor | winrt/Projection.cpp:135-155 | The machine's steps under the index mutex, pruning entry by entry, lead to exactly the index and the gate that GateFor computes |
| Admission.IndexSectionOnlyGateFor | winrt/Projection.cpp:135-155 | and whatever steps a thread takes alone from there to its strong reference, in whatever order it prunes, end at that result |
| Admission.OneGatePerNode | winrt/Projection.cpp:135-157 | In every run, two threads with strong references share a gate if and only if they mean the same node |
| Admission.NodeExclusion | winrt/Projection.cpp:105-158 | At no moment do two threads hold a lease for one node, and every node lease stands under a shared lifetime lease |
| Admission.ExclusiveStandsAlone | winrt/Projection.cpp:160-167 | While one thread holds the exclusive lifetime lease no other operation is admitted in either mode |
| Admission.ShutdownBarrier | winrt/Projection.cpp:169-223 | Once BeginShutdown has returned, no operation is under a lease and none is admitted in any continuation; a call that has ended, cleanup included, owns nothing |
| Admission.LifetimeIsGranted | winrt/Projection.cpp:198-223 | While the controller is open a new call gets the lifetime lease in its mode whenever the lock is free for that mode |
| Admission.NodeIsGranted | winrt/Projection.cpp:130-158 | From every reachable open state a shared lease, or a cleanup lease, gets on to the lease of a node whose gate is free |
| Admission.FreeNodeIsGranted | winrt/Projection.cpp:122-128 | So a new call gets from nothing to the node lease |
| Admission.CleanupIsGranted | winrt/Projection.cpp:182-195 | A cleanup gets its shared lease on the same terms |
| Admission.ShutdownIsGranted | winrt/Projection.cpp:169-173 | A shutdown gets the exclusive lock as soon as nobody holds the lifetime lock, and closes the controller by it |
| Admission.RefusedForAReason | winrt/Projection.cpp:79-99 | No call leaves the admission loops by an exception, and no cleanup comes back with nothing, unless the controller is closing, the operation was canceled or its time is up |
| Admission.ClosingRefuses | winrt/Projection.cpp:79-99 | Once the controller is closing every call is turned away at its next look at the flag |
| Admission.EndedOwnsNothing | winrt/Projection.cpp:105-111 | In every run a call that has ended owns no lock and refers to no gate |
| Admission.NodeIsReturned | winrt/Projection.cpp:107-110 | A node lease is given back, the gate before the lifetime lock, and everything else is as it was |
| Admission.EveryCallCanEnd | winrt/Projection.cpp:105-223 | From every reachable state a call in the admission loops or under a lease can come to its end by itself, by its deadline if need be, whoever holds the locks, and then owns nothing |
| LockOrder.EveryProgramRises | winrt/Projection.cpp:1604-1682 | Each of the modelled operations takes its locks in strictly increasing rank, the lifetime lock once, and shares no other |
| LockOrder.WhatGuards | winrt/Projection.cpp:1604-1682 | Which of the lifetime lock, the node index, the gate of the one node and the camera gate each operation takes: exactly these |
| LockOrder.SomeoneCanStep | winrt/Projection.cpp:1896-1936 | Deadlock freedom: in every reachable state with an unfinished operation some operation can take its next lock step; exclusive locks exclude |
| LockOrder.EverythingCanFinish | winrt/Projection.cpp:1896-1936 | From every reachable state a run brings all operations to their end, and then nobody holds a lock |
| PendingRelease.PendingCameraRelease.CancelLocked | winrt/CameraVideoStreamAllocation.h:22-34 | Cancels for good, changes nothing else, and asks for a release exactly when an identifier is there |
| PendingRelease.PendingCameraRelease.RecordLocked | winrt/CameraVideoStreamAllocation.h:36-48 | Keeps the identifier and asks for a release exactly when already canceled |
| PendingRelease.PendingCameraRelease.EnterLocked | winrt/CameraVideoStreamAllocation.h:50-67 | Waits behind a started release, leaves when there is nothing to release, and otherwise claims the one call |
| PendingRelease.PendingCameraRelease.FinishLocked | winrt/CameraVideoStreamAllocation.h:78-84 | The outcome sticks, and the identifier goes only after success |
| PendingRelease.AtMostOnce | winrt/CameraVideoStreamAllocation.h:50-91 | In every interleaving the release function is entered at most once, with an identifier Record was called with, and whoever waited returns with that one outcome |
| PendingRelease.ExactlyOnceByQuiescence | winrt/CameraVideoStreamAllocation.h:22-110 | When nothing can move nobody is stuck waiting, and after calls of Cancel and of Record, in either order, the release ran exactly once, on a recorded identifier |
| PendingRelease.OutcomeIsShared | winrt/CameraVideoStreamAllocation.h:50-91 | What the one call of the release function comes to is what every Release returns, in every continuation |
| PendingRelease.ReleaseIsHonored | winrt/CameraVideoStreamAllocation.h:50-91 | A call of Release behind a Record is never for nothing, canceled or not: by quiescence the release ran exactly once |
| PendingRelease.NothingIsReleasedUnasked | winrt/CameraVideoStreamAllocation.h:22-48 | In a run without a call of Cancel or Release nothing is released and nothing is handed over |
| Cleanup.CanceledIsCleanedUp | winrt/Projection.cpp:4843-4864 | The pending release composed with the allocation workflow: when nothing can move any more, an attempt that called Cancel and Record has begun exactly one deallocation, of its stream, and the stream is confirmed gone or its entry is uncertain |
| Cleanup.ReleaseTellsTheOutcome | winrt/Projection.cpp:4843-4864 | In every run, what a Release returns is how the deallocation of the attempt's own stream came out |
| AudioOwnership.CameraAudioAllocationOwnership.Reserve | winrt/CameraAudioAllocationOwnership.h:15-27 | A free key below capacity becomes pending; otherwise the fault and no change |
| AudioOwnership.CameraAudioAllocationOwnership.Commit | winrt/CameraAudioAllocationOwnership.h:29-40 | Only a pending entry becomes owned, under a stream that is not reserved |
| AudioOwnership.CameraAudioAllocationOwnership.AllocationFailed | winrt/CameraAudioAllocationOwnership.h:42-57 | Only a pending entry changes: erased on a known rejection, else uncertain |
| AudioOwnership.CameraAudioAllocationOwnership.StartRelease | winrt/CameraAudioAllocationOwnership.h:59-68 | Only an entry owned under exactly that stream starts to release |
| AudioOwnership.CameraAudioAllocationOwnership.ReleaseFinished | winrt/CameraAudioAllocationOwnership.h:70-86 | Only a releasing entry changes: gone on success, else uncertain |
| AudioOwnership.OnceOnly | winrt/CameraAudioAllocationOwnership.h:29-86 | Over every call sequence the deallocations dispatched at a key are, in order, the streams committed there, short of at most the one still owned; at most 8 entries; owned and releasing entries name a real stream |
| AudioOwnership.UncertainAbsorbs | winrt/CameraAudioAllocationOwnership.h:42-86 | No sequence of calls changes or drops an uncertain entry |
| AudioOwnership.CanBeCommitted | winrt/CameraAudioAllocationOwnership.h:15-40 | From every history a free key below capacity can be reserved and committed under any real stream |
| AudioOwnership.CanBeReleased | winrt/CameraAudioAllocationOwnership.h:59-86 | An owned stream can be released, by one dispatch that names it; the key is free after a success and uncertain otherwise |
| AudioOwnership.CanFail | winrt/CameraAudioAllocationOwnership.h:15-57 | A failed allocation leaves its key free after a known rejection and uncertain otherwise |
| Correlation.GenericInvokeState.OnResponse | winrt/Projection.cpp:1446-1479 | One response callback: the correlation checks, in the code's order, and what each outcome records |
| Correlation.GenericInvokeState.Finish | winrt/Projection.cpp:1548-1556 | A failed connection completes the operation with its error |
| Correlation.GenericInvokeState.OnDone | winrt/Projection.cpp:1483-1494 | Completion turns a missing response into a timeout, and the outcome is that of the callbacks received |
| Correlation.SucceedsOnlyOnOneCorrelatedResponse | winrt/Projection.cpp:1446-1494 | A command that named its response succeeds if and only if its only callback was one correlated, decodable success, whose payload it returns |
| Correlation.ImStatusComesFromThePeer | winrt/Projection.cpp:1458-1481 | A status outcome was told by some callback; it is never made up locally |
| Correlation.RefusalIsReported | winrt/Projection.cpp:1446-1494 | A refusal told by the one callback from the right endpoint and cluster is reported with its status; no callback at all is a timeout |
| Correlation.SecondResponseIsRefused | winrt/Projection.cpp:1446-1456 | A command that named its response refuses a second one from its endpoint and cluster, whatever came of the first |
| Correlation.UnnamedTakesTheLast | winrt/Projection.cpp:1446-1494 | A command without a named response succeeds with the payload of its last callback, however many there were |
| Correlation.UnnamedReportsTheLastFailure | winrt/Projection.cpp:1446-1494 | and with a failing callback it reports the last one told |
| AudioAllocation.NeverForgets | winrt/Projection.cpp:4719-4792 | In every run without a stray report, a stream the camera granted and has not confirmed gone is on the ledger at every moment, and after its call exits the entry is uncertain, or owned or releasing under exactly that stream |
| AudioAllocation.DroppedOnlyWhenGone | winrt/Projection.cpp:4775-4791 | An entry is dropped only when its command was never sent, was refused, or its deallocation was confirmed, and nothing granted is left at that key |
| AudioAllocation.FailureIsResolved | winrt/Projection.cpp:4781-4791 | The converse, in every run: when an uncommitted attempt reports its failure on a reserved key, the key becomes free for a new allocation if the command was never sent, and uncertain if it is in flight or was granted |
| AudioAllocation.RefusalIsResolved | winrt/Projection.cpp:2278-2295 | And the key leaves the ledger when the command came back with a status of the peer, whatever others did in between |
| AudioAllocation.FreeKeyCanBeAllocated | winrt/Projection.cpp:4719-4780 | From every state a new attempt on a free key below capacity can reserve, send, be granted and commit, and the ledger then owns that stream |
| AudioAllocation.OwnedCanBeReleased | winrt/Projection.cpp:4699-4717 | From every state an owned stream can be released: its key becomes free, and the stream counts as confirmed gone |
| AudioAllocation.OutstandingIff | winrt/Projection.cpp:4699-4780 | A stream comes to exist by a grant and ceases to by a deallocation of it at its key that succeeds, in no other way |
| AudioAllocation.RollbackWaitsForItsOwn | winrt/Projection.cpp:4771-4779 | A rollback goes on exactly when the release it asked for is over, and reports that one's failure if it has any |
| AudioAllocation.EveryAttemptCanEnd | winrt/Projection.cpp:4719-4792 | From every state an attempt can come to its end, one that rolls back as soon as its own release is over |
| AudioAllocation.OneCallNeverForgets | winrt/Projection.cpp:4719-4792 | With one call per endpoint, whatever happens in it, no granted stream is ever forgotten, and no exited call leaves its entry pending |
| AudioAllocation.StrayReportForgets | winrt/Projection.cpp:4781-4791 | Converse of the guard: after a stray report, every other attempt at that key that has its stream or may still get one can end up forgotten |
| AudioAllocation.LateReportLosesStream | winrt/Projection.cpp:4781-4791 | A concrete interleaving of two calls on one endpoint ends with a live stream and an empty ledger |
| AudioAllocation.NeverReleasesTwice | winrt/Projection.cpp:4699-4717 | Under all interleavings, stray reports included, deallocations stay within commits, stream by stream |
| Tlv.ParseDecimal | winrt/Projection.cpp:375-380 | The decimal key a decoded field is stored under parses back to that field's tag |
| Tlv.SpacedKeyNames | winrt/Projection.cpp:372-386 | Which keys name which tag: spaces, a sign and digits, leading zeros included; a number above 255 names none, and a negative one only if it wraps round to eight bits |
| Tlv.OnlySpacedKeysName | winrt/Projection.cpp:372-386 | Up to its first NUL no key of any other form names a tag |
| Tlv.NulEndsTheKey | winrt/Projection.cpp:372-386 | What comes behind a NUL in a key has no say in its tag |
| TlvLaws.RoundTrip | winrt/Projection.cpp:367-452 | A value with distinctly tagged fields that encodes reads back, at any depth and whatever follows, as its normal form (each integer as the 64-bit one of the same number, single as double, byte array as byte vector, keys in decimal and sorted), leaving exactly what followed |
| TlvLaws.DecodeMeansElement | winrt/Projection.cpp:518-552 | Reading an element consumes exactly its tokens and gives its value, every field under that field's own tag |
| TlvLaws.DecodeConsumesOneElement | winrt/Projection.cpp:474-556 | Conversely whatever decodes is one whole element followed by the rest, and the result is that element's value |
| TlvLaws.LastFieldWins | winrt/Projection.cpp:518-552 | A structure decodes to one entry a tag, even where a tag is repeated: its entries are exactly the last fields |
| TlvLaws.Reencode | winrt/Projection.cpp:367-452 | Re-encoding the value of a canonical element reproduces its tokens |
| TlvLaws.OrderDoesNotMatter | winrt/Projection.cpp:372-386 | A property set encodes the same, or fails, in whatever order its entries are enumerated |
| TlvLaws.EncodesIff | winrt/Projection.cpp:389-452 | A value encodes if and only if it holds, at any depth, no unsupported type and no key that names no tag |
| TlvLaws.DecodesIff | winrt/Projection.cpp:518-552 | An element decodes if and only if, at any depth, its type is known and the fields of its structures have context tags |
| TlvBridge.EncodeInspectable | winrt/Projection.cpp:389-452 | Appends exactly the encoding of the value, and fails exactly when there is none or it does not fit |
| TlvBridge.FloatsKeepTheirWidth | winrt/Projection.cpp:436-439 | A single-precision number takes four octets, a double eight |
| TlvBridge.WidthIsLeast | winrt/Projection.cpp:418-435 | An integer is written in the least of 1, 2, 4 and 8 octets that holds it |
| TlvBridge.EncodePropertySet | winrt/Projection.cpp:367-387 | The same for a property set, through key parsing, sorting and one field after the other |
| TlvBridge.SortedFieldsEncode | winrt/Projection.cpp:372-386 | Writing the sorted parsed fields one by one is encoding the property set |
| TlvBridge.EncodePropertySetRoot | winrt/Projection.cpp:454-472 | A root encodes to its meaning within 64 KiB, a root "value" standing for that value alone, and fails exactly otherwise |
| TlvBridge.DecodeTlvValue | winrt/Projection.cpp:474-556 | The cursor procedure returns what the tokens under the cursor mean and stops behind that element, although recursion moves the cursor before a field is stored |
| TlvBridge.DecodePropertySetRoot | winrt/Projection.cpp:558-569 | A property set is returned as it is and anything else under "value" |
| TlvBridge.RootRoundTrip | winrt/Projection.cpp:454-472 | A root that encodes and is distinctly tagged comes back as its normal form with nothing left over; a root "value" holding a property set comes back unwrapped |
| TlvBridge.RootReencodes | winrt/Projection.cpp:454-569 | What was decoded from a canonical anonymous element encodes as a root to exactly its tokens again (so the root encoder succeeds on it exactly when they fit its 64 KiB) |
| Reports.Subscription.PublishLocked | winrt/Projection.cpp:3335-3354 | Publishing raises, buffers (dropping the oldest of 256), or ignores after close |
| Reports.Subscription.AddLocked | winrt/Projection.cpp:3265-3275 | The first handler takes the buffered batch and starts draining |
| Reports.Subscription.SwapLocked | winrt/Projection.cpp:3292-3299 | The drain ends exactly on an empty buffer and otherwise takes all of it |
| Reports.InOrderAndAccountedFor | winrt/Projection.cpp:3259-3354 | Delivered, in hand, buffered and in flight are in publishing order without repetition, and with the dropped ones are exactly what was published while open |
| Reports.NothingWaitsForNothing | winrt/Projection.cpp:3335-3354 | In every run a report waits in the buffer only while there is no handler or a drain goes on; with a handler, no drain and nothing in flight every report published is delivered or was dropped |
| Reports.RaisedAtOnce | winrt/Projection.cpp:3343-3353 | With a handler and no drain a report published is in flight at once, and the buffer empty |
| Reports.PublishedWhileOpen | winrt/Projection.cpp:3335-3342 | What counts as published are exactly the publications before the first close |
| Reports.DrainCanFinish | winrt/Projection.cpp:3276-3309 | A drain can always be brought to its end, with everything published by then delivered or dropped before, and it takes its handler out exactly when a call of a handler has failed |
| Reports.DroppedOnlyWhenFull | winrt/Projection.cpp:3441-3460 | A report is dropped only by a publication that finds 256 buffered, and it is the oldest of them |
| Reports.NothingAfterClose | winrt/Projection.cpp:3321-3342 | Nothing published after a close is ever delivered |
| Progress.CommissioningProgress.PublishLocked | winrt/Projection.cpp:5970-5981 | Appends, and asks for a drain exactly when none is scheduled |
| Progress.CommissioningProgress.TakeLocked | winrt/Projection.cpp:5995-6005 | Takes the oldest event, or clears the flag exactly when there is none |
| Progress.OneDrainWhileScheduled | winrt/Projection.cpp:5970-6003 | At most one drain exists, and one exists exactly while the flag is set |
| Progress.DeliveredInOrder | winrt/Projection.cpp:5990-6016 | Delivered, in hand and pending concatenate to the published sequence |
| Progress.WaitMeansDelivered | winrt/Projection.cpp:6018-6022 | A wait returns only when everything published before it was called has been delivered, at a moment when nothing is left |
| Progress.WaitCanReturn | winrt/Projection.cpp:6018-6022 | From every reachable state a waiting call can return, behind everything published by then |
| Progress.WaitIsOver | winrt/Projection.cpp:6018-6022 | With no drain left every waiting call can return |
| Sessions.CameraControllerRuntime.CreateSession | winrt/CameraControllerRuntime.h:107-145 | Refuses a taken slot and exhausted counters; a failure after registration costs an endpoint but no handle |
| Sessions.CameraControllerRuntime.CloseLocalSession | winrt/CameraControllerRuntime.h:182-194 | Ignores other handles; drops the client first, and frees the slot only when both native steps succeed |
| Sessions.CameraControllerRuntime.ShutdownHost | winrt/CameraControllerRuntime.h:74-92 | Drops the client, and the slot unless unregistration fails |
| Sessions.HandlesAreNeverReused | winrt/CameraControllerRuntime.h:107-145 | In every run handles are issued as 1, 2, 3, ..., requestor endpoints strictly increase below the invalid one, neither counter wraps, and only the last session issued can be active |
| Sessions.ClosesExactlyItsSession | winrt/Projection.cpp:2221-2237 | From its validation on, a thread that sends to or closes a session holds gate and lease, or the exclusive lease, and its session stays the active one; a command it sends goes through that session's objects, which the host still has; the slot is freed exactly when the native steps succeed |
| Sessions.HostStandsStill | winrt/Projection.cpp:2208-2237 | While a thread uses a session no run of the others, starts, closes, candidates and shutdown included, changes the host |
| Sessions.CommandsReachTheirSession | winrt/CameraControllerRuntime.h:196-359 | Every offer, candidate and End ever sent was built from, and when it went out still found, the client, endpoint and native session made for the handle it was meant for, although validation, building and sending are three steps |
| Sessions.FreeSlotCanBeTaken | winrt/Projection.cpp:1975-2079 | In every reachable state with a free slot, endpoints left and the locks free, a start gets the next handle, which then validates, and its offer goes out |
| Sessions.OfferedReturns | winrt/Projection.cpp:2057-2068 | and a start whose metadata can be read then returns its locks and leaves the session to its caller |
| Sessions.CandidatesCanBeSent | winrt/Projection.cpp:2081-2140 | With the locks free the peer of a valid session is sent candidates through the session's own objects |
| Sessions.ValidSessionCanBeClosed | winrt/Projection.cpp:2203-2243 | A close of a valid session sends one End, through the session's own objects, frees the slot and returns its locks |
| Sessions.ShutdownEndsTheSession | winrt/Projection.cpp:1627-1661 | Closing the controller ends a valid session with one End as well, and frees the slot |
| Sessions.OfferedMeansSent | winrt/Projection.cpp:2039-2056 | In every run a start goes on as offered only if its offer was sent |
| Sessions.FailedStartGivesUp | winrt/Projection.cpp:2045-2075 | A start that fails once its session is made, at the connection, the answer or the metadata, goes on to send one End and to free the slot |
| Sessions.EveryCallCanEnd | winrt/Projection.cpp:1975-2243 | From every reachable state any call but a shutdown that waits for the others can come to its end on its own, whoever holds the locks, and then holds none |
| Sessions.GateIsNeeded | winrt/CameraControllerRuntime.h:332-359 | Without the camera gate a reachable state leads to a command sent through a client and an endpoint that are gone |
| Sessions.CloseSticksIff | winrt/CameraControllerRuntime.h:182-194 | Closing a valid session leaves a slot that is taken and cannot validate exactly when the native close or the unregistration fails |
| Sessions.SlotCanStick | winrt/Projection.cpp:2045-2050 | A run from the start, a failed offer and then a failed native close, ends with every call over and the slot taken by a session that cannot validate |
| Sessions.StuckUntilShutdown | winrt/Projection.cpp:2203-2237 | From such a state no run of starts and closes changes the host: every creation is refused as busy and no handle validates |
| Discovery.AddParts | winrt/Projection.cpp:5799-5812 | The inner loop takes up the new parts in order, and reports a bad part or the 129th endpoint |
| Discovery.DiscoverCameraEndpoints | winrt/Projection.cpp:5776-5817 | Unless canceled or given no operational node, succeeds if and only if every reachable endpoint is readable and lists neither itself nor the invalid endpoint and at most 128 are reachable; returns the cameras of the discovery order; a fault names something true of the node |
| Discovery.DiscoverableIff | winrt/Projection.cpp:5799-5812 | What makes a node discoverable: no reachable endpoint is unreadable or lists 0xFFFF or itself, and at most 128 are reachable |
| Discovery.OrderIsUnique | winrt/Projection.cpp:5793-5812 | The discovery order, defined as a list that discloses exactly itself, is unique |
| Discovery.OrderListsReachable | winrt/Projection.cpp:5793-5812 | It lists exactly the endpoints reachable from the root, each once, the root first |
| Discovery.CamerasAreExact | winrt/Projection.cpp:5813-5817 | What is returned is exactly the reachable endpoints with camera clusters, none twice |
| NodeIndex.ControllerRuntime.LoadCommissionedNodes | winrt/Projection.cpp:2668-2698 | The growing buffer (1, 2, 4, ..., 4096, 8191 identifiers, its size always within sixteen bits) ends, and the result is the stored list, or the fault for a value too large, empty or ragged, with memory unchanged |
| NodeIndex.ControllerRuntime.PersistCommissionedNodes | winrt/Projection.cpp:2700-2718 | An empty list deletes the value and tolerates its absence; more than 65535 bytes are refused; otherwise the list is written whole |
| NodeIndex.ControllerRuntime.AddNode | winrt/Projection.cpp:1763-1767 | The end of a commissioning or recovery: a new node is appended and the list persisted, a known one changes nothing |
| NodeIndex.ControllerRuntime.RemoveNode | winrt/Projection.cpp:1813-1825 | After unpairing every occurrence goes and the list is persisted |
| NodeIndex.NodesOfImage | winrt/Projection.cpp:2716-2717 | The bytes written for a list read back as that list |
| NodeIndex.PersistThenLoad | winrt/Projection.cpp:2668-2718 | Persisting succeeds for exactly the lists of up to 8191 identifiers, and loading then restores each of them |
| NodeIndex.IndexIsKept | winrt/Projection.cpp:1792-1825 | In every run, whatever fails, the list has no duplicates and storage can be loaded; where no storage operation fails storage equals memory and a restart changes nothing |
| NodeIndex.IndexFollowsItsCalls | winrt/Projection.cpp:1763-1825 | In a run without storage failures a node is in the list, and found after a restart, if and only if the last call that named it was not a successful removal |
| NodeIndex.AddedIsDurableIff | winrt/Projection.cpp:1805-1809 | A recovery that reports success has made the node durable if and only if it was not in memory or was durable before |
| NodeIndex.RetryIsNotDurable | winrt/Projection.cpp:1805-1809 | After a failed write the next attempt reports success and writes nothing, for every index and node |
| Capture.RealtimeAudio.StartCapture | samples/ControllerApp/Camera/realtime-audio.js:138-153 | A new generation begins exactly when eligible and none is pending or wanted, and it is the active one |
| Capture.RealtimeAudio.StopCapture | samples/ControllerApp/Camera/realtime-audio.js:260-285 | Clears every flag and the track, supersedes the generation, and asks for the null track where there is a sender |
| Capture.RealtimeAudio.ReplaceTrack | samples/ControllerApp/Camera/realtime-audio.js:311-322 | Rejected exactly when eight updates are outstanding |
| Capture.RealtimeAudio.OnStream | samples/ControllerApp/Camera/realtime-audio.js:202-237 | A superseded attempt changes nothing; a current one adopts its one audio track or stops |
| Capture.FlagsAreHonest | samples/ControllerApp/Camera/realtime-audio.js:138-285 | In every run attached implies enabled implies wanted, open and a current track; and attached means that track is the one the sender has, with no update outstanding |
| Capture.OffMeansDetached | samples/ControllerApp/Camera/realtime-audio.js:273-322 | With the microphone off and all updates done the sender has no track, unless the null-track update failed or found eight outstanding |
| Capture.StopDetachesIff | samples/ControllerApp/Camera/realtime-audio.js:273-322 | If from a stop on nothing happens but the outstanding updates succeeding, the sender ends up without a track if and only if fewer than eight were outstanding at the stop or the newest of them already asked for the null track |
| Capture.FullQueueKeepsTrack | samples/ControllerApp/Camera/realtime-audio.js:311-322 | A run from the start ends with the microphone off, every update done and successful, and the track still on the sender |
| Capture.WantedIsPursued | samples/ControllerApp/Camera/realtime-audio.js:151-257 | A wanted capture always has a current attempt, finished exactly when attached |
| Capture.CaptureCanAttach | samples/ControllerApp/Camera/realtime-audio.js:138-258 | From every reachable state with an open engine, no capture wanted or pending and fewer than eight updates outstanding, a run leads to the sender having the next track granted, live, with every flag set |
| Capture.StopsAtOnce | samples/ControllerApp/Camera/realtime-audio.js:217-285 | A stop, a close and the end of the track are taken in every reachable state: the flags fall at once and the captured track is no longer live |
| Capture.FailureStops | samples/ControllerApp/Camera/realtime-audio.js:249-254 | A failure, or the deadline, of the current attempt turns capture off at once |
| Capture.SupersededEnds | samples/ControllerApp/Camera/realtime-audio.js:203-246 | A superseded attempt ends where it next goes on, and leaves the engine alone |
| Capture.AdoptsIff | samples/ControllerApp/Camera/realtime-audio.js:203-235 | A grant is adopted if and only if its attempt is current, it is one usable track and the sender has bit-rate controls; otherwise its tracks are stopped |
| Capture.SupersededChangesNothing | samples/ControllerApp/Camera/realtime-audio.js:186-246 | No continuation of a superseded attempt changes the engine, but for no longer being the pending one |
| Capture.OneCurrentAttempt | samples/ControllerApp/Camera/realtime-audio.js:152-153 | At most one attempt is current in any reachable state |
| Capture.OneRequestAtATime | samples/ControllerApp/Camera/realtime-audio.js:144-200 | In every run at most one microphone request is open, that of the pending attempt |
| Capture.OnlyTheCurrentAsks | samples/ControllerApp/Camera/realtime-audio.js:159-175 | Permission is asked for only by an attempt still current; a superseded one gives up |
| Capture.BeginsIff | samples/ControllerApp/Camera/realtime-audio.js:138-147 | A capture begins exactly when the engine is open and none is pending or wanted, and the end of a track ends a capture exactly when it is the captured one |
| Capture.SenderUpdatesInOrder | samples/ControllerApp/Camera/realtime-audio.js:311-322 | Updates settle in the order accepted, and 0 to 8 are outstanding |
| Capture.OffMeansStopped | samples/ControllerApp/Camera/realtime-audio.js:186-193 | With the microphone off a live track is held by an attempt not yet resumed, or is lost |
| Capture.RunLosesIff | samples/ControllerApp/Camera/realtime-audio.js:186-205 | A run loses a track if and only if in some step of it a superseded attempt goes on with a grant that is still live |
| Capture.TrackCanBeLost | samples/ControllerApp/Camera/realtime-audio.js:186-205 | A run from the start ends with a live track that nothing refers to and the microphone off |
| Capture.OffMeansNothingLive | samples/ControllerApp/Camera/realtime-audio.js:186-213 | Where those two run in one turn nothing is ever lost, and with the microphone off no granted track is live |
| Ice.Receiver.OnIceCandidate | samples/ControllerApp/Camera/receiver.js:126-142 | A candidate of the current peer is published after the offer, held before it, or closes the receiver when 32 are held |
| Ice.Receiver.PublishOffer | samples/ControllerApp/Camera/receiver.js:241-255 | The offer goes out, then the held candidates in order, and only for the current peer |
| Ice.Receiver.HoldRemote | samples/ControllerApp/Camera/receiver.js:306-327 | Before the answer a batch is held candidate by candidate up to an invalid one or the 32nd |
| Ice.HoldsIff | samples/ControllerApp/Camera/receiver.js:306-327 | Before the answer a batch is held whole if and only if all of it is valid and fits among 32, and otherwise exactly up to the invalid candidate, or the 33rd, that stopped it |
| Ice.GatheredIsKept | samples/ControllerApp/Camera/receiver.js:126-142 | In every reachable state a candidate of the current peer is published at once behind the offer and kept before it, only the 33rd before the offer closes the peer, and one of another peer changes nothing |
| Ice.OfferGoesOut | samples/ControllerApp/Camera/receiver.js:48-256 | Without a peer a well-formed, supported start is not refused: a run brings its peer up and its offer out |
| Ice.OfferBringsCandidates | samples/ControllerApp/Camera/receiver.js:241-255 | The offer takes with it, in order, every candidate its peer has gathered |
| Ice.AnswerIsApplied | samples/ControllerApp/Camera/receiver.js:285-301 | An answer under the current token is not refused: a run describes the peer and gives it everything held |
| Ice.CandidatesAreAdded | samples/ControllerApp/Camera/receiver.js:302-320 | Up to sixteen valid candidates under the token of a described peer all reach it |
| Ice.DeliveryKeepsPeerIff | samples/ControllerApp/Camera/receiver.js:257-330 | Which messages leave a peer behind, exactly; every other one closes it |
| Ice.OnlyStopsOvertake | samples/ControllerApp/Camera/receiver.js:402-414 | A message joins the queue behind all others, but for a stop under the current token, which is taken at once |
| Ice.LocalCandidatesInOrder | samples/ControllerApp/Camera/receiver.js:126-255 | For every peer ever, nothing is published before its offer, and then exactly what it gathered, in order |
| Ice.PublishedUnderOwnToken | samples/ControllerApp/Camera/receiver.js:20-22 | Whatever is published for a peer carries the token of its own start, although publishing reads a shared variable; at most 32 are held |
| Ice.RemoteCandidatesInOrder | samples/ControllerApp/Camera/receiver.js:285-327 | For every peer ever, the candidates added are a prefix of those its own token's messages behind its start carry; so none of an earlier peer |
| Ice.RemoteCandidatesWait | samples/ControllerApp/Camera/receiver.js:289-327 | They are all valid, none is added before the remote description is set, and at most 32 are held |
| Ice.NothingIsForgotten | samples/ControllerApp/Camera/receiver.js:293-327 | Between deliveries an answered peer has been given every candidate sent to it |
| Ice.DeliveryOwnsItsPeer | samples/ControllerApp/Camera/receiver.js:402-414 | While a message is delivered for a peer no other is current, so its failure can close only that peer |
| Ice.ClosedForEver | samples/ControllerApp/Camera/receiver.js:24-42 | Nothing is published for or added to a peer once it is no longer current, in any continuation |
| Ice.StopIsFinal | samples/ControllerApp/Camera/receiver.js:403-407 | A stop under the current token closes its peer at once, whatever is being delivered, and in no continuation is anything more published for or added to that peer |
| Profiles.CameraAudioProfiles.Prepare | samples/ControllerApp/Camera/CameraAudioProfiles.cs:22-97 | The two candidate loops, the cache check and the truncation do what the specification says, and a refused request leaves the key alone |
| Profiles.PreparedProfiles | samples/ControllerApp/Camera/CameraAudioProfiles.cs:42-96 | Succeeds if and only if the request is supported and some profile is admissible; returns 1 to 3 distinct profiles, each within the bandwidth beside the video (twice for talk), of the chosen depth, and accepted by the audio engine's checks |
| Profiles.RefusalsAreExact | samples/ControllerApp/Camera/CameraAudioProfiles.cs:26-54 | Each refusal names the first thing missing: listening, full-duplex talkback, or a common depth |
| Profiles.NoRateMeansNoRoom | samples/ControllerApp/Camera/CameraAudioProfiles.cs:56-96 | A request is refused for want of a rate only if at every common rate the bandwidth has no room for 6 kbit/s in each direction beside the video |
| Profiles.PreparedIsAdvertised | samples/ControllerApp/Camera/CameraAudioProfiles.cs:42-96 | Every profile returned has a rate and a depth that the engine, the microphone and, for talk, the speaker advertise, and fits the bandwidth |
| Profiles.BestComesFirst | samples/ControllerApp/Camera/CameraAudioProfiles.cs:56-65 | Without a cached choice the first profile has the highest admissible rate, and the highest bit rate at it |
| Profiles.CandidatesAreExactly | samples/ControllerApp/Camera/CameraAudioProfiles.cs:56-76 | The candidates are exactly the rates both ends can do at full budget and, where fewer than three fit, the highest of them at 32 and 20 kbit/s as far as that is less |
| Profiles.CandidatesInOrder | samples/ControllerApp/Camera/CameraAudioProfiles.cs:57-76 | Falling rates at full budget come first, then falling budgets |
| Profiles.FrontedPermutes | samples/ControllerApp/Camera/CameraAudioProfiles.cs:88-91 | The cached choice only permutes the candidates |
| Profiles.RememberedComesFirst | samples/ControllerApp/Camera/CameraAudioProfiles.cs:84-104 | A profile that worked comes first for the same request until the cache expires |
| Profiles.StaleIsIgnored | samples/ControllerApp/Camera/CameraAudioProfiles.cs:84-118 | A choice remembered for another request or too long ago has no effect |
| Profiles.RememberedExpires | samples/ControllerApp/Camera/CameraAudioProfiles.cs:99-118 | A remembered choice is forgotten after five minutes |
| Profiles.KeysTellApart | samples/ControllerApp/Camera/CameraAudioProfiles.cs:77-83 | Two requests share a cached choice if and only if they agree in everything that decides the candidates |
| Profiles.OtherRequestsAreUnaffected | samples/ControllerApp/Camera/CameraAudioProfiles.cs:84-118 | A choice that worked for one request has no effect on a request with another key |

## Left out

Of the repository:

- The Matter SDK is not in the repository: its TLV writer and reader, storage, command sender, session manager and mutexes appear as the contracts the code relies on.
- Initialization, certificates, credentials, commissioning stages and transports: foreign calls in a fixed order.
- Property getters, boxing, factories, category mappings and single-record validators: each settled by reading one branch.
- Windows, view models, widgets, QR scanning and the JSON stores of the samples; media statistics, playback and audibility.
- Wall-clock time: a deadline or cancellation may strike at any step that reads it, and the expiry of the profile cache compares abstract minutes. No fairness of mutexes is claimed; a waiting thread may wait as long as others hold the lock.
- Memory order: atomic flags are read and written in one order seen by all.
- The timing of the loop that polls one camera command, and the reading of received signals: they change no handle.

Assumptions and deliberate limits of members:

- AudioAllocation.NeverForgets: assumes an honest camera, that is, a status error means that nothing was granted, and a correlated success carries the granted stream; and excludes the stray report that `LateReportLosesStream` exhibits.
- Reports.InOrderAndAccountedFor: assumes one publisher at a time and no handler removed during a drain, so a report a handler throws on counts as delivered.
- LockOrder.EveryProgramRises: speaks of the operations in `LockOrder.Task`, transcribed by hand; the mutexes of reports, progress, ledgers and pending releases are left out, because nothing in the table is acquired under them.
- LockOrder.SomeoneCanStep: covers the lock acquisitions of the listed operations, each as one nested program; a shared acquisition also waits for waiting writers, the least favourable behaviour; waits on conditions are not lock steps.
- TlvLaws.RoundTrip: strings are UTF-8 code units and floating-point numbers are reals, so conversions between text encodings, NaN and infinities are not modelled.
- TlvBridge.EncodeInspectable: the writer runs out exactly when the encoded size passes the capacity; how the real writer reserves room for container ends is not modelled.
- TlvBridge.EncodePropertySet: the sort is stable in the model; equal tags, where the source's sort may differ, carry no order promise in any law.
- Discovery.DiscoverCameraEndpoints: cancellation and the deadline during the walk are read failures, since an endpoint that cannot be read, for whatever reason, is one missing from the graph; which node identifiers are operational is the SDK's business. The inner loop is a method of its own.
- Sessions.ClosesExactlyItsSession: the node gates are left to `Admission`; the camera gate alone already serializes the callers. That the peer retired the session, or gave no protocol identity, is one outcome, in which no End is sent. The building of a command from the host's three fields is one step.
- NodeIndex.IndexIsKept: a failed write or delete is taken to leave the stored value as it was; identifiers are stored least significant byte first.
- Capture.FlagsAreHonest: the bookkeeping of packet counters and input energy is left out; deadlines may strike at any suspension.
- Ice.PublishedUnderOwnToken: only offers and candidates are logged; errors, audio states and media states are not.
- Cleanup.CanceledIsCleanedUp: the attempt records once, as the workflow does, and a release that the ledger refuses counts as a deallocation that failed; it inherits what AudioAllocation.NeverForgets assumes.
- Ice.RemoteCandidatesInOrder: the shape and length checks of a candidate are one flag; capture messages and media events count only through the faults they raise; a message that throws for any other reason is one kind.
- Profiles.PreparedProfiles: the cache key is the tuple of the values the source joins into a string, and the engine description is already parsed.
