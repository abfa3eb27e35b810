# AirportRTW in Dafny

A model of the control core of the AirportRTW macOS Wi-Fi and AWDL driver, with proofs. The
system has four parts, and each is modelled in its own modules.

* **Peers and runtime.** The exclusive owner of the hardware's AWDL peers keeps a table of
  sixteen entries, each held by the peer cache, by the active traffic registration, or by both.
  Hardware commands and native completions are call-outs, during which anybody may ask the
  owner anything; teardowns that arrive then are put off. The runtime wraps the owner and the
  backend, counts calls in flight, and closes the backend when the last of them returns.
  (`Peers`, `PeersProof`, `PeersTheorems`, `PeersOwnership`, `PeersLeftovers`, `NativePeers`,
  `Runtime`, `RuntimeProof`, `RuntimeTheorems`, `RuntimeOwnership`, `RuntimeTraffic`)
* **Backend.** Validated settings, a fault that is never cleared, the peer owner, a queue of
  frames drained inside radio windows, and one timer shared by the window scheduler and the
  transmit pump. (`Settings`, `Backend`, `BackendProof`, `BackendRadio`, `BackendTheorems`,
  `BackendCases`, `BackendUse`, `NativeBackend`, `Clock`)
* **Station front end.** One join and one scan at a time, driver signals that may arrive inside
  the front end's own state changes, a FIFO of 32 messages, and beacon accounting.
  (`Station`, `StationProof`, `StationTheorems`, `NativeStation`, `ScanDecode`)
* **Element streams and datapath.** The in-place rewriting of PSK/SAE transition networks, the
  truncation of element streams, the three staging rings, and the packets into which drained
  frames are copied. (`Elements`, `Rings`, `Datapath`, `DatapathProof`, `NativeDatapath`)

## How it is modelled

Each component has a specification: a state datatype and functions for its operations, and a
log of what an observer sees. Summaries of the log (what the hardware holds, how far a join was
reported, which frames left a queue) are folds over the log and do not look at the state. The
laws are statements about these summaries, for every run from the initial state.

Whatever the component cannot decide is an argument: hardware results, the time, whether a
timer could be armed, which window the scheduler plans. Where the code calls out and may be called
again, the argument is a script of everything that happens before the call-out returns, to any
depth. So "every run" means every choice of answers and every nesting of calls.

The laws about the backend's timer and settings hold of its orderly runs. A run is orderly if
the first call after a revocation of traffic disables or closes the backend, if the timer fires
and the backend is closed only outside any other call, and if nothing is called while it
closes. This is read off the log (`Backend.Conduct`). It is how the runtime uses its backend: a
backend that receives the calls of any run of the runtime has an orderly log
(`BackendUse.RuntimeIsOrderly`). The one thing assumed there is that the work loop delivers the
timer outside any other call.

Each component but the runtime is also a class with the fields that the source updates in place.
Its methods are proved to do what the specification functions say (`Abs() == Step(old(Abs()), op)`),
including the loops, the ring indices and the batch array.

## What turned out to be different

* A join that was accepted while the radio restarts can be reported as successful without ever
  having been started: the branch that defers it marks it as pending, so the driver's reports
  act on it, and does not reset the note of an earlier first beacon. This happens exactly in two
  cases (`StationTheorems.WaitingJoinsSucceedExactly`, `WaitingJoinMaySucceed`,
  `WaitingJoinMaySucceedEarly`). For joins that were started the order of reports holds.
* A start whose state change fails after the join was completed inside it reports an error for a
  join that was also completed. Joins, and likewise scans, are conserved exactly in the runs
  whose log shows no such answer (`StationTheorems.JoinsAreConserved`, `FailedStartMayComplete`,
  `ScansAreConserved`, `FailedScanMayFinish`).
* The peer owner on its own can keep a peer that nobody owns, if only its authorization is
  revoked while the peer is being added (`PeersTheorems.EveryPeerHasAnOwner`,
  `BareRevocationStrands`). Under the runtime this cannot happen
  (`RuntimeTheorems.EveryPeerHasAnOwnerAtRest`).
* A refused handoff of a new peer also takes that peer from the hardware if it had been left
  there before, by an abandonment or a failed removal, and only then
  (`PeersTheorems.RefusedHandoffOfNewPeer`, `PeersLeftovers.LeftoverPeerMayBeAdded`). Under the
  runtime no such peer is ever added (`RuntimeTraffic.NoLeftoverIsAdded`).
* An activation that fails inside the window event of a disabling leaves the deadline of its
  retry behind, and the stop in progress then cancels the timer. Activated again without
  synchronization, the backend has a deadline for which no timer is armed
  (`BackendCases.RefusedActivationLosesAWakeup`). The timer follows the deadlines exactly if the
  log shows no such activation, or something since it that cleared the deadline or armed the
  timer (`BackendTheorems.TimerFollowsDeadlines`); while the backend is active and synchronized,
  which is when frames are queued, it always does (`SynchronizedTimerFollows`).
* An address change inside the scheduler stop of a settings request can leave committed settings
  that name the old address, and the request succeeds. In orderly runs the backend has then
  faulted, because it had to be disabled inside the window event first
  (`BackendTheorems.AppliedValidity`, `SettingsStayValid`,
  `BackendCases.ReentryMayInvalidateSettings`).
* Stopping the datapath leaves the indices of the Ethernet ring where they are and zeroes only
  its count. The ring is then incoherent unless the indices met, and nothing is admitted any
  more (`NativeDatapathClass.NativeDatapath.StopGated`, `DatapathProof.StoppedAdmitsNothing`).

## Model

| member | source | states |
|---|---|---|
| Elements.ParseOfWriteAll | AirportRTW/WCL/WCL.hpp:308-319 | parsing the bytes of any element list gives the list back |
| Elements.WriteAllOfParse | AirportRTW/WCL/WCL.hpp:308-319 | writing the elements of any stream that parses gives its bytes back |
| Elements.WriteAllInjective | AirportRTW/WCL/WCL.hpp:308-319 | two element lists with the same bytes are the same list |
| Elements.ValidIEs | AirportRTW/WCL/WCL.hpp:308-319 | the validation loop accepts exactly the streams of at most 2048 bytes that parse |
| Elements.WholeLengthIsLongest | AirportRTW/AirportSTAIOCTL.cpp:1458-1467 | the whole elements at the front are the longest prefix that parses; within 2048 bytes validation accepts that prefix, and accepts all of the stream exactly when nothing is cut |
| Elements.KeepWholeElements | AirportRTW/AirportSTAIOCTL.cpp:1458-1467 | the truncation loop returns that longest prefix |
| Elements.EncodeOfFields | AirportRTW/WCL/WCL.hpp:335-360 | the fields read from an RSN body with a complete AKM list encode to the same body |
| Elements.FieldsOfEncode | AirportRTW/WCL/WCL.hpp:335-360 | the fields of an encoded RSN body are found again |
| Elements.PersonalIsTransition | AirportRTW/WCL/WCL.hpp:356-376 | the byte tests for PMF, PSK and SAE say exactly that the decoded network is a PSK/SAE transition network |
| Elements.ConvertsExactlyTransitionNetworks | AirportRTW/WCL/WCL.hpp:335-376 | an element is changed if and only if it is the RSN element of a transition network; SAE-only, PMF-required and other AKM lists never are |
| Elements.ConversionKeepsOtherFields | AirportRTW/WCL/WCL.hpp:377-388 | a converted element keeps every field but the AKM list, which becomes PSK alone |
| Elements.SelectIsIdempotent | AirportRTW/WCL/WCL.hpp:329-391 | a converted element is not converted again |
| Elements.StreamIsSelectedElementwise | AirportRTW/WCL/WCL.hpp:329-391 | the rewritten stream is valid, no longer, has the same number of elements in the same order, each rewritten on its own, and a second pass changes nothing |
| Elements.SelectWPA2TransitionMode | AirportRTW/WCL/WCL.hpp:329-391 | the in-place loop leaves exactly the parse-map-concatenate result and writes nothing at or past the original length |
| Elements.Collapse | AirportRTW/WCL/WCL.hpp:377-388 | the memcpy, count, memmove and length updates replace the AKM list and close the gap |
| Elements.ScanSuites | AirportRTW/WCL/WCL.hpp:361-372 | one pass over the suites finds whether PSK, SAE and any other suite occur |
| PeersTheorems.HardwareIsAccountedFor | AirportRTW/WCL/AirportRTWAwdlPeers.hpp:61-66 | in every run, with any hardware answers and any requests during call-outs, the hardware holds exactly the table and the peers handed off; an authorized address was added and its removal has not begun; no add is issued while faulted |
| PeersTheorems.TableAtRest | AirportRTW/WCL/AirportRTWAwdlPeers.hpp:133-138 | at rest nothing is pending, addresses are distinct, the traffic flag marks exactly the peer that the traffic reference names, and an unbound owner is empty |
| PeersTheorems.TeardownsAreCarriedOut | AirportRTW/WCL/AirportRTWAwdlPeers.hpp:139-148 | every disable, shutdown or abandonment put off during a call has been carried out when the outermost call returns |
| PeersTheorems.AbandonmentWins | AirportRTW/WCL/AirportRTWAwdlPeers.hpp:142-147 | once an abandonment is pending inside a transaction, then whatever the answers and further requests, no hardware command is issued any more and the transaction ends by handing every peer off; only while an add is being handed off may that add still be undone |
| PeersTheorems.RefusedHandoffOfKnownPeer | AirportRTW/WCL/AirportRTWAwdlPeers.hpp:73-105 | from the cache request on: a refused handoff of a known peer ends with table and hardware as they were, whatever was asked meanwhile |
| PeersTheorems.RefusedHandoffOfNewPeer | AirportRTW/WCL/AirportRTWAwdlPeers.hpp:73-105 | from the cache request on: a refused handoff of a newly added peer restores the table when the removal succeeds, and the hardware set less that peer; that is the hardware set as it was, exactly if the peer was not among those left to the hardware |
| PeersLeftovers.LeftoverPeerMayBeAdded | AirportRTW/WCL/AirportRTWAwdlPeers.hpp:73-105 | a run of the peer owner on its own (bound, abandoned and bound again) after which a new add is issued for a peer that was left to the hardware |
| PeersLeftovers.ResumeQuiets | AirportRTW/WCL/AirportRTWAwdlPeers.hpp:73-148 | no answer to a call-out gains authorization or a binding; while the owner stays bound, none leaves a peer to the hardware without a failure on record; and the binding ends only if an abandonment or a shutdown was pending |
| PeersTheorems.EveryPeerHasAnOwner | AirportRTW/WCL/AirportRTWAwdlPeers.hpp:73-131 | a call leaves a peer without cache or traffic owner if and only if the add it makes is revoked meanwhile with no teardown pending |
| PeersTheorems.BareRevocationStrands | AirportRTW/WCL/AirportRTWAwdlPeers.hpp:88-89 | such a call is reachable for the peer owner on its own |
| PeersOwnership.LeavesOnlyWithoutOwner | AirportRTW/WCL/AirportRTWAwdlPeers.hpp:73-131 | in every run, a peer that an owner held and that the hardware no longer holds was torn down, or a call in between took that owner away |
| PeersOwnership.OneCallTakesTheLastOwner | AirportRTW/WCL/AirportRTWAwdlPeers.hpp:107-131 | one call without a teardown removes a peer from the hardware only if it takes away the only owner; a peer with both owners stays |
| PeersOwnership.ReferencesSurvive | AirportRTW/WCL/AirportRTWAwdlPeers.hpp:73-131 | every call that neither takes an owner away nor tears down leaves it in place, whatever the answers and nested requests |
| PeersOwnership.ResumeSafe | AirportRTW/WCL/AirportRTWAwdlPeers.hpp:200-227 | no answer of the surroundings takes an owner away |
| PeersProof.BeginKeeps | AirportRTW/WCL/AirportRTWAwdlPeers.hpp:27-131 | every request, made at rest, leads to a point that satisfies the invariant |
| PeersProof.ResumeKeeps | AirportRTW/WCL/AirportRTWAwdlPeers.hpp:179-227 | every answer of the surroundings leads to a point that satisfies the invariant |
| PeersProof.ReentryOnlyMarks | AirportRTW/WCL/AirportRTWAwdlPeers.hpp:38-60 | a request during a transaction changes nothing but the pending flags, the authorization and the log |
| PeersProof.DriveKeeps | AirportRTW/WCL/AirportRTWAwdlPeers.hpp:73-131 | a call that is given all its answers ends at rest with the invariant |
| NativePeersClass.NativePeers.Bind | AirportRTW/WCL/AirportRTWAwdlPeers.hpp:27-37 | the method is the machine run from its request |
| NativePeersClass.NativePeers.Enable | AirportRTW/WCL/AirportRTWAwdlPeers.hpp:38-47 | the same |
| NativePeersClass.NativePeers.Shutdown | AirportRTW/WCL/AirportRTWAwdlPeers.hpp:49-53 | the same |
| NativePeersClass.NativePeers.Abandon | AirportRTW/WCL/AirportRTWAwdlPeers.hpp:54-60 | drops every reference without a hardware command, or defers |
| NativePeersClass.NativePeers.Authorized | AirportRTW/WCL/AirportRTWAwdlPeers.hpp:61-66 | answers exactly whether the specification authorizes the address |
| NativePeersClass.NativePeers.Cache | AirportRTW/WCL/AirportRTWAwdlPeers.hpp:73-106 | the method, with re-entry at each call-out, is the machine run from its request |
| NativePeersClass.NativePeers.Traffic | AirportRTW/WCL/AirportRTWAwdlPeers.hpp:107-131 | the same |
| NativePeersClass.NativePeers.EndTransaction | AirportRTW/WCL/AirportRTWAwdlPeers.hpp:139-148 | the guard carries out the strongest pending teardown |
| NativePeersClass.NativePeers.FindEntry | AirportRTW/WCL/AirportRTWAwdlPeers.hpp:160-165 | the search loop finds the entry of an address, or that there is none |
| NativePeersClass.NativePeers.Install | AirportRTW/WCL/AirportRTWAwdlPeers.hpp:179-199 | adding a peer, as the machine does it |
| NativePeersClass.NativePeers.Remove | AirportRTW/WCL/AirportRTWAwdlPeers.hpp:200-206 | removing a peer, as the machine does it |
| NativePeersClass.NativePeers.Clear | AirportRTW/WCL/AirportRTWAwdlPeers.hpp:207-227 | the clearing loop, as the machine does it |
| RuntimeTheorems.BackendClosesExactlyOnce | AirportRTW/WCL/AirportRTWAwdlRuntime.hpp:309-334 | in every run with nested calls the backend is closed at most once, as the last backend call, with no call in flight, directly after an abandonment that finds the peer owner idle; and it has been closed exactly if it was opened and the runtime stopped |
| RuntimeTheorems.EveryPeerHasAnOwnerAtRest | AirportRTW/WCL/AirportRTWAwdlRuntime.hpp:153-177 | under the runtime every peer in the table has an owner or is on its way out whenever no call is in flight |
| RuntimeOwnership.PeersLeaveOnlyWithoutOwner | AirportRTW/WCL/AirportRTWAwdlRuntime.hpp:153-177 | in every run, at any nesting, a peer that an owner held leaves the hardware only after the runtime turned the peers off, abandoned them, or passed on a request that took that owner away |
| RuntimeOwnership.StepStays | AirportRTW/WCL/AirportRTWAwdlRuntime.hpp:134-206 | every runtime request keeps an owner unless the backend calls it logs say that it was taken away |
| RuntimeTraffic.TrafficNeedsAnEnabledRuntime | AirportRTW/WCL/AirportRTWAwdlRuntime.hpp:153-177 | in every run, at any nesting: whenever the backend is told that a peer is authorized, a turning-on of the peers that the owner accepted is the last thing that was done to them; the first call on the radio after a revocation turns it off or closes the backend; and an authorized peer means an open, enabled runtime that has not stopped |
| RuntimeTraffic.NoLeftoverIsAdded | AirportRTW/WCL/AirportRTWAwdlRuntime.hpp:134-177 | in every run of the runtime a peer left to the hardware means that a failure is on record or that nothing is bound, so no add is ever issued for such a peer |
| RuntimeTraffic.StepGoes | AirportRTW/WCL/AirportRTWAwdlRuntime.hpp:134-206 | every runtime request keeps these laws, and only stopping ends being open |
| RuntimeProof.StepKeeps | AirportRTW/WCL/AirportRTWAwdlRuntime.hpp:134-206 | every runtime request, at any nesting, keeps the invariant |
| RuntimeProof.StoppedIsInert | AirportRTW/WCL/AirportRTWAwdlRuntime.hpp:134-206 | a stopped runtime ignores every request |
| StationTheorems.JoinsAreConserved | AirportRTW/WCL/WCL.cpp:520-543 | in every run accepted joins plus strays equal completions, withdrawals and the pending join, where a stray is a request answered with an error after its join was completed, or a second completion of one join, as the log shows; so joins are conserved exactly if there is none |
| StationTheorems.FailedStartMayComplete | AirportRTW/WCL/WCL.cpp:653-662 | a deauthentication inside the state change completes a join whose start then reports an error: a reachable stray |
| StationTheorems.SuccessIsEarned | AirportRTW/WCL/WCL.cpp:815-830 | a join is reported as successful only with the port authorized, and after its association, link and first beacon were reported since its start exactly if it did not wait for the radio |
| StationTheorems.WaitingJoinsSucceedExactly | AirportRTW/WCL/WCL.cpp:890-952 | in every run a join that waits for the radio is reported as successful exactly by a port signal while an earlier first beacon is noted, or by a first beacon of its network after its association was reported, with the port authorized and a valid snapshot; nothing else does it |
| StationTheorems.WaitingJoinMaySucceedEarly | AirportRTW/WCL/WCL.cpp:532-540 | the second case is reachable by the very first join |
| StationTheorems.WaitingJoinMaySucceed | AirportRTW/WCL/WCL.cpp:828-829 | the first case is reachable: a join that never left the driver is reported as successful |
| StationTheorems.PendingWorkIsExclusive | AirportRTW/WCL/WCL.cpp:541-543 | a deferred join is pending, a scan and a join are pending together only while the join is deferred, a noted first beacon implies a noted association, and nothing is pending once stopping |
| StationTheorems.ScansAreConserved | AirportRTW/WCL/WCL.cpp:285-345 | accepted scans plus requests answered with an error after their scan was reported as done equal completions, scans dropped by stopping and the pending scan |
| StationTheorems.FailedScanMayFinish | AirportRTW/WCL/WCL.cpp:336-345 | the interface halting inside the state change finishes a scan whose request then reports an error |
| StationTheorems.ResultsPrecedeCompletion | AirportRTW/WCL/WCL.cpp:347-384 | a successful scan reports exactly the cached networks that match its filter and can be published, in cache order, and then its completion |
| StationTheorems.NoResultsOnFailure | AirportRTW/WCL/WCL.cpp:347-384 | a scan that ends otherwise reports no network before its completion |
| StationTheorems.ReportedNetworksWereAskedFor | AirportRTW/WCL/WCL.cpp:358-372 | in every run a network reported by a finished scan matches the filter of the latest accepted scan |
| StationTheorems.MessagesAreFirstInFirstOut | AirportRTW/WCL/WCL.cpp:684-724 | messages leave in the order they were accepted, and what has not left is in the queue of at most 32 |
| StationTheorems.LostExactlyWhenFull | AirportRTW/WCL/WCL.cpp:686-694 | a message is lost if and only if 32 wait or the front end has stopped |
| StationTheorems.DrainDeliversAll | AirportRTW/WCL/WCL.cpp:708-724 | draining delivers everything accepted |
| StationTheorems.BeaconsAreAccountedFor | AirportRTW/WCL/WCL.cpp:906-929 | beacons carried by accepted updates plus those still to report equal the beacons counted, modulo 2^32, even when queueing fails |
| StationProof.HearOneKeeps | AirportRTW/WCL/WCL.cpp:832-983 | every signal keeps the invariant and both balances |
| StationProof.StartJoinKeeps | AirportRTW/WCL/WCL.cpp:520-663 | a start opens one join exactly if it succeeds or is completed inside its state change, and leaves the log saying which |
| StationProof.ResumeKeeps | AirportRTW/WCL/WCL.cpp:665-679 | resuming a deferred join keeps both balances and reports its failure as a completion |
| StationProof.StepKeeps | AirportRTW/WCL/WCL.cpp:219-255 | every command, signal, delivery and stop keeps the invariant and both balances |
| NativeStationClass.NativeStation.PostMessage | AirportRTW/WCL/WCL.cpp:684-706 | pushing into the ring of 32 is the specification step |
| NativeStationClass.NativeStation.DrainMessages | AirportRTW/WCL/WCL.cpp:708-724 | the drain loop is the specification drain |
| NativeStationClass.NativeStation.BeginWclScan | AirportRTW/WCL/WCL.cpp:285-345 | new state and status are those of the specification |
| NativeStationClass.NativeStation.FinishWclScan | AirportRTW/WCL/WCL.cpp:347-384 | the replay loop and the completion are the specification step |
| NativeStationClass.NativeStation.PublishBeacon | AirportRTW/WCL/WCL.cpp:392-442 | keeps the snapshot flag of the associated network as specified |
| NativeStationClass.NativeStation.StartWclJoin | AirportRTW/WCL/WCL.cpp:520-663 | new state and status are those of the specification, with signals nested in both state changes |
| NativeStationClass.NativeStation.ResumeWclJoin | AirportRTW/WCL/WCL.cpp:665-679 | new state as specified |
| NativeStationClass.NativeStation.FinishWclJoin | AirportRTW/WCL/WCL.cpp:747-770 | new state as specified |
| NativeStationClass.NativeStation.LeaveWclNetwork | AirportRTW/WCL/WCL.cpp:781-806 | new state as specified |
| NativeStationClass.NativeStation.HandleLink | AirportRTW/WCL/WCL.cpp:815-830 | new state as specified |
| NativeStationClass.NativeStation.HandleHalt | AirportRTW/WCL/WCL.cpp:857-874 | new state as specified |
| NativeStationClass.NativeStation.HandleBeacon | AirportRTW/WCL/WCL.cpp:890-952 | new state as specified |
| NativeStationClass.NativeStation.HandleAssoc | AirportRTW/WCL/WCL.cpp:963-974 | new state as specified |
| NativeStationClass.NativeStation.HandleEvent | AirportRTW/WCL/WCL.cpp:832-983 | every signal is the specification step |
| NativeStationClass.NativeStation.WclCommand | AirportRTW/WCL/WCL.cpp:219-255 | every command is the specification step |
| NativeStationClass.NativeStation.StopWcl | AirportRTW/WCL/WCL.cpp:165-199 | pending work is dropped and the queue emptied |
| StationTheorems.ScanStatusIsEarned | AirportRTW/WCL/WCL.cpp:386-390 | a scan is reported as successful only if the driver finished it, not counting a report that belongs to an earlier scan, or its results are cached, and as timed out only if not |
| StationTheorems.LostLinkWasUp | AirportRTW/WCL/WCL.cpp:819-827 | the link is reported as lost only after it was reported as up, and once for that report |
| NativeStationClass.NativeStation.HandleScanFinished | AirportRTW/WCL/WCL.cpp:953-962 | new state as specified |
| ScanDecode.DecodeScan | AirportRTW/WCL/WCL.hpp:410-438 | a request is decoded exactly if it is well formed, and the bitmap selects a channel exactly if some entry lists it as an accepted channel |
| ScanDecode.CollectChannels | AirportRTW/WCL/WCL.hpp:427-436 | the loop over the entries sets exactly the listed bits |
| ScanDecode.SettingSelects | AirportRTW/WCL/WCL.hpp:435-435 | setting the bit of a channel selects it and leaves every other channel as it was |
| ScanDecode.FilterMeansRequest | AirportRTW/WCL/WCL.hpp:406-408 | a network passes the filter of a scan exactly if the decoded request lists its channel, or none, and names it, or none |
| Clock.StampClock | include/AWDL/RTWAwdlNativeRxMetadata.hpp:39-42 | the four bytes written read back as the time modulo 2^32, and no other byte of the metadata changes |
| Clock.RecoversExactly | AirportRTW/WCL/AirportRTWAwdlBackend.hpp:195-197 | a stamp is taken for its own time exactly if it is at most three seconds old, and for any time exactly if its age modulo 2^32 is |
| Clock.RecoversTheOnly | AirportRTW/WCL/AirportRTWAwdlRuntime.hpp:96-101 | an accepted time is the unique time of the last three seconds with that stamp, and a stamp is accepted exactly if there is one |
| Clock.RefusesOld | AirportRTW/WCL/AirportRTWAwdlBackend.hpp:195-197 | ages above three seconds and below 2^32 microseconds are refused |
| Clock.ReceiveTime | AirportRTW/WCL/AirportRTWAwdlRuntime.hpp:96-101 | the receive path computes that time from the metadata bytes |
| AwdlSettings.PresenceCannotChange | AirportRTW/WCL/AirportRTWAwdlRuntime.hpp:207-273 | a valid result of any request on settled settings has the same presence and channel step |
| AwdlSettings.UnsetStaysUnset | AirportRTW/WCL/AirportRTWAwdlRuntime.hpp:207-273 | before a successful open no single request leads to a valid snapshot |
| AwdlSettings.PresenceRequestsAccepted | AirportRTW/WCL/AirportRTWAwdlRuntime.hpp:250-254 | of the presence modes a request may name only 4 is accepted |
| AwdlSettings.OpenedIsValid | AirportRTW/WCL/AirportRTWAwdlBackend.hpp:73-84 | the settings of a successful open are valid |
| AwdlSettings.ScheduleIsSocial | AirportRTW/WCL/AirportRTWAwdlBackend.hpp:73-77 | the initial schedule holds the allowed social channels and no other |
| AwdlSettings.PickInto | AirportRTW/WCL/AirportRTWAwdlBackend.hpp:74-75 | the filter loop collects the allowed channels in order |
| AwdlSettings.Repeat | AirportRTW/WCL/AirportRTWAwdlBackend.hpp:77-77 | the fill loop repeats them to the end of the schedule |
| AwdlSettings.CheckPlan | AirportRTW/WCL/AirportRTWAwdlBackend.hpp:394-398 | the counting loop accepts exactly the plans whose used slots are allowed and not none |
| BackendTheorems.SettingsStaySettled | AirportRTW/WCL/AirportRTWAwdlBackend.hpp:134-162 | in every run, from a successful open to the next close, the settings satisfy the structural clauses, allowed channels, presence 4 and step 3 |
| BackendTheorems.ReportsAreSettled | AirportRTW/WCL/AirportRTWAwdlBackend.hpp:163-166 | every snapshot reported while open has presence 4 and step 3 |
| BackendTheorems.SettingsStayValid | AirportRTW/WCL/AirportRTWAwdlBackend.hpp:382-399 | in every orderly run, however calls nest in window events, the settings are valid for the present address once there are any, or the backend has faulted |
| BackendTheorems.AppliedValidity | AirportRTW/WCL/AirportRTWAwdlBackend.hpp:134-162 | settings that a request applied are valid for the present address exactly if the last name given to the interface during the request, as the log tells, is the old one or does not clash with their parent |
| BackendTheorems.AppliedSettingsAreValid | AirportRTW/WCL/AirportRTWAwdlBackend.hpp:134-162 | in every orderly run a request that succeeds and meets no fault leaves exactly the settings it asked for, and they are valid for the present address |
| BackendCases.ReentryMayInvalidateSettings | AirportRTW/WCL/AirportRTWAwdlBackend.hpp:137-139 | an orderly run in which a request succeeds with settings that are invalid for the new address, in a backend that has faulted |
| BackendCases.RefusedActivationLosesAWakeup | AirportRTW/WCL/AirportRTWAwdlBackend.hpp:96-106 | an orderly run in which an activation fails inside the window event of a disabling, after which the backend is activated with a deadline and no timer |
| BackendTheorems.ApplyIsAtomic | AirportRTW/WCL/AirportRTWAwdlBackend.hpp:134-162 | applying settings succeeds with exactly them, or faults, or changes nothing at all |
| BackendTheorems.FramesAreConserved | AirportRTW/WCL/AirportRTWAwdlBackend.hpp:184-190 | frames that entered the queue have left it in order or are queued in order, at most 64 |
| BackendTheorems.AcceptedInOrder | AirportRTW/WCL/AirportRTWAwdlBackend.hpp:441-455 | accepted frames are an in-order selection, without repetition, of the frames that entered |
| BackendTheorems.AcceptedFramesMayGo | AirportRTW/WCL/AirportRTWAwdlBackend.hpp:441-455 | an accepted frame was at most three seconds old, group-addressed or to a peer whose latest hardware event was its successful add, with no failure in between and not expected on another channel, and carried the number of frames accepted before it; only stale frames expire |
| BackendTheorems.FaultIsPermanent | AirportRTW/WCL/AirportRTWAwdlBackend.hpp:137-139 | no operation clears a fault |
| BackendTheorems.FaultSilences | AirportRTW/WCL/AirportRTWAwdlBackend.hpp:163-166 | after a fault nothing is given to the radio and no settings are reported |
| BackendTheorems.TimerFollowsDeadlines | AirportRTW/WCL/AirportRTWAwdlBackend.hpp:404-411 | in every orderly run, unless a revocation is still to be followed, the one timer is armed for the earlier deadline, or idle if there is none, or was refused by the interface, if and only if no deadline has lapsed: an activation failed inside the window event of a disabling, and since then nothing revoked, disabled, closed or armed the timer |
| BackendTheorems.SynchronizedTimerFollows | AirportRTW/WCL/AirportRTWAwdlBackend.hpp:404-411 | in every orderly run an active, synchronized backend has its timer armed for the earlier deadline, or idle if there is none, or refused by the interface, without exception |
| BackendTheorems.EveryCallSetsTheTimer | AirportRTW/WCL/AirportRTWAwdlBackend.hpp:404-411 | after every call on the radio in an orderly run, with whatever nests in it, the timer of an active backend follows its deadlines, or the call left deadlines and timer alone |
| BackendTheorems.ActivationFollowsIff | AirportRTW/WCL/AirportRTWAwdlBackend.hpp:96-106 | an activation that succeeds leaves a timer that follows the deadlines if and only if the backend is synchronized or the timer followed them before |
| BackendTheorems.WantedIsEarliest | AirportRTW/WCL/AirportRTWAwdlBackend.hpp:407-410 | the deadline armed is one of those set and no later than either |
| BackendTheorems.StoppedSchedulerIsRetried | AirportRTW/WCL/AirportRTWAwdlBackend.hpp:203-214 | in every orderly run a backend that should be synchronized but whose scheduler has stopped has a retry due, and its timer goes off no later |
| BackendTheorems.DisablingLeavesNothing | AirportRTW/WCL/AirportRTWAwdlBackend.hpp:89-95 | in every orderly run, unless a revocation is still to be followed, an inactive backend has a retry due and an idle timer if and only if a deadline has lapsed; otherwise, and only then, it has no deadline and an idle timer, or the interface refused a timer |
| BackendUse.RuntimeIsOrderly | AirportRTW/WCL/AirportRTWAwdlRuntime.hpp:134-206 | a backend that receives the calls which a run of the runtime makes, in that order, has an orderly log, provided the timer is delivered outside any other call |
| BackendUse.IssuedInSequence | AirportRTW/WCL/AirportRTWAwdlRuntime.hpp:134-206 | the calls of such a run are in sequence: after a revocation comes a disabling or the close, nothing comes after the close, and the close and the timer are alone |
| BackendUse.SequenceIsOrderly | AirportRTW/WCL/AirportRTWAwdlBackend.hpp:87-110 | a log whose calls are in sequence is orderly, whatever else it tells |
| BackendTheorems.StopReports | include/AWDL/RTWAwdlWindowScheduler.hpp:55-62 | stopping answers yes exactly if the scheduler has stopped and no window event was being delivered; otherwise it has failed or the delivery goes on |
| BackendRadio.StepMoves | AirportRTW/WCL/AirportRTWAwdlBackend.hpp:64-214 | every operation, at any nesting, keeps what the timer, the scheduler and the settings promise of an orderly run |
| BackendRadio.ServeServes | include/AWDL/RTWAwdlWindowScheduler.hpp:63-124 | one service of the scheduler keeps these promises, with any calls inside the window events it delivers |
| BackendRadio.HomeFine | include/AWDL/RTWAwdlWindowScheduler.hpp:226-236 | giving the radio back ends a stop; otherwise the scheduler waits, or has given up or failed |
| BackendProof.StepKeeps | AirportRTW/WCL/AirportRTWAwdlBackend.hpp:64-214 | every operation, at any nesting, keeps the invariant and no fault is cleared |
| BackendProof.DataKeeps | AirportRTW/WCL/AirportRTWAwdlBackend.hpp:441-455 | the transmit loop keeps the order and the law of frames |
| BackendProof.AuthorizedStands | AirportRTW/WCL/AirportRTWAwdlPeers.hpp:61-66 | a peer that the owner authorizes, in or between transactions, was added by the hardware, its removal has not begun, and no failure is recorded |
| NativeBackendClass.NativeBackend.OpenInterface | AirportRTW/WCL/AirportRTWAwdlBackend.hpp:64-86 | new state and status are those of the specification |
| NativeBackendClass.NativeBackend.SetActive | AirportRTW/WCL/AirportRTWAwdlBackend.hpp:87-106 | new state as specified |
| NativeBackendClass.NativeBackend.CloseInterface | AirportRTW/WCL/AirportRTWAwdlBackend.hpp:108-116 | new state as specified |
| NativeBackendClass.NativeBackend.CheckSettings | AirportRTW/WCL/AirportRTWAwdlBackend.hpp:382-399 | accepts exactly the valid settings |
| NativeBackendClass.NativeBackend.Configure | AirportRTW/WCL/AirportRTWAwdlBackend.hpp:134-162 | new state and status are those of the specification |
| NativeBackendClass.NativeBackend.HandleRequest | AirportRTW/WCL/AirportRTWAwdlRuntime.hpp:207-307 | new state as specified |
| NativeBackendClass.NativeBackend.ChangeAddress | AirportRTW/WCL/AirportRTWAwdlBackend.hpp:171-183 | new state as specified |
| NativeBackendClass.NativeBackend.SnapshotSettings | AirportRTW/WCL/AirportRTWAwdlBackend.hpp:163-166 | settings are reported exactly if owned and not faulted |
| NativeBackendClass.NativeBackend.TransmitEthernet | AirportRTW/WCL/AirportRTWAwdlBackend.hpp:184-190 | new state and answer are those of the specification |
| NativeBackendClass.NativeBackend.ServeData | AirportRTW/WCL/AirportRTWAwdlBackend.hpp:441-455 | the loop with its budget of eight is the specification loop |
| NativeBackendClass.NativeBackend.HandleTimer | AirportRTW/WCL/AirportRTWAwdlBackend.hpp:203-214 | new state as specified |
| NativeBackendClass.NativeBackend.RearmTimer | AirportRTW/WCL/AirportRTWAwdlBackend.hpp:404-411 | new timer and answer are those of the specification |
| NativeBackendClass.NativeBackend.StartWhenAuthorized | AirportRTW/WCL/AirportRTWAwdlBackend.hpp:400-403 | new state and answer are those of the specification |
| NativeBackendClass.NativeBackend.Stop | include/AWDL/RTWAwdlWindowScheduler.hpp:55-62 | new state and answer are those of the specification, with any calls inside the window event |
| NativeBackendClass.NativeBackend.ServiceScheduler | include/AWDL/RTWAwdlWindowScheduler.hpp:63-124 | new state as specified |
| NativeBackendClass.NativeBackend.TryOpenWindow | include/AWDL/RTWAwdlWindowScheduler.hpp:191-213 | new state as specified |
| NativeBackendClass.NativeBackend.CloseWindow | include/AWDL/RTWAwdlWindowScheduler.hpp:214-225 | new state as specified |
| NativeBackendClass.NativeBackend.GoHome | include/AWDL/RTWAwdlWindowScheduler.hpp:226-236 | new state and answer are those of the specification |
| NativeBackendClass.NativeBackend.ArmTimer | AirportRTW/WCL/AirportRTWAwdlBackend.hpp:362-362 | the window deadline is written and the timer set |
| NativeBackendClass.NativeBackend.Dispatch | AirportRTW/WCL/AirportRTWAwdlBackend.hpp:64-214 | every operation, at any nesting, is the specification step |
| DatapathProof.RingsAreQueues | AirportRTW/WCL/AirportRTWAwdlDatapath.cpp:178-236 | in every run each ring is a bounded queue: what was staged has left in order or is in the ring |
| DatapathProof.PacketsAreConserved | AirportRTW/WCL/AirportRTWAwdlDatapath.cpp:251-286 | every packet allocated was completed or released, exactly once, in batches of at most 32, and none is held between events |
| DatapathProof.CompletedCarryStagedFrames | AirportRTW/WCL/AirportRTWAwdlDatapath.cpp:251-286 | every completed packet carries the staged frame at the place it was given |
| DatapathProof.CompletedInRingOrder | AirportRTW/WCL/AirportRTWAwdlDatapath.cpp:251-286 | packets are completed in the order in which their frames were staged, no frame twice |
| DatapathProof.StoppedAdmitsNothing | AirportRTW/WCL/AirportRTWAwdlDatapath.cpp:338-350 | once stopped, nothing is staged and the rings cannot be enabled again |
| DatapathProof.StepKeeps | AirportRTW/WCL/AirportRTWAwdlDatapath.cpp:238-323 | every operation and every drain, with any interleaving of producers and switches, keeps the invariant |
| NativeDatapathClass.NativeDatapath.ReceiveFrame | AirportRTW/WCL/AirportRTWAwdlDatapath.cpp:178-192 | new state and answer are those of the specification |
| NativeDatapathClass.NativeDatapath.QueueActionFrame | AirportRTW/WCL/AirportRTWAwdlDatapath.cpp:194-217 | the same |
| NativeDatapathClass.NativeDatapath.QueueDataFrame | AirportRTW/WCL/AirportRTWAwdlDatapath.cpp:219-236 | the same |
| NativeDatapathClass.NativeDatapath.EnableGated | AirportRTW/WCL/AirportRTWAwdlDatapath.cpp:121-140 | disabling resets all indices of the three rings |
| NativeDatapathClass.NativeDatapath.StopGated | AirportRTW/WCL/AirportRTWAwdlDatapath.cpp:338-350 | stopping zeroes only the count of the Ethernet ring, which then is coherent exactly if its indices met |
| NativeDatapathClass.NativeDatapath.DrainRing | AirportRTW/WCL/AirportRTWAwdlDatapath.cpp:251-283 | the drain loop with its batch array is the specification loop, and the batch index stays below 32 |
| NativeDatapathClass.NativeDatapath.DrainActionRing | AirportRTW/WCL/AirportRTWAwdlDatapath.cpp:288-307 | the loop is the specification loop |
| NativeDatapathClass.NativeDatapath.DrainDataRing | AirportRTW/WCL/AirportRTWAwdlDatapath.cpp:309-323 | the same |
| NativeDatapathClass.NativeDatapath.ReceiveReady | AirportRTW/WCL/AirportRTWAwdlDatapath.cpp:238-249 | control frames are drained first, then bulk data, then Ethernet frames |
| Rings.StagingRing.Put | AirportRTW/WCL/AirportRTWAwdlDatapath.cpp:183-186 | the write index stays read plus count modulo the capacity, and the frame is appended |
| Rings.StagingRing.Take | AirportRTW/WCL/AirportRTWAwdlDatapath.cpp:260-263 | the write index stays read plus count modulo the capacity, and the oldest frame leaves |
| Rings.Ring.Push | AirportRTW/WCL/WCL.cpp:695-699 | the slot at head plus count appends |
| Rings.Ring.Pop | AirportRTW/WCL/WCL.cpp:718-720 | the oldest leaves |

## Left out

- Key setup, SAE, PMK caches and the classification of authentication types: a join request carries only whether it is supported and how its setup ended.
- Decoding of join requests and of beacons into nodes: foreign layouts; a node carries the outcome of the publication checks.
- Scan results that are published while the gate is held outside a finished scan: only the replay of the cache is modelled.
- The macOS 15.2 form of the link quality update: the model follows the form that reports beacon counts.
- Commands of the station front end issued inside one of its own state changes: the command gate serializes them; signals do nest.
- IOKit reference counts, locks, work loops and timers of the station front end: the model has the order in which the gate lets things happen, and timeouts as signals.
- The election engine, the data codec and the HAL: their calls are answered by arguments; the election engine is represented by what it was told.
- The planning arithmetic of the window scheduler: which window it plans, and whether it is late, is an argument; its phases during a reservation and a restore are not told apart, because nothing calls back during those.
- The out-of-band action queue of the backend: its transmissions appear only as actions that the scheduler must permit.
- Action templates, advertiser selection and the sample ring of the backend: they do not touch the settings, the data queue or the timer except through the same pump deadline.
- The replay windows behind acceptData: library code.
- The get requests of the runtime and of the backend: they read the snapshot that `SnapshotSettings` reports.
- The runtime as an object: it is modelled on values, so update in place and the statuses that its requests return are not captured.
- The peer owner as an object inside the backend: `NativeBackend` holds it as a value of the specification; `NativePeers` is proved on its own.
- The transmit side of the datapath (PacketFlow) and its pools: foreign code.
- 64-bit overflow of host times and of deadlines: times are unbounded.
- Clock.ReceiveTime: models the receive clock of action and data frames once, because both paths compute it in the same way; the parsing of the frames themselves is not modelled.
