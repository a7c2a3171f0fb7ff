# QuadControl: verified models

Models, in Dafny, of the protocols, parsers and state machines of QuadControl's desktop and
Apple sides, with proofs of what they promise. Code that updates objects in place is modelled
by classes and loops, each proved against a specification; what threads, processes, peers and
the network do is an input, and statements about concurrent parts hold for every interleaving
of their steps.

| file | models |
|---|---|
| `WdaSession.dfy` | session self-healing shared by clones of the WebDriverAgent client |
| `Base64.dfy` | the hand-written base64 decoder |
| `FrameSlot.dfy`, `Lines.dfy`, `Multipart.dfy` | the MJPEG proxy: latest-frame slot, text lines, multipart streams |
| `PairingRound.dfy`, `Deduplicate.dfy` | wireless pairing rounds, and de-duplication of listed devices |
| `Ladder.dfy`, `Supervisor.dfy` | the termination ladder and the supervised iOS session |
| `SessionSlot.dfy`, `PairingStore.dfy`, `RecentApps.dfy` | the stores behind the desktop application's commands |
| `AnnexB.dfy` | the streaming H.264 parser |
| `Transcript.dfy`, `Handshake.dfy` | the diagnostic protocol's transcripts and handshake |
| `Admission.dfy`, `AdmissionAlone.dfy`, `AdmissionAttained.dfy` | admission control, and exactly when it bounds failures on its own |
| `DiagnosticServer.dfy`, `ServerLife.dfy`, `ServerLaws.dfy` | the diagnostic server: connections, handshake, token and admission together |

Five promises one might expect turn out not to hold of the code, and the exact situation is
proved instead: a WDA call can fail although nothing invalidates the session while it runs
(`TheReplacementCanBeStolen`, `RetryFailsExactlyWhenSuperseded`); one frame can still be
delivered after a stop (`DeliveryAfterStopIsReached`, `AfterStop`); pictures announced without
a length are not read past the first (`PicturesWithoutLength`); a boundary that ends in two dashes
is never recognised (`BoundaryRecognised`); and the admission controller
alone does not bound failures for callers that record some of them late or pass readings of the
clock that go back (`EveryExcessIsAttained`, `LeastBounds`, `OnlyLatenessAndSetbacksExceed`),
while the server composed with it does (`FailuresPerWindow`).

`dafny verify dfyconfig.toml` checks everything.

## Model

| member | source | states |
|---|---|---|
| `WdaSession.PostsAreBounded` | crates/quadcontrol-ios/src/wda.rs:110-178 | Over every interleaving of any number of clones, `POST /session` is sent at most once at first, once for each time an outsider took the session, and once for each failed POST. |
| `WdaSession.PostsOnlyReplaceDisowned` | crates/quadcontrol-ios/src/wda.rs:135-147 | A clone only posts a new session when the server has disowned the one the clones share. |
| `WdaSession.RetryFailsExactlyWhenSuperseded` | crates/quadcontrol-ios/src/wda.rs:110-125 | For a call starting in any reachable state: some continuation in which nothing takes the session away ends it with its second id disowned if and only if, at its start, another clone holds an unstored replacement that was already stolen. Everywhere else the call is served or fails for another reason. |
| `WdaSession.TheReplacementCanBeStolen` | crates/quadcontrol-ios/src/wda.rs:110-142 | Such a state is reached by a concrete run, so the unconditional guarantee (a call that sees no invalidation succeeds after at most one retry) is false of the code. |
| `WdaSession.StaysCalm` | crates/quadcontrol-ios/src/wda.rs:110-157 | While nothing takes the session away, a clone whose id is still shared, or for which the shared id is the live one, never ends with a disowned id. |
| `WdaSession.RunKeepsInv` | crates/quadcontrol-ios/src/wda.rs:110-178 | What every step keeps: the recreate lock has at most one holder, whoever is past the comparison replaces a disowned id, and the count of POSTs stays paid for. |
| `WdaSession.Client.SessionCall` | crates/quadcontrol-ios/src/wda.rs:110-125 | A clone on its own, for any conditions of its requests: a request that breaks is reported and not sent again; one within the live session is served; one the server disowns leads to one POST and, with a new session and its settings replayed, to one more request within it, which is served, breaks or is disowned. Every request sent is counted, two calls at most. All of it is one run of the interleaved machine. |
| `WdaSession.Client.RecreateUnlessReplaced` | crates/quadcontrol-ios/src/wda.rs:135-142 | If another id is shared by now, nothing is posted and nothing changes; otherwise there is one POST, and the new id is shared exactly when its answer arrives; in both cases the fields are those of a run of the machine. |
| `WdaSession.Client.RecreateSession` | crates/quadcontrol-ios/src/wda.rs:147-157 | One POST; when its answer arrives the new id is shared and the recorded MJPEG settings, if any, are replayed once, whose failure ends the call; otherwise the shared id stays and the call ends. |
| `WdaSession.Client.CreateSession` | crates/quadcontrol-ios/src/wda.rs:166-178 | The shared id changes exactly when the answer to the POST arrives. |
| `Base64.DecodeBase64` | crates/quadcontrol-ios/src/wda.rs:649-692 | The loop over a 32-bit accumulator that loses its high bits computes the decoder of the whitespace-free input. |
| `Base64.UnpackPayload` | crates/quadcontrol-ios/src/wda.rs:676-691 | Accumulates six bits at a time, emits each full octet, and fails on a foreign symbol or on nonzero bits left over. |
| `Base64.DecodesExactly` | crates/quadcontrol-ios/src/wda.rs:649-692 | The result is `x` if and only if the input without ASCII whitespace is the canonical padded encoding of `x` (sections 3.5 and 4 of RFC 4648). |
| `Base64.DecodeIff` | crates/quadcontrol-ios/src/wda.rs:661-691 | Decoding and canonical encoding are inverse on exactly the canonical texts. |
| `Base64.UnpackSixBits` | crates/quadcontrol-ios/src/wda.rs:676-691 | Splitting octets into six-bit values and packing them again gives the octets, with no bits left over. |
| `Base64.SixBitsUnpack` | crates/quadcontrol-ios/src/wda.rs:676-691 | Every acceptable list of six-bit values is the split of what it packs to. |
| `Base64.LoopStep` | crates/quadcontrol-ios/src/wda.rs:679-686 | One turn of the loop keeps its invariant, stated about the pending low bits of the wrapping accumulator. |
| `Base64.CleanedPiecewise` | crates/quadcontrol-ios/src/wda.rs:661-664 | Cleaning drops the five ASCII white space octets wherever they stand and keeps all others in order. |
| `Base64.Vectors` | crates/quadcontrol-ios/src/wda.rs:661-691 | Test vectors of section 10 of RFC 4648, and the two last symbols of the alphabet. |
| `FrameSlot.Slot.DoPublish` | crates/quadcontrol-ios/src/mjpeg.rs:124-142 | Publishing advances the sequence number, and counts a drop when the last frame was read by nobody although somebody is reading. |
| `FrameSlot.Slot.TakeTurn` | crates/quadcontrol-ios/src/mjpeg.rs:154-172 | One turn of waiting for a frame: nothing after a stop; otherwise the current frame if it is newer than the last one seen. |
| `FrameSlot.Conservation` | crates/quadcontrol-ios/src/mjpeg.rs:124-172 | Over every run: frames published = delivered to somebody + counted drops + overwritten while nobody was reading + one if the current frame is unread. |
| `FrameSlot.ReadersSeeIncreasingFrames` | crates/quadcontrol-ios/src/mjpeg.rs:154-172 | Every reader receives published frames, unchanged, with strictly increasing numbers. |
| `FrameSlot.DeliversTheNewest` | crates/quadcontrol-ios/src/mjpeg.rs:161-165 | Whatever a step delivers is the newest frame published by then. |
| `FrameSlot.TurnsDeliver` | crates/quadcontrol-ios/src/mjpeg.rs:154-172 | A reader whose turn comes before a stop gets the newest frame if it is newer than its last, and otherwise nothing. |
| `FrameSlot.AfterStop` | crates/quadcontrol-ios/src/mjpeg.rs:154-172 | In every state that a run reaches with a stop requested, at most one more frame is delivered; and one still can be if and only if a reader had passed the stop check before and a frame newer than its last is there. |
| `FrameSlot.DeliveryAfterStopIsReached` | crates/quadcontrol-ios/src/mjpeg.rs:154-172 | Such a state is reached by a concrete run, and a frame is then delivered after the stop: that nothing is, is false of the code. |
| `FrameSlot.RunKeepsInv` | crates/quadcontrol-ios/src/mjpeg.rs:106-172 | What every step keeps: each frame has one fate, the lock one holder, the writer count one unit per registered reader. |
| `Multipart.Incoming.ReadUpstreamBoundary` | crates/quadcontrol-ios/src/mjpeg.rs:436-461 | The header loop yields the boundary of the last Content-Type header, or says why there is none. |
| `Multipart.Incoming.NextFrame` | crates/quadcontrol-ios/src/mjpeg.rs:464-513 | Skips to a line of the announced boundary, reads the headers of the part, and takes exactly the octets its length announces or scans for the next boundary; the results are those of `ReadFrame`, of which `UpstreamsAreUnderstood` and the rows after it tell what they are for any sender. |
| `Multipart.Incoming.ScanToBoundary` | crates/quadcontrol-ios/src/mjpeg.rs:516-548 | Octet by octet up to the first delimiter, which is read too, or to the end, or to the limit. |
| `Multipart.ScanStops` | crates/quadcontrol-ios/src/mjpeg.rs:516-548 | A part without a length is what stands before the first delimiter, line breaks at its end aside; the stream goes on behind that delimiter. |
| `Multipart.PicturesWithoutLength` | crates/quadcontrol-ios/src/mjpeg.rs:464-548 | Of any sender's stream of JPEG pictures announced without lengths, whatever else they hold, only the first is ever cut out: the scan for its end takes the delimiter of the second, which is then searched as text and ends the stream with an error. All of them are cut out if and only if there is at most one, which keeps its line break. |
| `Multipart.BreaksOnly` | crates/quadcontrol-ios/src/mjpeg.rs:541-543 | Only line breaks are taken from the end of a scanned part, and all of them. |
| `Multipart.Incoming.FindPart` | crates/quadcontrol-ios/src/mjpeg.rs:468-477 | Stops after the first line that ends in the announced boundary, trailing dashes aside, and has two dashes. |
| `Multipart.BoundaryRecognised` | crates/quadcontrol-ios/src/mjpeg.rs:474-474 | A delimiter line is recognised if and only if its boundary does not end in two dashes. |
| `Multipart.OtherLinesPassed` | crates/quadcontrol-ios/src/mjpeg.rs:468-477 | A line that does not end in the announced boundary, trailing dashes aside, or has no dashes, is passed over. |
| `Multipart.OtherDelimitersPassed` | crates/quadcontrol-ios/src/mjpeg.rs:468-477 | So is the delimiter of another stream, the proxy's own included. |
| `Multipart.UpstreamsAreUnderstood` | crates/quadcontrol-ios/src/mjpeg.rs:436-513 | For every one-line boundary that does not end in two dashes, announced in any form, header names in any letter case, and any frames within the limit: the stream is read as that boundary, exactly these frames, and the regular end. |
| `Multipart.UpstreamsCutAnywhere` | crates/quadcontrol-ios/src/mjpeg.rs:464-513 | Such a stream cut at any octet gives exactly the frames whose octets arrived, then the regular end. |
| `Multipart.Incoming.ReadPartHeaders` | crates/quadcontrol-ios/src/mjpeg.rs:479-494 | The length of the last Content-Length header before the empty line, if it is a machine word. |
| `Multipart.Incoming.ReadLine` | crates/quadcontrol-ios/src/mjpeg.rs:554-561 | Everything up to and including the next newline, or what is left of the stream. |
| `Multipart.WriteDownstream` | crates/quadcontrol-ios/src/mjpeg.rs:624-670 | Nothing is written before the request is read to its blank line; then the response head and one part per frame, until a write fails: what was sent is the stream as far as the connection took it. |
| `Multipart.RoundTrip` | crates/quadcontrol-ios/src/mjpeg.rs:436-513 | For every list of frames within the size limit, whatever octets they hold, what is written is read back as the boundary, exactly these frames, and the regular end. |
| `Multipart.CutAnywhere` | crates/quadcontrol-ios/src/mjpeg.rs:464-513 | Wherever the connection breaks after the head, exactly the frames whose octets arrived are read, in order, then the regular end: never part of a frame. An empty frame counts even if the last octet of its headers is missing; how many frames that makes is a function of the number of octets. |
| `Multipart.OversizeIsRefused` | crates/quadcontrol-ios/src/mjpeg.rs:497-502 | A part of any sender whose headers announce more than 4 MiB ends the stream with an error, whatever follows them. |
| `Multipart.EveryFormUnderstood` | crates/quadcontrol-ios/src/mjpeg.rs:449-460 | A boundary announced with or without quotes and with or without the leading dashes of its delimiter line is understood as the same boundary. |
| `Multipart.ViewersSeePublishedFrames` | crates/quadcontrol-ios/src/mjpeg.rs:624-670 | Slot and stream together: over every run, and wherever its connection breaks after the head, a viewer recovers exactly the frames its writer took, as far as they were sent: published ones in the order of publication. |
| `Lines.DecimalParses` | crates/quadcontrol-ios/src/mjpeg.rs:490-491 | A length printed in decimal is parsed back to itself. |
| `Lines.HeaderSplits` | crates/quadcontrol-ios/src/mjpeg.rs:488-489 | A printed header line splits at its first colon into the name and the value, trimmed. |
| `Lines.SpacedHeaderSplits` | crates/quadcontrol-ios/src/mjpeg.rs:488-489 | So does one with any white space around name and value. |
| `Lines.WordsExactly` | crates/quadcontrol-ios/src/mjpeg.rs:490-491 | A length is let through with a plus sign in front, and not beyond the machine word or with anything but digits. |
| `PairingRound.RunPairingRound` | crates/quadcontrol-android/src/wireless.rs:474-589 | For any sequence of discoveries, starts and polls: the round is never closed within the loop and keeps its id; `pairInFlight` holds exactly when something is in flight; no endpoint is started twice, and every endpoint on offer is started unless a start failed; the log holds exactly the failures that happened, in order; a success is that of the first started process to win in the first turn with a winner; a failure is the first that happened, reported as `Reported` says for its cause; and each other verdict comes exactly with its cause. |
| `PairingRound.FirstIsReported` | crates/quadcontrol-android/src/wireless.rs:544-576 | What a first failure is reported as: the error of the discovery or the start; for a process that ended with a status other than 0 its error output, or `pair failed` without any; for one that ended well without a guid that its output cannot be read; and the error with which polling failed. |
| `PairingRound.PollAll` | crates/quadcontrol-android/src/wireless.rs:544-576 | Polls every process once in starting order; a process that ended with status 0 and a guid wins whatever failed before; every other end is recorded and the process removed, the rest untouched. |
| `PairingRound.StartEach` | crates/quadcontrol-android/src/wireless.rs:513-536 | Starts each endpoint not tried before, in order; the first failing start stops the attempts and is on record, and ends the round only if nothing is in flight. |
| `PairingRound.DiscoverTurn` | crates/quadcontrol-android/src/wireless.rs:495-542 | Discovery, starts and the lost service of one turn: losing the service is only ever observed while a process is in flight, so it never closes the round. |
| `PairingRound.IdleHead` | crates/quadcontrol-android/src/wireless.rs:486-511 | When the loop goes on with nothing in flight, nothing was ever started, nothing has failed, and no lost service or timeout is pending. |
| `PairingRound.DeathIsLogged` | crates/quadcontrol-android/src/wireless.rs:544-576 | A started process that is gone without having won has left a failure. |
| `PairingRound.GoneAfterPolls` | crates/quadcontrol-android/src/wireless.rs:577-602 | A round without a winner ends with event and error from one cause: a lost service before a timed-out process before the first of all failures that happened. |
| `PairingRound.HeadIsFirst` | crates/quadcontrol-android/src/wireless.rs:513-576 | The failure at the head of the log happened, and none happened before it: by turn, then discovery and starts before polls, then in starting order. |
| `PairingRound.RoundState.Observe` | crates/quadcontrol-android/src/wireless.rs:319-350 | An open round closes on every event, but for a lost service while pairs are in flight, which is remembered; a closed round ignores everything. |
| `PairingRound.RoundState.ObserveForRound` | crates/quadcontrol-android/src/wireless.rs:351-357 | An event that carries another round's id changes nothing. |
| `PairingRound.RoundState.DoClose` | crates/quadcontrol-android/src/wireless.rs:358-363 | Closing bumps the id once, modulo 2^64. |
| `PairingRound.RoundClose` | crates/quadcontrol-android/src/wireless.rs:791-833 | In this order: every process that has not ended is killed and reaped, a failing kill keeping none from being tried; an open round is closed with the reason of the event and its id moved on; the secret and the code are wiped. A second close leaves the round unchanged. |
| `PairingRound.CloseNow` | crates/quadcontrol-android/src/wireless.rs:805-825 | With nothing in flight any event closes the round at once: the waiting branch cannot be reached. |
| `PairingRound.PairOnce` | crates/quadcontrol-android/src/wireless.rs:656-673 | Round and close together: the answer is a guid, which the round keeps, exactly when the round has one and nothing failed to be reaped; a failed reap replaces a success and is told of beside a failure; each event has its reason and its error, a failed round giving the first failure that happened as it is reported; exactly what is left in flight and has not ended is killed, before the id moves on, once. |
| `PairingRound.KillsExactly` | crates/quadcontrol-android/src/wireless.rs:791-806 | What is killed is exactly what is in flight and has not ended by itself. |
| `PairingRound.ReasonsTold` | crates/quadcontrol-android/src/wireless.rs:319-350 | A lost service is the reason exactly of its own event and of what fails in flight after it; every other reason has its one event. |
| `Deduplicate.IdentityPairs` | crates/quadcontrol-android/src/wireless.rs:766-786 | Lists, row by row and each place once, exactly the pairs of entries whose identities are known and equal. |
| `Deduplicate.DeduplicateDevices` | crates/quadcontrol-android/src/wireless.rs:251-269 | For the pairs of an actual reading: one result for each phone in order of first appearance, its first wireless entry if it has one, its first entry otherwise. For any pairs: no entry is lost but to another it is paired with. |
| `Deduplicate.VisibleDevices` | crates/quadcontrol-android/src/wireless.rs:758-759 | Both steps together compute that representation from the listed devices. |
| `Deduplicate.EveryPhoneOnce` | crates/quadcontrol-android/src/wireless.rs:251-269 | No two results are the same phone, every listed entry is represented, and every entry of unknown identity is kept. |
| `Deduplicate.WirelessPreferred` | crates/quadcontrol-android/src/wireless.rs:251-269 | A phone that is listed wirelessly is shown by an entry whose serial starts with `adb-`. |
| `Ladder.Children.WaitAllFor` | crates/quadcontrol-process/src/lib.rs:214-235 | Waits on one budget: true means all are reaped, false that the budget is spent or the user pressed on; overshoots by less than one turn. |
| `Ladder.Children.ForEachGroup` | crates/quadcontrol-process/src/lib.rs:251-255 | Signals every group, leaders already reaped included. |
| `Ladder.Children.TerminateAll` | crates/quadcontrol-process/src/lib.rs:258-280 | All groups get the same signals, a prefix of interrupt, terminate, kill, without the interrupt if already pressed on; each next signal only after its budget or a press, and after a poll that found a child still there; if the first look finds all gone, nothing follows the first signal and no time passes; waiting stays below 5 s and two turns, for any number of children; `Ok` means every child is reaped. |
| `Ladder.Children.AllGone` | crates/quadcontrol-process/src/lib.rs:220-226 | True if and only if every child was gone before or is found gone at this look. |
| `Supervisor.Session.Supervise` | crates/quadcontrol-ios/src/session.rs:376-404 | On every path the statuses are Starting, perhaps Running, Stopping and one final status; when that appears every process ever started is reaped (those whose wait fails excepted), the proxy stopped, the client gone, and the ladder climbed in under five seconds and two turns; the end is announced once, afterwards. The final status tells the cause: `Requested` exactly after a stop request, a failure only from a child, start, wait, set-up or proxy that failed with it; and a running session ends exactly as `RunEnds` says, over the children it started. All of this in the order that `MayFollow` gives. |
| `Supervisor.DeadChildIsNoticed` | crates/quadcontrol-ios/src/session.rs:813-850 | If nobody asks for a stop, the proxy is in order and a listed child is found gone, the first turn of the running session ends it with that child or one before it. |
| `Supervisor.DeadChildEndsTheWait` | crates/quadcontrol-ios/src/session.rs:700-786 | While starting, a child found gone ends the wait at once with its failure or that of one before it. |
| `Supervisor.FailureCodes` | crates/quadcontrol-ios/src/session.rs:789-812 | Which code tells of which failure of which child. |
| `Supervisor.Session.StartSession` | crates/quadcontrol-ios/src/session.rs:415-499 | Running is shown exactly when the proxy is up, with session and proxy set up without error, and then all four children are listed in their order (none when attaching); `Requested` is the result if and only if a stop request was seen, and every error has its cause. |
| `Supervisor.Session.Launch` | crates/quadcontrol-ios/src/session.rs:427-483 | Children are spawned in the order tunnel, runner, forwards, and none but the tunnel before the device tunnel was seen registered; an error is that of the step that failed. |
| `Supervisor.Session.SpawnForward` | crates/quadcontrol-ios/src/session.rs:512-569 | At most five attempts, all but the last of which lost the race for their port and are reaped; a forward is listed only after it stayed up for as long as it is watched; an error is that of the reservation, of the spawn, of an exit for another reason, or comes after five lost races; every path leaves all processes listed or reaped. |
| `Supervisor.Session.Await` | crates/quadcontrol-ios/src/session.rs:700-763 | Determined turn by turn: after turns in which no stop was seen, every child was polled and found there, and nothing was ready, the next one ends it with a stop, the failure of the first child gone, or readiness, in this order; or it is late after the last. |
| `Supervisor.Session.FirstChildFailure` | crates/quadcontrol-ios/src/session.rs:770-786 | None if and only if every listed child was polled and found there; otherwise the first one gone, classified by its kind and error output. |
| `Supervisor.Session.RunUntilStop` | crates/quadcontrol-ios/src/session.rs:813-850 | Determined turn by turn: after turns in which no stop was seen, the proxy was in order and every child was polled and found there, the next one ends it with a stop, the proxy's error or end, or the first child gone, in this order. |
| `Supervisor.Session.Shutdown` | crates/quadcontrol-ios/src/session.rs:853-903 | Stopping is shown, then the proxy stopped, then the client dropped, then, if anything is listed, the termination ladder runs once, with its signal order and time bound, then every child is reaped, in this order. |
| `Supervisor.CauseStays` | crates/quadcontrol-ios/src/session.rs:376-404 | Nothing on the way out takes the cause of a failure away. |
| `SessionSlot.Store.Claim` | crates/quadcontrol-gui/src-tauri/src/lib.rs:798-812 | Claims the slot, with a fresh id, unless a session is live or being started. |
| `SessionSlot.Store.Install` | crates/quadcontrol-gui/src-tauri/src/lib.rs:852-866 | Puts the handle in, unless another live session is there. |
| `SessionSlot.OneLiveSession` | crates/quadcontrol-gui/src-tauri/src/lib.rs:788-894 | However start, stop and status commands interleave, at most one session is live or being started. |
| `SessionSlot.PlaceholderHolds` | crates/quadcontrol-gui/src-tauri/src/lib.rs:382-397 | While a command starts a session the slot holds its placeholder and nothing else is live, so its handle is never turned away. |
| `SessionSlot.TurnedAwayExactly` | crates/quadcontrol-gui/src-tauri/src/lib.rs:852-866 | A handle is turned away exactly by a live one. |
| `SessionSlot.RefusedExactly` | crates/quadcontrol-gui/src-tauri/src/lib.rs:805-809 | A start is refused if and only if another start is under way or a session is live. |
| `SessionSlot.StopReachesTheLiveSession` | crates/quadcontrol-gui/src-tauri/src/lib.rs:874-894 | When no start is under way a stop asks exactly the live session. |
| `SessionSlot.RunKeepsInv` | crates/quadcontrol-gui/src-tauri/src/lib.rs:388-415 | The placeholder is an exclusive token, kept by every step. |
| `PairingStore.Store.Begin` | crates/quadcontrol-gui/src-tauri/src/lib.rs:1693-1705 | Admits a worker exactly when none is at work. |
| `PairingStore.Store.Cancel` | crates/quadcontrol-gui/src-tauri/src/lib.rs:1739-1754 | Cancels the token of the worker at work and shows the round as being cancelled. |
| `PairingStore.Store.SetResult` | crates/quadcontrol-gui/src-tauri/src/lib.rs:156-180 | A result is taken only for the generation shown; a cancelled round ends idle, whatever its result. |
| `PairingStore.OneWorkerWhileActive` | crates/quadcontrol-gui/src-tauri/src/lib.rs:1685-1754 | In every interleaving at most one worker exists, exactly while the state is waiting or cancelling, with the generation and the token of the state. |
| `PairingStore.BeginsExactly` | crates/quadcontrol-gui/src-tauri/src/lib.rs:1693-1705 | In every interleaving a begin is admitted exactly when no round is waiting or being cancelled, so also after a failed one; it is then the one that waits, its token uncancelled. Turned away, it changes nothing. |
| `PairingStore.CancelsExactly` | crates/quadcontrol-gui/src-tauri/src/lib.rs:1739-1754 | A cancel of a waiting round cancels its token and shows it; any other changes nothing. |
| `PairingStore.ResultsArrive` | crates/quadcontrol-gui/src-tauri/src/lib.rs:156-180 | The result of a worker becomes the state unless its round was cancelled, and frees the store. |
| `PairingStore.CancelReachesTheWorker` | crates/quadcontrol-gui/src-tauri/src/lib.rs:1739-1754 | A cancel reaches the worker at work and nobody else. |
| `PairingStore.StaleResultsChangeNothing` | crates/quadcontrol-gui/src-tauri/src/lib.rs:156-163 | A generation that is over never comes back: no later result for it changes the state. |
| `RecentApps.Meta.RememberRecentApp` | crates/quadcontrol-gui/src-tauri/src/lib.rs:466-484 | The in-place update computes the functional one. |
| `RecentApps.EightMostRecent` | crates/quadcontrol-gui/src-tauri/src/lib.rs:466-484 | After any sightings the list holds the eight apps seen last, each once, the latest first, the home screen never. |
| `RecentApps.TruncationIsHarmless` | crates/quadcontrol-gui/src-tauri/src/lib.rs:482-482 | Having forgotten older apps does not change what later steps leave in front. |
| `RecentApps.LatestFirst` | crates/quadcontrol-gui/src-tauri/src/lib.rs:459-465 | The reference list of distinct apps is ordered by when each was seen last. |
| `RecentApps.SeenIsInFront` | crates/quadcontrol-gui/src-tauri/src/lib.rs:466-484 | The app seen is in front, under the name it is installed with if it is; the others are as they were. |
| `RecentApps.NoAppNoChange` | crates/quadcontrol-gui/src-tauri/src/lib.rs:466-472 | Without an app, and for the home screen in any spelling, nothing changes. |
| `AnnexB.AnnexBParser.Append` | apple/Sources/QuadControlAndroidVideo/AnnexBParser.swift:57-60 | What has been emitted and the buffer are functions of the whole stream so far, whatever its chunks. |
| `AnnexB.AnnexBParser.Finish` | apple/Sources/QuadControlAndroidVideo/AnnexBParser.swift:63-65 | Together with what was emitted gives all units of the stream; the buffer is cleared if a start code was ever seen. |
| `AnnexB.AnnexBParser.Drain` | apple/Sources/QuadControlAndroidVideo/AnnexBParser.swift:67-104 | Emits the units between start codes and keeps the residue of the buffer. |
| `AnnexB.NextStartCode` | apple/Sources/QuadControlAndroidVideo/AnnexBParser.swift:115-129 | Finds the first three- or four-byte start code at or after a position. |
| `AnnexB.ChunkIndependence` | apple/Sources/QuadControlAndroidVideo/AnnexBParser.swift:57-104 | Any chunks of a stream give the units of the whole stream, in order. |
| `AnnexB.FeedParser` | apple/Sources/QuadControlAndroidVideo/AnnexBParser.swift:57-104 | The parser object fed any list of chunks and finished returns all units of their concatenation. |
| `AnnexB.ResidueShape` | apple/Sources/QuadControlAndroidVideo/AnnexBParser.swift:77-102 | Before the first start code the buffer keeps at most three bytes; afterwards it starts exactly at the last start code. |
| `AnnexB.ResidueSuffices` | apple/Sources/QuadControlAndroidVideo/AnnexBParser.swift:77-104 | Keeping only the residue loses nothing, for any continuation of the stream. |
| `AnnexB.RoundTrip` | apple/Sources/QuadControlAndroidVideo/AnnexBParser.swift:86-128 | Units printed with any mix of start codes and cut into any chunks are recovered exactly, in order and with the kinds their headers tell, but for those with the forbidden bit set, which are dropped. |
| `AnnexB.PrintedUnits` | apple/Sources/QuadControlAndroidVideo/AnnexBParser.swift:86-104 | The printed stream holds exactly the units printed (section 7.4.1 of ITU-T H.264). |
| `Transcript.BuildCanonical` | apple/Sources/QuadControlDiagnosticProtocol/Authentication.swift:41-50 | Builds domain, version and length-prefixed fields. |
| `Transcript.CanonicalInjective` | apple/Sources/QuadControlDiagnosticProtocol/Authentication.swift:32-50 | The encoding is injective on label and fields, each shorter than 2^32 bytes. |
| `Transcript.TranscriptDeterminesMessage` | apple/Sources/QuadControlDiagnosticProtocol/Authentication.swift:52-145 | Equal transcripts come from the same kind of message with the same contents, so the five kinds never coincide. |
| `Transcript.PrefixedSplits` | apple/Sources/QuadControlDiagnosticProtocol/Authentication.swift:32-39 | A length-prefixed field is split off in only one way. |
| `Transcript.ProofLaidOut` | apple/Sources/QuadControlDiagnosticProtocol/Authentication.swift:32-68 | What a client's proof is made over, byte by byte. |
| `Transcript.MessageFields` | apple/Sources/QuadControlDiagnosticProtocol/Authentication.swift:52-145 | The labels and the fields of the five messages, in their order. |
| `Handshake.OneTimeToken.ConsumeIfValid` | apple/Sources/QuadControlDiagnosticProtocol/Authentication.swift:207-218 | Succeeds once, within the lifetime, and never again. |
| `Handshake.ServerHandshake.ReceiveHello` | apple/Sources/QuadControlDiagnosticProtocol/Authentication.swift:246-264 | The challenge step, with its deadline, state and validity checks in order. |
| `Handshake.ServerHandshake.ReceiveProof` | apple/Sources/QuadControlDiagnosticProtocol/Authentication.swift:266-301 | The proof step; the token is consumed exactly when the proof is authentic, in time and the token unused. |
| `Handshake.ClientHandshake.ReceiveChallenge` | apple/Sources/QuadControlDiagnosticProtocol/Authentication.swift:333-344 | Binds the client to one challenge and answers with the proof over it. |
| `Handshake.ClientHandshake.ReceiveFinished` | apple/Sources/QuadControlDiagnosticProtocol/Authentication.swift:346-373 | Accepts only a proof over its own hello and challenge under the derived key. |
| `Handshake.HelloTakenExactly` | apple/Sources/QuadControlDiagnosticProtocol/Authentication.swift:246-264 | A hello is taken if and only if it is in time, the first, and of its length; which failure is thrown otherwise. |
| `Handshake.ProofTakenExactly` | apple/Sources/QuadControlDiagnosticProtocol/Authentication.swift:266-301 | A proof is taken if and only if it is in time, awaited, the right code, and the token within its three minutes and unused; which failure is thrown otherwise; the token is spent only then. |
| `Handshake.ChallengeAnsweredExactly` | apple/Sources/QuadControlDiagnosticProtocol/Authentication.swift:333-344 | A client answers the first challenge of the right lengths, with the code over it. |
| `Handshake.FinishedAcceptedExactly` | apple/Sources/QuadControlDiagnosticProtocol/Authentication.swift:346-373 | A client accepts exactly the message a server with the same token and exchange replies. |
| `Handshake.OneProofPerToken` | apple/Sources/QuadControlDiagnosticProtocol/Authentication.swift:187-301 | Over any number of interleaved handshakes sharing a token at most one proof succeeds, exactly when the token is consumed. |
| `Handshake.AcceptanceAgrees` | apple/Sources/QuadControlDiagnosticProtocol/Authentication.swift:266-373 | If a client accepts a proof that a server produced, both sides hold the same nonces, challenge id, server id, session id and session key. |
| `Handshake.ProofAgrees` | apple/Sources/QuadControlDiagnosticProtocol/Authentication.swift:266-344 | If the proof a server accepted is one that a client made, it was for the same hello and challenge, with the same token. |
| `Handshake.AcceptedProofsAreAnswers` | apple/Sources/QuadControlDiagnosticProtocol/Authentication.swift:187-344 | Over every run of any number of handshakes in which messages come from anybody who lacks the token: a proof that a server accepts was answered by a client that holds the token and saw the same hello and challenge. |
| `Handshake.AuthenticationIsMutual` | apple/Sources/QuadControlDiagnosticProtocol/Authentication.swift:187-373 | In every such run, what a client with the token accepts was sent by the one server handshake that concluded, for the same hello, challenge, session id and key, and that server had its proof from a client with the token. |
| `Handshake.HonestRunSucceeds` | apple/Sources/QuadControlDiagnosticProtocol/Authentication.swift:187-373 | An exchange that is passed on undisturbed, with the token within its lifetime, is such a run, and ends concluded and accepted. |
| `Handshake.ReplyNeverFails` | apple/Sources/QuadControlDiagnosticProtocol/Authentication.swift:281-296 | After the token is consumed nothing can fail any more. |
| `Handshake.RunKeepsInv` | apple/Sources/QuadControlDiagnosticProtocol/Authentication.swift:187-374 | What every step of any run keeps: every conclusion, answer and acceptance on record is sound. |
| `Admission.AdmissionController.TryBegin` | apple/Sources/QuadControlDiagnosticServer/AdmissionController.swift:13-31 | Prunes by whatever reading it is given, then admits exactly when the slot is free and neither pending set nor pruned lists are full; and while readings do not go back, exactly as the full failure history of the last 60 s demands. |
| `Admission.AdmissionController.AuthenticationSucceeded` | apple/Sources/QuadControlDiagnosticServer/AdmissionController.swift:33-42 | Moves a pending connection to the free active slot; leaves it nowhere if the slot is taken. |
| `Admission.AdmissionController.RecordFailure` | apple/Sources/QuadControlDiagnosticServer/AdmissionController.swift:44-55 | Adds one failure to the full history and to the lists, which are pruned at any clock reading as that reading demands, and takes the connection out of the pending set. |
| `Admission.AdmissionController.EndConnection` | apple/Sources/QuadControlDiagnosticServer/AdmissionController.swift:57-64 | Frees what the connection holds and nothing else. |
| `Admission.KeptTimes` | apple/Sources/QuadControlDiagnosticServer/AdmissionController.swift:72-82 | A list pruned at one cutoff and again at a later one is the full history from the later one on. |
| `Admission.KeptPeerTimes` | apple/Sources/QuadControlDiagnosticServer/AdmissionController.swift:77-82 | The same for the list of each peer. |
| `Admission.BoundedWindows` | apple/Sources/QuadControlDiagnosticServer/AdmissionController.swift:25-28 | A bound on the pruned counts at each recording is a bound in every window of 60 s. |
| `AdmissionAlone.OnlyLatenessAndSetbacksExceed` | apple/Sources/QuadControlDiagnosticServer/AdmissionController.swift:13-83 | Whatever its callers do and whatever readings of the clock they pass, any 60 s hold at most 12 recorded failures of a peer and 27 of all, as many again for each reading that was before the one it followed, and one more for each failure recorded for a connection that was not pending for the peer named. |
| `AdmissionAttained.EveryExcessIsAttained` | apple/Sources/QuadControlDiagnosticServer/AdmissionController.swift:13-83 | For every n and s some callers that record each failure once, after its begin and before its end, cause exactly n such late recordings and s setbacks of the clock, and reach 12(1 + s) + n failures of one peer; others reach 27(1 + s) + n of all. |
| `AdmissionAttained.LeastBounds` | apple/Sources/QuadControlDiagnosticServer/AdmissionController.swift:13-83 | So a bound holds of all such callers with at most n late recordings and s setbacks if and only if it is no less than these numbers. |
| `AdmissionAttained.BoundsHoldExactlyWhenOrderly` | apple/Sources/QuadControlDiagnosticServer/AdmissionController.swift:13-83 | In particular 12 for a peer, and 27 for all, hold of all such callers with at most n late recordings and s setbacks if and only if both are 0. |
| `DiagnosticServer.Connection.OnReceive` | apple/Sources/QuadControlDiagnosticServer/DiagnosticServer.swift:241-279 | One received message: state, connection id and phase checks, and the close with or without a recorded failure. |
| `DiagnosticServer.Connection.HandleHello` | apple/Sources/QuadControlDiagnosticServer/DiagnosticServer.swift:281-298 | The hello step with the handshake inside: its answer or failure, and what is sent or closed for it. |
| `DiagnosticServer.Connection.HandleProof` | apple/Sources/QuadControlDiagnosticServer/DiagnosticServer.swift:300-325 | The proof step with handshake and shared token inside, admission taking the active slot before the connection counts as authenticated. |
| `DiagnosticServer.Connection.HandleHeartbeat` | apple/Sources/QuadControlDiagnosticServer/DiagnosticServer.swift:327-374 | The heartbeat step: payload, code under the session key, sequence number, and the acknowledgement being sent. |
| `DiagnosticServer.Connection.AcceptBeat` | apple/Sources/QuadControlDiagnosticProtocol/Authentication.swift:393-400 | A heartbeat counts only with a valid code and a number above all that counted before. |
| `DiagnosticServer.Connection.OnSendDone` | apple/Sources/QuadControlDiagnosticServer/DiagnosticServer.swift:290-324 | Receives on, or closes; only a failed challenge counts as a failed attempt. |
| `DiagnosticServer.Connection.DoClose` | apple/Sources/QuadControlDiagnosticServer/DiagnosticServer.swift:427-442 | Closes once, gives back the slot, and records a failure when told to. |
| `DiagnosticServer.SlotsFollowConnections` | apple/Sources/QuadControlDiagnosticServer/DiagnosticServer.swift:117-159 | Over every run: the active slot holds an id exactly when that connection is open and authenticated, the pending set exactly the open ones before that; with all connections closed both are empty. |
| `DiagnosticServer.FailuresPerWindow` | apple/Sources/QuadControlDiagnosticServer/DiagnosticServer.swift:427-442 | Over every run of the server any 60 s hold at most 12 recorded failures of one peer and 27 in all. |
| `DiagnosticServer.FailsAtMostOnce` | apple/Sources/QuadControlDiagnosticServer/DiagnosticServer.swift:427-442 | No connection records two failures, and one that recorded a failure is out of both slots. |
| `DiagnosticServer.ClosedForGood` | apple/Sources/QuadControlDiagnosticServer/DiagnosticServer.swift:427-442 | A connection that left pending and active never returns. |
| `DiagnosticServer.StopClosesAll` | apple/Sources/QuadControlDiagnosticServer/DiagnosticServer.swift:161-169 | Stopping empties the registry, the pending set and the active slot and records no failure. |
| `DiagnosticServer.ReceiveIsFaithful` | apple/Sources/QuadControlDiagnosticServer/DiagnosticServer.swift:241-279 | Handling a message never records a failure for the connection in the active slot, so no close can leak the slot. |
| `DiagnosticServer.CloseIsFaithful` | apple/Sources/QuadControlDiagnosticServer/DiagnosticServer.swift:427-442 | A close leaves the slots as the phase demands, if a failure is recorded only before authentication. |
| `DiagnosticServer.RunKeepsInv` | apple/Sources/QuadControlDiagnosticServer/DiagnosticServer.swift:117-442 | What every event keeps, over any run of accepts, messages, completions, timeouts and stops. |
| `ServerLife.OneConnectionEver` | apple/Sources/QuadControlDiagnosticServer/DiagnosticServer.swift:300-325 | Over the life of a server, however many connections come and go, at most one ever becomes authenticated. |
| `ServerLife.AuthenticatedPeerAgrees` | apple/Sources/QuadControlDiagnosticServer/DiagnosticServer.swift:300-325 | If a client accepts the proof of the authenticated connection, both sides saw the same hello and challenge and hold the same token, session id and session key. |
| `ServerLife.ProvedIsAdmitted` | apple/Sources/QuadControlDiagnosticServer/DiagnosticServer.swift:300-325 | Admission never refuses a connection whose proof was accepted. |
| `ServerLife.BeatsAreFresh` | apple/Sources/QuadControlDiagnosticServer/DiagnosticServer.swift:327-374 | A heartbeat that counts was made with the session key for this session and has a higher number than all before. |
| `ServerLife.RunKeepsSpentOnce` | apple/Sources/QuadControlDiagnosticServer/DiagnosticServer.swift:117-325 | What every event keeps: the token is spent exactly when one connection has proved itself, and its keys are those it concluded with. |
| `ServerLaws.FailuresAreRecordedExactly` | apple/Sources/QuadControlDiagnosticServer/DiagnosticServer.swift:241-442 | Over every run the history grows by exactly the attempts that fail: one failure when a waiting connection is closed by a message, a failed send of the challenge or the handshake timeout, or when one let in cannot be set up; nothing when it is closed by the network or a stop, or once its proof was accepted. |
| `ServerLaws.WrongProofIsRecorded` | apple/Sources/QuadControlDiagnosticServer/DiagnosticServer.swift:300-325 | A proof that is not the right one closes its connection and is recorded for its peer. |
| `ServerLaws.GuessingIsRateLimited` | apple/Sources/QuadControlDiagnosticServer/DiagnosticServer.swift:117-159 | After five wrong proofs of one peer within 60 s its next connection is not let in: rate limited, unless the slot or the pending set is full. |
| `ServerLaws.HelloTakenExactly` | apple/Sources/QuadControlDiagnosticServer/DiagnosticServer.swift:281-298 | A hello keeps its connection open if and only if it is well-formed and in time; the challenge is then on its way. |
| `ServerLaws.ProofTakenExactly` | apple/Sources/QuadControlDiagnosticServer/DiagnosticServer.swift:300-325 | A connection becomes authenticated if and only if the right proof arrives for it, in time, with the token usable. |
| `ServerLaws.BeatTakenExactly` | apple/Sources/QuadControlDiagnosticServer/DiagnosticServer.swift:327-374 | A heartbeat keeps its connection open if and only if its code is right and its number new; the acknowledgement is then on its way. |
| `ServerLaws.LetInExactly` | apple/Sources/QuadControlDiagnosticServer/DiagnosticServer.swift:117-159 | A connection is let in if and only if admission lets it and its handshake can be set up. |
| `ServerLaws.EndsClose` | apple/Sources/QuadControlDiagnosticServer/DiagnosticServer.swift:205-442 | A lost network, a timer that fires and a failed send close their connection. |
| `ServerLaws.OpenConnectionsAreWatched` | apple/Sources/QuadControlDiagnosticServer/DiagnosticServer.swift:205-442 | Over every run a waiting connection runs the handshake timer, an authenticated one the heartbeat timer, and from readiness on the transport owes each open one exactly one completion. |

## Left out

- Sockets, threads, HTTP, JSON, processes, OS signals and clocks are inputs: oracles, events of a state machine, or parameters of a step.
- HMAC, HKDF and random values: macs and derived keys are symbolic terms, equal only when made from equal inputs; nonces and ids are inputs.
- Handshake.AuthenticationIsMutual: a code under the token's key, and a server's last message under a key derived from it, can only be passed on, not made, by those who lack the token; this is the one assumption about codes, and AcceptedProofsAreAnswers shares it.
- FrameSlot.AfterStop: that nothing is delivered after a stop is false at this grain, since a reader may be between its check and its delivery; the exact condition is proved instead.
- Multipart.PicturesWithoutLength: that every part without a length is cut out is false of the code; the pictures are JPEG, stay below the limit by the delimiter and two line breaks, and do not hold the delimiter.
- Multipart.UpstreamsAreUnderstood: boundaries of ASCII characters; that those ending in two dashes work is false of the code.
- Multipart.WriteDownstream: the frames are those the slot gives until it gives no more; a failed clone of the socket is left out.
- Admission.AdmissionController.TryBegin: what it refuses is stated of the full history only while readings of the clock do not go back; what other readings do is counted by `AdmissionAlone.OnlyLatenessAndSetbacksExceed`.
- DiagnosticServer.FailuresPerWindow: the clock does not go back (`monotonicNowNanos`, read on the one queue all connections share); what is on the wire is a decoded envelope or no envelope, its framing left out.
- ServerLife.OneConnectionEver: a heartbeat's payload is its status text; outgoing acknowledgements are part of no claim.
- Deduplicate.DeduplicateDevices: the identity is a function of the serial, which holds when serials are distinct.
- Supervisor.Session.Supervise: runs that end; the ladder may find any children gone, whichever were seen gone before; stderr threads and frame counts are left out. A session created just before a failing setup is not deleted on the way out, and nothing is claimed about that.
- AnnexB.AnnexBParser.Finish: a buffer that never saw a start code is not cleared, as in the code; finishing is meant to be the last call.
- WdaSession.RetryFailsExactlyWhenSuperseded: server ids are never reused, a POST whose answer is lost counts as taking the session away, and a settings replay that fails for another reason ends the call as the code does.
- WdaSession.Client.SessionCall: runs one clone alone; interference between its steps is what the interleaved machine adds. The first `create_session` precedes all clones.
- Of WDA sessions, which settings the final session has after concurrent `configure_mjpeg` calls, the calls that bypass `session_call` (`unlock`, `delete_session`), and the texts `is_invalid_session` recognises are left out.
- PairingRound.RunPairingRound: the deadline is the end of the list of turns; matching services by name, the output of `adb` and the reading of guids are part of the oracle. It is stated for a fresh round with nothing in flight, as its caller provides.
- PairingRound.PairOnce: the text that tells of two errors is an input; waiting for the device to come online and the explicit connect after the close are left out.
- Ladder.Children.TerminateAll: unix only; the final blocking reap takes no modelled time, and a process group is known by its leader.
- Of the session slot, the recorded device id, the derived per-session data and the shutdown path that takes a placeholder while a start is in flight are left out.
- Of the pairing store, generations are unique but not claimed to be monotone, since they are drawn before the lock; poisoned locks are left out.
- Counters (frame numbers, ids, generations) are unbounded, except the round id, which wraps, the base64 accumulator, and lengths parsed as machine words.
- Left out as easy: token text encoding, version and mDNS parsing, error codes, DTOs, tap geometry, bit rates, ring buffers, QR codes, the design handoff and the user interface.
