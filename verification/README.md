# A model of the CMT speech data library

The library is the phone-side end of a speech protocol between a host processor and a cellular modem. It negotiates
the link with control messages of four octets, hands speech frames between an application and a kernel driver in
shared slots, keeps the wakeline up while the modem has to answer, and queues control events for the application.
This project models that library (protocol state machine, buffer and wakeline layer, octet ring, message codec) and
proves what the parts promise together, over every run.

## How it is built

- `Model.dfy` has the context as a value, `Protocol.dfy` its operations as functions from context to context, and
  `Step`, one thing that can happen to an open context. A `Run` is any sequence of steps. What the outside answers
  (result of a control write, of an uplink frame, of a wakeline call, of a driver configuration) is an oracle `Env` for
  the t-th system call, so every theorem covers every pattern of success and failure that its hypotheses admit.
- `Context.dfy` has the same context as the object that the C code updates in place: a class with the fields of the C
  structures and a method for each C function, with its loops and its mutual recursion. Each method is proved to take
  the state to what the function of `Protocol.dfy` says, and to change no more than its `modifies` clause.
  `Modem.Open` and `Modem.PerformAll` connect the object to runs, so the methods in between, from the wakeline functions
  to the handlers of each message, need no rows of their own below.
- `StateInvariant.dfy`, `Ordering.dfy`, `Wakeline.dfy`, `Handover.dfy`, `ActiveConfig.dfy`, `Downlink.dfy`,
  `Uplink.dfy`, `Traffic.dfy` and `Events.dfy` have the theorems about runs. Each states one property, keeps it step by
  step with a lemma for each operation, and lifts it to runs by induction. `Owed.dfy` follows a postponed reply until
  all held buffers are back.
- `Setup.dfy`, `Locks.dfy`, `Placement.dfy`, `StreamFormat.dfy` and `FollowUps.dfy` say what each operation does in terms of
  descriptors, held buffers, negotiated formats and messages sent, with the numbers of the protocol written out, and lift
  it to runs.
- `TwoParty.dfy` puts the library beside a modem that answers each SSI_CONFIG_REQ once, with success, over two
  channels of encoded words, and proves agreement and draining.
- `Ring.dfy` and `EventQueue.dfy` have the octet ring and the event queue on top of it, `HalfwordSwap.dfy` the
  in-place swap of samples, `Codec.dfy` the messages and frame headers, `WireFormat.dfy` the bits of their words,
  `Modular.dfy` the arithmetic of wrapping pointers.
- `Departures.dfy` says exactly when the code does something else than its comments say.

## What is assumed

- The driver counts frames modulo a boundary that is a positive multiple of the number of downlink slots and fits the
  24-bit parameter of a notification. It announces frames in order, a notification names the frame just filled and
  the shared pointer the next one to fill, and it stays less than one boundary ahead of the application
  (`Downlink.Allowed`). Only the theorems of `Downlink.dfy` use this.
- `Wakeline.WakeWorks` (wakeline calls succeed) is used by the wakeline theorems; writes may succeed or fail, and
  `Wakeline.Drops` is exactly what they then have to exclude. `Wakeline.Healthy` adds that control writes succeed, for
  the two-party theorems, and `ActiveConfig.Working` that driver configurations do, for the buffer configuration. None of
  them says anything about uplink frames, which may be refused.
- `ActiveConfig.Expected` and `Handover.NoStray` exclude exactly the steps that break the property in question
  (`ActiveConfig.ExpectedExact`, `Handover.PostponedExact`).

## Where the code departs from its documentation

The model follows the code.

- The version 5 downlink encoder shifts the codec sample rate by 7 and the decoder reads it at 5
  (`Codec.DlHeaderCodecRate`, `Codec.DlHeaderVector`).
- A confirmed reset that goes on to connect clears the call server flag first, so CONNECTING does not imply an active
  call (`Departures.ConfirmedResetForgetsCall`, `Departures.CallKnownExact`).
- SPEECH_CONFIG_REQ(0) in CONNECTED leaves CONFIG_DEACT_PEND set after the reply, and the next end of a call is then
  blocked (`Departures.StopWithoutStream`, `Departures.CallEndBlocked`).
- A timing request overwrites the private state in any state, and an uplink or timing notification does in ACTIVE_DL. If
  that was a stop waiting for buffers, the stream goes on without buffers (`ActiveConfig.ExpectedExact`).
- A second reset request whose write fails releases the wakeline while the first one is unconfirmed, and so does a refused
  SSI answer in SSI_CONFIG_PEND (`Wakeline.StepHeld`, `Departures.WakelineDropped`).
- A failed write out of SSI_CONFIG_PEND is masked (`Departures.DeferredRequestMasked`), and a failed request that follows a
  written speech reply is not counted as an error (`FollowUps.ErrorsCounted`).
- A reset from CONNECTED is reported as TR_2, not TR_10 (`Events.AlwaysExplained`).
- An unsupported sample rate is answered with success (`ActiveConfig.UnsupportedExact`).
- A downlink acquire does not look at the lock of the slot (`Departures.DlAcquireIgnoresLocks`).
- The uplink error count is called consecutive but an accepted frame does not clear it
  (`Departures.AcceptedKeepsErrors`).

## Model

| member | source | states |
|---|---|---|
| StateInvariant.CallStatusKeeps | cmtspeech_backend_common.c:211-292 | a call status change, with its nested request or reset succeeding or failing, keeps the link between protocol state, private state and call server flag |
| StateInvariant.ReplyKeeps | cmtspeech_nokiamodem.c:816-849 | so does setting up the buffers and sending the speech reply, including the requests that the reply triggers |
| StateInvariant.MessageKeeps | cmtspeech_backend_common.c:356-525 | so does every inbound message, whatever its fields and whatever each write returns |
| StateInvariant.StepKeeps | cmtspeech_backend_common.c:442-466 | every step of either layer keeps it: CONNECTING only when DISCONNECTED, DISCONNECTING only when CONNECTED with no call, SSI_CONFIG_PEND only in the two states that wait to turn round, RESET_BEFORE_CONNECT only when INVALID or in a ramp test |
| StateInvariant.AlwaysConsistent | cmtspeech_backend_common.c:704-737 | it holds in every state of every run from a freshly opened context |
| Ordering.PostMoves | cmtspeech_backend_common.c:533-597 | a written speech reply changes the protocol state only if its result is zero and the matching request is pending |
| FollowUps.ReplyFollows | cmtspeech_backend_common.c:563-592 | after a set-up that succeeds and a written reply the library sends exactly: a close of the link if the stream of an ended call stops, a timing request if a stream starts, nothing otherwise; and the resulting states for either outcome of that write |
| FollowUps.RequestFollowed | cmtspeech_nokiamodem.c:816-887 | the same for a speech request, at once or once all held buffers are back in any order |
| FollowUps.StopClosesLink | cmtspeech_backend_common.c:583-591 | the end of the stream of an ended call is followed by exactly one SSI_CONFIG_REQ(0) attempt, and the state is DISCONNECTING exactly if it was written |
| FollowUps.ReplyUnwritten | cmtspeech_backend_common.c:624-631 | a reply that is not written changes nothing but the error count |
| FollowUps.ReplyRefuses | cmtspeech_nokiamodem.c:823-846 | after a set-up that fails, the refusal and a reset request are sent, and the state is INVALID exactly if the latter was written |
| FollowUps.DelayedReplyLost | cmtspeech_nokiamodem.c:877-881 | a delayed reply that is not written leaves all five descriptors invalid |
| FollowUps.ResetSends | cmtspeech_nokiamodem.c:354-386 | a reset request is written exactly if the wakeline is up or can be raised, and the state is INVALID exactly if it was written in full |
| FollowUps.ResetAnswers | cmtspeech_nokiamodem.c:354-386 | the answer of a reset request: the error of the wakeline, the octets written, or 0 (or the error of letting the line go) after a failed write |
| FollowUps.SsiAsks | cmtspeech_backend_common.c:689-740 | a link request sends exactly one SSI_CONFIG_REQ and answers 0 exactly if it was written |
| FollowUps.SsiAlreadyClosing | cmtspeech_backend_common.c:709-713 | a close of the link is not asked for twice |
| FollowUps.PeerResetAnswered | cmtspeech_nokiamodem.c:966-989 | a reset by the modem is answered by exactly one RESET_CONN_RESP, and whatever becomes of it the library is as after opening |
| FollowUps.DriverErrorResets | cmtspeech_nokiamodem.c:1282-1296 | a lost modem leaves the library as after opening, and nothing is sent |
| FollowUps.ConfirmationConnects | cmtspeech_backend_common.c:493-508 | a confirmed reset asks for the link exactly if a call was waiting for it |
| FollowUps.CallUpSends | cmtspeech_backend_common.c:236-287 | what an active call sends and leads to in every protocol state |
| FollowUps.CallDownSends | cmtspeech_backend_common.c:217-234 | what an ended call sends and leads to in every protocol state |
| FollowUps.AnswerAccepted | cmtspeech_backend_common.c:442-467 | what a successful SSI answer leads to in every private state, the sample layout included |
| FollowUps.AnswerRefused | cmtspeech_backend_common.c:469-480 | a refused SSI answer gives up the request that it refuses and asks for a reset |
| FollowUps.GrantExact | cmtspeech_backend_common.c:391-424 | an uplink grant starts the uplink of a running downlink; a timing message does the same and ends the wait for one |
| FollowUps.TimingRequested | cmtspeech_backend_common.c:672-687 | a timing request is sent once and awaited exactly if it was written |
| FollowUps.ErrorsCounted | cmtspeech_backend_common.c:619-629 | a write clears or raises the error count, and a failed follow-up of a written reply is not counted |
| Ordering.SpeechMoves | cmtspeech_nokiamodem.c:892-953 | a speech request starts or stops a stream only by way of an accepted reply |
| Ordering.SsiMoves | cmtspeech_backend_common.c:425-481 | an SSI answer brings the link up only if it is successful |
| Ordering.StepMoves | cmtspeech_backend_common.c:356-525 | which protocol state may follow which in one step, for every input of either layer |
| Ordering.LinkOrigin | cmtspeech_backend_common.c:442-450 | whenever the link is up there was a successful SSI_CONFIG_RESP after which the link never went down |
| Ordering.PendingOrigin | cmtspeech_backend_common.c:385-389 | an activation pending in CONNECTED was requested while CONNECTED, which was not left since |
| Ordering.DownlinkOrigin | cmtspeech_backend_common.c:563-585 | ACTIVE_DL is entered only by a written zero-result reply, from ACTIVE_DLUL or from a CONNECTED period in which SPEECH_CONFIG_REQ(1) arrived |
| Ordering.UplinkOrigin | cmtspeech_backend_common.c:391-418 | ACTIVE_DLUL is entered only from ACTIVE_DL and only by an uplink or timing notification |
| Wakeline.SsiHeld | cmtspeech_nokiamodem.c:1596-1606 | a link request keeps the level of the line equal to whether anybody holds it, whether or not it is written |
| Wakeline.ResetHeld | cmtspeech_nokiamodem.c:354-386 | a reset request keeps the line as the state needs it if and only if it is not a second one, in INVALID, whose write fails |
| Wakeline.CallHeld | cmtspeech_backend_common.c:211-292 | a call status change keeps the line as the state needs it, with the same single exception |
| Wakeline.RefusalHeld | cmtspeech_nokiamodem.c:840-846 | after a failed set-up the refusal and the reset keep the line, with the same single exception two system calls later |
| Wakeline.SsiRespondedHeld | cmtspeech_nokiamodem.c:471-490 | both layers of an SSI answer keep the line unless the answer is refused and the reset that follows is refused in INVALID, or not written in full in SSI_CONFIG_PEND when DISCONNECTED |
| Wakeline.ResetConfirmedHeld | cmtspeech_nokiamodem.c:393-397 | a confirmed reset drops the hold of the reset only, and adds the hold of a call exactly if one was waiting |
| Wakeline.StepHeld | cmtspeech_nokiamodem.c:270-386 | with working wakeline calls and writes that succeed or fail at will, every step keeps: level is 1 exactly if some user holds the line; link up or link request pending implies the CALL user; INVALID implies the RESET user - except, exactly, for the resets listed in Drops |
| Wakeline.AlwaysHeld | cmtspeech_nokiamodem.c:270-343 | it holds in every state of every run without such a step |
| Wakeline.HealthyNeverDrops | cmtspeech_nokiamodem.c:354-386 | no run whose control writes succeed has such a step, whatever happens to uplink frames and driver configurations |
| Wakeline.AcquireExact | cmtspeech_nokiamodem.c:270-300 | whatever the wakeline call answers: who then holds the line, its level, the answer, and that only the first user makes a call |
| Wakeline.ReleaseExact | cmtspeech_nokiamodem.c:310-331 | the same for a release, where only the last user makes a call |
| Wakeline.ResetExact | cmtspeech_nokiamodem.c:333-343 | a reset forgets all users and drops the line if the driver lets it |
| Handover.ReplyOnce | cmtspeech_nokiamodem.c:816-849 | with no buffer held, the reply is attempted exactly once and nothing is left pending, even if the set-up fails and a reset follows |
| Handover.SpeechProgress | cmtspeech_nokiamodem.c:935-950 | a speech request with no buffer held attempts its reply at once; with one held it invalidates all five descriptors, sends nothing and waits |
| Handover.AcquireDlProgress | cmtspeech_nokiamodem.c:1433-1470 | while a reply is postponed no downlink acquire succeeds |
| Handover.AcquireUlProgress | cmtspeech_nokiamodem.c:1608-1627 | while a reply is postponed no uplink acquire succeeds |
| Handover.ReleaseDlProgress | cmtspeech_nokiamodem.c:1521-1535 | a downlink release during the wait lowers the number of held buffers by one, and the last one attempts the reply |
| Handover.ReleaseUlProgress | cmtspeech_nokiamodem.c:1665-1670 | an uplink release during the wait does the same and sends no frame |
| Handover.StepProgress | cmtspeech_nokiamodem.c:863-887 | every step that is not a stray answer accounts for held buffers, releases and reply attempts during the wait |
| Handover.PostponedExact | cmtspeech_nokiamodem.c:525-536 | a step keeps the wait in order if and only if it is not a stray answer: a successful SSI answer during the wait, with a slot size set and the link not closing |
| Handover.AlwaysPostponed | cmtspeech_nokiamodem.c:525-536 | in every run without a stray answer, a postponed reply means five invalid descriptors of which at least one is held |
| Handover.WhilePostponed | cmtspeech_nokiamodem.c:863-887 | over any stretch of the wait, held buffers plus releases stay constant, no uplink frame is offered and no reply is attempted |
| Handover.HandoverCompletes | cmtspeech_nokiamodem.c:876-884 | the wait ends with a release exactly when every buffer held at its start has been released, at most five, and with exactly one reply attempt |
| Handover.StopsUnlocked | cmtspeech_backend_common.c:581-591 | no step from an ACTIVE state to CONNECTED leaves a buffer with the application |
| Handover.StrayExact | cmtspeech_nokiamodem.c:471-490 | a successful SSI answer during the wait leaves it in order if and only if no slot size is set or the link is closing |
| Owed.OwedReplies | cmtspeech_nokiamodem.c:863-887 | in whatever order the held buffers come back, the reply is in the end attempted on the state as it was, with all of them unlocked |
| Owed.OwedExists | cmtspeech_nokiamodem.c:1521-1535 | there is always a way to give all held buffers back |
| Owed.WaitAnswers | cmtspeech_nokiamodem.c:1529-1549 | a release during the wait answers 0, and -ENOENT for a downlink slot that is not held |
| Setup.DriverExact | cmtspeech_nokiamodem.c:719-778 | the driver block and the rolling feature count from the first successful configuration on |
| Setup.SetupPrepares | cmtspeech_nokiamodem.c:399-438 | a successful set-up gives every descriptor the slot that the driver assigned to it, free, valid and unmarked |
| Setup.StepSetup | cmtspeech_nokiamodem.c:719-953 | the exact buffer set-up after every step: cleared by a reset, prepared in the format asked for by a reply that the driver agrees to, invalid while a reply waits, laid out anew for a new sample layout, and untouched by everything else |
| Placement.AlwaysPlaced | cmtspeech_nokiamodem.c:399-469 | in every state of every run, whatever fails, a valid descriptor points to its own slot, with the payload four octets into it |
| Locks.DlReleaseExact | cmtspeech_nokiamodem.c:1521-1549 | outside the wait a downlink release frees its slot, overrun mark included, and touches nothing else |
| Locks.ReleaseTwice | cmtspeech_nokiamodem.c:1525-1546 | a second release answers -ENOENT, and one after the slot was only locked again answers 0 |
| Locks.UlReleaseExact | cmtspeech_nokiamodem.c:1672-1735 | outside the wait an uplink release frees its slot and no other whatever becomes of the frame, with its answer in every case |
| Locks.UlAcquireExact | cmtspeech_nokiamodem.c:1608-1650 | an uplink acquire succeeds exactly for a valid free slot of an active stream, locks the slot at the cursor alone and moves the cursor on |
| Locks.DlAcquireExact | cmtspeech_nokiamodem.c:1433-1519 | a downlink acquire that succeeds locks the slot at the pointer alone; one that fails locks nothing; the first frame ends a ramp test |
| Locks.NonRollingAcquire | cmtspeech_nokiamodem.c:1384-1418 | without rolling pointers the slots are handed out in turn |
| Locks.StepLocks | cmtspeech_nokiamodem.c:493-514 | the exact set of held buffers after every step |
| Locks.HeldSinceSetup | cmtspeech_nokiamodem.c:493-514 | over every run the held buffers are the acquires of free buffers minus the releases since the last set-up or reset |
| Locks.CursorAlternates | cmtspeech_nokiamodem.c:1646-1647 | over every run the k-th uplink buffer after a set-up is slot k modulo 2 |
| ActiveConfig.ReplyReady | cmtspeech_nokiamodem.c:816-849 | the reply that starts a stream leaves five valid descriptors of the negotiated size |
| ActiveConfig.SpeechReady | cmtspeech_nokiamodem.c:892-953 | a request with a supported rate, or with any rate while the link is down, keeps stream and buffers in step, now or after the wait |
| ActiveConfig.UnsupportedExact | cmtspeech_nokiamodem.c:909-917 | a request with another rate is answered with success once the buffers are back and then runs a stream without buffers, if and only if the link is up |
| ActiveConfig.SsiReady | cmtspeech_nokiamodem.c:446-469 | rewriting the downlink descriptors after an SSI answer keeps them in step |
| ActiveConfig.StepReady | cmtspeech_backend_common.c:563-592 | every expected step keeps stream and buffers in step |
| ActiveConfig.ExpectedExact | cmtspeech_backend_common.c:563-592 | for every step: once everything owed is given back, in any order, a stream that runs is properly configured if and only if the step was expected, that is, not an unsupported rate on an open link and not a grant or timing request over a stop that waits for buffers |
| ActiveConfig.UnexpectedBreaks | cmtspeech_backend_common.c:672-687 | any run of expected steps followed by one that is not can be continued by releases to an active stream without buffers |
| ActiveConfig.ActiveIsConfigured | cmtspeech_nokiamodem.c:399-438 | in every run of expected steps, refused uplink frames included, an active stream with no reply outstanding has slot size 324 at 8 kHz or 644 at 16 kHz and five valid descriptors with count, payload size and payload address to match |
| StreamFormat.RequestPrepares | cmtspeech_nokiamodem.c:892-953 | a stream request with rate 8 kHz or 16 kHz prepares exactly that rate, slots of 324 or 644 octets and 20 ms frames, at once or once all held buffers are back in any order |
| StreamFormat.AlwaysKnown | cmtspeech_nokiamodem.c:899-931 | over every run the format is the one of the last SPEECH_CONFIG_REQ(1), or none |
| StreamFormat.ActiveAsRequested | cmtspeech_nokiamodem.c:899-920 | in every run of expected steps an active stream with no reply outstanding has the rate, the frame length and the slot size of the last request |
| StreamFormat.FrameDescribesStream | cmtspeech_nokiamodem.c:1701-1704 | every frame that is then offered says so in its header |
| Downlink.Distance | cmtspeech_nokiamodem.c:1078-1102 | the 32-bit pointer difference modulo the boundary is the true number of frames between two positions |
| Downlink.EmptyDistance | cmtspeech_nokiamodem.c:1392-1396 | the driver position one behind the application reads as boundary - 1 |
| Downlink.SlotChoice | cmtspeech_nokiamodem.c:1384-1405 | the modular tests answer -ENODATA, -EPIPE or a slot exactly when the unbounded frame numbers say so |
| Downlink.PointerSlots | cmtspeech_nokiamodem.c:1405-1447 | the pointers select the slots of the frames they stand for |
| Downlink.NextPointers | cmtspeech_nokiamodem.c:1407-1418 | moving a pointer modulo the boundary moves to the next frame |
| Downlink.AcquirePointers | cmtspeech_nokiamodem.c:1433-1470 | acquire hands out the frame chosen on unbounded numbers, and its result and its descriptor are the ones that choice implies |
| Downlink.AcquireTracks | cmtspeech_nokiamodem.c:1433-1519 | acquire keeps the correspondence of pointers, slots and held frames with the unbounded stream |
| Downlink.OverrunExact | cmtspeech_nokiamodem.c:1121-1138 | the overrun test of a notification says exactly whether the driver is three or more frames ahead of the application |
| Downlink.NotifyTracks | cmtspeech_nokiamodem.c:1104-1163 | a notification keeps the correspondence: a held slot is marked exactly when its frame was just overwritten or is next to be, and the slot just filled, held or not, exactly when the driver has lapped the application |
| Downlink.XrunBitTracks | cmtspeech_nokiamodem.c:1118-1163 | the event bit is raised exactly if the driver has lapped the application, or has just filled or will next fill a held slot |
| Downlink.FillTracks | cmtspeech_nokiamodem.c:1078-1086 | so does the driver writing a frame |
| Downlink.ReleaseTracks | cmtspeech_nokiamodem.c:1521-1549 | a release answers -ENOENT for a free slot, -EPIPE exactly if an overrun was noted for the slot before it was locked or two later frames were announced, and 0 otherwise; nothing stays noted for the slot |
| Downlink.ConfiguredStarts | cmtspeech_nokiamodem.c:783-806 | a successful reconfiguration for a stream starts such a correspondence |
| Downlink.LockedCarriesHeader | cmtspeech_nokiamodem.c:1748-1758 | the two queries of a handed out descriptor give the sample rates of the frame header; its flags and addresses are as they were set |
| Downlink.XrunBitExact | cmtspeech_nokiamodem.c:1118-1163 | with no mark up, the event bit is raised if and only if the notification marks a descriptor |
| Downlink.DeliveredIntact | cmtspeech_nokiamodem.c:1424-1463 | a delivered frame is still in its slot, and not in the slot filled next, always without an overrun, and after a resync if and only if the driver is at most two frames past the announced one |
| Downlink.AlwaysTracks | cmtspeech_nokiamodem.c:1104-1549 | the correspondence holds over every interleaving of frames, notifications, acquires and releases between reconfigurations |
| Downlink.NextAdvances | cmtspeech_nokiamodem.c:1407-1418 | the next frame number never moves back |
| Downlink.HandoutsIncrease | cmtspeech_nokiamodem.c:1433-1465 | frame numbers handed out strictly increase, and consecutive ones differ by one unless an overrun or a rejected acquire lies between |
| Downlink.StaysHeld | cmtspeech_nokiamodem.c:1459-1484 | a slot stays charged to the frame it was first locked for until it is released |
| Downlink.OverrunReported | cmtspeech_nokiamodem.c:1118-1163 | if the notification of frame f + 2 was processed while frame f was held, the next release of its slot answers -EPIPE, in every interleaving |
| Downlink.EventNotes | cmtspeech_nokiamodem.c:1126-1133 | an overrun is noted for a slot only by a notification that finds the application lapped, and forgotten only by a release |
| Downlink.CleanRelease | cmtspeech_nokiamodem.c:1541-1546 | a slot that is released, handed out again and released in turn answers 0 if the driver did not lap the application into it in between and two later frames were not announced yet |
| Uplink.AddFour | cmtspeech_nokiamodem.c:1707-1708 | adding 4 to the 16-bit counter is adding 4 modulo 65536 |
| Uplink.CounterValue | cmtspeech_nokiamodem.c:1691-1708 | the counter after k accepted frames is its first value plus 4k modulo 65536 |
| Uplink.StepNumbered | cmtspeech_nokiamodem.c:1691-1726 | no step but an accepted uplink frame uses up a number |
| Uplink.FrameNumbers | cmtspeech_nokiamodem.c:1691-1708 | over every run the k-th frame that the driver accepts has a header that decodes to the first value of the static counter plus 4k modulo 65536 |
| Uplink.StepErrors | cmtspeech_nokiamodem.c:1675-1726 | the exact error count after every step: 0 after a notification, a reset or a new buffer setup, raised by one or to 5 by a refused frame, the same otherwise; and only a release in ACTIVE_DLUL below 5 errors offers a frame |
| Uplink.AlwaysBounded | cmtspeech_nokiamodem.c:1675-1726 | the error count is within 0 to 5 in every state of every run |
| Uplink.PausedSilent | cmtspeech_nokiamodem.c:1165-1169 | from 5 on no frame is offered until a notification, a reset or a new buffer setup |
| Traffic.StepTraffic | cmtspeech_nokiamodem.c:1201-1292 | which input adds which event, and that only an uplink release offers frames |
| Events.MessageExplained | cmtspeech_backend_common.c:151-202 | the transition reported for a message has its documented trigger, or is one of two exceptions |
| Events.StepExplained | cmtspeech_nokiamodem.c:1251-1292 | every event that a step adds is explained that way |
| Events.AlwaysExplained | doc/libcmtspeechdata_api_docs_main.txt:144-255 | over every run a transition other than INVALID has its documented trigger exactly if the event is neither a reset out of CONNECTED nor an SSI answer in ACTIVE_DL; a reset yields TR_10 exactly if the previous state was not CONNECTED |
| Events.AlwaysDocumented | doc/libcmtspeechdata_api_docs_main.txt:144-255 | over every run each transition is reported exactly for the documented message with the documented states before and after it; TR_2 also for a reset out of CONNECTED and TR_5 also for an SSI answer |
| Events.EventExact | cmtspeech_backend_common.c:606-609 | a known message adds exactly one event, the newest, with the message, the states before and after it and the layout mark; a full queue loses its oldest |
| TwoParty.CallNegotiates | cmtspeech_backend_common.c:211-292 | a call status change sends at most one request and then waits for what that request asks |
| TwoParty.AnswerNegotiates | cmtspeech_backend_common.c:442-467 | an answer settles the negotiation, or in SSI_CONFIG_PEND sends exactly one request for the current call status |
| TwoParty.ActGood | cmtspeech_backend_common.c:689-740 | every action of either party keeps the negotiation invariant over both channels |
| TwoParty.AlwaysGood | cmtspeech_backend_common.c:425-467 | it holds over every history, with any number of requests under way |
| TwoParty.Agreement | cmtspeech_backend_common.c:211-292 | whenever both channels are empty, the private state is IN_SYNC and CONNECTED, the link of the modem and the last reported call status agree |
| TwoParty.DeliveryCounts | cmtspeech_backend_common.c:442-466 | every delivery lowers the outstanding count by exactly one |
| TwoParty.DeliveryEnabled | cmtspeech_backend_common.c:689-740 | while the count is positive some delivery is possible |
| TwoParty.Drains | cmtspeech_backend_common.c:442-466 | once the call status stops changing, every history settles after exactly the outstanding number of deliveries, and not before, in agreement |
| Departures.StopWithoutStream | cmtspeech_backend_common.c:563-569 | a stop request leaves CONFIG_DEACT_PEND behind, once the buffers it waits for are back, if and only if no stream was active |
| Departures.CallEndBlocked | cmtspeech_backend_common.c:226-231 | in that state the end of a call sends nothing and counts an I/O error |
| Departures.ConfirmedResetForgetsCall | cmtspeech_backend_common.c:493-508 | a confirmed reset connects exactly if a call was waiting for it and the request is written, with the call server flag cleared |
| Departures.CallKnownExact | cmtspeech_backend_common.c:503-507 | every step keeps CONNECTING implies an active call, except exactly that one |
| Departures.DeferredRequestMasked | cmtspeech_backend_common.c:457-465 | out of SSI_CONFIG_PEND the state is the same whether or not the next request was written; only the error count tells |
| Departures.DirectRequestVisible | cmtspeech_backend_common.c:732-737 | a call status change falls back to IN_SYNC exactly if its request was not written |
| Departures.WakelineDropped | cmtspeech_nokiamodem.c:354-386 | which hold a refused SSI answer loses: that of the reset in INVALID, that of the link request in SSI_CONFIG_PEND when DISCONNECTED, each exactly if the new reset request fails |
| Departures.SecondResetDropsLine | cmtspeech_nokiamodem.c:366-369 | from a freshly opened context a written reset and a failed second one leave the line down in INVALID |
| Departures.DlAcquireIgnoresLocks | cmtspeech_nokiamodem.c:1459-1484 | the result of a downlink acquire does not depend on which slots are held |
| Departures.UlAcquireMindsLocks | cmtspeech_nokiamodem.c:1622-1627 | an uplink acquire refuses a held slot and changes nothing |
| Departures.AcceptedKeepsErrors | cmtspeech_nokiamodem.c:1707-1725 | an accepted frame leaves the error count as it is, so counted errors need not be consecutive |
| Codec.DecodeEncode | cmtspeech_msgs.c:229-502 | decoding an encoded message gives its fields cut to their widths, and the message itself exactly if all fields fit |
| Codec.EncodeDecode | cmtspeech_msgs.c:229-502 | encoding a decoded word gives the word back exactly if its reserved bits are zero |
| WireFormat.PlainFormat | cmtspeech_msgs.h:45-54 | the words of the messages without fields, as 32-bit numbers |
| WireFormat.SsiReqFormat | cmtspeech_msgs.c:349-377 | the bits of the word that carry each field of SSI_CONFIG_REQ |
| WireFormat.SsiRespFormat | cmtspeech_msgs.c:383-408 | the same for SSI_CONFIG_RESP |
| WireFormat.SpeechReqFormat | cmtspeech_msgs.c:229-277 | the same for SPEECH_CONFIG_REQ, with the codec field across two octets |
| WireFormat.SpeechRespFormat | cmtspeech_msgs.c:456-464 | the same for SPEECH_CONFIG_RESP |
| WireFormat.TimingFormat | cmtspeech_msgs.c:315-342 | the same for TIMING_CONFIG_NTF, with both fields across octets |
| WireFormat.RampFormat | cmtspeech_msgs.c:493-502 | the same for TEST_RAMP_PING |
| WireFormat.UlFormat | cmtspeech_msgs.c:108-119 | the same for the uplink header |
| WireFormat.DlFormat | cmtspeech_msgs.c:160-177 | the same for the downlink header as it is written |
| WireFormat.DlReadFormat | cmtspeech_msgs.c:207-223 | the same for the downlink header as it is read |
| WireFormat.TestWords | test_cmtspeech_msgs.c:72-239 | the prefilled words of the unit tests decode to the fields given there |
| Codec.EncodeInto | cmtspeech_msgs.c:229-502 | the encoders write exactly the four octets that the decoders invert |
| Codec.RampPingInverse | cmtspeech_msgs.c:472-502 | a TEST_RAMP_PING survives exactly if domain and reply domain fit four bits |
| Codec.UlHeaderInverse | cmtspeech_msgs.c:108-138 | an uplink header carries its fields exactly if they fit, and is determined by them exactly if its reserved bits are zero |
| Codec.DlHeaderCodecRate | cmtspeech_msgs.c:160-219 | an encoded downlink header loses the codec sample rate: the header survives exactly if that is 0 |
| Codec.DlHeaderReencodes | cmtspeech_msgs.c:160-223 | a downlink header is given back by decoding and encoding exactly if its top three bits are clear |
| Codec.DlHeaderVector | test_cmtspeech_msgs.c:277-306 | the prefilled frame decodes to codec rate 16 kHz, which no encoded frame does |
| Codec.EncodeUlHeader | cmtspeech_msgs.c:108-119 | writes the header into the first four octets, or nothing and -1 if there is no room |
| Codec.EncodeDlHeader | cmtspeech_msgs.c:160-177 | the same for the downlink header |
| Ring.SpaceIsConserved | sal_ring.h:79-106 | octets to read plus octets to write are size - 1, for every size from 1 |
| Ring.ContiguousParts | sal_ring.h:88-120 | the contiguous space and the contiguous space after the wrap add up to the total, for reading and for writing |
| Ring.MovesShiftSpace | sal_ring.h:126-138 | moving an index within the available space shifts exactly that many octets |
| Ring.ReadTakes | sal_ring.h:126-129 | reading within the available space returns the oldest octets in order and leaves the rest |
| Ring.MoveAppends | sal_ring.h:135-138 | moving the write index makes exactly the octets behind it readable |
| Ring.WriteAppends | sal_ring.h:112-138 | writing within the contiguous space appends exactly the octets written |
| Ring.RingBuffer.constructor | sal_ring.h:56-62 | a new ring is empty |
| Ring.RingBuffer.Reset | sal_ring.h:69-73 | a reset ring is empty |
| Ring.RingBuffer.MoveRead | sal_ring.h:126-129 | drops the oldest octets of the contents |
| Ring.RingBuffer.MoveWrite | sal_ring.h:135-138 | appends the octets behind the write index to the contents |
| EventQueue.SpaceInEvents | cmtspeech_nokiamodem.c:656-717 | for any event size from 1 and any number of slots from 2, the contiguous space tests decide full and empty, and no event straddles the wrap |
| EventQueue.FirstStored | cmtspeech_nokiamodem.c:694-717 | the oldest event occupies the octets at the read index |
| EventQueue.LastStored | cmtspeech_nokiamodem.c:684-685 | storing an event at the write index appends it, and the overflow branch leaves room for it |
| EventQueue.EventQueue.constructor | cmtspeech_nokiamodem.c:563-583 | a new queue is empty |
| EventQueue.EventQueue.Enqueue | cmtspeech_nokiamodem.c:656-688 | appends to a first-in first-out queue of one event less than the slots, dropping the oldest entry and returning -1 exactly when it is full |
| EventQueue.EventQueue.Dequeue | cmtspeech_nokiamodem.c:694-717 | returns the oldest event, or -1 exactly when the queue is empty |
| HalfwordSwap.RotationSwapsHalves | cmtspeech_nokiamodem.c:1368-1369 | rotating a word by 16 bits exchanges its two samples |
| HalfwordSwap.SamplesTradePlaces | cmtspeech_nokiamodem.c:1357-1360 | samples 2k and 2k + 1 trade places |
| HalfwordSwap.SwappedTwice | cmtspeech_nokiamodem.c:1357-1375 | swapping twice restores the buffer |
| HalfwordSwap.InplaceHalfwordSwap | cmtspeech_nokiamodem.c:1361-1375 | the loop swaps exactly the first n octets, in place |
| Context.PostedAsDecoded | cmtspeech_backend_common.c:533-551 | the follow-up of a written message is the same for the message and for what is decoded back from its word |
| Context.LayersCompose | cmtspeech_nokiamodem.c:1201-1251 | what the backend does to a message and what the data path adds make up the step that the theorems are about |
| Context.EncodedArrives | cmtspeech_nokiamodem.c:1182-1307 | an encoded message that fits its fields is taken as that message if the library answers to it, and refused otherwise |
| Context.DriverWordArrives | cmtspeech_nokiamodem.c:1260-1303 | a word of the internal domain is a notification with its 24-bit parameter, a failure of the modem, or nothing |
| Context.Modem.Open | cmtspeech_nokiamodem.c:558-598 | a freshly opened context is an initial state of runs, with the static frame counter as it was left |
| Context.Modem.LockedBufdescs | cmtspeech_nokiamodem.c:493-514 | counts the held descriptors of both directions |
| Context.Modem.InvalidateBufferSlots | cmtspeech_nokiamodem.c:525-536 | marks all five descriptors invalid and changes nothing else |
| Context.Modem.WriteCommand | cmtspeech_backend_common.c:611-633 | the whole new state after a write that succeeds, fails or is short, with its follow-up |
| Context.Modem.PostCommand | cmtspeech_backend_common.c:533-597 | the whole new state after the follow-up of a written message, nested requests included; the mutual recursion ends |
| Context.Modem.DlBufferAcquire | cmtspeech_nokiamodem.c:1433-1519 | result and whole new state of a downlink acquire |
| Context.Modem.DlBufferRelease | cmtspeech_nokiamodem.c:1521-1549 | result and whole new state of a downlink release |
| Context.Modem.SendUlFrame | cmtspeech_nokiamodem.c:1690-1726 | header, result and whole new state when a frame is offered to the driver |
| Context.Modem.UlBufferRelease | cmtspeech_nokiamodem.c:1652-1735 | result and whole new state of an uplink release, null pointer included |
| Context.Modem.CheckPending | cmtspeech_nokiamodem.c:1309-1329 | a word from the driver takes the step it stands for, with its result and event bits; any other word changes nothing |
| Context.Modem.ReadEvent | cmtspeech_nokiamodem.c:1331-1336 | takes the oldest event, or none |
| Context.Modem.Perform | cmtspeech_nokiamodem.c:1182-1735 | every input of a run, ramp tests apart, is a call or a word that the object handles as the protocol model says |
| Context.Modem.PerformAll | cmtspeech_nokiamodem.c:1182-1735 | the states of the object under any sequence of inputs form a run, so that every theorem about runs is about the object |

## Left out

- Context.Modem.CheckPending: does not cover TEST_RAMP_PING words. The ramp test reconfigures slots regardless of locks and never releases its wakeline bit; TEST_RAMP_PING_ACTIVE is kept as a protocol state only.
- Context.Modem.DlBufferAcquire: does not model the copy of the payload for the swapped layout, which reads slot offsets that no function assigns; those offsets are an arbitrary constant here, and the swap loop is proved on its own.
- Context.Modem.UlBufferRelease: does not model the payload octets, so the in-place swap before sending is proved on its own; a frame is its slot and its header.
- Context.Modem.SendUlFrame: does not model the payload octets either.
- Context.Modem.Perform: leaves ramp tests out, and drops the result codes, which the methods it calls state.
- Uplink.FrameNumbers: one context at a time; two that are open at once would share the static counter.
- Context.Modem.HandleInboundMessage: does not model the time stamp that is copied into a timing event.
- Context.Modem.QueueControlEvent: holds events as values in a sequence; the octet queue, for any event size, is proved separately in EventQueue.EventQueue and has the same capacity and overflow rule.
- Context.Modem.Open: does not model failures of open, malloc and mmap.
- Downlink.AlwaysTracks: covers rolling mode only; without the driver feature the code has no availability test, where only `Locks.NonRollingAcquire` is proved.
- Wakeline.AlwaysHeld: assumes successful wakeline calls; a failed one leaves the level where it was.
- TwoParty.Agreement: has no streams, resets, failing writes or direct link requests by the application.
- cmtspeech_send_ssi_config_request as a direct call of the application, which overwrites the private state in any state.
- cmtspeech_set_wb_preference and the call_connected flag, which only store a value; every theorem holds for any protocol version.
- Finding a buffer by its data or payload address; the descriptor's type field, which is constant.
- Descriptor indices outside their arrays, which the C code does not check either.
- Tracing, soft assertions (they only log), the VDD2 lock and the delay after raising the wakeline.
- cmtspeech_close, the descriptor query and the version queries.
- The dummy and null backends, the command line tools and the tests.
- Big-endian builds of the command words; the codec is that of a little-endian build.
