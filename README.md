# Voice meeting: connection negotiation, meeting page and movie party

This project models the browser side of a small voice-meeting web app. Participants join a room by a six-character code. The host is the one who created the room. Each pair of participants is connected by a WebRTC peer connection that is negotiated over a socket relay.

The model covers three scripts:

- **js/signaling.js** keeps the registry `peers` (peer name → RTCPeerConnection) and reacts to the relay's `existing-peer`, `new-peer`, `refresh-peer` and `peer-left` messages. It negotiates with `createOffer` and `handleSignal`, following the "Perfect Negotiation Example" of the W3C WebRTC 1.0 specification. The host is impolite and drops a colliding offer. A guest is polite and rolls back to accept it. ICE candidates that arrive before a remote description are queued on the connection.
- **js/meeting.js** settles the room code: it is read from the URL, or generated for a host. The file also owns the microphone's mute flag and its noise-gate and feedback detectors, and closes every connection on leaving.
- **js/movie-party.js** keeps the shared `currentMovieState` record and the `isMoviePartyActive` flag. The host's video events update them and are broadcast. The participants' socket handlers update them too. The file also holds `formatTime`.

Modules:

| module | contents |
|---|---|
| `Rtc` | The RTCPeerConnection as a value. Each awaited browser call is a total function. A `Fault` parameter names the one call, if any, that the browser rejects. |
| `Negotiation` | What one incoming signal does to its connection. |
| `Signaling` | The registry and global flags as a `ClientState` value, with one specification function per handler. The `Client` class holds the same fields. Each method's `ensures` gives the new state; the registry handlers give it through their specification function. |
| `Participants` | The participant list, a `Roster`. |
| `Meeting` | The room code, the `Microphone` class and `LeaveMeeting`. |
| `MovieParty` | The `Party` class, `FormatTime`, and a parser that reads a formatted time back. |

Each socket handler and each callback runs as one atomic step. A callback armed with `setTimeout` is recorded as a `Timer` value, and `Client.FireTimer` runs one of them.

Where the code and the design description disagree, the model follows the code:

- Queued ICE candidates are never applied or cleared. No code path drains `pc.queuedCandidates`.
- The re-offers armed by `refresh-peer`, by the error paths and by the disconnect watchdog are not limited to the polite side. The host re-offers too.
- `iceConnectionState` `failed` only calls `restartIce()`. No second-tier timer escalates to recreating the connection.
- In `handleSignal`, the `closed` branch calls `createPeerConnection`, which returns the same registered, closed connection rather than a new one. This branch, and the `closed` branch of `createOffer`, are unreachable: a connection is only closed just before it is deleted from `peers`. `Client.Valid` includes "no registered connection is closed", every `Client` method keeps it, and `HandleSignal` and `Attempt` assert the branch condition false. The lemmas `Signaling.LiveKeptBySignal` and `Signaling.LiveKeptByCreateOffer` state the same on values.
- Timers are not cancelled when a peer leaves, and an offer timer does not check that its peer is still registered. An offer armed before `peer-left` registers a new connection for the departed peer and sends it an offer (`Signaling.OfferLaterRevivesDepartedPeer`).
- `connectionState` `disconnected` re-runs `createOffer` after one second if the same connection is still disconnected; it does not restart ICE.
- `connectionState` `connected` clears no pending timers.
- `connectionState` `failed` only updates the status text; it does not recreate the connection.

## Model

| member | source | states |
|---|---|---|
| Rtc.NewConnection | js/signaling.js:126-147 | A new connection is stable, carries its peer's name, has no remote description and has empty candidate lists |
| Rtc.Close | js/signaling.js:85 | `close()` puts all three state machines in their closed state and keeps the connection's identity and candidate queue |
| Rtc.SetLocalOffer | js/signaling.js:466-468 | Creating and setting a local offer succeeds exactly from stable with no rejection, and moves to have-local-offer; on rejection the connection is unchanged |
| Rtc.Rollback | js/signaling.js:516-518 | A rollback succeeds exactly in have-local-offer or have-remote-offer and returns to stable; from stable it fails with InvalidStateError |
| Rtc.SetRemoteOffer | js/signaling.js:519 | Applying a remote offer succeeds only from stable or have-remote-offer and leaves a pending remote description |
| Rtc.SetLocalAnswer | js/signaling.js:521-522 | Answering succeeds exactly in have-remote-offer and ends in stable with the offer as the current remote description |
| Rtc.SetRemoteAnswer | js/signaling.js:534 | Applying an answer succeeds exactly in have-local-offer and ends in stable |
| Rtc.AddIceCandidate | js/signaling.js:539-540 | A candidate is added exactly when the connection is open with a remote description and the call is not rejected; the queue is untouched |
| Negotiation.AnswerOffer | js/signaling.js:516-528 | Optional rollback, then apply and answer: on success the connection is stable with the offer current, and only the negotiation fields change; with no rejection it succeeds from stable, or from an offer state when rolling back |
| Negotiation.Receive | js/signaling.js:502-546 | Every reaction that touches the connection keeps its identity and peer name |
| Negotiation.ImpoliteIgnoresCollidingOffer | js/signaling.js:510-515 | The host drops an offer when it is making an offer or is not stable, without touching the connection |
| Negotiation.NoCollisionRoleIndependent | js/signaling.js:510-528 | Without a collision, host and guest accept an offer identically |
| Negotiation.AcceptedOfferEndsStable | js/signaling.js:516-528 | Every accepted offer ends in stable with exactly one reply, an answer, and changes nothing else |
| Negotiation.PoliteRollsBackAndAccepts | js/signaling.js:510-528 | A guest in have-local-offer or have-remote-offer rolls back and answers, ending in stable |
| Negotiation.PoliteRollbackFromStableRejected | js/signaling.js:510-518 | A guest whose only collision is the global `makingOffer` flag tries to roll back from stable and lands in the catch block with InvalidStateError |
| Negotiation.StaleAnswerDropped | js/signaling.js:529-535 | An answer is dropped if and only if the connection is not in have-local-offer; otherwise it is applied and ends in stable |
| Negotiation.CandidateAddedOrQueued | js/signaling.js:537-546 | With a remote description a candidate is added; without one it is appended to the queue |
| Negotiation.QueueNeverDrained | js/signaling.js:537-546 | No signal removes a queued candidate; only candidate signals change the queue |
| Negotiation.ReceiveKeepsLive | js/signaling.js:502-546 | No signal closes an open connection |
| Negotiation.QueuePreservesArrivalOrder | js/signaling.js:541-545 | Before a remote description is set, a run of candidates is queued in arrival order and none is added |
| Negotiation.GlareResolvedForHost | js/signaling.js:510-535 | When both sides offer at once, the host drops the guest's offer, the guest answers the host's, and the host applies that answer; both end stable |
| Signaling.Registered | js/signaling.js:116-123 | After `createPeerConnection(name)` an entry for `name` exists and equals the existing entry or a new connection |
| Signaling.Discarded | js/signaling.js:84-87 | After close-and-delete no entry for the name remains |
| Signaling.Recreated | js/signaling.js:452-459 | The closed branch of createOffer leaves an entry for the peer |
| Signaling.RegisteredWellformed | js/signaling.js:116-123 | Looking up or creating an entry keeps every entry under its own peer's name, with distinct identities and no closed connection registered |
| Signaling.DiscardedWellformed | js/signaling.js:84-87 | Close-and-delete keeps the registry well formed |
| Signaling.ReplacedWellformed | js/signaling.js:495-546 | Storing a later state of the same connection keeps the registry well formed |
| Signaling.OfferTriedWellformed | js/signaling.js:466-487 | The offer attempt and its catch block keep the registry well formed |
| Signaling.AfterCreateOfferWellformed | js/signaling.js:432-491 | `createOffer` keeps the registry well formed |
| Signaling.AfterSignalWellformed | js/signaling.js:493-558 | `handleSignal` keeps the registry well formed |
| Signaling.LiveRegistered | js/signaling.js:116-123 | Creating or deleting an entry never registers a closed connection |
| Signaling.LiveOfferIfStable | js/signaling.js:460-487 | The offer attempt never leaves a closed connection registered |
| Signaling.LiveKeptByCreateOffer | js/signaling.js:452-459 | From a registry without closed connections, createOffer never reaches its closed branch and keeps the registry free of closed connections |
| Signaling.LiveKeptBySignal | js/signaling.js:505-508 | From a registry without closed connections, handleSignal never reaches its closed branch and keeps the registry free of closed connections |
| Signaling.LiveSettled | js/signaling.js:547-557 | Storing the connection a signal left behind, replying, or closing and deleting it after an error never registers a closed connection |
| Signaling.RegisteredIdempotent | js/signaling.js:116-123 | `createPeerConnection` returns an existing entry untouched, otherwise adds exactly one entry; a second call changes nothing |
| Signaling.DiscardedIdempotent | js/signaling.js:84-87 | A second close-and-delete of the same peer changes nothing; none at all for an unknown peer |
| Signaling.MakingOfferAlwaysCleared | js/signaling.js:432-491 | Every exit from createOffer (early returns, retries, success, errors) leaves `makingOffer` false and `ignoreOffer` unchanged |
| Signaling.OfferOnlyFromStable | js/signaling.js:443-474 | createOffer emits at most one signal, an offer to that peer, only from stable (or after replacing a closed connection), and leaves have-local-offer; with no rejection from stable it always emits it |
| Signaling.BusyCreateOfferIsNoOp | js/signaling.js:443-451 | With an offer already in flight either way, createOffer changes nothing but the flag |
| Signaling.UnsettledCreateOfferRetries | js/signaling.js:460-465 | In any other state that is not stable, createOffer only arms a retry after 500 ms |
| Signaling.ClosedEntryRecreated | js/signaling.js:452-474 | A closed entry is recorded as closed, deleted, and replaced by a new connection that carries the offer |
| Signaling.HostIgnoresCollidingOffer | js/signaling.js:509-515 | On the host, a colliding offer only sets `ignoreOffer`; nothing else changes beyond the lookup |
| Signaling.OfferAnsweredOnce | js/signaling.js:509-528 | An answered offer emits exactly one answer, to its sender, and ends stable; a guest with no rejection always answers |
| Signaling.StaleAnswerChangesNothing | js/signaling.js:529-533 | An answer outside have-local-offer changes no state at all |
| Signaling.EarlyCandidateQueued | js/signaling.js:541-545 | Without a remote description a candidate is appended to the queue and nothing else changes |
| Signaling.Client.constructor | js/signaling.js:3-11 | Empty registry, both flags false, and the host is impolite |
| Signaling.Client.CreatePeerConnection | js/signaling.js:116-123 | The registry becomes `Registered` of the old one; the returned connection is the stored one |
| Signaling.Client.Discard | js/signaling.js:84-87 | The state becomes `Discarded` of the old one |
| Signaling.Client.CreateOffer | js/signaling.js:432-491 | The new state is `AfterCreateOffer` of the old; `makingOffer` is false afterwards |
| Signaling.Client.MakeOffer | js/signaling.js:460-487 | The new state is `OfferIfStable` of the old |
| Signaling.Client.HandleSignal | js/signaling.js:493-558 | The new state is `AfterSignal` of the old; the looked-up connection is never closed, so the `closed` branch is not taken |
| Signaling.Client.React | js/signaling.js:519-557 | The new state is `Settled` of the old: store, reply, or close, delete and retry after InvalidStateError |
| Signaling.Client.Store | js/signaling.js:517-545 | The registered connection object takes its new state in place: only the entry for that peer changes, and the registry stays well formed |
| Signaling.Client.Attempt | js/signaling.js:441-487 | The new state is `OfferBody` of the old: nothing while an offer is in flight, otherwise make the offer (the closed branch is shown unreachable) |
| Signaling.Client.ExistingPeer | js/signaling.js:32-39 | The peer is listed; a guest arms an offer after 100 ms, the host arms nothing |
| Signaling.Client.NewPeer | js/signaling.js:41-48 | The peer is listed; a guest runs createOffer at once, the host changes nothing else |
| Signaling.Client.RefreshPeer | js/signaling.js:50-62 | An unknown peer is listed and offered to after 200 ms; a failed or disconnected one is closed, deleted and offered to after 300 ms; otherwise nothing changes |
| Signaling.Client.PeerLeft | js/signaling.js:78-88 | The peer is unlisted and its connection closed and deleted |
| Signaling.Client.DuplicatePeerLeft | js/signaling.js:78-88 | A repeated `peer-left` has the effect of a single one |
| Signaling.Client.OnIceCandidate | js/signaling.js:200-209 | A gathered candidate is sent to its peer; the end-of-gathering null is not |
| Signaling.Client.OnConnectionStateChange | js/signaling.js:388-418 | The new connection state is stored; `disconnected` with the participant's element present arms a reconnect check on that very connection after 1000 ms |
| Signaling.Client.OnIceConnectionStateChange | js/signaling.js:420-426 | The ICE state is stored; `failed` calls `restartIce()` once and does nothing else |
| Signaling.ReconnectCheckOnClosedConnection | js/signaling.js:405-410 | A reconnect check whose captured connection was closed does nothing: the closed object is not disconnected, and its id is not registered |
| Signaling.OfferLaterRevivesDepartedPeer | js/signaling.js:78-88 | An offer timer fired after the peer left is still due, and registers a new connection for that peer and sends it an offer |
| Signaling.Client.FireTimer | js/signaling.js:405-410 | A fired timer is removed; it runs createOffer when it is an offer timer, or when the watched connection is still registered and still disconnected |
| Participants.Roster.Add | js/meeting.js:45-47 | Adding a name already listed does nothing; otherwise the name joins the list |
| Participants.Roster.Remove | js/signaling.js:81-82 | The name leaves the list, which is otherwise unchanged |
| Participants.AddTwice | js/meeting.js:45-47 | Adding a participant twice is the same as adding once |
| Meeting.Draw | js/meeting.js:34 | A random number in [0, 1) picks a valid index into the 36 characters |
| Meeting.CodeOf | js/meeting.js:30-37 | The code has one character per random number, each drawn from the alphabet |
| Meeting.GenerateMeetingCode | js/meeting.js:30-37 | The loop builds the code the six draws spell, which is six characters of A-Z0-9 |
| Meeting.EveryCodeReachable | js/meeting.js:30-37 | Every six-character code over A-Z0-9 is produced by some six draws |
| Meeting.SettleRoomCode | js/meeting.js:2-25 | A code in the URL is kept; a host without one gets a generated code; anyone else without one goes home (both directions) |
| Meeting.FeedbackStep | js/meeting.js:295-309 | Feedback is on after a frame if and only if the level exceeds the threshold, or it was on and the level is at least 50 |
| Meeting.FeedbackLatches | js/meeting.js:297-309 | Once raised, feedback stays raised through any run of frames at level 50 or above |
| Meeting.FeedbackBandKeeps | js/meeting.js:297-309 | Frames between 50 and the threshold never change the flag |
| Meeting.FeedbackLastWord | js/meeting.js:297-309 | Feedback after a run plus one frame is one more step from the flag after the run |
| Meeting.FeedbackSplit | js/meeting.js:297-309 | Folding a run split in two equals folding the first part, then the second |
| Meeting.FeedbackDecidedByLastOutlier | js/meeting.js:297-309 | After any run, the flag is raised if the last frame outside the band 50..threshold was above the threshold, and cleared if it was below 50, whatever came before |
| Meeting.Microphone.constructor | js/meeting.js:40-41 | No stream, unmuted, all detectors idle |
| Meeting.Microphone.StreamGranted | js/meeting.js:174 | The stream is kept |
| Meeting.Microphone.ToggleMic | js/meeting.js:103-118 | Without a stream nothing happens; otherwise the mute flag flips, the track is enabled exactly when unmuted, and the new flag is broadcast |
| Meeting.Microphone.ToggleMicTwice | js/meeting.js:103-118 | Two toggles restore the flag and the track and broadcast both states in turn; without a stream nothing is broadcast |
| Meeting.Microphone.EnhanceMicrophoneForMovie | js/meeting.js:401-403 | The movie-mode flag becomes the argument |
| Meeting.Microphone.OnMovieAudioState | js/signaling.js:91-109 | Everyone but the host follows the movie's playing state; the host keeps its mode |
| Meeting.Microphone.UpdateAudioLevel | js/meeting.js:253-309 | Above the speaking threshold the gate opens and a pending close is cancelled; otherwise a close is armed; feedback follows `NextFeedback` |
| Meeting.Microphone.SilenceTimeout | js/meeting.js:278-291 | The pending close fires and the gate closes |
| Meeting.OnStreamGranted | js/meeting.js:172-175 | The stream is kept and the local user is listed |
| Meeting.LeaveMeeting | js/meeting.js:349-380 | If the user declines nothing changes; otherwise every registered connection is closed exactly once and the registry is emptied |
| Signaling.IdsOf | js/meeting.js:363-380 | The ids of the named connections, one per name, in the order given |
| Signaling.DiscardedAllEffect | js/meeting.js:363-380 | Closing distinct registered peers one by one removes exactly those entries, leaves the others unchanged and appends their ids to `closed` in order |
| Signaling.DiscardedAllStep | js/meeting.js:363-380 | Closing one more still-registered peer extends the sequence of distinct closed peers by one step |
| Signaling.AllDiscarded | js/meeting.js:363-380 | Once the registry is empty, every originally registered connection's id appears in the newly closed part of `closed` |
| MovieParty.Party.constructor | js/movie-party.js:2-11 | Inactive, with the empty movie record |
| MovieParty.Party.LoadMovieVideo | js/movie-party.js:147-180 | Active, with a fresh record naming the file and the host, paused at 0 |
| MovieParty.Party.StopMovieParty | js/movie-party.js:182-220 | Inactive with the empty record; only the host tells the server |
| MovieParty.Party.ToggleMovieParty | js/movie-party.js:87-145 | Stops an active party, and only the host emits stop; starts one only when the upload returns a file name, and otherwise changes nothing |
| MovieParty.Party.HandleVideoPlay | js/movie-party.js:243-256 | Only the host with a video broadcasts play at the current position and records playing |
| MovieParty.Party.HandleVideoPause | js/movie-party.js:258-271 | Only the host with a video broadcasts pause and records paused; a host whose movie plays always broadcasts it |
| MovieParty.Party.HandleVideoSeek | js/movie-party.js:273-285 | Only the host with a video broadcasts the seek; only the position changes; a host whose movie plays always broadcasts it |
| MovieParty.Party.OnMoviePlay | js/movie-party.js:612-624 | A participant with the video element records playing at the given position; the host ignores it |
| MovieParty.Party.OnMoviePause | js/movie-party.js:626-636 | A participant with the video element records paused at the given position |
| MovieParty.Party.OnMovieSeek | js/movie-party.js:638-645 | A participant with the video element records the new position only |
| MovieParty.Party.LoadMovieForParticipant | js/movie-party.js:752-782 | Active; only the video fields of the record change, and play state and host are kept |
| MovieParty.Party.OnVideoUploaded | js/movie-party.js:598-603 | Participants load the announced file; the host ignores it |
| MovieParty.Party.ApplyVideoStateSync | js/movie-party.js:701-750 | A state without a video is ignored; otherwise the record is replaced by the incoming one and a participant becomes active |
| MovieParty.Party.ApplyVideoStateSyncTwice | js/movie-party.js:606-609 | Applying the same sync twice has the effect of applying it once |
| MovieParty.Party.OnMoviePartyEnded | js/movie-party.js:648-682 | Participants reset to inactive with the empty record; the host keeps its state |
| MovieParty.Digits | js/movie-party.js:581-583 | `toString()` of a whole number is a non-empty string of digits |
| MovieParty.PadStart2 | js/movie-party.js:581-583 | `padStart(2, '0')` yields at least two characters |
| MovieParty.ClockFields | js/movie-party.js:576-578 | Minutes and seconds are below 60, and hours, minutes and seconds recompose the input |
| MovieParty.FormatShape | js/movie-party.js:573-585 | NaN shows as 00:00; below an hour the result is MM:SS; from one hour up to 100 hours it has eight characters |
| MovieParty.FormatFields | js/movie-party.js:573-585 | The output splits at its colons into exactly `HH`, `MM`, `SS` from one hour on and `MM`, `SS` below, each the padded field value; below 100 hours every field has two characters |
| MovieParty.FormatTimeRoundTrip | js/movie-party.js:573-585 | Reading the formatted time back gives the original whole seconds |
| MovieParty.FormatTimeInjective | js/movie-party.js:573-585 | Different whole-second times are shown differently |

## Left out

- SDP and ICE contents, the RTCPeerConnection configuration, and media setup (js/signaling.js:126-198) are out of scope. Descriptions and candidates are opaque; only their type matters.
- The remote-track handler and the remote audio pipeline (js/signaling.js:211-386) are media processing and are not modelled.
- Await interleaving is not modelled. Each handler runs as one atomic step, so in `Signaling.Client` the global `makingOffer` is always false between handlers. The `Negotiation` lemmas take the flag as a parameter and cover both values.
- Delays are recorded in the `Timer` values; their order in time is left out. Any armed timer may fire next.
- Status labels, colours, emoji, mic-status icons, the socket connection events and `config.js` are presentation or I/O.
- Meeting.Microphone.UpdateAudioLevel: the gain values, the movie-volume ducking callback and the analyser are not modelled. The average level is an input, and the gate is only open or closed.
- The getUserMedia constraints and the audio processing graph in js/meeting.js are media setup.
- Meeting.LeaveMeeting: stopping the tracks, closing the remote audio elements, disconnecting the socket, clearing the session storage and the redirect are not modelled. The confirm dialog's answer is an input.
- `Math.random()` values are inputs to `Meeting.GenerateMeetingCode`. The URL and the history update are outside the model.
- MovieParty.Party.ToggleMovieParty: the file picker and the upload request are I/O. The upload's result comes in as an optional file name.
- The video element and the sync arithmetic are not modelled: network-delay offsets, drift correction, `requestMovieStateSync`, the periodic checks and `handleVideoTimeUpdate`. The element's position comes in as a real number.
- MovieParty.FormatTime: only non-negative whole seconds and NaN are modelled. Fractional input is floored by the source, and negative input is not modelled.
