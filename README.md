# VoipStateService: a verified model of Threema's call signalling state

Threema Android's `VoipStateService` keeps the state of the single VoIP call
slot of the app. It handles the five signalling messages a peer sends (call
offer, answer, ICE candidates, ringing, hangup) and builds the ones we send.
It moves the call through Idle, Ringing, Initializing, Calling and
Disconnecting. Along the way it does this bookkeeping:

- it holds the server connection lease during a call;
- it caches ICE candidates that arrive before the call starts;
- it stores received offers;
- it arms a one-shot accept action for the ringing call;
- it runs a 60-second ringing timeout.

This project models that class in Dafny and proves what it promises.

Modules, in dependency order:

- `VoipTypes` (`voip_types.dfy`): the message payloads and reject reasons, the constants, and the observable effects. The effects are messages enqueued, local broadcasts, listener events, lease calls and other platform calls.
- `CallStates` (`call_state.dfy`): the call state (phase, call id, incoming call counter) and one `setStateX` step on it. It also holds the guard of the ringing timeout, and lemmas about sequences of transitions. The counter's increment happens inside the `CallState` class, which is not part of this model; it is modelled as an effect of entering Ringing.
- `SignalingRules` (`signaling_rules.dfy`): decisions that change nothing. These are call-id validation (with the legacy id 0), offer validation, the reject chain for incoming offers, the listener event of a local reject or a hangup, the answer builder and the call duration.
- `Candidates` (`candidates.dfy`): the candidate cache per peer and the flush that broadcasts it. The flush's iteration order is left open, as a `HashMap`'s is. Also the collection of non-null local candidates.
- `VoipStateServices` (`voip_state_service.dfy`): the class `VoipStateService` itself. Its real fields are those the Java class updates. Ghost logs (`sent`, `broadcasts`, `events`, `leaseCalls`, `platform`) record the side effects in order. `Valid()` is the class invariant:
  - a pending accept exists only while ringing;
  - the lease is never held while idle;
  - acquire and release calls alternate.
- `Scenarios` (`scenarios.dfy`): call flows driven through the class and checked against its contracts:
  - an offer while idle rings, arms the timeout and caches the candidates that follow;
  - the accept action of a ringing call fires once;
  - an offer, then candidates while ringing, then Initializing: the cached candidates are broadcast;
  - once a rung call is initializing, its ringing timeout does nothing;
  - a hangup while initializing an incoming call reports a missed, accepted call;
  - an offer during a call, answered busy;
  - a silent reject when calls are disabled;
  - a legacy hangup without call id on a call we did not place is ignored;
  - a legacy hangup while idle reports a missed call, even twice.

The clock (`SystemClock.elapsedRealtime`) is a parameter `now`. The ringing timeout is a separate method, `OnRingingTimeout`, which receives the counter captured when the timer was posted. What `handleCallOffer` learns from other services is an `OfferContext` parameter: the contact lookup, the VoIP preference, an ongoing PSTN call, and "muted outside working hours".

Points where the code behaves differently from what one might expect; the model follows the code:

- `setStateIdle` does not clear the candidate cache. Only Disconnecting and Initializing empty it.
- The connection lease is acquired only on entering Initializing, never on Ringing or Calling.
- An offer's SDP is checked for null, not for emptiness.
- No `setStateX` checks where it is coming from. Any phase can move to any other; only a repeated request is a no-op.
- The call start timestamp is cleared only by Disconnecting and Idle.
- Going idle sets the tracked call id to 0. A hangup without call id (a legacy peer) arriving while idle therefore passes the call-id check. Each such hangup reports a missed call for its sender, even right after a BUSY reject has already reported that peer as missed (`VoipStateService.java` lines 860-868 and 896-901). `Scenarios.LegacyHangupWhileIdleReportsMissed` exhibits this.

## Model

| member | source | states |
|---|---|---|
| CallStates.Step | app/src/main/java/ch/threema/app/voip/services/VoipStateService.java:311-434 | A `setStateX` call always ends in phase X. It is a no-op when already in X. Otherwise the call id becomes the requested one, or 0 for Idle. The incoming call counter goes up by exactly one when Ringing is entered and is unchanged otherwise. |
| CallStates.CounterNeverDecreases | app/src/main/java/ch/threema/app/voip/services/VoipStateService.java:311-322 | Over any sequence of state changes the incoming call counter never goes down. |
| CallStates.ReRingingAdvancesCounter | app/src/main/java/ch/threema/app/voip/services/VoipStateService.java:636-664 | Coming back to Ringing from any other phase always yields a counter larger than before, so a stale timer can never match a later ringing episode. |
| CallStates.TimeoutFiresIffStillRinging | app/src/main/java/ch/threema/app/voip/services/VoipStateService.java:636-675 | A timer armed while ringing rejects the call if and only if every state change before it fired was a no-op `setStateRinging`. Once the call was accepted, ended or re-rung, the timeout does nothing. |
| SignalingRules.CallIdValid | app/src/main/java/ch/threema/app/voip/services/VoipStateService.java:921-938 | A message's call id is accepted iff it equals the current call id, or it is 0 and we are the initiator. A non-zero id, or any id on a call we did not place, must match exactly. |
| SignalingRules.ValidateOfferData | app/src/main/java/ch/threema/app/voip/services/VoipStateService.java:482-498 | An offer is valid iff it is present, typed "offer" and has a non-null SDP. |
| SignalingRules.EmptySdpOfferIsValid | app/src/main/java/ch/threema/app/voip/services/VoipStateService.java:492-497 | The SDP check is for null only: an offer with an empty SDP is valid exactly when it is typed "offer". |
| SignalingRules.DecideReject | app/src/main/java/ch/threema/app/voip/services/VoipStateService.java:535-567 | An offer proceeds iff VoIP is enabled, the offer is valid, the slot is idle, no PSTN call is ongoing and we are not muted for work. Otherwise the first failing check gives the reason: DISABLED, then UNKNOWN (both silent), then BUSY for an active call or a PSTN call, then OFF_HOURS. |
| SignalingRules.RejectNotification | app/src/main/java/ch/threema/app/voip/services/VoipStateService.java:1045-1058 | A notified local reject reports a missed (not accepted) call iff the reason is BUSY, TIMEOUT or OFF_HOURS. Any other reason is reported as an outgoing reject with that reason. |
| SignalingRules.RemoteHangupEvent | app/src/main/java/ch/threema/app/voip/services/VoipStateService.java:870-907 | A peer's hangup reports a missed call iff the call was incoming and idle, ringing or initializing; it counts as accepted iff initializing. It reports a finished call iff the call was calling with a known duration, with outgoing the negation of incoming. Otherwise nothing is reported, in particular while disconnecting. |
| SignalingRules.LocalHangupEvent | app/src/main/java/ch/threema/app/voip/services/VoipStateService.java:1201-1221 | Our hangup reports something iff there is no duration and the phase is initializing, calling or disconnecting. The report is "aborted" iff we placed the call, else a missed, accepted call. |
| SignalingRules.CallDuration | app/src/main/java/ch/threema/app/voip/services/VoipStateService.java:1346-1357 | There is a duration iff a start timestamp exists. For a clock reading not before the start it lies in [0, Integer.MAX_VALUE]. Below the clamp it is the whole seconds elapsed; at the clamp at least that many seconds have elapsed. |
| SignalingRules.BuiltOfferIsValid | app/src/main/java/ch/threema/app/voip/services/VoipStateService.java:968-977 | An offer built from an OFFER session description passes the receiver's offer validation and carries the call id. |
| SignalingRules.BuildCallAnswer | app/src/main/java/ch/threema/app/voip/services/VoipStateService.java:1070-1109 | An answer is built iff it accepts with an ANSWER/PRANSWER description or rejects with a reason; otherwise it is an illegal argument. An accept carries the description, its type in canonical form ("answer" or "pranswer", never "offer"), and the video feature only if asked. A reject carries the reason and no description. Both carry the call id and the action. |
| Candidates.CacheAppend | app/src/main/java/ch/threema/app/voip/services/VoipStateService.java:1586-1598 | Caching appends the batch to the end of that peer's list, creating it if absent, and leaves other peers' lists alone. |
| Candidates.BatchesForFlush | app/src/main/java/ch/threema/app/voip/services/VoipStateService.java:343-362 | Flushing the peers in any duplicate-free order broadcasts, for each peer, exactly its cached batches in order, and nothing for uncached peers. |
| Candidates.FlushDeliversEachPeerInOrder | app/src/main/java/ch/threema/app/voip/services/VoipStateService.java:343-362 | Whatever order the map yields, the flush keeps earlier broadcasts and adds, per peer, exactly the batches cached for it, each once and in arrival order. |
| Candidates.FlushOnlyCachedPeers | app/src/main/java/ch/threema/app/voip/services/VoipStateService.java:348-360 | A flush broadcasts only ICE candidate batches, each attributed to a peer that had a cache entry. |
| Candidates.PresentMembers | app/src/main/java/ch/threema/app/voip/services/VoipStateService.java:1140-1145 | A local candidate is sent iff it was passed in; null entries are dropped and nothing is invented. |
| Candidates.PresentAppend | app/src/main/java/ch/threema/app/voip/services/VoipStateService.java:1140-1145 | Dropping null candidates commutes with concatenation, so the candidates keep their relative order. |
| Candidates.CollectCandidates | app/src/main/java/ch/threema/app/voip/services/VoipStateService.java:1140-1145 | The loop collects exactly the non-null candidates, in order, without ufrag. |
| VoipStateServices.LeaseAcquire | app/src/main/java/ch/threema/app/voip/services/VoipStateService.java:338-342 | Acquiring the lease when it is not held keeps acquire and release calls alternating. |
| VoipStateServices.LeaseRelease | app/src/main/java/ch/threema/app/voip/services/VoipStateService.java:429-433 | Releasing a held lease, with the 5-second linger, keeps the calls alternating. |
| VoipStateServices.LeaseCountsBalance | app/src/main/java/ch/threema/app/voip/services/VoipStateService.java:338-342 | With alternating lease calls, acquires equal releases, plus one while the lease is held. The connection is never leaked once the call is idle, and never released twice. |
| VoipStateServices.VoipStateService.constructor | app/src/main/java/ch/threema/app/voip/services/VoipStateService.java:169-199 | A new service is idle with call id 0 and counter 0. No initiator, start time, offer, cached candidate or accept intent is set, no lease is held, and no effect has happened. |
| VoipStateServices.VoipStateService.OnStateChange | app/src/main/java/ch/threema/app/voip/services/VoipStateService.java:281-306 | Any new phase but Ringing drops the pending accept. Ringing or Initializing registers the media button receiver; Disconnecting or Idle unregisters it. |
| VoipStateServices.VoipStateService.SetStateRinging | app/src/main/java/ch/threema/app/voip/services/VoipStateService.java:311-322 | Moves to Ringing with the new call id and a new counter, keeping the accept intent armed just before. It is a no-op when already ringing. |
| VoipStateServices.VoipStateService.SetStateInitializing | app/src/main/java/ch/threema/app/voip/services/VoipStateService.java:327-364 | Moves to Initializing, drops the accept intent and holds the lease, acquiring it only if it was not held. It broadcasts every cached batch (per peer in order, in the map's order) and empties the cache. It keeps `Valid()` and is a no-op when already initializing. |
| VoipStateServices.VoipStateService.BroadcastCachedCandidates | app/src/main/java/ch/threema/app/voip/services/VoipStateService.java:343-362 | The nested loops over the cache append exactly one flush of the cache, in some iteration order of the map. |
| VoipStateServices.VoipStateService.BroadcastPeerCandidates | app/src/main/java/ch/threema/app/voip/services/VoipStateService.java:352-360 | The inner loop appends one ICE-candidates broadcast per cached batch of the peer, in the order the batches were cached, and nothing else. |
| VoipStateServices.VoipStateService.SetStateCalling | app/src/main/java/ch/threema/app/voip/services/VoipStateService.java:369-383 | Moves to Calling, drops the accept intent and records the clock reading as start time. It is a no-op when already calling. |
| VoipStateServices.VoipStateService.SetStateDisconnecting | app/src/main/java/ch/threema/app/voip/services/VoipStateService.java:388-403 | Moves to Disconnecting, drops the accept intent, unregisters the media button, and clears the start time and the candidate cache. It is a no-op when already disconnecting. |
| VoipStateServices.VoipStateService.SetStateIdle | app/src/main/java/ch/threema/app/voip/services/VoipStateService.java:408-434 | Moves to Idle with call id 0. It clears the accept intent, start time and initiator flag, removes the ended call's offer, and releases a held lease with the linger. It leaves the candidate cache alone, keeps `Valid()`, and is a no-op when already idle. |
| VoipStateServices.VoipStateService.SetInitiator | app/src/main/java/ch/threema/app/voip/services/VoipStateService.java:452-454 | The initiator flag becomes known with the given value. |
| VoipStateServices.VoipStateService.GetCallOffer | app/src/main/java/ch/threema/app/voip/services/VoipStateService.java:503-505 | An offer is returned iff one is stored for the call id, and it is the stored one. |
| VoipStateServices.VoipStateService.HandleCallOffer | app/src/main/java/ch/threema/app/voip/services/VoipStateService.java:514-687 | An offer without data or from an unknown contact changes nothing. A rejected offer enqueues a reject answer with the reason and changes no call state; listeners are notified unless the reject is silent. An accepted offer is stored under its call id, arms the accept intent and rings with the next counter. It sends "ringing", posts the 60 s timeout with that counter, and tells listeners of the offer and the ringing. |
| VoipStateServices.VoipStateService.OnRingingTimeout | app/src/main/java/ch/threema/app/voip/services/VoipStateService.java:638-675 | A TIMEOUT reject of the current call is enqueued iff the phase is still Ringing with the captured counter; otherwise nothing happens. |
| VoipStateServices.VoipStateService.HandleCallAnswer | app/src/main/java/ch/threema/app/voip/services/VoipStateService.java:694-748 | An answer for another call, or without an action, changes nothing. An accept broadcasts "call accepted". A reject notifies an incoming reject with the peer's reason. Unknown actions only notify the answer; the answer is notified even without data. |
| VoipStateServices.VoipStateService.HandleICECandidates | app/src/main/java/ch/threema/app/voip/services/VoipStateService.java:755-807 | A batch with candidates, for the current call and not "removed" is cached while idle or ringing, broadcast while initializing or calling, and dropped while disconnecting. Anything else changes nothing. |
| VoipStateServices.VoipStateService.HandleCallRinging | app/src/main/java/ch/threema/app/voip/services/VoipStateService.java:814-848 | Listeners hear of a ringing message iff its call id (0 without data) belongs to the current call and we are initializing. |
| VoipStateServices.VoipStateService.HandleRemoteCallHangup | app/src/main/java/ch/threema/app/voip/services/VoipStateService.java:856-910 | A hangup for another call changes nothing. Otherwise the service goes idle with all the bookkeeping of `setStateIdle`. Listeners hear of the hangup, then of the missed or finished call given by the phase, the initiator flag and the duration before the reset. |
| VoipStateServices.VoipStateService.SendCallOfferMessage | app/src/main/java/ch/threema/app/voip/services/VoipStateService.java:948-993 | A non-OFFER description is an illegal argument; otherwise, outside Initializing, an illegal state. Only when neither applies is the offer enqueued and the profile picture sent. |
| VoipStateServices.VoipStateService.SendCallAnswerMessage | app/src/main/java/ch/threema/app/voip/services/VoipStateService.java:1070-1123 | Enqueues the built answer and sends the profile picture iff the answer can be built; otherwise it reports the builder's error and sends nothing. |
| VoipStateServices.VoipStateService.SendAcceptCallAnswerMessage | app/src/main/java/ch/threema/app/voip/services/VoipStateService.java:1002-1016 | Accepting fails iff the description is an OFFER; otherwise the accept answer is enqueued. |
| VoipStateServices.VoipStateService.SendRejectCallAnswerMessage | app/src/main/java/ch/threema/app/voip/services/VoipStateService.java:1022-1059 | The reject answer with the reason is always enqueued. When asked to notify, the listeners hear a missed or rejected call according to the reason. |
| VoipStateServices.VoipStateService.SendICECandidatesMessage | app/src/main/java/ch/threema/app/voip/services/VoipStateService.java:1129-1160 | Outside Ringing, Initializing and Calling nothing is sent. Otherwise one message with the non-null candidates, in order, is enqueued. |
| VoipStateServices.VoipStateService.SendCallRingingMessage | app/src/main/java/ch/threema/app/voip/services/VoipStateService.java:1165-1183 | The ringing message is enqueued iff ringing; otherwise it is an illegal state and nothing is sent. |
| VoipStateServices.VoipStateService.SendCallHangupMessage | app/src/main/java/ch/threema/app/voip/services/VoipStateService.java:1188-1224 | The hangup is always enqueued. A call without duration in Initializing, Calling or Disconnecting is reported as aborted (ours) or missed and accepted (theirs). |
| VoipStateServices.VoipStateService.AcceptIncomingCall | app/src/main/java/ch/threema/app/voip/services/VoipStateService.java:1232-1245 | The accept intent fires at most once: the result is true iff one was pending and not cancelled, and afterwards none is pending. |
| VoipStateServices.VoipStateService.CacheCandidate | app/src/main/java/ch/threema/app/voip/services/VoipStateService.java:1586-1598 | The cache becomes the old cache with the batch appended to the peer's list. |
| VoipStateServices.VoipStateService.ClearCandidatesCacheFor | app/src/main/java/ch/threema/app/voip/services/VoipStateService.java:1250-1255 | Exactly that peer's cached batches are dropped. |
| VoipStateServices.VoipStateService.ClearCandidatesCache | app/src/main/java/ch/threema/app/voip/services/VoipStateService.java:1260-1265 | The cache becomes empty. |

## Left out

- Ringtone, audio focus, vibration and the media player: platform I/O with no effect on the signalling state.
- Call notifications, their tags and `cancelCallNotification`, the wearable integration, `showNotification` and the launch intents: user interface.
- The video context, its future and the video render mode: state for the video pipeline, independent of signalling.
- `getCallState`, `isInitiator` and the video getters: plain reads of fields the model exposes directly.
- The reject pending intent, built but only handed to the notification: user interface.
- TURN server prefetch and the feature-level cache reset in `handleCallOffer`: caches in other services.
- `isMutedPrivate`, which only chooses the ringtone and notification.
- Logging.
- `ThreemaException` from the message queue: enqueuing never fails here. The callers that catch it then carry on, as in the code.
- Concurrency and the `synchronized` locks: each method is modelled as atomic.
- The `CallState` class itself: only the fields and effects this class observes (phase, call id, incoming call counter) are modelled, in `CallStates.CallState`. Two of its behaviours are assumptions, written into `CallStates.Enter`: `setRinging` increments the incoming call counter, and `setIdle` resets the call id to 0.
- Message listeners' `handle(identity)` filter: the model records the notification that is offered to the listeners.
- A null `sdpType` in an offer, which would throw in `validateOfferData`: the model assumes a parsed offer always has a type, so `OfferData.sdpType` is a string.
- `SignalingRules.CallDuration`: the model does not capture 64-bit overflow of `now - start`. For the monotonic clock the difference is far inside the `long` range.
- Call ids are unbounded integers rather than 64-bit `long`s; they are only compared for equality.
- The 3-argument `sendRejectCallAnswerMessage` is `SendRejectCallAnswerMessage` with `notifyListeners` set to true.
