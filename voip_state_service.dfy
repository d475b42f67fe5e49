/**
 * `VoipStateService`: the state of the single call slot, the five `setState*`
 * transitions with their bookkeeping, the handlers of incoming call
 * messages, the builders of outgoing ones, the candidate cache and the
 * pending accept action.
 *
 * Side effects are appended to ghost logs: `sent` (messages handed to the
 * message queue), `broadcasts` (local broadcasts), `events` (listener
 * notifications), `leaseCalls` (the lifetime service's connection lease) and
 * `platform` (other platform calls: media button receiver, pending intents,
 * the reject service, the timer, profile pictures).
 */
module VoipStateServices {
  import opened VoipTypes
  import opened CallStates
  import opened SignalingRules
  import opened Candidates

  /** Lease calls alternate acquire / release-after-linger, and the lease is held iff the last was an acquire. */
  ghost predicate LeaseAlternates(calls: seq<LeaseCall>, held: bool) {
    && (forall i :: 0 <= i < |calls| ==>
          calls[i] == (if i % 2 == 0 then AcquireConnection else ReleaseConnectionLinger(VOIP_CONNECTION_LINGER)))
    && (held <==> |calls| % 2 == 1)
  }

  /** Acquiring a lease that is not held keeps the calls alternating. */
  lemma LeaseAcquire(calls: seq<LeaseCall>)
    requires LeaseAlternates(calls, false)
    ensures LeaseAlternates(calls + [AcquireConnection], true)
  {
  }

  /** Releasing a held lease keeps the calls alternating. */
  lemma LeaseRelease(calls: seq<LeaseCall>)
    requires LeaseAlternates(calls, true)
    ensures LeaseAlternates(calls + [ReleaseConnectionLinger(VOIP_CONNECTION_LINGER)], false)
  {
  }

  /** The number of lease calls equal to `c`. */
  function CountOf(calls: seq<LeaseCall>, c: LeaseCall): nat {
    if calls == [] then 0
    else CountOf(calls[..|calls| - 1], c) + (if calls[|calls| - 1] == c then 1 else 0)
  }

  /**
   * The connection lease is never leaked nor released twice: every release
   * follows an acquire, and while the lease is not held (in particular
   * whenever the call is idle) acquires and releases balance.
   */
  lemma {:induction false} LeaseCountsBalance(calls: seq<LeaseCall>, held: bool)
    requires LeaseAlternates(calls, held)
    ensures CountOf(calls, AcquireConnection) == CountOf(calls, ReleaseConnectionLinger(VOIP_CONNECTION_LINGER)) + (if held then 1 else 0)
    decreases |calls|
  {
    if calls != [] {
      var init := calls[..|calls| - 1];
      assert LeaseAlternates(init, !held) by {
        forall i | 0 <= i < |init|
          ensures init[i] == (if i % 2 == 0 then AcquireConnection else ReleaseConnectionLinger(VOIP_CONNECTION_LINGER))
        {
          assert init[i] == calls[i];
        }
      }
      LeaseCountsBalance(init, !held);
    }
  }

  /** The media button receiver calls of `onStateChange` for a new phase. */
  function MediaButtonCalls(p: Phase): seq<PlatformCall> {
    (if p == Ringing || p == Initializing then [RegisterMediaButton] else [])
    + (if p == Disconnecting || p == Idle then [UnregisterMediaButton] else [])
  }

  /** The call id of a ringing or hangup message, which legacy peers send without data. */
  function MessageCallId(callId: Option<Option<CallId>>): CallId {
    if callId.None? then 0 else CallIdOrDefault(callId.value)
  }

  /** The checks of `handleICECandidates` before it looks at the phase. */
  predicate IceBatchAccepted(current: CallState, initiator: Option<bool>, data: Option<ICECandidatesData>) {
    && data.Some?
    && data.value.candidates.Some?
    && CallIdValid(current.callId, initiator, CallIdOrDefault(data.value.callId))
    && !data.value.removed
  }

  /** The reject decision of `handleCallOffer` for an offer received in `phase`. */
  function OfferRejection(ctx: OfferContext, offer: CallOfferData, phase: Phase): Option<Rejection> {
    DecideReject(ctx.voipEnabled, ValidateOfferData(offer.offerData), phase, ctx.pstnCallOngoing, ctx.mutedWork)
  }

  /** The payload of a reject answer. */
  function RejectAnswer(callId: CallId, reason: RejectReason): CallAnswerData {
    CallAnswerData(Some(callId), Some(Reject), None, Some(reason), false)
  }

  class VoipStateService {
    var callState: CallState
    /** Whether we placed the call; unknown (None) while a call is only ringing. */
    var initiator: Option<bool>
    /** Clock reading (milliseconds) when the call entered Calling. */
    var callStartTimestamp: Option<int>
    /** Received offers by call id. */
    var offerMap: map<CallId, CallOfferData>
    var candidatesCache: Cache
    /** The pending accept intent of the ringing call. */
    var acceptIntent: Option<AcceptIntent>
    var connectionAcquired: bool

    ghost var sent: seq<OutMessage>
    ghost var broadcasts: seq<Broadcast>
    ghost var events: seq<ListenerEvent>
    ghost var leaseCalls: seq<LeaseCall>
    ghost var platform: seq<PlatformCall>

    /**
     * A pending accept exists only while ringing; the connection lease is
     * never held while idle, and acquire and release calls alternate.
     */
    ghost predicate Valid()
      reads this
    {
      && (acceptIntent.Some? ==> callState.phase == Ringing)
      && (connectionAcquired ==> callState.phase != Idle)
      && LeaseAlternates(leaseCalls, connectionAcquired)
    }

    constructor ()
      ensures Valid()
      ensures callState == CallStates.Initial
      ensures initiator.None? && callStartTimestamp.None? && acceptIntent.None? && !connectionAcquired
      ensures offerMap == map[] && candidatesCache == map[]
      ensures sent == [] && broadcasts == [] && events == [] && leaseCalls == [] && platform == []
    {
      callState := CallStates.Initial;
      initiator := None;
      callStartTimestamp := None;
      offerMap := map[];
      candidatesCache := map[];
      acceptIntent := None;
      connectionAcquired := false;
      sent, broadcasts, events, leaseCalls, platform := [], [], [], [], [];
    }

    //
    // State transitions
    //

    /**
     * `onStateChange`: leaving Ringing clears the pending accept intent;
     * ringing or initializing registers the media button receiver,
     * disconnecting or idle unregisters it.
     */
    method OnStateChange(newState: CallState)
      modifies this`acceptIntent, this`platform
      ensures acceptIntent == (if newState.phase == Ringing then old(acceptIntent) else None)
      ensures platform == old(platform) + MediaButtonCalls(newState.phase)
    {
      if newState.phase != Ringing {
        acceptIntent := None;
      }
      if newState.phase == Ringing || newState.phase == Initializing {
        platform := platform + [RegisterMediaButton];
      }
      if newState.phase == Disconnecting || newState.phase == Idle {
        platform := platform + [UnregisterMediaButton];
      }
    }

    /**
     * `setStateRinging`. Entering Ringing increments the incoming call
     * counter (inside the `CallState` class). It keeps a pending accept
     * intent, which `handleCallOffer` arms just before calling it.
     */
    method SetStateRinging(callId: CallId)
      requires LeaseAlternates(leaseCalls, connectionAcquired)
      modifies this`callState, this`acceptIntent, this`platform
      ensures Valid()
      ensures callState == Step(old(callState), ToRinging(callId))
      ensures old(callState.phase) == Ringing ==> unchanged(this)
      ensures acceptIntent == old(acceptIntent)
      ensures platform == old(platform) + (if old(callState.phase) == Ringing then [] else [RegisterMediaButton])
    {
      if callState.phase == Ringing {
        return;
      }
      callState := Enter(callState, ToRinging(callId));
      OnStateChange(callState);
    }

    /**
     * `setStateInitializing`: clears the pending accept, acquires the
     * connection lease unless held, broadcasts every cached candidate batch
     * and empties the cache.
     */
    method SetStateInitializing(callId: CallId)
      requires Valid()
      modifies this`callState, this`acceptIntent, this`platform, this`connectionAcquired, this`leaseCalls,
        this`candidatesCache, this`broadcasts
      ensures Valid()
      ensures callState == Step(old(callState), ToInitializing(callId))
      ensures old(callState.phase) == Initializing ==> unchanged(this)
      ensures old(callState.phase) != Initializing ==>
        && acceptIntent.None?
        && platform == old(platform) + [RegisterMediaButton]
        && connectionAcquired
        && leaseCalls == old(leaseCalls) + (if old(connectionAcquired) then [] else [AcquireConnection])
        && candidatesCache == map[]
        && FlushedFrom(old(candidatesCache), old(broadcasts), broadcasts)
    {
      if callState.phase == Initializing {
        return;
      }
      callState := Enter(callState, ToInitializing(callId));
      OnStateChange(callState);

      // Make sure the connection is open
      if !connectionAcquired {
        LeaseAcquire(leaseCalls);
        leaseCalls := leaseCalls + [AcquireConnection];
        connectionAcquired := true;
      }

      // Send the cached candidates, then clear the cache
      BroadcastCachedCandidates();
      ClearCandidatesCache();
    }

    /** The outer loop of `setStateInitializing`'s flush: every cached peer, in the map's order. */
    method BroadcastCachedCandidates()
      modifies this`broadcasts
      ensures FlushedFrom(candidatesCache, old(broadcasts), broadcasts)
    {
      var cache := candidatesCache;
      ghost var order: seq<Identity> := [];
      var remaining := cache.Keys;
      while remaining != {}
        invariant remaining <= cache.Keys
        invariant Distinct(order)
        invariant forall k :: k in order <==> k in cache && k !in remaining
        invariant broadcasts == old(broadcasts) + Flush(cache, order)
        decreases remaining
      {
        var peer :| peer in remaining;
        BroadcastPeerCandidates(peer, cache[peer]);
        FlushStep(cache, order, remaining, peer);
        order := order + [peer];
        remaining := remaining - {peer};
      }
      assert OrderOf(order, cache);
    }

    /** The inner loop of `setStateInitializing`'s flush: one broadcast per cached batch of a peer, in order. */
    method BroadcastPeerCandidates(peer: Identity, batches: seq<ICECandidatesData>)
      modifies this`broadcasts
      ensures broadcasts == old(broadcasts) + PeerBroadcasts(peer, batches)
    {
      for j := 0 to |batches|
        invariant broadcasts == old(broadcasts) + PeerBroadcasts(peer, batches[..j])
      {
        PeerBroadcastsStep(peer, batches, j);
        broadcasts := broadcasts + [BroadcastOf(peer, batches[j])];
      }
      assert batches[..|batches|] == batches;
    }

    /** `setStateCalling`: clears the pending accept and records the start timestamp. */
    method SetStateCalling(callId: CallId, now: int)
      requires Valid()
      modifies this`callState, this`acceptIntent, this`platform, this`callStartTimestamp
      ensures Valid()
      ensures callState == Step(old(callState), ToCalling(callId))
      ensures old(callState.phase) == Calling ==> unchanged(this)
      ensures old(callState.phase) != Calling ==>
        && acceptIntent.None?
        && platform == old(platform)
        && callStartTimestamp == Some(now)
    {
      if callState.phase == Calling {
        return;
      }
      callState := Enter(callState, ToCalling(callId));
      OnStateChange(callState);

      // Record the start timestamp of the call (monotonic clock)
      callStartTimestamp := Some(now);
    }

    /** `setStateDisconnecting`: clears the pending accept, the start timestamp and the candidate cache. */
    method SetStateDisconnecting(callId: CallId)
      requires Valid()
      modifies this`callState, this`acceptIntent, this`platform, this`callStartTimestamp, this`candidatesCache
      ensures Valid()
      ensures callState == Step(old(callState), ToDisconnecting(callId))
      ensures old(callState.phase) == Disconnecting ==> unchanged(this)
      ensures old(callState.phase) != Disconnecting ==>
        && acceptIntent.None?
        && platform == old(platform) + [UnregisterMediaButton]
        && callStartTimestamp.None?
        && candidatesCache == map[]
    {
      if callState.phase == Disconnecting {
        return;
      }
      callState := Enter(callState, ToDisconnecting(callId));
      OnStateChange(callState);
      callStartTimestamp := None;
      ClearCandidatesCache();
    }

    /**
     * The bookkeeping of `setStateIdle` between two states: nothing changes
     * if the call was idle already; otherwise the pending accept, start
     * timestamp and initiator flag are cleared, the offer of the ended call is
     * dropped and a held lease is released after the linger window. The
     * candidate cache is left as it was.
     */
    twostate predicate WentIdle()
      reads this
    {
      var wasIdle := old(callState.phase) == Idle;
      && callState == Step(old(callState), ToIdle)
      && acceptIntent == (if wasIdle then old(acceptIntent) else None)
      && platform == old(platform) + (if wasIdle then [] else [UnregisterMediaButton])
      && callStartTimestamp == (if wasIdle then old(callStartTimestamp) else None)
      && initiator == (if wasIdle then old(initiator) else None)
      && offerMap == (if wasIdle then old(offerMap) else old(offerMap) - {old(callState.callId)})
      && connectionAcquired == (if wasIdle then old(connectionAcquired) else false)
      && leaseCalls == old(leaseCalls) + (if !wasIdle && old(connectionAcquired) then [ReleaseConnectionLinger(VOIP_CONNECTION_LINGER)] else [])
    }

    /** `setStateIdle`. */
    method SetStateIdle()
      requires Valid()
      modifies this`callState, this`acceptIntent, this`platform, this`callStartTimestamp, this`initiator,
        this`offerMap, this`connectionAcquired, this`leaseCalls
      ensures Valid()
      ensures WentIdle()
      ensures old(callState.phase) == Idle ==> unchanged(this)
    {
      if callState.phase == Idle {
        return;
      }
      var prevState := callState;
      callState := Enter(callState, ToIdle);
      OnStateChange(callState);
      callStartTimestamp := None;
      initiator := None;

      // Remove the offer of the call that ended
      offerMap := offerMap - {prevState.callId};

      // Release the connection
      if connectionAcquired {
        LeaseRelease(leaseCalls);
        leaseCalls := leaseCalls + [ReleaseConnectionLinger(VOIP_CONNECTION_LINGER)];
        connectionAcquired := false;
      }
    }

    /** `setInitiator`. */
    method SetInitiator(isInitiator: bool)
      modifies this`initiator
      ensures initiator == Some(isInitiator)
    {
      initiator := Some(isInitiator);
    }

    /** `getCallOffer`: the offer stored for a call id, if any. */
    function GetCallOffer(callId: CallId): (offer: Option<CallOfferData>)
      reads this
      ensures offer.Some? <==> callId in offerMap
      ensures offer.Some? ==> offer.value == offerMap[callId]
    {
      if callId in offerMap then Some(offerMap[callId]) else None
    }

    //
    // Incoming call messages
    //

    /**
     * `handleCallOffer`. An offer without data or from an unknown sender is
     * ignored. A rejected offer is answered with the reject reason (listeners
     * notified unless the reject is silent) and changes no call state. An
     * accepted offer is stored, arms the pending accept, rings, sends a
     * ringing message and schedules the ringing timeout with the new
     * incoming call counter.
     */
    method HandleCallOffer(from: Identity, data: Option<CallOfferData>, ctx: OfferContext) returns (processed: bool)
      requires Valid()
      modifies this`callState, this`offerMap, this`acceptIntent, this`sent, this`platform, this`events
      ensures Valid()
      ensures processed
      ensures data.None? || !ctx.contactKnown ==> unchanged(this)
      ensures data.Some? && ctx.contactKnown && OfferRejection(ctx, data.value, old(callState.phase)).Some? ==>
        var callId := CallIdOrDefault(data.value.callId);
        var rejection := OfferRejection(ctx, data.value, old(callState.phase)).value;
        && sent == old(sent) + [AnswerMsg(from, RejectAnswer(callId, rejection.reason))]
        && platform == old(platform) + [SendProfilePicture(from)]
        && events == old(events) + (if rejection.silent then [] else [RejectNotification(from, rejection.reason)])
        && unchanged(this`callState, this`offerMap, this`acceptIntent)
      ensures data.Some? && ctx.contactKnown && OfferRejection(ctx, data.value, old(callState.phase)).None? ==>
        var callId := CallIdOrDefault(data.value.callId);
        && callState == CallState(Ringing, callId, old(callState.incomingCallCounter) + 1)
        && offerMap == old(offerMap)[callId := data.value]
        && acceptIntent == Some(AcceptIntent(callId, from))
        && sent == old(sent) + [RingingMsg(from, CallRingingData(Some(callId)))]
        && platform == old(platform) + [RegisterMediaButton,
             PostRingingTimeout(RingingTimer(from, callState.incomingCallCounter), RINGING_TIMEOUT_SECONDS * 1000)]
        && events == old(events) + [OnOffer(from), CallRinging(from)]
    {
      if data.None? {
        return true;
      }
      var offer := data.value;
      var callId := CallIdOrDefault(offer.callId);
      if !ctx.contactKnown {
        return true;
      }

      // Reasons for rejecting the call
      var rejection := OfferRejection(ctx, offer, callState.phase);
      if rejection.Some? {
        SendRejectCallAnswerMessage(from, callId, rejection.value.reason, !rejection.value.silent);
        return true;
      }

      offerMap := offerMap[callId := offer];
      acceptIntent := Some(AcceptIntent(callId, from));
      SetStateRinging(callId);

      // Send "ringing" to the caller; it cannot fail in Ringing
      var _ := SendCallRingingMessage(from, callId);

      // Start the timer that rejects the call after a while
      var originalCallCounter := callState.incomingCallCounter;
      platform := platform + [PostRingingTimeout(RingingTimer(from, originalCallCounter), RINGING_TIMEOUT_SECONDS * 1000)];

      events := events + [OnOffer(from), CallRinging(from)];
      return true;
    }

    /**
     * The ringing timeout runnable, run when the timer fires: it enqueues a
     * TIMEOUT reject for the current call only while the phase is still
     * Ringing with the counter captured when the timer was scheduled.
     */
    method OnRingingTimeout(timer: RingingTimer)
      modifies this`platform
      ensures platform == old(platform) +
        (if TimeoutFires(callState, timer.counter) then [EnqueueRejectWork(callState.callId, timer.peer, Timeout)] else [])
    {
      var current := callState;
      if current.phase != Ringing {
        // ignored: no longer ringing
      } else if current.incomingCallCounter != timer.counter {
        // ignored: a later ringing episode
      } else {
        platform := platform + [EnqueueRejectWork(current.callId, timer.peer, Timeout)];
      }
    }

    /**
     * `handleCallAnswer`. An answer for another call or without an action is
     * ignored; an accept is broadcast, a reject notified; the message
     * listeners always hear of the answer otherwise, even without data.
     */
    method HandleCallAnswer(from: Identity, data: Option<CallAnswerData>) returns (processed: bool)
      modifies this`broadcasts, this`events
      ensures processed
      ensures data.Some? && (!CallIdValid(callState.callId, initiator, CallIdOrDefault(data.value.callId)) || data.value.action.None?) ==>
        unchanged(this)
      ensures data.None? ==> broadcasts == old(broadcasts) && events == old(events) + [OnAnswer(from)]
      ensures data.Some? && CallIdValid(callState.callId, initiator, CallIdOrDefault(data.value.callId)) && data.value.action.Some? ==>
        && broadcasts == old(broadcasts) + (if data.value.action == Some(Accept) then [CallAcceptedBroadcast] else [])
        && events == old(events)
             + (if data.value.action == Some(Reject) then [CallRejected(from, false, data.value.rejectReason)] else [])
             + [OnAnswer(from)]
    {
      if data.Some? {
        var answer := data.value;
        var callId := CallIdOrDefault(answer.callId);
        if !CallIdValid(callState.callId, initiator, callId) {
          return true;
        }
        if answer.action.None? {
          return true;
        }
        match answer.action.value
        case Accept =>
          broadcasts := broadcasts + [CallAcceptedBroadcast];
        case Reject =>
          events := events + [CallRejected(from, false, answer.rejectReason)];
        case OtherAction(_) =>
      }
      events := events + [OnAnswer(from)];
      return true;
    }

    /**
     * `handleICECandidates`. A batch that passes the checks is cached while
     * idle or ringing, broadcast at once while initializing or calling, and
     * dropped while disconnecting.
     */
    method HandleICECandidates(from: Identity, data: Option<ICECandidatesData>) returns (processed: bool)
      modifies this`candidatesCache, this`broadcasts
      ensures processed
      ensures !IceBatchAccepted(old(callState), initiator, data) ==> unchanged(this)
      ensures IceBatchAccepted(old(callState), initiator, data) ==>
        && candidatesCache == (if callState.phase == Idle || callState.phase == Ringing
                               then CacheAppend(old(candidatesCache), from, data.value)
                               else old(candidatesCache))
        && broadcasts == old(broadcasts) + (if callState.phase == Initializing || callState.phase == Calling
                                            then [BroadcastOf(from, data.value)]
                                            else [])
    {
      if data.None? || data.value.candidates.None? {
        return true;
      }
      var batch := data.value;
      var callId := CallIdOrDefault(batch.callId);
      if !CallIdValid(callState.callId, initiator, callId) {
        return true;
      }
      // The "removed" flag is deprecated
      if batch.removed {
        return true;
      }
      if callState.phase == Idle || callState.phase == Ringing {
        CacheCandidate(from, batch);
      } else if callState.phase == Initializing || callState.phase == Calling {
        broadcasts := broadcasts + [BroadcastOf(from, batch)];
      }
      return true;
    }

    /**
     * `handleCallRinging`: the listeners hear of a ringing message only if it
     * belongs to the current call and we are initializing (the caller).
     */
    method HandleCallRinging(from: Identity, data: Option<CallRingingData>) returns (processed: bool)
      modifies this`events
      ensures processed
      ensures events == old(events) +
        (if CallIdValid(callState.callId, initiator, MessageCallId(if data.None? then None else Some(data.value.callId)))
            && callState.phase == Initializing
         then [OnRingingMessage(from)] else [])
    {
      var state := callState;
      var callId := if data.None? then 0 else CallIdOrDefault(data.value.callId);
      if !CallIdValid(state.callId, initiator, callId) {
        return true;
      }
      if state.phase != Initializing {
        return true;
      }
      events := events + [OnRingingMessage(from)];
      return true;
    }

    /**
     * `handleRemoteCallHangup`. A hangup for the current call always ends in
     * Idle, tells the message listeners, and then reports an incoming call
     * that was not yet under way as missed, or a call that was calling with a
     * known duration as finished.
     */
    method HandleRemoteCallHangup(from: Identity, data: Option<CallHangupData>, now: int) returns (processed: bool)
      requires Valid()
      modifies this`callState, this`acceptIntent, this`platform, this`callStartTimestamp, this`initiator,
        this`offerMap, this`connectionAcquired, this`leaseCalls, this`events
      ensures Valid()
      ensures processed
      ensures !CallIdValid(old(callState.callId), old(initiator), MessageCallId(if data.None? then None else Some(data.value.callId))) ==>
        unchanged(this)
      ensures CallIdValid(old(callState.callId), old(initiator), MessageCallId(if data.None? then None else Some(data.value.callId))) ==>
        && WentIdle()
        && callState.phase == Idle
        && events == old(events) + [OnHangup(from)]
             + OptionToSeq(RemoteHangupEvent(from, old(callState.phase), old(initiator) != Some(true),
                                             CallDuration(old(callStartTimestamp), now)))
    {
      var callId := if data.None? then 0 else CallIdOrDefault(data.value.callId);
      if !CallIdValid(callState.callId, initiator, callId) {
        return true;
      }
      var prevState := callState;
      var duration := CallDuration(callStartTimestamp, now);

      // An initiator flag that is not set means an incoming call that was not accepted yet
      var incoming := initiator != Some(true);

      SetStateIdle();
      events := events + [OnHangup(from)] + OptionToSeq(RemoteHangupEvent(from, prevState.phase, incoming, duration));
      return true;
    }

    //
    // Outgoing call messages
    //

    /**
     * `sendCallOfferMessage`: the session description must be an offer
     * (else an illegal argument) and the call must be initializing (else an
     * illegal state); then the offer is enqueued and the profile picture sent.
     */
    method SendCallOfferMessage(receiver: Identity, callId: CallId, sd: SessionDescription, videoCall: bool)
      returns (error: Option<BuilderError>)
      modifies this`sent, this`platform
      ensures sd.sdpType != Offer ==> error == Some(IllegalArgument)
      ensures sd.sdpType == Offer && callState.phase != Initializing ==> error == Some(IllegalState)
      ensures error.None? <==> sd.sdpType == Offer && callState.phase == Initializing
      ensures sent == old(sent) + (if error.None? then [OfferMsg(receiver, OfferFor(callId, sd, videoCall))] else [])
      ensures platform == old(platform) + (if error.None? then [SendProfilePicture(receiver)] else [])
    {
      if sd.sdpType != Offer {
        return Some(IllegalArgument);
      }
      if callState.phase != Initializing {
        return Some(IllegalState);
      }
      sent := sent + [OfferMsg(receiver, OfferFor(callId, sd, videoCall))];
      platform := platform + [SendProfilePicture(receiver)];
      return None;
    }

    /** `sendCallAnswerMessage`: build the answer, then enqueue it and send the profile picture. */
    method SendCallAnswerMessage(
      receiver: Identity,
      callId: CallId,
      sd: Option<SessionDescription>,
      action: AnswerAction,
      rejectReason: Option<RejectReason>,
      videoCall: Option<bool>
    ) returns (error: Option<BuilderError>)
      modifies this`sent, this`platform
      ensures var built := BuildCallAnswer(callId, sd, action, rejectReason, videoCall);
        && error == (if built.Err? then Some(built.error) else None)
        && sent == old(sent) + (if built.Ok? then [AnswerMsg(receiver, built.value)] else [])
        && platform == old(platform) + (if built.Ok? then [SendProfilePicture(receiver)] else [])
    {
      var built := BuildCallAnswer(callId, sd, action, rejectReason, videoCall);
      if built.Err? {
        return Some(built.error);
      }
      sent := sent + [AnswerMsg(receiver, built.value)];
      platform := platform + [SendProfilePicture(receiver)];
      return None;
    }

    /** `sendAcceptCallAnswerMessage`: an offer-typed description is an illegal argument. */
    method SendAcceptCallAnswerMessage(receiver: Identity, callId: CallId, sd: SessionDescription, videoCall: bool)
      returns (error: Option<BuilderError>)
      modifies this`sent, this`platform
      ensures error.Some? <==> sd.sdpType == Offer
      ensures sent == old(sent) + (if error.None? then [AnswerMsg(receiver, BuildCallAnswer(callId, Some(sd), Accept, None, Some(videoCall)).value)] else [])
      ensures platform == old(platform) + (if error.None? then [SendProfilePicture(receiver)] else [])
    {
      error := SendCallAnswerMessage(receiver, callId, Some(sd), Accept, None, Some(videoCall));
    }

    /**
     * `sendRejectCallAnswerMessage(receiver, callId, reason, notifyListeners)`:
     * enqueues the reject answer and, if asked to, notifies the call event
     * listeners of a missed or rejected call.
     */
    method SendRejectCallAnswerMessage(receiver: Identity, callId: CallId, reason: RejectReason, notifyListeners: bool)
      modifies this`sent, this`platform, this`events
      ensures sent == old(sent) + [AnswerMsg(receiver, RejectAnswer(callId, reason))]
      ensures platform == old(platform) + [SendProfilePicture(receiver)]
      ensures events == old(events) + (if notifyListeners then [RejectNotification(receiver, reason)] else [])
    {
      var _ := SendCallAnswerMessage(receiver, callId, None, Reject, Some(reason), None);
      if notifyListeners {
        events := events + [RejectNotification(receiver, reason)];
      }
    }

    /**
     * `sendICECandidatesMessage`: a silent no-op unless ringing,
     * initializing or calling; otherwise the non-null candidates are sent in
     * their order.
     */
    method SendICECandidatesMessage(receiver: Identity, callId: CallId, iceCandidates: seq<Option<IceCandidate>>)
      modifies this`sent
      ensures sent == old(sent) +
        (if callState.phase == Ringing || callState.phase == Initializing || callState.phase == Calling
         then [IceCandidatesMsg(receiver, ICECandidatesData(Some(callId), Some(Present(iceCandidates)), false))]
         else [])
    {
      var state := callState;
      if !(state.phase == Ringing || state.phase == Initializing || state.phase == Calling) {
        return;
      }
      var candidates := CollectCandidates(iceCandidates);
      sent := sent + [IceCandidatesMsg(receiver, ICECandidatesData(Some(callId), Some(candidates), false))];
    }

    /** `sendCallRingingMessage`: only while ringing, else an illegal state. */
    method SendCallRingingMessage(receiver: Identity, callId: CallId) returns (error: Option<BuilderError>)
      modifies this`sent
      ensures error.None? <==> callState.phase == Ringing
      ensures error.Some? ==> error.value == IllegalState
      ensures sent == old(sent) + (if error.None? then [RingingMsg(receiver, CallRingingData(Some(callId)))] else [])
    {
      if callState.phase != Ringing {
        return Some(IllegalState);
      }
      sent := sent + [RingingMsg(receiver, CallRingingData(Some(callId)))];
      return None;
    }

    /**
     * `sendCallHangupMessage`: always enqueues the hangup; a call that never
     * got a duration, hung up while initializing, calling or disconnecting,
     * is reported as aborted (placed by us) or missed (received).
     */
    method SendCallHangupMessage(receiver: Identity, callId: CallId, now: int)
      modifies this`sent, this`events
      ensures sent == old(sent) + [HangupMsg(receiver, CallHangupData(Some(callId)))]
      ensures events == old(events) +
        OptionToSeq(LocalHangupEvent(receiver, callState.phase, initiator == Some(true), CallDuration(callStartTimestamp, now)))
    {
      var state := callState;
      var duration := CallDuration(callStartTimestamp, now);
      var outgoing := initiator == Some(true);
      sent := sent + [HangupMsg(receiver, CallHangupData(Some(callId)))];
      events := events + OptionToSeq(LocalHangupEvent(receiver, state.phase, outgoing, duration));
    }

    //
    // Accept action and candidate cache
    //

    /**
     * `acceptIncomingCall`: fires the pending accept intent once. The intent
     * is consumed whether or not it could be sent (`cancelled` says the
     * platform had cancelled it), so a second call returns false.
     */
    method AcceptIncomingCall(cancelled: bool) returns (accepted: bool)
      requires Valid()
      modifies this`acceptIntent, this`platform
      ensures Valid()
      ensures acceptIntent.None?
      ensures accepted <==> old(acceptIntent).Some? && !cancelled
      ensures platform == old(platform) + (if accepted then [StartAcceptService(old(acceptIntent).value)] else [])
    {
      if acceptIntent.None? {
        return false;
      }
      if !cancelled {
        platform := platform + [StartAcceptService(acceptIntent.value)];
        acceptIntent := None;
        return true;
      }
      acceptIntent := None;
      return false;
    }

    /** `cacheCandidate`: append a batch to the peer's cached list. */
    method CacheCandidate(peer: Identity, data: ICECandidatesData)
      modifies this`candidatesCache
      ensures candidatesCache == CacheAppend(old(candidatesCache), peer, data)
    {
      if peer in candidatesCache {
        candidatesCache := candidatesCache[peer := candidatesCache[peer] + [data]];
      } else {
        assert [] + [data] == [data];
        candidatesCache := candidatesCache[peer := [data]];
      }
    }

    /** `clearCandidatesCache(identity)`: drop one peer's cached batches. */
    method ClearCandidatesCacheFor(peer: Identity)
      modifies this`candidatesCache
      ensures candidatesCache == old(candidatesCache) - {peer}
    {
      candidatesCache := candidatesCache - {peer};
    }

    /** `clearCandidatesCache()`: drop every cached batch. */
    method ClearCandidatesCache()
      modifies this`candidatesCache
      ensures candidatesCache == map[]
    {
      candidatesCache := map[];
    }
  }
}
