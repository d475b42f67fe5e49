/**
 * Short call flows driven through `VoipStateService`, checked against the
 * contracts of its methods. Each starts from a new service: an incoming
 * offer that rings, the single-use accept, the flush of candidates cached
 * while ringing, the timeout after the call moved on, a hangup while
 * initializing, offers rejected as busy or silently, and legacy hangups
 * without call id.
 */
module Scenarios {
  import opened VoipTypes
  import opened CallStates
  import opened SignalingRules
  import opened Candidates
  import opened VoipStateServices

  const Caller: Identity := "ECHOECHO"

  function ValidOffer(callId: CallId): CallOfferData {
    CallOfferData(Some(callId), Some(OfferData("offer", Some("v=0"))), false)
  }

  const Allowed := OfferContext(true, true, false, false)

  /**
   * Offer 42 while idle: the call rings, the offer is stored, the caller
   * hears "ringing", the timeout is armed with the first counter value, and
   * candidates that arrive meanwhile are cached rather than broadcast.
   */
  method IncomingOfferRings() {
    var service := new VoipStateService();

    var processed := service.HandleCallOffer(Caller, Some(ValidOffer(42)), Allowed);
    assert service.callState == CallState(Ringing, 42, 1);
    assert service.GetCallOffer(42) == Some(ValidOffer(42));
    assert service.sent == [RingingMsg(Caller, CallRingingData(Some(42)))];
    assert service.events == [OnOffer(Caller), CallRinging(Caller)];
    assert service.platform[|service.platform| - 1] == PostRingingTimeout(RingingTimer(Caller, 1), 60_000);

    var batch := ICECandidatesData(Some(42), Some([Candidate("candidate:1", "0", 0, None)]), false);
    processed := service.HandleICECandidates(Caller, Some(batch));
    assert [] + [batch] == [batch];
    assert service.candidatesCache == map[Caller := [batch]];
    assert service.broadcasts == [];
  }

  /** The accept action of a ringing call fires once. */
  method AcceptIsSingleUse() {
    var service := new VoipStateService();
    var processed := service.HandleCallOffer(Caller, Some(ValidOffer(42)), Allowed);

    var accepted := service.AcceptIncomingCall(false);
    assert accepted;
    accepted := service.AcceptIncomingCall(false);
    assert !accepted;
  }

  /** Entering Initializing broadcasts the cached candidates, holds the lease and empties the cache. */
  method InitializingFlushesCache(batch: ICECandidatesData) {
    var service := new VoipStateService();
    service.CacheCandidate(Caller, batch);
    assert [] + [batch] == [batch];
    assert service.candidatesCache == map[Caller := [batch]];

    service.SetStateInitializing(42);
    assert service.candidatesCache == map[];
    assert service.connectionAcquired;
    FlushDeliversEachPeerInOrder(map[Caller := [batch]], [], service.broadcasts, Caller);
    assert BatchesFor(service.broadcasts, Caller) == [batch];
  }

  /** Candidates received while an offered call rings are broadcast once it initializes. */
  method RingingCandidatesFlushedOnInitializing(batch: ICECandidatesData)
    requires batch.candidates.Some? && !batch.removed && batch.callId == Some(42)
  {
    var service := new VoipStateService();
    var processed := service.HandleCallOffer(Caller, Some(ValidOffer(42)), Allowed);
    assert service.callState.phase == Ringing && service.candidatesCache == map[];

    processed := service.HandleICECandidates(Caller, Some(batch));
    assert [] + [batch] == [batch];
    assert service.candidatesCache == map[Caller := [batch]];

    var before := service.broadcasts;
    service.SetStateInitializing(42);
    assert service.candidatesCache == map[];
    FlushDeliversEachPeerInOrder(map[Caller := [batch]], before, service.broadcasts, Caller);
    assert BatchesFor(service.broadcasts[|before|..], Caller) == [batch];
  }

  /** Once the accepted call initializes, the ringing timeout no longer rejects. */
  method InitializingDisarmsTimeout() {
    var service := new VoipStateService();
    var processed := service.HandleCallOffer(Caller, Some(ValidOffer(42)), Allowed);
    service.SetInitiator(false);
    service.SetStateInitializing(42);

    var platformBefore := service.platform;
    service.OnRingingTimeout(RingingTimer(Caller, 1));
    assert service.platform == platformBefore;
  }

  /** The caller's hangup while initializing ends in Idle and reports a missed, accepted call. */
  method HangupWhileInitializingIsMissedAccepted() {
    var service := new VoipStateService();
    service.SetStateRinging(42);
    service.SetInitiator(false);
    service.SetStateInitializing(42);
    assert service.callStartTimestamp.None? && service.callState.phase == Initializing;
    assert RemoteHangupEvent(Caller, Initializing, true, None) == Some(Missed(Caller, true));

    var eventsBefore := service.events;
    var processed := service.HandleRemoteCallHangup(Caller, Some(CallHangupData(Some(42))), 10_000);
    assert service.callState.phase == Idle;
    assert !service.connectionAcquired;
    assert service.events == eventsBefore + [OnHangup(Caller), Missed(Caller, true)];
  }

  /** An offer during a call is answered busy and reported as missed; the call goes on. */
  method OfferWhileCallingIsBusy() {
    var service := new VoipStateService();
    service.SetStateInitializing(7);
    service.SetStateCalling(7, 1_000);
    assert OfferRejection(Allowed, ValidOffer(8), Calling) == Some(Rejection(Busy, false));

    var processed := service.HandleCallOffer("OTHERONE", Some(ValidOffer(8)), Allowed);
    assert service.callState.phase == Calling && service.callState.callId == 7;
    assert service.sent == [AnswerMsg("OTHERONE", RejectAnswer(8, Busy))];
    assert service.events == [Missed("OTHERONE", false)];
    assert service.GetCallOffer(8) == None;
  }

  /** An offer from a peer with calls disabled locally is rejected without telling the listeners. */
  method OfferWhileDisabledIsSilent() {
    var service := new VoipStateService();
    var processed := service.HandleCallOffer(Caller, Some(ValidOffer(3)), OfferContext(true, false, false, false));
    assert service.callState == CallStates.Initial;
    assert service.sent == [AnswerMsg(Caller, RejectAnswer(3, Disabled))];
    assert service.events == [];
  }

  /**
   * A hangup without call id (a legacy peer) while ringing an incoming call
   * with id 5 is ignored: the legacy id 0 is only accepted on calls we placed.
   */
  method LegacyHangupOnIncomingCallIgnored() {
    var service := new VoipStateService();
    var processed := service.HandleCallOffer(Caller, Some(ValidOffer(5)), Allowed);
    processed := service.HandleRemoteCallHangup(Caller, None, 0);
    assert service.callState.phase == Ringing;

    // The same hangup carrying the call id ends the call as missed
    processed := service.HandleRemoteCallHangup(Caller, Some(CallHangupData(Some(5))), 0);
    assert service.callState.phase == Idle;
    assert service.events[|service.events| - 1] == Missed(Caller, false);
  }

  /**
   * While idle the tracked call id is 0, so a hangup without call id passes
   * the call-id check: after a BUSY reject already reported the caller as
   * missed, each such hangup reports the caller as missed once more.
   */
  method LegacyHangupWhileIdleReportsMissed() {
    var service := new VoipStateService();
    var processed := service.HandleCallOffer(Caller, Some(ValidOffer(9)), OfferContext(true, true, true, false));
    assert service.events == [Missed(Caller, false)];
    assert service.callState.phase == Idle && service.callState.callId == 0;

    processed := service.HandleRemoteCallHangup(Caller, None, 0);
    assert service.events == [Missed(Caller, false), OnHangup(Caller), Missed(Caller, false)];

    processed := service.HandleRemoteCallHangup(Caller, None, 0);
    assert service.events[|service.events| - 1] == Missed(Caller, false);
  }
}
