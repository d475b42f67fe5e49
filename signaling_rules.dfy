/**
 * The decisions `VoipStateService` takes without changing anything: call-id
 * validation, offer validation, the reject chain for incoming offers, the
 * listener event a hangup produces, the payloads the outgoing builders
 * produce, and the call duration.
 */
module SignalingRules {
  import opened VoipTypes
  import opened CallStates

  /**
   * `isCallIdValid`: a call id in an answer, ICE, ringing or hangup message
   * belongs to the current call if it is the tracked id or if we initiated
   * the call and the peer sent no id (0).
   */
  function CallIdValid(currentCallId: CallId, initiator: Option<bool>, callId: CallId): (r: bool)
    ensures callId == currentCallId ==> r
    ensures initiator == Some(true) && callId == 0 ==> r
    ensures callId != 0 ==> (r <==> callId == currentCallId)
    ensures initiator != Some(true) ==> (r <==> callId == currentCallId)
  {
    if callId == currentCallId then
      true
    else
      initiator == Some(true) && callId == 0
  }

  /**
   * `validateOfferData`: an offer is present, typed "offer", and carries an
   * SDP that is not null.
   */
  function ValidateOfferData(offer: Option<OfferData>): (valid: bool)
    ensures valid <==> offer.Some? && offer.value.sdpType == "offer" && offer.value.sdp.Some?
  {
    if offer.None? then
      false
    else if offer.value.sdpType != "offer" then
      false
    else if offer.value.sdp.None? then
      false
    else
      true
  }

  /** The SDP check is for null only: an offer with an empty SDP is valid. */
  lemma EmptySdpOfferIsValid(sdpType: string)
    ensures ValidateOfferData(Some(OfferData(sdpType, Some("")))) <==> sdpType == "offer"
  {
  }

  /** A reject decision: the reason sent to the caller and whether the reject is silent. */
  datatype Rejection = Rejection(reason: RejectReason, silent: bool)

  /**
   * The reject chain of `handleCallOffer`, first match wins: VoIP disabled
   * (silent), invalid offer (silent), a call already active, a PSTN call
   * ongoing, muted outside working hours. `None` means the offer proceeds.
   */
  function DecideReject(voipEnabled: bool, offerValid: bool, phase: Phase, pstnCallOngoing: bool, mutedWork: bool): (r: Option<Rejection>)
    ensures r.None? <==> voipEnabled && offerValid && phase == Idle && !pstnCallOngoing && !mutedWork
    ensures r.Some? ==> (r.value.silent <==> !voipEnabled || !offerValid)
    ensures r.Some? ==> (r.value.reason == Disabled <==> !voipEnabled)
    ensures r.Some? ==> (r.value.reason == Unknown <==> voipEnabled && !offerValid)
    ensures r.Some? ==> (r.value.reason == Busy <==> voipEnabled && offerValid && (phase != Idle || pstnCallOngoing))
    ensures r.Some? ==> (r.value.reason == OffHours <==> voipEnabled && offerValid && phase == Idle && !pstnCallOngoing)
  {
    if !voipEnabled then
      Some(Rejection(Disabled, true))
    else if !offerValid then
      Some(Rejection(Unknown, true))
    else if phase != Idle then
      Some(Rejection(Busy, false))
    else if pstnCallOngoing then
      Some(Rejection(Busy, false))
    else if mutedWork then
      Some(Rejection(OffHours, false))
    else
      None
  }

  /**
   * The call event a non-silent local reject notifies: busy, timeout and
   * off-hours count as a missed call, every other reason as a rejected one.
   */
  function RejectNotification(peer: Identity, reason: RejectReason): (e: ListenerEvent)
    ensures e.Missed? <==> reason == Busy || reason == Timeout || reason == OffHours
    ensures e.Missed? ==> e == Missed(peer, false)
    ensures !e.Missed? ==> e == CallRejected(peer, true, Some(reason))
  {
    match reason
    case Busy => Missed(peer, false)
    case Timeout => Missed(peer, false)
    case OffHours => Missed(peer, false)
    case _ => CallRejected(peer, true, Some(reason))
  }

  /**
   * The call event of `handleRemoteCallHangup`: an incoming call hung up
   * before it was under way is missed (accepted if it was initializing);
   * otherwise a call hung up while calling, with a known duration, is
   * finished.
   */
  function RemoteHangupEvent(peer: Identity, prev: Phase, incoming: bool, duration: Option<int>): (e: Option<ListenerEvent>)
    ensures e.Some? ==> e.value.peer == peer && (e.value.Missed? || e.value.Finished?)
    ensures (e.Some? && e.value.Missed?) <==> incoming && (prev == Idle || prev == Ringing || prev == Initializing)
    ensures e.Some? && e.value.Missed? ==> (e.value.accepted <==> prev == Initializing)
    ensures (e.Some? && e.value.Finished?) <==> prev == Calling && duration.Some?
    ensures e.Some? && e.value.Finished? ==> e.value.outgoing == !incoming && e.value.duration == duration.value
    ensures prev == Disconnecting ==> e.None?
  {
    if incoming && (prev == Idle || prev == Ringing || prev == Initializing) then
      Some(Missed(peer, prev == Initializing))
    else if prev == Calling && duration.Some? then
      Some(Finished(peer, !incoming, duration.value))
    else
      None
  }

  /**
   * The call event of `sendCallHangupMessage`: a call that never got a
   * duration, hung up while initializing, calling or disconnecting, is
   * aborted when we placed it and missed (accepted) when we received it.
   */
  function LocalHangupEvent(peer: Identity, phase: Phase, outgoing: bool, duration: Option<int>): (e: Option<ListenerEvent>)
    ensures e.Some? <==> duration.None? && (phase == Initializing || phase == Calling || phase == Disconnecting)
    ensures e.Some? ==> (e.value == Aborted(peer) <==> outgoing)
    ensures e.Some? && !outgoing ==> e.value == Missed(peer, true)
  {
    if duration.None? && (phase == Initializing || phase == Calling || phase == Disconnecting) then
      Some(if outgoing then Aborted(peer) else Missed(peer, true))
    else
      None
  }

  /** Java's `long` division, which truncates toward zero. */
  function JavaDiv(a: int, b: int): int
    requires b > 0
  {
    if a >= 0 then a / b else -((-a) / b)
  }

  /** Java's narrowing `(int)` cast of a `long`: keep the low 32 bits, two's complement. */
  function ToInt32(x: int): int {
    (x + 0x8000_0000) % 0x1_0000_0000 - 0x8000_0000
  }

  /**
   * `getCallDuration` with the clock reading passed in: whole seconds since
   * the start timestamp, clamped to `Integer.MAX_VALUE`; none before Calling.
   */
  function CallDuration(start: Option<int>, now: int): (r: Option<int>)
    ensures r.None? <==> start.None?
    ensures start.Some? && now >= start.value ==>
      && 0 <= r.value <= INTEGER_MAX_VALUE
      && (r.value < INTEGER_MAX_VALUE ==> r.value * 1000 <= now - start.value < r.value * 1000 + 1000)
      && (r.value == INTEGER_MAX_VALUE ==> now - start.value >= INTEGER_MAX_VALUE * 1000)
  {
    match start
    case None => None
    case Some(t) =>
      var seconds := JavaDiv(now - t, 1000);
      if seconds > INTEGER_MAX_VALUE then Some(INTEGER_MAX_VALUE) else Some(ToInt32(seconds))
  }

  /** The payload `sendCallOfferMessage` builds from a local session description. */
  function OfferFor(callId: CallId, sd: SessionDescription, video: bool): CallOfferData {
    CallOfferData(Some(callId), Some(OfferData(CanonicalForm(sd.sdpType), Some(sd.description))), video)
  }

  /**
   * Every offer the builder may send (its session description typed OFFER)
   * passes the receiver's offer validation and carries the call id.
   */
  lemma BuiltOfferIsValid(callId: CallId, sd: SessionDescription, video: bool)
    requires sd.sdpType == Offer
    ensures ValidateOfferData(OfferFor(callId, sd, video).offerData)
    ensures CallIdOrDefault(OfferFor(callId, sd, video).callId) == callId
  {
  }

  /**
   * `sendCallAnswerMessage`: an accept needs a session description typed
   * ANSWER or PRANSWER, carries that description with its type in canonical
   * form and carries the video feature only if asked to; a
   * reject needs a reason and carries no description; everything else is an
   * illegal argument.
   */
  function BuildCallAnswer(
    callId: CallId,
    sd: Option<SessionDescription>,
    action: AnswerAction,
    rejectReason: Option<RejectReason>,
    videoCall: Option<bool>
  ): (r: Result<CallAnswerData>)
    ensures r.Ok? <==> (action == Accept && sd.Some? && sd.value.sdpType != Offer) || (action == Reject && rejectReason.Some?)
    ensures r.Err? ==> r.error == IllegalArgument
    ensures r.Ok? ==> r.value.callId == Some(callId) && r.value.action == Some(action)
    ensures r.Ok? && action == Accept ==>
      && r.value.answerData == Some(AnswerData(CanonicalForm(sd.value.sdpType), Some(sd.value.description)))
      && (r.value.answerData.value.sdpType == "answer" || r.value.answerData.value.sdpType == "pranswer")
      && r.value.rejectReason.None?
      && (r.value.video <==> videoCall == Some(true))
    ensures r.Ok? && action == Reject ==>
      r.value.answerData.None? && r.value.rejectReason == rejectReason && !r.value.video
  {
    if action == Accept && sd.Some? then
      if sd.value.sdpType == Offer then
        Err(IllegalArgument)
      else
        Ok(CallAnswerData(
          Some(callId), Some(Accept),
          Some(AnswerData(CanonicalForm(sd.value.sdpType), Some(sd.value.description))),
          None, videoCall == Some(true)))
    else if action == Reject && rejectReason.Some? then
      Ok(CallAnswerData(Some(callId), Some(Reject), None, rejectReason, false))
    else
      Err(IllegalArgument)
  }
}
