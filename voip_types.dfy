/**
 * Value types of the VoIP signalling core: the payloads of the five call
 * messages (offer, answer, ICE candidates, ringing, hangup), the reject
 * reasons, and the observable effects of `VoipStateService` (messages handed
 * to the message queue, local broadcasts, listener events and calls into
 * platform services).
 */
module VoipTypes {

  datatype Option<+T> = None | Some(value: T) {
    function GetOr(default: T): T {
      if Some? then value else default
    }
  }

  /** A Threema identity (the peer of a call). */
  type Identity = string

  /**
   * A call id is a Java `long`. The core only compares call ids for
   * equality, so the 64-bit range never matters and ids are plain integers.
   */
  type CallId = int

  /** `Integer.MAX_VALUE`, the clamp of `getCallDuration`. */
  const INTEGER_MAX_VALUE: int := 0x7fff_ffff

  /** `RINGING_TIMEOUT_SECONDS`. */
  const RINGING_TIMEOUT_SECONDS: nat := 60

  /** `VOIP_CONNECTION_LINGER`, in milliseconds. */
  const VOIP_CONNECTION_LINGER: nat := 1000 * 5

  /** `getCallIdOrDefault(0L)`: peers that predate call ids send none. */
  function CallIdOrDefault(id: Option<CallId>): CallId {
    id.GetOr(0)
  }

  /** WebRTC session description types. */
  datatype SdpType = Offer | Answer | PrAnswer

  /** `SessionDescription.Type.canonicalForm()`. */
  function CanonicalForm(t: SdpType): string {
    match t
    case Offer => "offer"
    case Answer => "answer"
    case PrAnswer => "pranswer"
  }

  /** A local WebRTC session description (the SDP body is opaque). */
  datatype SessionDescription = SessionDescription(sdpType: SdpType, description: string)

  /** `VoipCallAnswerData.RejectReason`. */
  datatype RejectReason = Unknown | Busy | Timeout | Rejected | Disabled | OffHours

  /** `VoipCallOfferData.OfferData`: the SDP type as sent on the wire and the SDP, which may be null. */
  datatype OfferData = OfferData(sdpType: string, sdp: Option<string>)

  /** `VoipCallOfferData`: call id (absent from legacy peers), offer and the video feature flag. */
  datatype CallOfferData = CallOfferData(callId: Option<CallId>, offerData: Option<OfferData>, video: bool)

  /** `VoipCallAnswerData.Action`: a byte on the wire, so unknown codes can arrive. */
  datatype AnswerAction = Accept | Reject | OtherAction(code: int)

  /** `VoipCallAnswerData.AnswerData`. */
  datatype AnswerData = AnswerData(sdpType: string, sdp: Option<string>)

  /** `VoipCallAnswerData`. */
  datatype CallAnswerData = CallAnswerData(
    callId: Option<CallId>,
    action: Option<AnswerAction>,
    answerData: Option<AnswerData>,
    rejectReason: Option<RejectReason>,
    video: bool)

  /** A local WebRTC ICE candidate (`org.webrtc.IceCandidate`). */
  datatype IceCandidate = IceCandidate(sdp: string, sdpMid: string, sdpMLineIndex: int)

  /** `VoipICECandidatesData.Candidate`, as sent on the wire. */
  datatype Candidate = Candidate(candidate: string, sdpMid: string, sdpMLineIndex: int, ufrag: Option<string>)

  /** `VoipICECandidatesData`: a batch of candidates and the deprecated "removed" flag. */
  datatype ICECandidatesData = ICECandidatesData(callId: Option<CallId>, candidates: Option<seq<Candidate>>, removed: bool)

  /** `VoipCallRingingData`. */
  datatype CallRingingData = CallRingingData(callId: Option<CallId>)

  /** `VoipCallHangupData`. */
  datatype CallHangupData = CallHangupData(callId: Option<CallId>)

  /** A message handed to the message queue, addressed to a peer. */
  datatype OutMessage =
    | OfferMsg(to: Identity, offer: CallOfferData)
    | AnswerMsg(to: Identity, answer: CallAnswerData)
    | IceCandidatesMsg(to: Identity, candidates: ICECandidatesData)
    | RingingMsg(to: Identity, ringing: CallRingingData)
    | HangupMsg(to: Identity, hangup: CallHangupData)

  /** A local broadcast to the call service and the call activity. */
  datatype Broadcast =
    | IceBroadcast(callId: CallId, peer: Identity, data: ICECandidatesData)
    | CallAcceptedBroadcast

  /** A notification of the message listeners or of the call event listeners. */
  datatype ListenerEvent =
    | OnOffer(peer: Identity)
    | OnAnswer(peer: Identity)
    | OnRingingMessage(peer: Identity)
    | OnHangup(peer: Identity)
    | CallRinging(peer: Identity)
    | Missed(peer: Identity, accepted: bool)
    | Finished(peer: Identity, outgoing: bool, duration: int)
    | Aborted(peer: Identity)
    | CallRejected(peer: Identity, outgoing: bool, reason: Option<RejectReason>)

  /** Calls into the lifetime service for the server connection. */
  datatype LeaseCall = AcquireConnection | ReleaseConnectionLinger(delayMs: nat)

  /** The pending "accept this incoming call" intent. */
  datatype AcceptIntent = AcceptIntent(callId: CallId, peer: Identity)

  /** The ringing timeout runnable: the caller and the counter captured when it was scheduled. */
  datatype RingingTimer = RingingTimer(peer: Identity, counter: nat)

  /** Calls into other platform services. */
  datatype PlatformCall =
    | RegisterMediaButton
    | UnregisterMediaButton
    | StartAcceptService(intent: AcceptIntent)
    | EnqueueRejectWork(callId: CallId, peer: Identity, reason: RejectReason)
    | PostRingingTimeout(timer: RingingTimer, delayMs: nat)
    | SendProfilePicture(to: Identity)

  /** The exceptions the outgoing message builders throw at their caller. */
  datatype BuilderError = IllegalArgument | IllegalState

  datatype Result<T> = Ok(value: T) | Err(error: BuilderError)

  /**
   * What `handleCallOffer` learns from services outside the core: whether the
   * sender is a known contact, the VoIP preference, an ongoing PSTN call and
   * the "muted outside working hours" rule.
   */
  datatype OfferContext = OfferContext(contactKnown: bool, voipEnabled: bool, pstnCallOngoing: bool, mutedWork: bool)

  function OptionToSeq<T>(o: Option<T>): seq<T> {
    if o.Some? then [o.value] else []
  }
}
