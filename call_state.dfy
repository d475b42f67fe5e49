/**
 * The single call slot. `CallState` (whose class is not part of this model)
 * is reduced to a value; `Step` is one `setStateX` call of
 * `VoipStateService` as far as the call state is concerned, and
 * `TimeoutFires` is the guard of the ringing timeout runnable.
 */
module CallStates {

  datatype Phase = Idle | Ringing | Initializing | Calling | Disconnecting

  /**
   * A snapshot of `CallState`: the phase, the id of the tracked call and the
   * number of times the phase entered Ringing.
   */
  datatype CallState = CallState(phase: Phase, callId: int, incomingCallCounter: nat)

  /** A freshly constructed `CallState`. */
  const Initial: CallState := CallState(Idle, 0, 0)

  /** The requests `setStateRinging(id)` .. `setStateIdle()`. */
  datatype Transition =
    | ToRinging(id: int)
    | ToInitializing(id: int)
    | ToCalling(id: int)
    | ToDisconnecting(id: int)
    | ToIdle

  function Target(t: Transition): Phase {
    match t
    case ToRinging(_) => Ringing
    case ToInitializing(_) => Initializing
    case ToCalling(_) => Calling
    case ToDisconnecting(_) => Disconnecting
    case ToIdle => Idle
  }

  /**
   * `CallState.setRinging` .. `setIdle`: setting Ringing increments the
   * incoming call counter; setting Idle resets the call id to 0. Both are
   * assumed behaviours of the `CallState` class, which is not part of this
   * model.
   */
  function Enter(s: CallState, t: Transition): CallState {
    match t
    case ToRinging(id) => CallState(Ringing, id, s.incomingCallCounter + 1)
    case ToInitializing(id) => CallState(Initializing, id, s.incomingCallCounter)
    case ToCalling(id) => CallState(Calling, id, s.incomingCallCounter)
    case ToDisconnecting(id) => CallState(Disconnecting, id, s.incomingCallCounter)
    case ToIdle => CallState(Idle, 0, s.incomingCallCounter)
  }

  /**
   * One `setStateX` call: it returns at once when the phase already is X and
   * otherwise moves to X from whatever phase it was in.
   */
  function Step(s: CallState, t: Transition): (r: CallState)
    ensures r.phase == Target(t)
    ensures s.phase == Target(t) ==> r == s
    ensures s.phase != Target(t) ==> r.callId == (if t.ToIdle? then 0 else t.id)
    ensures r.incomingCallCounter == s.incomingCallCounter + (if t.ToRinging? && s.phase != Ringing then 1 else 0)
  {
    if s.phase == Target(t) then s else Enter(s, t)
  }

  /** The call state after a sequence of `setStateX` calls. */
  function Run(s: CallState, ts: seq<Transition>): CallState
    decreases |ts|
  {
    if ts == [] then s else Run(Step(s, ts[0]), ts[1..])
  }

  /**
   * The guard of the ringing timeout runnable: it rejects the call only if
   * the phase is still Ringing and the incoming call counter is the one
   * captured when the timer was scheduled.
   */
  predicate TimeoutFires(s: CallState, capturedCounter: nat) {
    s.phase == Ringing && s.incomingCallCounter == capturedCounter
  }

  /** The incoming call counter never goes down. */
  lemma {:induction false} CounterNeverDecreases(s: CallState, ts: seq<Transition>)
    ensures Run(s, ts).incomingCallCounter >= s.incomingCallCounter
    decreases |ts|
  {
    if ts != [] {
      CounterNeverDecreases(Step(s, ts[0]), ts[1..]);
    }
  }

  /** Coming back to Ringing from any other phase takes a new counter value. */
  lemma {:induction false} ReRingingAdvancesCounter(s: CallState, ts: seq<Transition>)
    requires s.phase != Ringing
    ensures Run(s, ts).phase == Ringing ==> Run(s, ts).incomingCallCounter > s.incomingCallCounter
    decreases |ts|
  {
    if ts != [] {
      var next := Step(s, ts[0]);
      if next.phase == Ringing {
        CounterNeverDecreases(next, ts[1..]);
      } else {
        ReRingingAdvancesCounter(next, ts[1..]);
      }
    }
  }

  /**
   * The soft cancellation of the ringing timeout is exact: scheduled in a
   * Ringing state, the timer rejects the call iff every state change made
   * before it fired was a (no-op) `setStateRinging`. Once the call has been
   * accepted, rejected or hung up, or a later ringing episode started, the
   * timeout does nothing.
   */
  lemma {:induction false} TimeoutFiresIffStillRinging(s: CallState, ts: seq<Transition>)
    requires s.phase == Ringing
    ensures TimeoutFires(Run(s, ts), s.incomingCallCounter)
            <==> forall i :: 0 <= i < |ts| ==> ts[i].ToRinging?
    decreases |ts|
  {
    if ts != [] {
      var next := Step(s, ts[0]);
      if ts[0].ToRinging? {
        assert next == s;
        TimeoutFiresIffStillRinging(s, ts[1..]);
        assert forall i :: 1 <= i < |ts| ==> ts[i] == ts[1..][i - 1];
      } else {
        ReRingingAdvancesCounter(next, ts[1..]);
        assert !TimeoutFires(Run(s, ts), s.incomingCallCounter);
      }
    }
  }
}
