/** The ICE agent state and its partial decoding from native state codes. */
module States {
  import opened Base
  import opened Sys

  datatype State = Disconnected | Gathering | Connecting | Connected | Completed | Failed

  /** The native `juice_state` value each variant stands for. */
  function NativeCode(abi: Abi, s: State): int {
    match s
    case Disconnected => abi.stateDisconnected
    case Gathering => abi.stateGathering
    case Connecting => abi.stateConnecting
    case Connected => abi.stateConnected
    case Completed => abi.stateCompleted
    case Failed => abi.stateFailed
  }

  /**
   `TryFrom<juice_state> for State`: the arms are tried in declaration order;
   any code that is none of the six native states is rejected (`Err(())`).
   */
  function TryFromNative(abi: Abi, code: int): (r: Option<State>)
    ensures r.Some? ==> NativeCode(abi, r.value) == code
    ensures r.None? ==> forall s :: NativeCode(abi, s) != code
  {
    if code == abi.stateDisconnected then Some(Disconnected)
    else if code == abi.stateGathering then Some(Gathering)
    else if code == abi.stateConnecting then Some(Connecting)
    else if code == abi.stateConnected then Some(Connected)
    else if code == abi.stateCompleted then Some(Completed)
    else if code == abi.stateFailed then Some(Failed)
    else None
  }

  /** Decoding the native code of a state gives back that state. */
  lemma DecodeNativeCode(abi: Abi, s: State)
    requires abi.Valid()
    ensures TryFromNative(abi, NativeCode(abi, s)) == Some(s)
  {
  }

  /**
   The six native codes go to six distinct states: decoding is injective on
   its domain, and distinct states have distinct codes.
   */
  lemma DecodeInjective(abi: Abi, c1: int, c2: int)
    requires abi.Valid()
    requires TryFromNative(abi, c1).Some? && TryFromNative(abi, c2).Some?
    ensures TryFromNative(abi, c1) == TryFromNative(abi, c2) <==> c1 == c2
  {
  }

  /** Every state is reached by exactly one native code. */
  lemma DecodeSurjective(abi: Abi, s: State, code: int)
    requires abi.Valid()
    ensures TryFromNative(abi, code) == Some(s) <==> code == NativeCode(abi, s)
  {
    DecodeNativeCode(abi, s);
  }
}
