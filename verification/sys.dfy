/**
 The integer constants of the native libjuice ABI that the bindings match on.
 Their concrete values live in the generated bindings and are not part of
 this model, so they are a record of unknown integers; `Valid` states the only
 facts the bindings rely on: within each group the codes are pairwise
 distinct, and no error code equals the success code 0.
 */
module Sys {

  datatype Abi = Abi(
    // return codes (JUICE_ERR_*); success is 0
    errInvalid: int,
    errFailed: int,
    errNotAvail: int,
    // juice_state values (JUICE_STATE_*)
    stateDisconnected: int,
    stateGathering: int,
    stateConnecting: int,
    stateConnected: int,
    stateCompleted: int,
    stateFailed: int,
    // juice_concurrency_mode values (JUICE_CONCURRENCY_MODE_*)
    modePoll: int,
    modeMux: int,
    modeThread: int
  ) {

    predicate Valid() {
      // the error codes, and success
      && 0 != errInvalid && 0 != errFailed && 0 != errNotAvail
      && errInvalid != errFailed && errInvalid != errNotAvail && errFailed != errNotAvail
      // the six states
      && stateDisconnected != stateGathering && stateDisconnected != stateConnecting
      && stateDisconnected != stateConnected && stateDisconnected != stateCompleted
      && stateDisconnected != stateFailed
      && stateGathering != stateConnecting && stateGathering != stateConnected
      && stateGathering != stateCompleted && stateGathering != stateFailed
      && stateConnecting != stateConnected && stateConnecting != stateCompleted
      && stateConnecting != stateFailed
      && stateConnected != stateCompleted && stateConnected != stateFailed
      && stateCompleted != stateFailed
      // the three concurrency modes
      && modePoll != modeMux && modePoll != modeThread && modeMux != modeThread
    }

    /** The return codes a native call is assumed to produce. */
    predicate KnownRetcode(code: int) {
      code == 0 || code == errInvalid || code == errFailed || code == errNotAvail
    }
  }
}
