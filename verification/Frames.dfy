/** Native frames under a trampoline, whatever the places are at which code is entered. */
module Frames {
  /** Code is about to be entered, a target is on its way out through the frames that wait, or
      the trampoline has returned to its caller. */
  datatype Mode<P> = Entering(at: P) | Unwinding(target: nat) | Halted(target: nat)

  /** "frames" are the places behind the native calls that are active, the innermost last. */
  datatype Native<P, S> = Native(mode: Mode<P>, frames: seq<P>, state: S)
}
