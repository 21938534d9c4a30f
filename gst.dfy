/**
 * The vocabulary of the GStreamer framework that the tutorials use. The framework
 * itself is not modelled: elements are identity tokens, and bus messages, query answers
 * and call results are inputs to the model.
 */
module Gst {
  import opened Wrappers

  /** The identity of an element (the playbin, a pipeline or one of its sub-elements); only compared for equality. */
  type Token = nat

  /** The element states of gst::State. */
  datatype State = VoidPending | Null | Ready | Paused | Playing

  /** The bus message kinds the tutorials distinguish (gst::MessageView); every other kind is `Other`. */
  datatype Message =
    | Error(src: Option<Token>, error: string, debug: Option<string>)
    | Eos
    | DurationChanged
    | StateChanged(src: Option<Token>, previous: State, current: State)
    | Other

  /** The gst::SeekFlags bits the tutorials use. */
  datatype SeekFlags = SeekFlags(flush: bool, keyUnit: bool)

  /** gst::ClockTime: a time in nanoseconds, or None for CLOCK_TIME_NONE. */
  type ClockTime = Option<nat>

  /** `t > bound` under the order of gst::ClockTime, in which CLOCK_TIME_NONE lies below every time. */
  predicate Exceeds(t: ClockTime, bound: nat) {
    t.Some? && t.value > bound
  }

  /** gst::SECOND: clock times are counted in nanoseconds. */
  const Second: nat := 1_000_000_000
}
