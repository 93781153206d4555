/** Optional values: a missing waveform, an unselected note, a failed device open. */
module Wrappers {
  datatype Option<+T> = None | Some(value: T)
}
