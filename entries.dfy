/** The record the logger buffers and ships: one log event. */
module Entries {
  import opened Wrappers

  /** The four severities a caller can log at. */
  datatype LogLevel = Info | Warn | Error | Debug

  /**
   * One log event. `meta` is whatever structured value the caller attached (or nothing);
   * the logger never looks inside it, so it is a type parameter. `timestamp` is taken as
   * given: the wall clock that produces it is not part of this model.
   */
  datatype LogEntry<M> = LogEntry(level: LogLevel, message: string, meta: Option<M>, timestamp: string)
}
