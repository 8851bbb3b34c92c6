/** Failure-carrying values used throughout the model: a Python value that may be
    None, a call that either returns or raises, and a step that either passes or
    raises. */
module Outcomes {

  /** A value that may be Python's None. */
  datatype Option<+T> = None | Some(value: T)

  /** The result of a call that returns `value` or raises `error`. */
  datatype Result<+T, +E> = Success(value: T) | Failure(error: E)

  /** A statement that completes normally or raises `error`. */
  datatype Outcome<+E> = Pass | Fail(error: E)
}

/** Log records written through the "isso" logger. */
module Logs {
  import opened Outcomes

  /** The severity a record is logged at: `logger.info`, `logger.warn`, `logger.exception`. */
  datatype Level = Info | Warning | Error

  /** One log record: its severity, its formatted message and, for `logger.exception`,
      the exception whose traceback is attached. */
  datatype LogEntry = LogEntry(level: Level, message: string, exception: Option<string>)
}
