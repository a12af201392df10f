/**
 * The immutable summary record of a finished (or still running) session,
 * `RunSession` in Models/RunSession.swift.
 */
module Sessions {

  /** A point in time (`Date`), in seconds from an arbitrary reference instant. */
  type Time = real

  /** The session's unique identifier (`UUID`); nothing but its identity matters. */
  type SessionId

  datatype RunSession = RunSession(
    id: SessionId,
    distance: real,   // metres
    duration: real,   // seconds (`TimeInterval`)
    timestamp: Time   // when the run started
  )
}
