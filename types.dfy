/**
 * Shared record shapes of the plank timer: the recorded session
 * (src/types/session.ts) and the user's body data and feedback
 * toggles (src/types/preferences.ts).
 */
module Types {

  /** A value that may be absent (the source's `T | null`). */
  datatype Option<+T> = None | Some(value: T)

  /** The body side a hold is performed on. */
  datatype Side = Front | Left | Right

  /** One completed, continuous hold. */
  datatype Segment = Segment(side: Side, durationMs: int)

  /** A workout attempt: when it began and the holds recorded so far, in order. */
  datatype Session = Session(startedAt: int, segments: seq<Segment>)

  /** User preferences; only `weightKg` is read by the summary. */
  datatype Preferences = Preferences(vibration: bool, sound: bool, weightKg: real, heightCm: real)

  const DEFAULT_PREFERENCES: Preferences := Preferences(true, false, 70.0, 170.0)
}
