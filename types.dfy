/** The shared data model of the application (types.ts). */
module Types {

  /** The session phase; exactly one is active at a time. */
  datatype AppState = Idle | Preview | Processing | Completed | Error

  /** Processing configuration, replaced wholesale on change. */
  datatype ProcessingOptions = ProcessingOptions(aggressiveness: int, detectOnly: bool)

  /** The kind of a user-visible notification. */
  datatype AlertType = Success | Error | Info

  /** A user-visible notification (`type` is a keyword here, hence `kind`). */
  datatype AlertMessage = AlertMessage(kind: AlertType, message: string)

  /** The options a session starts with. */
  const DefaultOptions := ProcessingOptions(50, false)

  /** Aggressiveness is documented as a percentage. */
  predicate ValidOptions(options: ProcessingOptions)
  {
    0 <= options.aggressiveness <= 100
  }
}
