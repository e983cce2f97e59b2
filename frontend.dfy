/** The events a terminal frontend raises towards its session
    (TermRunner/Terminal/ITerminalFrontend.cs), as values. */
module Frontend {

  datatype ReadyArgs = ReadyArgs(sessionId: string, cols: int, rows: int)

  datatype InputArgs = InputArgs(sessionId: string, text: string)

  datatype ResizeArgs = ResizeArgs(sessionId: string, cols: int, rows: int)

  /** An invocation of one of the `Ready`, `Input` and `Resized` events. */
  datatype Event =
    | Ready(ready: ReadyArgs)
    | Input(input: InputArgs)
    | Resized(resize: ResizeArgs)
  {
    /** The session the event is addressed to. */
    function SessionId(): string {
      match this
      case Ready(a) => a.sessionId
      case Input(a) => a.sessionId
      case Resized(a) => a.sessionId
    }
  }
}
