/**
 * The frame transport as the session sees it: error codes, read outcomes and how
 * `checkAndGetPdu` classifies them, and the transport actions the session performs.
 * Strings stand for byte strings, one character per byte.
 */
module Transport {

  /** Codes reported to the owning client. */
  const ConnectionBroken := 8
  const InvalidCommandId := 93
  const ConnectionTimedOut := 110
  /** The native "connection reset by peer" code of the socket layer. */
  const ConnectionReset := 104
  /** The fixed SMPP header: command length, id, status and sequence number, 4 bytes each. */
  const MinFrameLength := 16

  const BrokenText := "the connection is broken"
  const TimedText := "Connection timed"
  const CommandIdText := "Incorrect pdu command id"

  /** A code and message as recorded by `syncClientErr`, or as held by the socket client. */
  datatype ErrRecord = ErrRecord(code: int, msg: string)

  /** What a connect or send call did; on failure the client's native error. */
  datatype IoResult = Done | IoFailed(native: ErrRecord)

  /**
   * One attempt to read a frame: the client was not connected, `recv` returned
   * `false` leaving a native error, or `recv` returned a (possibly empty) string.
   */
  datatype ReadOutcome = NotConnected | RecvFailed(native: ErrRecord) | Received(bytes: string)

  /** The classified read: a frame, or a failure with the error that was recorded for it. */
  datatype Read = Frame(bytes: string) | Failed(err: ErrRecord)

  /** The transport actions of a session, in the order it performs them. */
  datatype Event =
    | Connect(host: string, port: int, timeout: int)
    | Write(frame: string)
    | CloseClient    // the socket client's close()
    | CloseSession   // the role-specific close() of the session

  /** The codes that end the receive loop. */
  predicate IsFatal(code: int) {
    code == ConnectionBroken || code == ConnectionTimedOut
  }

  /** `checkAndGetPdu`: which reads yield a frame, and which error each failing read records. */
  function Classify(o: ReadOutcome): (r: Read)
    ensures r.Frame? <==> o.Received? && |o.bytes| >= MinFrameLength
    ensures r.Frame? ==> r.bytes == o.bytes
    ensures o.NotConnected? ==> r == Failed(ErrRecord(ConnectionBroken, BrokenText))
    ensures o.RecvFailed? && o.native.code == ConnectionReset ==> r == Failed(ErrRecord(ConnectionBroken, BrokenText))
    ensures o.RecvFailed? && o.native.code != ConnectionReset ==> r == Failed(o.native)
    ensures o == Received([]) ==> r == Failed(ErrRecord(ConnectionBroken, BrokenText))
    ensures o.Received? && 0 < |o.bytes| < MinFrameLength ==> r == Failed(ErrRecord(InvalidCommandId, CommandIdText))
  {
    match o
    case NotConnected => Failed(ErrRecord(ConnectionBroken, BrokenText))
    case RecvFailed(native) =>
      if native.code == ConnectionReset then Failed(ErrRecord(ConnectionBroken, BrokenText))
      else Failed(native)
    case Received(bytes) =>
      if bytes == [] then Failed(ErrRecord(ConnectionBroken, BrokenText))
      else if |bytes| < MinFrameLength then Failed(ErrRecord(InvalidCommandId, CommandIdText))
      else Frame(bytes)
  }

  /**
   * A read whose recorded error ends the receive loop: not connected, an empty read,
   * a reset, or a native failure whose own code is 8 or 110.
   */
  predicate FatalOutcome(o: ReadOutcome): (r: bool)
    ensures r <==>
      || o.NotConnected?
      || o == Received([])
      || (o.RecvFailed? && (o.native.code == ConnectionReset || IsFatal(o.native.code)))
  {
    Classify(o).Failed? && IsFatal(Classify(o).err.code)
  }
}
