/** Values of the Go runtime and standard library that the consumer code handles. */
module Go {

  /** A value that may be absent: Go's nil pointer. */
  datatype Option<+T> = None | Some(value: T)

  /** Go's `error`: only its message is observable here. */
  datatype Error = Error(message: string)

  newtype byte = x: int | 0 <= x < 256

  /** A `context.Context` as far as its shape goes; when it is cancelled is decided by the environment. */
  datatype Context = Background | WithCancel(parent: Context)

  /** A `time.Time`: seconds and nanoseconds counted from Go's zero instant. */
  datatype Time = Time(sec: int, nsec: int) {
    /** `Time.IsZero`: the instant is the zero instant. */
    predicate IsZero() {
      sec == 0 && nsec == 0
    }
  }

  const ZeroTime: Time := Time(0, 0)
}
