/** The game's error type (src/utils/rusty_error.rs): a lock failure, a file
    that could not be loaded, or a failed non-blocking receive. */
module RustyErrors {
  import opened Wrappers
  import opened Macroquad

  /** Why a non-blocking receive on a channel gave nothing. */
  datatype TryRecvError = Empty | Disconnected

  datatype RustyError =
    | RustyLock
    | File(fileError: FileError)
    | Recv(recvError: TryRecvError)

  type RustyResult<T> = Result<T, RustyError>

  /** The lower-level error that `source()` hands out. */
  datatype Cause = FileCause(fileError: FileError) | RecvCause(recvError: TryRecvError)

  /** The text the `Display` implementation writes: a message for a lock
      failure and nothing at all for the two wrapping variants. */
  function Display(e: RustyError): (text: string)
    ensures text != [] <==> e.RustyLock?
    ensures e.RustyLock? ==> text == "Rusty lock error"
  {
    match e
    case RustyLock => "Rusty lock error"
    case _ => ""
  }

  /** `source()`: the wrapped error, if there is one. */
  function Source(e: RustyError): (cause: Option<Cause>)
    ensures cause.None? <==> e.RustyLock?
    ensures e.File? ==> cause == Some(FileCause(e.fileError))
    ensures e.Recv? ==> cause == Some(RecvCause(e.recvError))
  {
    match e
    case RustyLock => None
    case File(f) => Some(FileCause(f))
    case Recv(r) => Some(RecvCause(r))
  }

  /** `From<FileError>`, the conversion `?` applies to a failed load. */
  function FromFileError(err: FileError): (e: RustyError)
    ensures Source(e) == Some(FileCause(err))
  {
    File(err)
  }

  /** `From<TryRecvError>`. */
  function FromTryRecvError(err: TryRecvError): (e: RustyError)
    ensures Source(e) == Some(RecvCause(err))
  {
    Recv(err)
  }

  /** The two views of an error agree: `Display` prints text exactly for the
      variant that wraps nothing. */
  lemma DisplayedIffNoSource(e: RustyError)
    ensures Display(e) != [] <==> Source(e).None?
  {
  }

  /** A converted error keeps the original: converting and then asking for
      the source gives back the error that was converted, and the two
      conversions never produce the same error. */
  lemma ConversionsRoundTrip(f: FileError, r: TryRecvError)
    ensures Source(FromFileError(f)).value.fileError == f
    ensures Source(FromTryRecvError(r)).value.recvError == r
    ensures FromFileError(f) != FromTryRecvError(r)
    ensures Display(FromFileError(f)) == [] && Display(FromTryRecvError(r)) == []
  {
  }
}
