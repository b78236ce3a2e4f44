/**
 * The I/O error type (src/io/mod.rs): a kind and an optional message, with
 * its conversion from the standard library's error and into a `Message`.
 */
module IoError {
  import opened Wrappers
  import StdIo
  import Messages

  datatype ErrorKind =
    | UnexpectedEof | WriteZero | Interrupted | InvalidData | NotSeekable
    | PermissionDenied | NotFound | AlreadyExists | WouldBlock | Other

  datatype Error = Error(kind: ErrorKind, message: Option<string>)

  /** `io::Result<T>`. */
  type IoResult<T> = Result<T, Error>

  function New(kind: ErrorKind): (e: Error)
    ensures e.kind == kind && e.message == None
  {
    Error(kind, None)
  }

  function WithMessage(kind: ErrorKind, message: string): (e: Error)
    ensures e.kind == kind && e.message == Some(message)
  {
    Error(kind, Some(message))
  }

  function Kind(e: Error): ErrorKind { e.kind }

  function MessageOf(e: Error): Option<string> { e.message }

  /** The accessors give back what the constructors were given. */
  lemma AccessorsInvertConstructors(kind: ErrorKind, message: string)
    ensures Kind(New(kind)) == kind && MessageOf(New(kind)) == None
    ensures Kind(WithMessage(kind, message)) == kind
    ensures MessageOf(WithMessage(kind, message)) == Some(message)
  {
  }

  function UnexpectedEofError(): (e: Error)
    ensures e.kind == UnexpectedEof && e.message == None
  {
    New(UnexpectedEof)
  }

  function WriteZeroError(): (e: Error)
    ensures e.kind == WriteZero && e.message == None
  {
    New(WriteZero)
  }

  function InvalidDataError(message: string): (e: Error)
    ensures e.kind == InvalidData && e.message == Some(message)
  {
    WithMessage(InvalidData, message)
  }

  function NotSeekableError(): (e: Error)
    ensures e.kind == NotSeekable && e.message == None
  {
    New(NotSeekable)
  }

  /** The `Debug` name of a kind: the variant's own identifier. */
  function KindDebugName(kind: ErrorKind): string
  {
    match kind
    case UnexpectedEof => "UnexpectedEof"
    case WriteZero => "WriteZero"
    case Interrupted => "Interrupted"
    case InvalidData => "InvalidData"
    case NotSeekable => "NotSeekable"
    case PermissionDenied => "PermissionDenied"
    case NotFound => "NotFound"
    case AlreadyExists => "AlreadyExists"
    case WouldBlock => "WouldBlock"
    case Other => "Other"
  }

  /** `Display`: the message when there is one, otherwise the kind's name. */
  function Display(e: Error): (text: string)
    ensures e.message.Some? ==> text == e.message.value
    ensures e.message.None? ==> text == KindDebugName(e.kind)
  {
    match e.message
    case Some(m) => m
    case None => KindDebugName(e.kind)
  }

  /** `to_message`: an error-kind message whose text is what `Display` shows. */
  function ToMessage(e: Error): (m: Messages.Message)
    ensures m.kind == Messages.Error
    ensures e.message.Some? ==> m.text == e.message.value
    ensures e.message.None? ==> m.text == KindDebugName(e.kind)
  {
    Messages.ErrorMessage(match e.message case Some(msg) => msg case None => KindDebugName(e.kind))
  }

  /** The converted message and the displayed error say the same thing. */
  lemma ToMessageAgreesWithDisplay(e: Error)
    ensures ToMessage(e).text == Display(e)
  {
  }

  /** Without a message, the kind can be recovered from the converted text. */
  lemma KindDebugNameInjective(a: ErrorKind, b: ErrorKind)
    ensures KindDebugName(a) == KindDebugName(b) ==> a == b
  {
  }

  /** `From<std::io::Error>`: eight kinds carried over one to one, the rest become `Other`. */
  function FromStd(err: StdIo.StdIoError): (e: Error)
    ensures e.message == None
    ensures err.kind.OtherStdKind? <==> e.kind == Other
  {
    var kind := match err.kind
      case UnexpectedEof => UnexpectedEof
      case WriteZero => WriteZero
      case Interrupted => Interrupted
      case InvalidData => InvalidData
      case PermissionDenied => PermissionDenied
      case NotFound => NotFound
      case AlreadyExists => AlreadyExists
      case WouldBlock => WouldBlock
      case OtherStdKind(_) => Other;
    New(kind)
  }

  /** The conversion keeps the distinction between any two of the eight shared kinds. */
  lemma FromStdInjectiveOnSharedKinds(a: StdIo.StdIoError, b: StdIo.StdIoError)
    requires !a.kind.OtherStdKind? && !b.kind.OtherStdKind?
    ensures FromStd(a).kind == FromStd(b).kind <==> a.kind == b.kind
  {
  }

  /** The conversion never produces `NotSeekable`: that kind is raised only by the project itself. */
  lemma FromStdNeverNotSeekable(err: StdIo.StdIoError)
    ensures FromStd(err).kind != NotSeekable
  {
  }
}
