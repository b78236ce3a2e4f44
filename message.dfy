/**
 * User-facing messages (src/message.rs): a kind (error, warning, info) and
 * a text.  Every fallible operation of the project fails with a `Message`.
 */
module Messages {
  import Wrappers
  import StdIo

  datatype MessageKind = Error | Warning | Info

  datatype Message = Message(kind: MessageKind, text: string)

  /** `crate::message::Result<T>`. */
  type MsgResult<T> = Wrappers.Result<T, Message>

  /** The lower-case label of a kind, also its `Display` form. */
  function KindName(kind: MessageKind): string
  {
    match kind
    case Error => "error"
    case Warning => "warning"
    case Info => "info"
  }

  /** The label identifies the kind: distinct kinds print distinct labels. */
  lemma KindNameInjective(a: MessageKind, b: MessageKind)
    ensures KindName(a) == KindName(b) ==> a == b
  {
    if a != b {
      assert KindName(a)[0] != KindName(b)[0];
    }
  }

  function ErrorMessage(text: string): (m: Message)
    ensures m.kind == Error && m.text == text
  {
    Message(Error, text)
  }

  function WarningMessage(text: string): (m: Message)
    ensures m.kind == Warning && m.text == text
  {
    Message(Warning, text)
  }

  function InfoMessage(text: string): (m: Message)
    ensures m.kind == Info && m.text == text
  {
    Message(Info, text)
  }

  /** A standard-library I/O error becomes an error message carrying its display text. */
  function FromStdIoError(err: StdIo.StdIoError): (m: Message)
    ensures m.kind == Error && m.text == err.display
  {
    ErrorMessage(err.display)
  }
}
