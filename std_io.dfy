/**
 * The parts of the Rust standard library's `std::io::Error` that the
 * project inspects: its kind and the text its `Display` produces.  The text
 * is an input of the model, since it is formatted by code outside the project.
 */
module StdIo {
  datatype StdErrorKind =
    | UnexpectedEof | WriteZero | Interrupted | InvalidData | PermissionDenied
    | NotFound | AlreadyExists | WouldBlock
    /** every other kind the standard library defines, named as it names it */
    | OtherStdKind(name: string)

  datatype StdIoError = StdIoError(kind: StdErrorKind, display: string)
}
