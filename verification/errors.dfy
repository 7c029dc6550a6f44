/** Error values of the include engine: an I/O error kind plus the trace of
    (file, line) positions that the resolvers append while an error unwinds
    through nested `#include` lines. Message strings are not modelled. */
module Errors {

  /** A path is a sequence of components; `join` is concatenation. */
  type Path = seq<string>

  datatype Option<+T> = None | Some(value: T)

  /** `std::io::ErrorKind`, restricted to the kinds the engine produces or tests. */
  datatype ErrorKind = NotFound | AlreadyExists | InvalidData | PermissionDenied | Other

  /** One "in file '<file>' at line <line>" suffix added by an including file. */
  datatype Frame = Frame(file: Path, line: nat)

  datatype Error = Error(kind: ErrorKind, trace: seq<Frame>) {
    /** The error re-raised by an including file: same kind, one more frame. */
    function At(file: Path, line: nat): Error {
      Error(kind, trace + [Frame(file, line)])
    }
  }

  /** `io::Result<T>`. */
  datatype Result<+T> = Ok(value: T) | Err(error: Error)

  /** A fresh error of the given kind, with an empty trace. */
  function Fail(kind: ErrorKind): Error {
    Error(kind, [])
  }
}
