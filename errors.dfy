/**
  The exceptions the modelled code raises, by exception class and message.
  A message the runtime composes itself (a JVM NullPointerException, a
  Python AttributeError) is named by its class only.
*/
module Errors {
  import opened Wrappers

  /** Python exceptions. */
  datatype PyError =
    | ValueError(msg: string)
    | RuntimeError(msg: string)
    | KeyError(key: string)
    | TypeError
    | AttributeError(name: string)
    | NameError(name: string)
    | ConnectionError(msg: string)
    | OverflowError
    | TimeoutError(msg: string)
    | OSError(msg: string)

  /** What a send or receive on a closed socket raises: EBADF. */
  const ClosedSocket := OSError("[Errno 9] Bad file descriptor")

  /**
    `str(e)`, the text an f-string shows for a Python exception. The texts
    the interpreter composes are abbreviated to their fixed part.
  */
  function Text(e: PyError): string
  {
    match e
    case ValueError(m) => m
    case RuntimeError(m) => m
    case KeyError(k) => "'" + k + "'"
    case TypeError => "unsupported operand type"
    case AttributeError(n) => "object has no attribute '" + n + "'"
    case NameError(n) => "name '" + n + "' is not defined"
    case ConnectionError(m) => m
    case OverflowError => "int too big to convert"
    case TimeoutError(m) => m
    case OSError(m) => m
  }

  /** Java exceptions. */
  datatype JavaError =
    | IllegalStateException(msg: string)
    | IllegalArgumentException(msg: string)
    /** From unboxing, dereferencing or looking up null. */
    | NullPointerException
    | ClassCastException
    | IOException(msg: string)
    /** The end of an object stream; it carries no message. */
    | EOFException
    | TimeoutException(msg: string)
    | ArithmeticException(msg: string)
    | RuntimeException(detail: Option<string>)

  /**
    `e.getMessage()`; None stands for null. Whether the JVM describes the
    null-pointer exceptions it raises depends on its version (from Java 15
    on it does by default): `detailedNulls` says which.
  */
  function JavaMessage(e: JavaError, detailedNulls: bool): (r: Option<string>)
    ensures r.None? <==> (e.NullPointerException? && !detailedNulls) || e.EOFException? || e == RuntimeException(None)
  {
    match e
    case IllegalStateException(m) => Some(m)
    case IllegalArgumentException(m) => Some(m)
    case NullPointerException => if detailedNulls then Some("NullPointerException") else None
    case ClassCastException => Some("ClassCastException")
    case IOException(m) => Some(m)
    case EOFException => None
    case TimeoutException(m) => Some(m)
    case ArithmeticException(m) => Some(m)
    case RuntimeException(m) => m
  }
}
