/** Errors raised by the engine and by the Ruby runtime underneath it.
    The five engine classes are those of lib/operations/v2/errors.rb; the rest are the
    built-in Ruby classes the engine lets escape (a missing handler method, a missing block,
    an abstract adapter method) and the classes of the legacy engine under app/models. */
module Errors {

  datatype ErrorKind =
    | Failure
    | Timeout
    | NoDecision
    | InvalidState
    | ValidationError
    | CannotWaitInForeground
    | ArgumentError
    | NoMethodError
    | NotImplementedError
    | LocalJumpError
    | RecordInvalid
    | UserError(className: string)   // anything a handler body raises itself

  /** A raised exception: its class, its message and the backtrace captured where it was raised. */
  datatype Error = Error(kind: ErrorKind, message: string, backtrace: seq<string>)

  /** The result of a computation that may raise. */
  datatype Result<+T> = Ok(value: T) | Err(error: Error)

  /** An error raised by the engine itself; the model does not track Ruby stack frames. */
  function Raise(kind: ErrorKind, message: string): Error {
    Error(kind, message, [])
  }

  /** `exception.class.to_s` for the classes the V2 engine can record on a task. */
  function ClassName(kind: ErrorKind): string {
    match kind
    case Failure => "Operations::V2::Failure"
    case Timeout => "Operations::V2::Timeout"
    case NoDecision => "Operations::V2::NoDecision"
    case InvalidState => "Operations::V2::InvalidState"
    case ValidationError => "Operations::V2::ValidationError"
    case CannotWaitInForeground => "Operations::CannotWaitInForeground"
    case ArgumentError => "ArgumentError"
    case NoMethodError => "NoMethodError"
    case NotImplementedError => "NotImplementedError"
    case LocalJumpError => "LocalJumpError"
    case RecordInvalid => "ActiveRecord::RecordInvalid"
    case UserError(name) => name
  }

  /** `lines.join(sep)`. */
  function Join(lines: seq<string>, sep: string): string {
    if |lines| == 0 then ""
    else if |lines| == 1 then lines[0]
    else lines[0] + sep + Join(lines[1..], sep)
  }
}
