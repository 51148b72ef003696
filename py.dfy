/** Values shared by every module of the model: optional and fallible results,
    opaque Python objects and the exceptions the core raises or lets through. */
module Py {

  datatype Option<+T> = None | Some(value: T) {
    function GetOr(default: T): T {
      match this
      case Some(v) => v
      case None => default
    }
  }

  datatype Result<+T> = Ok(value: T) | Err(error: Exc)

  /** An object of the running program that the model does not look inside.
      Only what the core asks of it is kept: its identity, whether `callable()`
      holds of it, and whether it is truthy. */
  datatype PyObj = Str(s: string) | Opaque(id: nat, isCallable: bool) {
    predicate Callable() { Opaque? && isCallable }
  }

  /** The exceptions the core raises, plus the ones it receives from code it
      calls.  `DriverError` stands for anything the database driver, the pool
      or the ORM raises; `Interrupt` for a `BaseException` that is not an
      `Exception` (it is never caught by an `except Exception` clause). */
  datatype Exc =
    | DriverError(tag: nat)
    | Interrupt(tag: nat)
    | ServerError(msg: string)
    | DisconnectionError(ownerPid: int, pid: int)
    | KeyError(key: string)
    | IndexError
    | AttributeError(name: string)
    | TypeError
    | SettingNotDefinedError(msg: string)
    | NotFoundError(message: Option<string>)
    | Custom(className: string)
  {
    /** True when `except Exception` catches this exception. */
    predicate IsException() { !Interrupt? }
  }
}
