/**
 * The Python exceptions the request pipeline raises or catches, and the
 * result of a step that either returns a value or raises.
 */
module Errors {

  /** The exception classes the pipeline tells apart in its `except` clauses. */
  datatype ExcKind =
    | ValueError       // includes json.JSONDecodeError, a subclass
    | ValidationError  // jsonschema's, not a subclass of ValueError
    | RuntimeError
    | AttributeError
    | KeyError
    | TypeError
    | OSError
    | OtherError       // any other exception a collaborator may raise

  /** A raised exception: its class and `str(exc)`. */
  datatype Exc = Exc(kind: ExcKind, message: string)

  /** The result of a step: a returned value or a raised exception. */
  datatype Outcome<+T> = Ok(value: T) | Raise(exc: Exc)

  /** The classes caught by `except (ValueError, ValidationError)`. */
  predicate IsClientError(kind: ExcKind) {
    kind == ValueError || kind == ValidationError
  }
}
