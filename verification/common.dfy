/**
 Shared vocabulary of the governed tool-execution path: optional values,
 results that carry one of the exceptions the Python code can raise, and the
 cells that make up a row fetched from the relational store.
 */
module Common {

  /** A value that may be absent (a missing dictionary key, a missing file). */
  datatype Option<+T> = None | Some(value: T)

  /** The exceptions that can leave the modelled functions. */
  datatype Error =
    | RolesFileMissing                         // FileNotFoundError from load_roles
    | PermissionDenied(role: string, tool: string) // PermissionError from require_tool_allowed
    | UnknownTool(name: string)                // ValueError from run_sql
    | StoreFailure                             // driver error while connecting, executing or fetching
    | AuditWriteFailure                        // driver error while writing an audit row
    | RetrievalFailure                         // embedding model or vector index error
    | TrendFailure                             // IndexError, TypeError or ZeroDivisionError in the trend step

  /** Either a value or the exception that was raised instead. */
  datatype Result<+T> = Success(value: T) | Failure(error: Error)

  /** A call that returns nothing, or raises. */
  datatype Outcome = Pass | Fail(error: Error)

  /** One value of a fetched row. Dates are day numbers. */
  datatype Cell = Str(s: string) | Num(x: real) | Date(day: int) | Null

  type Row = seq<Cell>

  function Min(a: int, b: int): int
  {
    if a <= b then a else b
  }
}
