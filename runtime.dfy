/**
 * The Python and SQLite values the query agent handles: a cell of a result
 * row, a row as a dictionary keyed by column name, the exceptions the core
 * raises or lets through, and the `str()` rendering of a cell.
 */
module Runtime {
  import opened Strings

  /** A value SQLite hands back for one column of one row (blobs are left out). */
  datatype Value = Null | Integer(i: int) | Real(r: real) | Text(s: string)

  /** `dict(zip(columns, row))`: one result row. */
  type Row = map<string, Value>

  /**
   * Float rendering is CPython's and stays uninterpreted: `repr` stands for
   * `str(x)` of a float and `fixed1` for `f"{x:.1f}"`.
   */
  datatype Floats = Floats(repr: real -> string, fixed1: real -> string)

  /** The exceptions that reach the agent's and the server's handlers. */
  datatype Exception =
    | ValueError(msg: string)
    | TypeError(msg: string)
    | KeyError(key: string)
    | AttributeError(msg: string)
      /** a bare `Exception`, as raised for a storage failure */
    | Error(msg: string)
  {
    /** `str(e)`; for a `KeyError` that is the quoted key. */
    function Message(): string {
      match this
      case ValueError(m) => m
      case TypeError(m) => m
      case KeyError(k) => "'" + k + "'"
      case AttributeError(m) => m
      case Error(m) => m
    }
  }

  datatype Option<T> = None | Some(value: T)

  datatype Result<T> = Success(value: T) | Failure(error: Exception)

  datatype Outcome = Pass | Fail(error: Exception)

  /** `type(v).__name__` */
  function TypeName(v: Value): string {
    match v
    case Null => "NoneType"
    case Integer(_) => "int"
    case Real(_) => "float"
    case Text(_) => "str"
  }

  /** `bool(v)` */
  predicate Truthy(v: Value) {
    match v
    case Null => false
    case Integer(i) => i != 0
    case Real(r) => r != 0.0
    case Text(s) => s != ""
  }

  /** `str(v)`, as an f-string interpolates a cell. */
  function Str(v: Value, floats: Floats): string {
    match v
    case Null => "None"
    case Integer(i) => IntToString(i)
    case Real(r) => floats.repr(r)
    case Text(s) => s
  }

  /** `row.get(key, default)` */
  function Get(row: Row, key: string, default: Value): Value {
    if key in row then row[key] else default
  }
}
