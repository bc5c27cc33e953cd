/**
 * The value, syntax-tree and error shapes the evaluator works on. Their
 * Rust definitions (value.rs, expression.rs, statement.rs, error.rs) are
 * not part of this model; only the shapes the evaluator matches on are
 * kept here.
 */
module Lang {

  /** Rust's `Result`: `SwResult<T>` is `Result<T, ErrorKind>`, `SwErResult<T>` is `Result<T, Error>`. */
  datatype Result<+T, +E> = Ok(value: T) | Err(error: E)

  /** A runtime value. Values are compared and copied structurally. */
  datatype Value =
    | Int(i: int)
    | Str(s: string)
    | Bool(b: bool)
    | List(items: seq<Value>)

  datatype Operator = Add | Equality | And | Or

  datatype Expression =
    | Literal(v: Value)
    | Variable(name: string)
    | ListIndex(name: string, index: Expression)
    | ListLength(name: string)
    | Not(operand: Expression)
    | Binary(left: Expression, op: Operator, right: Expression)

  /** The kinds of statement; a block is a `seq<Statement>`. */
  datatype Statement =
    | Assignment(name: string, value: Expression)
    | Print(value: Expression)
    | Input(name: string)
    | Delete(name: string)
    | ListNew(name: string)
    | ListAppend(name: string, value: Expression)
    | ListAssign(name: string, index: Expression, value: Expression)
    | ListDelete(name: string, index: Expression)
    | If(cond: Expression, thenBody: seq<Statement>, elseBody: OptionalBlock)
    | While(cond: Expression, body: seq<Statement>)
    | Catch(tryBody: seq<Statement>, catchBody: seq<Statement>)

  /** The `Option<Vec<Statement>>` holding the else branch of an `If`. */
  datatype OptionalBlock = None | Some(block: seq<Statement>)

  /**
   * What went wrong. `IndexOutOfBounds` carries a value and the index after
   * its conversion to `usize`; `IOError` stands for any failed read of
   * standard input (the `io::Error` itself is not modelled).
   */
  datatype ErrorKind =
    | UnknownVariable(name: string)
    | UnexpectedType(expected: string, actual: Value)
    | IndexOutOfBounds(value: Value, index: nat)
    | IndexUnindexable(value: Value)
    | IOError

  /** An error kind together with the statement that was executing. */
  datatype Error = Error(kind: ErrorKind, statement: Statement)
}
