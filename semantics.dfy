/**
 * The evaluator of src/state.rs as pure functions over the symbol table.
 *
 * Each read-only operation (`get`, `list_index`) is a function of the
 * table. Each operation that updates the table in place (`assign`,
 * `delete`, `input`, `list_append`, `list_assign`, `list_delete`) is a
 * function from the old table to `Ok(new table)` or to `Err(kind)`: none
 * of them writes anything before it can fail, so an error always leaves
 * the table as it was. `Exec`, `Run` and `Loop` give the meaning of
 * `execute`, `run` and `exec_while` over a whole `Config` (table, pending
 * standard input, printed values); the class `Interpreter.State` is
 * proved to follow them. `Exec` runs the corrected `list_assign`
 * (`ListAssign`), not the one at src/state.rs:160 (`ListAssignAsWritten`).
 */
module Semantics {
  import opened Lang

  /** The symbol table: one flat namespace from names to values. */
  type Symbols = map<string, Value>

  /**
   * `Expression::evaluate`, which only reads the table. Its definition is
   * not part of this model, so every operation takes it as a parameter
   * and every property below holds for all evaluators.
   */
  type Evaluator = (Expression, Symbols) -> Result<Value, ErrorKind>

  /** Number of values of a 64-bit `usize`. */
  const UsizeModulus: int := 0x1_0000_0000_0000_0000

  /** The range of the `i64` carried by `Value::Int`. */
  predicate IsI64(i: int) {
    -0x8000_0000_0000_0000 <= i < 0x8000_0000_0000_0000
  }

  /** Rust's `i as usize` from `i64` on a 64-bit target: the bits reread as unsigned. */
  function AsUsize(i: int): (n: nat)
    ensures 0 <= i < UsizeModulus ==> n == i
    ensures -UsizeModulus <= i < 0 ==> n == i + UsizeModulus
  {
    i % UsizeModulus
  }

  /** `try_int`: evaluate, then insist on an integer. */
  function TryInt(eval: Evaluator, e: Expression, st: Symbols): Result<int, ErrorKind> {
    match eval(e, st)
    case Err(k) => Err(k)
    case Ok(Int(i)) => Ok(i)
    case Ok(v) => Err(UnexpectedType("int", v))
  }

  /** `try_bool`: evaluate, then insist on a boolean. */
  function TryBool(eval: Evaluator, e: Expression, st: Symbols): Result<bool, ErrorKind> {
    match eval(e, st)
    case Err(k) => Err(k)
    case Ok(Bool(b)) => Ok(b)
    case Ok(v) => Err(UnexpectedType("bool", v))
  }

  /** Two tables bind every name outside `written` in the same way. */
  ghost predicate Agree(a: Symbols, b: Symbols, written: set<string>) {
    forall x :: x !in written ==> Get(a, x) == Get(b, x)
  }

  /** `l2` is `l1` with the element at `k` taken out and the rest closed up. */
  ghost predicate RemovedAt(l1: seq<Value>, l2: seq<Value>, k: nat) {
    && k < |l1|
    && |l2| == |l1| - 1
    && (forall j :: 0 <= j < k ==> l2[j] == l1[j])
    && (forall j :: k <= j < |l2| ==> l2[j] == l1[j + 1])
  }

  /** `l2` is `l1` with the element at `k` replaced by `v`. */
  ghost predicate ReplacedAt(l1: seq<Value>, l2: seq<Value>, k: nat, v: Value) {
    && k < |l1|
    && |l2| == |l1|
    && l2[k] == v
    && (forall j :: 0 <= j < |l1| && j != k ==> l2[j] == l1[j])
  }

  // ---------------------------------------------------------------------
  // Reads
  // ---------------------------------------------------------------------

  /** `get` (and its `&mut` twin `get_value`): the bound value, or `UnknownVariable`. */
  function Get(st: Symbols, name: string): (r: Result<Value, ErrorKind>)
    ensures r.Ok? <==> name in st
    ensures r.Ok? ==> r.value == st[name]
    ensures r.Err? ==> r.error == UnknownVariable(name)
  {
    if name in st then Ok(st[name]) else Err(UnknownVariable(name))
  }

  /**
   * `list_index`: the element of a list, or the one-character string at a
   * character position of a string. The index expression is evaluated
   * before the name is looked up, and a non-integer index is only noticed
   * once the name has turned out to be indexable.
   */
  function ListIndex(eval: Evaluator, st: Symbols, name: string, exp: Expression): (r: Result<Value, ErrorKind>)
    ensures eval(exp, st).Err? ==> r == Err(eval(exp, st).error)
    ensures eval(exp, st).Ok? && name !in st ==> r == Err(UnknownVariable(name))
    ensures eval(exp, st).Ok? && name in st && !st[name].List? && !st[name].Str?
      ==> r == Err(IndexUnindexable(st[name]))
    ensures eval(exp, st).Ok? && name in st && (st[name].List? || st[name].Str?) && !eval(exp, st).value.Int?
      ==> r == Err(UnexpectedType("int", eval(exp, st).value))
    ensures r.Ok? && st[name].Str? ==> r.value.Str? && |r.value.s| == 1
    ensures eval(exp, st).Ok? && r.Err? && r.error.IndexOutOfBounds? ==> r.error.value == eval(exp, st).value
  {
    match eval(exp, st)
    case Err(k) => Err(k)
    case Ok(index) =>
      if name !in st then Err(UnknownVariable(name))
      else match st[name]
        case List(l) =>
          if index.Int? then
            var n := AsUsize(index.i);
            if n < |l| then Ok(l[n]) else Err(IndexOutOfBounds(index, n))
          else Err(UnexpectedType("int", index))
        case Str(s) =>
          if index.Int? then
            var n := AsUsize(index.i);
            if n < |s| then Ok(Str([s[n]])) else Err(IndexOutOfBounds(index, n))
          else Err(UnexpectedType("int", index))
        case _ => Err(IndexUnindexable(st[name]))
  }

  /** `get_list`: the list bound to `name`; a string is not a list here. */
  function GetList(st: Symbols, name: string): (r: Result<seq<Value>, ErrorKind>)
    ensures r.Ok? <==> name in st && st[name].List?
    ensures r.Ok? ==> st[name] == List(r.value)
    ensures name !in st ==> r == Err(UnknownVariable(name))
    ensures name in st && !st[name].List? ==> r == Err(IndexUnindexable(st[name]))
  {
    match Get(st, name)
    case Err(k) => Err(k)
    case Ok(List(l)) => Ok(l)
    case Ok(v) => Err(IndexUnindexable(v))
  }

  /**
   * `get_list_element` with the bounds check the other index operations
   * use (`index < len`): the position of the element to overwrite. The
   * index is converted before the name is looked up.
   */
  function GetListElement(eval: Evaluator, st: Symbols, name: string, index: Expression): (r: Result<nat, ErrorKind>)
    ensures TryInt(eval, index, st).Err? ==> r == Err(TryInt(eval, index, st).error)
    ensures TryInt(eval, index, st).Ok? ==> (r.Ok? <==> GetList(st, name).Ok? && AsUsize(TryInt(eval, index, st).value) < |GetList(st, name).value|)
    ensures r.Ok? ==> r.value == AsUsize(TryInt(eval, index, st).value) && r.value < |st[name].items|
    ensures TryInt(eval, index, st).Ok? && GetList(st, name).Err? ==> r == Err(GetList(st, name).error)
    ensures TryInt(eval, index, st).Ok? && GetList(st, name).Ok? && r.Err?
      ==> r.error == IndexOutOfBounds(st[name], AsUsize(TryInt(eval, index, st).value))
  {
    match TryInt(eval, index, st)
    case Err(k) => Err(k)
    case Ok(i) =>
      var n := AsUsize(i);
      match Get(st, name)
      case Err(k) => Err(k)
      case Ok(v) =>
        if v.List? then
          if n < |v.items| then Ok(n) else Err(IndexOutOfBounds(v, n))
        else Err(IndexUnindexable(v))
  }

  /** The outcome of code that can panic (abort the process) instead of returning. */
  datatype Guarded<+T> = Returned(value: T) | Panicked

  /**
   * `get_list_element` as written: its check `list.len() < index` is the
   * wrong way round, so an in-range index is refused, and an index past
   * the end reaches `&mut list[index]`, which panics.
   */
  function GetListElementAsWritten(eval: Evaluator, st: Symbols, name: string, index: Expression): (r: Guarded<Result<nat, ErrorKind>>)
    ensures !(r.Returned? && r.value.Ok?)
    ensures r.Panicked? <==> TryInt(eval, index, st).Ok? && GetList(st, name).Ok?
                             && AsUsize(TryInt(eval, index, st).value) > |GetList(st, name).value|
  {
    match TryInt(eval, index, st)
    case Err(k) => Returned(Err(k))
    case Ok(i) =>
      var n := AsUsize(i);
      match Get(st, name)
      case Err(k) => Returned(Err(k))
      case Ok(v) =>
        if v.List? then
          if |v.items| < n then Panicked else Returned(Err(IndexOutOfBounds(v, n)))
        else Returned(Err(IndexUnindexable(v)))
  }

  // ---------------------------------------------------------------------
  // Updates of the table
  // ---------------------------------------------------------------------

  /** `assign`: bind the value of `exp`, overwriting any earlier binding. */
  function Assign(eval: Evaluator, st: Symbols, name: string, exp: Expression): (r: Result<Symbols, ErrorKind>)
    ensures r.Ok? <==> eval(exp, st).Ok?
    ensures r.Err? ==> r.error == eval(exp, st).error
    ensures r.Ok? ==> Get(r.value, name) == eval(exp, st) && Agree(r.value, st, {name})
  {
    match eval(exp, st)
    case Err(k) => Err(k)
    case Ok(v) => Ok(st[name := v])
  }

  /** `delete`: remove the binding of `name`, which must exist. */
  function Delete(st: Symbols, name: string): (r: Result<Symbols, ErrorKind>)
    ensures r.Ok? <==> name in st
    ensures r.Err? ==> r.error == UnknownVariable(name)
    ensures r.Ok? ==> Get(r.value, name) == Err(UnknownVariable(name)) && Agree(r.value, st, {name})
    ensures r.Ok? ==> |r.value| == |st| - 1
  {
    if name in st then Ok(st - {name}) else Err(UnknownVariable(name))
  }

  /** The `ListNew` branch of `execute`: bind a fresh empty list, whatever was there. */
  function ListNew(st: Symbols, name: string): (r: Symbols)
    ensures Get(r, name) == Ok(List([]))
    ensures Agree(r, st, {name})
  {
    st[name := List([])]
  }

  /** One attempt to read a line of standard input. */
  datatype ReadResult = Read(text: string) | ReadFailed

  /** `char::is_whitespace`: the characters with the Unicode White_Space property. */
  predicate IsWhitespace(c: char) {
    || ('\t' <= c <= '\r') || c == ' ' || c == '\U{0085}' || c == '\U{00A0}' || c == '\U{1680}'
    || ('\U{2000}' <= c <= '\U{200A}') || c == '\U{2028}' || c == '\U{2029}'
    || c == '\U{202F}' || c == '\U{205F}' || c == '\U{3000}'
  }

  /** How many whitespace characters `s` starts with. */
  function LeadingWhitespace(s: string): (n: nat)
    ensures n <= |s|
    ensures forall j :: 0 <= j < n ==> IsWhitespace(s[j])
    ensures n < |s| ==> !IsWhitespace(s[n])
  {
    if s == [] || !IsWhitespace(s[0]) then 0 else 1 + LeadingWhitespace(s[1..])
  }

  /** How many whitespace characters `s` ends with. */
  function TrailingWhitespace(s: string): (n: nat)
    ensures n <= |s|
    ensures forall j :: |s| - n <= j < |s| ==> IsWhitespace(s[j])
    ensures n < |s| ==> !IsWhitespace(s[|s| - n - 1])
  {
    if s == [] || !IsWhitespace(s[|s| - 1]) then 0 else 1 + TrailingWhitespace(s[..|s| - 1])
  }

  /** `str::trim`: `s` without its leading and trailing whitespace. */
  function Trim(s: string): (r: string)
    ensures LeadingWhitespace(s) + |r| <= |s|
    ensures r != [] ==> !IsWhitespace(r[0]) && !IsWhitespace(r[|r| - 1])
    ensures forall j :: 0 <= j < |r| ==> r[j] == s[LeadingWhitespace(s) + j]
    ensures forall j :: LeadingWhitespace(s) + |r| <= j < |s| ==> IsWhitespace(s[j])
    ensures r == [] <==> forall j :: 0 <= j < |s| ==> IsWhitespace(s[j])
  {
    var t := s[LeadingWhitespace(s)..];
    t[..|t| - TrailingWhitespace(t)]
  }

  /** `input`, given what the read of standard input produced: bind the trimmed line as a string. */
  function Input(st: Symbols, name: string, line: ReadResult): (r: Result<Symbols, ErrorKind>)
    ensures r.Ok? <==> line.Read?
    ensures r.Err? ==> r.error == IOError
    ensures r.Ok? ==> Get(r.value, name) == Ok(Str(Trim(line.text))) && Agree(r.value, st, {name})
  {
    match line
    case ReadFailed => Err(IOError)
    case Read(text) => Ok(st[name := Str(Trim(text))])
  }

  /** `list_append`: evaluate, then push onto the list bound to `name`. */
  function ListAppend(eval: Evaluator, st: Symbols, name: string, exp: Expression): (r: Result<Symbols, ErrorKind>)
    ensures eval(exp, st).Err? ==> r == Err(eval(exp, st).error)
    ensures eval(exp, st).Ok? && GetList(st, name).Err? ==> r == Err(GetList(st, name).error)
    ensures r.Ok? <==> eval(exp, st).Ok? && GetList(st, name).Ok?
    ensures r.Ok? ==> Get(r.value, name) == Ok(List(GetList(st, name).value + [eval(exp, st).value]))
    ensures r.Ok? ==> Agree(r.value, st, {name})
  {
    match eval(exp, st)
    case Err(k) => Err(k)
    case Ok(v) =>
      match GetList(st, name)
      case Err(k) => Err(k)
      case Ok(l) => Ok(st[name := List(l + [v])])
  }

  /**
   * `list_assign` with the bounds check corrected (see
   * `ListAssignAsWritten`): the value is evaluated first, then the
   * element is located, then overwritten.
   */
  function ListAssign(eval: Evaluator, st: Symbols, name: string, index: Expression, exp: Expression): (r: Result<Symbols, ErrorKind>)
    ensures eval(exp, st).Err? ==> r == Err(eval(exp, st).error)
    ensures eval(exp, st).Ok? && GetListElement(eval, st, name, index).Err?
      ==> r == Err(GetListElement(eval, st, name, index).error)
    ensures r.Ok? <==> eval(exp, st).Ok? && GetListElement(eval, st, name, index).Ok?
    ensures r.Ok? ==> (name in st && st[name].List? && name in r.value && r.value[name].List?
      && ReplacedAt(st[name].items, r.value[name].items, GetListElement(eval, st, name, index).value, eval(exp, st).value))
    ensures r.Ok? ==> Agree(r.value, st, {name})
  {
    match eval(exp, st)
    case Err(k) => Err(k)
    case Ok(v) =>
      match GetListElement(eval, st, name, index)
      case Err(k) => Err(k)
      case Ok(n) => Ok(st[name := List(st[name].items[n := v])])
  }

  /** `list_assign` exactly as written: it never stores anything. */
  function ListAssignAsWritten(eval: Evaluator, st: Symbols, name: string, index: Expression, exp: Expression): (r: Guarded<Result<Symbols, ErrorKind>>)
    ensures !(r.Returned? && r.value.Ok?)
    ensures r.Panicked? <==> eval(exp, st).Ok? && GetListElementAsWritten(eval, st, name, index).Panicked?
  {
    match eval(exp, st)
    case Err(k) => Returned(Err(k))
    case Ok(v) =>
      match GetListElementAsWritten(eval, st, name, index)
      case Panicked => Panicked
      case Returned(Err(k)) => Returned(Err(k))
      case Returned(Ok(_)) => assert false; Panicked
  }

  /**
   * `list_delete`: the index is evaluated first, then the list looked up,
   * and only then is the index required to be an integer.
   */
  function ListDelete(eval: Evaluator, st: Symbols, name: string, index: Expression): (r: Result<Symbols, ErrorKind>)
    ensures eval(index, st).Err? ==> r == Err(eval(index, st).error)
    ensures eval(index, st).Ok? && GetList(st, name).Err? ==> r == Err(GetList(st, name).error)
    ensures eval(index, st).Ok? && GetList(st, name).Ok? && !eval(index, st).value.Int?
      ==> r == Err(UnexpectedType("int", eval(index, st).value))
    ensures r.Ok? ==> (name in st && st[name].List? && name in r.value && r.value[name].List?
      && RemovedAt(st[name].items, r.value[name].items, AsUsize(eval(index, st).value.i)))
    ensures r.Ok? ==> Agree(r.value, st, {name})
    ensures eval(index, st).Ok? && GetList(st, name).Ok? && eval(index, st).value.Int?
      ==> (r.Ok? <==> AsUsize(eval(index, st).value.i) < |GetList(st, name).value|)
    ensures eval(index, st).Ok? && GetList(st, name).Ok? && eval(index, st).value.Int?
      && AsUsize(eval(index, st).value.i) >= |GetList(st, name).value|
      ==> r == Err(IndexOutOfBounds(st[name], AsUsize(eval(index, st).value.i)))
  {
    match eval(index, st)
    case Err(k) => Err(k)
    case Ok(iv) =>
      match GetList(st, name)
      case Err(k) => Err(k)
      case Ok(l) =>
        if iv.Int? then
          var n := AsUsize(iv.i);
          if n < |l| then Ok(st[name := List(l[..n] + l[n + 1..])])
          else Err(IndexOutOfBounds(List(l), n))
        else Err(UnexpectedType("int", iv))
  }

  // ---------------------------------------------------------------------
  // Statements
  // ---------------------------------------------------------------------

  /** Everything a running program affects: the table, unread input, printed values. */
  datatype Config = Config(symbols: Symbols, stdin: seq<ReadResult>, stdout: seq<Value>)

  /** What the next read of standard input yields; at end of input, an empty line. */
  function NextLine(stdin: seq<ReadResult>): ReadResult {
    if stdin == [] then Read("") else stdin[0]
  }

  /** Standard input after one read. */
  function AfterRead(stdin: seq<ReadResult>): seq<ReadResult> {
    if stdin == [] then [] else stdin[1..]
  }

  /**
   * The result of executing statements under a fuel bound: every body an
   * `if`, `while` or `catch` runs costs one unit, so fuel bounds how deep
   * bodies nest plus how often loops iterate. `OutOfFuel` means the bound
   * was too small; the program itself has no such outcome.
   */
  datatype Outcome = Done(config: Config, result: Result<(), Error>) | OutOfFuel

  /** `try_nop_error!`: drop the operation's value, or attach the failing statement to its error kind. */
  function WithStatement<T>(r: Result<T, ErrorKind>, s: Statement): Result<(), Error> {
    match r
    case Ok(_) => Ok(())
    case Err(k) => Err(Error(k, s))
  }

  /** The `try_nop_error!` step of `execute`: commit the new table, or wrap the error with `s`. */
  function Commit(c: Config, s: Statement, r: Result<Symbols, ErrorKind>): Outcome {
    match r
    case Ok(st) => Done(c.(symbols := st), Ok(()))
    case Err(_) => Done(c, WithStatement(r, s))
  }

  /** `execute`: one statement. */
  function Exec(eval: Evaluator, c: Config, s: Statement, fuel: nat): Outcome
    decreases fuel, 0, 1
  {
    match s
    case Input(name) =>
      Commit(c.(stdin := AfterRead(c.stdin)), s, Input(c.symbols, name, NextLine(c.stdin)))
    case ListAssign(name, index, value) => Commit(c, s, ListAssign(eval, c.symbols, name, index, value))
    case ListAppend(name, value) => Commit(c, s, ListAppend(eval, c.symbols, name, value))
    case ListDelete(name, index) => Commit(c, s, ListDelete(eval, c.symbols, name, index))
    case ListNew(name) => Done(c.(symbols := ListNew(c.symbols, name)), Ok(()))
    case If(cond, thenBody, elseBody) =>
      (match eval(cond, c.symbols)
       case Err(k) => Done(c, Err(Error(k, s)))
       case Ok(Bool(b)) =>
         if !b && elseBody.None? then Done(c, Ok(()))
         else if fuel == 0 then OutOfFuel
         else if b then Run(eval, c, thenBody, fuel - 1)
         else Run(eval, c, elseBody.block, fuel - 1)
       case Ok(v) => Done(c, Err(Error(UnexpectedType("bool", v), s))))
    case While(_, _) => Loop(eval, c, s, fuel)
    case Assignment(name, value) => Commit(c, s, Assign(eval, c.symbols, name, value))
    case Delete(name) => Commit(c, s, Delete(c.symbols, name))
    case Print(value) =>
      (match eval(value, c.symbols)
       case Err(k) => Done(c, Err(Error(k, s)))
       case Ok(v) => Done(c.(stdout := c.stdout + [v]), Ok(())))
    case Catch(tryBody, catchBody) =>
      if fuel == 0 then OutOfFuel
      else
        match Run(eval, c, tryBody, fuel - 1)
        case Done(c', Err(_)) => Run(eval, c', catchBody, fuel - 1)
        case other => other
  }

  /** `exec_while`: test the condition, run the body, test again; each iteration costs one unit of fuel. */
  function Loop(eval: Evaluator, c: Config, s: Statement, fuel: nat): Outcome
    requires s.While?
    decreases fuel, 0, 0
  {
    match TryBool(eval, s.cond, c.symbols)
    case Err(k) => Done(c, Err(Error(k, s)))
    case Ok(b) =>
      if !b then Done(c, Ok(()))
      else if fuel == 0 then OutOfFuel
      else
        match Run(eval, c, s.body, fuel - 1)
        case Done(c', Ok(_)) => Loop(eval, c', s, fuel - 1)
        case other => other
  }

  /** `run`: the statements in order, stopping at the first error. */
  function Run(eval: Evaluator, c: Config, ss: seq<Statement>, fuel: nat): Outcome
    decreases fuel, |ss| + 1, 0
  {
    if ss == [] then Done(c, Ok(()))
    else
      match Exec(eval, c, ss[0], fuel)
      case Done(c', Ok(_)) => Run(eval, c', ss[1..], fuel)
      case other => other
  }
}
