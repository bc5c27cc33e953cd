/**
 * Properties of the evaluator that relate several operations or several
 * statements: reading back what was written, sequencing, error
 * propagation, `catch` without rollback, loops, fuel, and which names a
 * statement can change.
 */
module Properties {
  import opened Lang
  import opened Semantics

  // ---------------------------------------------------------------------
  // Indexing
  // ---------------------------------------------------------------------

  /**
   * Indexing a list with an `i64`: in range it yields the element, out of
   * range (negative included, as the cast to `usize` makes it huge) it
   * fails with the index value and the converted index.
   */
  lemma ListIndexOnList(eval: Evaluator, st: Symbols, name: string, exp: Expression, i: int)
    requires eval(exp, st) == Ok(Int(i)) && IsI64(i)
    requires name in st && st[name].List? && |st[name].items| < 0x8000_0000_0000_0000
    ensures 0 <= i < |st[name].items| ==> Semantics.ListIndex(eval, st, name, exp) == Ok(st[name].items[i])
    ensures !(0 <= i < |st[name].items|) ==> Semantics.ListIndex(eval, st, name, exp) == Err(IndexOutOfBounds(Int(i), AsUsize(i)))
  {
  }

  /** Indexing a string yields the one-character string at that character position. */
  lemma ListIndexOnStr(eval: Evaluator, st: Symbols, name: string, exp: Expression, i: int)
    requires eval(exp, st) == Ok(Int(i)) && IsI64(i)
    requires name in st && st[name].Str? && |st[name].s| < 0x8000_0000_0000_0000
    ensures 0 <= i < |st[name].s| ==> Semantics.ListIndex(eval, st, name, exp) == Ok(Str([st[name].s[i]]))
    ensures !(0 <= i < |st[name].s|) ==> Semantics.ListIndex(eval, st, name, exp) == Err(IndexOutOfBounds(Int(i), AsUsize(i)))
  {
  }

  /** After an append, the old elements are where they were and the new one is at the old length. */
  lemma AppendThenIndex(eval: Evaluator, st: Symbols, name: string, exp: Expression, index: Expression, k: int)
    requires Semantics.ListAppend(eval, st, name, exp).Ok?
    requires eval(index, Semantics.ListAppend(eval, st, name, exp).value) == Ok(Int(k))
    requires IsI64(k) && 0 <= k <= |st[name].items|
    ensures Semantics.ListIndex(eval, Semantics.ListAppend(eval, st, name, exp).value, name, index)
      == Ok(if k < |st[name].items| then st[name].items[k] else eval(exp, st).value)
  {
  }

  /** After a (corrected) element assignment, the same index reads back the assigned value. */
  lemma AssignThenIndex(eval: Evaluator, st: Symbols, name: string, index: Expression, exp: Expression, index': Expression)
    requires Semantics.ListAssign(eval, st, name, index, exp).Ok?
    requires eval(index', Semantics.ListAssign(eval, st, name, index, exp).value) == eval(index, st)
    ensures Semantics.ListIndex(eval, Semantics.ListAssign(eval, st, name, index, exp).value, name, index') == Ok(eval(exp, st).value)
  {
  }

  /** After deleting element `k`, the elements before it stay and the ones after it move down by one. */
  lemma DeleteThenIndex(eval: Evaluator, st: Symbols, name: string, index: Expression, index': Expression, j: int)
    requires Semantics.ListDelete(eval, st, name, index).Ok?
    requires eval(index', Semantics.ListDelete(eval, st, name, index).value) == Ok(Int(j))
    requires IsI64(j) && 0 <= j < |st[name].items| - 1
    ensures Semantics.ListIndex(eval, Semantics.ListDelete(eval, st, name, index).value, name, index')
      == Ok(if j < AsUsize(eval(index, st).value.i) then st[name].items[j] else st[name].items[j + 1])
  {
  }

  /**
   * `list_assign` as written against the corrected one, for every
   * non-negative index into a list: as written it refuses every index up
   * to the length and panics beyond it; corrected, it stores exactly the
   * in-range ones.
   */
  lemma ListAssignAsWrittenOutcomes(eval: Evaluator, st: Symbols, name: string, index: Expression, exp: Expression, i: int)
    requires eval(exp, st).Ok? && eval(index, st) == Ok(Int(i)) && IsI64(i) && 0 <= i
    requires name in st && st[name].List?
    ensures i <= |st[name].items| ==> ListAssignAsWritten(eval, st, name, index, exp) == Returned(Err(IndexOutOfBounds(st[name], i)))
    ensures i > |st[name].items| ==> ListAssignAsWritten(eval, st, name, index, exp) == Panicked
    ensures i < |st[name].items| <==> Semantics.ListAssign(eval, st, name, index, exp).Ok?
    ensures i >= |st[name].items| ==> Semantics.ListAssign(eval, st, name, index, exp) == Err(IndexOutOfBounds(st[name], i))
  {
  }

  /** The smallest case: `xs` bound to `[7]`, then `xs[0] squanch 1`. */
  lemma ListAssignInRangeRefused(eval: Evaluator)
    requires eval(Literal(Int(0)), map["xs" := List([Int(7)])]) == Ok(Int(0))
    requires eval(Literal(Int(1)), map["xs" := List([Int(7)])]) == Ok(Int(1))
    ensures ListAssignAsWritten(eval, map["xs" := List([Int(7)])], "xs", Literal(Int(0)), Literal(Int(1)))
      == Returned(Err(IndexOutOfBounds(List([Int(7)]), 0)))
    ensures Semantics.ListAssign(eval, map["xs" := List([Int(7)])], "xs", Literal(Int(0)), Literal(Int(1)))
      == Ok(map["xs" := List([Int(1)])])
  {
    var st := map["xs" := List([Int(7)])];
    assert TryInt(eval, Literal(Int(0)), st) == Ok(0);
    assert GetListElementAsWritten(eval, st, "xs", Literal(Int(0))) == Returned(Err(IndexOutOfBounds(List([Int(7)]), 0)));
    assert [Int(7)][0 := Int(1)] == [Int(1)];
    assert st["xs" := List([Int(7)][0 := Int(1)])] == map["xs" := List([Int(1)])];
  }

  // ---------------------------------------------------------------------
  // Sequencing
  // ---------------------------------------------------------------------

  /** Continue with `ss` only if what came before succeeded. */
  function AndThen(eval: Evaluator, o: Outcome, ss: seq<Statement>, fuel: nat): Outcome {
    match o
    case Done(c, Ok(_)) => Run(eval, c, ss, fuel)
    case other => other
  }

  /** `run([])` changes nothing; running `ss1 + ss2` runs `ss2` exactly when `ss1` succeeded. */
  lemma {:induction false} RunAppend(eval: Evaluator, c: Config, ss1: seq<Statement>, ss2: seq<Statement>, fuel: nat)
    ensures Run(eval, c, [], fuel) == Done(c, Ok(()))
    ensures Run(eval, c, ss1 + ss2, fuel) == AndThen(eval, Run(eval, c, ss1, fuel), ss2, fuel)
    decreases |ss1|
  {
    if ss1 == [] {
      assert ss1 + ss2 == ss2;
    } else {
      assert (ss1 + ss2)[0] == ss1[0];
      assert (ss1 + ss2)[1..] == ss1[1..] + ss2;
      match Exec(eval, c, ss1[0], fuel)
      case Done(c', Ok(_)) =>
        RunAppend(eval, c', ss1[1..], ss2, fuel);
      case _ =>
    }
  }

  /**
   * `run` stops at the first error: when the first `k` statements succeed
   * and statement `k` fails, the whole run ends with that error, in that
   * state, and nothing after statement `k` runs.
   */
  lemma RunStopsAtFirstError(eval: Evaluator, c: Config, ss: seq<Statement>, k: nat, fuel: nat)
    requires k < |ss|
    requires Run(eval, c, ss[..k], fuel).Done? && Run(eval, c, ss[..k], fuel).result.Ok?
    requires Exec(eval, Run(eval, c, ss[..k], fuel).config, ss[k], fuel).Done?
    requires Exec(eval, Run(eval, c, ss[..k], fuel).config, ss[k], fuel).result.Err?
    ensures Run(eval, c, ss, fuel) == Exec(eval, Run(eval, c, ss[..k], fuel).config, ss[k], fuel)
  {
    assert ss == ss[..k] + ss[k..];
    RunAppend(eval, c, ss[..k], ss[k..], fuel);
    assert ss[k..][0] == ss[k];
  }

  // ---------------------------------------------------------------------
  // Control flow
  // ---------------------------------------------------------------------

  /**
   * A statement without a body ends with the result of its operation,
   * its error paired with the statement itself; on error the table is
   * left as it was.
   */
  lemma SimpleErrorsCarryStatement(eval: Evaluator, c: Config, s: Statement, fuel: nat)
    requires !s.If? && !s.While? && !s.Catch?
    ensures Exec(eval, c, s, fuel).Done?
    ensures s.Assignment? ==> Exec(eval, c, s, fuel).result == WithStatement(Semantics.Assign(eval, c.symbols, s.name, s.value), s)
    ensures s.Delete? ==> Exec(eval, c, s, fuel).result == WithStatement(Semantics.Delete(c.symbols, s.name), s)
    ensures s.Input? ==> Exec(eval, c, s, fuel).result == WithStatement(Semantics.Input(c.symbols, s.name, NextLine(c.stdin)), s)
    ensures s.ListAppend? ==> Exec(eval, c, s, fuel).result == WithStatement(Semantics.ListAppend(eval, c.symbols, s.name, s.value), s)
    ensures s.ListAssign? ==> Exec(eval, c, s, fuel).result == WithStatement(Semantics.ListAssign(eval, c.symbols, s.name, s.index, s.value), s)
    ensures s.ListDelete? ==> Exec(eval, c, s, fuel).result == WithStatement(Semantics.ListDelete(eval, c.symbols, s.name, s.index), s)
    ensures s.Print? && eval(s.value, c.symbols).Err? ==> Exec(eval, c, s, fuel).result == Err(Error(eval(s.value, c.symbols).error, s))
    ensures s.ListNew? ==> Exec(eval, c, s, fuel).result == Ok(())
    ensures Exec(eval, c, s, fuel).result.Err? ==> Exec(eval, c, s, fuel).result.error.statement == s
    ensures Exec(eval, c, s, fuel).result.Err? ==> Exec(eval, c, s, fuel).config.symbols == c.symbols
  {
  }

  /** An error evaluating the condition of `if` or `while` is paired with that statement, and no body runs. */
  lemma ConditionErrorCarriesStatement(eval: Evaluator, c: Config, cond: Expression, k: ErrorKind,
                                       thenBody: seq<Statement>, elseBody: OptionalBlock, body: seq<Statement>, fuel: nat)
    requires eval(cond, c.symbols) == Err(k)
    ensures Exec(eval, c, If(cond, thenBody, elseBody), fuel) == Done(c, Err(Error(k, If(cond, thenBody, elseBody))))
    ensures Exec(eval, c, While(cond, body), fuel) == Done(c, Err(Error(k, While(cond, body))))
  {
  }

  /** `exec_if` and `exec_while` insist on a boolean condition and run no body otherwise. */
  lemma ConditionMustBeBool(eval: Evaluator, c: Config, cond: Expression, v: Value,
                            thenBody: seq<Statement>, elseBody: OptionalBlock, body: seq<Statement>, fuel: nat)
    requires eval(cond, c.symbols) == Ok(v) && !v.Bool?
    ensures Exec(eval, c, If(cond, thenBody, elseBody), fuel)
      == Done(c, Err(Error(UnexpectedType("bool", v), If(cond, thenBody, elseBody))))
    ensures Exec(eval, c, While(cond, body), fuel)
      == Done(c, Err(Error(UnexpectedType("bool", v), While(cond, body))))
  {
  }

  /** A false condition: an `if` without else and a `while` change nothing and succeed. */
  lemma FalseConditionIsNoop(eval: Evaluator, c: Config, cond: Expression, thenBody: seq<Statement>, body: seq<Statement>, fuel: nat)
    requires eval(cond, c.symbols) == Ok(Bool(false))
    ensures Exec(eval, c, If(cond, thenBody, None), fuel) == Done(c, Ok(()))
    ensures Exec(eval, c, While(cond, body), fuel) == Done(c, Ok(()))
  {
  }

  /**
   * One iteration of `while`: with a true condition the body runs, an error
   * from it comes out unchanged, and after success the condition is
   * tested again.
   */
  lemma WhileIterates(eval: Evaluator, c: Config, cond: Expression, body: seq<Statement>, fuel: nat)
    requires eval(cond, c.symbols) == Ok(Bool(true)) && fuel > 0
    ensures Exec(eval, c, While(cond, body), fuel)
      == match Run(eval, c, body, fuel - 1)
         case Done(c', Ok(_)) => Exec(eval, c', While(cond, body), fuel - 1)
         case other => other
  {
  }

  /**
   * A loop whose body makes its condition false stops after that one
   * iteration, given any fuel beyond what the body needed.
   */
  lemma WhileExitsOnceFalse(eval: Evaluator, c: Config, cond: Expression, body: seq<Statement>, k: nat, fuel: nat)
    requires eval(cond, c.symbols) == Ok(Bool(true))
    requires Run(eval, c, body, k).Done? && Run(eval, c, body, k).result.Ok?
    requires eval(cond, Run(eval, c, body, k).config.symbols) == Ok(Bool(false))
    requires k < fuel
    ensures Exec(eval, c, While(cond, body), fuel) == Done(Run(eval, c, body, k).config, Ok(()))
  {
    var w := While(cond, body);
    RunFuel(eval, c, body, k, fuel - 1);
    var c' := Run(eval, c, body, k).config;
    assert Loop(eval, c', w, fuel - 1) == Done(c', Ok(()));
    assert Loop(eval, c, w, fuel) == Loop(eval, c', w, fuel - 1);
  }

  /** `catch` whose try body succeeds never runs its catch body. */
  lemma CatchSkipsHandler(eval: Evaluator, c: Config, tryBody: seq<Statement>, catchBody: seq<Statement>, fuel: nat)
    requires fuel > 0
    requires Run(eval, c, tryBody, fuel - 1).Done? && Run(eval, c, tryBody, fuel - 1).result.Ok?
    ensures Exec(eval, c, Catch(tryBody, catchBody), fuel) == Run(eval, c, tryBody, fuel - 1)
  {
  }

  /**
   * `catch` does not roll back: when statement `k` of the try body fails,
   * the error is dropped and the catch body starts from the state the
   * first `k` statements and the failing one left behind.
   */
  lemma CatchNoRollback(eval: Evaluator, c: Config, tryBody: seq<Statement>, catchBody: seq<Statement>, k: nat, fuel: nat)
    requires fuel > 0 && k < |tryBody|
    requires Run(eval, c, tryBody[..k], fuel - 1).Done? && Run(eval, c, tryBody[..k], fuel - 1).result.Ok?
    requires Exec(eval, Run(eval, c, tryBody[..k], fuel - 1).config, tryBody[k], fuel - 1).Done?
    requires Exec(eval, Run(eval, c, tryBody[..k], fuel - 1).config, tryBody[k], fuel - 1).result.Err?
    ensures Exec(eval, c, Catch(tryBody, catchBody), fuel)
      == Run(eval, Exec(eval, Run(eval, c, tryBody[..k], fuel - 1).config, tryBody[k], fuel - 1).config, catchBody, fuel - 1)
  {
    RunStopsAtFirstError(eval, c, tryBody, k, fuel - 1);
  }

  // ---------------------------------------------------------------------
  // Fuel
  // ---------------------------------------------------------------------

  /** A result reached with some fuel is the result with any more fuel. */
  lemma {:induction false} ExecFuel(eval: Evaluator, c: Config, s: Statement, f: nat, g: nat)
    requires f <= g && Exec(eval, c, s, f).Done?
    ensures Exec(eval, c, s, g) == Exec(eval, c, s, f)
    decreases f, 0, 1
  {
    match s
    case If(cond, thenBody, elseBody) =>
      if eval(cond, c.symbols).Ok? && eval(cond, c.symbols).value.Bool? {
        if eval(cond, c.symbols).value.b {
          RunFuel(eval, c, thenBody, f - 1, g - 1);
        } else if elseBody.Some? {
          RunFuel(eval, c, elseBody.block, f - 1, g - 1);
        }
      }
    case While(_, _) =>
      LoopFuel(eval, c, s, f, g);
    case Catch(tryBody, catchBody) =>
      RunFuel(eval, c, tryBody, f - 1, g - 1);
      match Run(eval, c, tryBody, f - 1) {
        case Done(c', Err(_)) =>
          RunFuel(eval, c', catchBody, f - 1, g - 1);
        case _ =>
      }
    case _ =>
  }

  lemma {:induction false} LoopFuel(eval: Evaluator, c: Config, s: Statement, f: nat, g: nat)
    requires s.While? && f <= g && Loop(eval, c, s, f).Done?
    ensures Loop(eval, c, s, g) == Loop(eval, c, s, f)
    decreases f, 0, 0
  {
    if TryBool(eval, s.cond, c.symbols) == Ok(true) {
      RunFuel(eval, c, s.body, f - 1, g - 1);
      match Run(eval, c, s.body, f - 1)
      case Done(c', Ok(_)) =>
        LoopFuel(eval, c', s, f - 1, g - 1);
      case _ =>
    }
  }

  lemma {:induction false} RunFuel(eval: Evaluator, c: Config, ss: seq<Statement>, f: nat, g: nat)
    requires f <= g && Run(eval, c, ss, f).Done?
    ensures Run(eval, c, ss, g) == Run(eval, c, ss, f)
    decreases f, |ss| + 1, 0
  {
    if ss != [] {
      ExecFuel(eval, c, ss[0], f, g);
      match Exec(eval, c, ss[0], f)
      case Done(c', Ok(_)) =>
        RunFuel(eval, c', ss[1..], f, g);
      case _ =>
    }
  }

  // ---------------------------------------------------------------------
  // What a statement can change
  // ---------------------------------------------------------------------

  /** The names a statement may bind, rebind or unbind, bodies included. */
  function Writes(s: Statement): set<string> {
    match s
    case Assignment(name, _) => {name}
    case Input(name) => {name}
    case Delete(name) => {name}
    case ListNew(name) => {name}
    case ListAppend(name, _) => {name}
    case ListAssign(name, _, _) => {name}
    case ListDelete(name, _) => {name}
    case Print(_) => {}
    case If(_, thenBody, elseBody) => BlockWrites(thenBody) + ElseWrites(elseBody)
    case While(_, body) => BlockWrites(body)
    case Catch(tryBody, catchBody) => BlockWrites(tryBody) + BlockWrites(catchBody)
  }

  function ElseWrites(e: OptionalBlock): set<string> {
    match e
    case None => {}
    case Some(b) => BlockWrites(b)
  }

  function BlockWrites(ss: seq<Statement>): set<string> {
    if ss == [] then {} else Writes(ss[0]) + BlockWrites(ss[1..])
  }

  /** `after` is what is left of `before` once some lines have been read. */
  ghost predicate Consumed(before: seq<ReadResult>, after: seq<ReadResult>) {
    |after| <= |before| && after == before[|before| - |after|..]
  }

  /**
   * From `c` to `c'`: every name outside `written` is bound as before,
   * output only grew at its end, and input was only read from its front.
   */
  ghost predicate Confined(c: Config, c': Config, written: set<string>) {
    && Agree(c'.symbols, c.symbols, written)
    && c.stdout <= c'.stdout
    && Consumed(c.stdin, c'.stdin)
  }

  lemma ConfinedTrans(c1: Config, c2: Config, c3: Config, w: set<string>, w': set<string>)
    requires Confined(c1, c2, w) && Confined(c2, c3, w')
    ensures Confined(c1, c3, w + w')
  {
  }

  /** A statement changes no binding outside `Writes(s)`, prints only at the end, reads only from the front. */
  lemma {:induction false} ExecFrame(eval: Evaluator, c: Config, s: Statement, fuel: nat)
    requires Exec(eval, c, s, fuel).Done?
    ensures Confined(c, Exec(eval, c, s, fuel).config, Writes(s))
    decreases fuel, 0, 1
  {
    match s
    case If(cond, thenBody, elseBody) =>
      if eval(cond, c.symbols).Ok? && eval(cond, c.symbols).value.Bool? {
        if eval(cond, c.symbols).value.b {
          RunFrame(eval, c, thenBody, fuel - 1);
        } else if elseBody.Some? {
          RunFrame(eval, c, elseBody.block, fuel - 1);
        }
      }
    case While(_, _) =>
      LoopFrame(eval, c, s, fuel);
    case Catch(tryBody, catchBody) =>
      RunFrame(eval, c, tryBody, fuel - 1);
      match Run(eval, c, tryBody, fuel - 1) {
        case Done(c', Err(_)) =>
          RunFrame(eval, c', catchBody, fuel - 1);
          ConfinedTrans(c, c', Exec(eval, c, s, fuel).config, BlockWrites(tryBody), BlockWrites(catchBody));
        case _ =>
      }
    case _ =>
      SimpleFrame(eval, c, s, fuel);
  }

  /**
   * The statements without a body always finish, change at most the one
   * name they mention, read at most one line and print at most one value.
   */
  lemma SimpleFrame(eval: Evaluator, c: Config, s: Statement, fuel: nat)
    requires !s.If? && !s.While? && !s.Catch?
    ensures Exec(eval, c, s, fuel).Done?
    ensures Confined(c, Exec(eval, c, s, fuel).config, Writes(s))
    ensures |Exec(eval, c, s, fuel).config.stdin| + 1 >= |c.stdin|
    ensures |Exec(eval, c, s, fuel).config.stdout| <= |c.stdout| + 1
  {
    match s
    case Input(name) =>
      assert Consumed(c.stdin, AfterRead(c.stdin));
    case ListAssign(name, index, value) =>
    case ListAppend(name, value) =>
    case ListDelete(name, index) =>
    case ListNew(name) =>
    case Assignment(name, value) =>
    case Delete(name) =>
    case Print(value) =>
  }

  lemma {:induction false} LoopFrame(eval: Evaluator, c: Config, s: Statement, fuel: nat)
    requires s.While? && Loop(eval, c, s, fuel).Done?
    ensures Confined(c, Loop(eval, c, s, fuel).config, BlockWrites(s.body))
    decreases fuel, 0, 0
  {
    if TryBool(eval, s.cond, c.symbols) == Ok(true) {
      RunFrame(eval, c, s.body, fuel - 1);
      match Run(eval, c, s.body, fuel - 1)
      case Done(c', Ok(_)) =>
        LoopFrame(eval, c', s, fuel - 1);
        ConfinedTrans(c, c', Loop(eval, c, s, fuel).config, BlockWrites(s.body), BlockWrites(s.body));
      case _ =>
    }
  }

  lemma {:induction false} RunFrame(eval: Evaluator, c: Config, ss: seq<Statement>, fuel: nat)
    requires Run(eval, c, ss, fuel).Done?
    ensures Confined(c, Run(eval, c, ss, fuel).config, BlockWrites(ss))
    decreases fuel, |ss| + 1, 0
  {
    if ss != [] {
      ExecFrame(eval, c, ss[0], fuel);
      match Exec(eval, c, ss[0], fuel)
      case Done(c', Ok(_)) =>
        RunFrame(eval, c', ss[1..], fuel);
        ConfinedTrans(c, c', Run(eval, c, ss, fuel).config, Writes(ss[0]), BlockWrites(ss[1..]));
      case _ =>
    }
  }

  /**
   * After `Delete(x)`, the name stays unknown through any statements that
   * never write it, whether they succeed or fail: every read of it fails
   * with `UnknownVariable` until it is bound again. (When the delete
   * itself fails, `x` was not bound to begin with.)
   */
  lemma DeletedStaysUnbound(eval: Evaluator, c: Config, x: string, ss: seq<Statement>, fuel: nat)
    requires x !in BlockWrites(ss)
    requires Run(eval, c, [Statement.Delete(x)] + ss, fuel).Done?
    ensures Get(Run(eval, c, [Statement.Delete(x)] + ss, fuel).config.symbols, x) == Err(UnknownVariable(x))
  {
    RunAppend(eval, c, [Statement.Delete(x)], ss, fuel);
    if x in c.symbols {
      var c1 := Exec(eval, c, Statement.Delete(x), fuel).config;
      assert Run(eval, c, [Statement.Delete(x)], fuel) == Run(eval, c1, [], fuel);
      RunFrame(eval, c1, ss, fuel);
    }
  }

  /** `show me what you got`: the value is appended to the output and nothing else changes. */
  lemma PrintWritesValue(eval: Evaluator, c: Config, exp: Expression, v: Value, fuel: nat)
    requires eval(exp, c.symbols) == Ok(v)
    ensures Exec(eval, c, Print(exp), fuel) == Done(c.(stdout := c.stdout + [v]), Ok(()))
  {
  }
}
