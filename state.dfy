/**
 * The interpreter state of src/state.rs: a symbol table that statement
 * execution updates in place. Every method is proved to do what the
 * functions of `Semantics` say; `run`, `execute`, `exec_if`,
 * `exec_while` and `catch` carry a ghost fuel bound under which
 * `Semantics` reaches a result. The compiled loops carry no fuel; the
 * ghost fuel only bounds the proof, so only runs that terminate are
 * covered.
 */
module Interpreter {
  import opened Lang
  import opened Semantics

  /** Standard input and standard output, which the evaluator reaches through `io::stdin()` and `println!`. */
  class Console {
    var pending: seq<ReadResult>
    var printed: seq<Value>

    constructor (lines: seq<ReadResult>)
      ensures pending == lines && printed == []
    {
      pending := lines;
      printed := [];
    }

    /** `io::stdin().read_line`: at end of input the line is empty. */
    method ReadLine() returns (line: ReadResult)
      modifies this
      ensures line == NextLine(old(pending)) && pending == AfterRead(old(pending))
      ensures printed == old(printed)
    {
      line := NextLine(pending);
      pending := AfterRead(pending);
    }

    /** `Value::println`. */
    method PrintLine(v: Value)
      modifies this
      ensures printed == old(printed) + [v] && pending == old(pending)
    {
      printed := printed + [v];
    }
  }

  /** A table operation ended with `r`, as `spec` (its meaning over the table `before`) prescribes. */
  ghost predicate Follows(spec: Result<Symbols, ErrorKind>, before: Symbols, after: Symbols, r: Result<(), ErrorKind>) {
    if r.Ok? then spec == Ok(after) else spec == Err(r.error) && after == before
  }

  class State {
    var symbols: Symbols

    /** `State::new`: an empty table. */
    constructor ()
      ensures symbols == map[]
    {
      symbols := map[];
    }

    /** Everything execution can change: the table, unread input, printed values. */
    function Snapshot(io: Console): Config
      reads this, io
    {
      Config(symbols, io.pending, io.printed)
    }

    method Assign(eval: Evaluator, name: string, exp: Expression) returns (r: Result<(), ErrorKind>)
      modifies this
      ensures Follows(Semantics.Assign(eval, old(symbols), name, exp), old(symbols), symbols, r)
    {
      var v := eval(exp, symbols);
      if v.Err? {
        return Err(v.error);
      }
      symbols := symbols[name := v.value];
      r := Ok(());
    }

    method Delete(name: string) returns (r: Result<(), ErrorKind>)
      modifies this
      ensures Follows(Semantics.Delete(old(symbols), name), old(symbols), symbols, r)
    {
      if name !in symbols {
        return Err(UnknownVariable(name));
      }
      symbols := symbols - {name};
      r := Ok(());
    }

    method Print(eval: Evaluator, exp: Expression, io: Console) returns (r: Result<(), ErrorKind>)
      modifies io
      ensures r.Ok? <==> eval(exp, symbols).Ok?
      ensures r.Err? ==> r.error == eval(exp, symbols).error && io.printed == old(io.printed)
      ensures r.Ok? ==> io.printed == old(io.printed) + [eval(exp, symbols).value]
      ensures io.pending == old(io.pending)
    {
      var x := eval(exp, symbols);
      if x.Err? {
        return Err(x.error);
      }
      io.PrintLine(x.value);
      r := Ok(());
    }

    method Input(name: string, io: Console) returns (r: Result<(), ErrorKind>)
      modifies this, io
      ensures Follows(Semantics.Input(old(symbols), name, NextLine(old(io.pending))), old(symbols), symbols, r)
      ensures io.pending == AfterRead(old(io.pending)) && io.printed == old(io.printed)
    {
      var line := io.ReadLine();
      match line
      case ReadFailed =>
        r := Err(IOError);
      case Read(text) =>
        symbols := symbols[name := Str(Trim(text))];
        r := Ok(());
    }

    method ListAppend(eval: Evaluator, name: string, exp: Expression) returns (r: Result<(), ErrorKind>)
      modifies this
      ensures Follows(Semantics.ListAppend(eval, old(symbols), name, exp), old(symbols), symbols, r)
    {
      var toAppend := eval(exp, symbols);
      if toAppend.Err? {
        return Err(toAppend.error);
      }
      var list := GetList(symbols, name);
      if list.Err? {
        return Err(list.error);
      }
      symbols := symbols[name := List(list.value + [toAppend.value])];
      r := Ok(());
    }

    /** `list_assign`, with the bounds check of `get_list_element` corrected. */
    method ListAssign(eval: Evaluator, name: string, index: Expression, exp: Expression) returns (r: Result<(), ErrorKind>)
      modifies this
      ensures Follows(Semantics.ListAssign(eval, old(symbols), name, index, exp), old(symbols), symbols, r)
    {
      var toAssign := eval(exp, symbols);
      if toAssign.Err? {
        return Err(toAssign.error);
      }
      var element := GetListElement(eval, symbols, name, index);
      if element.Err? {
        return Err(element.error);
      }
      var list := symbols[name].items;
      symbols := symbols[name := List(list[element.value := toAssign.value])];
      r := Ok(());
    }

    method ListDelete(eval: Evaluator, name: string, index: Expression) returns (r: Result<(), ErrorKind>)
      modifies this
      ensures Follows(Semantics.ListDelete(eval, old(symbols), name, index), old(symbols), symbols, r)
    {
      var indexValue := eval(index, symbols);
      if indexValue.Err? {
        return Err(indexValue.error);
      }
      var list := GetList(symbols, name);
      if list.Err? {
        return Err(list.error);
      }
      var l := list.value;
      if !indexValue.value.Int? {
        return Err(UnexpectedType("int", indexValue.value));
      }
      var n := AsUsize(indexValue.value.i);
      if n >= |l| {
        return Err(IndexOutOfBounds(List(l), n));
      }
      symbols := symbols[name := List(l[..n] + l[n + 1..])];
      r := Ok(());
    }

    method ExecIf(eval: Evaluator, s: Statement, io: Console, ghost fuel: nat) returns (r: Result<(), Error>)
      requires s.If?
      requires Exec(eval, Snapshot(io), s, fuel).Done?
      modifies this, io
      ensures Exec(eval, old(Snapshot(io)), s, fuel) == Done(Snapshot(io), r)
      decreases fuel, 0, 0
    {
      var x := eval(s.cond, symbols);
      if x.Err? {
        return Err(Error(x.error, s));
      }
      match x.value
      case Bool(b) =>
        if b {
          r := Run(eval, s.thenBody, io, fuel - 1);
        } else if s.elseBody.Some? {
          r := Run(eval, s.elseBody.block, io, fuel - 1);
        } else {
          r := Ok(());
        }
      case _ =>
        r := Err(Error(UnexpectedType("bool", x.value), s));
    }

    method ExecWhile(eval: Evaluator, s: Statement, io: Console, ghost fuel: nat) returns (r: Result<(), Error>)
      requires s.While?
      requires Loop(eval, Snapshot(io), s, fuel).Done?
      modifies this, io
      ensures Loop(eval, old(Snapshot(io)), s, fuel) == Done(Snapshot(io), r)
      decreases fuel, 0, 0
    {
      var test := TryBool(eval, s.cond, symbols);
      if test.Err? {
        return Err(Error(test.error, s));
      }
      var condition := test.value;
      ghost var f: nat := fuel;
      while condition
        invariant f <= fuel
        invariant TryBool(eval, s.cond, symbols) == Ok(condition)
        invariant Loop(eval, Snapshot(io), s, f) == Loop(eval, old(Snapshot(io)), s, fuel)
        decreases f
      {
        r := Run(eval, s.body, io, f - 1);
        if r.Err? {
          return;
        }
        f := f - 1;
        test := TryBool(eval, s.cond, symbols);
        if test.Err? {
          return Err(Error(test.error, s));
        }
        condition := test.value;
      }
      r := Ok(());
    }

    method Catch(eval: Evaluator, tryBody: seq<Statement>, catchBody: seq<Statement>, io: Console, ghost fuel: nat)
      returns (r: Result<(), Error>)
      requires Exec(eval, Snapshot(io), Statement.Catch(tryBody, catchBody), fuel).Done?
      modifies this, io
      ensures Exec(eval, old(Snapshot(io)), Statement.Catch(tryBody, catchBody), fuel) == Done(Snapshot(io), r)
      decreases fuel, 0, 0
    {
      r := Run(eval, tryBody, io, fuel - 1);
      if r.Err? {
        r := Run(eval, catchBody, io, fuel - 1);
      }
    }

    method Execute(eval: Evaluator, s: Statement, io: Console, ghost fuel: nat) returns (r: Result<(), Error>)
      requires Exec(eval, Snapshot(io), s, fuel).Done?
      modifies this, io
      ensures Exec(eval, old(Snapshot(io)), s, fuel) == Done(Snapshot(io), r)
      decreases fuel, 0, 1
    {
      match s
      case Input(name) =>
        var k := Input(name, io);
        r := WithStatement(k, s);
      case ListAssign(name, index, value) =>
        var k := ListAssign(eval, name, index, value);
        r := WithStatement(k, s);
      case ListAppend(name, value) =>
        var k := ListAppend(eval, name, value);
        r := WithStatement(k, s);
      case ListDelete(name, index) =>
        var k := ListDelete(eval, name, index);
        r := WithStatement(k, s);
      case ListNew(name) =>
        symbols := symbols[name := List([])];
        r := Ok(());
      case If(_, _, _) =>
        r := ExecIf(eval, s, io, fuel);
      case While(_, _) =>
        r := ExecWhile(eval, s, io, fuel);
      case Assignment(name, value) =>
        var k := Assign(eval, name, value);
        r := WithStatement(k, s);
      case Delete(name) =>
        var k := Delete(name);
        r := WithStatement(k, s);
      case Print(value) =>
        var k := Print(eval, value, io);
        r := WithStatement(k, s);
      case Catch(tryBody, catchBody) =>
        r := Catch(eval, tryBody, catchBody, io, fuel);
    }

    method Run(eval: Evaluator, ss: seq<Statement>, io: Console, ghost fuel: nat) returns (r: Result<(), Error>)
      requires Semantics.Run(eval, Snapshot(io), ss, fuel).Done?
      modifies this, io
      ensures Semantics.Run(eval, old(Snapshot(io)), ss, fuel) == Done(Snapshot(io), r)
      decreases fuel, |ss| + 1, 0
    {
      for i := 0 to |ss|
        invariant Semantics.Run(eval, Snapshot(io), ss[i..], fuel) == Semantics.Run(eval, old(Snapshot(io)), ss, fuel)
      {
        assert ss[i..][0] == ss[i] && ss[i..][1..] == ss[i + 1..];
        r := Execute(eval, ss[i], io, fuel);
        if r.Err? {
          return;
        }
      }
      r := Ok(());
    }
  }
}
