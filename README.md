# schwift evaluator, modelled in Dafny

schwift is a small interpreted language with Rick-and-Morty keywords.
Its evaluator, `State` in `src/state.rs`, holds one flat symbol table
from names to values. It executes statements one at a time against that
table:

- assignment, `delete` and `input`;
- the list statements: new, append, element assignment, element deletion;
- `print`;
- `if`, `while` and `catch`.

A failure is an `ErrorKind`. `execute` pairs it with the failing statement
to make an `Error`. `run` stops at the first error, and `catch` recovers
from one without undoing anything.

The project has four modules:

- `lang.dfy` (`Lang`): the values, expressions, statements and error
  kinds that the evaluator matches on.
- `semantics.dfy` (`Semantics`): every operation as a pure function over
  the table, each with a contract.
  - `Exec`, `Run` and `Loop` give `execute`, `run` and `exec_while` over a
    `Config`: the table, the lines not yet read from standard input, and
    the values printed so far.
  - A fuel bound makes these three total. Each body that an `if`, `while`
    or `catch` runs costs one unit, and `OutOfFuel` means the bound was
    too small.
- `state.dfy` (`Interpreter`): the class `State`, whose `symbols` field the
  methods update in place, and a `Console` for standard input and output.
  Every method is proved to end in the state and result that
  `Semantics` prescribes. The methods for the control-flow statements
  take a ghost fuel under which that result exists.
- `properties.dfy` (`Properties`): lemmas relating operations and
  statements. They cover:
  - reading back what was written;
  - sequencing, and stopping at the first error;
  - `catch` without rollback;
  - loops;
  - fuel monotonicity;
  - a frame result: a statement changes no binding outside the names
    it writes.

`Expression::evaluate` is a parameter `eval` of every operation.
`try_int` and `try_bool` are derived from it. Every property holds for
every evaluator.

## Model

| member | source | states |
|---|---|---|
| Semantics.Get | src/state.rs:90-95 | `get`/`get_value`: succeeds exactly when the name is bound, with its value; otherwise `UnknownVariable(name)` |
| Semantics.ListIndex | src/state.rs:50-88 | index evaluated first, then `UnknownVariable`, `IndexUnindexable`, a non-int index → `UnexpectedType("int", v)`; a string yields a one-character string; out of bounds carries the index value |
| Semantics.AsUsize | src/state.rs:57 | `i as usize` from `i64`: non-negative values are kept, negative ones become `i + 2^64` |
| Semantics.GetList | src/state.rs:145-151 | succeeds exactly on a bound list; unknown name → `UnknownVariable`; any other value (a string included) → `IndexUnindexable` |
| Semantics.GetListElement | src/state.rs:153-168 | corrected bounds check: succeeds exactly when the converted index is below the list length; errors come in the order: `try_int`, lookup, bounds (carrying the container) |
| Semantics.GetListElementAsWritten | src/state.rs:153-168 | as written: never yields an element; panics exactly when the index exceeds the length |
| Semantics.Assign | src/state.rs:97-101 | succeeds iff evaluation does; afterwards the name reads back the value and every other name is unchanged |
| Semantics.Delete | src/state.rs:103-108 | succeeds iff the name is bound; afterwards it is unknown, all other names unchanged, the table one smaller |
| Semantics.ListNew | src/state.rs:264-267 | binds an empty list, overwriting any earlier binding; other names unchanged |
| Semantics.LeadingWhitespace | src/state.rs:124 | the length of the whitespace prefix: all of it whitespace, the next character not |
| Semantics.TrailingWhitespace | src/state.rs:124 | the length of the whitespace suffix: all of it whitespace, the character before it not |
| Semantics.Trim | src/state.rs:124 | the slice of the line after its leading whitespace, followed in the line only by whitespace, neither starting nor ending with whitespace; empty exactly when the line is all whitespace |
| Semantics.Input | src/state.rs:116-128 | a failed read → `IOError` and nothing bound; otherwise the trimmed line is bound as a string, other names unchanged |
| Semantics.ListAppend | src/state.rs:130-136 | value evaluated before the list is looked up; on success the list gains the value at its end, other names unchanged |
| Semantics.ListAssign | src/state.rs:170-180 | value evaluated first, then the element located (corrected check); on success exactly that element is replaced, other names unchanged |
| Semantics.ListAssignAsWritten | src/state.rs:170-180 | as written: never stores anything; panics exactly when the value evaluates and the element lookup panics |
| Semantics.ListDelete | src/state.rs:182-197 | index evaluated, list looked up, then int checked; an int index succeeds exactly when it is below the length, removing that element and closing up the rest; otherwise `IndexOutOfBounds(list, index as usize)` |
| Semantics.Exec | src/state.rs:252-279 | no contract of its own: the definition the lemmas and `Interpreter.State` are proved against. It dispatches every statement kind; bodiless statements commit their operation's new table or wrap its error with the statement (`try_nop_error!`); `ListAssign` runs the corrected check (see Left out); `if` evaluates its condition, wraps an evaluation error or a non-bool with the statement, and runs one branch; `catch` runs the catch body from the state the failed try body left |
| Semantics.Loop | src/state.rs:229-242 | no contract of its own: `try_bool` runs before each iteration and its error is wrapped with the `while` statement; a false condition ends the loop successfully; body errors come out unchanged |
| Semantics.Run | src/state.rs:281-290 | no contract of its own: the statements run in order, each from the state the previous one left, stopping at the first error |
| Interpreter.Console.ReadLine | src/state.rs:119-122 | consumes one line of standard input; at end of input the line is empty |
| Interpreter.Console.PrintLine | src/state.rs:112 | appends the value to the output, input untouched |
| Interpreter.State.constructor | src/state.rs:292-300 | the table starts empty |
| Interpreter.State.Assign | src/state.rs:97-101 | updates `symbols` exactly as `Semantics.Assign` says; an error leaves it unchanged |
| Interpreter.State.Delete | src/state.rs:103-108 | follows `Semantics.Delete` |
| Interpreter.State.Print | src/state.rs:110-114 | prints the value exactly when evaluation succeeds, else returns its error and prints nothing |
| Interpreter.State.Input | src/state.rs:116-128 | reads one line and follows `Semantics.Input` |
| Interpreter.State.ListAppend | src/state.rs:130-136 | follows `Semantics.ListAppend` |
| Interpreter.State.ListAssign | src/state.rs:170-180 | follows the corrected `Semantics.ListAssign` |
| Interpreter.State.ListDelete | src/state.rs:182-197 | follows `Semantics.ListDelete` |
| Interpreter.State.ExecIf | src/state.rs:199-227 | ends in the state and result `Semantics.Exec` gives for the `if` |
| Interpreter.State.ExecWhile | src/state.rs:229-242 | the loop ends in the state and result `Semantics.Loop` gives |
| Interpreter.State.Catch | src/state.rs:244-249 | ends as `Semantics.Exec` gives for the `catch` |
| Interpreter.State.Execute | src/state.rs:252-279 | ends in the state and result `Semantics.Exec` gives for any statement |
| Interpreter.State.Run | src/state.rs:281-290 | ends in the state and result `Semantics.Run` gives for the block |
| Properties.ListIndexOnList | src/state.rs:55-62 | with an `i64` index: in range → that element; out of range, negative included → `IndexOutOfBounds(index, index as usize)` |
| Properties.ListIndexOnStr | src/state.rs:68-77 | the same for strings: the one-character string at that character position |
| Properties.AppendThenIndex | src/state.rs:130-136 | after an append, old elements keep their indices and the new value sits at the old length |
| Properties.AssignThenIndex | src/state.rs:170-180 | after an element assignment, the same index reads back the assigned value |
| Properties.DeleteThenIndex | src/state.rs:182-197 | after a deletion, earlier elements stay and later ones move down by one |
| Properties.ListAssignAsWrittenOutcomes | src/state.rs:160-163 | as written, each index up to the length is refused and each beyond it panics; corrected, exactly the in-range ones are stored |
| Properties.ListAssignInRangeRefused | src/state.rs:160 | `xs` = `[7]`, `xs[0] squanch 1`: refused as written, stored when corrected |
| Properties.SimpleErrorsCarryStatement | src/state.rs:254-276 | a statement without a body ends with its operation's result, any error paired with the statement itself (`try_nop_error!`); on error the table is unchanged |
| Properties.ConditionErrorCarriesStatement | src/state.rs:199-242 | an error evaluating an `if` or `while` condition is paired with that statement, nothing changed and no body run |
| Properties.RunAppend | src/state.rs:281-290 | an empty block succeeds unchanged; `ss1 + ss2` runs `ss2` exactly when `ss1` succeeded |
| Properties.RunStopsAtFirstError | src/state.rs:282-286 | the first failing statement's error and state are the block's result; nothing after it runs |
| Properties.ConditionMustBeBool | src/state.rs:199-242 | a non-boolean condition of `if` or `while` fails with `UnexpectedType("bool", v)` and the statement, running no body |
| Properties.FalseConditionIsNoop | src/state.rs:210-241 | a false condition: `if` without else and `while` change nothing and succeed |
| Properties.WhileIterates | src/state.rs:236-239 | a true condition runs the body; its error propagates unchanged; on success the condition is tested again |
| Properties.WhileExitsOnceFalse | src/state.rs:236-241 | a body that falsifies the condition ends the loop after one iteration, in the state it left |
| Properties.CatchSkipsHandler | src/state.rs:244-246 | a try body that succeeds is the result; the catch body does not run |
| Properties.CatchNoRollback | src/state.rs:244-248 | on failure the catch body starts from the state the try body left at its failing statement; the error is dropped |
| Properties.ExecFuel | src/state.rs:252-279 | a result reached with some fuel is the same with more |
| Properties.LoopFuel | src/state.rs:229-242 | a loop's result is the same with more fuel |
| Properties.RunFuel | src/state.rs:281-290 | a block's result is the same with more fuel |
| Properties.SimpleFrame | src/state.rs:252-276 | the statements without a body always finish, change only the name they mention, print at most at the end, read at most one line |
| Properties.ConfinedTrans | src/state.rs:281-290 | confinement composes along a sequence of statements |
| Properties.ExecFrame | src/state.rs:252-279 | a statement changes no binding outside the names it writes, only appends output and only consumes input |
| Properties.LoopFrame | src/state.rs:229-242 | a loop changes only names its body writes |
| Properties.RunFrame | src/state.rs:281-290 | a block changes only names its statements write |
| Properties.DeletedStaysUnbound | src/state.rs:103-108 | after `delete`, the name stays unknown through any statements that do not write it, whether they succeed or fail |
| Properties.PrintWritesValue | src/state.rs:110-114 | `print` appends exactly the value and changes nothing else |

## Left out

- The lexer, the parser, `Expression::evaluate` and `Value`'s display are not part of this model. Evaluation is a parameter, and printing appends a `Value` rather than its text.
- `Value::Int` is unbounded here. The `i64` range matters only for `i as usize`, and there the index lemmas require `IsI64`. Arithmetic overflow happens inside evaluation, which is not modelled.
- The `io::Error` payload of `IOError`, and any other failure of `io::stdin()`, are not modelled: a read is either a line or `ReadFailed`. End of input reads as an empty line, as `read_line` returns `Ok(0)`.
- `println!` cannot fail here.
- The fields of `Statement` other than `kind` are not modelled; a statement is its kind, and an `Error` carries it whole.
- A `while` that never terminates is represented only as `OutOfFuel` at every fuel. The fuel also bounds how deeply bodies nest. The compiled loop of `Interpreter.State.ExecWhile` carries no fuel; the ghost fuel only bounds the proof, so the methods are proved only for runs that terminate.
- Semantics.Exec: a `ListAssign` statement runs the corrected `list_assign` (`Semantics.ListAssign`), so `Exec`, `Run`, `Loop`, the lemmas about them and `Interpreter.State.Execute`/`Interpreter.State.Run` describe the corrected program. As written (src/state.rs:160), a `ListAssign` statement never succeeds and panics for an index past the end; only `Semantics.ListAssignAsWritten` captures that.
- Interpreter.State.Execute: as for `Semantics.Exec`, it dispatches `ListAssign` to the corrected method.
- The `IndexOutOfBounds` payload is not uniform in the code, and the model keeps it as written: `list_index` carries the index value, while `get_list_element` and `list_delete` carry the container.
- `try_int` and `try_bool` live in expression.rs, which is not part of this model. `Semantics.TryInt` and `Semantics.TryBool` model them as evaluation followed by a type check producing `UnexpectedType("int" / "bool", v)`.
- The `#[cfg(test)]` public `symbols` field is not modelled.

## Findings

| source | as written | input that shows it | evidently intended | confidence | as-written member | corrected member |
|---|---|---|---|---|---|---|
| src/state.rs:160 | `if list.len() < index` guards `&mut list[index]` | `xs` bound to `[7]`, then `xs[0] squanch 1`: refused with `IndexOutOfBounds([7], 0)`; `xs[5] squanch 1` panics | `index < list.len()`, as in `list_index` and `list_delete` | high (not executed) | Semantics.ListAssignAsWritten | Semantics.ListAssign |
