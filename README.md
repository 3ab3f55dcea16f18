# Brewin v4 interpreter, modelled in Dafny

This project models `interpreterv4.py`, the tree-walking interpreter for
Brewin, a small dynamically typed language. The model has six modules:

- **Values** (`values.dfy`). The runtime values int, string, bool and nil. It
  holds the closed operator table of `run_expr`:
  - type-strict `==` and `!=`;
  - int arithmetic, with `/` as Python floor division;
  - int comparison and string concatenation;
  - `&&`/`||` on bools, and unary `neg` and `!`.

  It also covers how values are printed and how an input line is read as
  an int.
- **Ast** (`ast.dfy`). The parsed program as datatypes, with one constructor
  per node kind the interpreter dispatches on.
- **Scopes** (`scopes.dfy`). The scope stack `self.vars`: a list of frames,
  each a dictionary plus a flag that marks a function boundary. It covers
  declaration, assignment, and lookup from innermost to outermost that stops
  at the first function boundary. It also states what a push and a pop leave
  behind.
- **Semantics** (`semantics.dfy`). The reference interpreter: one function
  per `run_*` method. Each maps the state (scope stack, output log, input
  lines with a read cursor) to the new state and to the `(res, ret)` pair
  that the Python returns, or to a fatal error. `ret` is a `Signal`:
  continue, returned, or raised with a name. The pair is threaded exactly
  as the Python threads it, quirks included.
- **Program** (`program.dfy`). `run`: the function table keyed by name and
  arity, the choice of `main`, and the fault for an exception that escapes
  it.
- **Interpreter** (`interpreter.dfy`). The interpreter object as a class.
  Its fields are the table, the frame stack, the output log and the input.
  Its methods mirror the Python methods line by line: they push and pop
  frames, write variables in place, and keep their loops. Each method is
  proved to produce exactly the state and result of its Semantics function.

Two more modules hold proofs. **Properties** (`properties.dfy`) states, over
all inputs, what each construct does. **Scenarios** (`scenarios.dfy`) proves
what `RunProgram` yields on three whole programs that show the signal quirks
end to end.

Behaviour modelled as written, even where it surprises:

- evaluation is eager;
- a `try` statement is skipped, because `run_statements` has no branch for it;
- a raise in an assignment's right-hand side is dropped, and so is one in a
  `for` loop's init or update;
- after a body that returned, a `for` loop still runs the update and
  re-evaluates the condition before it stops;
- a body that raised does not stop a `for` loop;
- a call statement whose callee returned leaves the signal "returned" in
  the caller's block, so an enclosing `if` or `for` then ends that block.

## Model

| member | source | states |
|---|---|---|
| `Values.ApplyUnary` | interpreterv4.py:269-281 | `neg` succeeds exactly on an int, giving its negation, and `!` exactly on a bool, giving its negation; every other operand is a TYPE_ERROR |
| `Values.ApplyBinary` | interpreterv4.py:247-267 | no contract of its own; stated by `Values.BinaryTyping`, `Values.EqualityIsStructural`, `Values.IntArithmetic`, `Values.ConcatenationAndComparison` and `Values.ShortCircuitIsSound` |
| `Values.IntOp` | interpreterv4.py:253-261 | no contract of its own; stated by `Values.IntArithmetic` and `Values.ConcatenationAndComparison` |
| `Values.FloorDiv` | interpreterv4.py:257 | no contract of its own; stated by `Values.FloorDivIsFloor` |
| `Values.ConcatenationAndComparison` | interpreterv4.py:250-261 | `+` on two strings concatenates them, and `<`, `<=`, `>`, `>=` on two ints give the bool of the integer comparison |
| `Values.FloorDivIsFloor` | interpreterv4.py:257 | the quotient used for `/` is Python's floor: the remainder lies between 0 and the divisor, on the divisor's side |
| `Values.EqualityIsStructural` | interpreterv4.py:247-248 | `==` is true exactly on equal values of the same type (so `1 == true` is false) and `!=` is its negation; neither ever fails |
| `Values.BinaryTyping` | interpreterv4.py:247-267 | a binary operator is a TYPE_ERROR exactly when the operand types fall outside its row of the typing table, and a ZeroDivision exactly on an int divided by 0; otherwise the result has the table's type |
| `Values.IntArithmetic` | interpreterv4.py:253-261 | on ints, `+ - *` compute sum, difference and product, and `/` yields the floor quotient for any nonzero divisor |
| `Values.ShortCircuitIsSound` | interpreterv4.py:233-234 | a false left operand of `&&` and a true left operand of `\|\|` decide the result whatever the right operand, and otherwise the right operand is the result |
| `Values.DecimalRoundTrip` | interpreterv4.py:66-70 | reading back the decimal text of any int, as `inputi` reads a line, gives the int |
| `Values.ParseInt` | interpreterv4.py:70 | no contract of its own; stated by `Values.DecimalRoundTrip` and `Properties.ReadLineEffect` |
| `Values.PyStr` | interpreterv4.py:66 | no contract of its own; the prompt's output is stated by `Properties.InputArity` |
| `Values.PrintForm` | interpreterv4.py:78-81 | no contract of its own; the printed line is stated by `Properties.PrintOutputsArguments` |
| `Scopes.Lookup` | interpreterv4.py:208-217 | no contract of its own; stated by `Properties.VariableRead`, `Scopes.CallerInvisible` and `Scopes.SetVarOtherName` |
| `Scopes.SetVar` | interpreterv4.py:47 | no contract of its own; stated by `Scopes.AssignEffect`, `Scopes.SetVarSameSearch` and `Scopes.SetVarOtherName` |
| `Scopes.FindFrame` | interpreterv4.py:43-50 | the search finds the innermost frame holding the name, never below the innermost function boundary; no result means no frame at or above that boundary holds it |
| `Scopes.CallerInvisible` | interpreterv4.py:211-215 | on top of a function-boundary frame, a lookup finds exactly what it finds in the callee's frames alone: a caller's variables are invisible |
| `Scopes.Declare` | interpreterv4.py:32-38 | a declaration fails exactly when the name is already in the top frame |
| `Scopes.DeclareEffect` | interpreterv4.py:38 | a declaration binds the name to nil in the top frame only; every other name reads as before and the stack keeps its shape |
| `Scopes.AssignEffect` | interpreterv4.py:43-48 | an assignment writes only the frame where the search found the name; the name then reads as the new value and every other name and frame is unchanged |
| `Scopes.SetVarSameSearch` | interpreterv4.py:47 | writing a name that is already bound, or any name other than the one looked up, does not change the frame in which a lookup finds it |
| `Scopes.SetVarOtherName` | interpreterv4.py:47 | writing one name leaves the lookup of every other name unchanged |
| `Scopes.PopBlock` | interpreterv4.py:113-122 | popping the frame an `if`/`for` pushed gives a stack that has the original shape and an unchanged part below the function boundary |
| `Scopes.PopCall` | interpreterv4.py:99-101 | popping the frame a call pushed gives back the caller's stack exactly |
| `Scopes.PreservesTrans` | interpreterv4.py:165-198 | "same shape, nothing below the function boundary changed" composes across consecutive statements |
| `Scopes.Bind` | interpreterv4.py:92-99 | the call frame binds exactly the parameters paired with a value by `zip` |
| `Scopes.BindPositional` | interpreterv4.py:99 | with distinct parameter names, each parameter is bound to the argument in its position |
| `Semantics.Eval` | interpreterv4.py:200-283 | evaluating an expression never changes the stack when it completes, only appends to the output, and only reads input forward |
| `Semantics.CallFn` | interpreterv4.py:54-104 | a call that completes leaves the caller's stack exactly as it was; the output only grows |
| `Semantics.ReadLine` | interpreterv4.py:68-70 | reading input leaves the stack and the output alone and advances the cursor by at most one line |
| `Semantics.ArgsFrom` | interpreterv4.py:94-97 | the argument loop either yields one value per argument with the stack unchanged, or stops on a raise or fatal error |
| `Semantics.PrintFrom` | interpreterv4.py:72-85 | `print` leaves the stack unchanged and only appends to the output |
| `Semantics.AssignVar` | interpreterv4.py:40-52 | an assignment that completes keeps the stack's shape and every frame below the function boundary |
| `Semantics.ExecIf` | interpreterv4.py:106-124 | an `if` that completes pops its block frame: the stack keeps its shape and its part below the function boundary |
| `Semantics.ExecFor` | interpreterv4.py:126-146 | a `for` that completes pops its block frames: the stack keeps its shape and its part below the function boundary |
| `Semantics.ForIter` | interpreterv4.py:131-144 | each pass of the loop preserves the stack in the same sense and only appends to the output |
| `Semantics.ForTest` | interpreterv4.py:132-138 | the loop runs its body exactly when the condition is `true`, did not raise, and the last body did not return; otherwise it stops with the condition's fatal error, with its raise, with a TYPE_ERROR for a condition that is not a bool, or with the last body's pair |
| `Semantics.ForBody` | interpreterv4.py:140-144 | one body pass with its update preserves the stack and only appends to the output, and a pass that does not fail yields the body's own pair whatever the update returned |
| `Semantics.ExecReturn` | interpreterv4.py:148-154 | `return` never changes the stack when it completes |
| `Semantics.ExecRaise` | interpreterv4.py:156-162 | a `raise` that completes yields a raised signal and leaves the stack unchanged |
| `Semantics.BlockFrom` | interpreterv4.py:165-198 | a block that completes leaves the stack with the same shape and its part below the function boundary unchanged |
| `Semantics.EndsBlock` | interpreterv4.py:176-195 | no contract of its own; stated by `Semantics.BlockStep`, `Properties.ReturnEndsBlock`, `Properties.CallStmtKeepsReturned` and `Properties.AssignDropsRaise` |
| `Semantics.ExecStmt` | interpreterv4.py:168-195 | every statement kind preserves the stack in that sense and only appends to the output |
| `Program.BuildTable` | interpreterv4.py:16-17 | no contract of its own; stated by `Program.TableKeys` and `Program.TableLast` |
| `Program.TableKeys` | interpreterv4.py:16-17 | a key is in the function table exactly when some definition has that name and arity |
| `Program.TableLast` | interpreterv4.py:16-17 | a key of the table maps to a definition with that key after which no definition has it: a later definition replaces an earlier one |
| `Program.KeyOrder` | interpreterv4.py:16-21 | the table iterates exactly over the keys of the definitions |
| `Program.KeyOrderDistinct` | interpreterv4.py:16-21 | the table yields each key once |
| `Program.KeyOrderIsInsertionOrder` | interpreterv4.py:16-21 | the table yields its keys in order of first insertion: every definition with a later key comes after some definition with each earlier key |
| `Program.FirstMain` | interpreterv4.py:21-24 | no contract of its own; stated by `Program.FirstMainAppend`, `Program.FirstMainNone` and `Program.MainIsFirstDefinition` |
| `Program.FirstMainAppend` | interpreterv4.py:21-24 | the first key named main in a list extended by one key is the old one if there was one, else the new key if it is named main |
| `Program.FirstMainNone` | interpreterv4.py:21-24 | no key is chosen exactly when no key is named main |
| `Program.MainIsFirstDefinition` | interpreterv4.py:16-27 | `main_key` belongs to the first definition named main, whatever its arity, and there is none exactly when no definition is named main |
| `Program.MainArgs` | interpreterv4.py:29 | main's own parameter nodes are passed as arguments, one per parameter, each evaluating to nil |
| `Program.RunProgram` | interpreterv4.py:13-30 | no contract of its own; stated by `Program.NoMainIsNameError`, `Program.UncaughtRaiseIsFault` and the `Scenarios` lemmas, and implemented by `Interpreter.Interpreter.Run` |
| `Program.NoMainIsNameError` | interpreterv4.py:26-27 | a program without a function named main ends with NAME_ERROR and no output |
| `Program.UncaughtRaiseIsFault` | interpreterv4.py:29-30 | a raise that escapes main ends the run with FAULT_ERROR, keeping the output printed so far |
| `Properties.ShortCircuit` | interpreterv4.py:228-234 | a false left operand of `&&` and a true one of `\|\|` yield that bool without evaluating the right operand |
| `Properties.LogicalOperandsAreBool` | interpreterv4.py:232-239 | a non-bool left or right operand of `&&`/`\|\|` is a TYPE_ERROR, and a bool right operand is the result |
| `Properties.StrictOperands` | interpreterv4.py:241-267 | the other binary operators evaluate the left operand, then the right, and apply the table; a raise in either is returned at once |
| `Properties.UnaryOperand` | interpreterv4.py:269-281 | `neg` and `!` return a raise in their operand at once, and otherwise apply the unary table |
| `Properties.VariableRead` | interpreterv4.py:208-217 | a variable reads its innermost visible binding, with NAME_ERROR when there is none, and changes nothing |
| `Properties.UnknownFunction` | interpreterv4.py:87-88 | a call to a name that is not a builtin and not defined with that arity is a NAME_ERROR before any argument runs |
| `Properties.InputArity` | interpreterv4.py:59-70 | `inputi`/`inputs` with more than one argument is a NAME_ERROR; with none, they read one line; with one, the prompt's `str` is output and then one line is read, unless the prompt raises or fails, which then outputs and reads nothing |
| `Properties.ReadLineEffect` | interpreterv4.py:68-70 | reading fails with NoInput exactly when input is exhausted; otherwise it consumes one line, which `inputs` returns as is and `inputi` as the int it spells |
| `Properties.PrintOutputsOneLine` | interpreterv4.py:72-85 | for literal arguments, `print` appends exactly one line, its arguments' printed forms joined without a separator, and yields nil |
| `Properties.PrintFromIsArgsFrom` | interpreterv4.py:75-85 | the print loop evaluates its arguments as the argument loop of a call does, and outputs one line, the printed forms joined, only when all of them complete |
| `Properties.PrintOutputsArguments` | interpreterv4.py:72-85 | `print` on any arguments outputs one line after whatever its arguments output and yields nil, or outputs no line and stops with the raise or error of an argument |
| `Properties.UserCallArgs` | interpreterv4.py:87-103 | a user call whose arguments all complete pushes, on the stack they left, a boundary frame binding the parameters to the values the argument loop produced, and runs the body; a completed call restores the caller's stack and returns the body's pair |
| `Properties.UserCall` | interpreterv4.py:87-103 | the same for literal arguments: the parameters are bound to the literals' values |
| `Properties.ArgumentRaiseAbortsCall` | interpreterv4.py:94-97 | a raise in an argument ends the call before any frame is pushed or the body runs |
| `Properties.CalleeSeesOnlyParams` | interpreterv4.py:99-101 | at the start of a call, a name is visible exactly when it is a parameter |
| `Properties.AssignUnknown` | interpreterv4.py:43-52 | assigning a name that no visible frame holds is a NAME_ERROR, raised before the right-hand side runs |
| `Properties.AssignWrites` | interpreterv4.py:44-48 | after an assignment the name reads as the value and every other name reads as before |
| `Properties.VarDefDeclares` | interpreterv4.py:32-38 | a declaration fails exactly when the top frame holds the name; otherwise the name reads as nil, other names are unchanged and the pair is kept |
| `Properties.RaiseNeedsString` | interpreterv4.py:156-162 | raising a string raises that name, and raising anything else is a TYPE_ERROR |
| `Properties.ReturnEndsBlock` | interpreterv4.py:186-195 | a block stops at a `return` or `raise`; nothing after it runs |
| `Properties.TryStep` | interpreterv4.py:168-195 | a `try` statement anywhere in a block is never executed: the block goes on with the next statement in the same state and with the same pair |
| `Properties.TrySkipped` | interpreterv4.py:168-195 | a block whose remaining statements are all `try` statements ends with the state and the pair unchanged |
| `Properties.AssignDropsRaise` | interpreterv4.py:173-174 | an assignment whose right-hand side raises lets the block go on with its pair unchanged |
| `Properties.CallStmtKeepsReturned` | interpreterv4.py:175-177 | after a call statement whose callee returned, whatever value it returned, the block goes on with the signal "returned" |
| `Properties.ReturnedBodyRechecksCondition` | interpreterv4.py:131-138 | after a body that returned, the loop evaluates the condition again and only a bool condition lets the return through |
| `Properties.RaisedBodyKeepsLooping` | interpreterv4.py:131-144 | a body that raised does not stop the loop while the condition is true and does not raise, whatever its signal otherwise |
| `Properties.FalseConditionEndsLoop` | interpreterv4.py:131-146 | a false condition ends the loop with the last body's pair, even a raise from an earlier pass |
| `Properties.ForInitDropsRaise` | interpreterv4.py:129 | a raise in the loop's initialising assignment is dropped and the loop starts |
| `Properties.IfConditionMustBeBool` | interpreterv4.py:106-110 | an `if` whose condition completes with a value that is not a bool is a TYPE_ERROR |
| `Properties.ForConditionMustBeBool` | interpreterv4.py:131-136 | a loop pass whose condition completes with a value that is not a bool is a TYPE_ERROR |
| `Properties.ForUpdateDropsRaise` | interpreterv4.py:140-144 | a raise in the loop's update is dropped: the pass ends with the body's pair |
| `Scenarios.ReturnInsideFor` | interpreterv4.py:126-146 | a body that prints and returns still runs an update that assigns a string, and the re-checked condition `i < 3` ends the run with TYPE_ERROR |
| `Scenarios.CallStatementReturnsFromCaller` | interpreterv4.py:175-181 | a call statement to a returning function inside an `if` makes main return: the print after the `if` never runs |
| `Scenarios.TryIsSkippedAndRaiseFaults` | interpreterv4.py:13-30 | the handler of a `try` never runs, the print after it does, and the following raise ends the run with FAULT_ERROR |
| `Interpreter.Interpreter.constructor` | interpreterv4.py:6-10 | a new interpreter has an empty table, an empty stack, no output and its input unread |
| `Interpreter.Interpreter.FindVisible` | interpreterv4.py:43-50 | the loop over the reversed stack finds exactly the frame `FindFrame` specifies |
| `Interpreter.Interpreter.GetInput` | interpreterv4.py:68-70 | reading a line updates the cursor and returns the value exactly as `ReadLine` says |
| `Interpreter.Interpreter.RunVardef` | interpreterv4.py:32-38 | writes the top frame in place exactly as `Declare` specifies, or fails with NAME_ERROR and changes nothing |
| `Interpreter.Interpreter.RunAssign` | interpreterv4.py:40-52 | the new stack, output and cursor, and the result, are those of `AssignVar` |
| `Interpreter.Interpreter.RunFcall` | interpreterv4.py:54-104 | the builtin and user-call paths, with their argument and print loops, produce the state and result of `CallFn` |
| `Interpreter.Interpreter.RunIf` | interpreterv4.py:106-124 | pushing, running the chosen branch and popping produce the state and result of `ExecIf` |
| `Interpreter.Interpreter.RunFor` | interpreterv4.py:126-146 | the `while True` loop produces the state and result of `ExecFor` |
| `Interpreter.Interpreter.RunForPass` | interpreterv4.py:131-144 | one pass of the loop either ends it with the result `ExecFor` gives, or leaves a state from which `ForIter` with one less fuel unit still reaches that result |
| `Interpreter.Interpreter.RunForBody` | interpreterv4.py:140-144 | one pushed body pass, the pop and the update produce the state and result of `ForBody` |
| `Interpreter.Interpreter.RunReturn` | interpreterv4.py:148-154 | produces the state and result of `ExecReturn` |
| `Interpreter.Interpreter.RunRaise` | interpreterv4.py:156-162 | produces the state and result of `ExecRaise` |
| `Interpreter.Interpreter.RunStatements` | interpreterv4.py:165-198 | the statement loop with its breaks produces the state and pair of `BlockFrom` |
| `Interpreter.Interpreter.RunExpr` | interpreterv4.py:200-283 | produces the state and result of `Eval`, short circuit included |
| `Interpreter.Interpreter.Run` | interpreterv4.py:13-30 | filling the table, picking main's key in dictionary order and calling main produce the output and ending of `RunProgram` |

## Left out

- Parsing (`brewparse.parse_program`) is not part of this model. A program
  arrives as `Ast` values, one `FuncDef` per function in source order.
- `InterpreterBase` is not part of this model.
  - `output` appends to a log of lines.
  - `get_input` takes the next line of a fixed input sequence. Running out
    of input is the fatal error `NoInput`, because the base class's
    behaviour there is not visible.
  - `error` ends the run with an error kind. The message text is not kept.
- The Python exceptions that escape the interpreter become fatal error
  kinds: ZeroDivisionError from `//` by zero is `ZeroDivision`, and
  ValueError from `int()` is `ValueError`. No Brewin exception is invented
  for either.
- `Values.ParseInt` accepts an optional sign followed by ASCII digits.
  Python's `int()` also accepts surrounding whitespace, underscores between
  digits and non-ASCII digits. Those lines read as `ValueError` here.
- Termination is bounded by fuel. Each user call and each pass of a `for`
  loop consumes one unit, and running out is the fatal error `OutOfFuel`.
  The Python has no such bound: it loops for ever, or stops with its
  RecursionError. Neither is modelled.
- The `(res, ret)` pair is a value and a `Signal`. Python's `None` and
  `False` for "continue" are one case, because the interpreter never tells
  them apart.
- `Interpreter.Interpreter.Run`: it requires a freshly constructed
  interpreter. A second `run` on the same object would keep the first
  program's functions and output, and that is not modelled.
- `Interpreter.Interpreter.RunVardef`: it requires a non-empty stack. The
  Python reads the top frame with `self.vars[-1]`, which would raise
  IndexError on an empty stack. Statements only ever run inside a call's
  frame, so that case cannot arise.
- `Interpreter.Interpreter.RunIf`, `RunFor` and `RunStatements`: they
  require a non-empty stack because their Semantics functions do. The
  Python methods only push and pop, or do not touch the stack at all, and
  cannot fail on an empty one. Statements only ever run inside a call's
  frame, so nothing reachable is excluded.
- `main()` is not part of this model: it reads `./test.br` and prints the
  parse tree. So are the constructor's `console_output`, `inp` and
  `trace_output` arguments.
- Strings are sequences of characters. Python's `str.lower()` is applied
  only to `True`/`False`, which the model writes out.
