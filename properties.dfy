/** Properties of the reference semantics: what each statement and
    expression form does, stated over all inputs, including the places
    where the interpreter's `(res, ret)` protocol behaves unexpectedly. */
module Properties {
  import opened Values
  import opened Ast
  import opened Scopes
  import opened Semantics

  // ---------------------------------------------------------------------
  // Expressions

  /** `&&` with a false left operand and `||` with a true one never evaluate
      the right operand: the state is the one the left operand left behind. */
  lemma ShortCircuit(funcs: FuncTable, fuel: nat, st: State, op: BinOp, left: Expr, right: Expr)
    requires op == And || op == Or
    requires var a := Eval(funcs, fuel, st, left).1; a.Done? && !a.ret.Raised? && a.res == Bool(op == Or)
    ensures Eval(funcs, fuel, st, Binary(op, left, right)) ==
      (Eval(funcs, fuel, st, left).0, Done(Bool(op == Or), Eval(funcs, fuel, st, left).1.ret))
  {
  }

  /** The operands of `&&` and `||` must be bools: any other value, on
      either side, is a TYPE_ERROR. */
  lemma LogicalOperandsAreBool(funcs: FuncTable, fuel: nat, st: State, op: BinOp, left: Expr, right: Expr)
    requires op == And || op == Or
    ensures var (st1, a) := Eval(funcs, fuel, st, left);
      a.Done? && !a.ret.Raised? && !a.res.Bool? ==>
        Eval(funcs, fuel, st, Binary(op, left, right)) == (st1, Fatal(TypeError))
    ensures var (st1, a) := Eval(funcs, fuel, st, left);
      var (st2, b) := Eval(funcs, fuel, st1, right);
      a.Done? && !a.ret.Raised? && a.res == Bool(op == And) && b.Done? && !b.ret.Raised? ==>
        Eval(funcs, fuel, st, Binary(op, left, right)) == (st2, if b.res.Bool? then b else Fatal(TypeError))
  {
  }

  /** Every other binary operator evaluates both operands, left first, and
      applies the operator table to the two values; a raise in either
      operand is handed back unchanged. */
  lemma StrictOperands(funcs: FuncTable, fuel: nat, st: State, op: BinOp, left: Expr, right: Expr)
    requires op != And && op != Or
    ensures var (st1, a) := Eval(funcs, fuel, st, left);
      var (st2, b) := Eval(funcs, fuel, st1, right);
      var r := Eval(funcs, fuel, st, Binary(op, left, right));
      (a.Stops() ==> r == (st1, a)) &&
      (!a.Stops() && b.Stops() ==> r == (st2, b)) &&
      (!a.Stops() && !b.Stops() ==>
        r == (st2, match ApplyBinary(op, a.res, b.res) case Val(v) => Done(v, b.ret) case Err(k) => Fatal(k)))
  {
  }

  /** `neg` and `!` evaluate their operand once and apply the unary table;
      a raise in the operand is handed back unchanged. */
  lemma UnaryOperand(funcs: FuncTable, fuel: nat, st: State, op: UnOp, x: Expr)
    ensures var (st1, a) := Eval(funcs, fuel, st, x);
      var r := Eval(funcs, fuel, st, Unary(op, x));
      (a.Stops() ==> r == (st1, a)) &&
      (!a.Stops() ==> r == (st1, match ApplyUnary(op, a.res) case Val(v) => Done(v, a.ret) case Err(k) => Fatal(k)))
  {
  }

  /** A variable reads the innermost visible binding; a name with none is a
      NAME_ERROR. Reading never changes the state. */
  lemma VariableRead(funcs: FuncTable, fuel: nat, st: State, x: string)
    ensures Eval(funcs, fuel, st, Var(x)).0 == st
    ensures Eval(funcs, fuel, st, Var(x)).1 ==
      match FindFrame(st.frames, x)
      case Some(j) => Done(st.frames[j].vars[x], Continue)
      case None => Fatal(NameError)
  {
  }

  // ---------------------------------------------------------------------
  // Calls

  /** Calling a name that is neither a builtin nor defined with this many
      arguments is a NAME_ERROR before any argument is evaluated. */
  lemma UnknownFunction(funcs: FuncTable, fuel: nat, st: State, name: string, args: seq<Expr>)
    requires name != "inputi" && name != "inputs" && name != "print"
    requires (name, |args|) !in funcs
    ensures CallFn(funcs, fuel, st, name, args) == (st, Fatal(NameError))
  {
  }

  /** `inputi` and `inputs` take at most one argument. Without one, a line is
      read; with one, the prompt is evaluated and output as `str` of its value
      (not its printed form) before the line is read, and a raise or fatal
      error in the prompt outputs nothing and reads nothing. */
  lemma InputArity(funcs: FuncTable, fuel: nat, st: State, name: string, args: seq<Expr>)
    requires name == "inputi" || name == "inputs"
    ensures |args| > 1 ==> CallFn(funcs, fuel, st, name, args) == (st, Fatal(NameError))
    ensures |args| == 0 ==> CallFn(funcs, fuel, st, name, args) == ReadLine(name == "inputi", st)
    ensures |args| == 1 ==>
      var (st1, a) := Eval(funcs, fuel, st, args[0]);
      CallFn(funcs, fuel, st, name, args) ==
        if a.Stops() then (st1, a)
        else ReadLine(name == "inputi", st1.(out := st1.out + [PyStr(a.res)]))
  {
  }

  /** Without input left, reading is fatal; otherwise one line is consumed
      and `inputi` reads it as a decimal integer. */
  lemma ReadLineEffect(asInt: bool, st: State)
    ensures st.cursor >= |st.input| <==> ReadLine(asInt, st).1 == Fatal(NoInput)
    ensures st.cursor < |st.input| ==> ReadLine(asInt, st).0 == st.(cursor := st.cursor + 1)
    ensures st.cursor < |st.input| && !asInt ==> ReadLine(asInt, st).1 == Done(Str(st.input[st.cursor]), Continue)
    ensures forall n: int :: st.cursor < |st.input| && asInt && st.input[st.cursor] == DecimalString(n) ==>
      ReadLine(asInt, st).1 == Done(Int(n), Continue)
  {
    forall n: int | st.cursor < |st.input| && asInt && st.input[st.cursor] == DecimalString(n)
      ensures ReadLine(asInt, st).1 == Done(Int(n), Continue)
    {
      DecimalRoundTrip(n);
    }
  }

  /** The concatenation of the printed forms of some values. */
  function Rendered(vals: seq<Value>): string {
    if vals == [] then "" else Rendered(vals[..|vals| - 1]) + PrintForm(vals[|vals| - 1])
  }

  /** Literal arguments, one per value. */
  function Literals(vals: seq<Value>): (args: seq<Expr>)
    ensures |args| == |vals| && forall k :: 0 <= k < |vals| ==> args[k] == Lit(vals[k])
  {
    seq(|vals|, k requires 0 <= k < |vals| => Lit(vals[k]))
  }

  lemma {:induction false} PrintLiteralsFrom(funcs: FuncTable, fuel: nat, st: State, vals: seq<Value>, i: nat)
    requires i <= |vals|
    ensures PrintFrom(funcs, fuel, st, Literals(vals), i, Rendered(vals[..i])) ==
      (st.(out := st.out + [Rendered(vals)]), Done(Nil, Continue))
    decreases |vals| - i
  {
    if i == |vals| {
      assert vals[..i] == vals;
    } else {
      assert vals[..i + 1][..i] == vals[..i];
      PrintLiteralsFrom(funcs, fuel, st, vals, i + 1);
    }
  }

  /** `print` outputs exactly one line: its arguments' printed forms joined
      with no separator, and yields nil. */
  lemma PrintOutputsOneLine(funcs: FuncTable, fuel: nat, st: State, vals: seq<Value>)
    ensures CallFn(funcs, fuel, st, "print", Literals(vals)) ==
      (st.(out := st.out + [Rendered(vals)]), Done(Nil, Continue))
  {
    PrintLiteralsFrom(funcs, fuel, st, vals, 0);
  }

  /** The print loop evaluates its arguments exactly as the argument loop of
      a call does: when they all complete, one line, their printed forms
      joined, is output after whatever the arguments output; when one raises
      or fails, nothing is printed and the loop stops where the argument
      loop stops. */
  lemma {:induction false} PrintFromIsArgsFrom(funcs: FuncTable, fuel: nat, st: State, args: seq<Expr>, i: nat, vals: seq<Value>)
    requires i <= |args|
    ensures var (sa, ev) := ArgsFrom(funcs, fuel, st, args, i, vals);
      PrintFrom(funcs, fuel, st, args, i, Rendered(vals)) ==
        if ev.Values? then (sa.(out := sa.out + [Rendered(ev.vals)]), Done(Nil, Continue))
        else (sa, ev.outcome)
    decreases |args| - i
  {
    if i < |args| {
      var (st1, a) := Eval(funcs, fuel, st, args[i]);
      if !a.Stops() {
        assert (vals + [a.res])[..|vals|] == vals;
        PrintFromIsArgsFrom(funcs, fuel, st1, args, i + 1, vals + [a.res]);
      }
    }
  }

  /** `print` on any arguments: one line, or no line when an argument raises
      or fails. */
  lemma PrintOutputsArguments(funcs: FuncTable, fuel: nat, st: State, args: seq<Expr>)
    ensures var (sa, ev) := ArgsFrom(funcs, fuel, st, args, 0, []);
      CallFn(funcs, fuel, st, "print", args) ==
        if ev.Values? then (sa.(out := sa.out + [Rendered(ev.vals)]), Done(Nil, Continue))
        else (sa, ev.outcome)
  {
    PrintFromIsArgsFrom(funcs, fuel, st, args, 0, []);
  }

  lemma {:induction false} LiteralArgsFrom(funcs: FuncTable, fuel: nat, st: State, vals: seq<Value>, i: nat)
    requires i <= |vals|
    ensures ArgsFrom(funcs, fuel, st, Literals(vals), i, vals[..i]) == (st, Values(vals))
    decreases |vals| - i
  {
    if i == |vals| {
      assert vals[..i] == vals;
    } else {
      assert vals[..i] + [vals[i]] == vals[..i + 1];
      LiteralArgsFrom(funcs, fuel, st, vals, i + 1);
    }
  }

  /** A user call whose arguments all complete binds the parameters to the
      values the argument loop produced, in a new function-boundary frame on
      top of the stack the arguments left behind, and runs the body one fuel
      unit lower; a completed call leaves the caller's stack as it was and
      hands back the body's pair. */
  lemma UserCallArgs(funcs: FuncTable, fuel: nat, st: State, name: string, args: seq<Expr>)
    requires name != "inputi" && name != "inputs" && name != "print"
    requires (name, |args|) in funcs && fuel > 0
    requires ArgsFrom(funcs, fuel, st, args, 0, []).1.Values?
    ensures var (sa, ev) := ArgsFrom(funcs, fuel, st, args, 0, []);
      var f := funcs[(name, |args|)];
      var callee := sa.(frames := sa.frames + [Frame(Bind(f.params, ev.vals), true)]);
      var (st2, b) := BlockFrom(funcs, fuel - 1, callee, f.body, 0, Nil, Continue);
      CallFn(funcs, fuel, st, name, args) ==
        if b.Fatal? then (st2, b) else (st2.(frames := st.frames), b)
  {
    var (sa, ev) := ArgsFrom(funcs, fuel, st, args, 0, []);
    var f := funcs[(name, |args|)];
    var m := Bind(f.params, ev.vals);
    var (st2, b) := BlockFrom(funcs, fuel - 1, sa.(frames := sa.frames + [Frame(m, true)]), f.body, 0, Nil, Continue);
    if !b.Fatal? {
      PopCall(sa.frames, m, st2.frames);
    }
  }

  /** The same for literal arguments: the parameters are bound to the
      literals' values on top of the caller's own stack. */
  lemma UserCall(funcs: FuncTable, fuel: nat, st: State, name: string, vals: seq<Value>)
    requires name != "inputi" && name != "inputs" && name != "print"
    requires (name, |vals|) in funcs && fuel > 0
    ensures var f := funcs[(name, |vals|)];
      var callee := st.(frames := st.frames + [Frame(Bind(f.params, vals), true)]);
      var (st2, b) := BlockFrom(funcs, fuel - 1, callee, f.body, 0, Nil, Continue);
      CallFn(funcs, fuel, st, name, Literals(vals)) ==
        if b.Fatal? then (st2, b) else (st2.(frames := st.frames), b)
  {
    LiteralArgsFrom(funcs, fuel, st, vals, 0);
    assert vals[..0] == [];
    UserCallArgs(funcs, fuel, st, name, Literals(vals));
  }

  /** A raise (or fatal error) in an argument of a user call ends the call
      there: the remaining arguments are not evaluated, no frame is pushed
      and the body does not run. */
  lemma ArgumentRaiseAbortsCall(funcs: FuncTable, fuel: nat, st: State, name: string, args: seq<Expr>)
    requires name != "inputi" && name != "inputs" && name != "print"
    requires (name, |args|) in funcs
    requires ArgsFrom(funcs, fuel, st, args, 0, []).1.Stopped?
    ensures var (st1, ev) := ArgsFrom(funcs, fuel, st, args, 0, []);
      CallFn(funcs, fuel, st, name, args) == (st1, ev.outcome) && ev.outcome.Stops() &&
      (ev.outcome.Done? ==> st1.frames == st.frames)
  {
  }

  /** Inside a call, a name is visible exactly when it is a parameter: the
      boundary frame hides every variable of the caller. */
  lemma CalleeSeesOnlyParams(caller: seq<Frame>, params: seq<string>, vals: seq<Value>, x: string)
    ensures var m := Bind(params, vals);
      Lookup(caller + [Frame(m, true)], x) == if x in m then Some(m[x]) else None
  {
    CallerInvisible(caller, [Frame(Bind(params, vals), true)], x);
  }

  // ---------------------------------------------------------------------
  // Statements

  /** Assigning to a name that no visible frame holds is a NAME_ERROR found
      before the right-hand side runs: nothing is evaluated or output. */
  lemma AssignUnknown(funcs: FuncTable, fuel: nat, st: State, x: string, e: Expr)
    requires FindFrame(st.frames, x).None?
    ensures AssignVar(funcs, fuel, st, x, e) == (st, Fatal(NameError))
  {
  }

  /** A completed assignment writes the value where the name was found:
      afterwards the name reads as the value and every other name as before. */
  lemma AssignWrites(funcs: FuncTable, fuel: nat, st: State, x: string, e: Expr, y: string)
    requires FindFrame(st.frames, x).Some?
    requires var a := Eval(funcs, fuel, st, e).1; a.Done? && !a.ret.Raised?
    ensures var (st1, a) := Eval(funcs, fuel, st, e);
      var after := AssignVar(funcs, fuel, st, x, e).0;
      AssignVar(funcs, fuel, st, x, e).1 == Done(Nil, Continue) &&
      Lookup(after.frames, x) == Some(a.res) &&
      (y != x ==> Lookup(after.frames, y) == Lookup(st.frames, y)) &&
      after.out == st1.out && after.cursor == st1.cursor
  {
    var (st1, a) := Eval(funcs, fuel, st, e);
    AssignEffect(st.frames, x, a.res, y);
  }

  /** A declaration binds the name to nil in the innermost frame; declaring
      a name that frame already holds is a NAME_ERROR. */
  lemma VarDefDeclares(funcs: FuncTable, fuel: nat, st: State, x: string, res: Value, ret: Signal, y: string)
    requires |st.frames| > 0
    ensures x in st.frames[|st.frames| - 1].vars <==> ExecStmt(funcs, fuel, st, VarDef(x), res, ret).1 == Fatal(NameError)
    ensures x !in st.frames[|st.frames| - 1].vars ==>
      var (st1, a) := ExecStmt(funcs, fuel, st, VarDef(x), res, ret);
      a == Done(res, ret) && Lookup(st1.frames, x) == Some(Nil) &&
      (y != x ==> Lookup(st1.frames, y) == Lookup(st.frames, y))
  {
    if x !in st.frames[|st.frames| - 1].vars {
      DeclareEffect(st.frames, x, y);
    }
  }

  /** A raise needs a string, which becomes the exception's name. */
  lemma RaiseNeedsString(funcs: FuncTable, fuel: nat, st: State, e: Expr)
    ensures var (st1, a) := Eval(funcs, fuel, st, e);
      !a.Stops() ==>
        ExecRaise(funcs, fuel, st, e) == (st1, if a.res.Str? then Done(Nil, Raised(a.res.s)) else Fatal(TypeError))
  {
  }

  /** `return` and `raise` end their block: the statements after them do
      not run. */
  lemma ReturnEndsBlock(funcs: FuncTable, fuel: nat, st: State, stmts: seq<Stmt>, i: nat, res: Value, ret: Signal)
    requires i < |stmts| && |st.frames| > 0 && (stmts[i].Return? || stmts[i].Raise?)
    ensures BlockFrom(funcs, fuel, st, stmts, i, res, ret) == ExecStmt(funcs, fuel, st, stmts[i], res, ret)
  {
  }

  /** A `try` statement is never executed: the block goes on with the next
      statement in the same state and with the same pair. */
  lemma TryStep(funcs: FuncTable, fuel: nat, st: State, stmts: seq<Stmt>, i: nat, res: Value, ret: Signal)
    requires i < |stmts| && |st.frames| > 0 && stmts[i].Try?
    ensures BlockFrom(funcs, fuel, st, stmts, i, res, ret) == BlockFrom(funcs, fuel, st, stmts, i + 1, res, ret)
  {
  }

  /** So a block whose remaining statements are all `try` statements leaves
      the state and the pair as they were. */
  lemma {:induction false} TrySkipped(funcs: FuncTable, fuel: nat, st: State, stmts: seq<Stmt>, i: nat, res: Value, ret: Signal)
    requires i <= |stmts| && |st.frames| > 0
    requires forall k :: i <= k < |stmts| ==> stmts[k].Try?
    ensures BlockFrom(funcs, fuel, st, stmts, i, res, ret) == (st, Done(res, ret))
    decreases |stmts| - i
  {
    if i < |stmts| {
      TryStep(funcs, fuel, st, stmts, i, res, ret);
      TrySkipped(funcs, fuel, st, stmts, i + 1, res, ret);
    }
  }

  // ---------------------------------------------------------------------
  // The `(res, ret)` protocol as written

  /** An assignment whose right-hand side raises does not propagate the
      raise: the block goes on with its pair unchanged. */
  lemma AssignDropsRaise(funcs: FuncTable, fuel: nat, st: State, stmts: seq<Stmt>, i: nat, res: Value, ret: Signal)
    requires i < |stmts| && |st.frames| > 0 && stmts[i].Assign?
    requires var a := AssignVar(funcs, fuel, st, stmts[i].name, stmts[i].rhs).1; a.Done? && a.ret.Raised?
    ensures var st1 := AssignVar(funcs, fuel, st, stmts[i].name, stmts[i].rhs).0;
      BlockFrom(funcs, fuel, st, stmts, i, res, ret) == BlockFrom(funcs, fuel, st1, stmts, i + 1, res, ret)
  {
  }

  /** A call statement whose callee returned sets the caller's signal to
      "returned", whatever value was returned, without leaving the block, so the block's remaining
      statements still run and the block then reports a return. */
  lemma CallStmtKeepsReturned(funcs: FuncTable, fuel: nat, st: State, stmts: seq<Stmt>, i: nat, res: Value, ret: Signal)
    requires i < |stmts| && |st.frames| > 0 && stmts[i].CallStmt?
    requires var a := CallFn(funcs, fuel, st, stmts[i].name, stmts[i].args).1; a.Done? && a.ret == Returned
    ensures var st1 := CallFn(funcs, fuel, st, stmts[i].name, stmts[i].args).0;
      BlockFrom(funcs, fuel, st, stmts, i, res, ret) == BlockFrom(funcs, fuel, st1, stmts, i + 1, res, Returned)
  {
  }

  /** After a body that returned, the loop does not stop at once: the
      condition is evaluated again, and only a bool condition lets the
      return through. */
  lemma ReturnedBodyRechecksCondition(funcs: FuncTable, fuel: nat, st: State, s: Stmt, res: Value)
    requires s.For? && |st.frames| > 0 && fuel > 0
    ensures var (st1, c) := Eval(funcs, fuel, st, s.cond);
      ForIter(funcs, fuel, st, s, res, Returned) ==
        (st1, if c.Fatal? then c
              else if c.ret.Raised? then Done(res, c.ret)
              else if !c.res.Bool? then Fatal(TypeError)
              else Done(res, Returned))
  {
  }

  /** A body that raised does not stop the loop: while the condition holds
      the next pass runs, and the raise is reported only when the loop ends. */
  lemma RaisedBodyKeepsLooping(funcs: FuncTable, fuel: nat, st: State, s: Stmt, res: Value, name: string)
    requires s.For? && |st.frames| > 0 && fuel > 0
    requires var c := Eval(funcs, fuel, st, s.cond).1; c.Done? && !c.ret.Raised? && c.res == Bool(true)
    ensures var st1 := Eval(funcs, fuel, st, s.cond).0;
      var (st3, b) := ForBody(funcs, fuel, st1, s);
      ForIter(funcs, fuel, st, s, res, Raised(name)) ==
        if b.Fatal? then (st3, b) else ForIter(funcs, fuel - 1, st3, s, b.res, b.ret)
  {
  }

  /** A false condition ends the loop with the last body's pair, which may
      be a raise that happened passes ago. */
  lemma FalseConditionEndsLoop(funcs: FuncTable, fuel: nat, st: State, s: Stmt, res: Value, ret: Signal)
    requires s.For? && |st.frames| > 0 && fuel > 0
    requires var c := Eval(funcs, fuel, st, s.cond).1; c.Done? && c.res == Bool(false) && !c.ret.Raised?
    ensures ForIter(funcs, fuel, st, s, res, ret) == (Eval(funcs, fuel, st, s.cond).0, Done(res, ret))
  {
  }

  /** The initialising assignment of a `for` drops its raise like any
      assignment: the loop starts anyway. */
  lemma ForInitDropsRaise(funcs: FuncTable, fuel: nat, st: State, s: Stmt)
    requires s.For? && |st.frames| > 0
    requires var a := AssignVar(funcs, fuel, st, s.initVar, s.initRhs).1; a.Done? && a.ret.Raised?
    ensures ExecFor(funcs, fuel, st, s) ==
      ForIter(funcs, fuel, AssignVar(funcs, fuel, st, s.initVar, s.initRhs).0, s, Nil, Continue)
  {
  }

  /** An `if` whose condition completes with a value that is not a bool is a
      TYPE_ERROR. */
  lemma IfConditionMustBeBool(funcs: FuncTable, fuel: nat, st: State, s: Stmt)
    requires s.If? && |st.frames| > 0
    requires var c := Eval(funcs, fuel, st, s.cond).1; c.Done? && !c.ret.Raised? && !c.res.Bool?
    ensures ExecIf(funcs, fuel, st, s) == (Eval(funcs, fuel, st, s.cond).0, Fatal(TypeError))
  {
  }

  /** So is a pass of a `for` loop whose condition completes with a value that
      is not a bool, after whatever body ran before. */
  lemma ForConditionMustBeBool(funcs: FuncTable, fuel: nat, st: State, s: Stmt, res: Value, ret: Signal)
    requires s.For? && |st.frames| > 0 && fuel > 0
    requires var c := Eval(funcs, fuel, st, s.cond).1; c.Done? && !c.ret.Raised? && !c.res.Bool?
    ensures ForIter(funcs, fuel, st, s, res, ret) == (Eval(funcs, fuel, st, s.cond).0, Fatal(TypeError))
  {
  }

  /** The update of a `for` drops its raise: the pass ends with the body's
      pair in the state the update left behind. */
  lemma ForUpdateDropsRaise(funcs: FuncTable, fuel: nat, st: State, s: Stmt)
    requires s.For? && |st.frames| > 0
    requires var pushed := st.(frames := st.frames + [Frame(map[], false)]);
      BlockFrom(funcs, fuel, pushed, s.body, 0, Nil, Continue).1.Done?
    ensures var pushed := st.(frames := st.frames + [Frame(map[], false)]);
      var (st2, b) := BlockFrom(funcs, fuel, pushed, s.body, 0, Nil, Continue);
      var popped := st2.(frames := st2.frames[..|st.frames|]);
      var (st3, u) := AssignVar(funcs, fuel, popped, s.updateVar, s.updateRhs);
      u.Done? && u.ret.Raised? ==> ForBody(funcs, fuel, st, s) == (st3, b)
  {
  }
}
