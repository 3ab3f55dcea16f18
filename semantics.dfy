/** The reference semantics of the interpreter: one function per `run_*`
    method of the Python class, each taking the interpreter state (scope
    stack, output log, input) and returning the new state with the
    `(res, ret)` pair the Python code returns, or the fatal error that
    aborts the run. A `fuel` bound, decremented on every user call and every
    loop iteration, makes the recursion well founded. */
module Semantics {
  import opened Values
  import opened Ast
  import opened Scopes

  type Key = (string, nat)
  type FuncTable = map<Key, FuncDef>

  /** The `ret` half of the Python pair: falsy (None or False) for
      "continue", True for "returned", a str for "raised with this name". */
  datatype Signal = Continue | Returned | Raised(name: string)

  /** The Python pair `(res, ret)`, or a fatal error. */
  datatype Outcome = Done(res: Value, ret: Signal) | Fatal(error: ErrorKind) {
    /** The condition under which every caller returns at once: a raise
        (`type(ret) == str`) or a fatal error unwinding the Python stack. */
    predicate Stops() {
      Fatal? || ret.Raised?
    }
  }

  /** The interpreter's mutable state: the scope stack `self.vars`, the
      lines output so far, and the input lines with how many were read. */
  datatype State = State(frames: seq<Frame>, out: seq<string>, input: seq<string>, cursor: nat)

  /** The output log only grows and the input is only read forward. */
  predicate Extends(a: State, b: State) {
    a.out <= b.out && b.input == a.input && a.cursor <= b.cursor
  }

  /** The argument values of a user call, or the outcome that stopped their evaluation. */
  datatype ArgValues = Values(vals: seq<Value>) | Stopped(outcome: Outcome)

  // ---------------------------------------------------------------------
  // Expressions: run_expr and run_fcall

  /** run_expr. Evaluation never changes the scope stack: calls pop what they push. */
  function Eval(funcs: FuncTable, fuel: nat, st: State, e: Expr): (r: (State, Outcome))
    ensures Extends(st, r.0)
    ensures r.1.Done? ==> r.0.frames == st.frames
    decreases fuel, ExprSize(e), 1
  {
    match e
    case Lit(v) => (st, Done(v, Continue))
    case Var(x) =>
      (match Lookup(st.frames, x)
       case Some(v) => (st, Done(v, Continue))
       case None => (st, Fatal(NameError)))
    case Call(name, args) => CallFn(funcs, fuel, st, name, args)
    case Binary(op, left, right) =>
      var (st1, a) := Eval(funcs, fuel, st, left);
      if a.Stops() then (st1, a)
      else if op == And || op == Or then
        if !a.res.Bool? then (st1, Fatal(TypeError))
        else if (op == And && !a.res.b) || (op == Or && a.res.b) then (st1, Done(Bool(op == Or), a.ret))
        else
          var (st2, b) := Eval(funcs, fuel, st1, right);
          if b.Stops() then (st2, b)
          else if b.res.Bool? then (st2, b)
          else (st2, Fatal(TypeError))
      else
        var (st2, b) := Eval(funcs, fuel, st1, right);
        if b.Stops() then (st2, b)
        else
          (match ApplyBinary(op, a.res, b.res)
           case Val(v) => (st2, Done(v, b.ret))
           case Err(k) => (st2, Fatal(k)))
    case Unary(op, x) =>
      var (st1, a) := Eval(funcs, fuel, st, x);
      if a.Stops() then (st1, a)
      else
        (match ApplyUnary(op, a.res)
         case Val(v) => (st1, Done(v, a.ret))
         case Err(k) => (st1, Fatal(k)))
  }

  /** run_fcall: the builtins `inputi`/`inputs` (at most one prompt argument)
      and `print`, then user functions keyed by name and argument count. A
      user call evaluates its arguments left to right, pushes a boundary
      frame binding the parameters, runs the body and pops the frame, so a
      call that is not fatal leaves the caller's stack exactly as it was. */
  function CallFn(funcs: FuncTable, fuel: nat, st: State, name: string, args: seq<Expr>): (r: (State, Outcome))
    ensures Extends(st, r.0)
    ensures r.1.Done? ==> r.0.frames == st.frames
    decreases fuel, 1 + ArgsSize(args), 0
  {
    if name == "inputi" || name == "inputs" then
      if |args| > 1 then (st, Fatal(NameError))
      else if |args| == 1 then
        var (st1, a) := Eval(funcs, fuel, st, args[0]);
        if a.Stops() then (st1, a)
        else ReadLine(name == "inputi", st1.(out := st1.out + [PyStr(a.res)]))
      else ReadLine(name == "inputi", st)
    else if name == "print" then PrintFrom(funcs, fuel, st, args, 0, "")
    else if (name, |args|) !in funcs then (st, Fatal(NameError))
    else
      var f := funcs[(name, |args|)];
      var (st1, ev) := ArgsFrom(funcs, fuel, st, args, 0, []);
      if ev.Stopped? then (st1, ev.outcome)
      else if fuel == 0 then (st1, Fatal(OutOfFuel))
      else
        var m := Bind(f.params, ev.vals);
        var (st2, b) := BlockFrom(funcs, fuel - 1, st1.(frames := st1.frames + [Frame(m, true)]), f.body, 0, Nil, Continue);
        if b.Fatal? then (st2, b)
        else
          PopCall(st1.frames, m, st2.frames);
          (st2.(frames := st2.frames[..|st1.frames|]), b)
  }

  /** `get_input()` once, then `int(line)` for `inputi` or the raw line for `inputs`. */
  function ReadLine(asInt: bool, st: State): (r: (State, Outcome))
    ensures Extends(st, r.0) && r.0.frames == st.frames && r.0.out == st.out
    ensures r.0.cursor <= st.cursor + 1
  {
    if st.cursor >= |st.input| then (st, Fatal(NoInput))
    else
      var line := st.input[st.cursor];
      var st1 := st.(cursor := st.cursor + 1);
      if !asInt then (st1, Done(Str(line), Continue))
      else
        match ParseInt(line)
        case Some(n) => (st1, Done(Int(n), Continue))
        case None => (st1, Fatal(ValueError))
  }

  /** The argument loop of a user call, from argument `i` on. */
  function ArgsFrom(funcs: FuncTable, fuel: nat, st: State, args: seq<Expr>, i: nat, vals: seq<Value>): (r: (State, ArgValues))
    requires i <= |args|
    ensures Extends(st, r.0)
    ensures r.1.Values? ==> |r.1.vals| == |vals| + |args| - i
    ensures r.1.Stopped? ==> r.1.outcome.Stops()
    ensures r.1.Values? || r.1.outcome.Done? ==> r.0.frames == st.frames
    decreases fuel, ArgsSize(args), |args| - i
  {
    if i == |args| then (st, Values(vals))
    else
      ArgSmaller(args, i);
      var (st1, a) := Eval(funcs, fuel, st, args[i]);
      if a.Stops() then (st1, Stopped(a))
      else ArgsFrom(funcs, fuel, st1, args, i + 1, vals + [a.res])
  }

  /** The loop of `print`, from argument `i` on, with the text rendered so
      far; at the end the whole line is output at once. */
  function PrintFrom(funcs: FuncTable, fuel: nat, st: State, args: seq<Expr>, i: nat, line: string): (r: (State, Outcome))
    requires i <= |args|
    ensures Extends(st, r.0)
    ensures r.1.Done? ==> r.0.frames == st.frames
    decreases fuel, ArgsSize(args), |args| - i
  {
    if i == |args| then (st.(out := st.out + [line]), Done(Nil, Continue))
    else
      ArgSmaller(args, i);
      var (st1, a) := Eval(funcs, fuel, st, args[i]);
      if a.Stops() then (st1, a)
      else PrintFrom(funcs, fuel, st1, args, i + 1, line + PrintForm(a.res))
  }

  // ---------------------------------------------------------------------
  // Statements

  /** run_assign: the name is searched before the right-hand side is
      evaluated; a raise in the right-hand side leaves the variable alone and
      is handed back (the callers then drop it). */
  function AssignVar(funcs: FuncTable, fuel: nat, st: State, x: string, e: Expr): (r: (State, Outcome))
    ensures Extends(st, r.0)
    ensures r.1.Done? ==> Preserves(st.frames, r.0.frames)
    decreases fuel, 1 + ExprSize(e), 0
  {
    match FindFrame(st.frames, x)
    case None => (st, Fatal(NameError))
    case Some(j) =>
      var (st1, a) := Eval(funcs, fuel, st, e);
      if a.Stops() then (st1, a)
      else
        AssignEffect(st.frames, x, a.res, x);
        (st1.(frames := SetVar(st1.frames, j, x, a.res)), Done(Nil, Continue))
  }

  /** run_if: the condition must be a bool; the chosen branch runs in a fresh
      block frame that is popped afterwards. */
  function ExecIf(funcs: FuncTable, fuel: nat, st: State, s: Stmt): (r: (State, Outcome))
    requires s.If? && |st.frames| > 0
    ensures Extends(st, r.0)
    ensures r.1.Done? ==> Preserves(st.frames, r.0.frames)
    decreases fuel, StmtSize(s), 0
  {
    var (st1, c) := Eval(funcs, fuel, st, s.cond);
    if c.Stops() then (st1, c)
    else if !c.res.Bool? then (st1, Fatal(TypeError))
    else
      var pushed := st1.(frames := st1.frames + [Frame(map[], false)]);
      var (st2, b) :=
        if c.res.b then BlockFrom(funcs, fuel, pushed, s.thenBody, 0, Nil, Continue)
        else BlockFrom(funcs, fuel, pushed, s.elseBody, 0, Nil, Continue);
      if b.Fatal? then (st2, b)
      else
        PopBlock(st1.frames, map[], st2.frames);
        (st2.(frames := st2.frames[..|st1.frames|]), b)
  }

  /** run_for: the initialising assignment (whose raise is dropped), then the loop. */
  function ExecFor(funcs: FuncTable, fuel: nat, st: State, s: Stmt): (r: (State, Outcome))
    requires s.For? && |st.frames| > 0
    ensures Extends(st, r.0)
    ensures r.1.Done? ==> Preserves(st.frames, r.0.frames)
    decreases fuel, StmtSize(s), 2
  {
    var (st1, a) := AssignVar(funcs, fuel, st, s.initVar, s.initRhs);
    if a.Fatal? then (st1, a)
    else
      var (st2, b) := ForIter(funcs, fuel, st1, s, Nil, Continue);
      PreservesTrans(st.frames, st1.frames, st2.frames);
      (st2, b)
  }

  /** One pass of the `while True` loop of run_for, carrying the last body's
      `(res, ret)`. The condition is evaluated first; only then does a
      returned body stop the loop. A raised body does not stop it. */
  function ForIter(funcs: FuncTable, fuel: nat, st: State, s: Stmt, res: Value, ret: Signal): (r: (State, Outcome))
    requires s.For? && |st.frames| > 0
    ensures Extends(st, r.0)
    ensures r.1.Done? ==> Preserves(st.frames, r.0.frames)
    decreases fuel, StmtSize(s), 1
  {
    if fuel == 0 then (st, Fatal(OutOfFuel))
    else
      var (st1, c) := Eval(funcs, fuel, st, s.cond);
      match ForTest(c, res, ret)
      case Some(o) => (st1, o)
      case None =>
        var (st3, b) := ForBody(funcs, fuel, st1, s);
        if b.Fatal? then (st3, b)
        else
          var (st4, o) := ForIter(funcs, fuel - 1, st3, s, b.res, b.ret);
          PreservesTrans(st.frames, st3.frames, st4.frames);
          (st4, o)
  }

  /** The loop starts after its initialising assignment, whatever that
      assignment's signal, unless the assignment was fatal. */
  lemma ExecForStarts(funcs: FuncTable, fuel: nat, st: State, s: Stmt, st1: State, a: Outcome)
    requires s.For? && |st.frames| > 0
    requires (st1, a) == AssignVar(funcs, fuel, st, s.initVar, s.initRhs)
    ensures a.Fatal? ==> ExecFor(funcs, fuel, st, s) == (st1, a)
    ensures a.Done? ==> |st1.frames| > 0 && ExecFor(funcs, fuel, st, s) == ForIter(funcs, fuel, st1, s, Nil, Continue)
  {
  }

  /** One pass of the loop that stops after the condition: the result is the
      state after the condition and the outcome `ForTest` chose. */
  lemma ForIterStops(funcs: FuncTable, fuel: nat, st: State, s: Stmt, res: Value, ret: Signal, st1: State, c: Outcome)
    requires s.For? && |st.frames| > 0 && fuel > 0
    requires (st1, c) == Eval(funcs, fuel, st, s.cond) && ForTest(c, res, ret).Some?
    ensures ForIter(funcs, fuel, st, s, res, ret) == (st1, ForTest(c, res, ret).value)
  {
  }

  /** One pass of the loop that runs the body: the rest of the loop starts
      from the state after the body and the update, with one unit of fuel
      less and the body's pair. */
  lemma ForIterContinues(funcs: FuncTable, fuel: nat, st: State, s: Stmt, res: Value, ret: Signal,
                         st1: State, c: Outcome, st3: State, b: Outcome)
    requires s.For? && |st.frames| > 0 && fuel > 0
    requires (st1, c) == Eval(funcs, fuel, st, s.cond) && ForTest(c, res, ret).None?
    requires (st3, b) == ForBody(funcs, fuel, st1, s)
    ensures b.Fatal? ==> ForIter(funcs, fuel, st, s, res, ret) == (st3, b)
    ensures b.Done? ==> ForIter(funcs, fuel, st, s, res, ret) == ForIter(funcs, fuel - 1, st3, s, b.res, b.ret)
  {
  }

  /** What run_for does with the condition's outcome: stop with the fatal
      error, with the condition's raise, with a TYPE_ERROR for a condition
      that is not a bool, or with the last body's pair once the condition is
      false or that body returned. None means: run the body. */
  function ForTest(c: Outcome, res: Value, ret: Signal): (r: Option<Outcome>)
    ensures r.None? <==> c.Done? && !c.ret.Raised? && c.res == Bool(true) && ret != Returned
    ensures r.Some? && r.value.Done? ==>
      c.Done? && r.value.res == res && r.value.ret == (if c.ret.Raised? then c.ret else ret)
    ensures c.Fatal? ==> r == Some(c)
    ensures c.Done? && !c.ret.Raised? && !c.res.Bool? ==> r == Some(Fatal(TypeError))
  {
    if c.Fatal? then Some(c)
    else if c.ret.Raised? then Some(Done(res, c.ret))
    else if !c.res.Bool? then Some(Fatal(TypeError))
    else if ret == Returned || !c.res.b then Some(Done(res, ret))
    else None
  }

  /** The body of one pass of run_for: the body in a block of its own, the
      block popped, then the update, whose raise is dropped. A result that is
      not fatal is the body's `(res, ret)`. */
  function ForBody(funcs: FuncTable, fuel: nat, st: State, s: Stmt): (r: (State, Outcome))
    requires s.For? && |st.frames| > 0
    ensures Extends(st, r.0)
    ensures r.1.Done? ==> Preserves(st.frames, r.0.frames)
    ensures r.1.Done? ==>
      r.1 == BlockFrom(funcs, fuel, st.(frames := st.frames + [Frame(map[], false)]), s.body, 0, Nil, Continue).1
    decreases fuel, StmtSize(s), 0
  {
    var pushed := st.(frames := st.frames + [Frame(map[], false)]);
    var (st2, b) := BlockFrom(funcs, fuel, pushed, s.body, 0, Nil, Continue);
    if b.Fatal? then (st2, b)
    else
      PopBlock(st.frames, map[], st2.frames);
      var popped := st2.(frames := st2.frames[..|st.frames|]);
      var (st3, u) := AssignVar(funcs, fuel, popped, s.updateVar, s.updateRhs);
      if u.Fatal? then (st3, u)
      else
        PreservesTrans(st.frames, popped.frames, st3.frames);
        (st3, b)
  }

  /** run_return: no expression returns nil with `ret` True; otherwise the
      expression's own pair, which run_statements then marks as returned. */
  function ExecReturn(funcs: FuncTable, fuel: nat, st: State, e: Option<Expr>): (r: (State, Outcome))
    ensures Extends(st, r.0)
    ensures r.1.Done? ==> r.0.frames == st.frames
    decreases fuel, StmtSize(Return(e)), 0
  {
    match e
    case None => (st, Done(Nil, Returned))
    case Some(x) => Eval(funcs, fuel, st, x)
  }

  /** run_raise: a string names the exception; anything else is a TYPE_ERROR;
      a raise while computing the name propagates. */
  function ExecRaise(funcs: FuncTable, fuel: nat, st: State, e: Expr): (r: (State, Outcome))
    ensures Extends(st, r.0)
    ensures r.1.Done? ==> r.0.frames == st.frames && r.1.ret.Raised?
    decreases fuel, StmtSize(Raise(e)), 0
  {
    var (st1, a) := Eval(funcs, fuel, st, e);
    if a.Stops() then (st1, a)
    else if a.res.Str? then (st1, Done(Nil, Raised(a.res.s)))
    else (st1, Fatal(TypeError))
  }

  /** The loop of run_statements from statement `i` on, carrying `(res, ret)`.
      A statement kind it does not dispatch on (`try`) is skipped. */
  function BlockFrom(funcs: FuncTable, fuel: nat, st: State, stmts: seq<Stmt>, i: nat, res: Value, ret: Signal): (r: (State, Outcome))
    requires i <= |stmts| && |st.frames| > 0
    ensures Extends(st, r.0)
    ensures r.1.Done? ==> Preserves(st.frames, r.0.frames)
    decreases fuel, BlockSize(stmts), |stmts| - i
  {
    if i == |stmts| then (st, Done(res, ret))
    else
      StmtSmaller(stmts, i);
      var (st1, a) := ExecStmt(funcs, fuel, st, stmts[i], res, ret);
      if a.Fatal? || EndsBlock(stmts[i], a.ret) then (st1, a)
      else
        var (st2, b) := BlockFrom(funcs, fuel, st1, stmts, i + 1, a.res, a.ret);
        PreservesTrans(st.frames, st1.frames, st2.frames);
        (st2, b)
  }

  /** One step of a block: statement `i` runs, then either the block ends
      with its outcome or the rest of the block runs. */
  lemma BlockStep(funcs: FuncTable, fuel: nat, st: State, stmts: seq<Stmt>, i: nat, res: Value, ret: Signal)
    requires i < |stmts| && |st.frames| > 0
    ensures var (st1, a) := ExecStmt(funcs, fuel, st, stmts[i], res, ret);
      BlockFrom(funcs, fuel, st, stmts, i, res, ret) ==
        if a.Fatal? || EndsBlock(stmts[i], a.ret) then (st1, a)
        else BlockFrom(funcs, fuel, st1, stmts, i + 1, a.res, a.ret)
  {
  }

  /** Whether run_statements leaves its loop after a statement of this kind
      produced `ret`: never after `vardef`, `=` or a skipped kind; after a
      call statement only on a raise; after `if`/`for` on any signal other
      than "continue"; always after `return` and `raise`. */
  predicate EndsBlock(s: Stmt, ret: Signal) {
    match s
    case VarDef(_) => false
    case Assign(_, _) => false
    case Try(_, _) => false
    case CallStmt(_, _) => ret.Raised?
    case If(_, _, _) => ret != Continue
    case For(_, _, _, _, _, _) => ret != Continue
    case Return(_) => true
    case Raise(_) => true
  }

  /** One pass of the body of the run_statements loop: the statement's effect
      on `(res, ret)`. `vardef` and `=` leave the pair alone (the assignment's
      result is ignored); a call statement takes the callee's `ret` but keeps
      `res`; `if` and `for` replace both; `return` marks its pair returned. */
  function ExecStmt(funcs: FuncTable, fuel: nat, st: State, s: Stmt, res: Value, ret: Signal): (r: (State, Outcome))
    requires |st.frames| > 0
    ensures Extends(st, r.0)
    ensures r.1.Done? ==> Preserves(st.frames, r.0.frames)
    decreases fuel, StmtSize(s), 3
  {
    match s
    case VarDef(x) =>
      (match Declare(st.frames, x)
       case Some(fr) =>
         DeclareEffect(st.frames, x, x);
         (st.(frames := fr), Done(res, ret))
       case None => (st, Fatal(NameError)))
    case Assign(x, e) =>
      var (st1, a) := AssignVar(funcs, fuel, st, x, e);
      if a.Fatal? then (st1, a) else (st1, Done(res, ret))
    case CallStmt(name, args) =>
      var (st1, a) := CallFn(funcs, fuel, st, name, args);
      if a.Fatal? then (st1, a) else (st1, Done(res, a.ret))
    case If(_, _, _) => ExecIf(funcs, fuel, st, s)
    case For(_, _, _, _, _, _) => ExecFor(funcs, fuel, st, s)
    case Return(e) =>
      var (st1, a) := ExecReturn(funcs, fuel, st, e);
      if a.Stops() then (st1, a) else (st1, Done(a.res, Returned))
    case Raise(e) => ExecRaise(funcs, fuel, st, e)
    case Try(_, _) => (st, Done(res, ret))
  }
}
