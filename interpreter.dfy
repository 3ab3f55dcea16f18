/** The interpreter object itself: the function table, the scope stack that
    calls and blocks push and pop and that declarations and assignments
    write in place, the output log and the input. Each method is the
    Python method of the same name, and its postcondition says that it does
    exactly what the reference semantics does. */
module Interpreter {
  import opened Values
  import opened Ast
  import opened Scopes
  import opened Semantics
  import opened Program

  class Interpreter {
    var funcs: FuncTable
    var frames: seq<Frame>
    var out: seq<string>
    var input: seq<string>
    var cursor: nat

    /** The state as the reference semantics sees it. */
    function Snapshot(): State
      reads this
    {
      State(frames, out, input, cursor)
    }

    constructor (input: seq<string>)
      ensures funcs == map[] && frames == [] && out == [] && this.input == input && cursor == 0
    {
      funcs := map[];
      frames := [];
      out := [];
      this.input := input;
      cursor := 0;
    }

    /** The search shared by run_assign and variable lookup: innermost frame
        first, stopping after the first function-boundary frame. */
    method FindVisible(x: string) returns (j: Option<nat>)
      ensures j == FindFrame(frames, x)
    {
      var k := |frames|;
      assert frames[..k] == frames;
      while k > 0
        invariant k <= |frames|
        invariant FindFrame(frames[..k], x) == FindFrame(frames, x)
        decreases k
      {
        var f := frames[k - 1];
        if x in f.vars {
          return Some(k - 1);
        }
        if f.isFunc {
          return None;
        }
        assert frames[..k][..k - 1] == frames[..k - 1];
        k := k - 1;
      }
      return None;
    }

    /** `get_input()`, then `int()` of the line for `inputi`. */
    method GetInput(asInt: bool) returns (r: Outcome)
      modifies this`cursor
      ensures (Snapshot(), r) == ReadLine(asInt, old(Snapshot()))
    {
      if cursor >= |input| {
        return Fatal(NoInput);
      }
      var line := input[cursor];
      cursor := cursor + 1;
      if !asInt {
        return Done(Str(line), Continue);
      }
      match ParseInt(line)
      case Some(n) => r := Done(Int(n), Continue);
      case None => r := Fatal(ValueError);
    }

    method RunVardef(x: string) returns (r: Outcome)
      requires |frames| > 0
      modifies this`frames
      ensures Declare(old(frames), x).None? ==> r == Fatal(NameError) && frames == old(frames)
      ensures Declare(old(frames), x).Some? ==> r == Done(Nil, Continue) && frames == Declare(old(frames), x).value
    {
      var top := |frames| - 1;
      if x in frames[top].vars {
        return Fatal(NameError);
      }
      frames := frames[top := Frame(frames[top].vars[x := Nil], frames[top].isFunc)];
      r := Done(Nil, Continue);
    }

    method RunAssign(fuel: nat, x: string, e: Expr) returns (r: Outcome)
      modifies this`frames, this`out, this`cursor
      ensures (Snapshot(), r) == AssignVar(funcs, fuel, old(Snapshot()), x, e)
      decreases fuel, 1 + ExprSize(e), 0
    {
      var j := FindVisible(x);
      if j.None? {
        return Fatal(NameError);
      }
      var a := RunExpr(fuel, e);
      if a.Stops() {
        return a;
      }
      frames := SetVar(frames, j.value, x, a.res);
      r := Done(Nil, Continue);
    }

    method RunFcall(fuel: nat, name: string, args: seq<Expr>) returns (r: Outcome)
      modifies this`frames, this`out, this`cursor
      ensures (Snapshot(), r) == CallFn(funcs, fuel, old(Snapshot()), name, args)
      decreases fuel, 1 + ArgsSize(args), 0
    {
      if name == "inputi" || name == "inputs" {
        if |args| > 1 {
          return Fatal(NameError);
        }
        if |args| == 1 {
          ArgSmaller(args, 0);
          var a := RunExpr(fuel, args[0]);
          if a.Stops() {
            return a;
          }
          out := out + [PyStr(a.res)];
        }
        r := GetInput(name == "inputi");
        return;
      }

      if name == "print" {
        var line := "";
        var i := 0;
        while i < |args|
          invariant i <= |args|
          invariant PrintFrom(funcs, fuel, Snapshot(), args, i, line) == PrintFrom(funcs, fuel, old(Snapshot()), args, 0, "")
        {
          ArgSmaller(args, i);
          var a := RunExpr(fuel, args[i]);
          if a.Stops() {
            return a;
          }
          line := line + PrintForm(a.res);
          i := i + 1;
        }
        out := out + [line];
        return Done(Nil, Continue);
      }

      if (name, |args|) !in funcs {
        return Fatal(NameError);
      }
      var f := funcs[(name, |args|)];
      var vals := [];
      var i := 0;
      while i < |args|
        invariant i <= |args|
        invariant ArgsFrom(funcs, fuel, Snapshot(), args, i, vals) == ArgsFrom(funcs, fuel, old(Snapshot()), args, 0, [])
      {
        ArgSmaller(args, i);
        var a := RunExpr(fuel, args[i]);
        if a.Stops() {
          return a;
        }
        vals := vals + [a.res];
        i := i + 1;
      }
      if fuel == 0 {
        return Fatal(OutOfFuel);
      }
      ghost var caller := frames;
      var m := Bind(f.params, vals);
      frames := frames + [Frame(m, true)];
      r := RunStatements(fuel - 1, f.body);
      if r.Fatal? {
        return;
      }
      PopCall(caller, m, frames);
      frames := frames[..|frames| - 1];
    }

    method RunIf(fuel: nat, s: Stmt) returns (r: Outcome)
      requires s.If? && |frames| > 0
      modifies this`frames, this`out, this`cursor
      ensures (Snapshot(), r) == ExecIf(funcs, fuel, old(Snapshot()), s)
      decreases fuel, StmtSize(s), 0
    {
      var c := RunExpr(fuel, s.cond);
      if c.Stops() {
        return c;
      }
      if !c.res.Bool? {
        return Fatal(TypeError);
      }
      ghost var outer := frames;
      frames := frames + [Frame(map[], false)];
      if c.res.b {
        r := RunStatements(fuel, s.thenBody);
      } else if s.elseBody != [] {
        r := RunStatements(fuel, s.elseBody);
      } else {
        r := Done(Nil, Continue);
      }
      if r.Fatal? {
        return;
      }
      PopBlock(outer, map[], frames);
      frames := frames[..|frames| - 1];
    }

    method RunFor(fuel: nat, s: Stmt) returns (r: Outcome)
      requires s.For? && |frames| > 0
      modifies this`frames, this`out, this`cursor
      ensures (Snapshot(), r) == ExecFor(funcs, fuel, old(Snapshot()), s)
      decreases fuel, StmtSize(s), 2
    {
      ghost var s0 := Snapshot();
      ghost var goal := ExecFor(funcs, fuel, s0, s);
      var a := RunAssign(fuel, s.initVar, s.initRhs);
      ExecForStarts(funcs, fuel, s0, s, Snapshot(), a);
      if a.Fatal? {
        return a;
      }
      var res, ret := Nil, Continue;
      var f: nat := fuel;
      while true
        invariant f <= fuel && Pending(f, s, res, ret, goal)
        decreases f
      {
        var again;
        r, again := RunForPass(f, s, res, ret, goal);
        if !again {
          return;
        }
        res, ret := r.res, r.ret;
        f := f - 1;
      }
    }

    /** The rest of a for loop, from the current state, still ends as `goal`. */
    ghost predicate Pending(fuel: nat, s: Stmt, res: Value, ret: Signal, goal: (State, Outcome))
      reads this
      requires s.For?
    {
      |frames| > 0 && ForIter(funcs, fuel, Snapshot(), s, res, ret) == goal
    }

    /** One pass of the `while True` loop of run_for: the condition, then
        either the end of the loop or the body and the update. */
    method RunForPass(fuel: nat, s: Stmt, res: Value, ret: Signal, ghost goal: (State, Outcome)) returns (r: Outcome, again: bool)
      requires s.For? && Pending(fuel, s, res, ret, goal)
      modifies this`frames, this`out, this`cursor
      ensures !again ==> (Snapshot(), r) == goal
      ensures again ==> fuel > 0 && r.Done? && Pending(fuel - 1, s, r.res, r.ret, goal)
      decreases fuel, StmtSize(s), 1
    {
      if fuel == 0 {
        return Fatal(OutOfFuel), false;
      }
      ghost var s0 := Snapshot();
      var c := RunExpr(fuel, s.cond);
      ghost var s1 := Snapshot();
      var stop := ForTest(c, res, ret);
      if stop.Some? {
        ForIterStops(funcs, fuel, s0, s, res, ret, s1, c);
        return stop.value, false;
      }
      r := RunForBody(fuel, s);
      ForIterContinues(funcs, fuel, s0, s, res, ret, s1, c, Snapshot(), r);
      again := r.Done?;
    }

    method RunForBody(fuel: nat, s: Stmt) returns (r: Outcome)
      requires s.For? && |frames| > 0
      modifies this`frames, this`out, this`cursor
      ensures (Snapshot(), r) == ForBody(funcs, fuel, old(Snapshot()), s)
      decreases fuel, StmtSize(s), 0
    {
      ghost var outer := frames;
      frames := frames + [Frame(map[], false)];
      r := RunStatements(fuel, s.body);
      if r.Fatal? {
        return;
      }
      PopBlock(outer, map[], frames);
      frames := frames[..|frames| - 1];
      var u := RunAssign(fuel, s.updateVar, s.updateRhs);
      if u.Fatal? {
        return u;
      }
    }

    method RunReturn(fuel: nat, e: Option<Expr>) returns (r: Outcome)
      modifies this`frames, this`out, this`cursor
      ensures (Snapshot(), r) == ExecReturn(funcs, fuel, old(Snapshot()), e)
      decreases fuel, StmtSize(Return(e)), 0
    {
      if e.Some? {
        r := RunExpr(fuel, e.value);
      } else {
        r := Done(Nil, Returned);
      }
    }

    method RunRaise(fuel: nat, e: Expr) returns (r: Outcome)
      modifies this`frames, this`out, this`cursor
      ensures (Snapshot(), r) == ExecRaise(funcs, fuel, old(Snapshot()), e)
      decreases fuel, StmtSize(Raise(e)), 0
    {
      var a := RunExpr(fuel, e);
      if a.Stops() {
        return a;
      }
      if a.res.Str? {
        return Done(Nil, Raised(a.res.s));
      }
      r := Fatal(TypeError);
    }

    /** The rest of a block, from statement `i` in the current state, still
        ends as `goal`. */
    ghost predicate BlockPending(fuel: nat, stmts: seq<Stmt>, i: nat, res: Value, ret: Signal, goal: (State, Outcome))
      reads this
    {
      i <= |stmts| && |frames| > 0 && BlockFrom(funcs, fuel, Snapshot(), stmts, i, res, ret) == goal
    }

    method RunStatements(fuel: nat, stmts: seq<Stmt>) returns (r: Outcome)
      requires |frames| > 0
      modifies this`frames, this`out, this`cursor
      ensures (Snapshot(), r) == BlockFrom(funcs, fuel, old(Snapshot()), stmts, 0, Nil, Continue)
      decreases fuel, BlockSize(stmts), 0
    {
      ghost var goal := BlockFrom(funcs, fuel, Snapshot(), stmts, 0, Nil, Continue);
      var res, ret := Nil, Continue;
      var i := 0;
      while i < |stmts|
        invariant BlockPending(fuel, stmts, i, res, ret, goal)
      {
        StmtSmaller(stmts, i);
        BlockStep(funcs, fuel, Snapshot(), stmts, i, res, ret);
        var s := stmts[i];
        match s {
          case VarDef(x) =>
            var a := RunVardef(x);
            if a.Fatal? {
              return a;
            }
          case Assign(x, e) =>
            var a := RunAssign(fuel, x, e);
            if a.Fatal? {
              return a;
            }
          case CallStmt(name, args) =>
            var a := RunFcall(fuel, name, args);
            if a.Fatal? {
              return a;
            }
            ret := a.ret;
            if ret.Raised? {
              break;
            }
          case If(_, _, _) =>
            var a := RunIf(fuel, s);
            if a.Fatal? {
              return a;
            }
            res, ret := a.res, a.ret;
            if ret != Continue {
              break;
            }
          case For(_, _, _, _, _, _) =>
            var a := RunFor(fuel, s);
            if a.Fatal? {
              return a;
            }
            res, ret := a.res, a.ret;
            if ret != Continue {
              break;
            }
          case Return(e) =>
            var a := RunReturn(fuel, e);
            if a.Stops() {
              return a;
            }
            res, ret := a.res, Returned;
            break;
          case Raise(e) =>
            r := RunRaise(fuel, e);
            return;
          case Try(_, _) =>
        }
        i := i + 1;
      }
      r := Done(res, ret);
    }

    method RunExpr(fuel: nat, e: Expr) returns (r: Outcome)
      modifies this`frames, this`out, this`cursor
      ensures (Snapshot(), r) == Eval(funcs, fuel, old(Snapshot()), e)
      decreases fuel, ExprSize(e), 1
    {
      match e
      case Lit(v) =>
        r := Done(v, Continue);
      case Var(x) =>
        var j := FindVisible(x);
        if j.None? {
          return Fatal(NameError);
        }
        r := Done(frames[j.value].vars[x], Continue);
      case Call(name, args) =>
        r := RunFcall(fuel, name, args);
      case Binary(op, left, right) =>
        if op == And || op == Or {
          var a := RunExpr(fuel, left);
          if a.Stops() {
            return a;
          }
          if !a.res.Bool? {
            return Fatal(TypeError);
          }
          if (op == And && !a.res.b) || (op == Or && a.res.b) {
            return Done(Bool(op == Or), a.ret);
          }
          var b := RunExpr(fuel, right);
          if b.Stops() || b.res.Bool? {
            return b;
          }
          return Fatal(TypeError);
        }
        var a := RunExpr(fuel, left);
        if a.Stops() {
          return a;
        }
        var b := RunExpr(fuel, right);
        if b.Stops() {
          return b;
        }
        match ApplyBinary(op, a.res, b.res) {
          case Val(v) => r := Done(v, b.ret);
          case Err(k) => r := Fatal(k);
        }
      case Unary(op, x) =>
        var a := RunExpr(fuel, x);
        if a.Stops() {
          return a;
        }
        match ApplyUnary(op, a.res) {
          case Val(v) => r := Done(v, a.ret);
          case Err(k) => r := Fatal(k);
        }
    }

    /** `run`: fill the table in definition order, take the first key named
        main in the dictionary's order, call main and turn an escaping raise
        into a FAULT_ERROR. */
    method Run(defs: seq<FuncDef>, fuel: nat) returns (exit: Exit)
      requires funcs == map[] && frames == [] && out == [] && cursor == 0
      modifies this`funcs, this`frames, this`out, this`cursor
      ensures (out, exit) == RunProgram(defs, fuel, input)
    {
      var order: seq<Key> := [];
      var i := 0;
      while i < |defs|
        invariant i <= |defs|
        invariant funcs == BuildTable(defs[..i]) && order == KeyOrder(defs[..i])
        invariant frames == [] && out == [] && cursor == 0
      {
        var key := KeyOf(defs[i]);
        TableKeys(defs[..i], key);
        assert defs[..i + 1][..i] == defs[..i];
        if key !in funcs {
          order := order + [key];
        }
        funcs := funcs[key := defs[i]];
        i := i + 1;
      }
      assert defs[..|defs|] == defs;

      var mainKey: Option<Key> := None;
      var k := 0;
      while k < |order|
        invariant k <= |order|
        invariant mainKey.None? ==> FirstMain(order) == FirstMain(order[k..])
        invariant mainKey.Some? ==> FirstMain(order) == mainKey
      {
        if order[k].0 == "main" {
          mainKey := Some(order[k]);
          break;
        }
        assert order[k..][1..] == order[k + 1..];
        k := k + 1;
      }
      if mainKey.None? {
        return Failed(NameError);
      }

      var o := RunFcall(fuel, "main", MainArgs(mainKey.value.1));
      if o.Fatal? {
        return Failed(o.error);
      }
      if o.ret.Raised? {
        return Failed(FaultError);
      }
      exit := Completed;
    }
  }
}
