/** Whole programs run through the reference semantics, showing the
    interpreter's `(res, ret)` protocol where it departs from what the
    language's statements suggest. */
module Scenarios {
  import opened Values
  import opened Ast
  import opened Scopes
  import opened Semantics
  import opened Program
  import opened Properties

  // A `return` inside a `for` body: the update still runs and the condition
  // is checked again before the return takes effect.
  //
  //   func main() {
  //     var i;
  //     for (i = 0; i < 3; i = "s") { print(i); return; }
  //     print("after");
  //   }

  const LoopCond := Binary(Lt, Var("i"), Lit(Int(3)))
  const LoopBody := [CallStmt("print", [Var("i")]), Return(None)]
  const Loop := For("i", Lit(Int(0)), LoopCond, "i", Lit(Str("s")), LoopBody)
  const LoopMain := [VarDef("i"), Loop, CallStmt("print", [Lit(Str("after"))])]
  const LoopProgram := [FuncDef("main", [], LoopMain)]

  /** The stack inside main once `i` holds `v`, with `out` printed so far. */
  function InMain(v: Value, out: seq<string>): State {
    State([Frame(map["i" := v], true)], out, [], 0)
  }

  lemma LoopStart(funcs: FuncTable)
    ensures var s1 := State([Frame(map[], true)], [], [], 0);
      ExecStmt(funcs, 2, s1, VarDef("i"), Nil, Continue) == (InMain(Nil, []), Done(Nil, Continue)) &&
      AssignVar(funcs, 2, InMain(Nil, []), "i", Lit(Int(0))) == (InMain(Int(0), []), Done(Nil, Continue))
  {
    var s1 := State([Frame(map[], true)], [], [], 0);
    var s2 := InMain(Nil, []);
    assert map[]["i" := Nil] == map["i" := Nil];
    assert s1.frames[0 := Frame(map["i" := Nil], true)] == s2.frames;
    assert Declare(s1.frames, "i") == Some(s2.frames);
    assert FindFrame(s2.frames, "i") == Some(0);
    assert map["i" := Nil]["i" := Int(0)] == map["i" := Int(0)];
    assert SetVar(s2.frames, 0, "i", Int(0)) == InMain(Int(0), []).frames;
  }

  lemma LoopPrint(funcs: FuncTable)
    ensures var pushed := State(InMain(Int(0), []).frames + [Frame(map[], false)], [], [], 0);
      CallFn(funcs, 2, pushed, "print", [Var("i")]) == (pushed.(out := ["0"]), Done(Nil, Continue))
  {
    var pushed := State(InMain(Int(0), []).frames + [Frame(map[], false)], [], [], 0);
    assert FindFrame(pushed.frames, "i") == Some(0);
    assert Eval(funcs, 2, pushed, Var("i")) == (pushed, Done(Int(0), Continue));
    assert PrintForm(Int(0)) == "0";
    assert "" + "0" == "0";
    assert pushed.out + ["0"] == ["0"];
    assert PrintFrom(funcs, 2, pushed, [Var("i")], 1, "0") == (pushed.(out := ["0"]), Done(Nil, Continue));
  }

  lemma LoopBodyPass(funcs: FuncTable)
    ensures var pushed := State(InMain(Int(0), []).frames + [Frame(map[], false)], [], [], 0);
      BlockFrom(funcs, 2, pushed, LoopBody, 0, Nil, Continue) == (pushed.(out := ["0"]), Done(Nil, Returned))
  {
    var pushed := State(InMain(Int(0), []).frames + [Frame(map[], false)], [], [], 0);
    var printed := pushed.(out := ["0"]);
    LoopPrint(funcs);
    assert BlockFrom(funcs, 2, printed, LoopBody, 1, Nil, Continue) == (printed, Done(Nil, Returned));
  }

  lemma LoopUpdate(funcs: FuncTable)
    ensures AssignVar(funcs, 2, InMain(Int(0), ["0"]), "i", Lit(Str("s"))) == (InMain(Str("s"), ["0"]), Done(Nil, Continue))
  {
    var s4 := InMain(Int(0), ["0"]);
    assert FindFrame(s4.frames, "i") == Some(0);
    assert map["i" := Int(0)]["i" := Str("s")] == map["i" := Str("s")];
    assert SetVar(s4.frames, 0, "i", Str("s")) == InMain(Str("s"), ["0"]).frames;
  }

  lemma LoopFirstCheck(funcs: FuncTable)
    ensures Eval(funcs, 2, InMain(Int(0), []), LoopCond) == (InMain(Int(0), []), Done(Bool(true), Continue))
  {
    assert Eval(funcs, 2, InMain(Int(0), []), Var("i")) == (InMain(Int(0), []), Done(Int(0), Continue));
  }

  lemma LoopFirstPass(funcs: FuncTable)
    ensures ForBody(funcs, 2, InMain(Int(0), []), Loop) == (InMain(Str("s"), ["0"]), Done(Nil, Returned))
  {
    LoopBodyPass(funcs);
    LoopUpdate(funcs);
    var printed := State(InMain(Int(0), []).frames + [Frame(map[], false)], ["0"], [], 0);
    assert printed.frames[..1] == InMain(Int(0), ["0"]).frames;
  }

  lemma LoopSecondCheck(funcs: FuncTable)
    ensures ForIter(funcs, 1, InMain(Str("s"), ["0"]), Loop, Nil, Returned) == (InMain(Str("s"), ["0"]), Fatal(TypeError))
  {
    var s5 := InMain(Str("s"), ["0"]);
    assert Eval(funcs, 1, s5, Var("i")) == (s5, Done(Str("s"), Continue));
    assert Eval(funcs, 1, s5, LoopCond) == (s5, Fatal(TypeError));
  }

  lemma LoopRuns(funcs: FuncTable)
    ensures ExecFor(funcs, 2, InMain(Nil, []), Loop) == (InMain(Str("s"), ["0"]), Fatal(TypeError))
  {
    LoopStart(funcs);
    LoopFirstCheck(funcs);
    LoopFirstPass(funcs);
    LoopSecondCheck(funcs);
    ForIterContinues(funcs, 2, InMain(Int(0), []), Loop, Nil, Continue,
      InMain(Int(0), []), Done(Bool(true), Continue), InMain(Str("s"), ["0"]), Done(Nil, Returned));
  }

  lemma LoopMainBody(funcs: FuncTable)
    ensures BlockFrom(funcs, 2, State([Frame(map[], true)], [], [], 0), LoopMain, 0, Nil, Continue) ==
      (InMain(Str("s"), ["0"]), Fatal(TypeError))
  {
    LoopStart(funcs);
    LoopRuns(funcs);
    assert BlockFrom(funcs, 2, InMain(Nil, []), LoopMain, 1, Nil, Continue) == (InMain(Str("s"), ["0"]), Fatal(TypeError));
  }

  /** The body prints 0 and returns, yet the update assigns a string and
      the condition `i < 3` that is evaluated afterwards fails: the run ends
      with TYPE_ERROR instead of returning from main. */
  lemma ReturnInsideFor()
    ensures RunProgram(LoopProgram, 3, []) == (["0"], Failed(TypeError))
  {
    var funcs := BuildTable(LoopProgram);
    assert LoopProgram[..0] == [];
    assert ("main", 0) in funcs && funcs[("main", 0)] == LoopProgram[0];
    assert KeyOrder(LoopProgram) == [("main", 0)];
    assert MainArgs(0) == [];
    LoopMainBody(funcs);
    assert Bind([], []) == map[];
    assert CallFn(funcs, 3, State([], [], [], 0), "main", []) == (InMain(Str("s"), ["0"]), Fatal(TypeError));
  }

  // A call statement whose callee returned makes the enclosing block report
  // a return, so the `if` around it returns from main.
  //
  //   func f() { return; }
  //   func main() {
  //     if (true) { print("a"); f(); }
  //     print("b");
  //   }

  const Then := [CallStmt("print", [Lit(Str("a"))]), CallStmt("f", [])]
  const CallMain := [If(Lit(Bool(true)), Then, []), CallStmt("print", [Lit(Str("b"))])]
  const CallProgram := [FuncDef("f", [], [Return(None)]), FuncDef("main", [], CallMain)]

  /** Inside the `if` block of main, with `out` printed so far. */
  function InBlock(out: seq<string>): State {
    State([Frame(map[], true), Frame(map[], false)], out, [], 0)
  }

  lemma CallPrintsA(funcs: FuncTable)
    ensures CallFn(funcs, 2, InBlock([]), "print", [Lit(Str("a"))]) == (InBlock(["a"]), Done(Nil, Continue))
  {
    PrintOutputsOneLine(funcs, 2, InBlock([]), [Str("a")]);
    assert Literals([Str("a")]) == [Lit(Str("a"))];
    assert Rendered([Str("a")]) == "a" by {
      assert [Str("a")][..0] == [];
    }
    assert InBlock([]).out + ["a"] == ["a"];
  }

  lemma CallReturns(funcs: FuncTable)
    requires ("f", 0) in funcs && funcs[("f", 0)] == CallProgram[0]
    ensures CallFn(funcs, 2, InBlock(["a"]), "f", []) == (InBlock(["a"]), Done(Nil, Returned))
  {
    UserCall(funcs, 2, InBlock(["a"]), "f", []);
    assert Literals([]) == [];
    assert Bind([], []) == map[];
  }

  lemma CallThenBlock(funcs: FuncTable)
    requires ("f", 0) in funcs && funcs[("f", 0)] == CallProgram[0]
    ensures BlockFrom(funcs, 2, InBlock([]), Then, 0, Nil, Continue) == (InBlock(["a"]), Done(Nil, Returned))
  {
    CallPrintsA(funcs);
    CallReturns(funcs);
    assert BlockFrom(funcs, 2, InBlock(["a"]), Then, 1, Nil, Continue) == (InBlock(["a"]), Done(Nil, Returned));
  }

  lemma CallMainBody(funcs: FuncTable)
    requires ("f", 0) in funcs && funcs[("f", 0)] == CallProgram[0]
    ensures BlockFrom(funcs, 2, State([Frame(map[], true)], [], [], 0), CallMain, 0, Nil, Continue) ==
      (State([Frame(map[], true)], ["a"], [], 0), Done(Nil, Returned))
  {
    var m0 := State([Frame(map[], true)], [], [], 0);
    assert m0.frames + [Frame(map[], false)] == InBlock([]).frames;
    CallThenBlock(funcs);
    assert InBlock(["a"]).frames[..1] == m0.frames;
    assert ExecIf(funcs, 2, m0, CallMain[0]) == (m0.(out := ["a"]), Done(Nil, Returned));
  }

  /** The table of the second program holds both functions, and main is
      the first key named main. */
  lemma CallTable()
    ensures var funcs := BuildTable(CallProgram);
      ("f", 0) in funcs && funcs[("f", 0)] == CallProgram[0] &&
      ("main", 0) in funcs && funcs[("main", 0)] == CallProgram[1]
    ensures FirstMain(KeyOrder(CallProgram)) == Some(("main", 0))
  {
    assert CallProgram[..1][..0] == [];
    assert CallProgram[..1] == [CallProgram[0]];
    assert CallProgram[..|CallProgram| - 1] == CallProgram[..1];
    assert ("f", 0) in BuildTable(CallProgram[..1]) && BuildTable(CallProgram[..1])[("f", 0)] == CallProgram[0];
    assert KeyOrder(CallProgram[..1]) == [("f", 0)];
    assert KeyOrder(CallProgram) == [("f", 0), ("main", 0)];
    assert FirstMain([("f", 0), ("main", 0)]) == Some(("main", 0));
  }

  lemma CallMainReturns(funcs: FuncTable)
    requires ("f", 0) in funcs && funcs[("f", 0)] == CallProgram[0]
    requires ("main", 0) in funcs && funcs[("main", 0)] == CallProgram[1]
    ensures CallFn(funcs, 3, State([], [], [], 0), "main", []) == (State([], ["a"], [], 0), Done(Nil, Returned))
  {
    UserCall(funcs, 3, State([], [], [], 0), "main", []);
    assert Literals([]) == [];
    assert Bind([], []) == map[];
    CallMainBody(funcs);
  }

  /** `f();` leaves the signal "returned" in the `if` block, the `if` hands
      it to main's block as a return, and `print("b")` never runs. */
  lemma CallStatementReturnsFromCaller()
    ensures RunProgram(CallProgram, 3, []) == (["a"], Completed)
  {
    CallTable();
    assert MainArgs(0) == [];
    CallMainReturns(BuildTable(CallProgram));
  }

  // `try` is not executed at all, and a raise that leaves main is a fault.
  //
  //   func main() {
  //     try { raise "e"; } catch "e" { print("c"); }
  //     print("d");
  //     raise "boom";
  //   }

  const TryMain := [
    Try([Raise(Lit(Str("e")))], [Catcher("e", [CallStmt("print", [Lit(Str("c"))])])]),
    CallStmt("print", [Lit(Str("d"))]),
    Raise(Lit(Str("boom")))]
  const TryProgram := [FuncDef("main", [], TryMain)]

  lemma TryPrintsD(funcs: FuncTable)
    ensures CallFn(funcs, 2, State([Frame(map[], true)], [], [], 0), "print", [Lit(Str("d"))]) ==
      (State([Frame(map[], true)], ["d"], [], 0), Done(Nil, Continue))
  {
    var m0 := State([Frame(map[], true)], [], [], 0);
    PrintOutputsOneLine(funcs, 2, m0, [Str("d")]);
    assert Literals([Str("d")]) == [Lit(Str("d"))];
    assert Rendered([Str("d")]) == "d" by {
      assert [Str("d")][..0] == [];
    }
    assert m0.out + ["d"] == ["d"];
  }

  lemma TryMainBody(funcs: FuncTable)
    ensures BlockFrom(funcs, 2, State([Frame(map[], true)], [], [], 0), TryMain, 0, Nil, Continue) ==
      (State([Frame(map[], true)], ["d"], [], 0), Done(Nil, Raised("boom")))
  {
    var m0 := State([Frame(map[], true)], [], [], 0);
    var m1 := m0.(out := ["d"]);
    TryPrintsD(funcs);
    assert BlockFrom(funcs, 2, m1, TryMain, 2, Nil, Continue) == (m1, Done(Nil, Raised("boom")));
    assert BlockFrom(funcs, 2, m0, TryMain, 1, Nil, Continue) == (m1, Done(Nil, Raised("boom")));
  }

  lemma TryMainRaises(funcs: FuncTable)
    requires ("main", 0) in funcs && funcs[("main", 0)] == TryProgram[0]
    ensures CallFn(funcs, 3, State([], [], [], 0), "main", []) == (State([], ["d"], [], 0), Done(Nil, Raised("boom")))
  {
    UserCall(funcs, 3, State([], [], [], 0), "main", []);
    assert Literals([]) == [];
    assert Bind([], []) == map[];
    TryMainBody(funcs);
  }

  /** The handler never runs because the `try` is skipped, the print after
      it does, and the raise that follows ends the run with FAULT_ERROR. */
  lemma TryIsSkippedAndRaiseFaults()
    ensures RunProgram(TryProgram, 3, []) == (["d"], Failed(FaultError))
  {
    var funcs := BuildTable(TryProgram);
    assert TryProgram[..0] == [];
    assert ("main", 0) in funcs && funcs[("main", 0)] == TryProgram[0];
    assert KeyOrder(TryProgram) == [("main", 0)];
    assert MainArgs(0) == [];
    TryMainRaises(funcs);
  }
}
