/** The parsed program the interpreter walks. Parsing itself is not part of
    this model: a program arrives as these nodes, one constructor per
    `elem_type` that the interpreter dispatches on. */
module Ast {
  import opened Values

  datatype Expr =
    | Lit(v: Value)                              // 'int', 'string', 'bool'; 'nil' and unknown kinds yield None
    | Var(name: string)                          // 'var'
    | Call(name: string, args: seq<Expr>)        // 'fcall'
    | Binary(op: BinOp, left: Expr, right: Expr) // the twelve binary operators
    | Unary(uop: UnOp, operand: Expr)           // 'neg' and '!'

  datatype Stmt =
    | VarDef(name: string)
    | Assign(name: string, rhs: Expr)
    | CallStmt(name: string, args: seq<Expr>)
    | If(cond: Expr, thenBody: seq<Stmt>, elseBody: seq<Stmt>)
    | For(initVar: string, initRhs: Expr, cond: Expr, updateVar: string, updateRhs: Expr, body: seq<Stmt>)
    | Return(value: Option<Expr>)
    | Raise(exception: Expr)
    | Try(body: seq<Stmt>, catchers: seq<Catcher>)

  datatype Catcher = Catcher(exceptionName: string, body: seq<Stmt>)

  datatype FuncDef = FuncDef(name: string, params: seq<string>, body: seq<Stmt>)

  // ---------------------------------------------------------------------
  // Syntactic sizes, the second component of every termination measure

  function ExprSize(e: Expr): (n: nat)
    ensures n >= 1
    decreases e
  {
    match e
    case Lit(_) => 1
    case Var(_) => 1
    case Call(_, args) => 1 + ArgsSize(args)
    case Binary(_, l, r) => 1 + ExprSize(l) + ExprSize(r)
    case Unary(_, x) => 1 + ExprSize(x)
  }

  function ArgsSize(args: seq<Expr>): (n: nat)
    ensures n >= 1
    decreases args
  {
    if args == [] then 1 else ExprSize(args[0]) + ArgsSize(args[1..])
  }

  function StmtSize(s: Stmt): (n: nat)
    ensures n >= 1
    decreases s
  {
    match s
    case VarDef(_) => 1
    case Assign(_, e) => 1 + ExprSize(e)
    case CallStmt(_, args) => 1 + ArgsSize(args)
    case If(c, t, e) => 1 + ExprSize(c) + BlockSize(t) + BlockSize(e)
    case For(_, i, c, _, u, b) => 1 + ExprSize(i) + ExprSize(c) + ExprSize(u) + BlockSize(b)
    case Return(e) => if e.Some? then 1 + ExprSize(e.value) else 1
    case Raise(e) => 1 + ExprSize(e)
    case Try(_, _) => 1
  }

  function BlockSize(stmts: seq<Stmt>): (n: nat)
    ensures n >= 1
    decreases stmts
  {
    if stmts == [] then 1 else StmtSize(stmts[0]) + BlockSize(stmts[1..])
  }

  lemma {:induction false} ArgSmaller(args: seq<Expr>, i: nat)
    requires i < |args|
    ensures ExprSize(args[i]) < ArgsSize(args)
  {
    if i > 0 {
      ArgSmaller(args[1..], i - 1);
    }
  }

  lemma {:induction false} StmtSmaller(stmts: seq<Stmt>, i: nat)
    requires i < |stmts|
    ensures StmtSize(stmts[i]) < BlockSize(stmts)
  {
    if i > 0 {
      StmtSmaller(stmts[1..], i - 1);
    }
  }
}
