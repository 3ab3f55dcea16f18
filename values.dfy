/** Runtime values of Brewin and the closed operator table of run_expr.
    A Python int, str, bool or None becomes one variant of Value; every
    operator case of run_expr is a total function of its operand values. */
module Values {

  datatype Option<T> = None | Some(value: T)

  datatype Value = Int(i: int) | Str(s: string) | Bool(b: bool) | Nil

  /** The Python type of a value, as `type(v)` distinguishes them. */
  datatype Type = IntType | StrType | BoolType | NilType

  function TypeOf(v: Value): Type {
    match v
    case Int(_) => IntType
    case Str(_) => StrType
    case Bool(_) => BoolType
    case Nil => NilType
  }

  datatype BinOp = Add | Sub | Mul | Div | Eq | Ne | Lt | Le | Gt | Ge | Or | And
  datatype UnOp = Neg | Not

  /** The kinds of fatal error that abort a run: the two the interpreter
      reports itself, the uncaught-exception fault, the Python exceptions
      that escape the interpreter (ZeroDivisionError from `//`, ValueError
      from `int()` on an input line), an exhausted input, and the end of
      the fuel that bounds the model's recursion. */
  datatype ErrorKind = NameError | TypeError | FaultError | ZeroDivision | ValueError | NoInput | OutOfFuel

  datatype OpResult = Val(v: Value) | Err(error: ErrorKind)

  // ---------------------------------------------------------------------
  // Python's `==` on payloads, before the interpreter's type check

  /** bool is a subclass of int in Python: True and False compare as 1 and 0. */
  predicate IsNumeric(v: Value) { v.Int? || v.Bool? }

  function NumberOf(v: Value): int
    requires IsNumeric(v)
  {
    if v.Int? then v.i else if v.b then 1 else 0
  }

  /** Python's `l == r` on two runtime values; note that it holds of 1 and True. */
  predicate PyEquals(l: Value, r: Value) {
    match (l, r)
    case (Str(a), Str(b)) => a == b
    case (Nil, Nil) => true
    case _ => IsNumeric(l) && IsNumeric(r) && NumberOf(l) == NumberOf(r)
  }

  /** `tl == tr and l == r` of run_expr. */
  predicate SameTypeAndEqual(l: Value, r: Value) {
    TypeOf(l) == TypeOf(r) && PyEquals(l, r)
  }

  // ---------------------------------------------------------------------
  // Integer division

  /** Python's floor division `a // b`; Dafny's own `/` is Euclidean and
      differs from it when the divisor is negative. */
  function FloorDiv(a: int, b: int): int
    requires b != 0
  {
    if b > 0 then a / b else (-a) / (-b)
  }

  /** The quotient is the floor of a/b: the remainder a - b*q lies between 0
      and b, on the side of the divisor's sign, as Python's `//` promises. */
  lemma FloorDivIsFloor(a: int, b: int)
    requires b != 0
    ensures b > 0 ==> b * FloorDiv(a, b) <= a < b * FloorDiv(a, b) + b
    ensures b < 0 ==> b * FloorDiv(a, b) + b < a <= b * FloorDiv(a, b)
  {
    if b < 0 {
      var q := (-a) / (-b);
      assert (-b) * q <= -a < (-b) * q + (-b);
    }
  }

  // ---------------------------------------------------------------------
  // The operator table

  /** A binary operator applied to two evaluated operands (the strict path of
      run_expr): equality is total; `+` takes two ints or two strings; the other
      arithmetic and the comparisons take two ints; `&&` and `||` two bools;
      anything else is a TYPE_ERROR. Dividing by zero escapes as Python's
      ZeroDivisionError. */
  function ApplyBinary(op: BinOp, l: Value, r: Value): OpResult {
    if op == Eq then Val(Bool(SameTypeAndEqual(l, r)))
    else if op == Ne then Val(Bool(!SameTypeAndEqual(l, r)))
    else if l.Str? && r.Str? && op == Add then Val(Str(l.s + r.s))
    else if l.Int? && r.Int? && ArithOrCompare(op) then IntOp(op, l.i, r.i)
    else if l.Bool? && r.Bool? && op == And then Val(Bool(l.b && r.b))
    else if l.Bool? && r.Bool? && op == Or then Val(Bool(l.b || r.b))
    else Err(TypeError)
  }

  predicate ArithOrCompare(op: BinOp) {
    op in {Add, Sub, Mul, Div, Lt, Le, Gt, Ge}
  }

  function IntOp(op: BinOp, a: int, b: int): OpResult
    requires ArithOrCompare(op)
  {
    match op
    case Add => Val(Int(a + b))
    case Sub => Val(Int(a - b))
    case Mul => Val(Int(a * b))
    case Div => if b == 0 then Err(ZeroDivision) else Val(Int(FloorDiv(a, b)))
    case Lt => Val(Bool(a < b))
    case Le => Val(Bool(a <= b))
    case Gt => Val(Bool(a > b))
    case Ge => Val(Bool(a >= b))
  }

  /** Unary `neg` takes an int, `!` a bool; anything else is a TYPE_ERROR. */
  function ApplyUnary(op: UnOp, v: Value): (r: OpResult)
    ensures r.Val? <==> (op == Neg && v.Int?) || (op == Not && v.Bool?)
    ensures r.Err? ==> r.error == TypeError
    ensures r.Val? && op == Neg ==> r.v == Int(-v.i)
    ensures r.Val? && op == Not ==> r.v == Bool(!v.b)
  {
    match op
    case Neg => if v.Int? then Val(Int(-v.i)) else Err(TypeError)
    case Not => if v.Bool? then Val(Bool(!v.b)) else Err(TypeError)
  }

  // ---------------------------------------------------------------------
  // The typing table, stated independently of ApplyBinary

  /** The operand types each binary operator accepts. */
  predicate Accepts(op: BinOp, tl: Type, tr: Type) {
    match op
    case Eq => true
    case Ne => true
    case Add => (tl == IntType && tr == IntType) || (tl == StrType && tr == StrType)
    case And => tl == BoolType && tr == BoolType
    case Or => tl == BoolType && tr == BoolType
    case _ => tl == IntType && tr == IntType
  }

  /** The type of the value each operator produces from accepted operands. */
  function ResultType(op: BinOp, tl: Type): Type {
    match op
    case Add => tl
    case Sub => IntType
    case Mul => IntType
    case Div => IntType
    case _ => BoolType
  }

  /** Equality compares type and payload: it is true exactly of structurally
      equal values (so `1 == true` is false although Python's own `==` says
      1 == True), `!=` is its negation, and neither ever fails. */
  lemma EqualityIsStructural(l: Value, r: Value)
    ensures ApplyBinary(Eq, l, r) == Val(Bool(l == r))
    ensures ApplyBinary(Ne, l, r) == Val(Bool(l != r))
  {
    match l
    case Int(_) =>
    case Str(_) =>
    case Bool(_) =>
    case Nil =>
  }

  /** A binary operator fails with TYPE_ERROR exactly when the operand types
      are outside its row of the table; it fails with ZeroDivision exactly on
      an int divided by zero; otherwise its result has the table's type. */
  lemma BinaryTyping(op: BinOp, l: Value, r: Value)
    ensures ApplyBinary(op, l, r) == Err(TypeError) <==> !Accepts(op, TypeOf(l), TypeOf(r))
    ensures ApplyBinary(op, l, r) == Err(ZeroDivision) <==> op == Div && l.Int? && r == Int(0)
    ensures ApplyBinary(op, l, r).Val? ==> TypeOf(ApplyBinary(op, l, r).v) == ResultType(op, TypeOf(l))
  {
  }

  /** On two ints the arithmetic operators compute Python's results. */
  lemma IntArithmetic(a: int, b: int)
    ensures ApplyBinary(Add, Int(a), Int(b)) == Val(Int(a + b))
    ensures ApplyBinary(Sub, Int(a), Int(b)) == Val(Int(a - b))
    ensures ApplyBinary(Mul, Int(a), Int(b)) == Val(Int(a * b))
    ensures b != 0 ==> ApplyBinary(Div, Int(a), Int(b)).Val? && ApplyBinary(Div, Int(a), Int(b)).v.Int?
    ensures b > 0 ==> var q := ApplyBinary(Div, Int(a), Int(b)).v.i; b * q <= a < b * q + b
    ensures b < 0 ==> var q := ApplyBinary(Div, Int(a), Int(b)).v.i; b * q + b < a <= b * q
  {
    if b != 0 {
      FloorDivIsFloor(a, b);
    }
  }

  /** `+` on two strings concatenates them; the comparisons on two ints give
      the bool of the integer comparison. */
  lemma ConcatenationAndComparison(s: string, u: string, a: int, b: int)
    ensures ApplyBinary(Add, Str(s), Str(u)) == Val(Str(s + u))
    ensures ApplyBinary(Lt, Int(a), Int(b)) == Val(Bool(a < b))
    ensures ApplyBinary(Le, Int(a), Int(b)) == Val(Bool(a <= b))
    ensures ApplyBinary(Gt, Int(a), Int(b)) == Val(Bool(a > b))
    ensures ApplyBinary(Ge, Int(a), Int(b)) == Val(Bool(a >= b))
  {
  }

  /** `&&` and `||` on two bools: a false left operand of `&&` and a true left
      operand of `||` decide the result whatever the right operand, which is
      why run_expr may skip evaluating it. */
  lemma ShortCircuitIsSound(a: bool, b: bool)
    ensures ApplyBinary(And, Bool(false), Bool(b)) == Val(Bool(false))
    ensures ApplyBinary(Or, Bool(true), Bool(b)) == Val(Bool(true))
    ensures ApplyBinary(And, Bool(true), Bool(b)) == Val(Bool(b))
    ensures ApplyBinary(Or, Bool(false), Bool(b)) == Val(Bool(b))
  {
  }

  // ---------------------------------------------------------------------
  // Rendering values as text, and reading integers back

  function DigitChar(d: nat): char
    requires d < 10
  {
    "0123456789"[d]
  }

  function DigitValue(c: char): nat
    requires '0' <= c <= '9'
  {
    (c - '0') as nat
  }

  /** Decimal digits of a natural number, most significant first. */
  function NatDigits(n: nat): (s: string)
    ensures |s| > 0
    ensures forall k :: 0 <= k < |s| ==> '0' <= s[k] <= '9'
    decreases n
  {
    if n < 10 then [DigitChar(n)] else NatDigits(n / 10) + [DigitChar(n % 10)]
  }

  /** Python's `str` of an int. */
  function DecimalString(n: int): string {
    if n < 0 then "-" + NatDigits(-n) else NatDigits(n)
  }

  /** The value of a string of decimal digits. */
  function DigitsValue(s: string): nat
    requires forall k :: 0 <= k < |s| ==> '0' <= s[k] <= '9'
  {
    if s == [] then 0 else DigitsValue(s[..|s| - 1]) * 10 + DigitValue(s[|s| - 1])
  }

  predicate AllDigits(s: string) {
    forall k :: 0 <= k < |s| ==> '0' <= s[k] <= '9'
  }

  /** `int(line)` for an optional sign followed by one or more decimal digits. */
  function ParseInt(s: string): Option<int> {
    if |s| > 0 && (s[0] == '-' || s[0] == '+') then
      var body := s[1..];
      if |body| > 0 && AllDigits(body) then
        Some(if s[0] == '-' then 0 - DigitsValue(body) else DigitsValue(body))
      else None
    else if |s| > 0 && AllDigits(s) then Some(DigitsValue(s))
    else None
  }

  lemma {:induction false} DigitsRoundTrip(n: nat)
    ensures DigitsValue(NatDigits(n)) == n
    decreases n
  {
    var s := NatDigits(n);
    if n >= 10 {
      DigitsRoundTrip(n / 10);
      assert s[..|s| - 1] == NatDigits(n / 10);
    }
  }

  /** Reading back the decimal rendering of an int gives the int. */
  lemma DecimalRoundTrip(n: int)
    ensures ParseInt(DecimalString(n)) == Some(n)
  {
    if n < 0 {
      NegativeRoundTrip(-n);
      assert DecimalString(n) == "-" + NatDigits(-n);
    } else {
      NaturalRoundTrip(n);
      assert DecimalString(n) == NatDigits(n);
    }
  }

  lemma NaturalRoundTrip(n: nat)
    ensures ParseInt(NatDigits(n)) == Some(n)
  {
    var s := NatDigits(n);
    DigitsRoundTrip(n);
    assert AllDigits(s);
    assert s[0] != '-' && s[0] != '+';
  }

  lemma NegativeRoundTrip(m: nat)
    requires m > 0
    ensures ParseInt("-" + NatDigits(m)) == Some(0 - m)
  {
    var body := NatDigits(m);
    var s := "-" + body;
    assert s[0] == '-' && s[1..] == body;
    assert AllDigits(body);
    DigitsRoundTrip(m);
  }

  /** Python's `str(v)`: ints in decimal, strings raw, True/False, None. */
  function PyStr(v: Value): string {
    match v
    case Int(i) => DecimalString(i)
    case Str(s) => s
    case Bool(b) => if b then "True" else "False"
    case Nil => "None"
  }

  /** How `print` renders one argument: `str(v).lower()` for a bool, `str(v)`
      for everything else. */
  function PrintForm(v: Value): string {
    if v.Bool? then (if v.b then "true" else "false") else PyStr(v)
  }
}
