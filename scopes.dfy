/** The scope stack `self.vars`: a list of frames, innermost last, each a
    dictionary of variables and a flag telling whether the frame was pushed
    by a function call (a function boundary) or by an `if`/`for` block. */
module Scopes {
  import opened Values

  datatype Frame = Frame(vars: map<string, Value>, isFunc: bool)

  /** The index of the innermost function-boundary frame, or 0 if there is
      none: the lowest frame that a lookup searching outward may reach. */
  function Base(frames: seq<Frame>): (b: nat)
    ensures b <= |frames|
    ensures |frames| > 0 ==> b < |frames|
  {
    if frames == [] then 0
    else if frames[|frames| - 1].isFunc then |frames| - 1
    else Base(frames[..|frames| - 1])
  }

  /** Two stacks of the same height whose frames agree on the boundary flag. */
  predicate SameShape(a: seq<Frame>, b: seq<Frame>) {
    |a| == |b| && forall k :: 0 <= k < |a| ==> a[k].isFunc == b[k].isFunc
  }

  /** What a statement may do to the stack: the same frames are there with
      the same flags, and no frame below the innermost function boundary
      has changed. */
  predicate Preserves(a: seq<Frame>, b: seq<Frame>) {
    SameShape(a, b) && a[..Base(a)] == b[..Base(a)]
  }

  lemma {:induction false} BaseOfShape(a: seq<Frame>, b: seq<Frame>)
    requires SameShape(a, b)
    ensures Base(a) == Base(b)
    decreases |a|
  {
    if a != [] && !a[|a| - 1].isFunc {
      BaseOfShape(a[..|a| - 1], b[..|b| - 1]);
    }
  }

  lemma PreservesTrans(a: seq<Frame>, b: seq<Frame>, c: seq<Frame>)
    requires Preserves(a, b)
    ensures Preserves(b, c) ==> Preserves(a, c)
  {
    BaseOfShape(a, b);
  }

  /** Popping the frame an `if`/`for` pushed: if running the block preserved
      the pushed stack, the popped stack is preserved with respect to the
      stack before the push. */
  lemma PopBlock(a: seq<Frame>, m: map<string, Value>, h: seq<Frame>)
    requires Preserves(a + [Frame(m, false)], h)
    ensures |h| == |a| + 1 && Preserves(a, h[..|a|])
  {
    var g := a + [Frame(m, false)];
    assert g[..|g| - 1] == a;
    assert Base(g) == Base(a);
    var b := Base(a);
    assert a[..b] == g[..b] == h[..b];
    assert h[..|a|][..b] == h[..b];
    assert forall k :: 0 <= k < |a| ==> h[..|a|][k].isFunc == g[k].isFunc;
  }

  /** Popping the frame a call pushed gives back the caller's stack exactly:
      nothing the callee runs can reach below its own boundary frame. */
  lemma PopCall(a: seq<Frame>, m: map<string, Value>, h: seq<Frame>)
    requires Preserves(a + [Frame(m, true)], h)
    ensures |h| == |a| + 1 && h[..|a|] == a
  {
    var g := a + [Frame(m, true)];
    assert Base(g) == |a|;
    assert g[..|a|] == a;
  }

  // ---------------------------------------------------------------------
  // Lookup

  /** The search of run_assign and of variable lookup in run_expr: frames from
      innermost to outermost, stopping after the first function-boundary
      frame. The result is the innermost visible frame holding the name. */
  function FindFrame(frames: seq<Frame>, x: string): (r: Option<nat>)
    ensures r.Some? ==>
      Base(frames) <= r.value < |frames| && x in frames[r.value].vars &&
      forall k :: r.value < k < |frames| ==> x !in frames[k].vars
    ensures r.None? ==> forall k :: Base(frames) <= k < |frames| ==> x !in frames[k].vars
  {
    if frames == [] then None
    else
      var top := |frames| - 1;
      if x in frames[top].vars then Some(top)
      else if frames[top].isFunc then None
      else FindFrame(frames[..top], x)
  }

  /** The value a variable lookup finds, or None for a NAME_ERROR. */
  function Lookup(frames: seq<Frame>, x: string): Option<Value> {
    match FindFrame(frames, x)
    case Some(j) => Some(frames[j].vars[x])
    case None => None
  }

  /** A callee's stack is the caller's stack with the callee's boundary frame
      and its blocks on top: a lookup there finds only what the callee's part
      finds, so the caller's variables are invisible inside the callee. */
  lemma {:induction false} CallerInvisible(caller: seq<Frame>, callee: seq<Frame>, x: string)
    requires |callee| > 0 && callee[0].isFunc
    ensures FindFrame(caller + callee, x) ==
      (match FindFrame(callee, x) case Some(j) => Some(|caller| + j) case None => None)
    ensures Lookup(caller + callee, x) == Lookup(callee, x)
    decreases |callee|
  {
    var all := caller + callee;
    var top := |callee| - 1;
    assert all[|all| - 1] == callee[top];
    if x !in callee[top].vars && !callee[top].isFunc {
      assert top > 0;
      assert all[..|all| - 1] == caller + callee[..top];
      CallerInvisible(caller, callee[..top], x);
    }
  }

  // ---------------------------------------------------------------------
  // Updates

  /** run_vardef: a name already in the top frame is a NAME_ERROR; otherwise
      it is bound to nil in the top frame. */
  function Declare(frames: seq<Frame>, x: string): (r: Option<seq<Frame>>)
    requires |frames| > 0
    ensures r.None? <==> x in frames[|frames| - 1].vars
  {
    var top := |frames| - 1;
    if x in frames[top].vars then None
    else Some(frames[top := Frame(frames[top].vars[x := Nil], frames[top].isFunc)])
  }

  /** Writing `v` to the variable `x` of frame `j`. */
  function SetVar(frames: seq<Frame>, j: nat, x: string, v: Value): seq<Frame>
    requires j < |frames|
  {
    frames[j := Frame(frames[j].vars[x := v], frames[j].isFunc)]
  }

  /** A declaration changes the top frame only, by adding the name bound to
      nil: afterwards a lookup finds nil, the stack keeps its shape and every
      other name reads as before. */
  lemma DeclareEffect(frames: seq<Frame>, x: string, y: string)
    requires |frames| > 0 && Declare(frames, x).Some?
    ensures var after := Declare(frames, x).value;
      Preserves(frames, after) &&
      Lookup(after, x) == Some(Nil) &&
      (y != x ==> Lookup(after, y) == Lookup(frames, y)) &&
      forall k :: 0 <= k < |frames| - 1 ==> after[k] == frames[k]
  {
    var top := |frames| - 1;
    var after := Declare(frames, x).value;
    assert SameShape(frames, after);
    BaseOfShape(frames, after);
    assert frames[..Base(frames)] == after[..Base(frames)];
    assert FindFrame(after, x) == Some(top);
    if y != x {
      SetVarOtherName(frames, top, x, Nil, y);
    }
  }

  /** Writing to the frame where the search found the name: the stack keeps
      its shape, only frames at or above the boundary can change, the name
      now reads as the new value and every other name reads as before. */
  lemma AssignEffect(frames: seq<Frame>, x: string, v: Value, y: string)
    requires FindFrame(frames, x).Some?
    ensures var j := FindFrame(frames, x).value;
      var after := SetVar(frames, j, x, v);
      Preserves(frames, after) &&
      Lookup(after, x) == Some(v) &&
      (y != x ==> Lookup(after, y) == Lookup(frames, y)) &&
      forall k :: 0 <= k < |frames| && k != j ==> after[k] == frames[k]
  {
    var j := FindFrame(frames, x).value;
    var after := SetVar(frames, j, x, v);
    assert SameShape(frames, after);
    BaseOfShape(frames, after);
    assert frames[..Base(frames)] == after[..Base(frames)];
    SetVarSameSearch(frames, j, x, v, x);
    if y != x {
      SetVarOtherName(frames, j, x, v, y);
    }
  }

  /** Writing a name changes where a name is found only when it newly binds
      that name: binding a name already present, or looking up another name,
      finds the same frame as before. */
  lemma {:induction false} SetVarSameSearch(frames: seq<Frame>, j: nat, x: string, v: Value, y: string)
    requires j < |frames| && (x in frames[j].vars || y != x)
    ensures FindFrame(SetVar(frames, j, x, v), y) == FindFrame(frames, y)
    decreases |frames|
  {
    var after := SetVar(frames, j, x, v);
    var top := |frames| - 1;
    if y !in frames[top].vars && !frames[top].isFunc && j < top {
      assert after[..top] == SetVar(frames[..top], j, x, v);
      SetVarSameSearch(frames[..top], j, x, v, y);
    } else if y !in frames[top].vars && !frames[top].isFunc {
      assert after[..top] == frames[..top];
    }
  }

  /** Writing `x` in a frame leaves the lookup of every other name alone. */
  lemma SetVarOtherName(frames: seq<Frame>, j: nat, x: string, v: Value, y: string)
    requires j < |frames| && y != x
    ensures Lookup(SetVar(frames, j, x, v), y) == Lookup(frames, y)
  {
    var after := SetVar(frames, j, x, v);
    SetVarSameSearch(frames, j, x, v, y);
    if FindFrame(frames, y).Some? {
      var i := FindFrame(frames, y).value;
      assert after[i].vars[y] == frames[i].vars[y];
    }
  }

  // ---------------------------------------------------------------------
  // The frame a call pushes

  function Min(a: nat, b: nat): nat { if a <= b then a else b }

  /** `{k: v for k, v in zip(params, values)}`: pairs up to the shorter list,
      a repeated parameter name keeping its last value. */
  function Bind(params: seq<string>, vals: seq<Value>): (m: map<string, Value>)
    ensures forall x :: x in m <==> x in params[..Min(|params|, |vals|)]
    decreases |params|
  {
    var n := Min(|params|, |vals|);
    if n == 0 then map[]
    else Bind(params[..n - 1], vals[..n - 1])[params[n - 1] := vals[n - 1]]
  }

  /** With distinct parameter names, each parameter is bound to the argument
      in its position. */
  lemma {:induction false} BindPositional(params: seq<string>, vals: seq<Value>, k: nat)
    requires |params| == |vals| && k < |params|
    requires forall a, b :: 0 <= a < b < |params| ==> params[a] != params[b]
    ensures Bind(params, vals)[params[k]] == vals[k]
    decreases |params|
  {
    var n := |params|;
    if k < n - 1 {
      BindPositional(params[..n - 1], vals[..n - 1], k);
    }
  }
}
