/** `Interpreter.run`: the function table keyed by name and arity, the
    choice of `main`, the call of `main`, and the fault for an exception
    that escapes it. */
module Program {
  import opened Values
  import opened Ast
  import opened Semantics

  function KeyOf(f: FuncDef): Key {
    (f.name, |f.params|)
  }

  /** The loop that fills `self.funcs`: a later definition with the same name
      and arity replaces an earlier one. */
  function BuildTable(defs: seq<FuncDef>): FuncTable {
    if defs == [] then map[]
    else BuildTable(defs[..|defs| - 1])[KeyOf(defs[|defs| - 1]) := defs[|defs| - 1]]
  }

  /** A key is in the table exactly when some definition has it. */
  lemma {:induction false} TableKeys(defs: seq<FuncDef>, key: Key)
    ensures key in BuildTable(defs) <==> exists j :: 0 <= j < |defs| && KeyOf(defs[j]) == key
    decreases |defs|
  {
    if defs != [] {
      var n := |defs| - 1;
      var prev := defs[..n];
      TableKeys(prev, key);
      assert forall j :: 0 <= j < n ==> prev[j] == defs[j];
      if key != KeyOf(defs[n]) && exists j :: 0 <= j < |defs| && KeyOf(defs[j]) == key {
        var j :| 0 <= j < |defs| && KeyOf(defs[j]) == key;
        assert KeyOf(prev[j]) == key;
      }
    }
  }

  /** A key of the table maps to the last definition with that name and
      arity: a later definition replaces an earlier one. */
  lemma {:induction false} TableLast(defs: seq<FuncDef>, key: Key)
    requires key in BuildTable(defs)
    ensures KeyOf(BuildTable(defs)[key]) == key
    ensures exists j :: 0 <= j < |defs| && defs[j] == BuildTable(defs)[key] && LastWith(defs, j, key)
    decreases |defs|
  {
    var n := |defs| - 1;
    var prev := defs[..n];
    var t := BuildTable(prev);
    assert BuildTable(defs) == t[KeyOf(defs[n]) := defs[n]];
    if KeyOf(defs[n]) == key {
      assert LastWith(defs, n, key);
    } else {
      assert key in t && BuildTable(defs)[key] == t[key];
      TableLast(prev, key);
      var j :| 0 <= j < n && prev[j] == t[key] && LastWith(prev, j, key);
      assert prev[j] == defs[j];
      assert LastWith(defs, j, key) by {
        forall k | j < k < |defs| ensures KeyOf(defs[k]) != key {
          if k < n {
            assert prev[k] == defs[k];
          }
        }
      }
    }
  }

  /** No definition after position `j` has the key. */
  predicate LastWith(defs: seq<FuncDef>, j: nat, key: Key) {
    forall k :: j < k < |defs| ==> KeyOf(defs[k]) != key
  }

  /** The order in which the dictionary yields its keys: the order in which
      each key was first inserted. */
  function KeyOrder(defs: seq<FuncDef>): (keys: seq<Key>)
    ensures forall key :: key in keys <==> exists j :: 0 <= j < |defs| && KeyOf(defs[j]) == key
  {
    if defs == [] then []
    else
      var n := |defs| - 1;
      var prev := KeyOrder(defs[..n]);
      assert forall j :: 0 <= j < n ==> defs[..n][j] == defs[j];
      if KeyOf(defs[n]) in prev then prev else prev + [KeyOf(defs[n])]
  }

  /** Some definition before position `j` has the key. */
  predicate SeenBefore(defs: seq<FuncDef>, j: nat, key: Key) {
    exists i :: 0 <= i < j && i < |defs| && KeyOf(defs[i]) == key
  }

  predicate Distinct(keys: seq<Key>) {
    forall a, b :: 0 <= a < b < |keys| ==> keys[a] != keys[b]
  }

  /** Every definition with a later key comes after some definition with each
      earlier key. */
  predicate InsertionOrdered(defs: seq<FuncDef>, keys: seq<Key>) {
    forall a, b, j :: 0 <= a < b < |keys| && 0 <= j < |defs| && KeyOf(defs[j]) == keys[b] ==>
      SeenBefore(defs, j, keys[a])
  }

  /** The keys come without repetition. */
  lemma {:induction false} KeyOrderDistinct(defs: seq<FuncDef>)
    ensures Distinct(KeyOrder(defs))
    decreases |defs|
  {
    if defs != [] {
      KeyOrderDistinct(defs[..|defs| - 1]);
    }
  }

  /** The keys come in order of first insertion. */
  lemma {:induction false} KeyOrderIsInsertionOrder(defs: seq<FuncDef>)
    ensures InsertionOrdered(defs, KeyOrder(defs))
    decreases |defs|
  {
    if defs != [] {
      KeyOrderIsInsertionOrder(defs[..|defs| - 1]);
      var keys := KeyOrder(defs);
      forall a, b, j | 0 <= a < b < |keys| && 0 <= j < |defs| && KeyOf(defs[j]) == keys[b]
        ensures SeenBefore(defs, j, keys[a])
      {
        InsertionStep(defs, a, b, j);
      }
    }
  }

  lemma InsertionStep(defs: seq<FuncDef>, a: nat, b: nat, j: nat)
    requires defs != [] && InsertionOrdered(defs[..|defs| - 1], KeyOrder(defs[..|defs| - 1]))
    requires a < b < |KeyOrder(defs)| && j < |defs| && KeyOf(defs[j]) == KeyOrder(defs)[b]
    ensures SeenBefore(defs, j, KeyOrder(defs)[a])
  {
    var n := |defs| - 1;
    var prev := defs[..n];
    var pk := KeyOrder(prev);
    var keys := KeyOrder(defs);
    assert keys[a] == pk[a];
    var i: nat;
    if b < |pk| {
      assert keys[b] == pk[b];
      var k := j;
      if j == n {
        assert pk[b] in pk;
        k :| 0 <= k < n && KeyOf(prev[k]) == pk[b];
      }
      assert k <= j && 0 <= k < |prev| && KeyOf(prev[k]) == pk[b];
      assert SeenBefore(prev, k, pk[a]);
      i :| 0 <= i < k && KeyOf(prev[i]) == pk[a];
    } else {
      assert keys[b] !in pk;
      forall k | 0 <= k < n
        ensures KeyOf(defs[k]) != keys[b]
      {
        assert prev[k] == defs[k];
      }
      assert j == n;
      assert pk[a] in pk;
      i :| 0 <= i < n && KeyOf(prev[i]) == pk[a];
    }
    assert 0 <= i < j && KeyOf(defs[i]) == keys[a];
  }

  /** The loop of `run` that picks `main_key`: the first key named "main". */
  function FirstMain(keys: seq<Key>): Option<Key> {
    if keys == [] then None
    else if keys[0].0 == "main" then Some(keys[0])
    else FirstMain(keys[1..])
  }

  lemma {:induction false} FirstMainAppend(keys: seq<Key>, key: Key)
    ensures FirstMain(keys + [key]) ==
      if FirstMain(keys).Some? then FirstMain(keys)
      else if key.0 == "main" then Some(key) else None
    decreases |keys|
  {
    if keys != [] {
      assert (keys + [key])[1..] == keys[1..] + [key];
      FirstMainAppend(keys[1..], key);
    }
  }

  lemma {:induction false} FirstMainNone(keys: seq<Key>)
    ensures FirstMain(keys).None? <==> forall k :: 0 <= k < |keys| ==> keys[k].0 != "main"
    decreases |keys|
  {
    if keys != [] {
      FirstMainNone(keys[1..]);
      assert forall k :: 1 <= k < |keys| ==> keys[k] == keys[1..][k - 1];
    }
  }

  /** `main_key` is the key of the first definition named main, whatever its
      arity; there is none exactly when no definition is named main. */
  lemma {:induction false} MainIsFirstDefinition(defs: seq<FuncDef>)
    ensures FirstMain(KeyOrder(defs)).None? <==> forall j :: 0 <= j < |defs| ==> defs[j].name != "main"
    ensures FirstMain(KeyOrder(defs)).Some? ==>
      exists j :: 0 <= j < |defs| && defs[j].name == "main" && FirstMain(KeyOrder(defs)).value == KeyOf(defs[j]) &&
        forall k :: 0 <= k < j ==> defs[k].name != "main"
    decreases |defs|
  {
    if defs != [] {
      var n := |defs| - 1;
      var prev := defs[..n];
      MainIsFirstDefinition(prev);
      var keys := KeyOrder(prev);
      FirstMainAppend(keys, KeyOf(defs[n]));
      FirstMainNone(keys);
      assert forall j :: 0 <= j < n ==> prev[j] == defs[j];
      if FirstMain(keys).None? && defs[n].name == "main" {
        assert KeyOf(defs[n]) !in keys by {
          forall k | 0 <= k < |keys| ensures keys[k] != KeyOf(defs[n]) {
            assert keys[k].0 != "main";
          }
        }
      }
    }
  }

  /** How a run ends. */
  datatype Exit = Completed | Failed(error: ErrorKind)

  /** `run_fcall` is handed main's definition node itself, so its "arguments"
      are main's parameter nodes; run_expr knows no such node kind and
      yields None for each: main is called with every parameter nil. */
  function MainArgs(n: nat): (args: seq<Expr>)
    ensures |args| == n && forall k :: 0 <= k < n ==> args[k] == Lit(Nil)
  {
    seq(n, _ => Lit(Nil))
  }

  /** `run`: build the table, find main (a NAME_ERROR if there is none),
      call it on an empty scope stack, and turn an escaping raise into a
      FAULT_ERROR. The result is the output log and how the run ended. */
  function RunProgram(defs: seq<FuncDef>, fuel: nat, input: seq<string>): (seq<string>, Exit) {
    var funcs := BuildTable(defs);
    match FirstMain(KeyOrder(defs))
    case None => ([], Failed(NameError))
    case Some(key) =>
      var (st, o) := CallFn(funcs, fuel, State([], [], input, 0), "main", MainArgs(key.1));
      if o.Fatal? then (st.out, Failed(o.error))
      else if o.ret.Raised? then (st.out, Failed(FaultError))
      else (st.out, Completed)
  }

  /** A program without a function named main fails with NAME_ERROR before
      anything runs. */
  lemma NoMainIsNameError(defs: seq<FuncDef>, fuel: nat, input: seq<string>)
    requires forall j :: 0 <= j < |defs| ==> defs[j].name != "main"
    ensures RunProgram(defs, fuel, input) == ([], Failed(NameError))
  {
    MainIsFirstDefinition(defs);
  }

  /** An exception that escapes main ends the run with FAULT_ERROR, keeping
      the output produced until then. */
  lemma UncaughtRaiseIsFault(defs: seq<FuncDef>, fuel: nat, input: seq<string>, key: Key)
    requires FirstMain(KeyOrder(defs)) == Some(key)
    requires var o := CallFn(BuildTable(defs), fuel, State([], [], input, 0), "main", MainArgs(key.1)).1;
      o.Done? && o.ret.Raised?
    ensures RunProgram(defs, fuel, input) ==
      (CallFn(BuildTable(defs), fuel, State([], [], input, 0), "main", MainArgs(key.1)).0.out, Failed(FaultError))
  {
  }
}
