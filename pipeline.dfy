/** How the stages of the compiler fit together: what the analyzer accepts can
    be lowered, what the folding pass computes is what the interpreter would
    compute, and which rewrites of the optimizer keep what a program prints.

    The optimizer as written changes what some accepted programs print; the
    counterexamples below exhibit each such case, and the corrected passes
    beside them are proved to keep every successful run's output. */
module Pipeline {
  import opened Wrappers
  import opened Decimal
  import opened Lists
  import opened Parsing
  import opened Semantics
  import opened IRGen
  import opened Optimizer
  import opened CodeGen

  // ---------------------------------------------------------------------------
  // Analysis and lowering
  // ---------------------------------------------------------------------------

  /** A program the analyzer accepts, from any table, is lowered without error
      into instructions of the shapes the later stages expect. */
  lemma {:induction false} AcceptedProgramsLower(symbols: SymbolTable, ss: seq<Node>)
    requires AnalyzeFrom(symbols, ss).Success?
    ensures forall k :: 0 <= k < |ss| ==> Translatable(ss[k])
    ensures GenStatements(ss).Success? && WellShaped(GenStatements(ss).value.code)
    decreases |ss|
  {
    if ss != [] {
      var next := CheckStatement(symbols, ss[0]).value;
      AcceptedProgramsLower(next, ss[1..]);
      assert Translatable(ss[0]) by {
        match ss[0]
        case AssignmentNode(_, e) => assert InferExpr(symbols, e).Success?;
        case _ =>
      }
      forall k | 0 <= k < |ss| ensures Translatable(ss[k]) {
        if k > 0 { assert ss[k] == ss[1..][k - 1]; }
      }
    }
    GenStatementsShape(ss);
  }

  // ---------------------------------------------------------------------------
  // Folding computes what the interpreter computes
  // ---------------------------------------------------------------------------

  /** For an instruction of the generator's shapes, the comprehension folding
      evaluates at compile time is the one the interpreter evaluates at run
      time, and it never raises. */
  lemma FoldFilterIsInterpreted(i: Instr, xs: seq<int>)
    requires WellShapedInstr(i) && IsFilterOp(i.op)
    ensures FilterValues(i, xs) == Success(FoldFilter(i, xs))
  {
    var keep := x => FoldKeeps(i, x);
    match i.op
    case FilterGt => FilterCongruent(xs, x => x > i.arg2.value, keep);
    case FilterLt => FilterCongruent(xs, x => x < i.arg2.value, keep);
    case FilterEq => FilterCongruent(xs, x => x == i.arg2.value, keep);
    case FilterBetween => FilterCongruent(xs, x => i.arg2.lo <= x <= i.arg2.hi, keep);
    case FilterEven => FilterCongruent(xs, x => x % 2 == 0, keep);
    case FilterOdd => FilterCongruent(xs, x => x % 2 != 0, keep);
  }

  // ---------------------------------------------------------------------------
  // Constant folding that forgets rebound names
  // ---------------------------------------------------------------------------

  /** The lists known after emitting `i`: a LIST binds its name to its values,
      and any other instruction with a result forgets what that name held.
      Folding as written only ever adds entries. */
  function KnownAfter(known: map<string, seq<int>>, i: Instr): (r: map<string, seq<int>>)
    ensures r.Keys <= known.Keys + (if i.result.Some? then {i.result.value} else {})
  {
    if i.op.List? && i.result.Some? && i.arg1.Ints? then known[i.result.value := i.arg1.values]
    else if i.result.Some? then known - {i.result.value}
    else known
  }

  /** Folding from the known lists `known`, front to back. */
  function FoldFrom(known: map<string, seq<int>>, ir: seq<Instr>): seq<Instr>
    decreases |ir|
  {
    if ir == [] then []
    else
      var f := FoldInstr(known, ir[0]);
      [f] + FoldFrom(KnownAfter(known, f), ir[1..])
  }

  function FoldedSound(ir: seq<Instr>): seq<Instr>
  {
    FoldFrom(map[], ir)
  }

  /** Every known list is what the environment binds its name to. */
  predicate KnownHolds(known: map<string, seq<int>>, env: Env)
  {
    forall n :: n in known ==> Some(n) in env && env[Some(n)] == ListValue(known[n])
  }

  lemma FoldInstrStep(known: map<string, seq<int>>, st: State, i: Instr)
    requires KnownHolds(known, st.env) && WellShapedInstr(i)
    ensures WellShapedInstr(FoldInstr(known, i))
    ensures Step(st, FoldInstr(known, i)) == Step(st, i)
    ensures Step(st, i).Success? ==> KnownHolds(KnownAfter(known, FoldInstr(known, i)), Step(st, i).value.env)
  {
    var f := FoldInstr(known, i);
    if f != i {
      FoldFilterIsInterpreted(i, known[i.arg1.id]);
    }
  }

  /** The corrected folding changes nothing about a run: the same state, the
      same error, the same output. */
  lemma {:induction false} FoldFromKeepsRun(known: map<string, seq<int>>, st: State, ir: seq<Instr>)
    requires KnownHolds(known, st.env) && WellShaped(ir)
    ensures ExecuteFrom(st, FoldFrom(known, ir)) == ExecuteFrom(st, ir)
    decreases |ir|
  {
    if ir != [] {
      var f := FoldInstr(known, ir[0]);
      var rest := FoldFrom(KnownAfter(known, f), ir[1..]);
      FoldInstrStep(known, st, ir[0]);
      var out := [f] + rest;
      assert out[0] == f && out[1..] == rest;
      var step := Step(st, ir[0]);
      if step.Success? {
        FoldFromKeepsRun(KnownAfter(known, f), step.value, ir[1..]);
      }
    }
  }

  lemma {:induction false} FoldFromWellShaped(known: map<string, seq<int>>, ir: seq<Instr>)
    requires WellShaped(ir)
    ensures WellShaped(FoldFrom(known, ir))
    decreases |ir|
  {
    if ir != [] {
      var f := FoldInstr(known, ir[0]);
      assert WellShapedInstr(f);
      FoldFromWellShaped(KnownAfter(known, f), ir[1..]);
      var out := [f] + FoldFrom(KnownAfter(known, f), ir[1..]);
      assert forall k :: 1 <= k < |out| ==> out[k] == FoldFrom(KnownAfter(known, f), ir[1..])[k - 1];
    }
  }

  lemma FoldedSoundKeepsRun(ir: seq<Instr>)
    requires WellShaped(ir)
    ensures WellShaped(FoldedSound(ir))
    ensures Execute(FoldedSound(ir)) == Execute(ir)
  {
    FoldFromWellShaped(map[], ir);
    FoldFromKeepsRun(map[], State(map[], []), ir);
  }

  // ---------------------------------------------------------------------------
  // Dead-code elimination keeps what a successful run prints
  // ---------------------------------------------------------------------------

  /** The two environments bind the names of `used` alike. */
  predicate AgreeOn(used: set<string>, e1: Env, e2: Env)
  {
    forall n :: n in used ==>
      && (Some(n) in e1 <==> Some(n) in e2)
      && (Some(n) in e1 ==> e1[Some(n)] == e2[Some(n)])
  }

  /** Every name an instruction of `ir` reads is in `used`. */
  predicate ReadsWithin(ir: seq<Instr>, used: set<string>)
  {
    forall k :: 0 <= k < |ir| ==> OperandNames(ir[k].arg1) <= used && OperandNames(ir[k].arg2) <= used
  }

  /** An instruction reading only names on which the environments agree does
      the same from both states. */
  lemma StepAgrees(used: set<string>, st1: State, st2: State, i: Instr)
    requires AgreeOn(used, st1.env, st2.env) && st1.output == st2.output
    requires WellShapedInstr(i) && OperandNames(i.arg1) <= used
    requires Step(st1, i).Success?
    ensures Step(st2, i).Success?
    ensures Step(st2, i).value.output == Step(st1, i).value.output
    ensures AgreeOn(used, Step(st1, i).value.env, Step(st2, i).value.env)
  {
    if !i.op.List? {
      assert Lookup(st1.env, i.op, i.arg1) == Lookup(st2.env, i.op, i.arg1);
    }
  }

  /** An instruction whose result nobody reads leaves the environments agreeing. */
  lemma StepUnread(used: set<string>, st1: State, st2: State, i: Instr)
    requires AgreeOn(used, st1.env, st2.env)
    requires WellShapedInstr(i) && !Live(used, i)
    requires Step(st1, i).Success?
    ensures Step(st1, i).value.output == st1.output
    ensures AgreeOn(used, Step(st1, i).value.env, st2.env)
  {
  }

  lemma {:induction false} DeadCodeFromKeepsOutput(used: set<string>, st1: State, st2: State, ir: seq<Instr>)
    requires AgreeOn(used, st1.env, st2.env) && st1.output == st2.output
    requires WellShaped(ir) && ReadsWithin(ir, used)
    requires ExecuteFrom(st1, ir).error.None?
    ensures ExecuteFrom(st2, Filter(ir, Keep(used))).error.None?
    ensures ExecuteFrom(st2, Filter(ir, Keep(used))).state.output == ExecuteFrom(st1, ir).state.output
    decreases |ir|
  {
    if ir != [] {
      var i := ir[0];
      assert WellShapedInstr(i) && OperandNames(i.arg1) <= used;
      assert WellShaped(ir[1..]) && ReadsWithin(ir[1..], used) by {
        forall k | 0 <= k < |ir| - 1 ensures ir[1..][k] == ir[k + 1] {}
      }
      assert Step(st1, i).Success?;
      var next1 := Step(st1, i).value;
      assert ExecuteFrom(st1, ir) == ExecuteFrom(next1, ir[1..]);
      var rest := Filter(ir[1..], Keep(used));
      assert Filter(ir, Keep(used)) == (if Keep(used)(i) then [i] else []) + rest;
      if Live(used, i) {
        StepAgrees(used, st1, st2, i);
        var next2 := Step(st2, i).value;
        DeadCodeFromKeepsOutput(used, next1, next2, ir[1..]);
        var out := [i] + rest;
        assert out[0] == i && out[1..] == rest;
      } else {
        StepUnread(used, st1, st2, i);
        assert Filter(ir, Keep(used)) == rest;
        DeadCodeFromKeepsOutput(used, next1, st2, ir[1..]);
      }
    }
  }

  /** Dead-code elimination as written keeps a successful run successful and
      its output unchanged; it may drop an instruction that would have raised,
      so a failing run can print more once optimized. */
  lemma DeadCodeEliminationKeepsOutput(ir: seq<Instr>)
    requires WellShaped(ir) && Execute(ir).error.None?
    ensures Execute(DeadCodeEliminated(ir)).error.None?
    ensures Execute(DeadCodeEliminated(ir)).state.output == Execute(ir).state.output
  {
    forall k, n | 0 <= k < |ir| && (n in OperandNames(ir[k].arg1) || n in OperandNames(ir[k].arg2))
      ensures n in UsedNames(ir)
    {
      UsedNamesAreOperands(ir, n);
    }
    DeadCodeFromKeepsOutput(UsedNames(ir), State(map[], []), State(map[], []), ir);
  }

  // ---------------------------------------------------------------------------
  // Copy propagation in program order
  // ---------------------------------------------------------------------------

  /** The copies still valid once `r` is rebound: none into `r`, none from `r`. */
  function Forget(m: map<Option<string>, string>, r: Option<string>): (f: map<Option<string>, string>)
    ensures f.Keys <= m.Keys && r !in f
    ensures forall x :: x in f ==> f[x] == m[x] && Some(f[x]) != r
  {
    map x | x in m && x != r && Some(m[x]) != r :: m[x]
  }

  /** The copies known after emitting `i`: a rebound name is forgotten, and a
      copy from a temporary is recorded. */
  function CopiesAfter(m: map<Option<string>, string>, i: Instr): map<Option<string>, string>
  {
    if i.result.None? then m
    else if IsTempCopy(i) then Forget(m, i.result)[i.result := i.arg1.id]
    else Forget(m, i.result)
  }

  /** Propagation from the known copies `m`, front to back: each instruction's
      operands are rewritten with the copies made before it and not since
      invalidated. */
  function PropagateFrom(m: map<Option<string>, string>, ir: seq<Instr>): seq<Instr>
    decreases |ir|
  {
    if ir == [] then []
    else
      var i := RewriteInstr(m, ir[0]);
      [i] + PropagateFrom(CopiesAfter(m, i), ir[1..])
  }

  function PropagatedSound(ir: seq<Instr>): seq<Instr>
  {
    PropagateFrom(map[], ir)
  }

  /** Every recorded copy holds: both names are bound, to the same value. */
  predicate CopiesHold(m: map<Option<string>, string>, env: Env)
  {
    forall x :: x in m ==> x in env && Some(m[x]) in env && env[x] == env[Some(m[x])]
  }

  lemma RewriteInstrStep(m: map<Option<string>, string>, st: State, i: Instr)
    requires CopiesHold(m, st.env) && WellShapedInstr(i)
    ensures WellShapedInstr(RewriteInstr(m, i))
    ensures Step(st, RewriteInstr(m, i)) == Step(st, i)
    ensures Step(st, i).Success? ==> CopiesHold(CopiesAfter(m, RewriteInstr(m, i)), Step(st, i).value.env)
  {
    var j := RewriteInstr(m, i);
    assert j.arg2 == i.arg2;
    if !i.op.List? {
      assert Lookup(st.env, j.op, j.arg1) == Lookup(st.env, i.op, i.arg1);
    }
  }

  /** The corrected propagation changes nothing about a run. */
  lemma {:induction false} PropagateFromKeepsRun(m: map<Option<string>, string>, st: State, ir: seq<Instr>)
    requires CopiesHold(m, st.env) && WellShaped(ir)
    ensures ExecuteFrom(st, PropagateFrom(m, ir)) == ExecuteFrom(st, ir)
    decreases |ir|
  {
    if ir != [] {
      var i := RewriteInstr(m, ir[0]);
      var rest := PropagateFrom(CopiesAfter(m, i), ir[1..]);
      RewriteInstrStep(m, st, ir[0]);
      var out := [i] + rest;
      assert out[0] == i && out[1..] == rest;
      var step := Step(st, ir[0]);
      if step.Success? {
        PropagateFromKeepsRun(CopiesAfter(m, i), step.value, ir[1..]);
      }
    }
  }

  lemma {:induction false} PropagateFromWellShaped(m: map<Option<string>, string>, ir: seq<Instr>)
    requires WellShaped(ir)
    ensures WellShaped(PropagateFrom(m, ir))
    decreases |ir|
  {
    if ir != [] {
      var i := RewriteInstr(m, ir[0]);
      assert WellShapedInstr(i);
      PropagateFromWellShaped(CopiesAfter(m, i), ir[1..]);
      var out := [i] + PropagateFrom(CopiesAfter(m, i), ir[1..]);
      assert forall k :: 1 <= k < |out| ==> out[k] == PropagateFrom(CopiesAfter(m, i), ir[1..])[k - 1];
    }
  }

  lemma PropagatedSoundKeepsRun(ir: seq<Instr>)
    requires WellShaped(ir)
    ensures WellShaped(PropagatedSound(ir))
    ensures Execute(PropagatedSound(ir)) == Execute(ir)
  {
    PropagateFromWellShaped(map[], ir);
    PropagateFromKeepsRun(map[], State(map[], []), ir);
  }

  // ---------------------------------------------------------------------------
  // The corrected optimizer
  // ---------------------------------------------------------------------------

  /** `optimize` with the corrected folding and propagation passes. */
  function OptimizedSound(ir: seq<Instr>): seq<Instr>
  {
    DeadCodeEliminated(PropagatedSound(FoldedSound(ir)))
  }

  /** The corrected optimizer keeps what a successful program prints. */
  lemma OptimizedSoundKeepsOutput(ir: seq<Instr>)
    requires WellShaped(ir) && Execute(ir).error.None?
    ensures Execute(OptimizedSound(ir)).error.None?
    ensures Execute(OptimizedSound(ir)).state.output == Execute(ir).state.output
  {
    FoldedSoundKeepsRun(ir);
    PropagatedSoundKeepsRun(FoldedSound(ir));
    DeadCodeEliminationKeepsOutput(PropagatedSound(FoldedSound(ir)));
  }

  // ---------------------------------------------------------------------------
  // The optimizer as written: counterexamples
  // ---------------------------------------------------------------------------

  lemma TempNamesOneAndTwo()
    ensures TempName(1) == "_t1" && TempName(2) == "_t2"
  {
    assert NatToString(1) == "1" && NatToString(2) == "2";
  }

  /** `data nums = [1, 10]  data x = [1, 2]  x = select > 5 from nums
      y = select > 0 from x  print y` */
  function StaleListProgram(): seq<Node>
  {
    [ DataDeclarationNode("nums", [1, 10]),
      DataDeclarationNode("x", [1, 2]),
      AssignmentNode("x", SelectQueryNode(Condition(">", [5]), "nums")),
      AssignmentNode("y", SelectQueryNode(Condition(">", [0]), "x")),
      PrintNode("y") ]
  }

  function StaleListCode(): seq<Instr>
  {
    [ Instr(List, Ints([1, 10]), NoOperand, Some("nums")),
      Instr(List, Ints([1, 2]), NoOperand, Some("x")),
      Instr(FilterGt, Name("nums"), Int(5), Some("_t1")),
      Instr(Assign, Name("_t1"), NoOperand, Some("x")),
      Instr(FilterGt, Name("x"), Int(0), Some("_t2")),
      Instr(Assign, Name("_t2"), NoOperand, Some("y")),
      Instr(Print, Name("y"), NoOperand, None) ]
  }

  /** Analyzing one more statement. */
  lemma AnalyzeStep(ss: seq<Node>, k: nat, before: SymbolTable, after: SymbolTable)
    requires k < |ss| && CheckStatement(before, ss[k]) == Success(after)
    ensures AnalyzeFrom(before, ss[k..]) == AnalyzeFrom(after, ss[k + 1..])
  {
    assert ss[k..][0] == ss[k] && ss[k..][1..] == ss[k + 1..];
  }

  lemma StaleListAcceptedTail()
    ensures var t := map["nums" := DataSymbol("nums", [1, 10]), "x" := DataSymbol("x", [1, 2])];
      AnalyzeFrom(t, StaleListProgram()[2..]).Success?
  {
    var ss := StaleListProgram();
    var t2 := map["nums" := DataSymbol("nums", [1, 10]), "x" := DataSymbol("x", [1, 2])];
    var t4 := t2["y" := AssignedSymbol("y", ListOfInt)];
    AnalyzeStep(ss, 2, t2, t2);
    AnalyzeStep(ss, 3, t2, t4);
    AnalyzeStep(ss, 4, t4, t4);
    assert ss[5..] == [];
  }

  lemma StaleListAccepted()
    ensures AnalyzeFrom(map[], StaleListProgram()).Success?
  {
    var ss := StaleListProgram();
    var t1 := map["nums" := DataSymbol("nums", [1, 10])];
    AnalyzeStep(ss, 0, map[], t1);
    AnalyzeStep(ss, 1, t1, t1["x" := DataSymbol("x", [1, 2])]);
    StaleListAcceptedTail();
    assert ss[0..] == ss;
  }

  /** Lowering one more statement. */
  lemma GenStatementsStep(ss: seq<Node>, k: nat, before: Emitted, last: Emitted)
    requires k < |ss| && GenStatements(ss[..k]) == Success(before)
    requires StatementCode(ss[k], before.counter) == Success(last)
    ensures GenStatements(ss[..k + 1]) == Success(Emitted(before.code + last.code, last.counter))
  {
    assert ss[..k + 1][..k] == ss[..k] && ss[..k + 1][k] == ss[k];
  }

  lemma StaleListLowered()
    ensures GenStatements(StaleListProgram()) == Success(Emitted(StaleListCode(), 2))
  {
    TempNamesOneAndTwo();
    var ss := StaleListProgram();
    var code := StaleListCode();
    assert ss[..0] == [];
    GenStatementsStep(ss, 0, Emitted([], 0), Emitted([code[0]], 0));
    assert [] + [code[0]] == [code[0]];
    GenStatementsStep(ss, 1, Emitted([code[0]], 0), Emitted([code[1]], 0));
    GenStatementsStep(ss, 2, Emitted([code[0]] + [code[1]], 0), Emitted([code[2], code[3]], 1));
    GenStatementsStep(ss, 3, Emitted([code[0]] + [code[1]] + [code[2], code[3]], 1), Emitted([code[4], code[5]], 2));
    GenStatementsStep(ss, 4, Emitted([code[0]] + [code[1]] + [code[2], code[3]] + [code[4], code[5]], 2), Emitted([code[6]], 2));
    assert [code[0]] + [code[1]] + [code[2], code[3]] + [code[4], code[5]] + [code[6]] == code;
    assert ss[..5] == ss;
  }

  /** One instruction of a run, at position `k`. */
  lemma ExecuteStep(st: State, code: seq<Instr>, k: nat, next: State)
    requires k < |code| && Step(st, code[k]) == Success(next)
    ensures ExecuteFrom(st, code[k..]) == ExecuteFrom(next, code[k + 1..])
  {
    assert code[k..][0] == code[k] && code[k..][1..] == code[k + 1..];
  }

  /** A run stops at the first instruction that raises. */
  lemma ExecuteStops(st: State, code: seq<Instr>, k: nat)
    requires k < |code| && Step(st, code[k]).Failure?
    ensures ExecuteFrom(st, code[k..]) == Run(st, Some(Step(st, code[k]).error))
  {
    assert code[k..][0] == code[k];
  }

  lemma ExecuteEnd(st: State, code: seq<Instr>)
    ensures ExecuteFrom(st, code[|code|..]) == Run(st, None)
  {
    assert code[|code|..] == [];
  }

  lemma ListStep(st: State, xs: seq<int>, name: string)
    ensures Step(st, Instr(List, Ints(xs), NoOperand, Some(name))) ==
      Success(State(st.env[Some(name) := ListValue(xs)], st.output))
  {
  }

  lemma AssignStep(st: State, src: string, dst: string)
    requires Some(src) in st.env
    ensures Step(st, Instr(Assign, Name(src), NoOperand, Some(dst))) ==
      Success(State(st.env[Some(dst) := st.env[Some(src)]], st.output))
  {
  }

  lemma SelectStep(st: State, op: Op, src: string, v: int, dst: string)
    requires IsSelectOp(op) && !op.FilterBetween? && Some(src) in st.env && st.env[Some(src)].ListValue?
    ensures var i := Instr(op, Name(src), Int(v), Some(dst));
      Step(st, i) == Success(State(st.env[Some(dst) := ListValue(FoldFilter(i, st.env[Some(src)].items))], st.output))
  {
    FoldFilterIsInterpreted(Instr(op, Name(src), Int(v), Some(dst)), st.env[Some(src)].items);
  }

  /** Every filter of the generator's shapes over a bound list binds, under its
      result, the elements of the list the filter keeps, in order. */
  lemma FilterStep(st: State, i: Instr)
    requires WellShapedInstr(i) && IsFilterOp(i.op) && i.arg1.Name?
    requires Some(i.arg1.id) in st.env && st.env[Some(i.arg1.id)].ListValue?
    ensures Step(st, i) ==
      Success(State(st.env[i.result := ListValue(FoldFilter(i, st.env[Some(i.arg1.id)].items))], st.output))
  {
    FoldFilterIsInterpreted(i, st.env[Some(i.arg1.id)].items);
  }

  lemma AggregateStep(st: State, op: Op, src: string, dst: string)
    requires IsAggregationOp(op) && Some(src) in st.env && st.env[Some(src)].ListValue?
    ensures Step(st, Instr(op, Name(src), NoOperand, Some(dst))) ==
      Success(State(st.env[Some(dst) := AggregateValue(op, st.env[Some(src)].items)], st.output))
  {
  }

  lemma AggregateNotListStep(st: State, op: Op, src: string, dst: string)
    requires IsAggregationOp(op) && Some(src) in st.env && !st.env[Some(src)].ListValue?
    ensures Step(st, Instr(op, Name(src), NoOperand, Some(dst))) == Failure(ListExpected(op, st.env[Some(src)]))
  {
  }

  lemma PrintUnboundStep(st: State, name: string)
    requires Some(name) !in st.env
    ensures Step(st, Instr(Print, Name(name), NoOperand, None)) == Failure(UnknownVariable(Print, Name(name)))
  {
  }

  lemma PrintStep(st: State, name: string)
    requires Some(name) in st.env
    ensures Step(st, Instr(Print, Name(name), NoOperand, None)) ==
      Success(State(st.env, st.output + [st.env[Some(name)]]))
  {
  }

  /** The state of the stale-list example after its first three instructions. */
  function StaleListState3(): State
  {
    State(map[][Some("nums") := ListValue([1, 10])][Some("x") := ListValue([1, 2])][Some("_t1") := ListValue([10])], [])
  }

  /** ... and after its first five. */
  function StaleListState5(): State
  {
    var s3 := StaleListState3();
    State(s3.env[Some("x") := ListValue([10])][Some("_t2") := ListValue([10])], [])
  }

  lemma StaleListRunsFirst()
    ensures ExecuteFrom(State(map[], []), StaleListCode()) == ExecuteFrom(StaleListState3(), StaleListCode()[3..])
  {
    var code := StaleListCode();
    var s1 := State(map[][Some("nums") := ListValue([1, 10])], []);
    ListStep(State(map[], []), [1, 10], "nums");
    ExecuteStep(State(map[], []), code, 0, s1);
    var s2 := State(s1.env[Some("x") := ListValue([1, 2])], []);
    ListStep(s1, [1, 2], "x");
    ExecuteStep(s1, code, 1, s2);
    StaleListRunsThird(s2);
    assert code[0..] == code;
  }

  lemma StaleListRunsThird(s2: State)
    requires s2 == State(map[][Some("nums") := ListValue([1, 10])][Some("x") := ListValue([1, 2])], [])
    ensures ExecuteFrom(s2, StaleListCode()[2..]) == ExecuteFrom(StaleListState3(), StaleListCode()[3..])
  {
    var code := StaleListCode();
    SelectStep(s2, FilterGt, "nums", 5, "_t1");
    assert FoldFilter(code[2], [1, 10]) == [10];
    ExecuteStep(s2, code, 2, StaleListState3());
  }

  lemma StaleListRunsSecond()
    ensures ExecuteFrom(StaleListState3(), StaleListCode()[3..]) == ExecuteFrom(StaleListState5(), StaleListCode()[5..])
  {
    var code := StaleListCode();
    var s3 := StaleListState3();
    var s4 := State(s3.env[Some("x") := ListValue([10])], []);
    AssignStep(s3, "_t1", "x");
    ExecuteStep(s3, code, 3, s4);
    SelectStep(s4, FilterGt, "x", 0, "_t2");
    assert FoldFilter(code[4], [10]) == [10];
    ExecuteStep(s4, code, 4, StaleListState5());
  }

  lemma StaleListRuns()
    ensures Execute(StaleListCode()).error.None?
    ensures Execute(StaleListCode()).state.output == [ListValue([10])]
  {
    StaleListRunsFirst();
    StaleListRunsSecond();
    var code := StaleListCode();
    var s5 := StaleListState5();
    var s6 := State(s5.env[Some("y") := ListValue([10])], []);
    AssignStep(s5, "_t2", "y");
    ExecuteStep(s5, code, 5, s6);
    var s7 := State(s6.env, [ListValue([10])]);
    PrintStep(s6, "y");
    assert s6.output + [ListValue([10])] == s7.output;
    ExecuteStep(s6, code, 6, s7);
    ExecuteEnd(s7, code);
  }

  // Evaluating the passes as written on a given list, one instruction at a time.

  lemma FoldedConcrete(code: seq<Instr>, f: seq<Instr>, n: nat, known: map<string, seq<int>>)
    requires WellShaped(code) && n < |code| && n < |f|
    requires Folded(code[..n]) == f[..n] && ListBindings(f[..n]) == known
    requires FoldInstr(known, code[n]) == f[n]
    ensures Folded(code[..n + 1]) == f[..n + 1]
    ensures ListBindings(f[..n + 1]) ==
      if f[n].op.List? && f[n].result.Some? && f[n].arg1.Ints? then known[f[n].result.value := f[n].arg1.values] else known
  {
    FoldedStep(code, n);
    assert f[..n + 1] == f[..n] + [f[n]];
    ListBindingsStep(f[..n], f[n]);
  }

  lemma PropagationMapConcrete(code: seq<Instr>, n: nat, m: map<Option<string>, string>)
    requires n < |code| && PropagationMap(code[..n]) == m
    ensures PropagationMap(code[..n + 1]) == if IsTempCopy(code[n]) then m[code[n].result := code[n].arg1.id] else m
  {
    assert code[..n + 1][..n] == code[..n];
  }

  lemma UsedNamesConcrete(code: seq<Instr>, n: nat, used: set<string>)
    requires n < |code| && UsedNames(code[..n]) == used
    ensures UsedNames(code[..n + 1]) == used + OperandNames(code[n].arg1) + OperandNames(code[n].arg2)
  {
    assert code[..n + 1][..n] == code[..n];
  }

  lemma FilterConcrete(code: seq<Instr>, n: nat, keep: Instr -> bool)
    requires n < |code|
    ensures Filter(code[n..], keep) == (if keep(code[n]) then [code[n]] else []) + Filter(code[n + 1..], keep)
  {
    assert code[n..][0] == code[n] && code[n..][1..] == code[n + 1..];
  }

  function StaleListFolded(): seq<Instr>
  {
    var code := StaleListCode();
    [ code[0], code[1],
      Instr(List, Ints([10]), NoOperand, Some("_t1")),
      code[3],
      Instr(List, Ints([1, 2]), NoOperand, Some("_t2")),
      code[5], code[6] ]
  }

  lemma StaleListWellShaped()
    ensures WellShaped(StaleListCode())
  {
    var code := StaleListCode();
    forall k | 0 <= k < 7 ensures WellShapedInstr(code[k]) {}
  }

  lemma StaleListFolded2()
    ensures WellShaped(StaleListCode())
    ensures Folded(StaleListCode()[..2]) == StaleListFolded()[..2]
    ensures ListBindings(StaleListFolded()[..2]) == map["nums" := [1, 10], "x" := [1, 2]]
  {
    var code := StaleListCode();
    var f := StaleListFolded();
    StaleListWellShaped();
    assert code[..0] == [] && f[..0] == [];
    FoldedConcrete(code, f, 0, map[]);
    FoldedConcrete(code, f, 1, map["nums" := [1, 10]]);
  }

  lemma StaleListFolded3()
    ensures WellShaped(StaleListCode())
    ensures Folded(StaleListCode()[..3]) == StaleListFolded()[..3]
    ensures ListBindings(StaleListFolded()[..3]) == map["nums" := [1, 10], "x" := [1, 2], "_t1" := [10]]
  {
    StaleListFolded2();
    var code := StaleListCode();
    assert FoldFilter(code[2], [1, 10]) == [10];
    FoldedConcrete(code, StaleListFolded(), 2, map["nums" := [1, 10], "x" := [1, 2]]);
  }

  lemma StaleListFolded4()
    ensures WellShaped(StaleListCode())
    ensures Folded(StaleListCode()[..4]) == StaleListFolded()[..4]
    ensures ListBindings(StaleListFolded()[..4]) == map["nums" := [1, 10], "x" := [1, 2], "_t1" := [10]]
  {
    StaleListFolded3();
    FoldedConcrete(StaleListCode(), StaleListFolded(), 3, map["nums" := [1, 10], "x" := [1, 2], "_t1" := [10]]);
  }

  lemma StaleListKeepsAt4()
    ensures FoldFilter(StaleListCode()[4], [1, 2]) == [1, 2]
  {
    var code := StaleListCode();
    assert FoldKeeps(code[4], 1) && FoldKeeps(code[4], 2);
  }

  lemma StaleListFolded5()
    ensures WellShaped(StaleListCode())
    ensures Folded(StaleListCode()[..5]) == StaleListFolded()[..5]
    ensures ListBindings(StaleListFolded()[..5]) == map["nums" := [1, 10], "x" := [1, 2], "_t1" := [10], "_t2" := [1, 2]]
  {
    StaleListFolded4();
    StaleListKeepsAt4();
    FoldedConcrete(StaleListCode(), StaleListFolded(), 4, map["nums" := [1, 10], "x" := [1, 2], "_t1" := [10]]);
  }

  lemma StaleListFolded6()
    ensures WellShaped(StaleListCode())
    ensures Folded(StaleListCode()[..6]) == StaleListFolded()[..6]
    ensures ListBindings(StaleListFolded()[..6]) == map["nums" := [1, 10], "x" := [1, 2], "_t1" := [10], "_t2" := [1, 2]]
  {
    StaleListFolded5();
    FoldedConcrete(StaleListCode(), StaleListFolded(), 5, map["nums" := [1, 10], "x" := [1, 2], "_t1" := [10], "_t2" := [1, 2]]);
  }

  lemma StaleListFoldedIs()
    ensures WellShaped(StaleListCode()) && Folded(StaleListCode()) == StaleListFolded()
  {
    StaleListFolded6();
    var code := StaleListCode();
    var f := StaleListFolded();
    FoldedConcrete(code, f, 6, map["nums" := [1, 10], "x" := [1, 2], "_t1" := [10], "_t2" := [1, 2]]);
    assert code[..7] == code && f[..7] == f;
  }

  function StaleListPropagated(): seq<Instr>
  {
    var f := StaleListFolded();
    f[6 := Instr(Print, Name("_t2"), NoOperand, None)]
  }

  lemma StaleListPropagatedIs()
    ensures Propagated(StaleListFolded()) == StaleListPropagated()
  {
    var f := StaleListFolded();
    assert f[..0] == [];
    var m := map[Some("x") := "_t1"];
    PropagationMapConcrete(f, 0, map[]);
    PropagationMapConcrete(f, 1, map[]);
    PropagationMapConcrete(f, 2, map[]);
    PropagationMapConcrete(f, 3, map[]);
    PropagationMapConcrete(f, 4, m);
    PropagationMapConcrete(f, 5, m);
    PropagationMapConcrete(f, 6, m[Some("y") := "_t2"]);
    assert f[..7] == f;
    var p := StaleListPropagated();
    assert forall k :: 0 <= k < 7 ==> p[k] == RewriteInstr(m[Some("y") := "_t2"], f[k]);
  }

  lemma StaleListUsedNames()
    ensures UsedNames(StaleListPropagated()) == {"_t1", "_t2"}
  {
    var p := StaleListPropagated();
    assert p[..0] == [];
    UsedNamesConcrete(p, 0, {});
    UsedNamesConcrete(p, 1, {});
    UsedNamesConcrete(p, 2, {});
    UsedNamesConcrete(p, 3, {});
    UsedNamesConcrete(p, 4, {"_t1"});
    UsedNamesConcrete(p, 5, {"_t1"});
    UsedNamesConcrete(p, 6, {"_t1", "_t2"});
    assert p[..7] == p;
  }

  lemma StaleListDeadCode()
    ensures DeadCodeEliminated(StaleListPropagated()) ==
      [ Instr(List, Ints([10]), NoOperand, Some("_t1")),
        Instr(List, Ints([1, 2]), NoOperand, Some("_t2")),
        Instr(Print, Name("_t2"), NoOperand, None) ]
  {
    StaleListUsedNames();
    StaleListDeadCodeMiddle();
    var p := StaleListPropagated();
    var keep := Keep({"_t1", "_t2"});
    FilterConcrete(p, 0, keep);
    FilterConcrete(p, 1, keep);
    assert p[0..] == p;
  }

  lemma StaleListDeadCodeMiddle()
    ensures Filter(StaleListPropagated()[2..], Keep({"_t1", "_t2"})) ==
      [ Instr(List, Ints([10]), NoOperand, Some("_t1")),
        Instr(List, Ints([1, 2]), NoOperand, Some("_t2")),
        Instr(Print, Name("_t2"), NoOperand, None) ]
  {
    StaleListDeadCodeTail();
    var p := StaleListPropagated();
    var keep := Keep({"_t1", "_t2"});
    FilterConcrete(p, 2, keep);
    FilterConcrete(p, 3, keep);
  }

  lemma StaleListDeadCodeTail()
    ensures Filter(StaleListPropagated()[4..], Keep({"_t1", "_t2"})) ==
      [ Instr(List, Ints([1, 2]), NoOperand, Some("_t2")),
        Instr(Print, Name("_t2"), NoOperand, None) ]
  {
    var p := StaleListPropagated();
    var keep := Keep({"_t1", "_t2"});
    FilterConcrete(p, 4, keep);
    FilterConcrete(p, 5, keep);
    FilterConcrete(p, 6, keep);
    assert p[7..] == [];
  }

  lemma StaleListOptimized()
    ensures WellShaped(StaleListCode())
    ensures Optimized(StaleListCode()) ==
      [ Instr(List, Ints([10]), NoOperand, Some("_t1")),
        Instr(List, Ints([1, 2]), NoOperand, Some("_t2")),
        Instr(Print, Name("_t2"), NoOperand, None) ]
  {
    StaleListFoldedIs();
    StaleListPropagatedIs();
    StaleListDeadCode();
  }

  lemma StaleListOptimizedRuns()
    ensures Execute(
      [ Instr(List, Ints([10]), NoOperand, Some("_t1")),
        Instr(List, Ints([1, 2]), NoOperand, Some("_t2")),
        Instr(Print, Name("_t2"), NoOperand, None) ]).state.output == [ListValue([1, 2])]
  {
    var code :=
      [ Instr(List, Ints([10]), NoOperand, Some("_t1")),
        Instr(List, Ints([1, 2]), NoOperand, Some("_t2")),
        Instr(Print, Name("_t2"), NoOperand, None) ];
    var s1 := State(map[Some("_t1") := ListValue([10])], []);
    ListStep(State(map[], []), [10], "_t1");
    ExecuteStep(State(map[], []), code, 0, s1);
    var s2 := State(s1.env[Some("_t2") := ListValue([1, 2])], []);
    ListStep(s1, [1, 2], "_t2");
    ExecuteStep(s1, code, 1, s2);
    var s3 := State(s2.env, [ListValue([1, 2])]);
    PrintStep(s2, "_t2");
    assert s2.output + [ListValue([1, 2])] == s3.output;
    ExecuteStep(s2, code, 2, s3);
    ExecuteEnd(s3, code);
    assert code[0..] == code;
  }

  /** Folding as written keeps using the literal `x` was declared with after
      `x` has been reassigned: the program prints [10], its optimized code
      prints [1, 2]. */
  lemma FoldingUsesStaleList()
    ensures AnalyzeFrom(map[], StaleListProgram()).Success?
    ensures GenStatements(StaleListProgram()) == Success(Emitted(StaleListCode(), 2))
    ensures Execute(StaleListCode()).error.None?
    ensures Execute(StaleListCode()).state.output == [ListValue([10])]
    ensures WellShaped(StaleListCode()) && Execute(Optimized(StaleListCode())).state.output == [ListValue([1, 2])]
  {
    StaleListAccepted();
    StaleListLowered();
    StaleListRuns();
    StaleListOptimized();
    StaleListOptimizedRuns();
  }

  /** `data nums = [1, 10]  x = select > 5 from nums  print x
      x = select < 5 from nums  print x` */
  function ReassignedProgram(): seq<Node>
  {
    [ DataDeclarationNode("nums", [1, 10]),
      AssignmentNode("x", SelectQueryNode(Condition(">", [5]), "nums")),
      PrintNode("x"),
      AssignmentNode("x", SelectQueryNode(Condition("<", [5]), "nums")),
      PrintNode("x") ]
  }

  function ReassignedCode(): seq<Instr>
  {
    [ Instr(List, Ints([1, 10]), NoOperand, Some("nums")),
      Instr(FilterGt, Name("nums"), Int(5), Some("_t1")),
      Instr(Assign, Name("_t1"), NoOperand, Some("x")),
      Instr(Print, Name("x"), NoOperand, None),
      Instr(FilterLt, Name("nums"), Int(5), Some("_t2")),
      Instr(Assign, Name("_t2"), NoOperand, Some("x")),
      Instr(Print, Name("x"), NoOperand, None) ]
  }

  lemma ReassignedAccepted()
    ensures AnalyzeFrom(map[], ReassignedProgram()).Success?
  {
    var ss := ReassignedProgram();
    var t1 := map["nums" := DataSymbol("nums", [1, 10])];
    var t2 := t1["x" := AssignedSymbol("x", ListOfInt)];
    AnalyzeStep(ss, 0, map[], t1);
    AnalyzeStep(ss, 1, t1, t2);
    ReassignedAcceptedTail();
    assert ss[0..] == ss;
  }

  lemma ReassignedAcceptedTail()
    ensures var t := map["nums" := DataSymbol("nums", [1, 10])]["x" := AssignedSymbol("x", ListOfInt)];
      AnalyzeFrom(t, ReassignedProgram()[2..]).Success?
  {
    var ss := ReassignedProgram();
    var t2 := map["nums" := DataSymbol("nums", [1, 10])]["x" := AssignedSymbol("x", ListOfInt)];
    AnalyzeStep(ss, 2, t2, t2);
    AnalyzeStep(ss, 3, t2, t2);
    AnalyzeStep(ss, 4, t2, t2);
    assert ss[5..] == [];
  }

  lemma ReassignedLowered()
    ensures GenStatements(ReassignedProgram()) == Success(Emitted(ReassignedCode(), 2))
  {
    TempNamesOneAndTwo();
    var ss := ReassignedProgram();
    var code := ReassignedCode();
    assert ss[..0] == [];
    GenStatementsStep(ss, 0, Emitted([], 0), Emitted([code[0]], 0));
    assert [] + [code[0]] == [code[0]];
    GenStatementsStep(ss, 1, Emitted([code[0]], 0), Emitted([code[1], code[2]], 1));
    GenStatementsStep(ss, 2, Emitted([code[0]] + [code[1], code[2]], 1), Emitted([code[3]], 1));
    GenStatementsStep(ss, 3, Emitted([code[0]] + [code[1], code[2]] + [code[3]], 1), Emitted([code[4], code[5]], 2));
    GenStatementsStep(ss, 4, Emitted([code[0]] + [code[1], code[2]] + [code[3]] + [code[4], code[5]], 2), Emitted([code[6]], 2));
    assert [code[0]] + [code[1], code[2]] + [code[3]] + [code[4], code[5]] + [code[6]] == code;
    assert ss[..5] == ss;
  }

  /** The state after the first PRINT of the reassignment example. */
  function ReassignedMidState(): State
  {
    State(map[Some("nums") := ListValue([1, 10]), Some("_t1") := ListValue([10]), Some("x") := ListValue([10])],
          [ListValue([10])])
  }

  lemma ReassignedRuns4()
    ensures ExecuteFrom(State(map[], []), ReassignedCode()) == ExecuteFrom(ReassignedMidState(), ReassignedCode()[4..])
  {
    var code := ReassignedCode();
    var s1 := State(map[Some("nums") := ListValue([1, 10])], []);
    ListStep(State(map[], []), [1, 10], "nums");
    ExecuteStep(State(map[], []), code, 0, s1);
    ReassignedRunsSelect(s1);
    assert code[0..] == code;
  }

  lemma ReassignedRunsSelect(s1: State)
    requires s1 == State(map[Some("nums") := ListValue([1, 10])], [])
    ensures ExecuteFrom(s1, ReassignedCode()[1..]) == ExecuteFrom(ReassignedMidState(), ReassignedCode()[4..])
  {
    var code := ReassignedCode();
    var s2 := State(s1.env[Some("_t1") := ListValue([10])], []);
    SelectStep(s1, FilterGt, "nums", 5, "_t1");
    assert FoldFilter(code[1], [1, 10]) == [10];
    ExecuteStep(s1, code, 1, s2);
    ReassignedRunsToMid(s2);
  }

  lemma ReassignedRunsToMid(s2: State)
    requires s2 == State(map[Some("nums") := ListValue([1, 10])][Some("_t1") := ListValue([10])], [])
    ensures ExecuteFrom(s2, ReassignedCode()[2..]) == ExecuteFrom(ReassignedMidState(), ReassignedCode()[4..])
  {
    var code := ReassignedCode();
    var s3 := State(s2.env[Some("x") := ListValue([10])], []);
    AssignStep(s2, "_t1", "x");
    ExecuteStep(s2, code, 2, s3);
    var s4 := State(s3.env, [ListValue([10])]);
    PrintStep(s3, "x");
    assert s3.env[Some("x")] == ListValue([10]) && s3.output + [ListValue([10])] == s4.output;
    ExecuteStep(s3, code, 3, s4);
    assert s4 == ReassignedMidState();
  }

  lemma ReassignedRuns()
    ensures Execute(ReassignedCode()).error.None?
    ensures Execute(ReassignedCode()).state.output == [ListValue([10]), ListValue([1])]
  {
    ReassignedRuns4();
    var code := ReassignedCode();
    var s4 := ReassignedMidState();
    var s5 := State(s4.env[Some("_t2") := ListValue([1])], s4.output);
    SelectStep(s4, FilterLt, "nums", 5, "_t2");
    assert FoldFilter(code[4], [1, 10]) == [1];
    ExecuteStep(s4, code, 4, s5);
    ReassignedRunsEnd(s5);
  }

  lemma ReassignedRunsEnd(s5: State)
    requires s5 == State(ReassignedMidState().env[Some("_t2") := ListValue([1])], [ListValue([10])])
    ensures ExecuteFrom(s5, ReassignedCode()[5..]) == Run(State(s5.env[Some("x") := ListValue([1])], [ListValue([10]), ListValue([1])]), None)
  {
    var code := ReassignedCode();
    var s6 := State(s5.env[Some("x") := ListValue([1])], s5.output);
    AssignStep(s5, "_t2", "x");
    ExecuteStep(s5, code, 5, s6);
    var s7 := State(s6.env, [ListValue([10]), ListValue([1])]);
    PrintStep(s6, "x");
    assert s6.env[Some("x")] == ListValue([1]) && s6.output + [ListValue([1])] == s7.output;
    ExecuteStep(s6, code, 6, s7);
    ExecuteEnd(s7, code);
  }

  function ReassignedFolded(): seq<Instr>
  {
    [ Instr(List, Ints([1, 10]), NoOperand, Some("nums")),
      Instr(List, Ints([10]), NoOperand, Some("_t1")),
      Instr(Assign, Name("_t1"), NoOperand, Some("x")),
      Instr(Print, Name("x"), NoOperand, None),
      Instr(List, Ints([1]), NoOperand, Some("_t2")),
      Instr(Assign, Name("_t2"), NoOperand, Some("x")),
      Instr(Print, Name("x"), NoOperand, None) ]
  }

  lemma ReassignedWellShaped()
    ensures WellShaped(ReassignedCode())
  {
    var code := ReassignedCode();
    forall k | 0 <= k < 7 ensures WellShapedInstr(code[k]) {}
  }

  lemma ReassignedFolded3()
    ensures WellShaped(ReassignedCode())
    ensures Folded(ReassignedCode()[..3]) == ReassignedFolded()[..3]
    ensures ListBindings(ReassignedFolded()[..3]) == map["nums" := [1, 10], "_t1" := [10]]
  {
    ReassignedWellShaped();
    var code := ReassignedCode();
    var f := ReassignedFolded();
    assert code[..0] == [] && f[..0] == [];
    var k1 := map["nums" := [1, 10]];
    FoldedConcrete(code, f, 0, map[]);
    assert FoldFilter(code[1], [1, 10]) == [10];
    FoldedConcrete(code, f, 1, k1);
    FoldedConcrete(code, f, 2, k1["_t1" := [10]]);
  }

  lemma ReassignedFolded4()
    ensures WellShaped(ReassignedCode())
    ensures Folded(ReassignedCode()[..4]) == ReassignedFolded()[..4]
    ensures ListBindings(ReassignedFolded()[..4]) == map["nums" := [1, 10], "_t1" := [10]]
  {
    ReassignedFolded3();
    FoldedConcrete(ReassignedCode(), ReassignedFolded(), 3, map["nums" := [1, 10], "_t1" := [10]]);
  }

  lemma ReassignedFiltersAt4()
    ensures FoldFilter(ReassignedCode()[4], [1, 10]) == [1]
  {
  }

  lemma ReassignedFolded5()
    ensures WellShaped(ReassignedCode())
    ensures Folded(ReassignedCode()[..5]) == ReassignedFolded()[..5]
    ensures ListBindings(ReassignedFolded()[..5]) == map["nums" := [1, 10], "_t1" := [10], "_t2" := [1]]
  {
    ReassignedFolded4();
    ReassignedFiltersAt4();
    FoldedConcrete(ReassignedCode(), ReassignedFolded(), 4, map["nums" := [1, 10], "_t1" := [10]]);
  }

  lemma ReassignedFolded6()
    ensures WellShaped(ReassignedCode())
    ensures Folded(ReassignedCode()[..6]) == ReassignedFolded()[..6]
    ensures ListBindings(ReassignedFolded()[..6]) == map["nums" := [1, 10], "_t1" := [10], "_t2" := [1]]
  {
    ReassignedFolded5();
    FoldedConcrete(ReassignedCode(), ReassignedFolded(), 5, map["nums" := [1, 10], "_t1" := [10], "_t2" := [1]]);
  }

  lemma ReassignedFoldedIs()
    ensures WellShaped(ReassignedCode()) && Folded(ReassignedCode()) == ReassignedFolded()
  {
    ReassignedFolded6();
    var code := ReassignedCode();
    var f := ReassignedFolded();
    FoldedConcrete(code, f, 6, map["nums" := [1, 10], "_t1" := [10], "_t2" := [1]]);
    assert code[..7] == code && f[..7] == f;
  }

  function ReassignedPropagated(): seq<Instr>
  {
    [ Instr(List, Ints([1, 10]), NoOperand, Some("nums")),
      Instr(List, Ints([10]), NoOperand, Some("_t1")),
      Instr(Assign, Name("_t1"), NoOperand, Some("x")),
      Instr(Print, Name("_t2"), NoOperand, None),
      Instr(List, Ints([1]), NoOperand, Some("_t2")),
      Instr(Assign, Name("_t2"), NoOperand, Some("x")),
      Instr(Print, Name("_t2"), NoOperand, None) ]
  }

  lemma ReassignedPropagatedIs()
    ensures Propagated(ReassignedFolded()) == ReassignedPropagated()
  {
    var f := ReassignedFolded();
    assert f[..0] == [];
    var m1 := map[Some("x") := "_t1"];
    var m2 := map[Some("x") := "_t2"];
    PropagationMapConcrete(f, 0, map[]);
    PropagationMapConcrete(f, 1, map[]);
    PropagationMapConcrete(f, 2, map[]);
    PropagationMapConcrete(f, 3, m1);
    PropagationMapConcrete(f, 4, m1);
    PropagationMapConcrete(f, 5, m1);
    assert m1[Some("x") := "_t2"] == m2;
    PropagationMapConcrete(f, 6, m2);
    assert f[..7] == f;
    var p := ReassignedPropagated();
    assert forall k :: 0 <= k < 7 ==> p[k] == RewriteInstr(m2, f[k]);
  }

  lemma ReassignedUsedNames()
    ensures UsedNames(ReassignedPropagated()) == {"_t1", "_t2"}
  {
    var p := ReassignedPropagated();
    assert p[..0] == [];
    UsedNamesConcrete(p, 0, {});
    UsedNamesConcrete(p, 1, {});
    UsedNamesConcrete(p, 2, {});
    UsedNamesConcrete(p, 3, {"_t1"});
    UsedNamesConcrete(p, 4, {"_t1", "_t2"});
    UsedNamesConcrete(p, 5, {"_t1", "_t2"});
    UsedNamesConcrete(p, 6, {"_t1", "_t2"});
    assert p[..7] == p;
  }

  lemma ReassignedDeadCode()
    ensures DeadCodeEliminated(ReassignedPropagated()) == ReassignedOptimized()
  {
    ReassignedUsedNames();
    ReassignedDeadCodeTail();
    var p := ReassignedPropagated();
    var keep := Keep({"_t1", "_t2"});
    FilterConcrete(p, 0, keep);
    FilterConcrete(p, 1, keep);
    FilterConcrete(p, 2, keep);
    FilterConcrete(p, 3, keep);
    assert p[0..] == p;
  }

  lemma ReassignedDeadCodeTail()
    ensures Filter(ReassignedPropagated()[4..], Keep({"_t1", "_t2"})) ==
      [ Instr(List, Ints([1]), NoOperand, Some("_t2")),
        Instr(Print, Name("_t2"), NoOperand, None) ]
  {
    var p := ReassignedPropagated();
    var keep := Keep({"_t1", "_t2"});
    FilterConcrete(p, 4, keep);
    FilterConcrete(p, 5, keep);
    FilterConcrete(p, 6, keep);
    assert p[7..] == [];
  }

  function ReassignedOptimized(): seq<Instr>
  {
    [ Instr(List, Ints([10]), NoOperand, Some("_t1")),
      Instr(Print, Name("_t2"), NoOperand, None),
      Instr(List, Ints([1]), NoOperand, Some("_t2")),
      Instr(Print, Name("_t2"), NoOperand, None) ]
  }

  lemma ReassignedOptimizedIs()
    ensures WellShaped(ReassignedCode()) && Optimized(ReassignedCode()) == ReassignedOptimized()
  {
    ReassignedFoldedIs();
    ReassignedPropagatedIs();
    ReassignedDeadCode();
  }

  lemma ReassignedOptimizedFails()
    ensures Execute(ReassignedOptimized()) ==
      Run(State(map[Some("_t1") := ListValue([10])], []), Some(UnknownVariable(Print, Name("_t2"))))
  {
    var code := ReassignedOptimized();
    var s1 := State(map[Some("_t1") := ListValue([10])], []);
    ListStep(State(map[], []), [10], "_t1");
    ExecuteStep(State(map[], []), code, 0, s1);
    PrintUnboundStep(s1, "_t2");
    ExecuteStops(s1, code, 1);
    assert code[0..] == code;
  }

  /** Copy propagation as written maps `x` to the temporary of its last
      assignment and rewrites every read of `x`, also those before that
      assignment: the program prints [10] and [1], its optimized code reads
      `_t2` before anything binds it and raises, having printed nothing. */
  lemma PropagationReadsLaterCopy()
    ensures AnalyzeFrom(map[], ReassignedProgram()).Success?
    ensures GenStatements(ReassignedProgram()) == Success(Emitted(ReassignedCode(), 2))
    ensures Execute(ReassignedCode()).error.None?
    ensures Execute(ReassignedCode()).state.output == [ListValue([10]), ListValue([1])]
    ensures WellShaped(ReassignedCode())
      && Execute(Optimized(ReassignedCode())).error == Some(UnknownVariable(Print, Name("_t2")))
      && Execute(Optimized(ReassignedCode())).state.output == []
  {
    ReassignedAccepted();
    ReassignedLowered();
    ReassignedRuns();
    ReassignedOptimizedIs();
    ReassignedOptimizedFails();
  }

  // ---------------------------------------------------------------------------
  // Names the analyzer accepts can collide with the generator's temporaries
  // ---------------------------------------------------------------------------

  /** `data _t1 = [1, 2]  x = sum from _t1  y = count from _t1` */
  function TempNamedProgram(): seq<Node>
  {
    [ DataDeclarationNode("_t1", [1, 2]),
      AssignmentNode("x", AggregationNode("sum", "_t1")),
      AssignmentNode("y", AggregationNode("count", "_t1")) ]
  }

  function TempNamedCode(): seq<Instr>
  {
    [ Instr(List, Ints([1, 2]), NoOperand, Some("_t1")),
      Instr(AggSum, Name("_t1"), NoOperand, Some("_t1")),
      Instr(Assign, Name("_t1"), NoOperand, Some("x")),
      Instr(AggCount, Name("_t1"), NoOperand, Some("_t2")),
      Instr(Assign, Name("_t2"), NoOperand, Some("y")) ]
  }

  lemma TempNamedAccepted()
    ensures AnalyzeFrom(map[], TempNamedProgram()).Success?
  {
    var ss := TempNamedProgram();
    var t1 := map["_t1" := DataSymbol("_t1", [1, 2])];
    var t2 := t1["x" := AssignedSymbol("x", IntType)];
    AnalyzeStep(ss, 0, map[], t1);
    AnalyzeStep(ss, 1, t1, t2);
    AnalyzeStep(ss, 2, t2, t2["y" := AssignedSymbol("y", IntType)]);
    assert ss[0..] == ss && ss[3..] == [];
  }

  lemma TempNamedLowered()
    ensures GenStatements(TempNamedProgram()) == Success(Emitted(TempNamedCode(), 2))
  {
    TempNamesOneAndTwo();
    var ss := TempNamedProgram();
    var code := TempNamedCode();
    assert ss[..0] == [];
    GenStatementsStep(ss, 0, Emitted([], 0), Emitted([code[0]], 0));
    assert [] + [code[0]] == [code[0]];
    GenStatementsStep(ss, 1, Emitted([code[0]], 0), Emitted([code[1], code[2]], 1));
    GenStatementsStep(ss, 2, Emitted([code[0]] + [code[1], code[2]], 1), Emitted([code[3], code[4]], 2));
    assert [code[0]] + [code[1], code[2]] + [code[3], code[4]] == code;
    assert ss[..3] == ss;
  }

  /** The state of the `_t1` example after its first two instructions: the sum
      has overwritten the declared list. */
  function TempNamedState2(): State
  {
    State(map[][Some("_t1") := ListValue([1, 2])][Some("_t1") := IntValue(3)], [])
  }

  lemma TempNamedRunsFirst()
    ensures ExecuteFrom(State(map[], []), TempNamedCode()) == ExecuteFrom(TempNamedState2(), TempNamedCode()[2..])
  {
    var code := TempNamedCode();
    var s1 := State(map[][Some("_t1") := ListValue([1, 2])], []);
    ListStep(State(map[], []), [1, 2], "_t1");
    ExecuteStep(State(map[], []), code, 0, s1);
    AggregateStep(s1, AggSum, "_t1", "_t1");
    assert AggregateValue(AggSum, [1, 2]) == IntValue(3);
    ExecuteStep(s1, code, 1, TempNamedState2());
    assert code[0..] == code;
  }

  /** The sum is stored over the declared list `_t1`, and the count then
      finds an int where it needs a list. */
  lemma TempNamedFails()
    ensures Execute(TempNamedCode()).error == Some(ListExpected(AggCount, IntValue(3)))
  {
    TempNamedRunsFirst();
    var code := TempNamedCode();
    var s2 := TempNamedState2();
    var s3 := State(s2.env[Some("x") := IntValue(3)], []);
    AssignStep(s2, "_t1", "x");
    ExecuteStep(s2, code, 2, s3);
    AggregateNotListStep(s3, AggCount, "_t1", "_t2");
    ExecuteStops(s3, code, 3);
  }

  /** A program the analyzer accepts raises at run time, even unoptimized:
      its data name `_t1` is also the generator's first temporary. */
  lemma AcceptedProgramCanFail()
    ensures AnalyzeFrom(map[], TempNamedProgram()).Success?
    ensures GenStatements(TempNamedProgram()) == Success(Emitted(TempNamedCode(), 2))
    ensures Execute(TempNamedCode()).error == Some(ListExpected(AggCount, IntValue(3)))
  {
    TempNamedAccepted();
    TempNamedLowered();
    TempNamedFails();
  }

  // ---------------------------------------------------------------------------
  // Reserving the temporaries' prefix: accepted programs run
  // ---------------------------------------------------------------------------

  datatype CheckError = Semantic(error: SemanticError) | ReservedName(name: string)

  /** `_check_statement` that also refuses to declare a name of the `_t`
      prefix the generator draws its temporaries from. */
  function CheckStatementReserving(symbols: SymbolTable, s: Node): (r: Result<SymbolTable, CheckError>)
    ensures r.Success? <==> CheckStatement(symbols, s).Success? && forall n :: n in Defined(s) ==> !IsTempName(n)
    ensures r.Success? ==> r.value == CheckStatement(symbols, s).value
  {
    if s.DataDeclarationNode? && IsTempName(s.name) then Failure(ReservedName(s.name))
    else if s.AssignmentNode? && IsTempName(s.target) then Failure(ReservedName(s.target))
    else
      match CheckStatement(symbols, s)
      case Success(t) => Success(t)
      case Failure(e) => Failure(Semantic(e))
  }

  function AnalyzeReserving(symbols: SymbolTable, ss: seq<Node>): Result<SymbolTable, CheckError>
    decreases |ss|
  {
    if ss == [] then Success(symbols)
    else
      var next :- CheckStatementReserving(symbols, ss[0]);
      AnalyzeReserving(next, ss[1..])
  }

  /** The corrected analyzer refuses exactly what the analyzer refuses, and
      programs declaring a `_t` name. */
  lemma {:induction false} AnalyzeReservingRefines(symbols: SymbolTable, ss: seq<Node>)
    ensures AnalyzeReserving(symbols, ss).Success? <==>
      AnalyzeFrom(symbols, ss).Success? && forall k, n :: 0 <= k < |ss| && n in Defined(ss[k]) ==> !IsTempName(n)
    ensures AnalyzeReserving(symbols, ss).Success? ==> AnalyzeReserving(symbols, ss).value == AnalyzeFrom(symbols, ss).value
    decreases |ss|
  {
    if ss != [] {
      var r := CheckStatement(symbols, ss[0]);
      if r.Success? {
        AnalyzeReservingRefines(r.value, ss[1..]);
        assert forall k :: 0 < k < |ss| ==> ss[k] == ss[1..][k - 1];
        if !(forall n :: n in Defined(ss[0]) ==> !IsTempName(n)) {
          assert !AnalyzeReserving(symbols, ss).Success?;
        }
      }
    }
  }

  lemma {:induction false} AnalyzeReservingSnoc(symbols: SymbolTable, ss: seq<Node>)
    requires ss != [] && AnalyzeReserving(symbols, ss).Success?
    ensures AnalyzeReserving(symbols, ss[..|ss| - 1]).Success?
    ensures CheckStatementReserving(AnalyzeReserving(symbols, ss[..|ss| - 1]).value, ss[|ss| - 1]) == AnalyzeReserving(symbols, ss)
    decreases |ss|
  {
    var next := CheckStatementReserving(symbols, ss[0]).value;
    if |ss| > 1 {
      AnalyzeReservingSnoc(next, ss[1..]);
      assert ss[1..][..|ss[1..]| - 1] == ss[..|ss| - 1][1..];
      assert ss[1..][|ss[1..]| - 1] == ss[|ss| - 1];
      assert ss[..|ss| - 1][0] == ss[0];
    } else {
      assert ss[..0] == [];
    }
  }

  /** No declared name has the temporaries' prefix. */
  predicate UserNamesOnly(symbols: SymbolTable)
  {
    forall n :: n in symbols ==> !IsTempName(n)
  }

  predicate HasType(v: Value, ty: Type)
  {
    if ty == ListOfInt then v.ListValue? else v.IntValue? || v.NoneValue?
  }

  /** Every declared name is bound, to a value of its declared type. */
  predicate Typed(symbols: SymbolTable, env: Env)
  {
    forall n :: n in symbols ==> Some(n) in env && HasType(env[Some(n)], symbols[n].ty)
  }

  /** A query or aggregation over a bound list does not raise; it binds its
      result to a list, or for an aggregation to an int or None. */
  lemma QueryStepTyped(st: State, i: Instr)
    requires WellShapedInstr(i) && IsQueryOp(i.op)
    requires Some(i.arg1.id) in st.env && st.env[Some(i.arg1.id)].ListValue?
    ensures Step(st, i).Success?
    ensures var next := Step(st, i).value;
      && next.output == st.output && i.result in next.env
      && next.env == st.env[i.result := next.env[i.result]]
      && HasType(next.env[i.result], if IsAggregationOp(i.op) then IntType else ListOfInt)
  {
    var xs := st.env[Some(i.arg1.id)].items;
    if !IsAggregationOp(i.op) {
      FoldFilterIsInterpreted(i, xs);
    }
  }

  /** Binding an assignment's target to a value of the inferred type keeps
      the environment typed by the table after the assignment. */
  lemma AssignmentBindsTyped(symbols: SymbolTable, s: Node, v: Value, env: Env)
    requires s.AssignmentNode? && CheckStatement(symbols, s).Success?
    requires HasType(v, InferExpr(symbols, s.expr).value) && Typed(symbols, env)
    ensures Typed(CheckStatement(symbols, s).value, env[Some(s.target) := v])
  {
  }

  /** The temporary a query draws is not a declared name, so binding it keeps
      the environment typed. */
  lemma QueryIntoTempTyped(symbols: SymbolTable, s: Node, counter: nat, st: State)
    requires s.AssignmentNode? && CheckStatementReserving(symbols, s).Success?
    requires UserNamesOnly(symbols) && Typed(symbols, st.env)
    ensures ExprInstr(s.expr, TempName(counter + 1)).Success?
    ensures var i := ExprInstr(s.expr, TempName(counter + 1)).value;
      && Step(st, i).Success?
      && var next := Step(st, i).value;
      && next.output == st.output && Some(TempName(counter + 1)) in next.env
      && next.env == st.env[Some(TempName(counter + 1)) := next.env[Some(TempName(counter + 1))]]
      && HasType(next.env[Some(TempName(counter + 1))], InferExpr(symbols, s.expr).value)
      && Typed(symbols, next.env)
  {
    var temp := TempName(counter + 1);
    AssignedQueryReady(symbols, s, temp, st);
    var i := ExprInstr(s.expr, temp).value;
    QueryStepTyped(st, i);
    var next := Step(st, i).value;
    TempBindingTyped(symbols, st.env, counter + 1, next.env[Some(temp)]);
  }

  /** The query an accepted assignment lowers to reads a list the environment holds,
      and the type its step produces is the one analysis inferred. */
  lemma AssignedQueryReady(symbols: SymbolTable, s: Node, temp: string, st: State)
    requires s.AssignmentNode? && CheckStatementReserving(symbols, s).Success?
    requires UserNamesOnly(symbols) && Typed(symbols, st.env)
    ensures ExprInstr(s.expr, temp).Success?
    ensures var i := ExprInstr(s.expr, temp).value;
      && WellShapedInstr(i) && IsQueryOp(i.op)
      && Some(i.arg1.id) in st.env && st.env[Some(i.arg1.id)].ListValue?
      && InferExpr(symbols, s.expr).Success?
      && InferExpr(symbols, s.expr).value == if IsAggregationOp(i.op) then IntType else ListOfInt
  {
    assert InferExpr(symbols, s.expr).Success?;
    InferredQueryReady(symbols, s.expr, temp, st);
  }

  lemma InferredQueryReady(symbols: SymbolTable, e: Node, temp: string, st: State)
    requires InferExpr(symbols, e).Success? && Typed(symbols, st.env)
    ensures ExprInstr(e, temp).Success?
    ensures var i := ExprInstr(e, temp).value;
      && WellShapedInstr(i) && IsQueryOp(i.op)
      && Some(i.arg1.id) in st.env && st.env[Some(i.arg1.id)].ListValue?
      && InferExpr(symbols, e).value == if IsAggregationOp(i.op) then IntType else ListOfInt
  {
  }

  /** Binding a temporary leaves the declared names as they were. */
  lemma TempBindingTyped(symbols: SymbolTable, env: Env, k: nat, v: Value)
    requires UserNamesOnly(symbols) && Typed(symbols, env)
    ensures Typed(symbols, env[Some(TempName(k)) := v])
  {
    assert IsTempName(TempName(k));
  }

  lemma AssignmentRunsTyped(symbols: SymbolTable, s: Node, counter: nat, st: State)
    requires s.AssignmentNode? && CheckStatementReserving(symbols, s).Success?
    requires UserNamesOnly(symbols) && Typed(symbols, st.env)
    ensures StatementCode(s, counter).Success?
    ensures var run := ExecuteFrom(st, StatementCode(s, counter).value.code);
      run.error.None? && Typed(CheckStatementReserving(symbols, s).value, run.state.env)
  {
    var temp := TempName(counter + 1);
    QueryIntoTempTyped(symbols, s, counter, st);
    var i := ExprInstr(s.expr, temp).value;
    var code := [i, Instr(Assign, Name(temp), NoOperand, Some(s.target))];
    assert StatementCode(s, counter).value.code == code;
    var st1 := Step(st, i).value;
    var v := st1.env[Some(temp)];
    ExecuteStep(st, code, 0, st1);
    var env2 := st1.env[Some(s.target) := v];
    AssignStep(st1, temp, s.target);
    ExecuteStep(st1, code, 1, State(env2, st.output));
    AssignmentBindsTyped(symbols, s, v, st1.env);
    ExecuteEnd(State(env2, st.output), code);
    assert code[0..] == code;
  }

  /** The code of a declaration, a print or a bare query the corrected analyzer
      accepts is one instruction, which does not raise and keeps the
      environment typed. */
  lemma PlainStatementStepsTyped(symbols: SymbolTable, s: Node, counter: nat, st: State)
    requires !s.AssignmentNode? && CheckStatementReserving(symbols, s).Success?
    requires UserNamesOnly(symbols) && Typed(symbols, st.env)
    ensures StatementCode(s, counter).Success?
    ensures var code := StatementCode(s, counter).value.code;
      && |code| == 1 && Step(st, code[0]).Success?
      && Typed(CheckStatementReserving(symbols, s).value, Step(st, code[0]).value.env)
  {
    AcceptedProgramsLower(symbols, [s]);
    StatementCodeShape(s, counter);
    var code := StatementCode(s, counter).value.code;
    if !s.DataDeclarationNode? && !s.PrintNode? {
      QueryStepTyped(st, code[0]);
    }
  }

  /** Code of one instruction that does not raise runs to that instruction's state. */
  lemma RunOfOne(st: State, code: seq<Instr>, next: State)
    requires |code| == 1 && Step(st, code[0]) == Success(next)
    ensures ExecuteFrom(st, code) == Run(next, None)
  {
    ExecuteStep(st, code, 0, next);
    ExecuteEnd(next, code);
    assert code[0..] == code;
  }

  /** The code of one statement the corrected analyzer accepts runs without
      raising and leaves every declared name bound to a value of its type. */
  lemma StatementRunsTyped(symbols: SymbolTable, s: Node, counter: nat, st: State)
    requires CheckStatementReserving(symbols, s).Success? && UserNamesOnly(symbols) && Typed(symbols, st.env)
    ensures StatementCode(s, counter).Success?
    ensures var run := ExecuteFrom(st, StatementCode(s, counter).value.code);
      run.error.None? && Typed(CheckStatementReserving(symbols, s).value, run.state.env)
  {
    if s.AssignmentNode? {
      AssignmentRunsTyped(symbols, s, counter, st);
    } else {
      PlainStatementStepsTyped(symbols, s, counter, st);
      var code := StatementCode(s, counter).value.code;
      RunOfOne(st, code, Step(st, code[0]).value);
    }
  }

  /** Soundness of the corrected analyzer: a program it accepts is lowered,
      its code runs without raising, and every declared name ends bound to a
      value of its declared type. */
  lemma {:induction false} AcceptedProgramsRun(ss: seq<Node>)
    requires AnalyzeReserving(map[], ss).Success?
    ensures GenStatements(ss).Success?
    ensures Execute(GenStatements(ss).value.code).error.None?
    ensures Typed(AnalyzeReserving(map[], ss).value, Execute(GenStatements(ss).value.code).state.env)
    ensures UserNamesOnly(AnalyzeReserving(map[], ss).value)
    decreases |ss|
  {
    if ss != [] {
      var init := ss[..|ss| - 1];
      var last := ss[|ss| - 1];
      AnalyzeReservingSnoc(map[], ss);
      AcceptedProgramsRun(init);
      var t := AnalyzeReserving(map[], init).value;
      var before := GenStatements(init).value;
      var run := Execute(before.code);
      StatementRunsTyped(t, last, before.counter, run.state);
      var lastCode := StatementCode(last, before.counter).value.code;
      assert GenStatements(ss).value.code == before.code + lastCode;
      ExecuteAppend(State(map[], []), before.code, lastCode);
    }
  }

  /** End to end, with the corrections: a program the corrected analyzer
      accepts prints the same values whether or not its code is optimized. */
  lemma AcceptedProgramsOptimize(ss: seq<Node>)
    requires AnalyzeReserving(map[], ss).Success?
    ensures GenStatements(ss).Success?
    ensures var code := GenStatements(ss).value.code;
      && Execute(OptimizedSound(code)).error.None?
      && Execute(OptimizedSound(code)).state.output == Execute(code).state.output
  {
    AnalyzeReservingRefines(map[], ss);
    AcceptedProgramsLower(map[], ss);
    AcceptedProgramsRun(ss);
    OptimizedSoundKeepsOutput(GenStatements(ss).value.code);
  }
}
