/** The IR generator of src/ir_generator.py: it lowers the syntax tree to a flat
    list of three-address instructions, giving every query and aggregation a
    fresh temporary `_t1`, `_t2`, ... to hold its value.

    The lowering of one statement is the function `StatementCode`, the lowering
    of a program `GenStatements`; class IRGenerator is proved to build exactly
    that list, and the lemmas below say what the list looks like. */
module IRGen {
  import opened Wrappers
  import opened Decimal
  import opened Parsing

  // ---------------------------------------------------------------------------
  // Instructions
  // ---------------------------------------------------------------------------

  /** The operation names of the IR; `Unknown` stands for any other name an
      instruction list handed to the later stages might carry. Its text is
      never one of `OpNames`: an instruction spelled with one of those names
      is the corresponding named constructor, so `Unknown("LIST")` does not
      arise from the generator or from any instruction list the later stages
      read. */
  const OpNames: set<string> :=
    {"LIST", "ASSIGN", "FILTER_GT", "FILTER_LT", "FILTER_EQ", "FILTER_BETWEEN",
     "FILTER_EVEN", "FILTER_ODD", "AGG_SUM", "AGG_MAX", "AGG_MIN", "AGG_COUNT", "PRINT"}

  /** Every opcode name of an `Unknown` operation lies outside `OpNames`. */
  predicate ProperOp(op: Op) { op.Unknown? ==> op.text !in OpNames }

  datatype Op =
    | List | Assign
    | FilterGt | FilterLt | FilterEq | FilterBetween | FilterEven | FilterOdd
    | AggSum | AggMax | AggMin | AggCount
    | Print
    | Unknown(text: string)

  /** An operand: a variable or temporary name, an integer, a literal list of
      integers, a `(lo, hi)` pair, or Python's None. */
  datatype Operand =
    | Name(id: string)
    | Int(value: int)
    | Ints(values: seq<int>)
    | Bounds(lo: int, hi: int)
    | NoOperand

  /** `IRInstruction(op, arg1, arg2, result)`; a result of None is `None`. */
  datatype Instr = Instr(op: Op, arg1: Operand, arg2: Operand, result: Option<string>)

  /** The ValueErrors the generator raises. */
  datatype BuildError =
    | InvalidExpression(node: Node)        // right-hand side that is not a query or aggregation
    | UnknownSelectOperator(op: string)
    | MissingBound(op: string)             // `cond[1]` or `cond[2]` out of range
    | UnknownFilterMode(mode: string)
    | UnknownAggregation(func: string)

  predicate IsSelectOp(op: Op) { op.FilterGt? || op.FilterLt? || op.FilterEq? || op.FilterBetween? }
  predicate IsParityOp(op: Op) { op.FilterEven? || op.FilterOdd? }
  predicate IsAggregationOp(op: Op) { op.AggSum? || op.AggMax? || op.AggMin? || op.AggCount? }

  /** The operations that compute a value into a fresh temporary. */
  /** A node whose lowering draws a temporary before it can be refused. */
  predicate DrawsTemp(e: Node) { e.SelectQueryNode? || e.FilterQueryNode? || e.AggregationNode? }

  /** The temporaries a refused statement has drawn. */
  function DrawnOnFailure(s: Node): nat
  {
    if DrawsTemp(s) || (s.AssignmentNode? && DrawsTemp(s.expr)) then 1 else 0
  }

  predicate IsQueryOp(op: Op) { IsSelectOp(op) || IsParityOp(op) || IsAggregationOp(op) }

  /** The operand shapes the generator gives each operation. */
  predicate WellShapedInstr(i: Instr)
  {
    match i.op
    case List => i.arg1.Ints? && i.arg2.NoOperand? && i.result.Some?
    case Assign => i.arg1.Name? && i.arg2.NoOperand? && i.result.Some?
    case FilterBetween => i.arg1.Name? && i.arg2.Bounds? && i.result.Some?
    case Print => i.arg1.Name? && i.arg2.NoOperand? && i.result.None?
    case Unknown(_) => false
    case _ =>
      && i.arg1.Name? && i.result.Some?
      && (if IsSelectOp(i.op) then i.arg2.Int? else i.arg2.NoOperand?)
  }

  predicate WellShaped(code: seq<Instr>)
  {
    forall k :: 0 <= k < |code| ==> WellShapedInstr(code[k])
  }

  // ---------------------------------------------------------------------------
  // Temporaries
  // ---------------------------------------------------------------------------

  /** `new_temp()` after the counter has reached `k`. */
  function TempName(k: nat): (t: string)
    ensures |t| >= 3 && t[..2] == "_t"
  {
    "_t" + NatToString(k)
  }

  lemma TempNameInjective(j: nat, k: nat)
    ensures TempName(j) == TempName(k) <==> j == k
  {
    if TempName(j) == TempName(k) {
      assert NatToString(j) == TempName(j)[2..] == TempName(k)[2..] == NatToString(k);
      NatToStringInjective(j, k);
    }
  }

  /** `_t1`, ..., `_tn`: the temporaries a counter that has reached `n` has handed out. */
  function Temps(n: nat): (ts: seq<string>)
    ensures |ts| == n
    ensures forall k :: 0 <= k < n ==> ts[k] == TempName(k + 1)
  {
    if n == 0 then [] else Temps(n - 1) + [TempName(n)]
  }

  lemma TempsDistinct(n: nat)
    ensures forall j, k :: 0 <= j < k < n ==> Temps(n)[j] != Temps(n)[k]
  {
    forall j, k | 0 <= j < k < n
      ensures Temps(n)[j] != Temps(n)[k]
    {
      TempNameInjective(j + 1, k + 1);
    }
  }

  // ---------------------------------------------------------------------------
  // Lowering, as functions
  // ---------------------------------------------------------------------------

  /** `_gen_select` once `temp` is drawn. */
  function SelectInstr(c: Condition, source: string, temp: string): (r: Result<Instr, BuildError>)
    ensures r.Success? <==> c.op in {">", "<", "=", "between"} && |c.bounds| >= (if c.op == "between" then 2 else 1)
    ensures r.Success? ==> IsSelectOp(r.value.op) && r.value.arg1 == Name(source) && r.value.result == Some(temp)
  {
    if c.op == ">" then
      if |c.bounds| < 1 then Failure(MissingBound(c.op))
      else Success(Instr(FilterGt, Name(source), Int(c.bounds[0]), Some(temp)))
    else if c.op == "<" then
      if |c.bounds| < 1 then Failure(MissingBound(c.op))
      else Success(Instr(FilterLt, Name(source), Int(c.bounds[0]), Some(temp)))
    else if c.op == "=" then
      if |c.bounds| < 1 then Failure(MissingBound(c.op))
      else Success(Instr(FilterEq, Name(source), Int(c.bounds[0]), Some(temp)))
    else if c.op == "between" then
      if |c.bounds| < 2 then Failure(MissingBound(c.op))
      else Success(Instr(FilterBetween, Name(source), Bounds(c.bounds[0], c.bounds[1]), Some(temp)))
    else Failure(UnknownSelectOperator(c.op))
  }

  /** The `mapping` of `_gen_aggregation`. */
  function AggregationOp(func: string): Option<Op>
  {
    if func == "sum" then Some(AggSum)
    else if func == "max" then Some(AggMax)
    else if func == "min" then Some(AggMin)
    else if func == "count" then Some(AggCount)
    else None
  }

  /** `_gen_expr` once `temp` is drawn: the one instruction computing the value
      of a query or aggregation into `temp`. */
  function ExprInstr(e: Node, temp: string): (r: Result<Instr, BuildError>)
    ensures r.Success? <==> TranslatableExpr(e)
    ensures r.Success? ==> IsQueryOp(r.value.op) && r.value.arg1 == Name(e.source) && r.value.result == Some(temp)
  {
    match e
    case SelectQueryNode(c, source) => SelectInstr(c, source, temp)
    case FilterQueryNode(mode, source) =>
      if mode == "even" then Success(Instr(FilterEven, Name(source), NoOperand, Some(temp)))
      else if mode == "odd" then Success(Instr(FilterOdd, Name(source), NoOperand, Some(temp)))
      else Failure(UnknownFilterMode(mode))
    case AggregationNode(func, source) =>
      var op := AggregationOp(func);
      if op.None? then Failure(UnknownAggregation(func))
      else Success(Instr(op.value, Name(source), NoOperand, Some(temp)))
    case _ => Failure(InvalidExpression(e))
  }

  /** Instructions emitted and the temporary counter afterwards. */
  datatype Emitted = Emitted(code: seq<Instr>, counter: nat)

  /** `_gen_statement` with the temporary counter at `counter`. */
  function StatementCode(s: Node, counter: nat): Result<Emitted, BuildError>
  {
    match s
    case DataDeclarationNode(name, values) =>
      Success(Emitted([Instr(List, Ints(values), NoOperand, Some(name))], counter))
    case AssignmentNode(target, e) =>
      var temp := TempName(counter + 1);
      var i :- ExprInstr(e, temp);
      Success(Emitted([i, Instr(Assign, Name(temp), NoOperand, Some(target))], counter + 1))
    case PrintNode(target) =>
      Success(Emitted([Instr(Print, Name(target), NoOperand, None)], counter))
    case _ =>
      // a standalone query or aggregation: its temporary is computed and dropped
      var i :- ExprInstr(s, TempName(counter + 1));
      Success(Emitted([i], counter + 1))
  }

  /** `generate`: the statements lowered in order from a fresh counter; the first
      statement that cannot be lowered stops it. */
  function GenStatements(ss: seq<Node>): Result<Emitted, BuildError>
  {
    if ss == [] then Success(Emitted([], 0))
    else
      var before :- GenStatements(ss[..|ss| - 1]);
      var last :- StatementCode(ss[|ss| - 1], before.counter);
      Success(Emitted(before.code + last.code, last.counter))
  }

  /** What `generate` leaves in its fields when a statement is refused: the code
      and counter of the statements before it, plus the temporaries the refused
      statement drew. `code` and `counter` are what the earlier statements left. */
  function Leftover(ss: seq<Node>, code: seq<Instr>, counter: nat): Emitted
    decreases |ss|
  {
    if ss == [] then Emitted(code, counter)
    else
      match StatementCode(ss[0], counter)
      case Success(e) => Leftover(ss[1..], code + e.code, e.counter)
      case Failure(_) => Emitted(code, counter + DrawnOnFailure(ss[0]))
  }

  // ---------------------------------------------------------------------------
  // What can be lowered
  // ---------------------------------------------------------------------------

  /** An expression the generator accepts, stated on the syntax alone. */
  predicate TranslatableExpr(e: Node)
  {
    match e
    case SelectQueryNode(c, _) =>
      || (c.op in {">", "<", "="} && |c.bounds| >= 1)
      || (c.op == "between" && |c.bounds| >= 2)
    case FilterQueryNode(mode, _) => mode in {"even", "odd"}
    case AggregationNode(func, _) => func in {"sum", "max", "min", "count"}
    case _ => false
  }

  predicate Translatable(s: Node)
  {
    match s
    case DataDeclarationNode(_, _) => true
    case PrintNode(_) => true
    case AssignmentNode(_, e) => TranslatableExpr(e)
    case _ => TranslatableExpr(s)
  }

  /** A statement is lowered exactly when it is translatable; it then yields one
      instruction, two for an assignment, and draws one temporary exactly when
      it holds a query or an aggregation. */
  lemma StatementCodeShape(s: Node, counter: nat)
    ensures StatementCode(s, counter).Success? <==> Translatable(s)
    ensures StatementCode(s, counter).Success? ==>
      var e := StatementCode(s, counter).value;
      && |e.code| == (if s.AssignmentNode? then 2 else 1)
      && e.counter == (if s.DataDeclarationNode? || s.PrintNode? then counter else counter + 1)
      && WellShaped(e.code)
  {
  }

  /** Everything the parser produces can be lowered. */
  lemma WellFormedIsTranslatable(s: Node)
    requires WellFormed(s)
    ensures Translatable(s)
  {
  }

  /** `generate` succeeds exactly when every statement is translatable, and then
      emits one instruction per statement plus one per assignment, all of the
      operand shapes above. */
  lemma {:induction false} GenStatementsShape(ss: seq<Node>)
    ensures GenStatements(ss).Success? <==> forall k :: 0 <= k < |ss| ==> Translatable(ss[k])
    ensures GenStatements(ss).Success? ==>
      && WellShaped(GenStatements(ss).value.code)
      && |GenStatements(ss).value.code| == |ss| + Assignments(ss)
  {
    if ss != [] {
      var init := ss[..|ss| - 1];
      GenStatementsShape(init);
      assert forall k :: 0 <= k < |init| ==> init[k] == ss[k];
      var before := GenStatements(init);
      if before.Success? {
        StatementCodeShape(ss[|ss| - 1], before.value.counter);
        if GenStatements(ss).Success? {
          var last := StatementCode(ss[|ss| - 1], before.value.counter).value;
          WellShapedConcat(before.value.code, last.code);
        }
      } else {
        assert !Translatable(ss[|ss| - 1]) || !(forall k :: 0 <= k < |init| ==> Translatable(init[k]));
      }
    }
  }

  lemma WellShapedConcat(a: seq<Instr>, b: seq<Instr>)
    requires WellShaped(a) && WellShaped(b)
    ensures WellShaped(a + b)
  {
    assert forall k :: 0 <= k < |a + b| ==> (a + b)[k] == if k < |a| then a[k] else b[k - |a|];
  }

  /** The number of assignment statements. */
  function Assignments(ss: seq<Node>): nat
  {
    if ss == [] then 0 else Assignments(ss[..|ss| - 1]) + (if ss[|ss| - 1].AssignmentNode? then 1 else 0)
  }

  // ---------------------------------------------------------------------------
  // Temporaries in the generated code
  // ---------------------------------------------------------------------------

  /** The results of the query and aggregation instructions, in order. */
  function QueryResults(code: seq<Instr>): seq<Option<string>>
  {
    if code == [] then []
    else QueryResults(code[..|code| - 1]) + (if IsQueryOp(code[|code| - 1].op) then [code[|code| - 1].result] else [])
  }

  lemma QueryResultsAppend(a: seq<Instr>, b: seq<Instr>)
    ensures QueryResults(a + b) == QueryResults(a) + QueryResults(b)
    decreases |b|
  {
    if b == [] {
      assert a + b == a;
    } else {
      assert (a + b)[..|a + b| - 1] == a + b[..|b| - 1];
      QueryResultsAppend(a, b[..|b| - 1]);
    }
  }

  function SomeAll(ts: seq<string>): (r: seq<Option<string>>)
    ensures |r| == |ts| && forall k :: 0 <= k < |ts| ==> r[k] == Some(ts[k])
  {
    if ts == [] then [] else SomeAll(ts[..|ts| - 1]) + [Some(ts[|ts| - 1])]
  }

  lemma QueryResultsOne(i: Instr)
    ensures QueryResults([i]) == if IsQueryOp(i.op) then [i.result] else []
  {
    assert [i][..0] == [];
  }

  /** The temporaries one statement writes: none for a declaration or a print,
      the next one for anything else; the counter moves past exactly those. */
  lemma StatementTemps(s: Node, n: nat)
    requires StatementCode(s, n).Success?
    ensures QueryResults(StatementCode(s, n).value.code)
      == if s.DataDeclarationNode? || s.PrintNode? then [] else [Some(TempName(n + 1))]
    ensures StatementCode(s, n).value.counter == if s.DataDeclarationNode? || s.PrintNode? then n else n + 1
  {
    match s
    case DataDeclarationNode(_, _) =>
      QueryResultsOne(StatementCode(s, n).value.code[0]);
    case PrintNode(_) =>
      QueryResultsOne(StatementCode(s, n).value.code[0]);
    case AssignmentNode(target, e) =>
      AssignmentTemps(target, e, n);
    case _ =>
      QueryResultsOne(ExprInstr(s, TempName(n + 1)).value);
  }

  lemma AssignmentTemps(target: string, e: Node, n: nat)
    requires StatementCode(AssignmentNode(target, e), n).Success?
    ensures QueryResults(StatementCode(AssignmentNode(target, e), n).value.code) == [Some(TempName(n + 1))]
  {
    var i := ExprInstr(e, TempName(n + 1)).value;
    var copy := Instr(Assign, Name(TempName(n + 1)), NoOperand, Some(target));
    assert StatementCode(AssignmentNode(target, e), n).value.code == [i] + [copy];
    QueryResultsOne(i);
    QueryResultsOne(copy);
    QueryResultsAppend([i], [copy]);
  }

  /** Each query and aggregation writes its own fresh temporary: their results
      are `_t1`, `_t2`, ... in order, all distinct. */
  lemma {:induction false} GeneratedTemps(ss: seq<Node>)
    requires GenStatements(ss).Success?
    ensures QueryResults(GenStatements(ss).value.code) == SomeAll(Temps(GenStatements(ss).value.counter))
  {
    if ss != [] {
      var init := ss[..|ss| - 1];
      var before := GenStatements(init).value;
      GeneratedTemps(init);
      var s := ss[|ss| - 1];
      var last := StatementCode(s, before.counter).value;
      assert GenStatements(ss).value == Emitted(before.code + last.code, last.counter);
      QueryResultsAppend(before.code, last.code);
      StatementTemps(s, before.counter);
      var n := before.counter;
      if s.DataDeclarationNode? || s.PrintNode? {
        assert SomeAll(Temps(n)) + [] == SomeAll(Temps(n));
      } else {
        SomeAllTempsNext(n);
      }
    }
  }

  lemma SomeAllTempsNext(n: nat)
    ensures SomeAll(Temps(n + 1)) == SomeAll(Temps(n)) + [Some(TempName(n + 1))]
  {
    assert Temps(n + 1)[..n] == Temps(n);
  }

  /** Every ASSIGN copies a temporary written by the instruction just before it. */
  predicate AssignsFollowDefinitions(code: seq<Instr>)
  {
    forall k :: 0 <= k < |code| && code[k].op.Assign? ==>
      k > 0 && IsQueryOp(code[k - 1].op) && code[k - 1].result.Some? && code[k].arg1 == Name(code[k - 1].result.value)
  }

  lemma {:induction false} GeneratedAssignsFollowDefinitions(ss: seq<Node>)
    requires GenStatements(ss).Success?
    ensures AssignsFollowDefinitions(GenStatements(ss).value.code)
  {
    if ss != [] {
      var init := ss[..|ss| - 1];
      var before := GenStatements(init).value;
      GeneratedAssignsFollowDefinitions(init);
      var last := StatementCode(ss[|ss| - 1], before.counter).value;
      var code := before.code + last.code;
      forall k | 0 <= k < |code| && code[k].op.Assign?
        ensures k > 0 && IsQueryOp(code[k - 1].op) && code[k - 1].result.Some? && code[k].arg1 == Name(code[k - 1].result.value)
      {
        if k >= |before.code| {
          assert code[k] == last.code[k - |before.code|];
          assert k - |before.code| == 1;
          assert code[k - 1] == last.code[0];
        }
      }
    }
  }

  // ---------------------------------------------------------------------------
  // The generator object
  // ---------------------------------------------------------------------------

  class IRGenerator {
    var instructions: seq<Instr>
    var tempCounter: nat

    constructor()
      ensures instructions == [] && tempCounter == 0
    {
      instructions := [];
      tempCounter := 0;
    }

    method NewTemp() returns (t: string)
      modifies this
      ensures tempCounter == old(tempCounter) + 1 && t == TempName(tempCounter)
      ensures instructions == old(instructions)
    {
      tempCounter := tempCounter + 1;
      t := "_t" + NatToString(tempCounter);
    }

    method Generate(program: ProgramNode) returns (r: Result<seq<Instr>, BuildError>)
      modifies this
      ensures match GenStatements(program.statements)
        case Success(e) => r == Success(e.code) && instructions == e.code && tempCounter == e.counter
        case Failure(err) =>
          r == Failure(err) && Emitted(instructions, tempCounter) == Leftover(program.statements, [], 0)
    {
      instructions := [];
      tempCounter := 0;
      var ss := program.statements;
      var i := 0;
      assert ss[0..] == ss;
      while i < |ss|
        invariant 0 <= i <= |ss|
        invariant GenStatements(ss[..i]) == Success(Emitted(instructions, tempCounter))
        invariant Leftover(ss[i..], instructions, tempCounter) == Leftover(ss, [], 0)
      {
        assert ss[i..][0] == ss[i] && ss[i..][1..] == ss[i + 1..];
        assert ss[..i + 1][..i] == ss[..i];
        var out := GenStatement(ss[i]);
        if out.Fail? {
          PrefixFailure(ss, i + 1);
          return Failure(out.error);
        }
        i := i + 1;
      }
      assert ss[..i] == ss;
      return Success(instructions);
    }

    /** A failure on a prefix is the failure of the whole program. */
    static lemma {:induction false} PrefixFailure(ss: seq<Node>, n: nat)
      requires n <= |ss| && GenStatements(ss[..n]).Failure?
      ensures GenStatements(ss) == Failure(GenStatements(ss[..n]).error)
      decreases |ss| - n
    {
      if n < |ss| {
        assert ss[..n + 1][..n] == ss[..n];
        PrefixFailure(ss, n + 1);
      } else {
        assert ss[..n] == ss;
      }
    }

    method GenStatement(s: Node) returns (r: Outcome<BuildError>)
      modifies this
      ensures match StatementCode(s, old(tempCounter))
        case Success(e) => r.Pass? && instructions == old(instructions) + e.code && tempCounter == e.counter
        case Failure(err) =>
          r == Fail(err) && instructions == old(instructions) && tempCounter == old(tempCounter) + DrawnOnFailure(s)
    {
      match s
      case DataDeclarationNode(_, _) =>
        GenDataDecl(s);
        return Pass;
      case AssignmentNode(_, _) =>
        r := GenAssignment(s);
      case PrintNode(_) =>
        GenPrint(s);
        return Pass;
      case SelectQueryNode(_, _) =>
        var t := GenSelect(s);
        r := if t.Success? then Pass else Fail(t.error);
      case FilterQueryNode(_, _) =>
        var t := GenFilter(s);
        r := if t.Success? then Pass else Fail(t.error);
      case AggregationNode(_, _) =>
        var t := GenAggregation(s);
        r := if t.Success? then Pass else Fail(t.error);
    }

    method GenDataDecl(s: Node)
      requires s.DataDeclarationNode?
      modifies this
      ensures instructions == old(instructions) + [Instr(List, Ints(s.values), NoOperand, Some(s.name))]
      ensures tempCounter == old(tempCounter)
    {
      instructions := instructions + [Instr(List, Ints(s.values), NoOperand, Some(s.name))];
    }

    method GenAssignment(s: Node) returns (r: Outcome<BuildError>)
      requires s.AssignmentNode?
      modifies this
      ensures match StatementCode(s, old(tempCounter))
        case Success(e) => r.Pass? && instructions == old(instructions) + e.code && tempCounter == e.counter
        case Failure(err) =>
          r == Fail(err) && instructions == old(instructions) && tempCounter == old(tempCounter) + DrawnOnFailure(s)
    {
      var rhs := GenExpr(s.expr);
      if rhs.Failure? {
        return Fail(rhs.error);
      }
      instructions := instructions + [Instr(Assign, Name(rhs.value), NoOperand, Some(s.target))];
      return Pass;
    }

    /** `_gen_expr`: the temporary holding the value, after its instruction. A
        node that is not an expression is refused before a temporary is drawn. */
    method GenExpr(e: Node) returns (r: Result<string, BuildError>)
      modifies this
      ensures match ExprInstr(e, TempName(old(tempCounter) + 1))
        case Success(i) =>
          r == Success(TempName(old(tempCounter) + 1)) && instructions == old(instructions) + [i]
          && tempCounter == old(tempCounter) + 1
        case Failure(err) =>
          r == Failure(err) && instructions == old(instructions)
          && tempCounter == (if DrawsTemp(e) then old(tempCounter) + 1 else old(tempCounter))
    {
      if e.SelectQueryNode? {
        r := GenSelect(e);
      } else if e.FilterQueryNode? {
        r := GenFilter(e);
      } else if e.AggregationNode? {
        r := GenAggregation(e);
      } else {
        r := Failure(InvalidExpression(e));
      }
    }

    method GenSelect(e: Node) returns (r: Result<string, BuildError>)
      requires e.SelectQueryNode?
      modifies this
      ensures tempCounter == old(tempCounter) + 1
      ensures match SelectInstr(e.condition, e.source, TempName(tempCounter))
        case Success(i) => r == Success(TempName(tempCounter)) && instructions == old(instructions) + [i]
        case Failure(err) => r == Failure(err) && instructions == old(instructions)
    {
      var temp := NewTemp();
      var c := e.condition;
      var op := c.op;
      if op == ">" {
        if |c.bounds| < 1 { return Failure(MissingBound(op)); }
        instructions := instructions + [Instr(FilterGt, Name(e.source), Int(c.bounds[0]), Some(temp))];
      } else if op == "<" {
        if |c.bounds| < 1 { return Failure(MissingBound(op)); }
        instructions := instructions + [Instr(FilterLt, Name(e.source), Int(c.bounds[0]), Some(temp))];
      } else if op == "=" {
        if |c.bounds| < 1 { return Failure(MissingBound(op)); }
        instructions := instructions + [Instr(FilterEq, Name(e.source), Int(c.bounds[0]), Some(temp))];
      } else if op == "between" {
        if |c.bounds| < 2 { return Failure(MissingBound(op)); }
        instructions := instructions + [Instr(FilterBetween, Name(e.source), Bounds(c.bounds[0], c.bounds[1]), Some(temp))];
      } else {
        return Failure(UnknownSelectOperator(op));
      }
      return Success(temp);
    }

    method GenFilter(e: Node) returns (r: Result<string, BuildError>)
      requires e.FilterQueryNode?
      modifies this
      ensures tempCounter == old(tempCounter) + 1
      ensures match ExprInstr(e, TempName(tempCounter))
        case Success(i) => r == Success(TempName(tempCounter)) && instructions == old(instructions) + [i]
        case Failure(err) => r == Failure(err) && instructions == old(instructions)
    {
      var temp := NewTemp();
      var op;
      if e.mode == "even" {
        op := FilterEven;
      } else if e.mode == "odd" {
        op := FilterOdd;
      } else {
        return Failure(UnknownFilterMode(e.mode));
      }
      instructions := instructions + [Instr(op, Name(e.source), NoOperand, Some(temp))];
      return Success(temp);
    }

    method GenAggregation(e: Node) returns (r: Result<string, BuildError>)
      requires e.AggregationNode?
      modifies this
      ensures tempCounter == old(tempCounter) + 1
      ensures match ExprInstr(e, TempName(tempCounter))
        case Success(i) => r == Success(TempName(tempCounter)) && instructions == old(instructions) + [i]
        case Failure(err) => r == Failure(err) && instructions == old(instructions)
    {
      var temp := NewTemp();
      var op := AggregationOp(e.func);
      if op.None? {
        return Failure(UnknownAggregation(e.func));
      }
      instructions := instructions + [Instr(op.value, Name(e.source), NoOperand, Some(temp))];
      return Success(temp);
    }

    method GenPrint(s: Node)
      requires s.PrintNode?
      modifies this
      ensures instructions == old(instructions) + [Instr(Print, Name(s.target), NoOperand, None)]
      ensures tempCounter == old(tempCounter)
    {
      instructions := instructions + [Instr(Print, Name(s.target), NoOperand, None)];
    }
  }
}
