/** The interpreter of src/codegen.py: class CodeGenerator runs an instruction
    list in order over an environment that maps result names (Python's None
    included) to values, and prints values.

    Printing is modelled as appending the printed value to `output`; the text
    Python's `print` makes of it is not part of this model. One instruction is
    the function `Step`, a run the function `ExecuteFrom`; the methods of the
    class are proved to do exactly that. */
module CodeGen {
  import opened Wrappers
  import opened Lists
  import opened IRGen

  // ---------------------------------------------------------------------------
  // Values, environment, errors
  // ---------------------------------------------------------------------------

  /** A Python value the interpreter binds: a list of ints, an int, or None
      (the maximum or minimum of an empty list). */
  datatype Value = ListValue(items: seq<int>) | IntValue(n: int) | NoneValue

  type Env = map<Option<string>, Value>

  datatype RuntimeError =
    | UnknownOperation(op: Op)                  // "Unknown IR operation"
    | ListLiteralExpected                       // LIST whose arg1 is not a list
    | UnknownVariable(op: Op, operand: Operand) // ASSIGN, FILTER, AGG or PRINT of an unbound name
    | ListExpected(op: Op, value: Value)        // FILTER or AGG over a value that is not a list
    | TypeMismatch(op: Op)                      // a Python TypeError or ValueError instead

  /** The environment and the values printed so far. */
  datatype State = State(env: Env, output: seq<Value>)

  /** `name not in self.env` / `self.env[name]` for an operand: a string or None
      is looked up; an int or a pair is hashable but never bound; a list is
      unhashable and raises TypeError. */
  function Lookup(env: Env, op: Op, o: Operand): (r: Result<Value, RuntimeError>)
    ensures o.Name? ==> (r.Success? <==> Some(o.id) in env)
    ensures r.Success? ==> r.value in env.Values
  {
    match o
    case Name(id) => if Some(id) in env then Success(env[Some(id)]) else Failure(UnknownVariable(op, o))
    case NoOperand => if None in env then Success(env[None]) else Failure(UnknownVariable(op, o))
    case Ints(_) => Failure(TypeMismatch(op))
    case _ => Failure(UnknownVariable(op, o))
  }

  // ---------------------------------------------------------------------------
  // The comprehensions and aggregates
  // ---------------------------------------------------------------------------

  /** The comprehension `_exec_filter` evaluates for filter instruction `i` over
      `xs`. A threshold that is not an int makes the comparison raise at the
      first element; an equality with a non-int keeps nothing; bounds that do not
      unpack into two values raise before the comprehension runs. */
  function FilterValues(i: Instr, xs: seq<int>): Result<seq<int>, RuntimeError>
  {
    match i.op
    case FilterGt =>
      if i.arg2.Int? then Success(Filter(xs, x => x > i.arg2.value))
      else if xs == [] then Success([]) else Failure(TypeMismatch(i.op))
    case FilterLt =>
      if i.arg2.Int? then Success(Filter(xs, x => x < i.arg2.value))
      else if xs == [] then Success([]) else Failure(TypeMismatch(i.op))
    case FilterEq =>
      if i.arg2.Int? then Success(Filter(xs, x => x == i.arg2.value)) else Success([])
    case FilterBetween =>
      (match i.arg2
       case Bounds(lo, hi) => Success(Filter(xs, x => lo <= x <= hi))
       case Ints(vs) =>
         if |vs| == 2 then Success(Filter(xs, x => vs[0] <= x <= vs[1])) else Failure(TypeMismatch(i.op))
       case Name(s) =>
         // a two-character string unpacks, and its characters do not compare with ints
         if |s| == 2 && xs == [] then Success([]) else Failure(TypeMismatch(i.op))
       case _ => Failure(TypeMismatch(i.op)))
    case FilterEven => Success(Filter(xs, x => x % 2 == 0))
    case FilterOdd => Success(Filter(xs, x => x % 2 != 0))
    case _ => Failure(UnknownOperation(i.op))
  }

  /** `sum(xs)` */
  function Sum(xs: seq<int>): int
  {
    if xs == [] then 0 else xs[0] + Sum(xs[1..])
  }

  /** `max(xs)` of a non-empty list. */
  function Max(xs: seq<int>): (m: int)
    requires xs != []
    ensures m in xs && forall k :: 0 <= k < |xs| ==> xs[k] <= m
  {
    if |xs| == 1 then xs[0]
    else
      var rest := Max(xs[1..]);
      if xs[0] >= rest then xs[0] else rest
  }

  /** `min(xs)` of a non-empty list. */
  function Min(xs: seq<int>): (m: int)
    requires xs != []
    ensures m in xs && forall k :: 0 <= k < |xs| ==> m <= xs[k]
  {
    if |xs| == 1 then xs[0]
    else
      var rest := Min(xs[1..]);
      if xs[0] <= rest then xs[0] else rest
  }

  /** The value `_exec_aggregation` computes; None for the maximum or minimum
      of an empty list. */
  function AggregateValue(op: Op, xs: seq<int>): Value
    requires IsAggregationOp(op)
  {
    match op
    case AggSum => IntValue(Sum(xs))
    case AggMax => if xs == [] then NoneValue else IntValue(Max(xs))
    case AggMin => if xs == [] then NoneValue else IntValue(Min(xs))
    case AggCount => IntValue(|xs|)
  }

  // ---------------------------------------------------------------------------
  // One instruction and a run, as functions
  // ---------------------------------------------------------------------------

  /** One iteration of the loop of `run`. */
  function Step(st: State, i: Instr): (r: Result<State, RuntimeError>)
    ensures i.op.Unknown? ==> r == Failure(UnknownOperation(i.op))
    ensures r.Success? && i.op.Print? ==>
      r.value.env == st.env && exists v :: r.value.output == st.output + [v]
    ensures r.Success? && !i.op.Print? ==>
      && r.value.output == st.output
      && r.value.env.Keys == st.env.Keys + {i.result}
      && forall k :: k in st.env && k != i.result ==> r.value.env[k] == st.env[k]
  {
    if i.op.List? then
      if i.arg1.Ints? then Success(State(st.env[i.result := ListValue(i.arg1.values)], st.output))
      else Failure(ListLiteralExpected)
    else if i.op.Assign? then
      var v :- Lookup(st.env, i.op, i.arg1);
      Success(State(st.env[i.result := v], st.output))
    else if IsSelectOp(i.op) || IsParityOp(i.op) then
      var v :- Lookup(st.env, i.op, i.arg1);
      if !v.ListValue? then Failure(ListExpected(i.op, v))
      else
        var ys :- FilterValues(i, v.items);
        Success(State(st.env[i.result := ListValue(ys)], st.output))
    else if IsAggregationOp(i.op) then
      var v :- Lookup(st.env, i.op, i.arg1);
      if !v.ListValue? then Failure(ListExpected(i.op, v))
      else Success(State(st.env[i.result := AggregateValue(i.op, v.items)], st.output))
    else if i.op.Print? then
      var v :- Lookup(st.env, i.op, i.arg1);
      Success(State(st.env, st.output + [v]))
    else Failure(UnknownOperation(i.op))
  }

  /** The state a run stops in, and the error that stopped it, if any. */
  datatype Run = Run(state: State, error: Option<RuntimeError>)

  /** `run` from state `st`: the instructions in order until the first that raises. */
  function ExecuteFrom(st: State, ir: seq<Instr>): Run
    decreases |ir|
  {
    if ir == [] then Run(st, None)
    else
      match Step(st, ir[0])
      case Failure(e) => Run(st, Some(e))
      case Success(next) => ExecuteFrom(next, ir[1..])
  }

  /** `run(ir)` on a fresh environment, nothing printed yet. */
  function Execute(ir: seq<Instr>): Run
  {
    ExecuteFrom(State(map[], []), ir)
  }

  // ---------------------------------------------------------------------------
  // Properties
  // ---------------------------------------------------------------------------

  /** A filter's result is the source with some elements left out and the rest
      in order: never longer, and nothing that is not in the source. */
  lemma FilterValuesSublist(i: Instr, xs: seq<int>)
    requires FilterValues(i, xs).Success?
    ensures IsSubsequence(FilterValues(i, xs).value, xs)
    ensures |FilterValues(i, xs).value| <= |xs|
    ensures forall y :: y in FilterValues(i, xs).value ==> y in xs
  {
    var ys := FilterValues(i, xs).value;
    var keep: int -> bool :| ys == Filter(xs, keep) by {
      match i.op
      case FilterGt =>
        if i.arg2.Int? { assert ys == Filter(xs, x => x > i.arg2.value); }
        else { assert ys == Filter(xs, x => false); }
      case FilterLt =>
        if i.arg2.Int? { assert ys == Filter(xs, x => x < i.arg2.value); }
        else { assert ys == Filter(xs, x => false); }
      case FilterEq =>
        if i.arg2.Int? { assert ys == Filter(xs, x => x == i.arg2.value); }
        else { FilterNone(xs); }
      case FilterBetween =>
        match i.arg2 {
          case Bounds(lo, hi) => assert ys == Filter(xs, x => lo <= x <= hi);
          case Ints(vs) => assert ys == Filter(xs, x => vs[0] <= x <= vs[1]);
          case Name(_) => assert ys == Filter(xs, x => false);
        }
      case FilterEven => assert ys == Filter(xs, x => x % 2 == 0);
      case FilterOdd => assert ys == Filter(xs, x => x % 2 != 0);
    }
    FilterIsSubsequence(xs, keep);
    FilterMembers(xs, keep);
  }

  lemma {:induction false} FilterNone(xs: seq<int>)
    ensures Filter(xs, x => false) == []
  {
    if xs != [] {
      FilterNone(xs[1..]);
    }
  }

  /** An aggregate of a list: the sum, the count, and the maximum and minimum,
      which are elements bounding the list (None when it is empty). */
  lemma AggregateValueMeaning(op: Op, xs: seq<int>)
    requires IsAggregationOp(op)
    ensures op.AggCount? ==> AggregateValue(op, xs) == IntValue(|xs|)
    ensures op.AggSum? ==> AggregateValue(op, xs) == IntValue(Sum(xs))
    ensures op.AggMax? || op.AggMin? ==> (AggregateValue(op, xs).NoneValue? <==> xs == [])
    ensures op.AggMax? && xs != [] ==>
      var m := AggregateValue(op, xs).n; m in xs && forall k :: 0 <= k < |xs| ==> xs[k] <= m
    ensures op.AggMin? && xs != [] ==>
      var m := AggregateValue(op, xs).n; m in xs && forall k :: 0 <= k < |xs| ==> m <= xs[k]
  {
  }

  /** When an instruction raises: LIST only on an `arg1` that is not a list;
      ASSIGN, a filter, an aggregation and PRINT on an unbound name; a filter
      and an aggregation also on a bound value that is not a list. For the
      operand shapes the generator emits, these are the only failures. */
  lemma StepFailure(st: State, i: Instr)
    ensures i.op.List? ==> (Step(st, i).Failure? <==> !i.arg1.Ints?)
    ensures i.op.List? && !i.arg1.Ints? ==> Step(st, i) == Failure(ListLiteralExpected)
    ensures (i.op.Assign? || IsQueryOp(i.op) || i.op.Print?) && i.arg1.Name? && Some(i.arg1.id) !in st.env ==>
      Step(st, i) == Failure(UnknownVariable(i.op, i.arg1))
    ensures IsQueryOp(i.op) && i.arg1.Name? && Some(i.arg1.id) in st.env && !st.env[Some(i.arg1.id)].ListValue? ==>
      Step(st, i) == Failure(ListExpected(i.op, st.env[Some(i.arg1.id)]))
    ensures WellShapedInstr(i) ==>
      (Step(st, i).Failure? <==>
        && !i.op.List? && i.arg1.Name?
        && (Some(i.arg1.id) !in st.env || (IsQueryOp(i.op) && !st.env[Some(i.arg1.id)].ListValue?)))
  {
  }

  /** Lines printed before a failure stay printed: a run only ever appends to
      the output, one value per PRINT executed. */
  lemma {:induction false} ExecuteExtendsOutput(st: State, ir: seq<Instr>)
    ensures |st.output| <= |ExecuteFrom(st, ir).state.output|
    ensures ExecuteFrom(st, ir).state.output[..|st.output|] == st.output
    ensures |ExecuteFrom(st, ir).state.output| - |st.output| <= |ir|
    decreases |ir|
  {
    if ir != [] {
      var r := Step(st, ir[0]);
      if r.Success? {
        ExecuteExtendsOutput(r.value, ir[1..]);
        var out := ExecuteFrom(r.value, ir[1..]).state.output;
        assert r.value.output[..|st.output|] == st.output;
        assert out[..|st.output|] == out[..|r.value.output|][..|st.output|];
      }
    }
  }

  /** Running `a + b` runs `a`, then, unless `a` raised, `b` from where `a` stopped. */
  lemma {:induction false} ExecuteAppend(st: State, a: seq<Instr>, b: seq<Instr>)
    ensures ExecuteFrom(st, a + b) ==
      var ra := ExecuteFrom(st, a);
      if ra.error.Some? then ra else ExecuteFrom(ra.state, b)
    decreases |a|
  {
    if a == [] {
      assert a + b == b;
    } else {
      assert (a + b)[0] == a[0] && (a + b)[1..] == a[1..] + b;
      var r := Step(st, a[0]);
      if r.Success? {
        ExecuteAppend(r.value, a[1..], b);
      }
    }
  }

  // ---------------------------------------------------------------------------
  // The interpreter object
  // ---------------------------------------------------------------------------

  /** The new state after one `_exec_*` call: the step's state if it
      succeeds, the old state and its error if it raises. */
  predicate Applied(r: Outcome<RuntimeError>, step: Result<State, RuntimeError>, before: State, after: State)
  {
    match step
    case Success(s) => r.Pass? && after == s
    case Failure(e) => r == Fail(e) && after == before
  }

  class CodeGenerator {
    var env: Env
    /** The values `print` has written so far. */
    var output: seq<Value>

    constructor()
      ensures env == map[] && output == []
    {
      env := map[];
      output := [];
    }

    /** `run(ir)`: clears the environment (not what was printed before), then
        executes the instructions in order until one raises. */
    method Run(ir: seq<Instr>) returns (r: Option<RuntimeError>)
      modifies this
      ensures var run := ExecuteFrom(State(map[], old(output)), ir);
        env == run.state.env && output == run.state.output && r == run.error
    {
      env := map[];
      var i := 0;
      while i < |ir|
        invariant 0 <= i <= |ir|
        invariant ExecuteFrom(State(env, output), ir[i..]) == ExecuteFrom(State(map[], old(output)), ir)
      {
        var instr := ir[i];
        assert ir[i..][0] == instr && ir[i..][1..] == ir[i + 1..];
        var out: Outcome<RuntimeError>;
        var op := instr.op;
        if op.List? {
          out := ExecList(instr);
        } else if op.Assign? {
          out := ExecAssign(instr);
        } else if IsSelectOp(op) || IsParityOp(op) {
          out := ExecFilter(instr);
        } else if IsAggregationOp(op) {
          out := ExecAggregation(instr);
        } else if op.Print? {
          out := ExecPrint(instr);
        } else {
          out := Fail(UnknownOperation(op));
        }
        if out.Fail? {
          return Some(out.error);
        }
        i := i + 1;
      }
      return None;
    }

    method ExecList(i: Instr) returns (r: Outcome<RuntimeError>)
      requires i.op.List?
      modifies this
      ensures Applied(r, Step(State(old(env), old(output)), i), State(old(env), old(output)), State(env, output))
    {
      var values := i.arg1;
      if !values.Ints? {
        return Fail(ListLiteralExpected);
      }
      env := env[i.result := ListValue(values.values)];
      return Pass;
    }

    method ExecAssign(i: Instr) returns (r: Outcome<RuntimeError>)
      requires i.op.Assign?
      modifies this
      ensures Applied(r, Step(State(old(env), old(output)), i), State(old(env), old(output)), State(env, output))
    {
      var src := Lookup(env, i.op, i.arg1);
      if src.Failure? {
        return Fail(src.error);
      }
      env := env[i.result := src.value];
      return Pass;
    }

    method ExecFilter(i: Instr) returns (r: Outcome<RuntimeError>)
      requires IsSelectOp(i.op) || IsParityOp(i.op)
      modifies this
      ensures Applied(r, Step(State(old(env), old(output)), i), State(old(env), old(output)), State(env, output))
    {
      var src := Lookup(env, i.op, i.arg1);
      if src.Failure? {
        return Fail(src.error);
      }
      if !src.value.ListValue? {
        return Fail(ListExpected(i.op, src.value));
      }
      var result := FilterValues(i, src.value.items);
      if result.Failure? {
        return Fail(result.error);
      }
      env := env[i.result := ListValue(result.value)];
      return Pass;
    }

    method ExecAggregation(i: Instr) returns (r: Outcome<RuntimeError>)
      requires IsAggregationOp(i.op)
      modifies this
      ensures Applied(r, Step(State(old(env), old(output)), i), State(old(env), old(output)), State(env, output))
    {
      var src := Lookup(env, i.op, i.arg1);
      if src.Failure? {
        return Fail(src.error);
      }
      if !src.value.ListValue? {
        return Fail(ListExpected(i.op, src.value));
      }
      var xs := src.value.items;
      var value;
      if i.op.AggSum? {
        value := IntValue(Sum(xs));
      } else if i.op.AggMax? {
        value := if xs != [] then IntValue(Max(xs)) else NoneValue;
      } else if i.op.AggMin? {
        value := if xs != [] then IntValue(Min(xs)) else NoneValue;
      } else {
        value := IntValue(|xs|);
      }
      env := env[i.result := value];
      return Pass;
    }

    method ExecPrint(i: Instr) returns (r: Outcome<RuntimeError>)
      requires i.op.Print?
      modifies this
      ensures Applied(r, Step(State(old(env), old(output)), i), State(old(env), old(output)), State(env, output))
    {
      var value := Lookup(env, i.op, i.arg1);
      if value.Failure? {
        return Fail(value.error);
      }
      output := output + [value.value];
      return Pass;
    }
  }
}
