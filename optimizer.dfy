/** The three passes of src/optimizer.py, run in a fixed order over an
    instruction list: constant folding of filters over literal lists, one-hop
    copy propagation keyed on the `_t` prefix, and one pass of dead-code
    elimination.

    Each pass is a method with the loops of the source, proved to return the
    list a specification function describes; the lemmas state what those
    lists are in terms of the input. */
module Optimizer {
  import opened Wrappers
  import opened Lists
  import opened IRGen

  // ---------------------------------------------------------------------------
  // Constant folding
  // ---------------------------------------------------------------------------

  /** The ops whose name starts with `FILTER`. */
  predicate IsFilterOp(op: Op) { IsSelectOp(op) || IsParityOp(op) }

  /** The condition of the comprehension folding uses for filter instruction `i`. */
  predicate FoldKeeps(i: Instr, x: int)
  {
    match i.op
    case FilterGt => i.arg2.Int? && x > i.arg2.value
    case FilterLt => i.arg2.Int? && x < i.arg2.value
    case FilterEq => i.arg2.Int? && x == i.arg2.value
    case FilterBetween => i.arg2.Bounds? && i.arg2.lo <= x <= i.arg2.hi
    case FilterEven => x % 2 == 0
    case FilterOdd => x % 2 != 0
    case _ => false
  }

  /** `folded`: the elements of `xs` the filter keeps, in order. */
  function FoldFilter(i: Instr, xs: seq<int>): seq<int>
  {
    Filter(xs, x => FoldKeeps(i, x))
  }

  /** The list each name is bound to by the LIST instructions of `code`, the
      last such instruction for a name winning. */
  function ListBindings(code: seq<Instr>): map<string, seq<int>>
  {
    if code == [] then map[]
    else
      var m := ListBindings(code[..|code| - 1]);
      var last := code[|code| - 1];
      if last.op.List? && last.result.Some? && last.arg1.Ints? then m[last.result.value := last.arg1.values] else m
  }

  predicate IsListDefinition(i: Instr, name: string)
  {
    i.op.List? && i.result == Some(name) && i.arg1.Ints?
  }

  /** One instruction of the folding loop, with the known lists `known`. */
  function FoldInstr(known: map<string, seq<int>>, i: Instr): Instr
  {
    if IsFilterOp(i.op) && i.arg1.Name? && i.arg1.id in known then
      Instr(List, Ints(FoldFilter(i, known[i.arg1.id])), NoOperand, i.result)
    else i
  }

  /** `constant_folding(ir)`: the lists folding knows at each instruction are
      the bindings made by the LIST instructions it has emitted so far. */
  function Folded(ir: seq<Instr>): (r: seq<Instr>)
    requires WellShaped(ir)
    ensures |r| == |ir| && WellShaped(r)
    ensures forall k :: 0 <= k < |ir| ==> r[k].result == ir[k].result
  {
    if ir == [] then []
    else
      var init := Folded(ir[..|ir| - 1]);
      init + [FoldInstr(ListBindings(init), ir[|ir| - 1])]
  }

  lemma WellShapedPrefix(ir: seq<Instr>, n: nat)
    requires WellShaped(ir) && n <= |ir|
    ensures WellShaped(ir[..n])
  {
    forall k | 0 <= k < n ensures WellShapedInstr(ir[..n][k]) {
      assert ir[..n][k] == ir[k];
    }
  }

  /** Folding one more instruction. */
  lemma FoldedStep(ir: seq<Instr>, n: nat)
    requires WellShaped(ir) && n < |ir|
    ensures WellShaped(ir[..n]) && WellShaped(ir[..n + 1])
    ensures Folded(ir[..n + 1]) == Folded(ir[..n]) + [FoldInstr(ListBindings(Folded(ir[..n])), ir[n])]
  {
    WellShapedPrefix(ir, n);
    WellShapedPrefix(ir, n + 1);
    assert ir[..n + 1][..n] == ir[..n];
  }

  lemma ListBindingsStep(code: seq<Instr>, i: Instr)
    ensures ListBindings(code + [i]) ==
      if i.op.List? && i.result.Some? && i.arg1.Ints? then ListBindings(code)[i.result.value := i.arg1.values]
      else ListBindings(code)
  {
    assert (code + [i])[..|code|] == code;
  }

  method ConstantFolding(ir: seq<Instr>) returns (newIr: seq<Instr>)
    requires WellShaped(ir)
    ensures newIr == Folded(ir)
  {
    var known: map<string, seq<int>> := map[];
    newIr := [];
    var i := 0;
    WellShapedPrefix(ir, 0);
    while i < |ir|
      invariant 0 <= i <= |ir| && WellShaped(ir[..i])
      invariant newIr == Folded(ir[..i])
      invariant known == ListBindings(newIr)
    {
      var instr := ir[i];
      FoldedStep(ir, i);
      ghost var next := FoldInstr(known, instr);
      assert WellShapedInstr(instr);
      if instr.op.List? {
        assert next == instr;
        ListBindingsStep(newIr, instr);
        known := known[instr.result.value := instr.arg1.values];
        newIr := newIr + [instr];
        i := i + 1;
        continue;
      }
      if IsFilterOp(instr.op) && instr.arg1.id in known {
        var folded := FoldFilter(instr, known[instr.arg1.id]);
        assert next == Instr(List, Ints(folded), NoOperand, instr.result);
        var listInstr := Instr(List, Ints(folded), NoOperand, instr.result);
        ListBindingsStep(newIr, listInstr);
        known := known[instr.result.value := folded];
        newIr := newIr + [listInstr];
        i := i + 1;
        continue;
      }
      assert next == instr;
      ListBindingsStep(newIr, instr);
      newIr := newIr + [instr];
      i := i + 1;
    }
    assert ir[..i] == ir;
  }

  lemma {:induction false} FoldedPrefix(ir: seq<Instr>, n: nat)
    requires WellShaped(ir) && n <= |ir|
    ensures WellShaped(ir[..n]) && Folded(ir[..n]) == Folded(ir)[..n]
    decreases |ir| - n
  {
    WellShapedPrefix(ir, n);
    if n == |ir| {
      assert ir[..n] == ir;
    } else {
      FoldedPrefix(ir, n + 1);
      FoldedStep(ir, n);
      assert Folded(ir)[..n] == Folded(ir)[..n + 1][..n];
    }
  }

  /** Folding changes an instruction only when it is a filter whose source is
      bound by a LIST folding has already emitted; it then becomes a LIST of the
      filter's result over that list, to the same result name. Every other
      instruction, aggregations, ASSIGN and PRINT among them, passes unchanged. */
  lemma FoldedAt(ir: seq<Instr>, k: nat)
    requires WellShaped(ir) && k < |ir|
    ensures var known := ListBindings(Folded(ir)[..k]);
      if IsFilterOp(ir[k].op) && ir[k].arg1.Name? && ir[k].arg1.id in known then
        Folded(ir)[k] == Instr(List, Ints(FoldFilter(ir[k], known[ir[k].arg1.id])), NoOperand, ir[k].result)
      else Folded(ir)[k] == ir[k]
  {
    FoldedIsFoldInstr(ir, k);
  }

  lemma FoldedIsFoldInstr(ir: seq<Instr>, k: nat)
    requires WellShaped(ir) && k < |ir|
    ensures Folded(ir)[k] == FoldInstr(ListBindings(Folded(ir)[..k]), ir[k])
  {
    FoldedPrefix(ir, k + 1);
    FoldedPrefix(ir, k);
    FoldedStep(ir, k);
    assert Folded(ir)[k] == Folded(ir[..k + 1])[k];
  }

  /** What folding knows about a name is the value of the last LIST to that
      name among the instructions emitted, and it knows every such name. */
  lemma {:induction false} ListBindingsAreLastListDefinitions(code: seq<Instr>, name: string)
    ensures name in ListBindings(code) <==> exists j :: 0 <= j < |code| && IsListDefinition(code[j], name)
    ensures name in ListBindings(code) ==>
      exists j :: 0 <= j < |code| && IsListDefinition(code[j], name)
        && ListBindings(code)[name] == code[j].arg1.values
        && forall j' :: j < j' < |code| ==> !IsListDefinition(code[j'], name)
  {
    if code != [] {
      var init := code[..|code| - 1];
      ListBindingsAreLastListDefinitions(init, name);
      assert forall j :: 0 <= j < |init| ==> init[j] == code[j];
      if IsListDefinition(code[|code| - 1], name) {
        assert ListBindings(code)[name] == code[|code| - 1].arg1.values;
      } else if name in ListBindings(code) {
        var j :| 0 <= j < |init| && IsListDefinition(init[j], name)
          && ListBindings(init)[name] == init[j].arg1.values
          && forall j' :: j < j' < |init| ==> !IsListDefinition(init[j'], name);
        LastListDefinitionBeforeLast(code, name, j);
      }
    }
  }

  /** When the last instruction does not define `name`, the last definition
      of `name` before it is still the last one. */
  lemma LastListDefinitionBeforeLast(code: seq<Instr>, name: string, j: nat)
    requires j < |code| - 1 && !IsListDefinition(code[|code| - 1], name)
    requires IsListDefinition(code[j], name) && name in ListBindings(code[..|code| - 1])
    requires ListBindings(code[..|code| - 1])[name] == code[j].arg1.values
    requires forall j' :: j < j' < |code| - 1 ==> !IsListDefinition(code[j'], name)
    ensures name in ListBindings(code) && ListBindings(code)[name] == code[j].arg1.values
    ensures forall j' :: j < j' < |code| ==> !IsListDefinition(code[j'], name)
  {
  }

  /** The names folding knows are results of earlier LIST or filter
      instructions of the input: an ASSIGN target or an aggregation result
      never becomes known. */
  lemma KnownNamesAreListOrFilterResults(ir: seq<Instr>, k: nat, name: string)
    requires WellShaped(ir) && k <= |ir|
    requires name in ListBindings(Folded(ir)[..k])
    ensures exists j :: 0 <= j < k && (ir[j].op.List? || IsFilterOp(ir[j].op)) && ir[j].result == Some(name)
  {
    var out := Folded(ir)[..k];
    ListBindingsAreLastListDefinitions(out, name);
    var j :| 0 <= j < |out| && IsListDefinition(out[j], name);
    FoldedAt(ir, j);
    assert out[j] == Folded(ir)[j];
  }

  /** A folded list is a sub-list of the list it was folded from, in the same
      order, holding exactly its elements that pass the filter. */
  lemma FoldFilterSublist(i: Instr, xs: seq<int>)
    ensures IsSubsequence(FoldFilter(i, xs), xs)
    ensures forall x :: x in FoldFilter(i, xs) <==> x in xs && FoldKeeps(i, x)
  {
    FilterIsSubsequence(xs, x => FoldKeeps(i, x));
    FilterMembers(xs, x => FoldKeeps(i, x));
  }

  // ---------------------------------------------------------------------------
  // Copy propagation
  // ---------------------------------------------------------------------------

  /** `isinstance(s, str) and s.startswith("_t")` */
  predicate IsTempName(s: string) { |s| >= 2 && s[..2] == "_t" }

  /** `ASSIGN _tK -> x`: a copy propagation records. */
  predicate IsTempCopy(i: Instr)
  {
    i.op.Assign? && i.arg1.Name? && IsTempName(i.arg1.id)
  }

  /** `propagation_map` after the first loop: every target of a copy from a
      temporary, mapped to the source of its last such copy. */
  function PropagationMap(ir: seq<Instr>): map<Option<string>, string>
  {
    if ir == [] then map[]
    else
      var m := PropagationMap(ir[..|ir| - 1]);
      var last := ir[|ir| - 1];
      if IsTempCopy(last) then m[last.result := last.arg1.id] else m
  }

  /** `propagation_map.get(arg, arg)` for a string operand; other operands are kept. */
  function RewriteOperand(m: map<Option<string>, string>, o: Operand): Operand
  {
    if o.Name? && Some(o.id) in m then Name(m[Some(o.id)]) else o
  }

  function RewriteInstr(m: map<Option<string>, string>, i: Instr): Instr
  {
    Instr(i.op, RewriteOperand(m, i.arg1), RewriteOperand(m, i.arg2), i.result)
  }

  /** `copy_propagation(ir)` */
  function Propagated(ir: seq<Instr>): seq<Instr>
  {
    var m := PropagationMap(ir);
    seq(|ir|, k requires 0 <= k < |ir| => RewriteInstr(m, ir[k]))
  }

  method CopyPropagation(ir: seq<Instr>) returns (newIr: seq<Instr>)
    ensures newIr == Propagated(ir)
  {
    var propagationMap: map<Option<string>, string> := map[];
    var i := 0;
    while i < |ir|
      invariant 0 <= i <= |ir|
      invariant propagationMap == PropagationMap(ir[..i])
    {
      assert ir[..i + 1][..i] == ir[..i];
      var instr := ir[i];
      if instr.op.Assign? && instr.arg1.Name? && |instr.arg1.id| >= 2 && instr.arg1.id[..2] == "_t" {
        propagationMap := propagationMap[instr.result := instr.arg1.id];
      }
      i := i + 1;
    }
    assert ir[..i] == ir;

    newIr := [];
    i := 0;
    while i < |ir|
      invariant 0 <= i <= |ir| && |newIr| == i
      invariant forall k :: 0 <= k < i ==> newIr[k] == RewriteInstr(propagationMap, ir[k])
    {
      var instr := ir[i];
      var arg1 := instr.arg1;
      var arg2 := instr.arg2;
      if arg1.Name? && Some(arg1.id) in propagationMap {
        arg1 := Name(propagationMap[Some(arg1.id)]);
      }
      if arg2.Name? && Some(arg2.id) in propagationMap {
        arg2 := Name(propagationMap[Some(arg2.id)]);
      }
      newIr := newIr + [Instr(instr.op, arg1, arg2, instr.result)];
      i := i + 1;
    }
  }

  /** The map holds exactly the targets of copies from temporaries, each mapped
      to the source of the LAST such copy: a later ASSIGN to the same target
      overwrites an earlier one. */
  lemma {:induction false} PropagationMapIsLastCopy(ir: seq<Instr>, target: Option<string>)
    ensures target in PropagationMap(ir) <==> exists j :: 0 <= j < |ir| && IsTempCopy(ir[j]) && ir[j].result == target
    ensures target in PropagationMap(ir) ==>
      exists j :: 0 <= j < |ir| && IsTempCopy(ir[j]) && ir[j].result == target
        && PropagationMap(ir)[target] == ir[j].arg1.id
        && forall j' :: j < j' < |ir| ==> !(IsTempCopy(ir[j']) && ir[j'].result == target)
  {
    if ir != [] {
      var init := ir[..|ir| - 1];
      PropagationMapIsLastCopy(init, target);
      assert forall j :: 0 <= j < |init| ==> init[j] == ir[j];
      var last := ir[|ir| - 1];
      if IsTempCopy(last) && last.result == target {
        assert PropagationMap(ir)[target] == last.arg1.id;
      } else if target in PropagationMap(ir) {
        var j :| 0 <= j < |init| && IsTempCopy(init[j]) && init[j].result == target
          && PropagationMap(init)[target] == init[j].arg1.id
          && forall j' :: j < j' < |init| ==> !(IsTempCopy(init[j']) && init[j'].result == target);
        assert IsTempCopy(ir[j]);
      }
    }
  }

  /** Propagation keeps the length, every op and every result, changes no
      operand that is not a name, and replaces a name only by the temporary of
      the last copy to it, looked up once. */
  lemma PropagatedChangesOnlyNames(ir: seq<Instr>, k: nat)
    requires k < |ir|
    ensures |Propagated(ir)| == |ir|
    ensures Propagated(ir)[k].op == ir[k].op && Propagated(ir)[k].result == ir[k].result
    ensures Propagated(ir)[k].arg1 != ir[k].arg1 ==>
      ir[k].arg1.Name? && Propagated(ir)[k].arg1.Name? && IsTempName(Propagated(ir)[k].arg1.id)
      && exists j :: 0 <= j < |ir| && IsTempCopy(ir[j]) && ir[j].result == Some(ir[k].arg1.id) && ir[j].arg1 == Propagated(ir)[k].arg1
    ensures Propagated(ir)[k].arg2 != ir[k].arg2 ==>
      ir[k].arg2.Name? && Propagated(ir)[k].arg2.Name? && IsTempName(Propagated(ir)[k].arg2.id)
      && exists j :: 0 <= j < |ir| && IsTempCopy(ir[j]) && ir[j].result == Some(ir[k].arg2.id) && ir[j].arg1 == Propagated(ir)[k].arg2
  {
    if ir[k].arg1.Name? {
      PropagationMapIsLastCopy(ir, Some(ir[k].arg1.id));
    }
    if ir[k].arg2.Name? {
      PropagationMapIsLastCopy(ir, Some(ir[k].arg2.id));
    }
  }

  // ---------------------------------------------------------------------------
  // Dead-code elimination
  // ---------------------------------------------------------------------------

  function OperandNames(o: Operand): set<string>
  {
    if o.Name? then {o.id} else {}
  }

  /** `used`: every string operand of the list. */
  function UsedNames(ir: seq<Instr>): set<string>
  {
    if ir == [] then {}
    else UsedNames(ir[..|ir| - 1]) + OperandNames(ir[|ir| - 1].arg1) + OperandNames(ir[|ir| - 1].arg2)
  }

  /** An instruction survives when it has no result or its result is read. */
  predicate Live(used: set<string>, i: Instr)
  {
    i.result.None? || i.result.value in used
  }

  function Keep(used: set<string>): Instr -> bool
  {
    i => Live(used, i)
  }

  /** `dead_code_elimination(ir)` */
  function DeadCodeEliminated(ir: seq<Instr>): seq<Instr>
  {
    Filter(ir, Keep(UsedNames(ir)))
  }

  method DeadCodeElimination(ir: seq<Instr>) returns (newIr: seq<Instr>)
    ensures newIr == DeadCodeEliminated(ir)
  {
    var used: set<string> := {};
    var i := 0;
    while i < |ir|
      invariant 0 <= i <= |ir|
      invariant used == UsedNames(ir[..i])
    {
      assert ir[..i + 1][..i] == ir[..i];
      if ir[i].arg1.Name? {
        used := used + {ir[i].arg1.id};
      }
      if ir[i].arg2.Name? {
        used := used + {ir[i].arg2.id};
      }
      i := i + 1;
    }
    assert ir[..i] == ir;

    newIr := [];
    i := 0;
    while i < |ir|
      invariant 0 <= i <= |ir|
      invariant newIr == Filter(ir[..i], Keep(used))
    {
      assert ir[..i + 1] == ir[..i] + [ir[i]];
      FilterAppend(ir[..i], [ir[i]], Keep(used));
      assert Filter([ir[i]], Keep(used)) == (if Live(used, ir[i]) then [ir[i]] else []) + Filter([], Keep(used));
      if ir[i].result.Some? && ir[i].result.value !in used {
        i := i + 1;
        continue;
      }
      newIr := newIr + [ir[i]];
      i := i + 1;
    }
    assert ir[..i] == ir;
  }

  /** The used set holds exactly the names that occur as an operand somewhere
      in the list, before or after the instruction that defines them. */
  lemma {:induction false} UsedNamesAreOperands(ir: seq<Instr>, name: string)
    ensures name in UsedNames(ir) <==> exists k :: 0 <= k < |ir| && (ir[k].arg1 == Name(name) || ir[k].arg2 == Name(name))
  {
    if ir != [] {
      var init := ir[..|ir| - 1];
      UsedNamesAreOperands(init, name);
      assert forall k :: 0 <= k < |init| ==> init[k] == ir[k];
      if name in UsedNames(ir) && name !in UsedNames(init) {
        assert ir[|ir| - 1].arg1 == Name(name) || ir[|ir| - 1].arg2 == Name(name);
      }
    }
  }

  /** The survivors are the instructions whose result is None or read somewhere,
      each as often as it occurs and in their original order. */
  lemma DeadCodeEliminatedKeepsLive(ir: seq<Instr>)
    ensures IsSubsequence(DeadCodeEliminated(ir), ir)
    ensures forall i :: i in DeadCodeEliminated(ir) <==> i in ir && Live(UsedNames(ir), i)
    ensures forall i :: multiset(DeadCodeEliminated(ir))[i] == if Live(UsedNames(ir), i) then multiset(ir)[i] else 0
  {
    FilterIsSubsequence(ir, Keep(UsedNames(ir)));
    FilterMembers(ir, Keep(UsedNames(ir)));
    forall i
      ensures multiset(DeadCodeEliminated(ir))[i] == if Live(UsedNames(ir), i) then multiset(ir)[i] else 0
    {
      FilterMultiplicity(ir, Keep(UsedNames(ir)), i);
    }
  }

  predicate HasNoResult(i: Instr) { i.result.None? }

  function NoResult(): Instr -> bool { i => HasNoResult(i) }

  /** No instruction without a result is ever removed (every PRINT the
      generator emits among them), and they keep their order. */
  lemma DeadCodeEliminationKeepsResultless(ir: seq<Instr>)
    ensures Filter(DeadCodeEliminated(ir), NoResult()) == Filter(ir, NoResult())
  {
    FilterOfFilter(ir, Keep(UsedNames(ir)), NoResult());
  }

  /** One pass is not a fixpoint: the used names are collected once from the
      input, so `LIST -> nums` survives although its only reader, a bare
      aggregation, is removed; a second pass would remove it too. */
  lemma DeadCodeEliminationNotFixpoint()
    ensures var decl := Instr(List, Ints([1, 2]), NoOperand, Some("nums"));
      var agg := Instr(AggSum, Name("nums"), NoOperand, Some("_t1"));
      DeadCodeEliminated([decl, agg]) == [decl] && DeadCodeEliminated([decl]) == []
  {
    var decl := Instr(List, Ints([1, 2]), NoOperand, Some("nums"));
    var agg := Instr(AggSum, Name("nums"), NoOperand, Some("_t1"));
    assert [decl, agg][..1] == [decl] && [decl][..0] == [];
    assert UsedNames([decl]) == UsedNames([]) + OperandNames(decl.arg1) + OperandNames(decl.arg2) == {};
    assert UsedNames([decl, agg]) == UsedNames([decl]) + OperandNames(agg.arg1) + OperandNames(agg.arg2) == {"nums"};
    assert [decl, agg][1..][1..] == [] && [decl][1..] == [];
  }

  // ---------------------------------------------------------------------------
  // The pipeline of passes
  // ---------------------------------------------------------------------------

  /** `optimize(ir)`: folding, then propagation, then dead-code elimination. */
  function Optimized(ir: seq<Instr>): seq<Instr>
    requires WellShaped(ir)
  {
    DeadCodeEliminated(Propagated(Folded(ir)))
  }

  method Optimize(ir: seq<Instr>) returns (r: seq<Instr>)
    requires WellShaped(ir)
    ensures r == Optimized(ir)
  {
    r := ConstantFolding(ir);
    r := CopyPropagation(r);
    r := DeadCodeElimination(r);
  }

  /** The optimizer never shortens the list below its instructions without a
      result: as many survive as the input has, in order, and every survivor
      comes from the propagated, folded list. */
  lemma OptimizedKeepsResultless(ir: seq<Instr>)
    requires WellShaped(ir)
    ensures |Filter(Optimized(ir), NoResult())| == |Filter(ir, NoResult())|
    ensures IsSubsequence(Optimized(ir), Propagated(Folded(ir)))
    ensures |Optimized(ir)| <= |ir|
  {
    var f := Folded(ir);
    var p := Propagated(f);
    DeadCodeEliminationKeepsResultless(p);
    DeadCodeEliminatedKeepsLive(p);
    FilterIsSubsequence(p, Keep(UsedNames(p)));
    assert forall k :: 0 <= k < |p| ==> HasNoResult(p[k]) == HasNoResult(ir[k]);
    FilterLengthAgrees(p, NoResult(), ir, NoResult());
  }
}
