/** The validator of src/semantic.py: class SemanticAnalyzer walks the
    statements with one global symbol table. It enforces declare-before-use, no
    redeclaration of data, list-typed sources for queries and aggregations, and
    the same type on reassignment.

    The read-only checks (`_require_*`, `_infer_*`, `_check_print`) are
    functions of the table; checking one statement is `CheckStatement`, a whole
    program `AnalyzeFrom`, and the mutating methods of the class are proved to
    update the table exactly so. */
module Semantics {
  import opened Wrappers
  import opened Parsing

  /** `"list<int>"` or `"int"`. */
  datatype Type = ListOfInt | IntType

  /** A symbol table entry; the element type and size are None where the
      source leaves them out. */
  datatype Symbol = Symbol(name: string, ty: Type, elementType: Option<string>, size: Option<nat>)

  type SymbolTable = map<string, Symbol>

  datatype SemanticError =
    | Undeclared(name: string)                  // `_require_symbol`
    | NotAList(name: string, found: Type)       // `_require_list_symbol`
    | UnknownConditionOperator(op: string)
    | MissingBound(op: string)                  // `cond[1]` or `cond[2]` out of range: an IndexError
    | InvalidFilterMode(mode: string)
    | UnknownAggregation(func: string)
    | InvalidExpression(node: Node)
    | Redeclaration(name: string)
    | AssignmentTypeMismatch(target: string, existing: Type, inferred: Type)
    | UndeclaredInPrint(name: string)

  // ---------------------------------------------------------------------------
  // Read-only checks
  // ---------------------------------------------------------------------------

  function RequireSymbol(symbols: SymbolTable, name: string): (r: Result<Symbol, SemanticError>)
    ensures r.Success? <==> name in symbols
    ensures r.Success? ==> r.value == symbols[name]
  {
    if name !in symbols then Failure(Undeclared(name)) else Success(symbols[name])
  }

  function RequireListSymbol(symbols: SymbolTable, name: string): (r: Result<Symbol, SemanticError>)
    ensures r.Success? <==> name in symbols && symbols[name].ty == ListOfInt
    ensures r.Success? ==> r.value == symbols[name]
  {
    var sym :- RequireSymbol(symbols, name);
    if sym.ty != ListOfInt then Failure(NotAList(name, sym.ty)) else Success(sym)
  }

  /** `_infer_select`: the source must be a declared list, the operator one of
      the four, with as many bounds as it needs. */
  function InferSelect(symbols: SymbolTable, c: Condition, source: string): (r: Result<Type, SemanticError>)
    ensures r.Success? <==>
      && source in symbols && symbols[source].ty == ListOfInt
      && ((c.op in {">", "<", "="} && |c.bounds| >= 1) || (c.op == "between" && |c.bounds| >= 2))
    ensures r.Success? ==> r.value == ListOfInt
  {
    var _ :- RequireListSymbol(symbols, source);
    if c.op in {">", "<", "="} then
      if |c.bounds| < 1 then Failure(MissingBound(c.op)) else Success(ListOfInt)
    else if c.op == "between" then
      if |c.bounds| < 2 then Failure(MissingBound(c.op)) else Success(ListOfInt)
    else Failure(UnknownConditionOperator(c.op))
  }

  function InferFilter(symbols: SymbolTable, mode: string, source: string): (r: Result<Type, SemanticError>)
    ensures r.Success? <==> source in symbols && symbols[source].ty == ListOfInt && mode in {"even", "odd"}
    ensures r.Success? ==> r.value == ListOfInt
  {
    var _ :- RequireListSymbol(symbols, source);
    if mode !in {"even", "odd"} then Failure(InvalidFilterMode(mode)) else Success(ListOfInt)
  }

  function InferAggregation(symbols: SymbolTable, func: string, source: string): (r: Result<Type, SemanticError>)
    ensures r.Success? <==> source in symbols && symbols[source].ty == ListOfInt && func in {"sum", "max", "min", "count"}
    ensures r.Success? ==> r.value == IntType
  {
    var _ :- RequireListSymbol(symbols, source);
    if func !in {"sum", "max", "min", "count"} then Failure(UnknownAggregation(func)) else Success(IntType)
  }

  /** `_infer_expr`: the type of a query (a list) or an aggregation (an int). */
  function InferExpr(symbols: SymbolTable, e: Node): (r: Result<Type, SemanticError>)
    ensures r.Success? ==>
              (e.SelectQueryNode? || e.FilterQueryNode? || e.AggregationNode?)
              && e.source in symbols && symbols[e.source].ty == ListOfInt
    ensures r.Success? ==> (r.value == ListOfInt <==> !e.AggregationNode?)
  {
    match e
    case SelectQueryNode(c, source) => InferSelect(symbols, c, source)
    case FilterQueryNode(mode, source) => InferFilter(symbols, mode, source)
    case AggregationNode(func, source) => InferAggregation(symbols, func, source)
    case _ => Failure(InvalidExpression(e))
  }

  function CheckPrint(symbols: SymbolTable, target: string): (r: Outcome<SemanticError>)
    ensures r.Pass? <==> target in symbols
  {
    if target !in symbols then Fail(UndeclaredInPrint(target)) else Pass
  }

  // ---------------------------------------------------------------------------
  // Statements and programs, as functions of the table
  // ---------------------------------------------------------------------------

  /** The symbol `_check_data_decl` adds. */
  function DataSymbol(name: string, values: seq<int>): Symbol
  {
    Symbol(name, ListOfInt, Some("int"), Some(|values|))
  }

  /** The symbol `_check_assignment` adds for a new name of type `ty`. */
  function AssignedSymbol(target: string, ty: Type): Symbol
  {
    if ty == ListOfInt then Symbol(target, ListOfInt, Some("int"), None) else Symbol(target, IntType, None, None)
  }

  /** `_check_statement`: the table after the statement. An accepted statement
      only reads declared names and only adds the name it declares; a
      redeclared data name or an assignment that changes a name's type is
      refused. */
  function CheckStatement(symbols: SymbolTable, s: Node): (r: Result<SymbolTable, SemanticError>)
    ensures r.Success? ==> Used(s) <= symbols.Keys
    ensures r.Success? ==> Extends(symbols, r.value) && r.value.Keys == symbols.Keys + Defined(s)
    ensures s.DataDeclarationNode? ==> (r.Success? <==> s.name !in symbols)
    ensures s.AssignmentNode? && s.target in symbols && InferExpr(symbols, s.expr).Success? ==>
              (r.Success? <==> symbols[s.target].ty == InferExpr(symbols, s.expr).value)
    ensures r.Success? && s.AssignmentNode? ==>
              InferExpr(symbols, s.expr).Success? && r.value[s.target].ty == InferExpr(symbols, s.expr).value
    ensures r.Success? && s.DataDeclarationNode? ==>
              r.value[s.name] == Symbol(s.name, ListOfInt, Some("int"), Some(|s.values|))
    ensures r.Success? && s.AssignmentNode? && s.target !in symbols ==>
              var ty := InferExpr(symbols, s.expr).value;
              r.value[s.target] == Symbol(s.target, ty, if ty == ListOfInt then Some("int") else None, None)
    ensures r.Success? && s.AssignmentNode? && s.target in symbols ==> r.value == symbols
    ensures s.PrintNode? ==> (r.Success? <==> s.target in symbols)
    ensures s.AssignmentNode? && s.target !in symbols ==> (r.Success? <==> InferExpr(symbols, s.expr).Success?)
    ensures !s.DataDeclarationNode? && !s.AssignmentNode? && !s.PrintNode? ==>
              (r.Success? <==> InferExpr(symbols, s).Success?)
  {
    match s
    case DataDeclarationNode(name, values) =>
      if name in symbols then Failure(Redeclaration(name))
      else Success(symbols[name := DataSymbol(name, values)])
    case AssignmentNode(target, e) =>
      var ty :- InferExpr(symbols, e);
      if target in symbols then
        if symbols[target].ty != ty then Failure(AssignmentTypeMismatch(target, symbols[target].ty, ty))
        else Success(symbols)
      else Success(symbols[target := AssignedSymbol(target, ty)])
    case PrintNode(target) =>
      (match CheckPrint(symbols, target)
       case Pass => Success(symbols)
       case Fail(e) => Failure(e))
    case _ =>
      var _ :- InferExpr(symbols, s);
      Success(symbols)
  }

  /** `analyze` from table `symbols`: the statements in order until one is refused. */
  function AnalyzeFrom(symbols: SymbolTable, ss: seq<Node>): Result<SymbolTable, SemanticError>
    decreases |ss|
  {
    if ss == [] then Success(symbols)
    else
      var next :- CheckStatement(symbols, ss[0]);
      AnalyzeFrom(next, ss[1..])
  }

  /** The table `analyze` leaves behind: every statement up to the first refused
      one has been checked into it. It only grows, and on an accepted program it
      is the table `AnalyzeFrom` returns. */
  function AnalyzedTable(symbols: SymbolTable, ss: seq<Node>): (t: SymbolTable)
    ensures Extends(symbols, t)
    ensures AnalyzeFrom(symbols, ss).Success? ==> t == AnalyzeFrom(symbols, ss).value
    decreases |ss|
  {
    if ss == [] then symbols
    else
      match CheckStatement(symbols, ss[0])
      case Failure(_) => symbols
      case Success(next) => AnalyzedTable(next, ss[1..])
  }

  // ---------------------------------------------------------------------------
  // Properties
  // ---------------------------------------------------------------------------

  /** The table grows: no entry is removed or changed. */
  predicate Extends(before: SymbolTable, after: SymbolTable)
  {
    forall n :: n in before ==> n in after && after[n] == before[n]
  }

  lemma {:induction false} AnalyzeExtends(symbols: SymbolTable, ss: seq<Node>)
    requires AnalyzeFrom(symbols, ss).Success?
    ensures Extends(symbols, AnalyzeFrom(symbols, ss).value)
    decreases |ss|
  {
    if ss != [] {
      var next := CheckStatement(symbols, ss[0]).value;
      AnalyzeExtends(next, ss[1..]);
    }
  }

  /** The names a statement reads. */
  function Used(s: Node): set<string>
  {
    match s
    case SelectQueryNode(_, source) => {source}
    case FilterQueryNode(_, source) => {source}
    case AggregationNode(_, source) => {source}
    case AssignmentNode(_, e) => if e.SelectQueryNode? || e.FilterQueryNode? || e.AggregationNode? then {e.source} else {}
    case PrintNode(target) => {target}
    case DataDeclarationNode(_, _) => {}
  }

  /** The names a statement declares. */
  function Defined(s: Node): set<string>
  {
    match s
    case DataDeclarationNode(name, _) => {name}
    case AssignmentNode(target, _) => {target}
    case _ => {}
  }

  /** The names the statements before position `k` declare. */
  function DefinedBefore(ss: seq<Node>, k: nat): set<string>
    requires k <= |ss|
  {
    if k == 0 then {} else DefinedBefore(ss, k - 1) + Defined(ss[k - 1])
  }

  /** Declare before use: in an accepted program every name a statement reads
      is in the initial table or declared by an earlier statement. */
  lemma {:induction false} AcceptedDeclaresBeforeUse(symbols: SymbolTable, ss: seq<Node>)
    requires AnalyzeFrom(symbols, ss).Success?
    ensures forall k :: 0 <= k < |ss| ==> Used(ss[k]) <= symbols.Keys + DefinedBefore(ss, k)
    decreases |ss|
  {
    if ss != [] {
      var next := CheckStatement(symbols, ss[0]).value;
      AcceptedDeclaresBeforeUse(next, ss[1..]);
      forall k | 0 <= k < |ss|
        ensures Used(ss[k]) <= symbols.Keys + DefinedBefore(ss, k)
      {
        if k > 0 {
          DefinedBeforeTail(ss, k);
          assert ss[1..][k - 1] == ss[k];
        }
      }
    }
  }

  lemma {:induction false} DefinedBeforeTail(ss: seq<Node>, k: nat)
    requires 0 < k <= |ss|
    ensures DefinedBefore(ss, k) == Defined(ss[0]) + DefinedBefore(ss[1..], k - 1)
  {
    if k > 1 {
      DefinedBeforeTail(ss, k - 1);
      assert ss[1..][k - 2] == ss[k - 1];
    }
  }

  // ---------------------------------------------------------------------------
  // The analyzer object
  // ---------------------------------------------------------------------------

  class SemanticAnalyzer {
    var symbols: SymbolTable

    constructor()
      ensures symbols == map[]
    {
      symbols := map[];
    }

    /** `analyze(program)`: checks the statements against the table it already
        holds (it is not reset) and returns the table. */
    method Analyze(program: ProgramNode) returns (r: Result<SymbolTable, SemanticError>)
      modifies this
      ensures r == AnalyzeFrom(old(symbols), program.statements)
      ensures r.Success? ==> symbols == r.value
      ensures symbols == AnalyzedTable(old(symbols), program.statements)
    {
      var ss := program.statements;
      var i := 0;
      while i < |ss|
        invariant 0 <= i <= |ss|
        invariant AnalyzeFrom(symbols, ss[i..]) == AnalyzeFrom(old(symbols), ss)
        invariant AnalyzedTable(symbols, ss[i..]) == AnalyzedTable(old(symbols), ss)
      {
        assert ss[i..][0] == ss[i] && ss[i..][1..] == ss[i + 1..];
        var out := CheckStatementMethod(ss[i]);
        if out.Fail? {
          return Failure(out.error);
        }
        i := i + 1;
      }
      return Success(symbols);
    }

    method CheckStatementMethod(s: Node) returns (r: Outcome<SemanticError>)
      modifies this
      ensures match CheckStatement(old(symbols), s)
        case Success(t) => r.Pass? && symbols == t
        case Failure(e) => r == Fail(e) && symbols == old(symbols)
    {
      match s
      case DataDeclarationNode(_, _) =>
        r := CheckDataDecl(s);
      case AssignmentNode(_, _) =>
        r := CheckAssignment(s);
      case PrintNode(target) =>
        r := CheckPrint(symbols, target);
      case _ =>
        var ty := InferExpr(symbols, s);
        r := if ty.Success? then Pass else Fail(ty.error);
    }

    method CheckDataDecl(s: Node) returns (r: Outcome<SemanticError>)
      requires s.DataDeclarationNode?
      modifies this
      ensures match CheckStatement(old(symbols), s)
        case Success(t) => r.Pass? && symbols == t
        case Failure(e) => r == Fail(e) && symbols == old(symbols)
    {
      if s.name in symbols {
        return Fail(Redeclaration(s.name));
      }
      symbols := symbols[s.name := Symbol(s.name, ListOfInt, Some("int"), Some(|s.values|))];
      return Pass;
    }

    method CheckAssignment(s: Node) returns (r: Outcome<SemanticError>)
      requires s.AssignmentNode?
      modifies this
      ensures match CheckStatement(old(symbols), s)
        case Success(t) => r.Pass? && symbols == t
        case Failure(e) => r == Fail(e) && symbols == old(symbols)
    {
      var exprType := InferExpr(symbols, s.expr);
      if exprType.Failure? {
        return Fail(exprType.error);
      }
      var ty := exprType.value;
      if s.target in symbols {
        var existing := symbols[s.target];
        if existing.ty != ty {
          return Fail(AssignmentTypeMismatch(s.target, existing.ty, ty));
        }
      } else {
        var sym;
        if ty == ListOfInt {
          sym := Symbol(s.target, ListOfInt, Some("int"), None);
        } else {
          sym := Symbol(s.target, IntType, None, None);
        }
        symbols := symbols[s.target := sym];
      }
      return Pass;
    }
  }
}
