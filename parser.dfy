/** The recursive-descent parser of src/parser.py: the syntax tree node types,
    and a parser object that walks a token sequence with a cursor `pos`.

    Every parsing method is specified by a function of the token sequence and
    the cursor position (`...At`), which returns the node and the position after
    it; the methods of class Parser are proved to compute exactly those. */
module Parsing {
  import opened Wrappers
  import opened Decimal

  // ---------------------------------------------------------------------------
  // Tokens and syntax tree
  // ---------------------------------------------------------------------------

  /** A lexer token: its type (`"DATA"`, `"ID"`, `"NUM"`, `"GT"`, ...), its text,
      and where it starts. */
  datatype Token = Token(kind: string, value: string, line: int, column: int)

  /** A selection condition: `(">", n)`, `("<", n)`, `("=", n)` or
      `("between", lo, hi)`; the operator followed by its integer operands. */
  datatype Condition = Condition(op: string, bounds: seq<int>)

  datatype Node =
    | DataDeclarationNode(name: string, values: seq<int>)
    | SelectQueryNode(condition: Condition, source: string)
    | FilterQueryNode(mode: string, source: string)
    | AssignmentNode(target: string, expr: Node)
    | AggregationNode(func: string, source: string)
    | PrintNode(target: string)

  datatype ProgramNode = ProgramNode(statements: seq<Node>)

  datatype ParseError =
    | UnexpectedEnd(expected: string)            // eat() at the end of the tokens
    | Expected(expected: string, got: Token)     // eat() of the wrong token type
    | UnexpectedToken(got: Token)              // no statement starts with this token
    | ExpectedMode(at: Token)                  // filter mode is neither even nor odd
    | InvalidQuery(at: Token)
    | InvalidCondition(at: Token)
    | InvalidRhs(at: Token)
    | EndOfInput                               // `.type` of the missing token at the end
    | NotANumber(text: string)                 // int() of a NUM text that is not digits

  /** A node and the cursor position just after it. */
  datatype Parsed<+T> = Parsed(value: T, pos: nat)

  // ---------------------------------------------------------------------------
  // Well-formed syntax: what the grammar can produce
  // ---------------------------------------------------------------------------

  const AggregationKinds: set<string> := {"SUM", "MAX", "MIN", "COUNT"}

  predicate IsQuery(n: Node) { n.SelectQueryNode? || n.FilterQueryNode? }

  predicate WellFormedCondition(c: Condition)
  {
    && (c.op in {">", "<", "="} ==> |c.bounds| == 1)
    && (c.op == "between" ==> |c.bounds| == 2)
    && (c.op in {">", "<", "=", "between"})
    && forall i :: 0 <= i < |c.bounds| ==> c.bounds[i] >= 0
  }

  /** The nodes the grammar produces: at least one value in a declaration, numbers
      without a sign, the four condition shapes, the two filter modes, the four
      aggregation functions, and only a query or an aggregation on the right of `=`. */
  predicate WellFormed(n: Node)
  {
    match n
    case DataDeclarationNode(_, values) =>
      |values| >= 1 && forall i :: 0 <= i < |values| ==> values[i] >= 0
    case SelectQueryNode(c, _) => WellFormedCondition(c)
    case FilterQueryNode(mode, _) => mode == "even" || mode == "odd"
    case AggregationNode(func, _) => func in {"sum", "max", "min", "count"}
    case AssignmentNode(_, e) =>
      (e.SelectQueryNode? || e.FilterQueryNode? || e.AggregationNode?) && WellFormed(e)
    case PrintNode(_) => true
  }

  /** What the lexer guarantees of the token texts the parser keeps: a keyword
      token's text is the keyword in lower case, so EVEN and ODD tokens read
      `even` and `odd`. */
  predicate Lexed(toks: seq<Token>)
  {
    forall i :: 0 <= i < |toks| ==>
      (toks[i].kind == "EVEN" ==> toks[i].value == "even") &&
      (toks[i].kind == "ODD" ==> toks[i].value == "odd")
  }

  // ---------------------------------------------------------------------------
  // Specification of the parsing methods on (tokens, position)
  // ---------------------------------------------------------------------------

  function LowerChar(c: char): char
  {
    if 'A' <= c <= 'Z' then (c as int + 32) as char else c
  }

  /** `str.lower()` on ASCII text. */
  function Lower(s: string): string
  {
    seq(|s|, i requires 0 <= i < |s| => LowerChar(s[i]))
  }

  /** `current()`: the token under the cursor, if any. */
  function CurrentAt(toks: seq<Token>, pos: nat): (r: Option<Token>)
    ensures r.Some? <==> pos < |toks|
    ensures r.Some? ==> r.value == toks[pos]
  {
    if pos < |toks| then Some(toks[pos]) else None
  }

  /** `eat(kind)`: consume the current token if it has type `kind`. */
  function EatAt(toks: seq<Token>, pos: nat, kind: string): (r: Result<Parsed<Token>, ParseError>)
    ensures r.Success? <==> pos < |toks| && toks[pos].kind == kind
    ensures r.Success? ==> r.value == Parsed(toks[pos], pos + 1)
    ensures r.Failure? ==> r.error == if pos < |toks| then Expected(kind, toks[pos]) else UnexpectedEnd(kind)
  {
    if pos >= |toks| then Failure(UnexpectedEnd(kind))
    else if toks[pos].kind != kind then Failure(Expected(kind, toks[pos]))
    else Success(Parsed(toks[pos], pos + 1))
  }

  /** `int(tok.value)`. */
  function NumberValue(tok: Token): (r: Result<int, ParseError>)
    ensures r.Success? ==> r.value >= 0
  {
    match ParseNat(tok.value)
    case Some(n) => Success(n)
    case None => Failure(NotANumber(tok.value))
  }

  /** `int(self.eat("NUM").value)`. */
  function NumberAt(toks: seq<Token>, pos: nat): (r: Result<Parsed<int>, ParseError>)
    ensures r.Success? ==> pos < |toks| && toks[pos].kind == "NUM" && r.value.pos == pos + 1
    ensures r.Success? ==> r.value.value >= 0 && ParseNat(toks[pos].value) == Some(r.value.value)
  {
    var t :- EatAt(toks, pos, "NUM");
    var n :- NumberValue(t.value);
    Success(Parsed(n, t.pos))
  }

  /** The `while current is COMMA: eat COMMA; append int(eat NUM)` loop of data_decl. */
  function NumberTailAt(toks: seq<Token>, pos: nat, numbers: seq<int>): (r: Result<Parsed<seq<int>>, ParseError>)
    requires pos <= |toks|
    ensures r.Success? ==> pos <= r.value.pos <= |toks|
    decreases |toks| - pos
  {
    if pos < |toks| && toks[pos].kind == "COMMA" then
      var n :- NumberAt(toks, pos + 1);
      NumberTailAt(toks, n.pos, numbers + [n.value])
    else
      Success(Parsed(numbers, pos))
  }

  /** data_decl: `DATA ID = [ NUM (, NUM)* ]`. */
  function DataDeclAt(toks: seq<Token>, pos: nat): (r: Result<Parsed<Node>, ParseError>)
    ensures r.Success? ==> pos < r.value.pos <= |toks| && r.value.value.DataDeclarationNode?
  {
    var d :- EatAt(toks, pos, "DATA");
    var name :- EatAt(toks, d.pos, "ID");
    var a :- EatAt(toks, name.pos, "ASSIGN");
    var l :- EatAt(toks, a.pos, "LBRACKET");
    var first :- NumberAt(toks, l.pos);
    var numbers :- NumberTailAt(toks, first.pos, [first.value]);
    var b :- EatAt(toks, numbers.pos, "RBRACKET");
    Success(Parsed(DataDeclarationNode(name.value.value, numbers.value), b.pos))
  }

  /** parse_condition: `> NUM`, `< NUM`, `= NUM` or `between NUM and NUM`. */
  function ConditionAt(toks: seq<Token>, pos: nat): (r: Result<Parsed<Condition>, ParseError>)
    ensures r.Success? ==> pos < r.value.pos <= |toks|
  {
    if pos >= |toks| then Failure(EndOfInput)
    else
      var tok := toks[pos];
      if tok.kind == "GT" then
        // eat(GT) succeeds: the current token has that type
        var n :- NumberAt(toks, pos + 1);
        Success(Parsed(Condition(">", [n.value]), n.pos))
      else if tok.kind == "LT" then
        // eat(LT) succeeds: the current token has that type
        var n :- NumberAt(toks, pos + 1);
        Success(Parsed(Condition("<", [n.value]), n.pos))
      else if tok.kind == "ASSIGN" then
        // eat(ASSIGN) succeeds: the current token has that type
        var n :- NumberAt(toks, pos + 1);
        Success(Parsed(Condition("=", [n.value]), n.pos))
      else if tok.kind == "BETWEEN" then
        var lo :- NumberAt(toks, pos + 1);
        var a :- EatAt(toks, lo.pos, "AND");
        var hi :- NumberAt(toks, a.pos);
        Success(Parsed(Condition("between", [lo.value, hi.value]), hi.pos))
      else
        Failure(InvalidCondition(tok))
  }

  /** query: `FILTER (EVEN|ODD) FROM ID` or `SELECT condition FROM ID`. The filter
      mode is the text of the EVEN or ODD token. */
  function QueryAt(toks: seq<Token>, pos: nat): (r: Result<Parsed<Node>, ParseError>)
    ensures r.Success? ==> pos < r.value.pos <= |toks| && IsQuery(r.value.value)
  {
    if pos >= |toks| then Failure(EndOfInput)
    else
      var tok := toks[pos];
      if tok.kind == "FILTER" then
        // eat(FILTER) succeeds: the current token has that type
        if pos + 1 >= |toks| then Failure(EndOfInput)
        else
          var m :- if toks[pos + 1].kind == "EVEN" then EatAt(toks, pos + 1, "EVEN")
                   else if toks[pos + 1].kind == "ODD" then EatAt(toks, pos + 1, "ODD")
                   else Failure(ExpectedMode(tok));
          var fr :- EatAt(toks, m.pos, "FROM");
          var src :- EatAt(toks, fr.pos, "ID");
          Success(Parsed(FilterQueryNode(m.value.value, src.value.value), src.pos))
      else if tok.kind == "SELECT" then
        var c :- ConditionAt(toks, pos + 1);
        var fr :- EatAt(toks, c.pos, "FROM");
        var src :- EatAt(toks, fr.pos, "ID");
        Success(Parsed(SelectQueryNode(c.value, src.value.value), src.pos))
      else
        Failure(InvalidQuery(tok))
  }

  /** aggregation: `(SUM|MAX|MIN|COUNT) FROM ID`; the function name is the
      lower-cased token type. */
  function AggregationAt(toks: seq<Token>, pos: nat): (r: Result<Parsed<Node>, ParseError>)
    ensures r.Success? ==> pos < r.value.pos <= |toks| && r.value.value.AggregationNode?
    ensures r.Success? ==> r.value.value.func == Lower(toks[pos].kind)
  {
    if pos >= |toks| then Failure(EndOfInput)
    else
      var func := Lower(toks[pos].kind);
      // eat(current().type) succeeds trivially
      var fr :- EatAt(toks, pos + 1, "FROM");
      var src :- EatAt(toks, fr.pos, "ID");
      Success(Parsed(AggregationNode(func, src.value.value), src.pos))
  }

  /** assignment: `ID = (query | aggregation)`. */
  function AssignmentAt(toks: seq<Token>, pos: nat): (r: Result<Parsed<Node>, ParseError>)
    ensures r.Success? ==> pos < r.value.pos <= |toks| && r.value.value.AssignmentNode?
  {
    var t :- EatAt(toks, pos, "ID");
    var a :- EatAt(toks, t.pos, "ASSIGN");
    var e :- RhsAt(toks, a.pos);
    Success(Parsed(AssignmentNode(t.value.value, e.value), e.pos))
  }

  /** The right-hand side of an assignment: a query or an aggregation, chosen by
      the type of its first token. */
  function RhsAt(toks: seq<Token>, pos: nat): (r: Result<Parsed<Node>, ParseError>)
    ensures r.Success? ==> pos < r.value.pos <= |toks|
  {
    if pos >= |toks| then Failure(EndOfInput)
    else
      var next := toks[pos].kind;
      if next in {"SELECT", "FILTER"} then QueryAt(toks, pos)
      else if next in AggregationKinds then AggregationAt(toks, pos)
      else Failure(InvalidRhs(toks[pos]))
  }

  /** print: `PRINT ID`. */
  function PrintAt(toks: seq<Token>, pos: nat): (r: Result<Parsed<Node>, ParseError>)
    ensures r.Success? ==> r.value.pos == pos + 2 <= |toks| && r.value.value.PrintNode?
  {
    var p :- EatAt(toks, pos, "PRINT");
    var t :- EatAt(toks, p.pos, "ID");
    Success(Parsed(PrintNode(t.value.value), t.pos))
  }

  /** statement: dispatch on the type of the first token. */
  function StatementAt(toks: seq<Token>, pos: nat): (r: Result<Parsed<Node>, ParseError>)
    ensures r.Success? ==> pos < r.value.pos <= |toks|
  {
    if pos >= |toks| then Failure(EndOfInput)
    else
      var kind := toks[pos].kind;
      if kind == "DATA" then DataDeclAt(toks, pos)
      else if kind in {"SELECT", "FILTER"} then QueryAt(toks, pos)
      else if kind == "ID" then AssignmentAt(toks, pos)
      else if kind in AggregationKinds then AggregationAt(toks, pos)
      else if kind == "PRINT" then PrintAt(toks, pos)
      else Failure(UnexpectedToken(toks[pos]))
  }

  /** parse: statements until the tokens run out, one node per statement, in order. */
  function StatementsFrom(toks: seq<Token>, pos: nat): (r: Result<seq<Node>, ParseError>)
    decreases |toks| - pos
  {
    if pos >= |toks| then Success([])
    else
      var s :- StatementAt(toks, pos);
      var rest :- StatementsFrom(toks, s.pos);
      Success([s.value] + rest)
  }

  /** `parse()` from cursor position `pos`. */
  function ParseFrom(toks: seq<Token>, pos: nat): Result<ProgramNode, ParseError>
  {
    var statements :- StatementsFrom(toks, pos);
    Success(ProgramNode(statements))
  }

  function Prepend(prefix: seq<Node>, r: Result<seq<Node>, ParseError>): Result<seq<Node>, ParseError>
  {
    if r.Success? then Success(prefix + r.value) else r
  }

  lemma PrependTwice(a: seq<Node>, b: seq<Node>, r: Result<seq<Node>, ParseError>)
    ensures Prepend(a, Prepend(b, r)) == Prepend(a + b, r)
  {
    if r.Success? {
      assert a + (b + r.value) == (a + b) + r.value;
    }
  }

  lemma StatementsFromStep(toks: seq<Token>, pos: nat)
    requires pos < |toks|
    ensures var s := StatementAt(toks, pos);
      StatementsFrom(toks, pos) == if s.Success? then Prepend([s.value.value], StatementsFrom(toks, s.value.pos)) else Failure(s.error)
  {
  }

  lemma LowerAggregationKinds(kind: string)
    requires kind in AggregationKinds
    ensures Lower(kind) in {"sum", "max", "min", "count"}
  {
    if kind == "SUM" { LowerSum(); }
    else if kind == "MAX" { LowerMax(); }
    else if kind == "MIN" { LowerMin(); }
    else { LowerCount(); }
  }

  // ---------------------------------------------------------------------------
  // What the parser produces from lexed tokens: well-formed syntax
  // ---------------------------------------------------------------------------

  /** The comma loop only appends, and only numbers without a sign. */
  lemma {:induction false} NumberTailAtExtends(toks: seq<Token>, pos: nat, numbers: seq<int>)
    requires pos <= |toks| && NumberTailAt(toks, pos, numbers).Success?
    ensures var vs := NumberTailAt(toks, pos, numbers).value.value;
      |vs| >= |numbers| && vs[..|numbers|] == numbers && forall i :: |numbers| <= i < |vs| ==> vs[i] >= 0
    decreases |toks| - pos
  {
    if pos < |toks| && toks[pos].kind == "COMMA" {
      var n := NumberAt(toks, pos + 1).value;
      NumberTailAtExtends(toks, n.pos, numbers + [n.value]);
      var vs := NumberTailAt(toks, pos, numbers).value.value;
      assert vs[..|numbers| + 1][..|numbers|] == vs[..|numbers|];
    }
  }

  lemma DataDeclAtWellFormed(toks: seq<Token>, pos: nat)
    requires DataDeclAt(toks, pos).Success?
    ensures WellFormed(DataDeclAt(toks, pos).value.value)
  {
    var first := NumberAt(toks, pos + 4).value;
    NumberTailAtExtends(toks, pos + 5, [first.value]);
    var vs := NumberTailAt(toks, pos + 5, [first.value]).value.value;
    assert vs[0] == vs[..1][0] == first.value;
  }

  lemma ConditionAtWellFormed(toks: seq<Token>, pos: nat)
    requires ConditionAt(toks, pos).Success?
    ensures WellFormedCondition(ConditionAt(toks, pos).value.value)
  {
    var c := ConditionAt(toks, pos).value.value;
    assert c.op in {">", "<", "=", "between"};
  }

  /** A filter takes its mode from the text of the EVEN or ODD token, which the
      lexer makes `even` or `odd`. */
  lemma QueryAtWellFormed(toks: seq<Token>, pos: nat)
    requires Lexed(toks) && QueryAt(toks, pos).Success?
    ensures WellFormed(QueryAt(toks, pos).value.value)
  {
    if toks[pos].kind == "SELECT" {
      ConditionAtWellFormed(toks, pos + 1);
    } else {
      assert toks[pos + 1].kind == "EVEN" ==> toks[pos + 1].value == "even";
      assert toks[pos + 1].kind == "ODD" ==> toks[pos + 1].value == "odd";
    }
  }

  lemma AggregationAtWellFormed(toks: seq<Token>, pos: nat)
    requires pos < |toks| && toks[pos].kind in AggregationKinds && AggregationAt(toks, pos).Success?
    ensures WellFormed(AggregationAt(toks, pos).value.value)
  {
    LowerAggregationKinds(toks[pos].kind);
  }

  lemma RhsAtWellFormed(toks: seq<Token>, pos: nat)
    requires Lexed(toks) && RhsAt(toks, pos).Success?
    ensures var e := RhsAt(toks, pos).value.value;
      (IsQuery(e) || e.AggregationNode?) && WellFormed(e)
  {
    if toks[pos].kind in {"SELECT", "FILTER"} {
      QueryAtWellFormed(toks, pos);
    } else {
      AggregationAtWellFormed(toks, pos);
    }
  }

  lemma AssignmentAtWellFormed(toks: seq<Token>, pos: nat)
    requires Lexed(toks) && AssignmentAt(toks, pos).Success?
    ensures WellFormed(AssignmentAt(toks, pos).value.value)
  {
    RhsAtWellFormed(toks, pos + 2);
  }

  lemma StatementAtWellFormed(toks: seq<Token>, pos: nat)
    requires Lexed(toks) && StatementAt(toks, pos).Success?
    ensures WellFormed(StatementAt(toks, pos).value.value)
  {
    var kind := toks[pos].kind;
    if kind == "DATA" {
      DataDeclAtWellFormed(toks, pos);
    } else if kind in {"SELECT", "FILTER"} {
      QueryAtWellFormed(toks, pos);
    } else if kind == "ID" {
      AssignmentAtWellFormed(toks, pos);
    } else if kind in AggregationKinds {
      AggregationAtWellFormed(toks, pos);
    }
  }

  /** Every statement parsed from lexed tokens is one the grammar can produce. */
  lemma {:induction false} StatementsFromWellFormed(toks: seq<Token>, pos: nat)
    requires Lexed(toks) && StatementsFrom(toks, pos).Success?
    ensures var ns := StatementsFrom(toks, pos).value; forall i :: 0 <= i < |ns| ==> WellFormed(ns[i])
    decreases |toks| - pos
  {
    if pos < |toks| {
      var s := StatementAt(toks, pos).value;
      StatementAtWellFormed(toks, pos);
      StatementsFromWellFormed(toks, s.pos);
    }
  }

  // ---------------------------------------------------------------------------
  // Rendering a syntax tree back to tokens: the parser's inverse
  // ---------------------------------------------------------------------------

  /** A token as the lexer makes it (its position does not matter to the parser). */
  function Tok(kind: string, text: string): Token
  {
    Token(kind, text, 0, 0)
  }

  function NumToken(v: int): Token
    requires v >= 0
  {
    Tok("NUM", NatToString(v))
  }

  /** The `, NUM` pairs after the first value of a declaration. */
  function RenderTail(vs: seq<nat>): seq<Token>
  {
    if vs == [] then [] else [Tok("COMMA", ","), NumToken(vs[0])] + RenderTail(vs[1..])
  }

  function RenderCondition(c: Condition): seq<Token>
    requires WellFormedCondition(c)
  {
    if c.op == ">" then [Tok("GT", ">"), NumToken(c.bounds[0])]
    else if c.op == "<" then [Tok("LT", "<"), NumToken(c.bounds[0])]
    else if c.op == "=" then [Tok("ASSIGN", "="), NumToken(c.bounds[0])]
    else [Tok("BETWEEN", "between"), NumToken(c.bounds[0]), Tok("AND", "and"), NumToken(c.bounds[1])]
  }

  /** The token type of an aggregation keyword: the function name in upper case. */
  function AggregationKind(func: string): string
  {
    if func == "sum" then "SUM" else if func == "max" then "MAX" else if func == "min" then "MIN" else "COUNT"
  }

  /** The tokens the lexer produces for a statement written in the language. */
  function Render(n: Node): seq<Token>
    requires WellFormed(n)
  {
    match n
    case DataDeclarationNode(name, values) =>
      [Tok("DATA", "data"), Tok("ID", name), Tok("ASSIGN", "="), Tok("LBRACKET", "["), NumToken(values[0])]
      + RenderTail(values[1..]) + [Tok("RBRACKET", "]")]
    case SelectQueryNode(c, source) =>
      [Tok("SELECT", "select")] + RenderCondition(c) + [Tok("FROM", "from"), Tok("ID", source)]
    case FilterQueryNode(mode, source) =>
      [Tok("FILTER", "filter"), Tok(if mode == "even" then "EVEN" else "ODD", mode), Tok("FROM", "from"), Tok("ID", source)]
    case AggregationNode(func, source) =>
      [Tok(AggregationKind(func), func), Tok("FROM", "from"), Tok("ID", source)]
    case AssignmentNode(target, e) =>
      [Tok("ID", target), Tok("ASSIGN", "=")] + Render(e)
    case PrintNode(target) =>
      [Tok("PRINT", "print"), Tok("ID", target)]
  }

  function RenderAll(ns: seq<Node>): seq<Token>
    requires forall i :: 0 <= i < |ns| ==> WellFormed(ns[i])
  {
    if ns == [] then [] else Render(ns[0]) + RenderAll(ns[1..])
  }

  /** `toks` holds `part` from position `pos` on. */
  predicate At(toks: seq<Token>, pos: nat, part: seq<Token>)
  {
    pos + |part| <= |toks| && forall i :: 0 <= i < |part| ==> toks[pos + i] == part[i]
  }

  lemma AtSplit(toks: seq<Token>, pos: nat, a: seq<Token>, b: seq<Token>)
    requires At(toks, pos, a + b)
    ensures At(toks, pos, a) && At(toks, pos + |a|, b)
  {
    forall i | 0 <= i < |a|
      ensures toks[pos + i] == a[i]
    {
      assert (a + b)[i] == a[i];
    }
    forall i | 0 <= i < |b|
      ensures toks[pos + |a| + i] == b[i]
    {
      assert (a + b)[|a| + i] == b[i];
    }
  }

  lemma AtIndex(toks: seq<Token>, pos: nat, part: seq<Token>, i: nat)
    requires At(toks, pos, part) && i < |part|
    ensures toks[pos + i] == part[i]
  {
  }

  /** A part of a part of the tokens is a part of the tokens. */
  lemma AtWithin(toks: seq<Token>, pos: nat, part: seq<Token>, i: nat, sub: seq<Token>)
    requires At(toks, pos, part) && At(part, i, sub)
    ensures At(toks, pos + i, sub)
  {
    forall k | 0 <= k < |sub|
      ensures toks[pos + i + k] == sub[k]
    {
      assert part[i + k] == sub[k];
    }
  }

  lemma AtConcat(before: seq<Token>, part: seq<Token>, after: seq<Token>)
    ensures At(before + part + after, |before|, part)
  {
    forall k | 0 <= k < |part|
      ensures (before + part + after)[|before| + k] == part[k]
    {
    }
  }

  /** The middle of a concatenation sits at the length of what precedes it. */
  lemma AtMiddle(toks: seq<Token>, pos: nat, before: seq<Token>, part: seq<Token>, after: seq<Token>)
    requires At(toks, pos, before + part + after)
    ensures At(toks, pos + |before|, part)
  {
    AtConcat(before, part, after);
    AtWithin(toks, pos, before + part + after, |before|, part);
  }

  lemma NumberAtToken(toks: seq<Token>, pos: nat, v: int)
    requires v >= 0 && pos < |toks| && toks[pos] == NumToken(v)
    ensures NumberAt(toks, pos) == Success(Parsed(v, pos + 1))
  {
    NatToStringRoundTrip(v);
  }

  /** One round of the comma loop. */
  lemma NumberTailAtStep(toks: seq<Token>, pos: nat, numbers: seq<int>, v: int)
    requires pos + 1 < |toks| && toks[pos].kind == "COMMA"
    requires NumberAt(toks, pos + 1) == Success(Parsed(v, pos + 2))
    ensures NumberTailAt(toks, pos, numbers) == NumberTailAt(toks, pos + 2, numbers + [v])
  {
  }

  lemma AppendFirst(numbers: seq<int>, vs: seq<nat>)
    requires vs != []
    ensures numbers + [vs[0]] + vs[1..] == numbers + vs
  {
  }

  lemma {:induction false} NumberTailAtRendered(toks: seq<Token>, pos: nat, numbers: seq<int>, vs: seq<nat>)
    requires At(toks, pos, RenderTail(vs))
    requires pos + |RenderTail(vs)| < |toks| && toks[pos + |RenderTail(vs)|].kind != "COMMA"
    ensures NumberTailAt(toks, pos, numbers) == Success(Parsed(numbers + vs, pos + |RenderTail(vs)|))
    decreases |vs|
  {
    if vs == [] {
      assert numbers + vs == numbers;
    } else {
      var head := [Tok("COMMA", ","), NumToken(vs[0])];
      AtSplit(toks, pos, head, RenderTail(vs[1..]));
      AtIndex(toks, pos, head, 0);
      AtIndex(toks, pos, head, 1);
      NumberAtToken(toks, pos + 1, vs[0]);
      NumberTailAtStep(toks, pos, numbers, vs[0]);
      NumberTailAtRendered(toks, pos + 2, numbers + [vs[0]], vs[1..]);
      AppendFirst(numbers, vs);
    }
  }

  lemma ConditionAtRendered(toks: seq<Token>, pos: nat, c: Condition)
    requires WellFormedCondition(c) && At(toks, pos, RenderCondition(c))
    ensures ConditionAt(toks, pos) == Success(Parsed(c, pos + |RenderCondition(c)|))
  {
    var rc := RenderCondition(c);
    AtIndex(toks, pos, rc, 0);
    AtIndex(toks, pos, rc, 1);
    NumberAtToken(toks, pos + 1, c.bounds[0]);
    if c.op == "between" {
      AtIndex(toks, pos, rc, 2);
      AtIndex(toks, pos, rc, 3);
      NumberAtToken(toks, pos + 3, c.bounds[1]);
      assert c.bounds == [c.bounds[0], c.bounds[1]];
    } else {
      assert c.bounds == [c.bounds[0]];
    }
  }

  /** The steps of the select branch of `parse_query`. */
  lemma SelectAtSteps(toks: seq<Token>, pos: nat, c: Condition, src: string, cend: nat)
    requires pos < |toks| && toks[pos].kind == "SELECT"
    requires ConditionAt(toks, pos + 1) == Success(Parsed(c, cend))
    requires cend + 1 < |toks| && toks[cend].kind == "FROM" && toks[cend + 1].kind == "ID" && toks[cend + 1].value == src
    ensures QueryAt(toks, pos) == Success(Parsed(SelectQueryNode(c, src), cend + 2))
  {
  }

  lemma SelectAtRendered(toks: seq<Token>, pos: nat, c: Condition, src: string)
    requires WellFormedCondition(c)
    requires At(toks, pos, [Tok("SELECT", "select")] + RenderCondition(c) + [Tok("FROM", "from"), Tok("ID", src)])
    ensures QueryAt(toks, pos) == Success(Parsed(SelectQueryNode(c, src), pos + |RenderCondition(c)| + 3))
  {
    var head := [Tok("SELECT", "select")];
    var rc := RenderCondition(c);
    var tail := [Tok("FROM", "from"), Tok("ID", src)];
    var part := head + rc + tail;
    AtIndex(toks, pos, part, 0);
    AtIndex(toks, pos, part, |rc| + 1);
    AtIndex(toks, pos, part, |rc| + 2);
    AtMiddle(toks, pos, head, rc, tail);
    ConditionAtRendered(toks, pos + 1, c);
    SelectAtSteps(toks, pos, c, src, pos + 1 + |rc|);
  }

  /** The filter branch of `parse_query`. */
  lemma FilterAtRendered(toks: seq<Token>, pos: nat, mode: string, src: string)
    requires mode == "even" || mode == "odd"
    requires At(toks, pos, [Tok("FILTER", "filter"), Tok(if mode == "even" then "EVEN" else "ODD", mode), Tok("FROM", "from"), Tok("ID", src)])
    ensures QueryAt(toks, pos) == Success(Parsed(FilterQueryNode(mode, src), pos + 4))
  {
    var part := [Tok("FILTER", "filter"), Tok(if mode == "even" then "EVEN" else "ODD", mode), Tok("FROM", "from"), Tok("ID", src)];
    AtIndex(toks, pos, part, 0);
    AtIndex(toks, pos, part, 1);
    AtIndex(toks, pos, part, 2);
    AtIndex(toks, pos, part, 3);
  }

  lemma QueryAtRendered(toks: seq<Token>, pos: nat, n: Node)
    requires IsQuery(n) && WellFormed(n) && At(toks, pos, Render(n))
    ensures QueryAt(toks, pos) == Success(Parsed(n, pos + |Render(n)|))
  {
    if n.SelectQueryNode? {
      SelectAtRendered(toks, pos, n.condition, n.source);
    } else {
      FilterAtRendered(toks, pos, n.mode, n.source);
    }
  }

  lemma LowerSum() ensures Lower("SUM") == "sum" {}
  lemma LowerMax() ensures Lower("MAX") == "max" {}
  lemma LowerMin() ensures Lower("MIN") == "min" {}
  lemma LowerCount() ensures Lower("COUNT") == "count" {}

  /** The aggregation keywords, read back: lower-casing the token type gives the
      function name. */
  lemma LowerAggregationKind(func: string)
    requires func in {"sum", "max", "min", "count"}
    ensures AggregationKind(func) in AggregationKinds && Lower(AggregationKind(func)) == func
  {
    if func == "sum" { LowerSum(); }
    else if func == "max" { LowerMax(); }
    else if func == "min" { LowerMin(); }
    else { LowerCount(); }
  }

  lemma AggregationAtRendered(toks: seq<Token>, pos: nat, n: Node)
    requires n.AggregationNode? && WellFormed(n) && At(toks, pos, Render(n))
    ensures AggregationAt(toks, pos) == Success(Parsed(n, pos + 3))
  {
    var rn := Render(n);
    AtIndex(toks, pos, rn, 0);
    AtIndex(toks, pos, rn, 1);
    AtIndex(toks, pos, rn, 2);
    LowerAggregationKind(n.func);
  }

  /** The steps of `parse_data_decl`, one eat at a time. */
  lemma DataDeclAtSteps(toks: seq<Token>, pos: nat, name: string, first: int, values: seq<int>, end: nat)
    requires pos + 4 < end < |toks|
    requires toks[pos].kind == "DATA" && toks[pos + 1].kind == "ID" && toks[pos + 1].value == name
    requires toks[pos + 2].kind == "ASSIGN" && toks[pos + 3].kind == "LBRACKET"
    requires NumberAt(toks, pos + 4) == Success(Parsed(first, pos + 5))
    requires NumberTailAt(toks, pos + 5, [first]) == Success(Parsed(values, end))
    requires toks[end].kind == "RBRACKET"
    ensures DataDeclAt(toks, pos) == Success(Parsed(DataDeclarationNode(name, values), end + 1))
  {
  }

  lemma DataDeclAtRendered(toks: seq<Token>, pos: nat, n: Node)
    requires n.DataDeclarationNode? && WellFormed(n) && At(toks, pos, Render(n))
    ensures DataDeclAt(toks, pos) == Success(Parsed(n, pos + |Render(n)|))
  {
    RenderDataDecl(n.name, n.values);
    DataDeclAtParts(toks, pos, n.name, n.values);
  }

  lemma RenderDataDecl(name: string, values: seq<int>)
    requires WellFormed(DataDeclarationNode(name, values))
    ensures Render(DataDeclarationNode(name, values)) ==
      [Tok("DATA", "data"), Tok("ID", name), Tok("ASSIGN", "="), Tok("LBRACKET", "["), NumToken(values[0])]
      + (RenderTail(values[1..]) + [Tok("RBRACKET", "]")])
  {
  }

  /** The tokens before the value list: `DATA ID = [` and the first number. */
  lemma DataDeclHeadAt(toks: seq<Token>, pos: nat, name: string, first: nat)
    requires At(toks, pos, [Tok("DATA", "data"), Tok("ID", name), Tok("ASSIGN", "="), Tok("LBRACKET", "["), NumToken(first)])
    ensures pos + 4 < |toks| && toks[pos].kind == "DATA" && toks[pos + 1].kind == "ID" && toks[pos + 1].value == name
    ensures toks[pos + 2].kind == "ASSIGN" && toks[pos + 3].kind == "LBRACKET"
    ensures NumberAt(toks, pos + 4) == Success(Parsed(first, pos + 5))
  {
    var head := [Tok("DATA", "data"), Tok("ID", name), Tok("ASSIGN", "="), Tok("LBRACKET", "["), NumToken(first)];
    AtIndex(toks, pos, head, 0);
    AtIndex(toks, pos, head, 1);
    AtIndex(toks, pos, head, 2);
    AtIndex(toks, pos, head, 3);
    AtIndex(toks, pos, head, 4);
    NumberAtToken(toks, pos + 4, first);
  }

  /** The value list after the first number: `(, NUM)*` and the closing bracket. */
  lemma DataDeclTailAt(toks: seq<Token>, pos: nat, values: seq<int>, part: seq<Token>) returns (end: nat)
    requires |values| >= 1 && forall i :: 0 <= i < |values| ==> values[i] >= 0
    requires part == RenderTail(values[1..]) + [Tok("RBRACKET", "]")] && At(toks, pos, part)
    ensures end == pos + |part| - 1 && end < |toks| && toks[end].kind == "RBRACKET"
    ensures NumberTailAt(toks, pos, [values[0]]) == Success(Parsed(values, end))
  {
    var tail := RenderTail(values[1..]);
    end := pos + |tail|;
    AtSplit(toks, pos, tail, [Tok("RBRACKET", "]")]);
    AtIndex(toks, pos, part, |tail|);
    NumberTailAtRendered(toks, pos, [values[0]], values[1..]);
    assert [values[0]] + values[1..] == values;
  }

  lemma DataDeclAtParts(toks: seq<Token>, pos: nat, name: string, values: seq<int>)
    requires |values| >= 1 && forall i :: 0 <= i < |values| ==> values[i] >= 0
    requires var head := [Tok("DATA", "data"), Tok("ID", name), Tok("ASSIGN", "="), Tok("LBRACKET", "["), NumToken(values[0])];
      At(toks, pos, head + (RenderTail(values[1..]) + [Tok("RBRACKET", "]")]))
    ensures DataDeclAt(toks, pos) == Success(Parsed(DataDeclarationNode(name, values), pos + 6 + |RenderTail(values[1..])|))
  {
    var head := [Tok("DATA", "data"), Tok("ID", name), Tok("ASSIGN", "="), Tok("LBRACKET", "["), NumToken(values[0])];
    var rest := RenderTail(values[1..]) + [Tok("RBRACKET", "]")];
    AtSplit(toks, pos, head, rest);
    DataDeclHeadAt(toks, pos, name, values[0]);
    var end := DataDeclTailAt(toks, pos + 5, values, rest);
    DataDeclAtSteps(toks, pos, name, values[0], values, end);
  }

  /** The steps of `parse_assignment`: the target, `=`, then the right-hand side
      chosen by its first token. */
  lemma AssignmentAtSteps(toks: seq<Token>, pos: nat, target: string, e: Node, end: nat)
    requires pos + 1 < |toks| && toks[pos].kind == "ID" && toks[pos].value == target
    requires toks[pos + 1].kind == "ASSIGN"
    requires RhsAt(toks, pos + 2) == Success(Parsed(e, end))
    ensures AssignmentAt(toks, pos) == Success(Parsed(AssignmentNode(target, e), end))
  {
  }

  lemma AssignmentAtRendered(toks: seq<Token>, pos: nat, n: Node)
    requires n.AssignmentNode? && WellFormed(n) && At(toks, pos, Render(n))
    ensures AssignmentAt(toks, pos) == Success(Parsed(n, pos + |Render(n)|))
  {
    var re := Render(n.expr);
    assert Render(n) == [Tok("ID", n.target), Tok("ASSIGN", "=")] + re;
    AssignmentHeadAt(toks, pos, n.target, re);
    RhsAtRendered(toks, pos + 2, n.expr);
    AssignmentAtSteps(toks, pos, n.target, n.expr, pos + 2 + |re|);
  }

  /** The tokens before the right-hand side: `ID =`. */
  lemma AssignmentHeadAt(toks: seq<Token>, pos: nat, target: string, rhs: seq<Token>)
    requires At(toks, pos, [Tok("ID", target), Tok("ASSIGN", "=")] + rhs)
    ensures pos + 1 < |toks| && toks[pos].kind == "ID" && toks[pos].value == target && toks[pos + 1].kind == "ASSIGN"
    ensures At(toks, pos + 2, rhs)
  {
    var head := [Tok("ID", target), Tok("ASSIGN", "=")];
    AtSplit(toks, pos, head, rhs);
    AtIndex(toks, pos, head, 0);
    AtIndex(toks, pos, head, 1);
  }

  /** The right-hand side of a rendered assignment is parsed back by the parser
      its first token selects. */
  lemma RhsAtRendered(toks: seq<Token>, pos: nat, e: Node)
    requires (IsQuery(e) || e.AggregationNode?) && WellFormed(e) && At(toks, pos, Render(e))
    ensures RhsAt(toks, pos) == Success(Parsed(e, pos + |Render(e)|))
  {
    AtIndex(toks, pos, Render(e), 0);
    if e.AggregationNode? {
      LowerAggregationKind(e.func);
      AggregationAtRendered(toks, pos, e);
    } else {
      QueryAtRendered(toks, pos, e);
    }
  }

  /** Parsing the tokens of a well-formed statement gives that statement back and
      stops right after its tokens. */
  lemma StatementAtRendered(toks: seq<Token>, pos: nat, n: Node)
    requires WellFormed(n) && At(toks, pos, Render(n))
    ensures StatementAt(toks, pos) == Success(Parsed(n, pos + |Render(n)|))
  {
    var rn := Render(n);
    AtIndex(toks, pos, rn, 0);
    if n.DataDeclarationNode? {
      DataDeclAtRendered(toks, pos, n);
    } else if n.SelectQueryNode? || n.FilterQueryNode? {
      QueryAtRendered(toks, pos, n);
    } else if n.AggregationNode? {
      LowerAggregationKind(n.func);
      AggregationAtRendered(toks, pos, n);
    } else if n.AssignmentNode? {
      AssignmentAtRendered(toks, pos, n);
    } else {
      AtIndex(toks, pos, rn, 1);
    }
  }

  /** Round trip: parsing the tokens of a sequence of well-formed statements gives
      back exactly those statements, one node per statement, in order. */
  lemma ParseRendered(ns: seq<Node>)
    requires forall i :: 0 <= i < |ns| ==> WellFormed(ns[i])
    ensures ParseFrom(RenderAll(ns), 0) == Success(ProgramNode(ns))
  {
    StatementsFromRendered(RenderAll(ns), 0, ns);
  }

  lemma RenderAllCons(ns: seq<Node>)
    requires ns != [] && forall i :: 0 <= i < |ns| ==> WellFormed(ns[i])
    ensures RenderAll(ns) == Render(ns[0]) + RenderAll(ns[1..])
  {
  }

  lemma {:induction false} StatementsFromRendered(toks: seq<Token>, pos: nat, ns: seq<Node>)
    requires forall i :: 0 <= i < |ns| ==> WellFormed(ns[i])
    requires At(toks, pos, RenderAll(ns)) && pos + |RenderAll(ns)| == |toks|
    ensures StatementsFrom(toks, pos) == Success(ns)
    decreases |ns|
  {
    if ns != [] {
      var r0 := Render(ns[0]);
      RenderAllCons(ns);
      AtSplit(toks, pos, r0, RenderAll(ns[1..]));
      StatementAtRendered(toks, pos, ns[0]);
      StatementsFromRendered(toks, pos + |r0|, ns[1..]);
      StatementsFromStep(toks, pos);
      assert [ns[0]] + ns[1..] == ns;
    }
  }

  // ---------------------------------------------------------------------------
  // The converse: a parse succeeds only on tokens shaped like its result
  // ---------------------------------------------------------------------------

  /** `toks` holds, from position `pos` on, tokens of the types of `part`. */
  predicate KindsAt(toks: seq<Token>, pos: nat, part: seq<Token>)
  {
    pos + |part| <= |toks| && forall i :: 0 <= i < |part| ==> toks[pos + i].kind == part[i].kind
  }

  lemma KindsAtConcat(toks: seq<Token>, pos: nat, a: seq<Token>, b: seq<Token>)
    requires KindsAt(toks, pos, a) && KindsAt(toks, pos + |a|, b)
    ensures KindsAt(toks, pos, a + b)
  {
    forall i | 0 <= i < |a + b|
      ensures toks[pos + i].kind == (a + b)[i].kind
    {
      if i >= |a| {
        assert toks[pos + |a| + (i - |a|)].kind == b[i - |a|].kind;
      }
    }
  }

  /** The comma loop stops only at a token that is not a comma, having read
      `, NUM` pairs, one per value it appended. */
  lemma {:induction false} NumberTailAtKinds(toks: seq<Token>, pos: nat, numbers: seq<int>)
    requires pos <= |toks| && NumberTailAt(toks, pos, numbers).Success?
    ensures var r := NumberTailAt(toks, pos, numbers).value;
      && |r.value| >= |numbers| && (forall k :: |numbers| <= k < |r.value| ==> r.value[k] >= 0)
      && r.pos == pos + |RenderTail(r.value[|numbers|..])|
      && KindsAt(toks, pos, RenderTail(r.value[|numbers|..]))
      && (r.pos == |toks| || toks[r.pos].kind != "COMMA")
    decreases |toks| - pos
  {
    var r := NumberTailAt(toks, pos, numbers).value;
    if pos < |toks| && toks[pos].kind == "COMMA" {
      var n := NumberAt(toks, pos + 1).value;
      NumberTailAtKinds(toks, n.pos, numbers + [n.value]);
      NumberTailAtExtends(toks, n.pos, numbers + [n.value]);
      assert r.value[|numbers|] == (numbers + [n.value])[|numbers|];
      var rest := r.value[|numbers| + 1..];
      assert r.value[|numbers|..] == [n.value] + rest;
      KindsAtConcat(toks, pos, [Tok("COMMA", ","), NumToken(n.value)], RenderTail(rest));
    } else {
      assert r.value[|numbers|..] == [];
    }
  }

  lemma ConditionAtKinds(toks: seq<Token>, pos: nat)
    requires ConditionAt(toks, pos).Success?
    ensures var r := ConditionAt(toks, pos).value;
      && WellFormedCondition(r.value)
      && r.pos == pos + |RenderCondition(r.value)| && KindsAt(toks, pos, RenderCondition(r.value))
  {
    ConditionAtWellFormed(toks, pos);
  }

  lemma SelectAtKinds(toks: seq<Token>, pos: nat)
    requires pos < |toks| && toks[pos].kind == "SELECT" && QueryAt(toks, pos).Success?
    ensures var r := QueryAt(toks, pos).value;
      WellFormed(r.value) && r.pos == pos + |Render(r.value)| && KindsAt(toks, pos, Render(r.value))
  {
    var r := QueryAt(toks, pos).value;
    var c := ConditionAt(toks, pos + 1).value;
    ConditionAtKinds(toks, pos + 1);
    var rc := RenderCondition(c.value);
    assert r.value == SelectQueryNode(c.value, toks[c.pos + 1].value) && r.pos == c.pos + 2;
    KindsAtConcat(toks, pos, [Tok("SELECT", "select")], rc);
    KindsAtConcat(toks, pos, [Tok("SELECT", "select")] + rc, [Tok("FROM", "from"), Tok("ID", r.value.source)]);
  }

  lemma FilterAtKinds(toks: seq<Token>, pos: nat)
    requires Lexed(toks) && pos < |toks| && toks[pos].kind == "FILTER" && QueryAt(toks, pos).Success?
    ensures var r := QueryAt(toks, pos).value;
      WellFormed(r.value) && r.pos == pos + |Render(r.value)| && KindsAt(toks, pos, Render(r.value))
  {
    var r := QueryAt(toks, pos).value;
    assert r.value == FilterQueryNode(toks[pos + 1].value, toks[pos + 3].value) && r.pos == pos + 4;
    assert toks[pos + 1].kind in {"EVEN", "ODD"};
  }

  lemma QueryAtKinds(toks: seq<Token>, pos: nat)
    requires Lexed(toks) && QueryAt(toks, pos).Success?
    ensures var r := QueryAt(toks, pos).value;
      WellFormed(r.value) && r.pos == pos + |Render(r.value)| && KindsAt(toks, pos, Render(r.value))
  {
    if toks[pos].kind == "SELECT" {
      SelectAtKinds(toks, pos);
    } else {
      FilterAtKinds(toks, pos);
    }
  }

  lemma AggregationAtKinds(toks: seq<Token>, pos: nat)
    requires pos < |toks| && toks[pos].kind in AggregationKinds && AggregationAt(toks, pos).Success?
    ensures var r := AggregationAt(toks, pos).value;
      WellFormed(r.value) && r.pos == pos + |Render(r.value)| && KindsAt(toks, pos, Render(r.value))
  {
    AggregationAtWellFormed(toks, pos);
    LowerSum(); LowerMax(); LowerMin(); LowerCount();
  }

  lemma RhsAtKinds(toks: seq<Token>, pos: nat)
    requires Lexed(toks) && RhsAt(toks, pos).Success?
    ensures var r := RhsAt(toks, pos).value;
      WellFormed(r.value) && r.pos == pos + |Render(r.value)| && KindsAt(toks, pos, Render(r.value))
  {
    if toks[pos].kind in {"SELECT", "FILTER"} {
      QueryAtKinds(toks, pos);
    } else {
      AggregationAtKinds(toks, pos);
    }
  }

  lemma AssignmentAtKinds(toks: seq<Token>, pos: nat)
    requires Lexed(toks) && AssignmentAt(toks, pos).Success?
    ensures var r := AssignmentAt(toks, pos).value;
      WellFormed(r.value) && r.pos == pos + |Render(r.value)| && KindsAt(toks, pos, Render(r.value))
  {
    var r := AssignmentAt(toks, pos).value;
    RhsAtKinds(toks, pos + 2);
    KindsAtConcat(toks, pos, [Tok("ID", r.value.target), Tok("ASSIGN", "=")], Render(r.value.expr));
  }

  lemma DataDeclAtKinds(toks: seq<Token>, pos: nat)
    requires DataDeclAt(toks, pos).Success?
    ensures var r := DataDeclAt(toks, pos).value;
      WellFormed(r.value) && r.pos == pos + |Render(r.value)| && KindsAt(toks, pos, Render(r.value))
  {
    DataDeclAtWellFormed(toks, pos);
    var r := DataDeclAt(toks, pos).value;
    var first := NumberAt(toks, pos + 4).value;
    NumberTailAtKinds(toks, pos + 5, [first.value]);
    var values := r.value.values;
    var head := [Tok("DATA", "data"), Tok("ID", r.value.name), Tok("ASSIGN", "="), Tok("LBRACKET", "["), NumToken(values[0])];
    var tail := RenderTail(values[1..]);
    RenderDataDecl(r.value.name, values);
    assert KindsAt(toks, pos, head);
    KindsAtConcat(toks, pos, head, tail + [Tok("RBRACKET", "]")]) by {
      KindsAtConcat(toks, pos + 5, tail, [Tok("RBRACKET", "]")]);
    }
  }

  lemma StatementAtKinds(toks: seq<Token>, pos: nat)
    requires Lexed(toks) && StatementAt(toks, pos).Success?
    ensures var r := StatementAt(toks, pos).value;
      WellFormed(r.value) && r.pos == pos + |Render(r.value)| && KindsAt(toks, pos, Render(r.value))
  {
    var kind := toks[pos].kind;
    if kind == "DATA" {
      DataDeclAtKinds(toks, pos);
    } else if kind in {"SELECT", "FILTER"} {
      QueryAtKinds(toks, pos);
    } else if kind == "ID" {
      AssignmentAtKinds(toks, pos);
    } else if kind in AggregationKinds {
      AggregationAtKinds(toks, pos);
    }
  }

  lemma {:induction false} StatementsFromKinds(toks: seq<Token>, pos: nat)
    requires Lexed(toks) && pos <= |toks| && StatementsFrom(toks, pos).Success?
    ensures var ns := StatementsFrom(toks, pos).value;
      && (forall i :: 0 <= i < |ns| ==> WellFormed(ns[i]))
      && pos + |RenderAll(ns)| == |toks| && KindsAt(toks, pos, RenderAll(ns))
    decreases |toks| - pos
  {
    if pos < |toks| {
      var s := StatementAt(toks, pos).value;
      StatementAtKinds(toks, pos);
      StatementsFromKinds(toks, s.pos);
      var rest := StatementsFrom(toks, s.pos).value;
      StatementsFromStep(toks, pos);
      var ns := [s.value] + rest;
      assert ns[1..] == rest;
      RenderAllCons(ns);
      KindsAtConcat(toks, pos, Render(s.value), RenderAll(rest));
    }
  }

  /** Round trip, the other way: a program parses only from tokens of exactly
      the types its statements render to, so every other token sequence is
      refused. */
  lemma ParsedKinds(toks: seq<Token>)
    requires Lexed(toks) && ParseFrom(toks, 0).Success?
    ensures var ns := ParseFrom(toks, 0).value.statements;
      && (forall i :: 0 <= i < |ns| ==> WellFormed(ns[i]))
      && |RenderAll(ns)| == |toks| && forall i :: 0 <= i < |toks| ==> toks[i].kind == RenderAll(ns)[i].kind
  {
    StatementsFromKinds(toks, 0);
  }

  // ---------------------------------------------------------------------------
  // The parser object
  // ---------------------------------------------------------------------------

  /** The method's result `r` and cursor `pos` are what `spec` gives: the same
      node with the cursor just after it, or the same error. */
  predicate Follows<T(==)>(r: Result<T, ParseError>, spec: Result<Parsed<T>, ParseError>, pos: nat)
  {
    match spec
    case Success(p) => r == Success(p.value) && pos == p.pos
    case Failure(e) => r == Failure(e)
  }

  class Parser {
    const tokens: seq<Token>
    var pos: nat

    constructor(tokens: seq<Token>)
      ensures this.tokens == tokens && pos == 0
    {
      this.tokens := tokens;
      pos := 0;
    }

    function Current(): Option<Token>
      reads this
    {
      CurrentAt(tokens, pos)
    }

    method Eat(kind: string) returns (r: Result<Token, ParseError>)
      modifies this
      ensures Follows(r, EatAt(tokens, old(pos), kind), pos)
      ensures r.Failure? ==> pos == old(pos)
    {
      var tok := Current();
      if tok.None? {
        return Failure(UnexpectedEnd(kind));
      }
      if tok.value.kind != kind {
        return Failure(Expected(kind, tok.value));
      }
      pos := pos + 1;
      return Success(tok.value);
    }

    method Parse() returns (r: Result<ProgramNode, ParseError>)
      modifies this
      ensures old(pos) <= pos
      ensures r == ParseFrom(tokens, old(pos))
      ensures r.Success? ==> pos >= |tokens|
    {
      var statements: seq<Node> := [];
      ghost var rest := StatementsFrom(tokens, pos);
      assert rest.Success? ==> [] + rest.value == rest.value;
      assert Prepend([], rest) == rest;
      while Current().Some?
        invariant old(pos) <= pos
        invariant StatementsFrom(tokens, old(pos)) == Prepend(statements, StatementsFrom(tokens, pos))
        decreases |tokens| - pos
      {
        ghost var before := pos;
        var stmt := Statement();
        StatementsFromStep(tokens, before);
        if stmt.Failure? {
          return Failure(stmt.error);
        }
        PrependTwice(statements, [stmt.value], StatementsFrom(tokens, pos));
        statements := statements + [stmt.value];
      }
      assert statements + [] == statements;
      return Success(ProgramNode(statements));
    }

    method Statement() returns (r: Result<Node, ParseError>)
      modifies this
      ensures old(pos) <= pos
      ensures Follows(r, StatementAt(tokens, old(pos)), pos)
    {
      var tok := Current();
      if tok.None? {
        return Failure(EndOfInput);
      }
      var kind := tok.value.kind;
      if kind == "DATA" {
        r := DataDecl();
      } else if kind in {"SELECT", "FILTER"} {
        r := Query();
      } else if kind == "ID" {
        r := Assignment();
      } else if kind in AggregationKinds {
        LowerAggregationKinds(kind);
        r := Aggregation();
      } else if kind == "PRINT" {
        r := PrintStmt();
      } else {
        r := Failure(UnexpectedToken(tok.value));
      }
    }

    method DataDecl() returns (r: Result<Node, ParseError>)
      modifies this
      ensures old(pos) <= pos
      ensures Follows(r, DataDeclAt(tokens, old(pos)), pos)
    {
      var _ :- Eat("DATA");
      var name :- Eat("ID");
      var _ :- Eat("ASSIGN");
      var _ :- Eat("LBRACKET");
      var first :- Eat("NUM");
      var n :- NumberValue(first);
      var numbers :- NumberTail([n]);
      var _ :- Eat("RBRACKET");
      return Success(DataDeclarationNode(name.value, numbers));
    }

    /** The comma loop of `data_decl`: `(, NUM)*`, appending to `numbers`. */
    method NumberTail(numbers0: seq<int>) returns (r: Result<seq<int>, ParseError>)
      requires pos <= |tokens|
      modifies this
      ensures old(pos) <= pos
      ensures Follows(r, NumberTailAt(tokens, old(pos), numbers0), pos)
    {
      var numbers := numbers0;
      while Current().Some? && Current().value.kind == "COMMA"
        invariant old(pos) <= pos <= |tokens|
        invariant NumberTailAt(tokens, old(pos), numbers0) == NumberTailAt(tokens, pos, numbers)
        decreases |tokens| - pos
      {
        var _ := Eat("COMMA");
        var t :- Eat("NUM");
        var v :- NumberValue(t);
        numbers := numbers + [v];
      }
      return Success(numbers);
    }

    method Query() returns (r: Result<Node, ParseError>)
      modifies this
      ensures old(pos) <= pos
      ensures Follows(r, QueryAt(tokens, old(pos)), pos)
    {
      var tok := Current();
      if tok.None? {
        return Failure(EndOfInput);
      }
      if tok.value.kind == "FILTER" {
        var _ := Eat("FILTER");
        var modeToken := Current();
        if modeToken.None? {
          return Failure(EndOfInput);
        }
        var mode: string;
        if modeToken.value.kind == "EVEN" {
          var m := Eat("EVEN");
          mode := m.value.value;
        } else if modeToken.value.kind == "ODD" {
          var m := Eat("ODD");
          mode := m.value.value;
        } else {
          return Failure(ExpectedMode(tok.value));
        }
        var _ :- Eat("FROM");
        var source :- Eat("ID");
        return Success(FilterQueryNode(mode, source.value));
      }
      if tok.value.kind == "SELECT" {
        var _ := Eat("SELECT");
        var cond :- ParseCondition();
        var _ :- Eat("FROM");
        var source :- Eat("ID");
        return Success(SelectQueryNode(cond, source.value));
      }
      return Failure(InvalidQuery(tok.value));
    }

    method ParseCondition() returns (r: Result<Condition, ParseError>)
      modifies this
      ensures old(pos) <= pos
      ensures Follows(r, ConditionAt(tokens, old(pos)), pos)
    {
      var tok := Current();
      if tok.None? {
        return Failure(EndOfInput);
      }
      var kind := tok.value.kind;
      if kind == "GT" || kind == "LT" || kind == "ASSIGN" {
        var _ := Eat(kind);
        var t :- Eat("NUM");
        var num :- NumberValue(t);
        var op := if kind == "GT" then ">" else if kind == "LT" then "<" else "=";
        return Success(Condition(op, [num]));
      }
      if kind == "BETWEEN" {
        var _ := Eat("BETWEEN");
        var t :- Eat("NUM");
        var a :- NumberValue(t);
        var _ :- Eat("AND");
        var u :- Eat("NUM");
        var b :- NumberValue(u);
        return Success(Condition("between", [a, b]));
      }
      return Failure(InvalidCondition(tok.value));
    }

    method Assignment() returns (r: Result<Node, ParseError>)
      modifies this
      ensures old(pos) <= pos
      ensures Follows(r, AssignmentAt(tokens, old(pos)), pos)
    {
      var target :- Eat("ID");
      var _ :- Eat("ASSIGN");
      var next := Current();
      if next.None? {
        return Failure(EndOfInput);
      }
      var expr: Node;
      if next.value.kind in {"SELECT", "FILTER"} {
        expr :- Query();
      } else if next.value.kind in AggregationKinds {
        expr :- Aggregation();
      } else {
        return Failure(InvalidRhs(next.value));
      }
      return Success(AssignmentNode(target.value, expr));
    }

    method Aggregation() returns (r: Result<Node, ParseError>)
      modifies this
      ensures old(pos) <= pos
      ensures Follows(r, AggregationAt(tokens, old(pos)), pos)
    {
      var tok := Current();
      if tok.None? {
        return Failure(EndOfInput);
      }
      var func := Lower(tok.value.kind);
      var _ := Eat(tok.value.kind);
      var _ :- Eat("FROM");
      var source :- Eat("ID");
      return Success(AggregationNode(func, source.value));
    }

    method PrintStmt() returns (r: Result<Node, ParseError>)
      modifies this
      ensures old(pos) <= pos
      ensures Follows(r, PrintAt(tokens, old(pos)), pos)
    {
      var _ :- Eat("PRINT");
      var target :- Eat("ID");
      return Success(PrintNode(target.value));
    }
  }
}
