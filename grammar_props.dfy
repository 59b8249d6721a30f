/** Properties of the expression grammar: cursor primitives, the dotted-path
    rule, the shape of a primary, and precedence with left associativity,
    stated as a round trip through a minimal-parenthesis token renderer. */
module GrammarProps {
  import opened Results
  import opened Text
  import opened Values
  import opened Tokens
  import opened Lexer
  import opened Ast
  import opened Grammar

  // ------------------------------------------------------------ eat / match

  /** `eat` throws `Expected X but got Y` on a type mismatch and otherwise
      advances by exactly one; `match` advances only when it succeeds. */
  lemma EatAndMatch(toks: TokenList, i: nat, k: Kind)
    requires i < |toks|
    ensures toks[i].kind != k ==> Eat(toks, i, k) == Err("Expected " + KindName(k) + " but got " + KindName(toks[i].kind))
    ensures toks[i].kind == k ==> Eat(toks, i, k) == Ok(Parsed(toks[i], i + 1))
    ensures Match(toks, i, k) == Ok(Parsed(toks[i].kind == k, if toks[i].kind == k then i + 1 else i))
  {
  }

  // ------------------------------------------------------------ dotted paths

  /** Step `m` of a dotted path read from `j`: a DOT immediately followed by an IDENT. */
  predicate FoldedStep(toks: TokenList, j: nat, m: nat, seg: string) {
    j + 2 * m + 1 < |toks| && Adjacent(toks[j + 2 * m], toks[j + 2 * m + 1])
    && seg == TokText(toks[j + 2 * m + 1])
  }

  /** Every segment of `extra` comes from an adjacent DOT-IDENT pair, in order from `j`. */
  predicate FoldedSteps(toks: TokenList, j: nat, extra: seq<string>) {
    forall m :: 0 <= m < |extra| ==> FoldedStep(toks, j, m, extra[m])
  }

  /** The path loop takes exactly the adjacent DOT-IDENT pairs from `j` on and
      stops at the first pair that is not adjacent. */
  lemma {:induction false} PathTailFolds(toks: TokenList, segs: seq<string>, j: nat)
    requires PathTail(toks, segs, j).Ok?
    ensures var p := PathTail(toks, segs, j).value;
      p.value == segs + p.value[|segs|..]
      && p.next == j + 2 * (|p.value| - |segs|)
      && FoldedSteps(toks, j, p.value[|segs|..])
      && !(p.next + 1 < |toks| && Adjacent(toks[p.next], toks[p.next + 1]))
    decreases |toks| - j
  {
    var p := PathTail(toks, segs, j).value;
    assert p.value[..|segs|] == segs;
    assert p.value == p.value[..|segs|] + p.value[|segs|..];
    var nextTok := At(toks, j + 1);
    if toks[j].kind == DOT && nextTok.Some? && nextTok.value.kind == IDENT
       && nextTok.value.pos - |TokText(nextTok.value)| == toks[j].pos + 1
    {
      var segs' := segs + [TokText(toks[j + 1])];
      PathTailFolds(toks, segs', j + 2);
      assert p == PathTail(toks, segs', j + 2).value;
      DropCons(p.value, segs, TokText(toks[j + 1]));
      FoldedStepsCons(toks, j, TokText(toks[j + 1]), p.value[|segs'|..]);
    }
  }

  /** A sequence that starts with `segs + [x]` continues, after `segs`, with `x`. */
  lemma DropCons(v: seq<string>, segs: seq<string>, x: string)
    requires |v| >= |segs| + 1 && v[..|segs| + 1] == segs + [x]
    ensures v[|segs|..] == [x] + v[|segs| + 1..]
  {
    assert v[|segs|] == (segs + [x])[|segs|];
  }

  lemma FoldedStepsCons(toks: TokenList, j: nat, x: string, rest: seq<string>)
    requires FoldedStep(toks, j, 0, x) && FoldedSteps(toks, j + 2, rest)
    ensures FoldedSteps(toks, j, [x] + rest)
  {
    var extra := [x] + rest;
    forall m | 0 <= m < |extra|
      ensures FoldedStep(toks, j, m, extra[m])
    {
      if m > 0 {
        assert extra[m] == rest[m - 1];
        assert FoldedStep(toks, j + 2, m - 1, rest[m - 1]);
        assert j + 2 + 2 * (m - 1) == j + 2 * m;
      }
    }
  }

  // ------------------------------------------------------------ primaries

  /** In the modular parser an IDENT primary is a `Call` with an upper-cased
      name when it is a single segment followed by `(`, a `Field` holding the
      segments as written when it has two or more, and otherwise a `Var` with
      a lower-cased name. */
  lemma IdentPrimary(toks: TokenList, i: nat)
    requires i < |toks| && toks[i].kind == IDENT
    requires PathTail(toks, [TokText(toks[i])], i + 1).Ok?
    ensures var p := PathTail(toks, [TokText(toks[i])], i + 1).value;
      var r := ParsePrimary(Modular, toks, i);
      p.next < |toks| &&
      (if |p.value| == 1 && toks[p.next].kind == LPAREN then
         r == CallRest(Modular, toks, TokText(toks[i]), p.next + 1)
       else if |p.value| > 1 then r == Ok(Parsed(Field(p.value), p.next))
       else r == Ok(Parsed(Var(Lower(TokText(toks[i]))), p.next)))
  {
    var p := PathTail(toks, [TokText(toks[i])], i + 1).value;
    assert p.value[..1] == [TokText(toks[i])];
    if |p.value| == 1 {
      assert p.value == [TokText(toks[i])];
    }
  }

  /** A call's name is upper-cased whatever the dialect. */
  lemma CallNameUpper(d: Dialect, toks: TokenList, name: string, j: nat)
    requires CallRest(d, toks, name, j).Ok?
    ensures CallRest(d, toks, name, j).value.value.Call?
    ensures CallRest(d, toks, name, j).value.value.name == Upper(name)
  {
  }

  /** `?` parses to the `Unknown` node in the modular parser and is not an
      expression in the legacy one. */
  lemma UnknownPrimary(d: Dialect, toks: TokenList, i: nat)
    requires i < |toks| && toks[i].kind == UNKNOWN
    ensures d == Modular ==> ParsePrimary(d, toks, i) == Ok(Parsed(Ast.Unknown, i + 1))
    ensures d == Legacy ==> ParsePrimary(d, toks, i) == Err("Unexpected token in expression: UNKNOWN")
  {
  }

  /** PRINT is a keyword of the legacy lexer, so no legacy expression can
      start with it: `PRINT(x)` in an expression is rejected before the
      evaluator's PRINT call could be reached. */
  lemma PrintNotAnExpression(toks: TokenList, j: nat)
    requires j < |toks| && toks[j].kind == Keyword("PRINT")
    ensures ParseExpr(Legacy, toks, j) == Err("Unexpected token in expression: PRINT")
  {
    var e := UnexpectedInExpression(toks[j].kind);
    assert e == "Unexpected token in expression: PRINT";
    assert ParsePrimary(Legacy, toks, j) == Err(e);
    assert ParseUnary(Legacy, toks, j) == Err(e);
    assert ParseMul(Legacy, toks, j) == Err(e);
    assert ParseAdd(Legacy, toks, j) == Err(e);
    assert ParseCompare(Legacy, toks, j) == Err(e);
    assert ParseNot(Legacy, toks, j) == Err(e);
    assert ParseAnd(Legacy, toks, j) == Err(e);
  }

  // ------------------------------------------------------------ rendering

  function OpTok(op: string): Token { Token(OP, TStr(op), 0) }
  function KwTok(w: string): Token { Token(Keyword(w), TStr(w), 0) }
  const LParen := Token(LPAREN, TStr("("), 0)
  const RParen := Token(RPAREN, TStr(")"), 0)

  /** Binding strength: 0 OR, 1 AND, 2 NOT, 3 comparison, 4 `+ -`, 5 `* /`,
      6 unary sign, 7 primary. */
  function Level(e: Expr): nat {
    match e
    case Logical(op, _, _) => if op == "OR" then 0 else 1
    case Unary(op, _) => if op == "NOT" then 2 else 6
    case Binary(op, _, _) => if op in CompareOps then 3 else if op in AddOps then 4 else 5
    case _ => 7
  }

  /** The expressions the renderer covers: every operator the grammar builds,
      with names already in the case the parser gives them. */
  predicate Renderable(d: Dialect, e: Expr) {
    match e
    case Number(_) => true
    case String(_) => true
    case Var(name) => Lower(name) == name
    case Unknown => d == Modular
    case Unary(op, arg) => (op == "NOT" || op in AddOps) && Renderable(d, arg)
    case Binary(op, l, r) =>
      (op in CompareOps || op in AddOps || op in MulOps) && Renderable(d, l) && Renderable(d, r)
    case Logical(op, l, r) => (op == "OR" || op == "AND") && Renderable(d, l) && Renderable(d, r)
    case Field(_) => false
    case Call(_, _) => false
  }

  /** Tokens of `e` in a context that needs binding strength `c`: parenthesised
      only when `e` binds more loosely. */
  function Render(e: Expr, c: nat): (r: seq<Token>)
    ensures |r| >= 1
    decreases e, 1
  {
    if Level(e) < c then [LParen] + Bare(e) + [RParen] else Bare(e)
  }

  /** Tokens of `e` without outer parentheses; a left operand may sit at the
      same strength and a right operand must bind tighter. */
  function Bare(e: Expr): (r: seq<Token>)
    ensures |r| >= 1
    decreases e, 0
  {
    match e
    case Number(n) => [Token(NUMBER, TNum(n), 0)]
    case String(s) => [Token(STRING, TStr(s), 0)]
    case Var(name) => [Token(IDENT, TStr(name), 0)]
    case Unary(op, arg) =>
      if op == "NOT" then [KwTok("NOT")] + Render(arg, 2) else [OpTok(op)] + Render(arg, 6)
    case Binary(op, l, r) => Render(l, Level(e)) + [OpTok(op)] + Render(r, Level(e) + 1)
    case Logical(op, l, r) => Render(l, Level(e)) + [KwTok(op)] + Render(r, Level(e) + 1)
    case _ => [Token(UNKNOWN, TNull, 0)]
  }

  /** The strength at which a token continues an expression, 8 when it cannot. */
  function Binds(t: Token): nat {
    if t.kind == Keyword("OR") then 0
    else if t.kind == Keyword("AND") then 1
    else if IsOp(t, CompareOps) then 3
    else if IsOp(t, AddOps) then 4
    else if IsOp(t, MulOps) then 5
    else 8
  }

  /** `t` may follow an operand parsed at strength `L`: it neither continues a
      tighter level nor extends a primary. */
  predicate Ends(L: nat, t: Token) {
    t.kind != LPAREN && t.kind != DOT && (Binds(t) <= L || Binds(t) == 8)
  }

  predicate IsAt(toks: TokenList, j: nat, r: seq<Token>) {
    j + |r| <= |toks| && forall m :: 0 <= m < |r| ==> toks[j + m] == r[m]
  }

  lemma IsAtHead(toks: TokenList, j: nat, r: seq<Token>)
    requires IsAt(toks, j, r) && |r| > 0
    ensures toks[j] == r[0]
  {
    assert toks[j + 0] == r[0];
  }

  lemma IsAtSplit(toks: TokenList, j: nat, a: seq<Token>, b: seq<Token>)
    requires IsAt(toks, j, a + b)
    ensures IsAt(toks, j, a) && IsAt(toks, j + |a|, b)
  {
    forall m | 0 <= m < |a| ensures toks[j + m] == a[m] {
      assert (a + b)[m] == a[m];
    }
    forall m | 0 <= m < |b| ensures toks[j + |a| + m] == b[m] {
      assert (a + b)[|a| + m] == b[m];
    }
  }

  // ------------------------------------------------------------ levels

  predicate BinaryLevel(L: nat) { L == 0 || L == 1 || L == 3 || L == 4 || L == 5 }

  function ParseLevel(L: nat, d: Dialect, toks: TokenList, j: nat): Result<Parsed<Expr>> {
    if L == 0 then ParseOr(d, toks, j)
    else if L == 1 then ParseAnd(d, toks, j)
    else if L == 2 then ParseNot(d, toks, j)
    else if L == 3 then ParseCompare(d, toks, j)
    else if L == 4 then ParseAdd(d, toks, j)
    else if L == 5 then ParseMul(d, toks, j)
    else if L == 6 then ParseUnary(d, toks, j)
    else ParsePrimary(d, toks, j)
  }

  function TailLevel(L: nat, d: Dialect, toks: TokenList, acc: Expr, j: nat): Result<Parsed<Expr>> {
    if L == 0 then OrTail(d, toks, acc, j)
    else if L == 1 then AndTail(d, toks, acc, j)
    else if L == 3 then CompareTail(d, toks, acc, j)
    else if L == 4 then AddTail(d, toks, acc, j)
    else if L == 5 then MulTail(d, toks, acc, j)
    else Ok(Parsed(acc, j))
  }

  function Node(L: nat, op: string, l: Expr, r: Expr): Expr {
    if L <= 1 then Logical(op, l, r) else Binary(op, l, r)
  }

  lemma ParseLevelBinary(L: nat, d: Dialect, toks: TokenList, j: nat)
    requires BinaryLevel(L)
    ensures ParseLevel(L, d, toks, j) ==
      (var l :- ParseLevel(L + 1, d, toks, j); TailLevel(L, d, toks, l.value, l.next))
  {
  }

  lemma TailLevelStep(L: nat, d: Dialect, toks: TokenList, acc: Expr, k: nat)
    requires BinaryLevel(L) && k < |toks| && Binds(toks[k]) == L
    ensures TailLevel(L, d, toks, acc, k) ==
      (var rhs :- ParseLevel(L + 1, d, toks, k + 1);
       TailLevel(L, d, toks, Node(L, TokText(toks[k]), acc, rhs.value), rhs.next))
  {
  }

  lemma TailLevelStop(L: nat, d: Dialect, toks: TokenList, acc: Expr, k: nat)
    requires k < |toks| && Binds(toks[k]) != L
    ensures TailLevel(L, d, toks, acc, k) == Ok(Parsed(acc, k))
  {
  }

  /** Only a NOT-expression in a context that admits it renders starting with NOT. */
  lemma {:induction false} FirstToken(e: Expr, c: nat)
    ensures Render(e, c)[0].kind == Keyword("NOT") ==> Level(e) <= 2 && c <= 2
    decreases e
  {
    if Level(e) < c {
      assert Render(e, c)[0] == LParen;
    } else {
      assert Render(e, c) == Bare(e);
      match e
      case Binary(op, l, r) =>
        FirstToken(l, Level(e));
        assert Bare(e)[0] == Render(l, Level(e))[0];
      case Logical(op, l, r) =>
        FirstToken(l, Level(e));
        assert Bare(e)[0] == Render(l, Level(e))[0];
      case Unary(op, arg) =>
        if op == "NOT" {
          assert Bare(e)[0] == KwTok("NOT");
        } else {
          assert Bare(e)[0] == OpTok(op);
        }
      case Number(n) =>
      case String(s) =>
      case Var(name) =>
      case Field(p) =>
      case Call(name, args) =>
      case Unknown =>
    }
  }

  /** Parsing at strength `L` over the tokens of `e` yields `e` and hands the
      following token to that level's loop. */
  lemma {:induction false} ParsesAt(L: nat, d: Dialect, toks: TokenList, e: Expr, j: nat)
    requires L <= 7 && Renderable(d, e)
    requires IsAt(toks, j, Render(e, L))
    requires j + |Render(e, L)| < |toks| && Ends(L, toks[j + |Render(e, L)|])
    ensures ParseLevel(L, d, toks, j) == TailLevel(L, d, toks, e, j + |Render(e, L)|)
    decreases |Render(e, L)|, 8 - L
  {
    if Level(e) != L && L < 7 {
      DescendCase(L, d, toks, e, j);
    } else if Level(e) < L {
      ParenCase(L, d, toks, e, j);
    } else {
      PrimaryOrOperator(L, d, toks, e, j);
    }
  }

  /** `e` binds more tightly than `L`: the next level reads it over the same tokens. */
  lemma {:induction false} DescendCase(L: nat, d: Dialect, toks: TokenList, e: Expr, j: nat)
    requires L < 7 && Level(e) != L && Renderable(d, e)
    requires IsAt(toks, j, Render(e, L))
    requires j + |Render(e, L)| < |toks| && Ends(L, toks[j + |Render(e, L)|])
    ensures ParseLevel(L, d, toks, j) == TailLevel(L, d, toks, e, j + |Render(e, L)|)
    decreases |Render(e, L)|, 8 - L, 0
  {
    var k := j + |Render(e, L)|;
    assert Render(e, L + 1) == Render(e, L);
    ParsesAt(L + 1, d, toks, e, j);
    TailLevelStop(L + 1, d, toks, e, k);
    Descend(L, d, toks, e, j, k);
  }

  /** `e` binds more loosely than the primary level: it is parenthesised. */
  lemma {:induction false} ParenCase(L: nat, d: Dialect, toks: TokenList, e: Expr, j: nat)
    requires L == 7 && Level(e) < L && Renderable(d, e)
    requires IsAt(toks, j, Render(e, L))
    requires j + |Render(e, L)| < |toks| && Ends(L, toks[j + |Render(e, L)|])
    ensures ParseLevel(L, d, toks, j) == TailLevel(L, d, toks, e, j + |Render(e, L)|)
    decreases |Render(e, L)|, 0
  {
    var k := j + |Render(e, L)|;
    var inner := Bare(e);
    assert Render(e, L) == [LParen] + inner + [RParen];
    IsAtSplit(toks, j, [LParen] + inner, [RParen]);
    IsAtSplit(toks, j, [LParen], inner);
    IsAtHead(toks, j, [LParen]);
    IsAtHead(toks, j + 1 + |inner|, [RParen]);
    assert Render(e, 0) == inner;
    ParsesAt(0, d, toks, e, j + 1);
    TailLevelStop(0, d, toks, e, k - 1);
    Parenthesised(d, toks, e, j, k);
  }

  /** A level that does not build `e`'s top node passes the tokens down unchanged. */
  lemma Descend(L: nat, d: Dialect, toks: TokenList, e: Expr, j: nat, k: nat)
    requires L < 7 && Level(e) != L
    requires IsAt(toks, j, Render(e, L))
    requires ParseLevel(L + 1, d, toks, j) == Ok(Parsed(e, k))
    ensures ParseLevel(L, d, toks, j) == TailLevel(L, d, toks, e, k)
  {
    IsAtHead(toks, j, Render(e, L));
    if L == 2 {
      FirstToken(e, 2);
      assert Match(toks, j, Keyword("NOT")) == Ok(Parsed(false, j));
    } else if L == 6 {
      if Level(e) < 6 {
        assert Render(e, L)[0] == LParen;
      } else {
        assert Render(e, L) == Bare(e);
      }
      assert !IsOp(toks[j], AddOps);
    }
  }

  /** `( e )` at the primary level. */
  lemma Parenthesised(d: Dialect, toks: TokenList, e: Expr, j: nat, k: nat)
    requires j + 1 < k < |toks| && toks[j] == LParen && toks[k - 1] == RParen
    requires ParseExpr(d, toks, j + 1) == Ok(Parsed(e, k - 1))
    ensures ParsePrimary(d, toks, j) == Ok(Parsed(e, k))
  {
    assert Match(toks, j, LPAREN) == Ok(Parsed(true, j + 1));
    assert Eat(toks, k - 1, RPAREN) == Ok(Parsed(RParen, k));
  }

  /** The case `Level(e) == L` of `ParsesAt`. */
  lemma {:induction false} PrimaryOrOperator(L: nat, d: Dialect, toks: TokenList, e: Expr, j: nat)
    requires L <= 7 && Renderable(d, e) && Level(e) == L
    requires IsAt(toks, j, Render(e, L))
    requires j + |Render(e, L)| < |toks| && Ends(L, toks[j + |Render(e, L)|])
    ensures ParseLevel(L, d, toks, j) == TailLevel(L, d, toks, e, j + |Render(e, L)|)
    decreases |Render(e, L)|, 0
  {
    match e
    case Binary(op, l, r) =>
      BinaryOperator(L, d, toks, e, op, l, r, OpTok(op), j);
    case Logical(op, l, r) =>
      BinaryOperator(L, d, toks, e, op, l, r, KwTok(op), j);
    case Unary(op, arg) =>
      UnaryOperator(L, d, toks, e, op, arg, j);
    case _ =>
      LeafPrimary(L, d, toks, e, j);
  }

  /** A NOT or sign node is its operator token followed by its operand at the same strength. */
  lemma {:induction false} UnaryOperator(
    L: nat, d: Dialect, toks: TokenList, e: Expr, op: string, arg: Expr, j: nat)
    requires L <= 7 && Renderable(d, e) && Level(e) == L && e == Unary(op, arg)
    requires IsAt(toks, j, Render(e, L))
    requires j + |Render(e, L)| < |toks| && Ends(L, toks[j + |Render(e, L)|])
    ensures ParseLevel(L, d, toks, j) == TailLevel(L, d, toks, e, j + |Render(e, L)|)
    decreases |Render(e, L)|, 0, 0
  {
    var opTok := if op == "NOT" then KwTok("NOT") else OpTok(op);
    assert Render(e, L) == [opTok] + Render(arg, L);
    IsAtSplit(toks, j, [opTok], Render(arg, L));
    IsAtHead(toks, j, [opTok]);
    ParsesAt(L, d, toks, arg, j + 1);
  }

  /** A number, string, variable or `?` is the one token under the cursor. */
  lemma LeafPrimary(L: nat, d: Dialect, toks: TokenList, e: Expr, j: nat)
    requires L <= 7 && Renderable(d, e) && Level(e) == L
    requires e.Number? || e.String? || e.Var? || e.Unknown?
    requires IsAt(toks, j, Render(e, L))
    requires j + |Render(e, L)| < |toks| && Ends(L, toks[j + |Render(e, L)|])
    ensures ParseLevel(L, d, toks, j) == TailLevel(L, d, toks, e, j + |Render(e, L)|)
  {
    assert Render(e, L) == Bare(e);
    IsAtHead(toks, j, Render(e, L));
    if e.Var? && d == Modular {
      assert PathTail(toks, [e.name], j + 1) == Ok(Parsed([e.name], j + 1));
    }
  }

  lemma {:induction false} BinaryOperator(
    L: nat, d: Dialect, toks: TokenList, e: Expr, op: string, l: Expr, r: Expr, opTok: Token, j: nat)
    requires L <= 7 && Renderable(d, e) && Level(e) == L
    requires (e == Binary(op, l, r) && opTok == OpTok(op)) || (e == Logical(op, l, r) && opTok == KwTok(op))
    requires IsAt(toks, j, Render(e, L))
    requires j + |Render(e, L)| < |toks| && Ends(L, toks[j + |Render(e, L)|])
    ensures ParseLevel(L, d, toks, j) == TailLevel(L, d, toks, e, j + |Render(e, L)|)
    decreases |Render(e, L)|, 0, 0
  {
    var k := j + |Render(e, L)|;
    var rl := Render(l, L);
    var rr := Render(r, L + 1);
    assert Render(e, L) == rl + [opTok] + rr;
    IsAtSplit(toks, j, rl + [opTok], rr);
    IsAtSplit(toks, j, rl, [opTok]);
    var k1 := j + |rl|;
    IsAtHead(toks, k1, [opTok]);
    assert Binds(opTok) == L;
    ParsesAt(L, d, toks, l, j);
    ParsesAt(L + 1, d, toks, r, k1 + 1);
    TailLevelStop(L + 1, d, toks, r, k);
    Combine(L, d, toks, op, l, r, j, k1, k);
    assert Node(L, op, l, r) == e;
  }

  /** One operator step of a binary level's loop. */
  lemma Combine(L: nat, d: Dialect, toks: TokenList, op: string, l: Expr, r: Expr, j: nat, k1: nat, k: nat)
    requires BinaryLevel(L) && k1 < |toks| && Binds(toks[k1]) == L && TokText(toks[k1]) == op
    requires ParseLevel(L, d, toks, j) == TailLevel(L, d, toks, l, k1)
    requires ParseLevel(L + 1, d, toks, k1 + 1) == Ok(Parsed(r, k))
    ensures ParseLevel(L, d, toks, j) == TailLevel(L, d, toks, Node(L, op, l, r), k)
  {
    TailLevelStep(L, d, toks, l, k1);
  }

  /** Precedence and left associativity: the parser reads back every renderable
      expression from its minimal-parenthesis rendering, whatever token ends it
      as long as that token cannot continue an expression. */
  lemma RenderRoundTrip(d: Dialect, toks: TokenList, e: Expr, j: nat)
    requires Renderable(d, e)
    requires IsAt(toks, j, Render(e, 0))
    requires j + |Render(e, 0)| < |toks| && Binds(toks[j + |Render(e, 0)|]) == 8
    requires toks[j + |Render(e, 0)|].kind != LPAREN && toks[j + |Render(e, 0)|].kind != DOT
    ensures ParseExpr(d, toks, j) == Ok(Parsed(e, j + |Render(e, 0)|))
  {
    ParsesAt(0, d, toks, e, j);
    TailLevelStop(0, d, toks, e, j + |Render(e, 0)|);
  }

  predicate AllWellTyped(ts: seq<Token>) { forall m :: 0 <= m < |ts| ==> WellTyped(ts[m]) }

  lemma AllWellTypedJoin(a: seq<Token>, b: seq<Token>)
    requires AllWellTyped(a) && AllWellTyped(b)
    ensures AllWellTyped(a + b)
  {
    forall m | 0 <= m < |a + b| ensures WellTyped((a + b)[m]) {
      if m < |a| { assert (a + b)[m] == a[m]; } else { assert (a + b)[m] == b[m - |a|]; }
    }
  }

  /** Every token of a rendering carries the value its kind calls for. */
  lemma {:induction false} RenderWellTyped(e: Expr, c: nat)
    ensures AllWellTyped(Render(e, c)) && AllWellTyped(Bare(e))
    decreases e, 1
  {
    BareWellTyped(e);
    if Level(e) < c {
      AllWellTypedJoin([LParen], Bare(e));
      AllWellTypedJoin([LParen] + Bare(e), [RParen]);
    }
  }

  lemma {:induction false} BareWellTyped(e: Expr)
    ensures AllWellTyped(Bare(e))
    decreases e, 0
  {
    match e
    case Unary(op, arg) =>
      var c := if op == "NOT" then 2 else 6;
      var t := if op == "NOT" then KwTok("NOT") else OpTok(op);
      RenderWellTyped(arg, c);
      assert WellTyped(t);
      AllWellTypedJoin([t], Render(arg, c));
    case Binary(op, l, r) =>
      RenderWellTyped(l, Level(e));
      RenderWellTyped(r, Level(e) + 1);
      assert WellTyped(OpTok(op));
      AllWellTypedJoin(Render(l, Level(e)), [OpTok(op)]);
      AllWellTypedJoin(Render(l, Level(e)) + [OpTok(op)], Render(r, Level(e) + 1));
    case Logical(op, l, r) =>
      RenderWellTyped(l, Level(e));
      RenderWellTyped(r, Level(e) + 1);
      assert WellTyped(KwTok(op));
      AllWellTypedJoin(Render(l, Level(e)), [KwTok(op)]);
      AllWellTypedJoin(Render(l, Level(e)) + [KwTok(op)], Render(r, Level(e) + 1));
    case _ =>
  }

  /** The round trip on a token list that holds just the rendering and EOF. */
  lemma ParseRendered(d: Dialect, e: Expr)
    requires Renderable(d, e)
    ensures AllWellTyped(Render(e, 0) + [Token(EOF, TNull, 0)])
    ensures ParseExpr(d, Render(e, 0) + [Token(EOF, TNull, 0)], 0) == Ok(Parsed(e, |Render(e, 0)|))
  {
    var ts := Render(e, 0) + [Token(EOF, TNull, 0)];
    RenderWellTyped(e, 0);
    assert AllWellTyped(ts) by {
      forall m | 0 <= m < |ts| ensures WellTyped(ts[m]) {
        if m < |Render(e, 0)| {
          assert ts[m] == Render(e, 0)[m];
        }
      }
    }
    var toks: TokenList := ts;
    forall m | 0 <= m < |Render(e, 0)| ensures toks[0 + m] == Render(e, 0)[m] {
    }
    RenderRoundTrip(d, toks, e, 0);
  }
}
