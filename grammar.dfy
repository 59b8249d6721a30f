/** The recursive-descent expression grammar of both parsers, as functions from
    a token array and a cursor to a node and the new cursor, or the message of
    the `SyntaxError` (or `TypeError`) the parser throws. */
module Grammar {
  import opened Results
  import opened Text
  import opened Values
  import opened Tokens
  import opened Lexer
  import opened Ast

  /** A parsed value and the cursor after it. */
  datatype Parsed<+T> = Parsed(value: T, next: nat)

  /** Reading `.type` of the `undefined` that `peek()` returns past the last token. */
  const UndefinedType := "TypeError: Cannot read properties of undefined (reading 'type')"

  /** `this.toks[j]`, which may be undefined. */
  function At(toks: TokenList, j: nat): Option<Token> {
    if j < |toks| then Some(toks[j]) else None
  }

  /** `peek()` followed by a property access. */
  function Peek(toks: TokenList, i: nat): (r: Result<Token>)
    ensures r.Ok? <==> i < |toks|
    ensures r.Ok? ==> r.value == toks[i]
  {
    if i < |toks| then Ok(toks[i]) else Err(UndefinedType)
  }

  function ExpectedMessage(k: Kind, got: Kind): string {
    "Expected " + KindName(k) + " but got " + KindName(got)
  }

  /** `eat(type)`. */
  function Eat(toks: TokenList, i: nat, k: Kind): (r: Result<Parsed<Token>>)
    ensures r.Ok? ==> i < |toks| && toks[i].kind == k && r.value == Parsed(toks[i], i + 1)
  {
    var t :- Peek(toks, i);
    if t.kind != k then Err(ExpectedMessage(k, t.kind)) else Ok(Parsed(t, i + 1))
  }

  /** `match(type)`: whether the token was taken, and the cursor after. */
  function Match(toks: TokenList, i: nat, k: Kind): (r: Result<Parsed<bool>>)
    ensures r.Ok? ==> i < |toks| && r.value.next == (if r.value.value then i + 1 else i)
  {
    var t :- Peek(toks, i);
    if t.kind == k then Ok(Parsed(true, i + 1)) else Ok(Parsed(false, i))
  }

  /** `optionalDot()`. */
  function OptionalDot(toks: TokenList, i: nat): (r: Result<nat>)
    ensures r.Ok? ==> r.value == i || r.value == i + 1
  {
    var m :- Match(toks, i, DOT);
    Ok(m.next)
  }

  /** `eat` of whatever token is next: only running off the end fails. */
  function EatNext(toks: TokenList, i: nat): (r: Result<Parsed<Token>>)
    ensures r.Ok? <==> i < |toks|
    ensures r.Ok? ==> r.value == Parsed(toks[i], i + 1)
  {
    var t :- Peek(toks, i);
    Eat(toks, i, t.kind)
  }

  predicate IsOp(t: Token, ops: set<string>) {
    t.kind == OP && t.value.TStr? && t.value.s in ops
  }

  const CompareOps: set<string> := {"=", "<>", "<", "<=", ">", ">=", "=="}
  const AddOps: set<string> := {"+", "-"}
  const MulOps: set<string> := {"*", "/"}

  /** The string an IDENT (or other string-valued) token carries. */
  function TokText(t: Token): string { if t.value.TStr? then t.value.s else "" }

  /** `isKeywordToken(tok, kw)` (and its copies in the statement modules): the
      token exists and is the keyword `kw`, or an IDENT spelling it in any case. */
  predicate IsKeywordToken(t: Option<Token>, kw: string) {
    t.Some? && (KindName(t.value.kind) == kw || (t.value.kind == IDENT && Upper(TokText(t.value)) == kw))
  }

  /** The token exists and is the operator `-`. */
  predicate IsHyphen(t: Option<Token>) {
    t.Some? && t.value.kind == OP && t.value.value == TStr("-")
  }

  /** `String(tok.value || tok.type)`: the value when it is truthy, else the type name. */
  function ValueOrType(t: Token): string {
    match t.value
    case TStr(s) => if s != "" then s else KindName(t.kind)
    case TNum(n) => if n.NaN? || n == Fin(0.0) then KindName(t.kind) else NumberToString(n)
    case TNull => KindName(t.kind)
  }

  /** The dotted-path loop: while a DOT is followed by an IDENT that starts
      right after it (the IDENT's `pos` is its end offset), take both. */
  function PathTail(toks: TokenList, segs: seq<string>, j: nat): (r: Result<Parsed<seq<string>>>)
    ensures r.Ok? ==> j <= r.value.next < |toks| && |r.value.value| >= |segs|
    ensures r.Ok? ==> r.value.value[..|segs|] == segs
    decreases |toks| - j
  {
    var dotTok :- Peek(toks, j);
    var nextTok := At(toks, j + 1);
    if dotTok.kind == DOT && nextTok.Some? && nextTok.value.kind == IDENT
       && nextTok.value.pos - |TokText(nextTok.value)| == dotTok.pos + 1
    then
      var r := PathTail(toks, segs + [TokText(nextTok.value)], j + 2);
      if r.Ok? then
        assert r.value.value[..|segs|] == (r.value.value[..|segs| + 1])[..|segs|];
        r
      else r
    else Ok(Parsed(segs, j))
  }

  /** Two tokens are a dotted step when the IDENT begins at the character after the DOT. */
  predicate Adjacent(dotTok: Token, identTok: Token) {
    dotTok.kind == DOT && identTok.kind == IDENT && identTok.pos - |TokText(identTok)| == dotTok.pos + 1
  }

  /** `parseFieldPath`. */
  function FieldPath(toks: TokenList, i: nat): (r: Result<Parsed<seq<string>>>)
    ensures r.Ok? ==> i < r.value.next < |toks| && |r.value.value| >= 1
  {
    var id :- Eat(toks, i, IDENT);
    PathTail(toks, [TokText(id.value)], id.next)
  }

  // -------------------------------------------------------------- expressions

  function ParseExpr(d: Dialect, toks: TokenList, i: nat): (r: Result<Parsed<Expr>>)
    ensures r.Ok? ==> i < r.value.next <= |toks|
    decreases |toks| - i, 20
  {
    ParseOr(d, toks, i)
  }

  function ParseOr(d: Dialect, toks: TokenList, i: nat): (r: Result<Parsed<Expr>>)
    ensures r.Ok? ==> i < r.value.next <= |toks|
    decreases |toks| - i, 19
  {
    var l :- ParseAnd(d, toks, i);
    OrTail(d, toks, l.value, l.next)
  }

  function OrTail(d: Dialect, toks: TokenList, acc: Expr, j: nat): (r: Result<Parsed<Expr>>)
    ensures r.Ok? ==> j <= r.value.next <= |toks|
    decreases |toks| - j, 19
  {
    var m :- Match(toks, j, Keyword("OR"));
    if !m.value then Ok(Parsed(acc, j))
    else
      var rhs :- ParseAnd(d, toks, m.next);
      OrTail(d, toks, Logical("OR", acc, rhs.value), rhs.next)
  }

  function ParseAnd(d: Dialect, toks: TokenList, i: nat): (r: Result<Parsed<Expr>>)
    ensures r.Ok? ==> i < r.value.next <= |toks|
    decreases |toks| - i, 18
  {
    var l :- ParseNot(d, toks, i);
    AndTail(d, toks, l.value, l.next)
  }

  function AndTail(d: Dialect, toks: TokenList, acc: Expr, j: nat): (r: Result<Parsed<Expr>>)
    ensures r.Ok? ==> j <= r.value.next <= |toks|
    decreases |toks| - j, 18
  {
    var m :- Match(toks, j, Keyword("AND"));
    if !m.value then Ok(Parsed(acc, j))
    else
      var rhs :- ParseNot(d, toks, m.next);
      AndTail(d, toks, Logical("AND", acc, rhs.value), rhs.next)
  }

  function ParseNot(d: Dialect, toks: TokenList, i: nat): (r: Result<Parsed<Expr>>)
    ensures r.Ok? ==> i < r.value.next <= |toks|
    decreases |toks| - i, 17
  {
    var m :- Match(toks, i, Keyword("NOT"));
    if m.value then
      var arg :- ParseNot(d, toks, m.next);
      Ok(Parsed(Ast.Unary("NOT", arg.value), arg.next))
    else ParseCompare(d, toks, i)
  }

  function ParseCompare(d: Dialect, toks: TokenList, i: nat): (r: Result<Parsed<Expr>>)
    ensures r.Ok? ==> i < r.value.next <= |toks|
    decreases |toks| - i, 16
  {
    var l :- ParseAdd(d, toks, i);
    CompareTail(d, toks, l.value, l.next)
  }

  function CompareTail(d: Dialect, toks: TokenList, acc: Expr, j: nat): (r: Result<Parsed<Expr>>)
    ensures r.Ok? ==> j <= r.value.next <= |toks|
    decreases |toks| - j, 16
  {
    var t :- Peek(toks, j);
    if IsOp(t, CompareOps) then
      var rhs :- ParseAdd(d, toks, j + 1);
      CompareTail(d, toks, Binary(t.value.s, acc, rhs.value), rhs.next)
    else Ok(Parsed(acc, j))
  }

  function ParseAdd(d: Dialect, toks: TokenList, i: nat): (r: Result<Parsed<Expr>>)
    ensures r.Ok? ==> i < r.value.next <= |toks|
    decreases |toks| - i, 15
  {
    var l :- ParseMul(d, toks, i);
    AddTail(d, toks, l.value, l.next)
  }

  function AddTail(d: Dialect, toks: TokenList, acc: Expr, j: nat): (r: Result<Parsed<Expr>>)
    ensures r.Ok? ==> j <= r.value.next <= |toks|
    decreases |toks| - j, 15
  {
    var t :- Peek(toks, j);
    if IsOp(t, AddOps) then
      var rhs :- ParseMul(d, toks, j + 1);
      AddTail(d, toks, Binary(t.value.s, acc, rhs.value), rhs.next)
    else Ok(Parsed(acc, j))
  }

  function ParseMul(d: Dialect, toks: TokenList, i: nat): (r: Result<Parsed<Expr>>)
    ensures r.Ok? ==> i < r.value.next <= |toks|
    decreases |toks| - i, 14
  {
    var l :- ParseUnary(d, toks, i);
    MulTail(d, toks, l.value, l.next)
  }

  function MulTail(d: Dialect, toks: TokenList, acc: Expr, j: nat): (r: Result<Parsed<Expr>>)
    ensures r.Ok? ==> j <= r.value.next <= |toks|
    decreases |toks| - j, 14
  {
    var t :- Peek(toks, j);
    if IsOp(t, MulOps) then
      var rhs :- ParseUnary(d, toks, j + 1);
      MulTail(d, toks, Binary(t.value.s, acc, rhs.value), rhs.next)
    else Ok(Parsed(acc, j))
  }

  function ParseUnary(d: Dialect, toks: TokenList, i: nat): (r: Result<Parsed<Expr>>)
    ensures r.Ok? ==> i < r.value.next <= |toks|
    decreases |toks| - i, 13
  {
    var t :- Peek(toks, i);
    if IsOp(t, AddOps) then
      var arg :- ParseUnary(d, toks, i + 1);
      Ok(Parsed(Ast.Unary(t.value.s, arg.value), arg.next))
    else ParsePrimary(d, toks, i)
  }

  function UnexpectedInExpression(k: Kind): string { "Unexpected token in expression: " + KindName(k) }

  function ParsePrimary(d: Dialect, toks: TokenList, i: nat): (r: Result<Parsed<Expr>>)
    ensures r.Ok? ==> i < r.value.next <= |toks|
    decreases |toks| - i, 12
  {
    var t :- Peek(toks, i);
    if t.kind == NUMBER then Ok(Parsed(Number(t.value.n), i + 1))
    else if t.kind == STRING then Ok(Parsed(String(t.value.s), i + 1))
    else if t.kind == IDENT then
      if d == Legacy then
        var lp :- Match(toks, i + 1, LPAREN);
        if lp.value then CallRest(d, toks, t.value.s, lp.next)
        else Ok(Parsed(Var(Lower(t.value.s)), lp.next))
      else
        var path :- PathTail(toks, [t.value.s], i + 1);
        var segs := path.value;
        var lp :- if |segs| == 1 then Match(toks, path.next, LPAREN) else Ok(Parsed(false, path.next));
        if lp.value then CallRest(d, toks, segs[0], lp.next)
        else if |segs| > 1 then Ok(Parsed(Field(segs), lp.next))
        else Ok(Parsed(Var(Lower(segs[0])), lp.next))
    else
      var u :- if d == Modular then Match(toks, i, UNKNOWN) else Ok(Parsed(false, i));
      if u.value then Ok(Parsed(Ast.Unknown, u.next))
      else
        var lp :- Match(toks, i, LPAREN);
        if lp.value then
          var e :- ParseExpr(d, toks, lp.next);
          var rp :- Eat(toks, e.next, RPAREN);
          Ok(Parsed(e.value, rp.next))
        else Err(UnexpectedInExpression(t.kind))
  }

  /** The argument list of a call, after its `(`, through the `)`. */
  function CallRest(d: Dialect, toks: TokenList, name: string, j: nat): (r: Result<Parsed<Expr>>)
    ensures r.Ok? ==> j < r.value.next <= |toks|
    decreases |toks| - j, 21
  {
    var t :- Peek(toks, j);
    var args :- if t.kind != RPAREN then
        var first :- ParseExpr(d, toks, j);
        ArgsTail(d, toks, [first.value], first.next)
      else Ok(Parsed([], j));
    var rp :- Eat(toks, args.next, RPAREN);
    Ok(Parsed(Call(Upper(name), args.value), rp.next))
  }

  function ArgsTail(d: Dialect, toks: TokenList, acc: seq<Expr>, j: nat): (r: Result<Parsed<seq<Expr>>>)
    ensures r.Ok? ==> j <= r.value.next <= |toks| && |r.value.value| >= |acc|
    decreases |toks| - j, 11
  {
    var m :- Match(toks, j, COMMA);
    if !m.value then Ok(Parsed(acc, j))
    else
      var e :- ParseExpr(d, toks, m.next);
      ArgsTail(d, toks, acc + [e.value], e.next)
  }
}
