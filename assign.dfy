/** The ASSIGN statement: `[ASSIGN] ident = expr [.]`, which also parses a bare
    `x = e` because the module accepts identifier-led statements. */
module AssignStmt {
  import opened Results
  import opened Text
  import opened Tokens
  import opened Lexer
  import opened Ast
  import opened Grammar
  import opened ParserCore
  import opened Runtime

  function NotEqualsMessage(t: Token): string { "Expected '=' but got " + TokText(t) }

  /** `parseAssign`. */
  function ParseAssign(toks: TokenList, i: nat): (r: Result<Parsed<Stmt>>)
    ensures r.Ok? ==> i < r.value.next <= |toks|
  {
    var kw :- Match(toks, i, Keyword("ASSIGN"));
    AssignBody(toks, kw.next)
  }

  /** `parseAssign` from the identifier on. */
  function AssignBody(toks: TokenList, j: nat): (r: Result<Parsed<Stmt>>)
    ensures r.Ok? ==> j < r.value.next <= |toks|
  {
    var id :- Eat(toks, j, IDENT);
    var op :- Eat(toks, id.next, OP);
    if TokText(op.value) != "=" then Err(NotEqualsMessage(op.value))
    else
      var e :- ParseExpr(Modular, toks, op.next);
      var next :- OptionalDot(toks, e.next);
      Ok(Parsed(Assign(Lower(TokText(id.value)), e.value), next))
  }

  /** A successful parse is `IDENT = expr`: the id is the lower-cased identifier
      and the value the expression that follows the `=`; the dot after it is
      optional. */
  lemma AssignBodyShape(toks: TokenList, j: nat)
    requires AssignBody(toks, j).Ok?
    ensures j + 1 < |toks| && toks[j].kind == IDENT && IsOp(toks[j + 1], {"="})
    ensures ParseExpr(Modular, toks, j + 2).Ok?
    ensures var e := ParseExpr(Modular, toks, j + 2).value;
      var p := AssignBody(toks, j).value;
      p.value == Assign(Lower(TokText(toks[j])), e.value)
      && (p.next == e.next || (p.next == e.next + 1 && toks[e.next].kind == DOT))
  {
    var id := Eat(toks, j, IDENT).value;
    var op := Eat(toks, id.next, OP).value;
    assert TokText(op.value) == "=";
    var e := ParseExpr(Modular, toks, op.next).value;
    var next := OptionalDot(toks, e.next).value;
    assert next == e.next || toks[e.next].kind == DOT;
  }

  /** The ASSIGN keyword is optional: `ASSIGN x = e` and `x = e` are parsed alike. */
  lemma AssignKeywordOptional(toks: TokenList, i: nat)
    requires i < |toks|
    ensures toks[i].kind == IDENT ==> ParseAssign(toks, i) == AssignBody(toks, i)
    ensures toks[i].kind == Keyword("ASSIGN") ==> ParseAssign(toks, i) == AssignBody(toks, i + 1)
  {
  }

  /** Any operator other than `=` after the identifier, `==` included, is a syntax error. */
  lemma OnlyEqualsAssigns(toks: TokenList, j: nat)
    requires j + 1 < |toks| && toks[j].kind == IDENT && toks[j + 1].kind == OP
    requires TokText(toks[j + 1]) != "="
    ensures AssignBody(toks, j) == Err(NotEqualsMessage(toks[j + 1]))
  {
  }

  method Parse(p: Parser) returns (r: Result<Stmt>)
    requires p.dialect == Modular
    modifies p
    ensures Agrees(r, p.i, ParseAssign(p.toks, old(p.i)))
  {
    var _ :- p.Match(Keyword("ASSIGN"));
    var id :- p.Eat(IDENT);
    var op :- p.Eat(OP);
    if TokText(op) != "=" {
      return Err(NotEqualsMessage(op));
    }
    var e :- p.ParseExpr();
    var _ :- p.OptionalDot();
    r := Ok(Assign(Lower(TokText(id)), e));
  }

  /** `executeAssign`: the value of the right-hand side is written through
      `context.setVar`, and nothing else changes; an exception from the
      evaluation leaves the environments as they were. */
  method Execute(h: Heap, ctx: Context, env: EnvId, s: Stmt) returns (r: Result<()>)
    requires s.Assign?
    modifies h
    ensures match ctx.evalExpr(s.value, old(h.frames), env)
            case Ok(v) => r == Ok(()) && h.frames == ctx.setVar(old(h.frames), env, s.id, v)
            case Err(m) => r == Err(m) && h.frames == old(h.frames)
  {
    var v :- ctx.evalExpr(s.value, h.frames, env);
    h.frames := ctx.setVar(h.frames, env, s.id, v);
    r := Ok(());
  }
}
