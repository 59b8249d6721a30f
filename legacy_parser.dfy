/** The statement parser of the legacy interpreter mini4GL.js: a fixed
    `switch` on the first token instead of a registry, and a small set of
    statements (assignment, DISPLAY/PRINT, INPUT, IF, DO, REPEAT, WHILE and
    END). Expressions are parsed by the shared grammar in its legacy dialect.
    As for the modular parser, each parse step is a function from a token
    array and a cursor to a node and the new cursor, and the `Parser` methods
    are proved to do what those functions say. */
module LegacyParser {
  import opened Results
  import opened Text
  import opened Tokens
  import opened Lexer
  import Ast
  import opened Grammar
  import opened ParserCore
  import Statements
  import AssignStmt

  type Expr = Ast.Expr

  /** The statement nodes of the legacy parser. A `{type: 'Block', body}`
      record is represented by its body. */
  datatype Stmt =
    | Empty
    | Assign(id: string, value: Expr)
    | Display(items: seq<Expr>)
    | Input(id: string)
    | If(test: Expr, consequent: seq<Stmt>, alternate: Alternate)
    | Do(whileExpr: Option<Expr>, body: seq<Stmt>)
    | Repeat(whileExpr: Option<Expr>, body: seq<Stmt>)
    | While(test: Expr, body: seq<Stmt>)

  /** The ELSE branch of IF: `null`, or a block. */
  datatype Alternate = NoElse | Else(body: seq<Stmt>)

  /** The token types the `switch` of `parseStatement` has a case for. */
  predicate StartsStatement(k: Kind) {
    k == IDENT || k in {Keyword("ASSIGN"), Keyword("DISPLAY"), Keyword("PRINT"), Keyword("INPUT"), Keyword("IF"),
                        Keyword("DO"), Keyword("REPEAT"), Keyword("WHILE"), Keyword("END")}
  }

  /** The statement kind each leading token type produces. */
  predicate Leads(k: Kind, s: Stmt) {
    match s
    case Empty => k == Keyword("END")
    case Assign(_, _) => k == IDENT || k == Keyword("ASSIGN")
    case Display(_) => k == Keyword("DISPLAY") || k == Keyword("PRINT")
    case Input(_) => k == Keyword("INPUT")
    case If(_, _, _) => k == Keyword("IF")
    case Do(_, _) => k == Keyword("DO")
    case Repeat(_, _) => k == Keyword("REPEAT")
    case While(_, _) => k == Keyword("WHILE")
  }

  // ------------------------------------------------------------ statements

  /** `parseStatement`: the statement is chosen by the type of its first
      token; any other type is an unexpected token. */
  function ParseStatement(toks: TokenList, i: nat): (r: Result<Parsed<Stmt>>)
    ensures r.Ok? ==> i < r.value.next <= |toks| && Leads(toks[i].kind, r.value.value)
    ensures i < |toks| && !StartsStatement(toks[i].kind) ==> r == Err(Statements.UnexpectedToken(toks[i].kind))
    decreases |toks| - i, 3
  {
    var t :- Peek(toks, i);
    if t.kind == IDENT || t.kind == Keyword("ASSIGN") then ParseAssignLike(toks, i)
    else if t.kind == Keyword("DISPLAY") || t.kind == Keyword("PRINT") then ParseDisplay(toks, i)
    else if t.kind == Keyword("INPUT") then ParseInput(toks, i)
    else if t.kind == Keyword("IF") then ParseIf(toks, i)
    else if t.kind == Keyword("DO") then ParseLoop(toks, i, "DO")
    else if t.kind == Keyword("REPEAT") then ParseLoop(toks, i, "REPEAT")
    else if t.kind == Keyword("WHILE") then ParseWhile(toks, i)
    else if t.kind == Keyword("END") then
      var end :- OptionalDot(toks, i + 1);
      Ok(Parsed(Empty, end))
    else Err(Statements.UnexpectedToken(t.kind))
  }

  /** `parseAssignLike`: `[ASSIGN] ident = expr [.]`. */
  function ParseAssignLike(toks: TokenList, i: nat): (r: Result<Parsed<Stmt>>)
    ensures r.Ok? ==> i < r.value.next <= |toks| && r.value.value.Assign?
  {
    var kw :- Match(toks, i, Keyword("ASSIGN"));
    var id :- Eat(toks, kw.next, IDENT);
    var op :- Eat(toks, id.next, OP);
    if TokText(op.value) != "=" then Err(AssignStmt.NotEqualsMessage(op.value))
    else
      var e :- ParseExpr(Legacy, toks, op.next);
      var next :- OptionalDot(toks, e.next);
      Ok(Parsed(Assign(Lower(TokText(id.value)), e.value), next))
  }

  /** `parseDisplay`: DISPLAY or PRINT, then one or more comma-separated
      expressions and an optional dot. */
  function ParseDisplay(toks: TokenList, i: nat): (r: Result<Parsed<Stmt>>)
    ensures r.Ok? ==> i < r.value.next <= |toks| && r.value.value.Display? && |r.value.value.items| >= 1
  {
    var kw :- EatNext(toks, i);
    var first :- ParseExpr(Legacy, toks, kw.next);
    var items :- ArgsTail(Legacy, toks, [first.value], first.next);
    var next :- OptionalDot(toks, items.next);
    Ok(Parsed(Display(items.value), next))
  }

  /** `parseInput`: `INPUT ident [.]`. */
  function ParseInput(toks: TokenList, i: nat): (r: Result<Parsed<Stmt>>)
    ensures r.Ok? ==> i < r.value.next <= |toks| && r.value.value.Input?
  {
    var kw :- Eat(toks, i, Keyword("INPUT"));
    var id :- Eat(toks, kw.next, IDENT);
    var next :- OptionalDot(toks, id.next);
    Ok(Parsed(Input(Lower(TokText(id.value))), next))
  }

  /** `parsePossiblyBlock`: a colon block ended by END, or one statement. */
  function PossiblyBlock(toks: TokenList, j: nat): (r: Result<Parsed<seq<Stmt>>>)
    ensures r.Ok? ==> j < r.value.next <= |toks|
    decreases |toks| - j, 4
  {
    var colon :- Match(toks, j, COLON);
    if colon.value then BlockEnd(toks, colon.next)
    else
      var s :- ParseStatement(toks, j);
      Ok(Parsed([s.value], s.next))
  }

  /** `parseBlockStatements` from `j`, after the statements `acc`: stray
      DOTs are skipped, and the loop stops, without consuming it, at END or
      EOF. */
  function BlockFrom(toks: TokenList, acc: seq<Stmt>, j: nat): (r: Result<Parsed<seq<Stmt>>>)
    ensures r.Ok? ==> j <= r.value.next < |toks|
    ensures r.Ok? ==> toks[r.value.next].kind == Keyword("END") || toks[r.value.next].kind == EOF
    decreases |toks| - j, 4
  {
    var t :- Peek(toks, j);
    if t.kind == Keyword("END") || t.kind == EOF then Ok(Parsed(acc, j))
    else if t.kind == DOT then BlockFrom(toks, acc, j + 1)
    else
      var s :- ParseStatement(toks, j);
      BlockFrom(toks, acc + [s.value], s.next)
  }

  /** The block statements, then the required END and an optional dot. */
  function BlockEnd(toks: TokenList, j: nat): (r: Result<Parsed<seq<Stmt>>>)
    ensures r.Ok? ==> j < r.value.next <= |toks|
    decreases |toks| - j, 5
  {
    var body :- BlockFrom(toks, [], j);
    var end :- Eat(toks, body.next, Keyword("END"));
    var dot :- OptionalDot(toks, end.next);
    Ok(Parsed(body.value, dot))
  }

  /** `parseIf`: `IF expr THEN`, a branch, and an optional ELSE branch; a
      branch is a colon block or a single statement. */
  function ParseIf(toks: TokenList, i: nat): (r: Result<Parsed<Stmt>>)
    ensures r.Ok? ==> i < r.value.next <= |toks| && r.value.value.If?
    decreases |toks| - i, 1
  {
    var kw :- Eat(toks, i, Keyword("IF"));
    var test :- ParseExpr(Legacy, toks, kw.next);
    var th :- Eat(toks, test.next, Keyword("THEN"));
    var cons :- PossiblyBlock(toks, th.next);
    var el :- Match(toks, cons.next, Keyword("ELSE"));
    if !el.value then Ok(Parsed(If(test.value, cons.value, NoElse), cons.next))
    else
      var alt :- PossiblyBlock(toks, el.next);
      Ok(Parsed(If(test.value, cons.value, Else(alt.value)), alt.next))
  }

  /** `kw [WHILE expr] [:]`, the head shared by `parseDo` and `parseRepeat`. */
  function LoopHead(toks: TokenList, i: nat, kw: string): (r: Result<Parsed<Option<Expr>>>)
    ensures r.Ok? ==> i < r.value.next <= |toks|
  {
    var k :- Eat(toks, i, Keyword(kw));
    var w :- Statements.OptionalWhile(Legacy, toks, k.next);
    var c :- Match(toks, w.next, COLON);
    Ok(Parsed(w.value, c.next))
  }

  /** `parseDo` (`kw` is DO) and `parseRepeat` (`kw` is REPEAT): the head,
      the block statements, END and an optional dot. */
  function ParseLoop(toks: TokenList, i: nat, kw: string): (r: Result<Parsed<Stmt>>)
    requires kw == "DO" || kw == "REPEAT"
    ensures r.Ok? ==> i < r.value.next <= |toks|
    ensures r.Ok? ==> if kw == "DO" then r.value.value.Do? else r.value.value.Repeat?
    decreases |toks| - i, 1
  {
    var h :- LoopHead(toks, i, kw);
    var body :- BlockEnd(toks, h.next);
    if kw == "DO" then Ok(Parsed(Do(h.value, body.value), body.next))
    else Ok(Parsed(Repeat(h.value, body.value), body.next))
  }

  /** `parseWhile`: `WHILE expr DO [:]`, the block statements, END and an
      optional dot. */
  function ParseWhile(toks: TokenList, i: nat): (r: Result<Parsed<Stmt>>)
    ensures r.Ok? ==> i < r.value.next <= |toks| && r.value.value.While?
    decreases |toks| - i, 1
  {
    var kw :- Eat(toks, i, Keyword("WHILE"));
    var test :- ParseExpr(Legacy, toks, kw.next);
    var d :- Eat(toks, test.next, Keyword("DO"));
    var c :- Match(toks, d.next, COLON);
    var body :- BlockEnd(toks, c.next);
    Ok(Parsed(While(test.value, body.value), body.next))
  }

  /** `parseProgram`: statements up to EOF, skipping stray DOTs. */
  function ProgramFrom(toks: TokenList, acc: seq<Stmt>, j: nat): (r: Result<seq<Stmt>>)
    ensures r.Ok? ==> |r.value| >= |acc| && r.value[..|acc|] == acc
    decreases |toks| - j
  {
    var t :- Peek(toks, j);
    if t.kind == EOF then Ok(acc)
    else if t.kind == DOT then ProgramFrom(toks, acc, j + 1)
    else
      var s :- ParseStatement(toks, j);
      var r := ProgramFrom(toks, acc + [s.value], s.next);
      assert r.Ok? ==> r.value[..|acc|] == r.value[..|acc| + 1][..|acc|];
      r
  }

  function ParseProgram(toks: TokenList): Result<seq<Stmt>> {
    ProgramFrom(toks, [], 0)
  }

  // --------------------------------------------------------------- methods

  /** `parseStatement`. */
  method Statement(p: Parser) returns (r: Result<Stmt>)
    requires p.dialect == Legacy
    modifies p
    ensures Agrees(r, p.i, ParseStatement(p.toks, old(p.i)))
    decreases |p.toks| - p.i, 3
  {
    var t :- p.Peek();
    if t.kind == IDENT || t.kind == Keyword("ASSIGN") {
      r := AssignLike(p);
    } else if t.kind == Keyword("DISPLAY") || t.kind == Keyword("PRINT") {
      r := DisplayStatement(p);
    } else if t.kind == Keyword("INPUT") {
      r := InputStatement(p);
    } else if t.kind == Keyword("IF") {
      r := IfStatement(p);
    } else if t.kind == Keyword("DO") {
      r := LoopStatement(p, "DO");
    } else if t.kind == Keyword("REPEAT") {
      r := LoopStatement(p, "REPEAT");
    } else if t.kind == Keyword("WHILE") {
      r := WhileStatement(p);
    } else if t.kind == Keyword("END") {
      var _ := p.EatNext();
      var _ :- p.OptionalDot();
      r := Ok(Empty);
    } else {
      r := Err(Statements.UnexpectedToken(t.kind));
    }
  }

  method AssignLike(p: Parser) returns (r: Result<Stmt>)
    requires p.dialect == Legacy
    modifies p
    ensures Agrees(r, p.i, ParseAssignLike(p.toks, old(p.i)))
  {
    var _ :- p.Match(Keyword("ASSIGN"));
    var id :- p.Eat(IDENT);
    var op :- p.Eat(OP);
    if TokText(op) != "=" {
      return Err(AssignStmt.NotEqualsMessage(op));
    }
    var e :- p.ParseExpr();
    var _ :- p.OptionalDot();
    r := Ok(Assign(Lower(TokText(id)), e));
  }

  method DisplayStatement(p: Parser) returns (r: Result<Stmt>)
    requires p.dialect == Legacy
    modifies p
    ensures Agrees(r, p.i, ParseDisplay(p.toks, old(p.i)))
  {
    var _ :- p.EatNext();
    var first :- p.ParseExpr();
    var items := [first];
    var j0 := p.i;
    while true
      invariant j0 <= p.i <= |p.toks|
      invariant ArgsTail(Legacy, p.toks, [first], j0) == ArgsTail(Legacy, p.toks, items, p.i)
      decreases |p.toks| - p.i
    {
      var m :- p.Match(COMMA);
      if !m {
        break;
      }
      var e :- p.ParseExpr();
      items := items + [e];
    }
    var _ :- p.OptionalDot();
    r := Ok(Display(items));
  }

  method InputStatement(p: Parser) returns (r: Result<Stmt>)
    requires p.dialect == Legacy
    modifies p
    ensures Agrees(r, p.i, ParseInput(p.toks, old(p.i)))
  {
    var _ :- p.Eat(Keyword("INPUT"));
    var id :- p.Eat(IDENT);
    var _ :- p.OptionalDot();
    r := Ok(Input(Lower(TokText(id))));
  }

  /** `parsePossiblyBlock`. */
  method PossiblyBlockOf(p: Parser) returns (r: Result<seq<Stmt>>)
    requires p.dialect == Legacy
    modifies p
    ensures Agrees(r, p.i, PossiblyBlock(p.toks, old(p.i)))
    decreases |p.toks| - p.i, 4
  {
    var colon :- p.Match(COLON);
    if colon {
      r := BlockThroughEnd(p);
    } else {
      var s :- Statement(p);
      r := Ok([s]);
    }
  }

  /** `parseBlockStatements`. */
  method BlockStatements(p: Parser) returns (r: Result<seq<Stmt>>)
    requires p.dialect == Legacy
    modifies p
    ensures Agrees(r, p.i, BlockFrom(p.toks, [], old(p.i)))
    decreases |p.toks| - p.i, 4
  {
    var acc: seq<Stmt> := [];
    while true
      invariant old(p.i) <= p.i
      invariant BlockFrom(p.toks, [], old(p.i)) == BlockFrom(p.toks, acc, p.i)
      decreases |p.toks| - p.i
    {
      var t :- p.Peek();
      if t.kind == Keyword("END") || t.kind == EOF {
        return Ok(acc);
      }
      if t.kind == DOT {
        var _ := p.EatNext();
      } else {
        var s :- Statement(p);
        acc := acc + [s];
      }
    }
  }

  /** The block statements, END and an optional dot. */
  method BlockThroughEnd(p: Parser) returns (r: Result<seq<Stmt>>)
    requires p.dialect == Legacy
    modifies p
    ensures Agrees(r, p.i, BlockEnd(p.toks, old(p.i)))
    decreases |p.toks| - p.i, 5
  {
    var body :- BlockStatements(p);
    var _ :- p.Eat(Keyword("END"));
    var _ :- p.OptionalDot();
    r := Ok(body);
  }

  method IfStatement(p: Parser) returns (r: Result<Stmt>)
    requires p.dialect == Legacy
    modifies p
    ensures Agrees(r, p.i, ParseIf(p.toks, old(p.i)))
    decreases |p.toks| - p.i, 1
  {
    var _ :- p.Eat(Keyword("IF"));
    var test :- p.ParseExpr();
    var _ :- p.Eat(Keyword("THEN"));
    var cons :- PossiblyBlockOf(p);
    var el :- p.Match(Keyword("ELSE"));
    if !el {
      return Ok(If(test, cons, NoElse));
    }
    var alt :- PossiblyBlockOf(p);
    r := Ok(If(test, cons, Else(alt)));
  }

  method ReadLoopHead(p: Parser, kw: string) returns (r: Result<Option<Expr>>)
    requires p.dialect == Legacy
    modifies p
    ensures Agrees(r, p.i, LoopHead(p.toks, old(p.i), kw))
  {
    var _ :- p.Eat(Keyword(kw));
    var w :- p.Match(Keyword("WHILE"));
    var test: Option<Expr> := None;
    if w {
      var e :- p.ParseExpr();
      test := Some(e);
    }
    var _ :- p.Match(COLON);
    r := Ok(test);
  }

  /** `parseDo` and `parseRepeat`. */
  method LoopStatement(p: Parser, kw: string) returns (r: Result<Stmt>)
    requires p.dialect == Legacy && (kw == "DO" || kw == "REPEAT")
    modifies p
    ensures Agrees(r, p.i, ParseLoop(p.toks, old(p.i), kw))
    decreases |p.toks| - p.i, 1
  {
    var test :- ReadLoopHead(p, kw);
    var body :- BlockThroughEnd(p);
    if kw == "DO" {
      r := Ok(Do(test, body));
    } else {
      r := Ok(Repeat(test, body));
    }
  }

  method WhileStatement(p: Parser) returns (r: Result<Stmt>)
    requires p.dialect == Legacy
    modifies p
    ensures Agrees(r, p.i, ParseWhile(p.toks, old(p.i)))
    decreases |p.toks| - p.i, 1
  {
    var _ :- p.Eat(Keyword("WHILE"));
    var test :- p.ParseExpr();
    var _ :- p.Eat(Keyword("DO"));
    var _ :- p.Match(COLON);
    var body :- BlockThroughEnd(p);
    r := Ok(While(test, body));
  }

  /** `parseProgram`. */
  method Program(p: Parser) returns (r: Result<seq<Stmt>>)
    requires p.dialect == Legacy
    modifies p
    ensures r == ProgramFrom(p.toks, [], old(p.i))
  {
    var body: seq<Stmt> := [];
    while true
      invariant ProgramFrom(p.toks, [], old(p.i)) == ProgramFrom(p.toks, body, p.i)
      decreases |p.toks| - p.i
    {
      var t :- p.Peek();
      if t.kind == EOF {
        return Ok(body);
      }
      if t.kind == DOT {
        var _ := p.EatNext();
      } else {
        var s :- Statement(p);
        body := body + [s];
      }
    }
  }

  // ------------------------------------------------------------ properties

  /** The operator after the assigned name must be `=`: any other operator,
      `==` included, is rejected with its own text in the message. */
  lemma AssignNeedsEquals(toks: TokenList, i: nat)
    requires i + 1 < |toks| && toks[i].kind == IDENT && toks[i + 1].kind == OP && TokText(toks[i + 1]) != "="
    ensures ParseStatement(toks, i) == Err(AssignStmt.NotEqualsMessage(toks[i + 1]))
  {
  }

  /** A leading ASSIGN changes nothing but the cursor: `ASSIGN x = e` and
      `x = e` give the same node. */
  lemma AssignKeywordOptional(toks: TokenList, i: nat)
    requires i + 1 < |toks| && toks[i].kind == Keyword("ASSIGN") && toks[i + 1].kind == IDENT
    ensures ParseStatement(toks, i) == ParseAssignLike(toks, i)
    ensures ParseAssignLike(toks, i).Ok? <==> ParseAssignLike(toks, i + 1).Ok?
    ensures ParseAssignLike(toks, i).Ok? ==> ParseAssignLike(toks, i) == ParseAssignLike(toks, i + 1)
  {
  }

  /** END at the start of a statement is an empty statement, and takes
      the dot after it when there is one. */
  lemma EndIsEmpty(toks: TokenList, i: nat)
    requires i + 1 < |toks| && toks[i].kind == Keyword("END")
    ensures ParseStatement(toks, i) == Ok(Parsed(Empty, if toks[i + 1].kind == DOT then i + 2 else i + 1))
  {
  }

  /** Stray dots between statements are skipped: a dot in front of a block's
      remaining statements does not change what the block collects. */
  lemma StrayDotSkipped(toks: TokenList, acc: seq<Stmt>, j: nat)
    requires j < |toks| && toks[j].kind == DOT
    ensures BlockFrom(toks, acc, j) == BlockFrom(toks, acc, j + 1)
    ensures ProgramFrom(toks, acc, j) == ProgramFrom(toks, acc, j + 1)
  {
  }

  /** The statements a block has collected stay in front, in order. */
  lemma {:induction false} BlockKeepsCollected(toks: TokenList, acc: seq<Stmt>, j: nat)
    requires BlockFrom(toks, acc, j).Ok?
    ensures var v := BlockFrom(toks, acc, j).value.value; |acc| <= |v| && v[..|acc|] == acc
    decreases |toks| - j
  {
    var t := toks[j];
    if t.kind == Keyword("END") || t.kind == EOF {
    } else if t.kind == DOT {
      BlockKeepsCollected(toks, acc, j + 1);
    } else {
      var s := ParseStatement(toks, j).value;
      BlockKeepsCollected(toks, acc + [s.value], s.next);
      var v := BlockFrom(toks, acc, j).value.value;
      assert v[..|acc|] == v[..|acc| + 1][..|acc|];
    }
  }
}
