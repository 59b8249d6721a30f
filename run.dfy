/** RUN name [( [INPUT|OUTPUT] expr, ... )] [.]: call a procedure through the
    interpreter's `runProcedure`. */
module RunStmt {
  import opened Results
  import opened Text
  import opened Tokens
  import opened Lexer
  import opened Ast
  import opened Grammar
  import opened ParserCore
  import opened Runtime

  /** The parameter mode written before an argument, if any. */
  function ArgMode(toks: TokenList, j: nat): (r: Result<Parsed<Option<string>>>)
    ensures r.Ok? ==> j <= r.value.next <= |toks|
    ensures r.Ok? ==> r.value.value in {None, Some("INPUT"), Some("OUTPUT")}
    ensures r.Ok? ==> (r.value.value.Some? <==> r.value.next == j + 1)
  {
    var t :- Peek(toks, j);
    if t.kind == Keyword("INPUT") then Ok(Parsed(Some("INPUT"), j + 1))
    else if t.kind == Keyword("OUTPUT") then Ok(Parsed(Some("OUTPUT"), j + 1))
    else Ok(Parsed(None, j))
  }

  /** One argument: the optional mode, then the expression `parseExpr` reads
      right after it. */
  function ArgAt(toks: TokenList, j: nat): (r: Result<Parsed<RunArg>>)
    ensures r.Ok? ==> j < r.value.next <= |toks|
    ensures r.Ok? ==> r.value.value.mode in {None, Some("INPUT"), Some("OUTPUT")}
    ensures r.Ok? ==> (ArgMode(toks, j).Ok? && ArgMode(toks, j).value.value == r.value.value.mode
                       && ParseExpr(Modular, toks, ArgMode(toks, j).value.next) == Ok(Parsed(r.value.value.expr, r.value.next)))
  {
    var mode :- ArgMode(toks, j);
    var e :- ParseExpr(Modular, toks, mode.next);
    Ok(Parsed(RunArg(mode.value, e.value), e.next))
  }

  /** `args` is written from `j` as `arg (, arg)*`, ending at `next`: each
      argument is the one read at its start, and exactly the arguments but the
      last are followed by a comma. */
  ghost predicate CommaSeparated(toks: TokenList, j: nat, args: seq<RunArg>, next: nat)
    decreases |args|
  {
    |args| > 0 && ArgAt(toks, j).Ok? && ArgAt(toks, j).value.value == args[0]
    && var k := ArgAt(toks, j).value.next;
    k < |toks|
    && if toks[k].kind == COMMA then CommaSeparated(toks, k + 1, args[1..], next)
       else |args| == 1 && next == k
  }

  /** The argument loop from `j`, after the arguments `acc`: one argument, then
      another while a comma follows. */
  function ArgsFrom(toks: TokenList, acc: seq<RunArg>, j: nat): (r: Result<Parsed<seq<RunArg>>>)
    decreases |toks| - j
    ensures r.Ok? ==> j < r.value.next <= |toks|
    ensures r.Ok? ==> |r.value.value| > |acc| && r.value.value[..|acc|] == acc
    ensures r.Ok? ==> forall a :: a in r.value.value[|acc|..] ==> a.mode in {None, Some("INPUT"), Some("OUTPUT")}
  {
    var a :- ArgAt(toks, j);
    var c :- Match(toks, a.next, COMMA);
    if c.value then
      var r := ArgsFrom(toks, acc + [a.value], c.next);
      assert r.Ok? ==> r.value.value[|acc|..] == [a.value] + r.value.value[|acc| + 1..];
      r
    else Ok(Parsed(acc + [a.value], a.next))
  }

  /** `( ... )`: none when the parenthesis is absent, and `()` is an empty list. */
  function ArgList(toks: TokenList, j: nat): (r: Result<Parsed<seq<RunArg>>>)
    ensures r.Ok? ==> j <= r.value.next <= |toks|
    ensures r.Ok? && r.value.value != [] ==> j < |toks| && toks[j].kind == LPAREN
  {
    var open :- Match(toks, j, LPAREN);
    if !open.value then Ok(Parsed([], j))
    else
      var t :- Peek(toks, open.next);
      var args :- if t.kind == RPAREN then Ok(Parsed([], open.next)) else ArgsFrom(toks, [], open.next);
      var close :- Eat(toks, args.next, RPAREN);
      Ok(Parsed(args.value, close.next))
  }

  /** `parseRun`: the procedure name is lower-cased. */
  function ParseRun(toks: TokenList, i: nat): (r: Result<Parsed<Stmt>>)
    ensures r.Ok? ==> i < r.value.next <= |toks| && r.value.value.Run?
    ensures r.Ok? ==> i + 1 < |toks| && toks[i + 1].kind == IDENT && r.value.value.name == Lower(TokText(toks[i + 1]))
  {
    var kw :- Eat(toks, i, Keyword("RUN"));
    var id :- Eat(toks, kw.next, IDENT);
    var args :- ArgList(toks, id.next);
    var end :- OptionalDot(toks, args.next);
    Ok(Parsed(Run(Lower(TokText(id.value)), args.value), end))
  }

  /** The loop reads exactly a comma-separated list of arguments, in order. */
  lemma {:induction false} ArgsFromSeparated(toks: TokenList, acc: seq<RunArg>, j: nat)
    requires ArgsFrom(toks, acc, j).Ok?
    ensures var r := ArgsFrom(toks, acc, j).value;
      CommaSeparated(toks, j, r.value[|acc|..], r.next)
    decreases |toks| - j
  {
    var a := ArgAt(toks, j).value;
    var r := ArgsFrom(toks, acc, j).value;
    var c := Match(toks, a.next, COMMA).value;
    if c.value {
      ArgsFromSeparated(toks, acc + [a.value], c.next);
      assert r.value[|acc|..] == [a.value] + r.value[|acc| + 1..];
    } else {
      assert r.value[|acc|..] == [a.value];
    }
  }

  /** Conversely, every comma-separated list of arguments is what the loop reads. */
  lemma {:induction false} SeparatedArgsFrom(toks: TokenList, acc: seq<RunArg>, j: nat, args: seq<RunArg>, next: nat)
    requires CommaSeparated(toks, j, args, next)
    ensures ArgsFrom(toks, acc, j) == Ok(Parsed(acc + args, next))
    decreases |args|
  {
    var a := ArgAt(toks, j).value;
    if toks[a.next].kind == COMMA {
      SeparatedArgsFrom(toks, acc + [args[0]], a.next + 1, args[1..], next);
      assert acc + [args[0]] + args[1..] == acc + args;
    } else {
      assert args == [args[0]];
    }
  }

  /** A non-empty argument list is `( arg , ... , arg )`. */
  lemma ArgListSeparated(toks: TokenList, j: nat)
    requires ArgList(toks, j).Ok? && ArgList(toks, j).value.value != []
    ensures j < |toks| && toks[j].kind == LPAREN
    ensures exists next: nat :: (next < |toks| && toks[next].kind == RPAREN
                                 && CommaSeparated(toks, j + 1, ArgList(toks, j).value.value, next))
  {
    var inner := ArgsFrom(toks, [], j + 1).value;
    ArgsFromSeparated(toks, [], j + 1);
    assert inner.value[0..] == inner.value;
    assert toks[inner.next].kind == RPAREN;
  }

  /** A RUN with arguments is `RUN name ( arg , ... , arg )`: the arguments are
      the comma-separated list between the parentheses, in order. */
  lemma RunArgsSeparated(toks: TokenList, i: nat)
    requires ParseRun(toks, i).Ok? && ParseRun(toks, i).value.value.args != []
    ensures i + 2 < |toks| && toks[i + 2].kind == LPAREN
    ensures exists next: nat :: (next < |toks| && toks[next].kind == RPAREN
                                 && CommaSeparated(toks, i + 3, ParseRun(toks, i).value.value.args, next))
  {
    assert ParseRun(toks, i).value.value.args == ArgList(toks, i + 2).value.value;
    ArgListSeparated(toks, i + 2);
  }

  method ParseArgMode(p: Parser) returns (r: Result<Option<string>>)
    modifies p
    ensures Agrees(r, p.i, ArgMode(p.toks, old(p.i)))
  {
    var t :- p.Peek();
    if t.kind == Keyword("INPUT") || t.kind == Keyword("OUTPUT") {
      var _ := p.Eat(t.kind);
      return Ok(if t.kind == Keyword("INPUT") then Some("INPUT") else Some("OUTPUT"));
    }
    r := Ok(None);
  }

  method ParseArg(p: Parser) returns (r: Result<RunArg>)
    requires p.dialect == Modular
    modifies p
    ensures Agrees(r, p.i, ArgAt(p.toks, old(p.i)))
  {
    var mode :- ParseArgMode(p);
    var e :- p.ParseExpr();
    r := Ok(RunArg(mode, e));
  }

  method ParseArgs(p: Parser) returns (r: Result<seq<RunArg>>)
    requires p.dialect == Modular
    modifies p
    ensures Agrees(r, p.i, ArgsFrom(p.toks, [], old(p.i)))
  {
    var args: seq<RunArg> := [];
    while true
      invariant ArgsFrom(p.toks, [], old(p.i)) == ArgsFrom(p.toks, args, p.i)
      decreases |p.toks| - p.i
    {
      var a :- ParseArg(p);
      args := args + [a];
      var more :- p.Match(COMMA);
      if !more {
        return Ok(args);
      }
    }
  }

  method ParseArgList(p: Parser) returns (r: Result<seq<RunArg>>)
    requires p.dialect == Modular
    modifies p
    ensures Agrees(r, p.i, ArgList(p.toks, old(p.i)))
  {
    var open :- p.Match(LPAREN);
    if !open {
      return Ok([]);
    }
    var t :- p.Peek();
    var args: seq<RunArg> := [];
    if t.kind != RPAREN {
      args :- ParseArgs(p);
    }
    var _ :- p.Eat(RPAREN);
    r := Ok(args);
  }

  method Parse(p: Parser) returns (r: Result<Stmt>)
    requires p.dialect == Modular
    modifies p
    ensures Agrees(r, p.i, ParseRun(p.toks, old(p.i)))
  {
    var _ :- p.Eat(Keyword("RUN"));
    var id :- p.Eat(IDENT);
    var args :- ParseArgList(p);
    var _ :- p.OptionalDot();
    r := Ok(Run(Lower(TokText(id)), args));
  }

  /** `executeRun`: the statement is handed to `runProcedure`, whose resulting
      state is installed, whether or not it threw. */
  method Execute(h: Heap, ctx: Context, env: EnvId, s: Stmt) returns (r: Result<()>)
    requires s.Run?
    modifies h
    ensures var o := ctx.runProcedure(s, old(h.frames), env);
      h.frames == o.frames && (r.Err? <==> o.thrown.Some?) && (r.Err? ==> r.msg == o.thrown.value)
  {
    var o := ctx.runProcedure(s, h.frames, env);
    h.frames := o.frames;
    if o.thrown.Some? {
      r := Err(o.thrown.value);
    } else {
      r := Ok(());
    }
  }
}
