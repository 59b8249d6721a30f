/** The statement layer of the `Parser` class: `parseStatement`,
    `parsePossiblyBlock`, `parseBlockStatements`, `parseProgram` and the
    parsers of the statements that contain statements, each proved to do what
    the matching function of `Statements` says. */
module StatementParser {
  import opened Results
  import opened Text
  import opened Values
  import opened Tokens
  import opened Lexer
  import opened Ast
  import opened Grammar
  import opened ParserCore
  import opened Statements
  import Registry
  import AssignStmt
  import DefineStmt
  import DisplayStmt
  import InputStmt
  import FindStmt
  import RunStmt
  import CreateStmt
  import TargetListStmts
  import EventStmts
  import MessageStmt

  // -------------------------------------------------------------- headers

  method ReadGuarded(p: Parser, kw: string, sep: string) returns (r: Result<Expr>)
    requires p.dialect == Modular
    modifies p
    ensures Agrees(r, p.i, Guarded(p.toks, old(p.i), kw, sep))
  {
    var _ :- p.Eat(Keyword(kw));
    var e :- p.ParseExpr();
    var _ :- p.Eat(Keyword(sep));
    r := Ok(e);
  }

  method ReadRepeatHeader(p: Parser) returns (r: Result<Option<Expr>>)
    requires p.dialect == Modular
    modifies p
    ensures Agrees(r, p.i, RepeatHeader(p.toks, old(p.i)))
  {
    var _ :- p.Eat(Keyword("REPEAT"));
    var w :- p.Match(Keyword("WHILE"));
    var test: Option<Expr> := None;
    if w {
      var e :- p.ParseExpr();
      test := Some(e);
    }
    var _ :- p.Match(COLON);
    r := Ok(test);
  }

  method ReadWhileHeader(p: Parser) returns (r: Result<Expr>)
    requires p.dialect == Modular
    modifies p
    ensures Agrees(r, p.i, WhileHeader(p.toks, old(p.i)))
  {
    var test :- ReadGuarded(p, "WHILE", "DO");
    var _ :- p.Match(COLON);
    r := Ok(test);
  }

  method ReadRecordName(p: Parser) returns (r: Result<RecordRef>)
    modifies p
    ensures Agrees(r, p.i, RecordName(p.toks, old(p.i)))
  {
    var path :- p.ParseFieldPath();
    r := Ok(RecordRef(path[|path| - 1], path));
  }

  /** The record list after FOR, separated by commas. */
  method ReadRecordList(p: Parser) returns (r: Result<seq<RecordRef>>)
    modifies p
    ensures Agrees(r, p.i, RecordList(p.toks, old(p.i)))
  {
    var first :- ReadRecordName(p);
    var recs := [first];
    while true
      invariant RecordList(p.toks, old(p.i)) == RecordsFrom(p.toks, recs, p.i)
      decreases |p.toks| - p.i
    {
      var c :- p.Match(COMMA);
      if !c {
        return Ok(recs);
      }
      var rec :- ReadRecordName(p);
      recs := recs + [rec];
    }
  }

  method ReadBy(p: Parser) returns (r: Result<Option<Expr>>)
    requires p.dialect == Modular
    modifies p
    ensures Agrees(r, p.i, ByClause(p.toks, old(p.i)))
  {
    if !IsKeywordToken(At(p.toks, p.i), "BY") {
      return Ok(None);
    }
    var _ := p.EatNext();
    var e :- p.ParseExpr();
    r := Ok(Some(e));
  }

  method ReadCounted(p: Parser) returns (r: Result<LoopControl>)
    requires p.dialect == Modular
    modifies p
    ensures Agrees(r, p.i, Counted(p.toks, old(p.i)))
  {
    var v :- p.Eat(IDENT);
    var _ :- p.Eat(OP);
    var from :- p.ParseExpr();
    if !IsKeywordToken(At(p.toks, p.i), "TO") {
      return Err(NoTo);
    }
    var _ := p.EatNext();
    var to :- p.ParseExpr();
    var step :- ReadBy(p);
    r := Ok(LoopControl(Lower(TokText(v)), from, to, step));
  }

  /** The option loop of DO. */
  method ReadDoOptions(p: Parser) returns (r: Result<DoOpts>)
    requires p.dialect == Modular
    modifies p
    ensures Agrees(r, p.i, DoOptions(p.toks, NoDoOpts, old(p.i)))
  {
    var o := NoDoOpts;
    while true
      invariant DoOptions(p.toks, NoDoOpts, old(p.i)) == DoOptions(p.toks, o, p.i)
      decreases |p.toks| - p.i
    {
      var t :- p.Peek();
      if IsKeywordToken(Some(t), "FOR") && o.forRecords == [] {
        var _ := p.EatNext();
        var recs :- ReadRecordList(p);
        o := o.(forRecords := recs);
      } else if IsKeywordToken(Some(t), "TRANSACTION") && !o.transaction {
        var _ := p.EatNext();
        o := o.(transaction := true);
      } else if o.loopControl.None? && t.kind == IDENT && At(p.toks, p.i + 1).Some? && IsOp(p.toks[p.i + 1], {"="}) {
        var lc :- ReadCounted(p);
        o := o.(loopControl := Some(lc));
      } else if o.whileExpr.None? && IsKeywordToken(Some(t), "WHILE") {
        var _ := p.EatNext();
        var e :- p.ParseExpr();
        o := o.(whileExpr := Some(e));
      } else {
        return Ok(o);
      }
    }
  }

  method ReadDoHeader(p: Parser) returns (r: Result<(Option<string>, DoOpts)>)
    requires p.dialect == Modular
    modifies p
    ensures Agrees(r, p.i, DoHeader(p.toks, old(p.i)))
  {
    var first :- p.Peek();
    var labelled := Labelled(p.toks, p.i);
    if labelled {
      var _ := p.EatNext();
      var _ := p.EatNext();
    }
    var _ :- p.Eat(Keyword("DO"));
    var o :- ReadDoOptions(p);
    var _ :- p.Match(COLON);
    r := Ok((if labelled then Some(TokText(first)) else None, o));
  }

  method ReadForHead(p: Parser) returns (r: Result<(string, string, Option<string>)>)
    modifies p
    ensures Agrees(r, p.i, ForHead(p.toks, old(p.i)))
  {
    var _ :- p.Eat(Keyword("FOR"));
    var q :- p.Peek();
    if q.kind !in {Keyword("EACH"), Keyword("FIRST"), Keyword("LAST")} {
      return Err(NoQualifier);
    }
    var _ := p.EatNext();
    var target :- p.Eat(IDENT);
    var rel :- FindStmt.ParseRelation(p);
    r := Ok((KindName(q.kind), TokText(target), rel));
  }

  method ReadNoLock(p: Parser) returns (r: Result<bool>)
    modifies p
    ensures Agrees(r, p.i, NoLockClause(p.toks, old(p.i)))
  {
    var m :- p.Match(Keyword("NO"));
    if !m {
      return Ok(false);
    }
    var t :- p.Peek();
    if IsOp(t, {"-"}) {
      var _ := p.EatNext();
    }
    var lock :- p.Peek();
    if lock.kind == Keyword("LOCK") || (lock.kind == IDENT && Upper(TokText(lock)) == "LOCK") {
      var _ := p.EatNext();
      return Ok(true);
    }
    r := Err(NoLock);
  }

  /** The BY loop of FOR EACH. */
  method ReadOrder(p: Parser) returns (r: Result<seq<OrderEntry>>)
    modifies p
    ensures Agrees(r, p.i, OrderFrom(p.toks, [], old(p.i)))
  {
    var acc: seq<OrderEntry> := [];
    while true
      invariant OrderFrom(p.toks, [], old(p.i)) == OrderFrom(p.toks, acc, p.i)
      decreases |p.toks| - p.i
    {
      var br :- p.Match(Keyword("BREAK"));
      var byKw :- p.Match(Keyword("BY"));
      if !byKw {
        if br {
          return Err(BreakWithoutBy);
        }
        return Ok(acc);
      }
      var path :- p.ParseFieldPath();
      var desc :- p.Match(Keyword("DESCENDING"));
      acc := acc + [OrderEntry(path, desc, br)];
    }
  }

  method ReadForTail(p: Parser) returns (r: Result<(bool, Option<Expr>, seq<OrderEntry>)>)
    requires p.dialect == Modular
    modifies p
    ensures Agrees(r, p.i, ForTail(p.toks, old(p.i)))
  {
    var noLock :- ReadNoLock(p);
    var where :- FindStmt.ParseWhere(p);
    var orderBy :- ReadOrder(p);
    var _ :- p.Eat(COLON);
    r := Ok((noLock, where, orderBy));
  }

  method ReadOrdinal(p: Parser) returns (r: Result<Option<JsNum>>)
    modifies p
    ensures Agrees(r, p.i, OrdinalClause(p.toks, old(p.i)))
  {
    if !IsKeywordToken(At(p.toks, p.i), "ORDINAL") {
      return Ok(None);
    }
    var _ := p.EatNext();
    var n :- p.Peek();
    if n.kind != NUMBER {
      return Err("Expected numeric literal after ORDINAL");
    }
    var _ := p.EatNext();
    r := Ok(Some(n.value.n));
  }

  method ReadThreadSafe(p: Parser) returns (r: Result<bool>)
    modifies p
    ensures Agrees(r, p.i, ThreadSafe(p.toks, old(p.i)))
  {
    if !IsKeywordToken(At(p.toks, p.i), "THREAD") {
      return Ok(false);
    }
    var _ := p.EatNext();
    if IsHyphen(At(p.toks, p.i)) {
      var _ := p.EatNext();
    }
    if !IsKeywordToken(At(p.toks, p.i), "SAFE") {
      return Err("Expected SAFE after THREAD-");
    }
    var _ := p.EatNext();
    r := Ok(true);
  }

  method ReadExternalOptions(p: Parser) returns (r: Result<(Option<JsNum>, bool, bool)>)
    modifies p
    ensures Agrees(r, p.i, ExternalOptions(p.toks, old(p.i)))
  {
    var ordinal :- ReadOrdinal(p);
    var persistent := IsKeywordToken(At(p.toks, p.i), "PERSISTENT");
    if persistent {
      var _ := p.EatNext();
    }
    var threadSafe :- ReadThreadSafe(p);
    r := Ok((ordinal, persistent, threadSafe));
  }

  /** After EXTERNAL. */
  method ReadExternal(p: Parser) returns (r: Result<External>)
    modifies p
    ensures Agrees(r, p.i, ExternalClause(p.toks, old(p.i)))
  {
    var lib :- p.Peek();
    if lib.kind != STRING {
      return Err("Expected string literal after EXTERNAL");
    }
    var _ := p.EatNext();
    var conv: Option<string> := None;
    if p.i < |p.toks| && p.toks[p.i].kind in {Keyword("CDECL"), Keyword("PASCAL"), Keyword("STDCALL")} {
      conv := Some(KindName(p.toks[p.i].kind));
      var _ := p.EatNext();
    }
    var opts :- ReadExternalOptions(p);
    r := Ok(External(TokText(lib), conv, opts.0, opts.1, opts.2));
  }

  /** The header loop of PROCEDURE. */
  method ReadFlags(p: Parser) returns (r: Result<ProcFlags>)
    modifies p
    ensures Agrees(r, p.i, FlagsFrom(p.toks, NoFlags, old(p.i)))
  {
    var h := NoFlags;
    while true
      invariant FlagsFrom(p.toks, NoFlags, old(p.i)) == FlagsFrom(p.toks, h, p.i)
      decreases |p.toks| - p.i
    {
      if p.i >= |p.toks| {
        return Ok(h);
      }
      if !h.isPrivate && IsKeywordToken(At(p.toks, p.i), "PRIVATE") {
        var _ := p.EatNext();
        h := h.(isPrivate := true);
      } else if h.external.None? && !h.inSuper && IsKeywordToken(At(p.toks, p.i), "EXTERNAL") {
        var _ := p.EatNext();
        var ext :- ReadExternal(p);
        h := h.(external := Some(ext));
      } else if h.external.None? && !h.inSuper && IsKeywordToken(At(p.toks, p.i), "IN") {
        var _ := p.EatNext();
        if !IsKeywordToken(At(p.toks, p.i), "SUPER") {
          return Err("Expected SUPER after IN");
        }
        var _ := p.EatNext();
        h := h.(inSuper := true);
      } else {
        return Ok(h);
      }
    }
  }

  method ReadProcedureHead(p: Parser) returns (r: Result<(string, ProcFlags)>)
    modifies p
    ensures Agrees(r, p.i, ProcedureHead(p.toks, old(p.i)))
  {
    var _ :- p.Eat(Keyword("PROCEDURE"));
    var id :- p.Eat(IDENT);
    var flags :- ReadFlags(p);
    r := Ok((Lower(TokText(id)), flags));
  }

  /** The loop that splits a procedure's statements. */
  method SplitBody(stmts: seq<Stmt>) returns (params: seq<Param>, body: seq<Stmt>)
    ensures (params, body) == Partition(stmts)
  {
    params, body := [], [];
    for k := 0 to |stmts|
      invariant (params, body) == Partition(stmts[..k])
    {
      assert stmts[..k + 1][..k] == stmts[..k];
      var s := stmts[k];
      if s.DefineParameter? {
        params := params + [ParamOf(s)];
      } else if !s.Empty? {
        body := body + [s];
      }
    }
    assert stmts[..|stmts|] == stmts;
  }

  method ReadOnHeader(p: Parser) returns (r: Result<(Expr, string)>)
    requires p.dialect == Modular
    modifies p
    ensures Agrees(r, p.i, OnHeader(p.toks, old(p.i)))
  {
    var _ :- p.Eat(Keyword("ON"));
    var ev :- p.ParseExpr();
    if !IsKeywordToken(At(p.toks, p.i), "OF") {
      return Err(NoOf);
    }
    var _ := p.EatNext();
    if !(p.i < |p.toks| && p.toks[p.i].kind == IDENT) {
      return Err(NoWidget);
    }
    var target := p.toks[p.i];
    var _ := p.EatNext();
    if !IsKeywordToken(At(p.toks, p.i), "DO") {
      return Err(NoDo);
    }
    var _ := p.EatNext();
    r := Ok((ev, TokText(target)));
  }

  // ------------------------------------------------------------ statements

  /** `parseStatement`. */
  method Statement(p: Parser) returns (r: Result<Stmt>)
    requires p.dialect == Modular
    modifies p
    ensures Agrees(r, p.i, ParseStatement(p.registry, p.toks, old(p.i)))
    decreases |p.toks| - p.i, 3
  {
    var t :- p.Peek();
    if t.kind == Keyword("END") {
      var _ := p.EatNext();
      var _ :- p.OptionalDot();
      return Ok(Empty);
    }
    match HandlerFor(p.registry, t)
    case None =>
      r := Err(UnexpectedToken(t.kind));
    case Some(m) =>
      r := Route(p, m);
  }

  method Route(p: Parser, m: Registry.StmtModule) returns (r: Result<Stmt>)
    requires p.dialect == Modular
    modifies p
    ensures Agrees(r, p.i, Dispatch(p.registry, m, p.toks, old(p.i)))
    decreases |p.toks| - p.i, 2
  {
    match m
    case ProcedureModule => r := ProcedureStatement(p);
    case OnModule => r := OnStatement(p);
    case IfModule => r := IfStatement(p);
    case DoModule => r := DoStatement(p);
    case RepeatModule => r := RepeatStatement(p);
    case WhileModule => r := WhileStatement(p);
    case ForEachModule => r := ForEachStatement(p);
    case _ => r := SimpleStatement(p, m);
  }

  method SimpleStatement(p: Parser, m: Registry.StmtModule) returns (r: Result<Stmt>)
    requires p.dialect == Modular && IsSimple(m)
    modifies p
    ensures Agrees(r, p.i, ParseSimple(m, p.toks, old(p.i)))
  {
    match m
    case AssignModule => r := AssignStmt.Parse(p);
    case DefineModule => r := DefineStmt.Parse(p);
    case RunModule => r := RunStmt.Parse(p);
    case CreateWidgetModule => r := CreateStmt.Parse(p);
    case EnableModule => r := TargetListStmts.ParseEnableStmt(p);
    case ViewModule => r := TargetListStmts.ParseViewStmt(p);
    case ApplyModule => r := EventStmts.ParseApplyStmt(p);
    case WaitForModule => r := EventStmts.ParseWaitForStmt(p);
    case DisplayModule => r := DisplayStmt.Parse(p);
    case InputModule => r := InputStmt.Parse(p);
    case FindModule => r := FindStmt.Parse(p);
    case MessageModule => r := MessageStmt.Parse(p);
  }

  /** `parsePossiblyBlock`. */
  method PossiblyBlockOf(p: Parser) returns (r: Result<seq<Stmt>>)
    requires p.dialect == Modular
    modifies p
    ensures Agrees(r, p.i, PossiblyBlock(p.registry, p.toks, old(p.i)))
    decreases |p.toks| - p.i, 4
  {
    var colon :- p.Match(COLON);
    if colon {
      r := BlockThroughEnd(p);
    } else {
      var s :- Statement(p);
      r := Ok([s]);
    }
  }

  /** `parseBlockStatements`. */
  method BlockStatements(p: Parser) returns (r: Result<seq<Stmt>>)
    requires p.dialect == Modular
    modifies p
    ensures Agrees(r, p.i, BlockFrom(p.registry, p.toks, [], old(p.i)))
    decreases |p.toks| - p.i, 4
  {
    var acc: seq<Stmt> := [];
    while true
      invariant old(p.i) <= p.i
      invariant BlockFrom(p.registry, p.toks, [], old(p.i)) == BlockFrom(p.registry, p.toks, acc, p.i)
      decreases |p.toks| - p.i
    {
      ghost var j := p.i;
      var t :- p.Peek();
      if t.kind == Keyword("END") || t.kind == EOF {
        return Ok(acc);
      }
      if t.kind == DOT {
        var _ := p.EatNext();
        assert BlockFrom(p.registry, p.toks, acc, j) == BlockFrom(p.registry, p.toks, acc, p.i);
      } else {
        var s :- Statement(p);
        assert BlockFrom(p.registry, p.toks, acc, j) == BlockFrom(p.registry, p.toks, acc + [s], p.i);
        acc := acc + [s];
      }
    }
  }

  /** The block statements, END and an optional dot. */
  method BlockThroughEnd(p: Parser) returns (r: Result<seq<Stmt>>)
    requires p.dialect == Modular
    modifies p
    ensures Agrees(r, p.i, BlockEnd(p.registry, p.toks, old(p.i)))
    decreases |p.toks| - p.i, 5
  {
    var body :- BlockStatements(p);
    var _ :- p.Eat(Keyword("END"));
    var _ :- p.OptionalDot();
    r := Ok(body);
  }

  method IfStatement(p: Parser) returns (r: Result<Stmt>)
    requires p.dialect == Modular
    modifies p
    ensures Agrees(r, p.i, ParseIf(p.registry, p.toks, old(p.i)))
    decreases |p.toks| - p.i, 1
  {
    var test :- ReadGuarded(p, "IF", "THEN");
    var cons :- PossiblyBlockOf(p);
    var el :- p.Match(Keyword("ELSE"));
    if !el {
      return Ok(If(test, cons, None));
    }
    var alt :- PossiblyBlockOf(p);
    r := Ok(If(test, cons, Some(alt)));
  }

  method DoStatement(p: Parser) returns (r: Result<Stmt>)
    requires p.dialect == Modular
    modifies p
    ensures Agrees(r, p.i, ParseDo(p.registry, p.toks, old(p.i)))
    decreases |p.toks| - p.i, 1
  {
    var h :- ReadDoHeader(p);
    var body :- BlockThroughEnd(p);
    var o := h.1;
    r := Ok(Do(h.0, o.whileExpr, body, o.loopControl, o.forRecords, o.transaction));
  }

  method RepeatStatement(p: Parser) returns (r: Result<Stmt>)
    requires p.dialect == Modular
    modifies p
    ensures Agrees(r, p.i, ParseRepeat(p.registry, p.toks, old(p.i)))
    decreases |p.toks| - p.i, 1
  {
    var test :- ReadRepeatHeader(p);
    var body :- BlockThroughEnd(p);
    r := Ok(Repeat(test, body));
  }

  method WhileStatement(p: Parser) returns (r: Result<Stmt>)
    requires p.dialect == Modular
    modifies p
    ensures Agrees(r, p.i, ParseWhile(p.registry, p.toks, old(p.i)))
    decreases |p.toks| - p.i, 1
  {
    var test :- ReadWhileHeader(p);
    var body :- BlockThroughEnd(p);
    r := Ok(While(test, body));
  }

  method ForEachStatement(p: Parser) returns (r: Result<Stmt>)
    requires p.dialect == Modular
    modifies p
    ensures Agrees(r, p.i, ParseForEach(p.registry, p.toks, old(p.i)))
    decreases |p.toks| - p.i, 1
  {
    var head :- ReadForHead(p);
    var tail :- ReadForTail(p);
    var body :- BlockThroughEnd(p);
    r := Ok(ForEach(head.0, head.1, head.2, tail.1, tail.2, body, tail.0));
  }

  method ProcedureStatement(p: Parser) returns (r: Result<Stmt>)
    requires p.dialect == Modular
    modifies p
    ensures Agrees(r, p.i, ParseProcedure(p.registry, p.toks, old(p.i)))
    decreases |p.toks| - p.i, 1
  {
    var head :- ReadProcedureHead(p);
    var body :- ProcedureRest(p);
    var params, stmts := SplitBody(body.0);
    var h := head.1;
    r := Ok(Procedure(head.0, params, stmts, h.isPrivate, h.external, h.inSuper, body.1));
  }

  /** The body after a procedure header, or the prototype's dot. */
  method ProcedureRest(p: Parser) returns (r: Result<(seq<Stmt>, bool)>)
    requires p.dialect == Modular
    modifies p
    ensures Agrees(r, p.i, ProcedureBody(p.registry, p.toks, old(p.i)))
    decreases |p.toks| - p.i, 5
  {
    var colon :- p.Match(COLON);
    if colon {
      var stmts :- BlockStatements(p);
      var _ :- p.Eat(Keyword("END"));
      if IsKeywordToken(At(p.toks, p.i), "PROCEDURE") {
        var _ := p.EatNext();
      }
      var _ :- p.OptionalDot();
      return Ok((stmts, false));
    }
    if p.toks[p.i].kind == DOT {
      var _ := p.EatNext();
      return Ok(([], true));
    }
    r := Err(NoProcedureBody);
  }

  method OnStatement(p: Parser) returns (r: Result<Stmt>)
    requires p.dialect == Modular
    modifies p
    ensures Agrees(r, p.i, ParseOn(p.registry, p.toks, old(p.i)))
    decreases |p.toks| - p.i, 1
  {
    var h :- ReadOnHeader(p);
    var body :- PossiblyBlockOf(p);
    var _ :- p.OptionalDot();
    r := Ok(OnEvent(h.0, h.1, body));
  }

  /** `parseProgram`. */
  method Program(p: Parser) returns (r: Result<seq<Stmt>>)
    requires p.dialect == Modular
    modifies p
    ensures r == ProgramFrom(p.registry, p.toks, [], old(p.i))
    ensures r.Ok? ==> p.i < |p.toks| && p.toks[p.i].kind == EOF
  {
    var body: seq<Stmt> := [];
    while true
      invariant ProgramFrom(p.registry, p.toks, [], old(p.i)) == ProgramFrom(p.registry, p.toks, body, p.i)
      decreases |p.toks| - p.i
    {
      var t :- p.Peek();
      if t.kind == EOF {
        return Ok(body);
      }
      if t.kind == DOT {
        var _ := p.EatNext();
      } else {
        var s :- Statement(p);
        body := body + [s];
      }
    }
  }
}
