/** FIND [FIRST] table [OF parent] [WHERE expr] [NO-ERROR] [.]: fetch one
    record from the store and bind it to the table's buffer and variable. */
module FindStmt {
  import opened Results
  import opened Text
  import opened Values
  import opened Tokens
  import opened Lexer
  import opened Ast
  import opened Grammar
  import opened ParserCore
  import opened Runtime

  // ----------------------------------------------------------------- parsing

  /** `[OF ident]`: the parent table's name as written. */
  function RelationClause(toks: TokenList, j: nat): (r: Result<Parsed<Option<string>>>)
    ensures r.Ok? ==> j <= r.value.next <= |toks| && (r.value.value.None? <==> r.value.next == j)
  {
    var m :- Match(toks, j, Keyword("OF"));
    if !m.value then Ok(Parsed(None, j))
    else
      var id :- Eat(toks, m.next, IDENT);
      Ok(Parsed(Some(TokText(id.value)), id.next))
  }

  /** `[WHERE expr]`. */
  function WhereClause(toks: TokenList, j: nat): (r: Result<Parsed<Option<Expr>>>)
    ensures r.Ok? ==> j <= r.value.next <= |toks| && (r.value.value.None? <==> r.value.next == j)
  {
    var m :- Match(toks, j, Keyword("WHERE"));
    if !m.value then Ok(Parsed(None, j))
    else
      var e :- ParseExpr(Modular, toks, m.next);
      Ok(Parsed(Some(e.value), e.next))
  }

  /** The ERROR word after NO: the keyword, or an identifier spelling it in any case. */
  predicate IsErrorWord(t: Token) {
    t.kind == Keyword("ERROR") || (t.kind == IDENT && Upper(TokText(t)) == "ERROR")
  }

  /** After NO: an optional `-`, then an optional ERROR word. */
  function NoErrorRest(toks: TokenList, j: nat): (r: Result<nat>)
    ensures r.Ok? ==> j <= r.value <= j + 2
  {
    var t :- Peek(toks, j);
    var k := if IsOp(t, {"-"}) then j + 1 else j;
    var errTok :- Peek(toks, k);
    Ok(if IsErrorWord(errTok) then k + 1 else k)
  }

  /** `[NO [-] [ERROR]]`: whether NO was given. */
  function NoErrorClause(toks: TokenList, j: nat): (r: Result<Parsed<bool>>)
    ensures r.Ok? ==> j <= r.value.next <= j + 3 && (r.value.value <==> j < |toks| && toks[j].kind == Keyword("NO"))
  {
    var m :- Match(toks, j, Keyword("NO"));
    if !m.value then Ok(Parsed(false, j))
    else
      var k :- NoErrorRest(toks, m.next);
      Ok(Parsed(true, k))
  }

  /** `parseFind`. The target is kept as written; it is lower-cased only when executed. */
  function ParseFind(toks: TokenList, i: nat): (r: Result<Parsed<Stmt>>)
    ensures r.Ok? ==> i < r.value.next <= |toks| && r.value.value.Find?
  {
    var kw :- Eat(toks, i, Keyword("FIND"));
    var first :- Match(toks, kw.next, Keyword("FIRST"));
    var target :- Eat(toks, first.next, IDENT);
    var relation :- RelationClause(toks, target.next);
    var where :- WhereClause(toks, relation.next);
    var noError :- NoErrorClause(toks, where.next);
    var end :- OptionalDot(toks, noError.next);
    Ok(Parsed(Find(TokText(target.value), relation.value, where.value,
                   if first.value then Some("FIRST") else None, noError.value), end))
  }

  /** FIRST, OF and WHERE are optional and the table name is required: the
      target is the identifier right after FIND or after FIND FIRST, and the
      qualifier is "FIRST" exactly when FIRST was written. */
  lemma FindShape(toks: TokenList, i: nat)
    requires ParseFind(toks, i).Ok?
    ensures var j := if toks[i + 1].kind == Keyword("FIRST") then i + 2 else i + 1;
      j < |toks| && toks[j].kind == IDENT && ParseFind(toks, i).value.value.target == TokText(toks[j])
      && (ParseFind(toks, i).value.value.findQualifier.Some? <==> toks[i + 1].kind == Keyword("FIRST"))
  {
    var kw := Eat(toks, i, Keyword("FIND")).value;
    assert kw.next == i + 1;
    var first := Match(toks, kw.next, Keyword("FIRST")).value;
    assert first.value <==> toks[i + 1].kind == Keyword("FIRST");
    var target := Eat(toks, first.next, IDENT).value;
    assert target.value == toks[first.next];
  }

  method ParseRelation(p: Parser) returns (r: Result<Option<string>>)
    modifies p
    ensures Agrees(r, p.i, RelationClause(p.toks, old(p.i)))
  {
    var m :- p.Match(Keyword("OF"));
    if !m {
      return Ok(None);
    }
    var id :- p.Eat(IDENT);
    r := Ok(Some(TokText(id)));
  }

  method ParseWhere(p: Parser) returns (r: Result<Option<Expr>>)
    requires p.dialect == Modular
    modifies p
    ensures Agrees(r, p.i, WhereClause(p.toks, old(p.i)))
  {
    var m :- p.Match(Keyword("WHERE"));
    if !m {
      return Ok(None);
    }
    var e :- p.ParseExpr();
    r := Ok(Some(e));
  }

  method ParseNoError(p: Parser) returns (r: Result<bool>)
    modifies p
    ensures Agrees(r, p.i, NoErrorClause(p.toks, old(p.i)))
  {
    var m :- p.Match(Keyword("NO"));
    if !m {
      return Ok(false);
    }
    var t :- p.Peek();
    if t.kind == OP && t.value == TStr("-") {
      var _ := p.Eat(OP);
    }
    var errTok :- p.Peek();
    if IsErrorWord(errTok) {
      var _ := p.Eat(errTok.kind);
    }
    r := Ok(true);
  }

  method Parse(p: Parser) returns (r: Result<Stmt>)
    requires p.dialect == Modular
    modifies p
    ensures Agrees(r, p.i, ParseFind(p.toks, old(p.i)))
  {
    var _ :- p.Eat(Keyword("FIND"));
    var first :- p.Match(Keyword("FIRST"));
    var target :- p.Eat(IDENT);
    var relation :- ParseRelation(p);
    var where :- ParseWhere(p);
    var noError :- ParseNoError(p);
    var _ :- p.OptionalDot();
    r := Ok(Find(TokText(target), relation, where, if first then Some("FIRST") else None, noError));
  }

  // --------------------------------------------------------------- execution

  function NoParentMessage(target: string, relation: string): string {
    "No active record for " + relation + " to satisfy FIND " + target + " OF " + relation
  }

  /** `env.records[key]`, when there is a records map and the key is in it. */
  function ActiveRecord(f: Frame, key: string): Option<Value> {
    if f.records.Some? && key in f.records.value then Some(f.records.value[key]) else None
  }

  /** The query `executeFind` hands to `findFirst`, and the function it calls,
      or the exception thrown before the store is reached. */
  function FindRequest(ctx: Context, prisma: Option<map<string, Delegate>>, fs: Frames, env: EnvId, s: Stmt)
    : (r: Result<(Query -> Result<Value>, Query)>)
    requires s.Find?
    ensures r.Ok? ==> prisma.Some? && ctx.lowerFirst(s.target) in prisma.value
    ensures r.Ok? && s.relation.Some? ==>
      ActiveRecord(FrameOf(fs, env), Lower(s.relation.value)).Some?
      && ToBoolean(ActiveRecord(FrameOf(fs, env), Lower(s.relation.value)).value)
  {
    if prisma.None? then Err("Prisma client is required for FIND statements")
    else
      var delegateName := ctx.lowerFirst(s.target);
      if delegateName !in prisma.value || prisma.value[delegateName].findFirst.None? then
        Err("Prisma model " + s.target + " is not available")
      else
        var targetLower := Lower(s.target);
        var whereClause :- ctx.buildWhere(s.where, fs, env, targetLower);
        if s.relation.None? then Ok((prisma.value[delegateName].findFirst.value, Query(whereClause, None)))
        else
          var parentKey := Lower(s.relation.value);
          var parent := ActiveRecord(FrameOf(fs, env), parentKey);
          if parent.None? || !ToBoolean(parent.value) then Err(NoParentMessage(s.target, s.relation.value))
          else
            var relationClause := ctx.relationWhere(targetLower, parentKey, parent.value);
            Ok((prisma.value[delegateName].findFirst.value,
                Query(Some(ctx.mergeWhereClauses(whereClause, relationClause)), None)))
  }

  /** `env.records[key] = v` (when there is a records map) and `env.vars[key] = v`. */
  function BindRecord(f: Frame, key: string, v: Value): Frame {
    f.(records := if f.records.Some? then Some(f.records.value[key := v]) else None,
       vars := f.vars[key := v])
  }

  /** The binding after the fetch: a found record is bound as it is; no record
      binds `null` under NO-ERROR and throws otherwise. Nothing but the
      target's entries changes, and nothing is restored afterwards. */
  function AfterFetch(f: Frame, s: Stmt, record: Value): (r: Result<Frame>)
    requires s.Find?
    ensures r.Err? <==> !ToBoolean(record) && !s.noError
    ensures r.Err? ==> r.msg == "FIND " + s.target + " failed: no record found"
    ensures r.Ok? ==>
      var key := Lower(s.target);
      var bound := if ToBoolean(record) then record else Null;
      r.value.vars == f.vars[key := bound]
      && (f.records.Some? <==> r.value.records.Some?)
      && (f.records.Some? ==> r.value.records.value == f.records.value[key := bound])
      && r.value.(vars := f.vars, records := f.records) == f
  {
    if !ToBoolean(record) then
      if s.noError then Ok(BindRecord(f, Lower(s.target), Null))
      else Err("FIND " + s.target + " failed: no record found")
    else Ok(BindRecord(f, Lower(s.target), record))
  }

  /** `executeFind`: the environments after the statement, or its exception. */
  function FindEffect(ctx: Context, prisma: Option<map<string, Delegate>>, fs: Frames, env: EnvId, s: Stmt)
    : Result<Frames>
    requires s.Find?
  {
    var req :- FindRequest(ctx, prisma, fs, env, s);
    var record :- req.0(req.1);
    var f :- AfterFetch(FrameOf(fs, env), s, record);
    Ok(fs[env := f])
  }

  /** FIND ... OF parent with no truthy active record for the parent throws
      before the store is asked. */
  lemma FindNeedsParent(ctx: Context, prisma: Option<map<string, Delegate>>, fs: Frames, env: EnvId, s: Stmt)
    requires s.Find? && s.relation.Some?
    requires prisma.Some? && ctx.lowerFirst(s.target) in prisma.value
    requires prisma.value[ctx.lowerFirst(s.target)].findFirst.Some?
    requires ctx.buildWhere(s.where, fs, env, Lower(s.target)).Ok?
    requires var parent := ActiveRecord(FrameOf(fs, env), Lower(s.relation.value));
      parent.None? || !ToBoolean(parent.value)
    ensures FindEffect(ctx, prisma, fs, env, s) == Err(NoParentMessage(s.target, s.relation.value))
  {
  }

  /** A record the store returns is bound, under the lower-cased table name,
      to both the record buffer (when the environment has one) and the
      variable; the other entries of the environment are left alone. */
  lemma FindBindsRecord(ctx: Context, prisma: Option<map<string, Delegate>>, fs: Frames, env: EnvId, s: Stmt)
    requires s.Find? && FindRequest(ctx, prisma, fs, env, s).Ok?
    requires var req := FindRequest(ctx, prisma, fs, env, s).value;
      req.0(req.1).Ok? && ToBoolean(req.0(req.1).value)
    ensures var req := FindRequest(ctx, prisma, fs, env, s).value;
      var f := FrameOf(fs, env);
      FindEffect(ctx, prisma, fs, env, s) == Ok(fs[env := BindRecord(f, Lower(s.target), req.0(req.1).value)])
  {
  }

  /** No record: NO-ERROR binds `null` to both; without it the statement
      throws and nothing changes. */
  lemma FindMissing(ctx: Context, prisma: Option<map<string, Delegate>>, fs: Frames, env: EnvId, s: Stmt)
    requires s.Find? && FindRequest(ctx, prisma, fs, env, s).Ok?
    requires var req := FindRequest(ctx, prisma, fs, env, s).value;
      req.0(req.1).Ok? && !ToBoolean(req.0(req.1).value)
    ensures s.noError ==>
      FindEffect(ctx, prisma, fs, env, s) == Ok(fs[env := BindRecord(FrameOf(fs, env), Lower(s.target), Null)])
    ensures !s.noError ==>
      FindEffect(ctx, prisma, fs, env, s) == Err("FIND " + s.target + " failed: no record found")
  {
  }

  method Execute(h: Heap, ctx: Context, env: EnvId, s: Stmt) returns (r: Result<()>)
    requires s.Find?
    modifies h
    ensures match FindEffect(ctx, h.prisma, old(h.frames), env, s)
            case Ok(fs) => r == Ok(()) && h.frames == fs
            case Err(m) => r == Err(m) && h.frames == old(h.frames)
  {
    var req :- FindRequest(ctx, h.prisma, h.frames, env, s);
    var record :- req.0(req.1);
    var f := FrameOf(h.frames, env);
    var key := Lower(s.target);
    if !ToBoolean(record) {
      if !s.noError {
        return Err("FIND " + s.target + " failed: no record found");
      }
      if f.records.Some? {
        f := f.(records := Some(f.records.value[key := Null]));
      }
      f := f.(vars := f.vars[key := Null]);
      h.frames := h.frames[env := f];
      return Ok(());
    }
    if f.records.Some? {
      f := f.(records := Some(f.records.value[key := record]));
    }
    f := f.(vars := f.vars[key := record]);
    h.frames := h.frames[env := f];
    r := Ok(());
  }
}
