/** Statement dispatch and the statements that contain statements, as functions
    from a token array and a cursor to a node and the new cursor, or the
    message of the `SyntaxError` (or `TypeError`) the parser throws.

    `parseStatement`, `parsePossiblyBlock`, `parseBlockStatements` and the
    IF, DO, REPEAT, WHILE, FOR EACH, PROCEDURE and ON parsers call each other,
    so they are one group of mutually recursive functions; the headers of
    those statements, which contain no statements, are parsed by separate
    functions. The registry attached to the parser is the `reg` parameter. */
module Statements {
  import opened Results
  import opened Text
  import opened Values
  import opened Tokens
  import opened Lexer
  import MessageKeyword
  import opened Ast
  import opened Grammar
  import Registry
  import AssignStmt
  import DefineStmt
  import DisplayStmt
  import InputStmt
  import FindStmt
  import RunStmt
  import CreateStmt
  import TargetListStmts
  import EventStmts
  import MessageStmt

  // ------------------------------------------------------------- dispatch

  function UnexpectedToken(k: Kind): string { "Unexpected token " + KindName(k) }

  /** The module `parseStatement` hands a statement starting with `t` to: the
      first identifier-led module for an IDENT, otherwise the keyword map's
      entry for the token's type. Without a registry there is none. */
  function HandlerFor(reg: Option<Registry.Registry>, t: Token): Option<Registry.StmtModule> {
    if reg.None? then None
    else if t.kind == IDENT && reg.value.identifierParsers != [] then Some(reg.value.identifierParsers[0])
    else Registry.Lookup(reg.value.keywordMap, KindName(t.kind))
  }

  /** `parseStatement`. */
  function ParseStatement(reg: Option<Registry.Registry>, toks: TokenList, i: nat): (r: Result<Parsed<Stmt>>)
    ensures r.Ok? ==> i < r.value.next <= |toks|
    decreases |toks| - i, 3
  {
    var t :- Peek(toks, i);
    if t.kind == Keyword("END") then
      var end :- OptionalDot(toks, i + 1);
      Ok(Parsed(Empty, end))
    else
      match HandlerFor(reg, t)
      case None => Err(UnexpectedToken(t.kind))
      case Some(m) => Dispatch(reg, m, toks, i)
  }

  /** `handler.parse(parser, t)` for each statement module. */
  function Dispatch(reg: Option<Registry.Registry>, m: Registry.StmtModule, toks: TokenList, i: nat): (r: Result<Parsed<Stmt>>)
    ensures r.Ok? ==> i < r.value.next <= |toks|
    decreases |toks| - i, 2
  {
    match m
    case ProcedureModule => ParseProcedure(reg, toks, i)
    case OnModule => ParseOn(reg, toks, i)
    case IfModule => ParseIf(reg, toks, i)
    case DoModule => ParseDo(reg, toks, i)
    case RepeatModule => ParseRepeat(reg, toks, i)
    case WhileModule => ParseWhile(reg, toks, i)
    case ForEachModule => ParseForEach(reg, toks, i)
    case _ => ParseSimple(m, toks, i)
  }

  /** The modules whose statements contain no statements. */
  predicate IsSimple(m: Registry.StmtModule) {
    !(m.ProcedureModule? || m.OnModule? || m.IfModule? || m.DoModule? || m.RepeatModule? || m.WhileModule?
      || m.ForEachModule?)
  }

  function ParseSimple(m: Registry.StmtModule, toks: TokenList, i: nat): (r: Result<Parsed<Stmt>>)
    requires IsSimple(m)
    ensures r.Ok? ==> i < r.value.next <= |toks|
  {
    match m
    case AssignModule => AssignStmt.ParseAssign(toks, i)
    case DefineModule => DefineStmt.ParseDefine(toks, i)
    case RunModule => RunStmt.ParseRun(toks, i)
    case CreateWidgetModule => CreateStmt.ParseCreate(toks, i)
    case EnableModule => TargetListStmts.ParseEnable(toks, i)
    case ViewModule => TargetListStmts.ParseView(toks, i)
    case ApplyModule => EventStmts.ParseApply(toks, i)
    case WaitForModule => EventStmts.ParseWaitFor(toks, i)
    case DisplayModule => DisplayStmt.ParseDisplay(toks, i)
    case InputModule => InputStmt.ParseInput(toks, i)
    case FindModule => FindStmt.ParseFind(toks, i)
    case MessageModule => MessageStmt.ParseMessage(toks, i)
  }

  /** `parsePossiblyBlock`: a colon block ended by END, or one statement. */
  function PossiblyBlock(reg: Option<Registry.Registry>, toks: TokenList, j: nat): (r: Result<Parsed<seq<Stmt>>>)
    ensures r.Ok? ==> j < r.value.next <= |toks|
    decreases |toks| - j, 4
  {
    var colon :- Match(toks, j, COLON);
    if colon.value then BlockEnd(reg, toks, colon.next)
    else
      var s :- ParseStatement(reg, toks, j);
      Ok(Parsed([s.value], s.next))
  }

  /** `parseBlockStatements` from `j`, after the statements `acc`: stray DOTs
      are skipped, and the loop stops, without consuming it, at END or EOF. */
  function BlockFrom(reg: Option<Registry.Registry>, toks: TokenList, acc: seq<Stmt>, j: nat): (r: Result<Parsed<seq<Stmt>>>)
    ensures r.Ok? ==> j <= r.value.next < |toks|
    ensures r.Ok? ==> toks[r.value.next].kind == Keyword("END") || toks[r.value.next].kind == EOF
    decreases |toks| - j, 4
  {
    var t :- Peek(toks, j);
    if t.kind == Keyword("END") || t.kind == EOF then Ok(Parsed(acc, j))
    else if t.kind == DOT then BlockFrom(reg, toks, acc, j + 1)
    else
      var s :- ParseStatement(reg, toks, j);
      BlockFrom(reg, toks, acc + [s.value], s.next)
  }

  /** The block statements, then the required END and an optional dot. */
  function BlockEnd(reg: Option<Registry.Registry>, toks: TokenList, j: nat): (r: Result<Parsed<seq<Stmt>>>)
    ensures r.Ok? ==> j < r.value.next <= |toks|
    decreases |toks| - j, 5
  {
    var body :- BlockFrom(reg, toks, [], j);
    var end :- Eat(toks, body.next, Keyword("END"));
    var dot :- OptionalDot(toks, end.next);
    Ok(Parsed(body.value, dot))
  }

  /** `parseIf`: both branches by `parsePossiblyBlock`, the ELSE optional. */
  function ParseIf(reg: Option<Registry.Registry>, toks: TokenList, i: nat): (r: Result<Parsed<Stmt>>)
    ensures r.Ok? ==> i < r.value.next <= |toks| && r.value.value.If?
    decreases |toks| - i, 1
  {
    var test :- Guarded(toks, i, "IF", "THEN");
    var cons :- PossiblyBlock(reg, toks, test.next);
    var el :- Match(toks, cons.next, Keyword("ELSE"));
    if !el.value then Ok(Parsed(If(test.value, cons.value, None), cons.next))
    else
      var alt :- PossiblyBlock(reg, toks, el.next);
      Ok(Parsed(If(test.value, cons.value, Some(alt.value)), alt.next))
  }

  /** `parseDo`: the header, then the body up to END. */
  function ParseDo(reg: Option<Registry.Registry>, toks: TokenList, i: nat): (r: Result<Parsed<Stmt>>)
    ensures r.Ok? ==> i < r.value.next <= |toks| && r.value.value.Do?
    decreases |toks| - i, 1
  {
    var h :- DoHeader(toks, i);
    var body :- BlockEnd(reg, toks, h.next);
    var o := h.value.1;
    Ok(Parsed(Do(h.value.0, o.whileExpr, body.value, o.loopControl, o.forRecords, o.transaction), body.next))
  }

  /** `parseRepeat`. */
  function ParseRepeat(reg: Option<Registry.Registry>, toks: TokenList, i: nat): (r: Result<Parsed<Stmt>>)
    ensures r.Ok? ==> i < r.value.next <= |toks| && r.value.value.Repeat?
    decreases |toks| - i, 1
  {
    var h :- RepeatHeader(toks, i);
    var body :- BlockEnd(reg, toks, h.next);
    Ok(Parsed(Repeat(h.value, body.value), body.next))
  }

  /** `parseWhile`. */
  function ParseWhile(reg: Option<Registry.Registry>, toks: TokenList, i: nat): (r: Result<Parsed<Stmt>>)
    ensures r.Ok? ==> i < r.value.next <= |toks| && r.value.value.While?
    decreases |toks| - i, 1
  {
    var h :- WhileHeader(toks, i);
    var body :- BlockEnd(reg, toks, h.next);
    Ok(Parsed(While(h.value, body.value), body.next))
  }

  /** `parseForEach`. */
  function ParseForEach(reg: Option<Registry.Registry>, toks: TokenList, i: nat): (r: Result<Parsed<Stmt>>)
    ensures r.Ok? ==> i < r.value.next <= |toks| && r.value.value.ForEach?
    decreases |toks| - i, 1
  {
    var head :- ForHead(toks, i);
    var tail :- ForTail(toks, head.next);
    var body :- BlockEnd(reg, toks, tail.next);
    var (qualifier, target, relation) := head.value;
    var (noLock, where, orderBy) := tail.value;
    Ok(Parsed(ForEach(qualifier, target, relation, where, orderBy, body.value, noLock), body.next))
  }

  /** `parseProcedure`: the header, the body or the prototype's dot, and the
      body's split into parameters and statements. */
  function ParseProcedure(reg: Option<Registry.Registry>, toks: TokenList, i: nat): (r: Result<Parsed<Stmt>>)
    ensures r.Ok? ==> i < r.value.next <= |toks| && r.value.value.Procedure?
    decreases |toks| - i, 1
  {
    var head :- ProcedureHead(toks, i);
    var body :- ProcedureBody(reg, toks, head.next);
    var (name, h) := head.value;
    var (params, stmts) := Partition(body.value.0);
    Ok(Parsed(Procedure(name, params, stmts, h.isPrivate, h.external, h.inSuper, body.value.1), body.next))
  }

  /** After the header: `: body END [PROCEDURE] [.]`, or `.` for a prototype. */
  function ProcedureBody(reg: Option<Registry.Registry>, toks: TokenList, j: nat): (r: Result<Parsed<(seq<Stmt>, bool)>>)
    ensures r.Ok? ==> j < r.value.next <= |toks|
    ensures r.Ok? ==> (r.value.value.1 <==> toks[j].kind == DOT) && (r.value.value.1 ==> r.value.value.0 == [])
    ensures j < |toks| && toks[j].kind != COLON && toks[j].kind != DOT ==> r == Err(NoProcedureBody)
    decreases |toks| - j, 5
  {
    var colon :- Match(toks, j, COLON);
    if colon.value then
      var stmts :- BlockFrom(reg, toks, [], colon.next);
      var end :- Eat(toks, stmts.next, Keyword("END"));
      var k := if IsKeywordToken(At(toks, end.next), "PROCEDURE") then end.next + 1 else end.next;
      var dot :- OptionalDot(toks, k);
      Ok(Parsed((stmts.value, false), dot))
    else
      if toks[j].kind == DOT then Ok(Parsed(([], true), j + 1))
      else Err(NoProcedureBody)
  }

  /** `parseOn`: the header through DO, the body, an optional dot. */
  function ParseOn(reg: Option<Registry.Registry>, toks: TokenList, i: nat): (r: Result<Parsed<Stmt>>)
    ensures r.Ok? ==> i < r.value.next <= |toks| && r.value.value.OnEvent?
    decreases |toks| - i, 1
  {
    var h :- OnHeader(toks, i);
    var body :- PossiblyBlock(reg, toks, h.next);
    var dot :- OptionalDot(toks, body.next);
    Ok(Parsed(OnEvent(h.value.0, h.value.1, body.value), dot))
  }

  /** `parseProgram`: statements up to EOF, skipping stray DOTs. An END at the
      top level is parsed as a statement (an `Empty` one). */
  function ProgramFrom(reg: Option<Registry.Registry>, toks: TokenList, acc: seq<Stmt>, j: nat): (r: Result<seq<Stmt>>)
    ensures r.Ok? ==> |r.value| >= |acc|
    decreases |toks| - j
  {
    var t :- Peek(toks, j);
    if t.kind == EOF then Ok(acc)
    else if t.kind == DOT then ProgramFrom(reg, toks, acc, j + 1)
    else
      var s :- ParseStatement(reg, toks, j);
      ProgramFrom(reg, toks, acc + [s.value], s.next)
  }

  function ParseProgram(reg: Option<Registry.Registry>, toks: TokenList): Result<seq<Stmt>> {
    ProgramFrom(reg, toks, [], 0)
  }

  // -------------------------------------------------------------- headers

  /** `kw expr sep`: the heads of IF (`IF expr THEN`) and WHILE (`WHILE expr DO`). */
  function Guarded(toks: TokenList, i: nat, kw: string, sep: string): (r: Result<Parsed<Expr>>)
    ensures r.Ok? ==> i + 2 < r.value.next <= |toks| && toks[r.value.next - 1].kind == Keyword(sep)
    ensures r.Ok? ==> ParseExpr(Modular, toks, i + 1).Ok? && r.value.value == ParseExpr(Modular, toks, i + 1).value.value
  {
    var k :- Eat(toks, i, Keyword(kw));
    var e :- ParseExpr(Modular, toks, k.next);
    var s :- Eat(toks, e.next, Keyword(sep));
    Ok(Parsed(e.value, s.next))
  }

  /** `[WHILE expr]`. */
  function OptionalWhile(d: Dialect, toks: TokenList, j: nat): (r: Result<Parsed<Option<Expr>>>)
    ensures r.Ok? ==> j <= r.value.next <= |toks|
    ensures r.Ok? ==> j < |toks| && (r.value.value.Some? <==> toks[j].kind == Keyword("WHILE"))
  {
    var w :- Match(toks, j, Keyword("WHILE"));
    if !w.value then Ok(Parsed(None, j))
    else
      var e :- ParseExpr(d, toks, w.next);
      Ok(Parsed(Some(e.value), e.next))
  }

  /** `REPEAT [WHILE expr] [:]`. */
  function RepeatHeader(toks: TokenList, i: nat): (r: Result<Parsed<Option<Expr>>>)
    ensures r.Ok? ==> i < r.value.next <= |toks|
  {
    var kw :- Eat(toks, i, Keyword("REPEAT"));
    var w :- OptionalWhile(Modular, toks, kw.next);
    var c :- Match(toks, w.next, COLON);
    Ok(Parsed(w.value, c.next))
  }

  /** `WHILE expr DO [:]`. */
  function WhileHeader(toks: TokenList, i: nat): (r: Result<Parsed<Expr>>)
    ensures r.Ok? ==> i < r.value.next <= |toks|
  {
    var test :- Guarded(toks, i, "WHILE", "DO");
    var c :- Match(toks, test.next, COLON);
    Ok(Parsed(test.value, c.next))
  }

  /** The options of DO, as the option loop accumulates them. */
  datatype DoOpts = DoOpts(
    forRecords: seq<RecordRef>, whileExpr: Option<Expr>, loopControl: Option<LoopControl>, transaction: bool)

  const NoDoOpts := DoOpts([], None, None, false)

  /** A record of a FOR list is named by the last segment of its path. */
  predicate NamedByLast(rec: RecordRef) {
    rec.path != [] && rec.name == rec.path[|rec.path| - 1]
  }

  /** One record of a FOR list. */
  function RecordName(toks: TokenList, j: nat): (r: Result<Parsed<RecordRef>>)
    ensures r.Ok? ==> j < r.value.next <= |toks|
    ensures r.Ok? ==> NamedByLast(r.value.value)
  {
    var path :- FieldPath(toks, j);
    Ok(Parsed(RecordRef(path.value[|path.value| - 1], path.value), path.next))
  }

  /** Further records while a comma follows. */
  function RecordsFrom(toks: TokenList, acc: seq<RecordRef>, j: nat): (r: Result<Parsed<seq<RecordRef>>>)
    ensures r.Ok? ==> j <= r.value.next <= |toks| && |r.value.value| >= |acc|
    ensures r.Ok? && (forall rec :: rec in acc ==> NamedByLast(rec)) ==> forall rec :: rec in r.value.value ==> NamedByLast(rec)
    decreases |toks| - j
  {
    var c :- Match(toks, j, COMMA);
    if !c.value then Ok(Parsed(acc, j))
    else
      var rec :- RecordName(toks, c.next);
      RecordsFrom(toks, acc + [rec.value], rec.next)
  }

  /** The list after FOR: at least one record, each named by its last segment. */
  function RecordList(toks: TokenList, j: nat): (r: Result<Parsed<seq<RecordRef>>>)
    ensures r.Ok? ==> j < r.value.next <= |toks| && r.value.value != []
    ensures r.Ok? ==> forall rec :: rec in r.value.value ==> NamedByLast(rec)
  {
    var first :- RecordName(toks, j);
    RecordsFrom(toks, [first.value], first.next)
  }

  const NoTo := "Expected TO in DO iteration range"

  /** `[BY expr]`, taken when the keyword (or an identifier spelling it) follows. */
  function ByClause(toks: TokenList, j: nat): (r: Result<Parsed<Option<Expr>>>)
    ensures r.Ok? ==> j <= r.value.next && (j <= |toks| ==> r.value.next <= |toks|)
    ensures r.Ok? ==> (r.value.value.None? <==> !IsKeywordToken(At(toks, j), "BY"))
    ensures r.Ok? && r.value.value.None? ==> r.value.next == j
  {
    if !IsKeywordToken(At(toks, j), "BY") then Ok(Parsed(None, j))
    else
      var e :- ParseExpr(Modular, toks, j + 1);
      Ok(Parsed(Some(e.value), e.next))
  }

  /** `ident = from TO to [BY step]`; the variable is lower-cased. */
  function Counted(toks: TokenList, j: nat): (r: Result<Parsed<LoopControl>>)
    ensures r.Ok? ==> j < r.value.next <= |toks|
    ensures r.Ok? ==> toks[j].kind == IDENT && r.value.value.variable == Lower(TokText(toks[j]))
  {
    var v :- Eat(toks, j, IDENT);
    var op :- Eat(toks, v.next, OP);
    var from :- ParseExpr(Modular, toks, op.next);
    if !IsKeywordToken(At(toks, from.next), "TO") then Err(NoTo)
    else
      var to :- ParseExpr(Modular, toks, from.next + 1);
      var step :- ByClause(toks, to.next);
      Ok(Parsed(LoopControl(Lower(TokText(v.value)), from.value, to.value, step.value), step.next))
  }

  /** The option loop of `parseDo`: a FOR list (once), TRANSACTION (once), a
      counted range (once), WHILE (once); anything else ends the options. */
  function DoOptions(toks: TokenList, o: DoOpts, j: nat): (r: Result<Parsed<DoOpts>>)
    ensures r.Ok? ==> j <= r.value.next <= |toks|
    ensures r.Ok? && o.forRecords != [] ==> r.value.value.forRecords == o.forRecords
    decreases |toks| - j
  {
    var t :- Peek(toks, j);
    if IsKeywordToken(Some(t), "FOR") && o.forRecords == [] then
      var recs :- RecordList(toks, j + 1);
      DoOptions(toks, o.(forRecords := recs.value), recs.next)
    else if IsKeywordToken(Some(t), "TRANSACTION") && !o.transaction then
      DoOptions(toks, o.(transaction := true), j + 1)
    else if o.loopControl.None? && t.kind == IDENT && At(toks, j + 1).Some? && IsOp(toks[j + 1], {"="}) then
      var lc :- Counted(toks, j);
      DoOptions(toks, o.(loopControl := Some(lc.value)), lc.next)
    else if o.whileExpr.None? && IsKeywordToken(Some(t), "WHILE") then
      var e :- ParseExpr(Modular, toks, j + 1);
      DoOptions(toks, o.(whileExpr := Some(e.value)), e.next)
    else Ok(Parsed(o, j))
  }

  /** A `label:` prefix is taken only before DO. */
  predicate Labelled(toks: TokenList, i: nat) {
    i + 2 < |toks| && toks[i].kind == IDENT && toks[i + 1].kind == COLON && IsKeywordToken(At(toks, i + 2), "DO")
  }

  /** `[label:] DO options [:]`. */
  function DoHeader(toks: TokenList, i: nat): (r: Result<Parsed<(Option<string>, DoOpts)>>)
    ensures r.Ok? ==> i < r.value.next <= |toks|
    ensures r.Ok? ==> (r.value.value.0.Some? <==> Labelled(toks, i))
    ensures r.Ok? && Labelled(toks, i) ==> r.value.value.0 == Some(TokText(toks[i]))
  {
    var first :- Peek(toks, i);
    var j := if Labelled(toks, i) then i + 2 else i;
    var d :- Eat(toks, j, Keyword("DO"));
    var o :- DoOptions(toks, NoDoOpts, d.next);
    var c :- Match(toks, o.next, COLON);
    Ok(Parsed((if Labelled(toks, i) then Some(TokText(first)) else None, o.value), c.next))
  }

  const NoQualifier := "Expected EACH, FIRST, or LAST after FOR"
  const NoLock := "Expected LOCK after NO in FOR EACH"
  const BreakWithoutBy := "BREAK must be followed by BY"

  /** `FOR qualifier target [OF parent]`. */
  function ForHead(toks: TokenList, i: nat): (r: Result<Parsed<(string, string, Option<string>)>>)
    ensures r.Ok? ==> i + 2 < r.value.next <= |toks|
    ensures r.Ok? ==> r.value.value.0 in {"EACH", "FIRST", "LAST"}
    ensures (i + 1 < |toks| && toks[i].kind == Keyword("FOR")
      && toks[i + 1].kind !in {Keyword("EACH"), Keyword("FIRST"), Keyword("LAST")}) ==> r == Err(NoQualifier)
  {
    var f :- Eat(toks, i, Keyword("FOR"));
    var q :- Peek(toks, f.next);
    if q.kind !in {Keyword("EACH"), Keyword("FIRST"), Keyword("LAST")} then Err(NoQualifier)
    else
      var t :- Eat(toks, f.next + 1, IDENT);
      var rel :- FindStmt.RelationClause(toks, t.next);
      Ok(Parsed((KindName(q.kind), TokText(t.value), rel.value), rel.next))
  }

  /** `[NO [-] LOCK]`: after NO, LOCK (or an identifier spelling it) is required. */
  function NoLockClause(toks: TokenList, j: nat): (r: Result<Parsed<bool>>)
    ensures r.Ok? ==> j <= r.value.next <= |toks| && (r.value.value <==> j < |toks| && toks[j].kind == Keyword("NO"))
    ensures r.Ok? && !r.value.value ==> r.value.next == j
  {
    var m :- Match(toks, j, Keyword("NO"));
    if !m.value then Ok(Parsed(false, j))
    else
      var t :- Peek(toks, m.next);
      var k := if IsOp(t, {"-"}) then m.next + 1 else m.next;
      var lock :- Peek(toks, k);
      if lock.kind == Keyword("LOCK") || (lock.kind == IDENT && Upper(TokText(lock)) == "LOCK") then Ok(Parsed(true, k + 1))
      else Err(NoLock)
  }

  /** The BY loop: `[BREAK] BY path [DESCENDING]`, repeated; BREAK without BY
      is an error. */
  function OrderFrom(toks: TokenList, acc: seq<OrderEntry>, j: nat): (r: Result<Parsed<seq<OrderEntry>>>)
    ensures r.Ok? ==> j <= r.value.next <= |toks| && |r.value.value| >= |acc|
    ensures r.Ok? && |r.value.value| > |acc| ==> j < |toks| && toks[j].kind in {Keyword("BREAK"), Keyword("BY")}
    decreases |toks| - j
  {
    var br :- Match(toks, j, Keyword("BREAK"));
    var byKw :- Match(toks, br.next, Keyword("BY"));
    if !byKw.value then
      if br.value then Err(BreakWithoutBy) else Ok(Parsed(acc, byKw.next))
    else
      var path :- FieldPath(toks, byKw.next);
      var desc :- Match(toks, path.next, Keyword("DESCENDING"));
      OrderFrom(toks, acc + [OrderEntry(path.value, desc.value, br.value)], desc.next)
  }

  /** `[NO-LOCK] [WHERE expr] [BY ...] :` -- the colon is required. */
  function ForTail(toks: TokenList, j: nat): (r: Result<Parsed<(bool, Option<Expr>, seq<OrderEntry>)>>)
    ensures r.Ok? ==> j < r.value.next <= |toks| && toks[r.value.next - 1].kind == COLON
  {
    var nl :- NoLockClause(toks, j);
    var w :- FindStmt.WhereClause(toks, nl.next);
    var ob :- OrderFrom(toks, [], w.next);
    var c :- Eat(toks, ob.next, COLON);
    Ok(Parsed((nl.value, w.value, ob.value), c.next))
  }

  /** The header flags of a procedure. */
  datatype ProcFlags = ProcFlags(isPrivate: bool, external: Option<External>, inSuper: bool)

  const NoFlags := ProcFlags(false, None, false)
  const NoProcedureBody := "Expected : or . after PROCEDURE header"

  /** `[ORDINAL number]`. */
  function OrdinalClause(toks: TokenList, j: nat): (r: Result<Parsed<Option<JsNum>>>)
    ensures r.Ok? ==> j <= r.value.next && (j <= |toks| ==> r.value.next <= |toks|)
    ensures r.Ok? ==> (r.value.value.None? <==> !IsKeywordToken(At(toks, j), "ORDINAL"))
    ensures r.Ok? && r.value.value.None? ==> r.value.next == j
  {
    if !IsKeywordToken(At(toks, j), "ORDINAL") then Ok(Parsed(None, j))
    else
      var n :- Peek(toks, j + 1);
      if n.kind != NUMBER then Err("Expected numeric literal after ORDINAL")
      else Ok(Parsed(Some(n.value.n), j + 2))
  }

  /** `[THREAD [-] SAFE]`: after THREAD, SAFE is required. */
  function ThreadSafe(toks: TokenList, j: nat): (r: Result<Parsed<bool>>)
    ensures r.Ok? ==> j <= r.value.next && (j <= |toks| ==> r.value.next <= |toks|)
    ensures r.Ok? ==> (r.value.value <==> IsKeywordToken(At(toks, j), "THREAD"))
    ensures r.Ok? && !r.value.value ==> r.value.next == j
  {
    if !IsKeywordToken(At(toks, j), "THREAD") then Ok(Parsed(false, j))
    else
      var k := if IsHyphen(At(toks, j + 1)) then j + 2 else j + 1;
      if !IsKeywordToken(At(toks, k), "SAFE") then Err("Expected SAFE after THREAD-")
      else Ok(Parsed(true, k + 1))
  }

  /** After EXTERNAL: the library string, then an optional calling convention. */
  function ExternalClause(toks: TokenList, j: nat): (r: Result<Parsed<External>>)
    ensures r.Ok? ==> j < r.value.next <= |toks| && toks[j].kind == STRING && r.value.value.library == TokText(toks[j])
    ensures j < |toks| && toks[j].kind != STRING ==> r == Err("Expected string literal after EXTERNAL")
  {
    var lib :- Peek(toks, j);
    if lib.kind != STRING then Err("Expected string literal after EXTERNAL")
    else
      var conv := if j + 1 < |toks| && toks[j + 1].kind in {Keyword("CDECL"), Keyword("PASCAL"), Keyword("STDCALL")}
        then Some(KindName(toks[j + 1].kind)) else None;
      var rest :- ExternalOptions(toks, if conv.Some? then j + 2 else j + 1);
      var (ordinal, persistent, threadSafe) := rest.value;
      Ok(Parsed(External(TokText(lib), conv, ordinal, persistent, threadSafe), rest.next))
  }

  /** `[ORDINAL n] [PERSISTENT] [THREAD-SAFE]`. */
  function ExternalOptions(toks: TokenList, j: nat): (r: Result<Parsed<(Option<JsNum>, bool, bool)>>)
    ensures r.Ok? ==> j <= r.value.next && (j <= |toks| ==> r.value.next <= |toks|)
  {
    var ord :- OrdinalClause(toks, j);
    var persistent := IsKeywordToken(At(toks, ord.next), "PERSISTENT");
    var ts :- ThreadSafe(toks, if persistent then ord.next + 1 else ord.next);
    Ok(Parsed((ord.value, persistent, ts.value), ts.next))
  }

  /** The header loop: PRIVATE once; EXTERNAL or IN SUPER, once and not both;
      anything else (or the end of the tokens) ends the header. */
  function FlagsFrom(toks: TokenList, h: ProcFlags, j: nat): (r: Result<Parsed<ProcFlags>>)
    ensures r.Ok? ==> j <= r.value.next && (j <= |toks| ==> r.value.next <= |toks|)
    ensures r.Ok? && h.isPrivate ==> r.value.value.isPrivate
    ensures r.Ok? && !(h.external.Some? && h.inSuper) ==> !(r.value.value.external.Some? && r.value.value.inSuper)
    decreases |toks| - j
  {
    if j >= |toks| then Ok(Parsed(h, j))
    else if !h.isPrivate && IsKeywordToken(At(toks, j), "PRIVATE") then FlagsFrom(toks, h.(isPrivate := true), j + 1)
    else if h.external.None? && !h.inSuper && IsKeywordToken(At(toks, j), "EXTERNAL") then
      var ext :- ExternalClause(toks, j + 1);
      FlagsFrom(toks, h.(external := Some(ext.value)), ext.next)
    else if h.external.None? && !h.inSuper && IsKeywordToken(At(toks, j), "IN") then
      if !IsKeywordToken(At(toks, j + 1), "SUPER") then Err("Expected SUPER after IN")
      else FlagsFrom(toks, h.(inSuper := true), j + 2)
    else Ok(Parsed(h, j))
  }

  /** `PROCEDURE name header`; the name is lower-cased. */
  function ProcedureHead(toks: TokenList, i: nat): (r: Result<Parsed<(string, ProcFlags)>>)
    ensures r.Ok? ==> i + 1 < r.value.next <= |toks|
    ensures r.Ok? ==> toks[i + 1].kind == IDENT && r.value.value.0 == Lower(TokText(toks[i + 1]))
    ensures r.Ok? ==> !(r.value.value.1.external.Some? && r.value.value.1.inSuper)
  {
    var kw :- Eat(toks, i, Keyword("PROCEDURE"));
    var id :- Eat(toks, kw.next, IDENT);
    var flags :- FlagsFrom(toks, NoFlags, id.next);
    Ok(Parsed((Lower(TokText(id.value)), flags.value), flags.next))
  }

  /** The parameter a `DefineParameter` statement declares. */
  function ParamOf(s: Stmt): Param
    requires s.DefineParameter?
  {
    Param(s.id, s.mode, s.dataType, s.init, s.noUndo)
  }

  /** The split of a procedure's statements: `DefineParameter` statements
      become parameters, `Empty` statements are dropped, the rest is the body. */
  function Partition(stmts: seq<Stmt>): (seq<Param>, seq<Stmt>)
    decreases |stmts|
  {
    if stmts == [] then ([], [])
    else
      var (params, body) := Partition(stmts[..|stmts| - 1]);
      var s := stmts[|stmts| - 1];
      if s.DefineParameter? then (params + [ParamOf(s)], body)
      else if s.Empty? then (params, body)
      else (params, body + [s])
  }

  /** `ON expr OF widget DO`. */
  function OnHeader(toks: TokenList, i: nat): (r: Result<Parsed<(Expr, string)>>)
    ensures r.Ok? ==> i + 3 < r.value.next <= |toks|
    ensures r.Ok? ==> toks[r.value.next - 2].kind == IDENT && r.value.value.1 == TokText(toks[r.value.next - 2])
  {
    var kw :- Eat(toks, i, Keyword("ON"));
    var ev :- ParseExpr(Modular, toks, kw.next);
    if !IsKeywordToken(At(toks, ev.next), "OF") then Err(NoOf)
    else if !(ev.next + 1 < |toks| && toks[ev.next + 1].kind == IDENT) then Err(NoWidget)
    else if !IsKeywordToken(At(toks, ev.next + 2), "DO") then Err(NoDo)
    else Ok(Parsed((ev.value, TokText(toks[ev.next + 1])), ev.next + 3))
  }

  const NoOf := "Expected OF after ON event expression"
  const NoWidget := "Expected widget name after OF"
  const NoDo := "Expected DO after widget name in ON statement"

  // ----------------------------------------------------------- properties

  /** END at the start of a statement is an empty statement, with or without
      a registry. */
  lemma EndIsEmpty(reg: Option<Registry.Registry>, toks: TokenList, i: nat)
    requires i + 1 < |toks| && toks[i].kind == Keyword("END")
    ensures ParseStatement(reg, toks, i) == Ok(Parsed(Empty, if toks[i + 1].kind == DOT then i + 2 else i + 1))
  {
  }

  /** Without a registry, every statement but END is an unexpected token. */
  lemma NoRegistryRejects(toks: TokenList, i: nat)
    requires i < |toks| && toks[i].kind != Keyword("END")
    ensures ParseStatement(None, toks, i) == Err(UnexpectedToken(toks[i].kind))
  {
  }

  /** A statement that starts with an identifier goes to the first module
      that accepts identifier-led statements; with the shipped module list
      that is ASSIGN alone (`Registry.StandardIdentifierParsers`), so a bare
      `x = e` is an assignment. */
  lemma {:induction false} BareAssignment(reg: Registry.Registry, toks: TokenList, i: nat)
    requires reg.identifierParsers != [] && reg.identifierParsers[0] == Registry.AssignModule
    requires i < |toks| && toks[i].kind == IDENT
    ensures ParseStatement(Some(reg), toks, i) == AssignStmt.ParseAssign(toks, i)
  {
    assert ParseStatement(Some(reg), toks, i) == Dispatch(Some(reg), Registry.AssignModule, toks, i);
  }

  /** As written the word MESSAGE is lexed as an identifier (`MessageKeyword.MessageWordIsIdent`),
      so `MESSAGE "x"` never reaches the MESSAGE module: with ASSIGN first among
      the identifier parsers it fails as an assignment missing its `=`, and with
      no identifier parser and no IDENT entry it is an unexpected token. */
  lemma {:induction false} MessageStatementRejected(reg: Registry.Registry, toks: TokenList, i: nat, raw: string, pos: int)
    requires Upper(raw) == "MESSAGE" && i + 1 < |toks|
    requires toks[i] == WordToken(Modular, raw, pos) && toks[i + 1].kind == STRING
    ensures reg.identifierParsers != [] && reg.identifierParsers[0] == Registry.AssignModule ==>
      ParseStatement(Some(reg), toks, i) == Err("Expected OP but got STRING")
    ensures reg.identifierParsers == [] && "IDENT" !in reg.keywordMap ==>
      ParseStatement(Some(reg), toks, i) == Err("Unexpected token IDENT")
  {
    MessageKeyword.MessageWordIsIdent(Modular, raw, pos);
    if reg.identifierParsers != [] && reg.identifierParsers[0] == Registry.AssignModule {
      BareAssignment(reg, toks, i);
      AssignWithoutEquals(toks, i);
    } else if reg.identifierParsers == [] && "IDENT" !in reg.keywordMap {
      UnhandledIdent(reg, toks, i);
    }
  }

  /** An identifier followed by a string is an assignment missing its operator. */
  lemma AssignWithoutEquals(toks: TokenList, i: nat)
    requires i + 1 < |toks| && toks[i].kind == IDENT && toks[i + 1].kind == STRING
    ensures AssignStmt.ParseAssign(toks, i) == Err("Expected OP but got STRING")
  {
    assert AssignStmt.ParseAssign(toks, i) == AssignStmt.AssignBody(toks, i);
    assert ExpectedMessage(OP, STRING) == "Expected OP but got STRING";
  }

  /** With no identifier parser and no IDENT entry, an identifier starts no statement. */
  lemma UnhandledIdent(reg: Registry.Registry, toks: TokenList, i: nat)
    requires reg.identifierParsers == [] && "IDENT" !in reg.keywordMap
    requires i < |toks| && toks[i].kind == IDENT
    ensures ParseStatement(Some(reg), toks, i) == Err("Unexpected token IDENT")
  {
    assert HandlerFor(Some(reg), toks[i]) == None;
  }

  /** With MESSAGE in the keyword table the word becomes a MESSAGE keyword token
      (`MessageKeyword.CorrectedWordToken`), and with the MESSAGE module registered a
      statement starting with that token is parsed by `parseMessage`. */
  lemma {:induction false} MessageCorrected(reg: Registry.Registry, toks: TokenList, i: nat)
    requires i < |toks| && toks[i].kind == Keyword("MESSAGE")
    requires Registry.Lookup(reg.keywordMap, "MESSAGE") == Some(Registry.MessageModule)
    ensures ParseStatement(Some(reg), toks, i) == MessageStmt.ParseMessage(toks, i)
  {
    assert ParseStatement(Some(reg), toks, i) == Dispatch(Some(reg), Registry.MessageModule, toks, i);
  }

  /** IF requires THEN after its condition. */
  lemma IfNeedsThen(reg: Option<Registry.Registry>, toks: TokenList, i: nat)
    requires i < |toks| && toks[i].kind == Keyword("IF") && ParseExpr(Modular, toks, i + 1).Ok?
    requires var n := ParseExpr(Modular, toks, i + 1).value.next; n < |toks| && toks[n].kind != Keyword("THEN")
    ensures ParseIf(reg, toks, i) == Err(ExpectedMessage(Keyword("THEN"), toks[ParseExpr(Modular, toks, i + 1).value.next].kind))
  {
  }

  /** The statements a block has collected stay in front, in order. */
  lemma {:induction false} BlockKeepsCollected(reg: Option<Registry.Registry>, toks: TokenList, acc: seq<Stmt>, j: nat)
    requires BlockFrom(reg, toks, acc, j).Ok?
    ensures var v := BlockFrom(reg, toks, acc, j).value.value; |acc| <= |v| && v[..|acc|] == acc
    decreases |toks| - j
  {
    var t := toks[j];
    if t.kind == Keyword("END") || t.kind == EOF {
    } else if t.kind == DOT {
      BlockKeepsCollected(reg, toks, acc, j + 1);
    } else {
      var s := ParseStatement(reg, toks, j).value;
      BlockKeepsCollected(reg, toks, acc + [s.value], s.next);
      var v := BlockFrom(reg, toks, acc, j).value.value;
      assert v[..|acc|] == v[..|acc| + 1][..|acc|];
    }
  }

  /** A second FOR list ends the DO options instead of being parsed. */
  lemma ForListOnce(toks: TokenList, o: DoOpts, j: nat)
    requires o.forRecords != [] && j < |toks| && toks[j].kind == Keyword("FOR")
    ensures DoOptions(toks, o, j) == Ok(Parsed(o, j))
  {
  }

  /** A counted range requires TO after its start. */
  lemma CountedNeedsTo(toks: TokenList, j: nat)
    requires j + 1 < |toks| && toks[j].kind == IDENT && toks[j + 1].kind == OP
    requires ParseExpr(Modular, toks, j + 2).Ok?
    requires !IsKeywordToken(At(toks, ParseExpr(Modular, toks, j + 2).value.next), "TO")
    ensures Counted(toks, j) == Err(NoTo)
  {
  }

  /** BREAK in the sort list must be followed by BY. */
  lemma BreakNeedsBy(toks: TokenList, acc: seq<OrderEntry>, j: nat)
    requires j + 1 < |toks| && toks[j].kind == Keyword("BREAK") && toks[j + 1].kind != Keyword("BY")
    ensures OrderFrom(toks, acc, j) == Err(BreakWithoutBy)
  {
  }

  /** NO must be followed (after an optional `-`) by LOCK. */
  lemma NoNeedsLock(toks: TokenList, j: nat)
    requires j + 1 < |toks| && toks[j].kind == Keyword("NO") && !IsOp(toks[j + 1], {"-"})
    requires toks[j + 1].kind != Keyword("LOCK") && toks[j + 1].kind != IDENT
    ensures NoLockClause(toks, j) == Err(NoLock)
  {
  }

  /** ON requires OF after its event expression. */
  lemma OnNeedsOf(toks: TokenList, i: nat)
    requires i < |toks| && toks[i].kind == Keyword("ON") && ParseExpr(Modular, toks, i + 1).Ok?
    requires !IsKeywordToken(At(toks, ParseExpr(Modular, toks, i + 1).value.next), "OF")
    ensures OnHeader(toks, i) == Err(NoOf)
  {
  }

  /** The body statements are exactly the statements that are neither
      parameter declarations nor empty; every parameter declaration
      contributes its parameter; nothing is invented. */
  lemma {:induction false} PartitionSplits(stmts: seq<Stmt>)
    ensures forall s :: s in Partition(stmts).1 <==> s in stmts && !s.DefineParameter? && !s.Empty?
    ensures forall s :: s in stmts && s.DefineParameter? ==> ParamOf(s) in Partition(stmts).0
    ensures |Partition(stmts).0| + |Partition(stmts).1| <= |stmts|
    decreases |stmts|
  {
    if stmts != [] {
      var init := stmts[..|stmts| - 1];
      PartitionSplits(init);
      assert stmts == init + [stmts[|stmts| - 1]];
    }
  }
}
