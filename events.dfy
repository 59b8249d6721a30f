/** The event statements: APPLY event TO widget, WAIT-FOR event OF widget,
    and the execution of ON event OF widget DO ... (whose parser needs the
    block parser and lives with it). */
module EventStmts {
  import opened Results
  import opened Text
  import opened Tokens
  import opened Lexer
  import opened Ast
  import opened Grammar
  import opened ParserCore
  import opened Runtime
  import opened WidgetState

  // ----------------------------------------------------------------- parsing

  /** The required widget name at `j`. */
  function WidgetName(toks: TokenList, j: nat, msg: string): (r: Result<Parsed<string>>)
    ensures r.Ok? <==> j < |toks| && toks[j].kind == IDENT
    ensures r.Ok? ==> r.value == Parsed(TokText(toks[j]), j + 1)
    ensures r.Err? ==> r.msg == msg
  {
    if j < |toks| && toks[j].kind == IDENT then Ok(Parsed(TokText(toks[j]), j + 1)) else Err(msg)
  }

  /** `parseApply`: APPLY expr TO ident [.]; TO may be a keyword or an
      identifier spelling it. */
  function ParseApply(toks: TokenList, i: nat): (r: Result<Parsed<Stmt>>)
    ensures r.Ok? ==> i < r.value.next <= |toks| && r.value.value.ApplyEvent?
  {
    var kw :- Eat(toks, i, Keyword("APPLY"));
    var e :- ParseExpr(Modular, toks, kw.next);
    if !IsKeywordToken(At(toks, e.next), "TO") then Err("Expected TO after APPLY event expression")
    else
      var target :- WidgetName(toks, e.next + 1, "Expected widget name after TO");
      var end :- OptionalDot(toks, target.next);
      Ok(Parsed(ApplyEvent(e.value, target.value), end))
  }

  /** `[OF [FRAME] ident]` after the WAIT-FOR event. */
  function WaitTarget(toks: TokenList, j: nat): (r: Result<Parsed<Option<string>>>)
    ensures r.Ok? ==> (r.value.value.None? <==> !IsKeywordToken(At(toks, j), "OF"))
    ensures r.Ok? && r.value.value.None? ==> r.value.next == j
    ensures r.Ok? && r.value.value.Some? ==> j < r.value.next <= |toks|
  {
    if !IsKeywordToken(At(toks, j), "OF") then Ok(Parsed(None, j))
    else
      var k := if IsKeywordToken(At(toks, j + 1), "FRAME") then j + 2 else j + 1;
      var target :- WidgetName(toks, k, "Expected widget name after OF");
      Ok(Parsed(Some(target.value), target.next))
  }

  /** `parseWaitFor`: WAIT [-] FOR expr [OF [FRAME] ident] [.]. */
  function ParseWaitFor(toks: TokenList, i: nat): (r: Result<Parsed<Stmt>>)
    ensures r.Ok? ==> i < r.value.next <= |toks| && r.value.value.WaitForEvent?
  {
    var kw :- Eat(toks, i, Keyword("WAIT"));
    WaitForRest(toks, if IsHyphen(At(toks, kw.next)) then kw.next + 1 else kw.next)
  }

  /** WAIT-FOR from the FOR on. */
  function WaitForRest(toks: TokenList, j: nat): (r: Result<Parsed<Stmt>>)
    ensures r.Ok? ==> j < r.value.next <= |toks| && r.value.value.WaitForEvent?
  {
    if !IsKeywordToken(At(toks, j), "FOR") then Err("Expected FOR after WAIT")
    else
      var e :- ParseExpr(Modular, toks, j + 1);
      var target :- WaitTarget(toks, e.next);
      var end :- OptionalDot(toks, target.next);
      Ok(Parsed(WaitForEvent(e.value, target.value), end))
  }

  /** `WAIT-FOR`, `WAIT - FOR` and `WAIT FOR` are read alike: whether or not a hyphen
      follows WAIT, the statement is `WaitForRest` from the FOR on. */
  lemma WaitHyphenOptional(toks: TokenList, i: nat)
    requires i < |toks| && toks[i].kind == Keyword("WAIT")
    ensures IsHyphen(At(toks, i + 1)) ==> ParseWaitFor(toks, i) == WaitForRest(toks, i + 2)
    ensures !IsHyphen(At(toks, i + 1)) ==> ParseWaitFor(toks, i) == WaitForRest(toks, i + 1)
    ensures IsHyphen(At(toks, i + 1)) && ParseWaitFor(toks, i).Ok? ==>
      ParseWaitFor(toks, i).value.value == WaitForEvent(ParseExpr(Modular, toks, i + 3).value.value,
                                                        ParseWaitFor(toks, i).value.value.waitTarget)
    ensures !IsHyphen(At(toks, i + 1)) && ParseWaitFor(toks, i).Ok? ==>
      ParseWaitFor(toks, i).value.value == WaitForEvent(ParseExpr(Modular, toks, i + 2).value.value,
                                                        ParseWaitFor(toks, i).value.value.waitTarget)
  {
  }

  method ParseWidgetName(p: Parser, msg: string) returns (r: Result<string>)
    modifies p
    ensures Agrees(r, p.i, WidgetName(p.toks, old(p.i), msg))
  {
    if !(p.i < |p.toks| && p.toks[p.i].kind == IDENT) {
      return Err(msg);
    }
    var name := p.toks[p.i];
    var _ := p.Eat(IDENT);
    r := Ok(TokText(name));
  }

  method ParseApplyStmt(p: Parser) returns (r: Result<Stmt>)
    requires p.dialect == Modular
    modifies p
    ensures Agrees(r, p.i, ParseApply(p.toks, old(p.i)))
  {
    var _ :- p.Eat(Keyword("APPLY"));
    var e :- p.ParseExpr();
    if !IsKeywordToken(At(p.toks, p.i), "TO") {
      return Err("Expected TO after APPLY event expression");
    }
    var _ := p.EatNext();
    var target :- ParseWidgetName(p, "Expected widget name after TO");
    var _ :- p.OptionalDot();
    r := Ok(ApplyEvent(e, target));
  }

  method ParseWaitTarget(p: Parser) returns (r: Result<Option<string>>)
    modifies p
    ensures Agrees(r, p.i, WaitTarget(p.toks, old(p.i)))
  {
    if !IsKeywordToken(At(p.toks, p.i), "OF") {
      return Ok(None);
    }
    var _ := p.EatNext();
    if IsKeywordToken(At(p.toks, p.i), "FRAME") {
      var _ := p.EatNext();
    }
    var target :- ParseWidgetName(p, "Expected widget name after OF");
    r := Ok(Some(target));
  }

  method ParseWaitForStmt(p: Parser) returns (r: Result<Stmt>)
    requires p.dialect == Modular
    modifies p
    ensures Agrees(r, p.i, ParseWaitFor(p.toks, old(p.i)))
  {
    var _ :- p.Eat(Keyword("WAIT"));
    if IsHyphen(At(p.toks, p.i)) {
      var _ := p.Eat(OP);
    }
    r := ParseWaitForRest(p);
  }

  method ParseWaitForRest(p: Parser) returns (r: Result<Stmt>)
    requires p.dialect == Modular
    modifies p
    ensures Agrees(r, p.i, WaitForRest(p.toks, old(p.i)))
  {
    if !IsKeywordToken(At(p.toks, p.i), "FOR") {
      return Err("Expected FOR after WAIT");
    }
    var _ := p.EatNext();
    var e :- p.ParseExpr();
    var target :- ParseWaitTarget(p);
    var _ :- p.OptionalDot();
    r := Ok(WaitForEvent(e, target));
  }

  // --------------------------------------------------------------- execution

  /** The resolved event name, trimmed; a blank one is the error `blank`. */
  function TrimmedEventName(ctx: Context, eventExpr: Expr, fs: Frames, env: EnvId, blank: string): (r: Result<string>)
    ensures r.Ok? ==> r.value != "" && r.value == Trim(r.value)
  {
    var raw :- ResolveEventName(ctx, eventExpr, fs, env);
    var trimmed := Trim(raw);
    TrimIdempotent(raw);
    if trimmed == "" then Err(blank) else Ok(trimmed)
  }

  /** `triggerEvent`, then, when no handler ran, `lastEvent` set directly. */
  function Fire(ctx: Context, h: Heap, fs: Frames, env: EnvId, target: string, event: string): Outcome {
    var t := Trigger(ctx, h, fs, env, target, event);
    match t.result
    case Err(m) => Outcome(t.frames, Some(m))
    case Ok(handled) =>
      if handled then Outcome(t.frames, None)
      else Outcome(AtRoot(h, t.frames, env,
                   SetWidgetStateFrame(RootFrame(h, t.frames, env), target, Updates(None, None, Some(event)))), None)
  }

  /** Whether a handler ran or not, a completed APPLY or WAIT-FOR leaves the
      upper-case event name as the widget's `lastEvent`. */
  lemma FireRecordsEvent(ctx: Context, h: Heap, fs: Frames, env: EnvId, target: string, event: string)
    requires Upper(event) == event
    requires Fire(ctx, h, fs, env, target, event).thrown.None?
    ensures var f := RootFrame(h, Fire(ctx, h, fs, env, target, event).frames, env);
      NormalizeWidgetName(target) in Widgets(f) && Widgets(f)[NormalizeWidgetName(target)].lastEvent == Some(event)
  {
    var t := Trigger(ctx, h, fs, env, target, event);
    if HandlerFor(RootFrame(h, fs, env), target, event).Some? {
      TriggerSetsLastEvent(ctx, h, fs, env, target, event);
    } else {
      TriggerWithoutHandler(ctx, h, fs, env, target, event);
      SetWidgetStateExact(RootFrame(h, t.frames, env), target, Updates(None, None, Some(event)));
    }
  }

  function ApplyBlank(): string { "APPLY requires a non-empty event name" }
  function WaitBlank(): string { "WAIT-FOR requires a non-empty event name" }
  function WaitNoTarget(): string { "WAIT-FOR in this runtime requires an explicit widget target" }

  /** `executeApplyEvent`. */
  function ApplyEffect(ctx: Context, h: Heap, fs: Frames, env: EnvId, s: Stmt): Outcome
    requires s.ApplyEvent?
  {
    match TrimmedEventName(ctx, s.eventExpr, fs, env, ApplyBlank())
    case Err(m) => Outcome(fs, Some(m))
    case Ok(event) => Fire(ctx, h, fs, env, s.target, Upper(event))
  }

  /** `executeWaitFor`: the event name is checked before the target. */
  function WaitForEffect(ctx: Context, h: Heap, fs: Frames, env: EnvId, s: Stmt): Outcome
    requires s.WaitForEvent?
  {
    match TrimmedEventName(ctx, s.eventExpr, fs, env, WaitBlank())
    case Err(m) => Outcome(fs, Some(m))
    case Ok(event) =>
      if s.waitTarget.None? || s.waitTarget.value == "" then Outcome(fs, Some(WaitNoTarget()))
      else Fire(ctx, h, fs, env, s.waitTarget.value, Upper(event))
  }

  /** A completed APPLY records the trimmed, upper-cased event on the target. */
  lemma ApplyRecordsEvent(ctx: Context, h: Heap, fs: Frames, env: EnvId, s: Stmt)
    requires s.ApplyEvent? && ApplyEffect(ctx, h, fs, env, s).thrown.None?
    ensures TrimmedEventName(ctx, s.eventExpr, fs, env, ApplyBlank()).Ok?
    ensures var f := RootFrame(h, ApplyEffect(ctx, h, fs, env, s).frames, env);
      var event := Upper(TrimmedEventName(ctx, s.eventExpr, fs, env, ApplyBlank()).value);
      NormalizeWidgetName(s.target) in Widgets(f) && Widgets(f)[NormalizeWidgetName(s.target)].lastEvent == Some(event)
  {
    var event := TrimmedEventName(ctx, s.eventExpr, fs, env, ApplyBlank()).value;
    UpperIdempotent(event);
    FireRecordsEvent(ctx, h, fs, env, s.target, Upper(event));
  }

  /** WAIT-FOR without OF fails once the event name is known to be non-blank,
      and leaves the state unchanged. */
  lemma WaitNeedsTarget(ctx: Context, h: Heap, fs: Frames, env: EnvId, s: Stmt)
    requires s.WaitForEvent? && s.waitTarget.None?
    ensures var name := TrimmedEventName(ctx, s.eventExpr, fs, env, WaitBlank());
      WaitForEffect(ctx, h, fs, env, s) == Outcome(fs, Some(if name.Ok? then WaitNoTarget() else name.msg))
  {
  }

  method FireEvent(h: Heap, ctx: Context, env: EnvId, target: string, event: string) returns (r: Result<()>)
    modifies h
    ensures var o := Fire(ctx, h, old(h.frames), env, target, event);
      h.frames == o.frames && (r.Err? <==> o.thrown.Some?) && (r.Err? ==> r.msg == o.thrown.value)
  {
    var handled := TriggerEvent(h, ctx, env, target, event);
    if handled.Err? {
      return Err(handled.msg);
    }
    if !handled.value {
      var _ := SetWidgetState(h, env, target, Updates(None, None, Some(event)));
    }
    r := Ok(());
  }

  method ExecuteApply(h: Heap, ctx: Context, env: EnvId, s: Stmt) returns (r: Result<()>)
    requires s.ApplyEvent?
    modifies h
    ensures var o := ApplyEffect(ctx, h, old(h.frames), env, s);
      h.frames == o.frames && (r.Err? <==> o.thrown.Some?) && (r.Err? ==> r.msg == o.thrown.value)
  {
    var event :- TrimmedEventName(ctx, s.eventExpr, h.frames, env, ApplyBlank());
    r := FireEvent(h, ctx, env, s.target, Upper(event));
  }

  method ExecuteWaitFor(h: Heap, ctx: Context, env: EnvId, s: Stmt) returns (r: Result<()>)
    requires s.WaitForEvent?
    modifies h
    ensures var o := WaitForEffect(ctx, h, old(h.frames), env, s);
      h.frames == o.frames && (r.Err? <==> o.thrown.Some?) && (r.Err? ==> r.msg == o.thrown.value)
  {
    var event :- TrimmedEventName(ctx, s.eventExpr, h.frames, env, WaitBlank());
    if s.waitTarget.None? || s.waitTarget.value == "" {
      return Err(WaitNoTarget());
    }
    r := FireEvent(h, ctx, env, s.waitTarget.value, Upper(event));
  }

  /** `executeOnEvent`: the handler is registered under the trimmed event
      name, owned by the environment the statement runs in. */
  function OnEffect(ctx: Context, h: Heap, fs: Frames, env: EnvId, s: Stmt): Result<Frames>
    requires s.OnEvent?
  {
    var event :- TrimmedEventName(ctx, s.eventExpr, fs, env, "ON statement requires a non-empty event name");
    Ok(AtRoot(h, fs, env, RegisterFrame(RootFrame(h, fs, env), s.target, event, Handler(s.body, env))))
  }

  /** After ON, a lookup of the same widget and event, in any case, finds the
      statement's body owned by the current environment. */
  lemma OnThenLookup(ctx: Context, h: Heap, fs: Frames, env: EnvId, s: Stmt, event: string)
    requires s.OnEvent? && OnEffect(ctx, h, fs, env, s).Ok?
    requires Upper(event) == Upper(TrimmedEventName(ctx, s.eventExpr, fs, env, "ON statement requires a non-empty event name").value)
    ensures HandlerFor(RootFrame(h, OnEffect(ctx, h, fs, env, s).value, env), s.target, event) == Some(Handler(s.body, env))
  {
    var name := TrimmedEventName(ctx, s.eventExpr, fs, env, "ON statement requires a non-empty event name").value;
    RegisterThenLookup(RootFrame(h, fs, env), s.target, name, Handler(s.body, env), s.target, event);
  }

  method ExecuteOn(h: Heap, ctx: Context, env: EnvId, s: Stmt) returns (r: Result<()>)
    requires s.OnEvent?
    modifies h
    ensures match OnEffect(ctx, h, old(h.frames), env, s)
            case Ok(fs) => r == Ok(()) && h.frames == fs
            case Err(m) => r == Err(m) && h.frames == old(h.frames)
  {
    var event :- TrimmedEventName(ctx, s.eventExpr, h.frames, env, "ON statement requires a non-empty event name");
    RegisterEventHandler(h, env, s.target, event, Handler(s.body, env));
    r := Ok(());
  }
}
