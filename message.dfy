/** MESSAGE expr ... [VIEW-AS word[-word...] [TITLE expr]] [.]: one line of
    output built from the coerced parts. The tokenizer has no MESSAGE keyword,
    so as shipped the word is an identifier and no statement reaches this
    module, whichever list loads it (`Statements.MessageStatementRejected`);
    the parser and executor here are what a MESSAGE keyword would reach
    (`Statements.MessageCorrected`). */
module MessageStmt {
  import opened Results
  import opened Text
  import opened Values
  import opened Tokens
  import opened Lexer
  import opened Ast
  import opened Grammar
  import opened ParserCore
  import opened Runtime
  import DisplayStmt
  import DefineStmt

  // ----------------------------------------------------------------- parsing

  /** The message parts: an expression, then another after a comma or
      whenever the next token can start one. */
  function PartsFrom(toks: TokenList, acc: seq<Expr>, j: nat): (r: Result<Parsed<seq<Expr>>>)
    decreases |toks| - j
    ensures r.Ok? ==> j < r.value.next && |r.value.value| > |acc| && r.value.value[..|acc|] == acc
    ensures r.Ok? ==> !DisplayStmt.IsExprStart(At(toks, r.value.next))
  {
    var e :- ParseExpr(Modular, toks, j);
    var c :- Match(toks, e.next, COMMA);
    if c.value then
      var r := PartsFrom(toks, acc + [e.value], c.next);
      assert r.Ok? ==> r.value.value[..|acc|] == (acc + [e.value])[..|acc|];
      r
    else if DisplayStmt.IsExprStart(At(toks, e.next)) then
      var r := PartsFrom(toks, acc + [e.value], e.next);
      assert r.Ok? ==> r.value.value[..|acc|] == (acc + [e.value])[..|acc|];
      r
    else Ok(Parsed(acc + [e.value], e.next))
  }

  /** The loop of `parseHyphenatedIdentifier`: upper-cased identifiers, each
      optionally followed by `-`, until the statement end, a stop word or a
      token that is not an identifier. */
  function HyphenParts(toks: TokenList, parts: seq<string>, j: nat, stop: set<string>): (r: Parsed<seq<string>>)
    decreases |toks| - j
    ensures j <= r.next && |r.value| >= |parts| && r.value[..|parts|] == parts
    ensures r.value == parts <==> r.next == j
    ensures forall k :: |parts| <= k < |r.value| ==> Upper(r.value[k]) == r.value[k]
    ensures DefineStmt.AtStatementEnd(toks, r.next) || DefineStmt.AttrName(toks[r.next]) in stop
            || toks[r.next].kind != IDENT
  {
    if DefineStmt.AtStatementEnd(toks, j) || DefineStmt.AttrName(toks[j]) in stop || toks[j].kind != IDENT then
      Parsed(parts, j)
    else
      var k := if IsHyphen(At(toks, j + 1)) then j + 2 else j + 1;
      UpperIdempotent(TokText(toks[j]));
      var r := HyphenParts(toks, parts + [Upper(TokText(toks[j]))], k, stop);
      assert r.value[..|parts|] == (parts + [Upper(TokText(toks[j]))])[..|parts|];
      r
  }

  /** `parseHyphenatedIdentifier`: the parts joined by `-`, or null when there
      were none. */
  function HyphenatedIdentifier(toks: TokenList, j: nat, stop: set<string>): (r: Parsed<Option<string>>)
    ensures r.value.None? <==> r.next == j
  {
    var p := HyphenParts(toks, [], j, stop);
    if p.value == [] then Parsed(None, p.next) else Parsed(Some(Join(p.value, "-")), p.next)
  }

  /** The TITLE loop after VIEW-AS: each TITLE takes an expression and the
      last one wins; anything else skips to the end of the statement. */
  function TitleLoop(toks: TokenList, title: Option<Expr>, j: nat): (r: Result<Parsed<Option<Expr>>>)
    decreases |toks| - j
    ensures r.Ok? ==> j <= r.value.next && DefineStmt.AtStatementEnd(toks, r.value.next)
    ensures r.Ok? && title.Some? ==> r.value.value.Some?
  {
    if DefineStmt.AtStatementEnd(toks, j) then Ok(Parsed(title, j))
    else if IsKeywordToken(Some(toks[j]), "TITLE") then
      var e :- ParseExpr(Modular, toks, j + 1);
      TitleLoop(toks, Some(e.value), e.next)
    else Ok(Parsed(title, DefineStmt.SkipToEnd(toks, j)))
  }

  /** `[VIEW [-] AS name [TITLE expr]...]`: the view name and the title. */
  function ViewClause(toks: TokenList, j: nat): (r: Result<Parsed<(Option<string>, Option<Expr>)>>)
    ensures r.Ok? ==> j < |toks| && j <= r.value.next
    ensures r.Ok? && toks[j].kind == Keyword("VIEW") ==> DefineStmt.AtStatementEnd(toks, r.value.next)
    ensures r.Ok? && toks[j].kind != Keyword("VIEW") ==> r.value == Parsed((None, None), j)
    ensures r.Ok? && r.value.value.0.None? ==> r.value.value.1.None?
  {
    var t :- Peek(toks, j);
    if t.kind != Keyword("VIEW") then Ok(Parsed((None, None), j))
    else ViewRest(toks, j + 1)
  }

  /** The clause after VIEW: `[-] AS`, the name and the titles. */
  function ViewRest(toks: TokenList, j: nat): (r: Result<Parsed<(Option<string>, Option<Expr>)>>)
    ensures r.Ok? ==> j <= r.value.next && DefineStmt.AtStatementEnd(toks, r.value.next)
    ensures r.Ok? && r.value.value.0.None? ==> r.value.value.1.None?
  {
    var k := if IsHyphen(At(toks, j)) then j + 1 else j;
    var as_ :- Eat(toks, k, Keyword("AS"));
    var name := HyphenatedIdentifier(toks, as_.next, {"TITLE"});
    if name.value.None? then Ok(Parsed((None, None), DefineStmt.SkipToEnd(toks, name.next)))
    else
      var title :- TitleLoop(toks, None, name.next);
      Ok(Parsed((name.value, title.value), title.next))
  }

  /** VIEW must be followed, after an optional `-`, by AS. */
  lemma ViewNeedsAs(toks: TokenList, j: nat)
    requires j < |toks| && toks[j].kind == Keyword("VIEW")
    requires var k := if IsHyphen(At(toks, j + 1)) then j + 2 else j + 1;
      k < |toks| && toks[k].kind != Keyword("AS")
    ensures var k := if IsHyphen(At(toks, j + 1)) then j + 2 else j + 1;
      ViewClause(toks, j) == Err(ExpectedMessage(Keyword("AS"), toks[k].kind))
  {
  }

  /** `parseMessage`. */
  function ParseMessage(toks: TokenList, i: nat): (r: Result<Parsed<Stmt>>)
    ensures r.Ok? ==> i < r.value.next <= |toks| && r.value.value.Message? && r.value.value.parts != []
  {
    var kw :- Eat(toks, i, Keyword("MESSAGE"));
    var parts :- PartsFrom(toks, [], kw.next);
    var view :- ViewClause(toks, parts.next);
    var end :- OptionalDot(toks, view.next);
    Ok(Parsed(Message(parts.value, view.value.0, view.value.1), end))
  }

  method ParseParts(p: Parser) returns (r: Result<seq<Expr>>)
    requires p.dialect == Modular
    modifies p
    ensures Agrees(r, p.i, PartsFrom(p.toks, [], old(p.i)))
  {
    var parts: seq<Expr> := [];
    while true
      invariant PartsFrom(p.toks, [], old(p.i)) == PartsFrom(p.toks, parts, p.i)
      decreases |p.toks| - p.i
    {
      var e :- p.ParseExpr();
      parts := parts + [e];
      var more :- p.Match(COMMA);
      if !more && !DisplayStmt.IsExprStart(At(p.toks, p.i)) {
        return Ok(parts);
      }
    }
  }

  method ParseHyphenatedIdentifier(p: Parser, stop: set<string>) returns (r: Option<string>)
    modifies p
    ensures var h := HyphenatedIdentifier(p.toks, old(p.i), stop); r == h.value && p.i == h.next
  {
    var parts: seq<string> := [];
    while !(DefineStmt.AtStatementEnd(p.toks, p.i) || DefineStmt.AttrName(p.toks[p.i]) in stop
            || p.toks[p.i].kind != IDENT)
      invariant HyphenParts(p.toks, [], old(p.i), stop) == HyphenParts(p.toks, parts, p.i, stop)
      decreases |p.toks| - p.i
    {
      var id := p.toks[p.i];
      var _ := p.Eat(IDENT);
      parts := parts + [Upper(TokText(id))];
      if IsHyphen(At(p.toks, p.i)) {
        var _ := p.Eat(OP);
      }
    }
    r := if parts == [] then None else Some(Join(parts, "-"));
  }

  method ParseTitles(p: Parser) returns (r: Result<Option<Expr>>)
    requires p.dialect == Modular
    modifies p
    ensures Agrees(r, p.i, TitleLoop(p.toks, None, old(p.i)))
  {
    var title: Option<Expr> := None;
    while !DefineStmt.AtStatementEnd(p.toks, p.i)
      invariant TitleLoop(p.toks, None, old(p.i)) == TitleLoop(p.toks, title, p.i)
      decreases |p.toks| - p.i
    {
      if !IsKeywordToken(Some(p.toks[p.i]), "TITLE") {
        DefineStmt.SkipToStatementEnd(p);
        return Ok(title);
      }
      var _ := p.EatNext();
      var e :- p.ParseExpr();
      title := Some(e);
    }
    r := Ok(title);
  }

  method ParseView(p: Parser) returns (r: Result<(Option<string>, Option<Expr>)>)
    requires p.dialect == Modular
    modifies p
    ensures Agrees(r, p.i, ViewClause(p.toks, old(p.i)))
  {
    var t :- p.Peek();
    if t.kind != Keyword("VIEW") {
      return Ok((None, None));
    }
    var _ := p.Eat(t.kind);
    r := ParseViewRest(p);
  }

  method ParseViewRest(p: Parser) returns (r: Result<(Option<string>, Option<Expr>)>)
    requires p.dialect == Modular
    modifies p
    ensures Agrees(r, p.i, ViewRest(p.toks, old(p.i)))
  {
    if IsHyphen(At(p.toks, p.i)) {
      var _ := p.Eat(OP);
    }
    var _ :- p.Eat(Keyword("AS"));
    var name := ParseHyphenatedIdentifier(p, {"TITLE"});
    if name.None? {
      DefineStmt.SkipToStatementEnd(p);
      return Ok((None, None));
    }
    var title :- ParseTitles(p);
    r := Ok((name, title));
  }

  method Parse(p: Parser) returns (r: Result<Stmt>)
    requires p.dialect == Modular
    modifies p
    ensures Agrees(r, p.i, ParseMessage(p.toks, old(p.i)))
  {
    var _ :- p.Eat(Keyword("MESSAGE"));
    var parts :- ParseParts(p);
    var view :- ParseView(p);
    var _ :- p.OptionalDot();
    r := Ok(Message(parts, view.0, view.1));
  }

  // --------------------------------------------------------------- execution

  /** `coerceToString`. */
  function CoerceToString(v: Value): (r: string)
    ensures v.Null? ==> r == ""
    ensures v.Str? ==> r == v.s
    ensures v.Num? && !v.n.Fin? ==> r == ""
    ensures !v.Null? && !v.Str? && !(v.Num? && !v.n.Fin?) ==> r == ToStr(v)
  {
    match v
    case Null => ""
    case Str(s) => s
    case Num(n) => if n.Fin? then NumberToString(n) else ""
    case _ => ToStr(v)
  }

  /** The parts evaluated in order and coerced; the first exception stops the rest. */
  function PartTexts(ctx: Context, fs: Frames, env: EnvId, parts: seq<Expr>): (r: Result<seq<string>>)
    ensures r.Ok? <==> forall k :: 0 <= k < |parts| ==> ctx.evalExpr(parts[k], fs, env).Ok?
    ensures r.Ok? ==> |r.value| == |parts|
    ensures r.Ok? ==> forall k :: 0 <= k < |parts| ==> r.value[k] == CoerceToString(ctx.evalExpr(parts[k], fs, env).value)
    decreases |parts|
  {
    if parts == [] then Ok([])
    else
      var v :- ctx.evalExpr(parts[0], fs, env);
      var rest :- PartTexts(ctx, fs, env, parts[1..]);
      assert forall k :: 1 <= k < |parts| ==> parts[k] == parts[1..][k - 1];
      Ok([CoerceToString(v)] + rest)
  }

  /** `buildMessageText`. */
  function MessageText(ctx: Context, fs: Frames, env: EnvId, s: Stmt): (r: Result<string>)
    requires s.Message?
    ensures r.Ok? ==> Trim(r.value) == r.value
  {
    var texts :- PartTexts(ctx, fs, env, s.parts);
    var base := Trim(Join(texts, " "));
    TrimIdempotent(Join(texts, " "));
    if s.title.None? then Ok(base)
    else
      var tv :- ctx.evalExpr(s.title.value, fs, env);
      var titleText := Trim(CoerceToString(tv));
      TrimIdempotent(titleText + ": " + base);
      if titleText == "" then Ok(base) else Ok(Trim(titleText + ": " + base))
  }

  /** A trimmed, non-empty title followed by a colon survives the trim of
      `title: base` intact. */
  lemma TitlePrefix(t: string, base: string)
    requires t != "" && Trim(t) == t
    ensures |Trim(t + ": " + base)| > |t| && Trim(t + ": " + base)[..|t| + 1] == t + ":"
  {
    TrimEndTakes(TrimStart(t));
    assert TrimStart(t) == t;
    var whole := t + ": " + base;
    TrimEndTakes(whole);
    assert whole[0] == t[0] && whole[|t|] == ':';
    assert TrimStart(whole) == whole;
    assert whole[..|t| + 1] == t + ":";
  }

  /** A non-blank title prefixes the trimmed title and a colon; with no title,
      or a blank one, the text is the trimmed join of the parts. */
  lemma MessageTitle(ctx: Context, fs: Frames, env: EnvId, s: Stmt)
    requires s.Message? && MessageText(ctx, fs, env, s).Ok?
    ensures var texts := PartTexts(ctx, fs, env, s.parts).value;
      var text := MessageText(ctx, fs, env, s).value;
      if s.title.None? || Trim(CoerceToString(ctx.evalExpr(s.title.value, fs, env).value)) == "" then
        text == Trim(Join(texts, " "))
      else
        var t := Trim(CoerceToString(ctx.evalExpr(s.title.value, fs, env).value));
        |text| > |t| && text[..|t| + 1] == t + ":"
  {
    if s.title.Some? {
      var t := Trim(CoerceToString(ctx.evalExpr(s.title.value, fs, env).value));
      if t != "" {
        TrimIdempotent(CoerceToString(ctx.evalExpr(s.title.value, fs, env).value));
        TitlePrefix(t, Trim(Join(PartTexts(ctx, fs, env, s.parts).value, " ")));
      }
    }
  }

  /** `executeMessage`: the text is written as one line when the environment
      has an output function, and dropped otherwise. */
  function MessageEffect(ctx: Context, fs: Frames, env: EnvId, s: Stmt): Result<Frames>
    requires s.Message?
  {
    var text :- MessageText(ctx, fs, env, s);
    var f := FrameOf(fs, env);
    if f.output.None? then Ok(fs) else Ok(fs[env := f.(output := Some(f.output.value + [Line(text)]))])
  }

  /** MESSAGE adds exactly one line to an existing output, and changes nothing else. */
  lemma MessageOneLine(ctx: Context, fs: Frames, env: EnvId, s: Stmt)
    requires s.Message? && MessageEffect(ctx, fs, env, s).Ok? && FrameOf(fs, env).output.Some?
    ensures var g := FrameOf(MessageEffect(ctx, fs, env, s).value, env);
      g.output.Some? && g.output.value == FrameOf(fs, env).output.value + [Line(MessageText(ctx, fs, env, s).value)]
      && g.(output := FrameOf(fs, env).output) == FrameOf(fs, env)
  {
  }

  /** `VIEW-AS ALERT-BOX`, in any case. */
  predicate ViewsAsAlertBox(s: Stmt)
    requires s.Message?
  {
    s.viewAs.Some? && Upper(s.viewAs.value) == "ALERT-BOX"
  }

  /** The text handed to `scope.alert`, when there is one: the message text of
      an ALERT-BOX message, provided the global scope has an `alert` function
      (`hasAlert`). The call's result and any failure it raises are ignored. */
  function MessageAlert(ctx: Context, fs: Frames, env: EnvId, s: Stmt, hasAlert: bool): (r: Option<string>)
    requires s.Message?
    ensures r.Some? <==> hasAlert && ViewsAsAlertBox(s) && MessageText(ctx, fs, env, s).Ok?
    ensures r.Some? ==> Trim(r.value) == r.value
  {
    if hasAlert && ViewsAsAlertBox(s) then
      match MessageText(ctx, fs, env, s)
      case Ok(text) => Some(text)
      case Err(_) => None
    else None
  }

  /** The alert box shows the very line that is output: with an output
      callback, the last line after MESSAGE is the alert's text. */
  lemma AlertMatchesOutput(ctx: Context, fs: Frames, env: EnvId, s: Stmt)
    requires s.Message? && ViewsAsAlertBox(s) && FrameOf(fs, env).output.Some?
    requires MessageAlert(ctx, fs, env, s, true).Some?
    ensures MessageEffect(ctx, fs, env, s).Ok?
    ensures var g := FrameOf(MessageEffect(ctx, fs, env, s).value, env);
      g.output.Some? && |g.output.value| > 0
      && g.output.value[|g.output.value| - 1] == Line(MessageAlert(ctx, fs, env, s, true).value)
  {
  }

  /** `executeMessage`: `hasAlert` says whether the global scope has an
      `alert` function; `alerted` is the text it was called with, if it was. */
  method Execute(h: Heap, ctx: Context, env: EnvId, s: Stmt, hasAlert: bool) returns (r: Result<()>, alerted: Option<string>)
    requires s.Message?
    modifies h
    ensures alerted == MessageAlert(ctx, old(h.frames), env, s, hasAlert)
    ensures match MessageEffect(ctx, old(h.frames), env, s)
            case Ok(fs) => r == Ok(()) && h.frames == fs
            case Err(m) => r == Err(m) && h.frames == old(h.frames)
  {
    alerted := None;
    var text :- MessageText(ctx, h.frames, env, s);
    if hasAlert && s.viewAs.Some? && Upper(s.viewAs.value) == "ALERT-BOX" {
      alerted := Some(text);
    }
    var f := FrameOf(h.frames, env);
    if f.output.Some? {
      h.frames := h.frames[env := f.(output := Some(f.output.value + [Line(text)]))];
    }
    r := Ok(());
  }
}
