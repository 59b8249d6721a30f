/** DEFINE: `DEFINE VARIABLE`, `DEFINE INPUT|OUTPUT PARAMETER` and the widget
    form `DEFINE <widget type> name <attributes>`. */
module DefineStmt {
  import opened Results
  import opened Text
  import opened Values
  import opened Tokens
  import opened Lexer
  import opened Ast
  import opened Grammar
  import opened ParserCore
  import opened Runtime
  import WidgetTypes
  import WidgetState

  /** What `parseDefineDetails` returns. */
  datatype Details = Details(id: string, dataType: Option<string>, init: Option<Expr>, noUndo: bool)

  /** The INIT and NO-UNDO options gathered so far. */
  datatype Options = Options(init: Option<Expr>, noUndo: bool)

  /** The type after AS: an identifier upper-cased, or `String(value || type)` upper-cased. */
  function TypeNameOf(t: Token): string {
    if t.kind == IDENT then Upper(TokText(t)) else Upper(ValueOrType(t))
  }

  /** `isTokenKeyword(tok, 'UNDO')` in the option loop: the UNDO keyword or an identifier spelling it. */
  predicate IsUndo(t: Token) {
    t.kind == Keyword("UNDO") || (t.kind == IDENT && Upper(TokText(t)) == "UNDO")
  }

  /** `parseDefineDetails`. */
  function ParseDetails(toks: TokenList, j: nat): (r: Result<Parsed<Details>>)
    ensures r.Ok? ==> j < r.value.next <= |toks|
  {
    var id :- Eat(toks, j, IDENT);
    var as_ :- Match(toks, id.next, Keyword("AS"));
    var ty :- if as_.value then
        var t :- EatNext(toks, as_.next);
        Ok(Parsed(Some(TypeNameOf(t.value)), t.next))
      else Ok(Parsed(None, as_.next));
    var opts :- OptionsFrom(toks, Options(None, false), ty.next);
    Ok(Parsed(Details(Lower(TokText(id.value)), ty.value, opts.value.init, opts.value.noUndo), opts.next))
  }

  /** The option loop of `parseDefineDetails`, with the options read so far. */
  function OptionsFrom(toks: TokenList, o: Options, j: nat): (r: Result<Parsed<Options>>)
    ensures r.Ok? ==> j <= r.value.next <= |toks|
    decreases |toks| - j
  {
    var next :- Peek(toks, j);
    if next.kind == Keyword("INIT") then
      var e :- InitClause(toks, j);
      OptionsFrom(toks, o.(init := Some(e.value)), e.next)
    else if next.kind == Keyword("NO") then
      var k :- NoUndoClause(toks, j);
      OptionsFrom(toks, o.(noUndo := true), k)
    else Ok(Parsed(o, j))
  }

  /** `INIT [=] expr`, from the INIT token. */
  function InitClause(toks: TokenList, j: nat): (r: Result<Parsed<Expr>>)
    ensures r.Ok? ==> j < r.value.next <= |toks|
  {
    var eq :- Peek(toks, j + 1);
    ParseExpr(Modular, toks, if IsOp(eq, {"="}) then j + 2 else j + 1)
  }

  /** `NO [-] [UNDO]`, from the NO token: the cursor after it. */
  function NoUndoClause(toks: TokenList, j: nat): (r: Result<nat>)
    ensures r.Ok? ==> j < r.value <= |toks|
  {
    var dash :- Peek(toks, j + 1);
    var k := if IsOp(dash, {"-"}) then j + 2 else j + 1;
    var u :- Peek(toks, k);
    Ok(if IsUndo(u) then k + 1 else k)
  }

  /** The loop stops, consuming nothing, at a token that is neither INIT nor NO. */
  lemma OptionsStop(toks: TokenList, o: Options, j: nat)
    requires j < |toks| && toks[j].kind != Keyword("INIT") && toks[j].kind != Keyword("NO")
    ensures OptionsFrom(toks, o, j) == Ok(Parsed(o, j))
  {
  }

  /** INIT replaces whatever INIT came before it, so the last one wins; once
      some INIT has been read, an init value is present in the result. */
  lemma {:induction false} InitLastWins(toks: TokenList, o: Options, o': Options, j: nat)
    requires j < |toks| && toks[j].kind == Keyword("INIT") && o.noUndo == o'.noUndo
    ensures OptionsFrom(toks, o, j) == OptionsFrom(toks, o', j)
    ensures OptionsFrom(toks, o, j).Ok? ==> OptionsFrom(toks, o, j).value.value.init.Some?
  {
    var e := InitClause(toks, j);
    if e.Ok? {
      InitKept(toks, o.(init := Some(e.value.value)), e.value.next);
    }
  }

  /** An init value, once read, is never lost. */
  lemma {:induction false} InitKept(toks: TokenList, o: Options, j: nat)
    requires o.init.Some?
    ensures OptionsFrom(toks, o, j).Ok? ==> OptionsFrom(toks, o, j).value.value.init.Some?
    decreases |toks| - j
  {
    if j < |toks| {
      if toks[j].kind == Keyword("INIT") {
        var e := InitClause(toks, j);
        if e.Ok? {
          InitKept(toks, o.(init := Some(e.value.value)), e.value.next);
        }
      } else if toks[j].kind == Keyword("NO") {
        var k := NoUndoClause(toks, j);
        if k.Ok? {
          InitKept(toks, o.(noUndo := true), k.value);
        }
      }
    }
  }

  /** NO, an optional `-` and an optional UNDO set `noUndo`, and nothing clears it. */
  lemma {:induction false} NoUndoSticky(toks: TokenList, o: Options, j: nat)
    requires o.noUndo || (j < |toks| && toks[j].kind == Keyword("NO"))
    ensures OptionsFrom(toks, o, j).Ok? ==> OptionsFrom(toks, o, j).value.value.noUndo
    decreases |toks| - j
  {
    if j < |toks| {
      if toks[j].kind == Keyword("INIT") {
        var e := InitClause(toks, j);
        if e.Ok? {
          NoUndoSticky(toks, o.(init := Some(e.value.value)), e.value.next);
        }
      } else if toks[j].kind == Keyword("NO") {
        var k := NoUndoClause(toks, j);
        if k.Ok? {
          NoUndoSticky(toks, o.(noUndo := true), k.value);
        }
      }
    }
  }

  /** The id is the identifier lower-cased; the AS type is upper-cased whether
      it was an identifier or a keyword; without AS there is no type. */
  lemma DetailsShape(toks: TokenList, j: nat)
    requires ParseDetails(toks, j).Ok?
    ensures j + 1 < |toks| && toks[j].kind == IDENT
    ensures var d := ParseDetails(toks, j).value.value;
      d.id == Lower(TokText(toks[j]))
      && (toks[j + 1].kind == Keyword("AS") ==> j + 2 < |toks| && d.dataType == Some(TypeNameOf(toks[j + 2])))
      && (toks[j + 1].kind != Keyword("AS") ==> d.dataType == None)
  {
  }

  // ------------------------------------------------------------ widget tail

  const SimpleWidgetAttributes: set<string> := {"LABEL", "FORMAT", "TITLE", "TEXT", "TOOLTIP", "HELP"}

  /** `tokenText`: an identifier's upper-case spelling, or the token's type. */
  function AttrName(t: Token): string {
    if t.kind == IDENT then Upper(TokText(t)) else KindName(t.kind)
  }

  /** The cursor stops here: no token, a DOT or EOF. */
  predicate AtStatementEnd(toks: TokenList, j: nat) {
    j >= |toks| || toks[j].kind == DOT || toks[j].kind == EOF
  }

  /** `skipToStatementEnd`: the first DOT or EOF at or after `j`, or the end of the tokens. */
  function SkipToEnd(toks: TokenList, j: nat): (k: nat)
    ensures j <= k && AtStatementEnd(toks, k)
    ensures forall m :: j <= m < k ==> !AtStatementEnd(toks, m)
    decreases |toks| - j
  {
    if AtStatementEnd(toks, j) then j else SkipToEnd(toks, j + 1)
  }

  /** The attributes and the NO-UNDO flag of a widget definition. */
  datatype Tail = Tail(attributes: seq<Attribute>, noUndo: bool)

  /** What the loop of `parseWidgetTail` does at the token at `j`: stop at the
      statement's end; after NO [-] UNDO set the flag and go on at `resume`;
      skip to the statement's end from `from` (NO without UNDO, or an
      unsupported token); or read a supported attribute. */
  datatype TailStep = Stop | SetNoUndo(resume: nat) | SkipFrom(from: nat) | ReadAttribute(name: string)

  function TailStepAt(toks: TokenList, j: nat): (s: TailStep)
    ensures s.Stop? <==> AtStatementEnd(toks, j)
    ensures s.SetNoUndo? ==> j < s.resume
    ensures s.SkipFrom? ==> j <= s.from
    ensures s.ReadAttribute? ==> j < |toks| && s.name == AttrName(toks[j]) && s.name in SimpleWidgetAttributes
  {
    if AtStatementEnd(toks, j) then Stop
    else if IsKeywordToken(Some(toks[j]), "NO") then
      var k := if IsHyphen(At(toks, j + 1)) then j + 2 else j + 1;
      if IsKeywordToken(At(toks, k), "UNDO") then SetNoUndo(k + 1) else SkipFrom(k)
    else if AttrName(toks[j]) in SimpleWidgetAttributes then ReadAttribute(AttrName(toks[j]))
    else SkipFrom(j)
  }

  /** The loop of `parseWidgetTail`, with what it has collected so far. */
  function WidgetTail(toks: TokenList, t: Tail, j: nat): (r: Result<Parsed<Tail>>)
    ensures r.Ok? ==> j <= r.value.next
    decreases |toks| - j
  {
    match TailStepAt(toks, j)
    case Stop => Ok(Parsed(t, j))
    case SetNoUndo(k) => WidgetTail(toks, t.(noUndo := true), k)
    case SkipFrom(k) => Ok(Parsed(t, SkipToEnd(toks, k)))
    case ReadAttribute(name) =>
      var e :- ParseExpr(Modular, toks, j + 1);
      WidgetTail(toks, t.(attributes := t.attributes + [Attribute(name, e.value)]), e.next)
  }

  /** One pass of the tail loop at a supported attribute: read its value,
      then go on after it; a value that does not parse ends the tail with
      that error. */
  lemma TailReadsAttribute(toks: TokenList, t: Tail, j: nat, name: string)
    requires TailStepAt(toks, j) == ReadAttribute(name)
    ensures ParseExpr(Modular, toks, j + 1).Err? ==>
      WidgetTail(toks, t, j) == Err(ParseExpr(Modular, toks, j + 1).msg)
    ensures ParseExpr(Modular, toks, j + 1).Ok? ==>
      var e := ParseExpr(Modular, toks, j + 1).value;
      WidgetTail(toks, t, j) == WidgetTail(toks, t.(attributes := t.attributes + [Attribute(name, e.value)]), e.next)
  {
  }

  /** One pass of the tail loop at NO [-] UNDO: set the flag and go on. */
  lemma TailSetsNoUndo(toks: TokenList, t: Tail, j: nat, k: nat)
    requires TailStepAt(toks, j) == SetNoUndo(k)
    ensures WidgetTail(toks, t, j) == WidgetTail(toks, t.(noUndo := true), k)
  {
  }

  /** The tail loop at a token it does not support: skip to the statement's end. */
  lemma TailSkips(toks: TokenList, t: Tail, j: nat, k: nat)
    requires TailStepAt(toks, j) == SkipFrom(k)
    ensures WidgetTail(toks, t, j) == Ok(Parsed(t, SkipToEnd(toks, k)))
  {
  }

  predicate AllSimple(attrs: seq<Attribute>) {
    forall k :: 0 <= k < |attrs| ==> attrs[k].name in SimpleWidgetAttributes
  }

  /** The tail keeps only LABEL, FORMAT, TITLE, TEXT, TOOLTIP and HELP
      attributes, in source order after those already read, and always leaves
      the cursor at a DOT, at EOF or past the last token: an unsupported token
      makes it skip to the statement's end. */
  lemma {:induction false} WidgetTailShape(toks: TokenList, t: Tail, j: nat)
    requires AllSimple(t.attributes)
    requires WidgetTail(toks, t, j).Ok?
    ensures var r := WidgetTail(toks, t, j).value;
      AllSimple(r.value.attributes) && t.attributes <= r.value.attributes
      && (t.noUndo ==> r.value.noUndo) && AtStatementEnd(toks, r.next)
    decreases |toks| - j
  {
    match TailStepAt(toks, j)
    case Stop =>
    case SetNoUndo(k) =>
      WidgetTailShape(toks, t.(noUndo := true), k);
    case SkipFrom(k) =>
    case ReadAttribute(name) =>
      var e := ParseExpr(Modular, toks, j + 1).value;
      var x := Attribute(name, e.value);
      AppendSimple(t.attributes, x);
      WidgetTailShape(toks, t.(attributes := t.attributes + [x]), e.next);
      AppendedPrefix(t.attributes, x, WidgetTail(toks, t, j).value.value.attributes);
  }

  /** A simple attribute added after simple ones keeps the list simple. */
  lemma AppendSimple(attrs: seq<Attribute>, x: Attribute)
    requires AllSimple(attrs) && x.name in SimpleWidgetAttributes
    ensures AllSimple(attrs + [x])
  {
  }

  /** A list that extends `attrs + [x]` extends `attrs`. */
  lemma AppendedPrefix(attrs: seq<Attribute>, x: Attribute, longer: seq<Attribute>)
    requires attrs + [x] <= longer
    ensures attrs <= longer
  {
    assert longer[..|attrs|] == (attrs + [x])[..|attrs|];
  }

  /** `parseWidgetDefinition`: the name is taken as written. */
  function WidgetDefinition(toks: TokenList, j: nat, widgetType: string): (r: Result<Parsed<Stmt>>)
    ensures r.Ok? ==> j < r.value.next <= |toks| && r.value.value.DefineWidget?
    ensures r.Ok? ==> r.value.value.widgetType == widgetType && r.value.value.name == TokText(toks[j])
  {
    if j >= |toks| || toks[j].kind != IDENT then Err("Expected widget name after " + widgetType)
    else
      var tail :- WidgetTail(toks, Tail([], false), j + 1);
      var end :- OptionalDot(toks, tail.next);
      Ok(Parsed(Ast.DefineWidget(widgetType, TokText(toks[j]), tail.value.attributes, tail.value.noUndo), end))
  }

  /** `parseDefine`. */
  function ParseDefine(toks: TokenList, i: nat): (r: Result<Parsed<Stmt>>)
    ensures r.Ok? ==> i < r.value.next <= |toks|
  {
    var d :- Eat(toks, i, Keyword("DEFINE"));
    var next :- Peek(toks, d.next);
    if next.kind == Keyword("VARIABLE") then VariableForm(toks, d.next + 1)
    else if next.kind == Keyword("INPUT") || next.kind == Keyword("OUTPUT") then
      ParameterForm(toks, d.next + 1, KindName(next.kind))
    else
      var wt :- WidgetTypes.WidgetType(toks, d.next);
      WidgetDefinition(toks, wt.next, wt.value)
  }

  /** `DEFINE VARIABLE` after the VARIABLE keyword. */
  function VariableForm(toks: TokenList, j: nat): (r: Result<Parsed<Stmt>>)
    ensures r.Ok? ==> j < r.value.next <= |toks| && r.value.value.DefineVariable?
  {
    var det :- ParseDetails(toks, j);
    var end :- OptionalDot(toks, det.next);
    Ok(Parsed(DefineVariable(det.value.id, det.value.dataType, det.value.init, det.value.noUndo), end))
  }

  /** `DEFINE INPUT|OUTPUT PARAMETER` after the mode keyword. */
  function ParameterForm(toks: TokenList, j: nat, mode: string): (r: Result<Parsed<Stmt>>)
    ensures r.Ok? ==> j < r.value.next <= |toks| && r.value.value.DefineParameter? && r.value.value.mode == mode
  {
    var pm :- Eat(toks, j, Keyword("PARAMETER"));
    var det :- ParseDetails(toks, pm.next);
    var end :- OptionalDot(toks, det.next);
    Ok(Parsed(DefineParameter(mode, det.value.id, det.value.dataType, det.value.init, det.value.noUndo), end))
  }

  /** VARIABLE gives `DefineVariable`, INPUT or OUTPUT PARAMETER gives
      `DefineParameter` with that mode, and anything else is read as a widget
      type and gives `DefineWidget`. */
  lemma DefineDispatch(toks: TokenList, i: nat)
    requires ParseDefine(toks, i).Ok?
    ensures i + 1 < |toks| && toks[i].kind == Keyword("DEFINE")
    ensures var s := ParseDefine(toks, i).value.value;
      var k := toks[i + 1].kind;
      (k == Keyword("VARIABLE") ==> s.DefineVariable?)
      && (k == Keyword("INPUT") ==> s.DefineParameter? && s.mode == "INPUT")
      && (k == Keyword("OUTPUT") ==> s.DefineParameter? && s.mode == "OUTPUT")
      && (k !in {Keyword("VARIABLE"), Keyword("INPUT"), Keyword("OUTPUT")} ==> s.DefineWidget?)
  {
  }

  // ------------------------------------------------------------ the methods

  method ParseOptions(p: Parser) returns (r: Result<Options>)
    requires p.dialect == Modular
    modifies p
    ensures Agrees(r, p.i, OptionsFrom(p.toks, Options(None, false), old(p.i)))
  {
    var o := Options(None, false);
    while true
      invariant OptionsFrom(p.toks, Options(None, false), old(p.i)) == OptionsFrom(p.toks, o, p.i)
      decreases |p.toks| - p.i
    {
      var next :- p.Peek();
      if next.kind == Keyword("INIT") {
        var e :- ParseInitClause(p);
        o := o.(init := Some(e));
      } else if next.kind == Keyword("NO") {
        var _ :- ParseNoUndoClause(p);
        o := o.(noUndo := true);
      } else {
        return Ok(o);
      }
    }
  }

  method ParseInitClause(p: Parser) returns (r: Result<Expr>)
    requires p.dialect == Modular && p.i < |p.toks|
    modifies p
    ensures Agrees(r, p.i, InitClause(p.toks, old(p.i)))
  {
    var _ := p.EatNext();
    var eq :- p.Peek();
    if IsOp(eq, {"="}) {
      var _ := p.Eat(OP);
    }
    r := p.ParseExpr();
  }

  method ParseNoUndoClause(p: Parser) returns (r: Result<()>)
    requires p.i < |p.toks|
    modifies p
    ensures match NoUndoClause(p.toks, old(p.i))
            case Ok(k) => r == Ok(()) && p.i == k
            case Err(m) => r == Err(m)
  {
    var _ := p.EatNext();
    var dash :- p.Peek();
    if IsOp(dash, {"-"}) {
      var _ := p.Eat(OP);
    }
    var u :- p.Peek();
    if IsUndo(u) {
      var _ := p.Eat(u.kind);
    }
    r := Ok(());
  }

  method ParseDefineDetails(p: Parser) returns (r: Result<Details>)
    requires p.dialect == Modular
    modifies p
    ensures Agrees(r, p.i, ParseDetails(p.toks, old(p.i)))
  {
    var id :- p.Eat(IDENT);
    var as_ :- p.Match(Keyword("AS"));
    var dataType := None;
    if as_ {
      var t :- p.EatNext();
      dataType := Some(TypeNameOf(t));
    }
    var o :- ParseOptions(p);
    r := Ok(Details(Lower(TokText(id)), dataType, o.init, o.noUndo));
  }

  method SkipToStatementEnd(p: Parser)
    modifies p
    ensures p.i == SkipToEnd(p.toks, old(p.i))
  {
    while !AtStatementEnd(p.toks, p.i)
      invariant SkipToEnd(p.toks, p.i) == SkipToEnd(p.toks, old(p.i))
      decreases |p.toks| - p.i
    {
      var _ := p.EatNext();
    }
  }

  /** NO [-] [UNDO] inside the widget tail: whether UNDO followed, with the
      cursor after it, or else the cursor where the skip starts. */
  method ReadNoUndo(p: Parser) returns (undo: bool)
    requires !AtStatementEnd(p.toks, p.i) && IsKeywordToken(Some(p.toks[p.i]), "NO")
    modifies p
    ensures var step := TailStepAt(p.toks, old(p.i));
      (undo ==> step == SetNoUndo(p.i)) && (!undo ==> step == SkipFrom(p.i))
  {
    var _ := p.EatNext();
    var dash := At(p.toks, p.i);
    if IsHyphen(dash) {
      var _ := p.EatNext();
    }
    undo := IsKeywordToken(At(p.toks, p.i), "UNDO");
    if undo {
      var _ := p.EatNext();
    }
  }

  /** One pass of the loop of `parseWidgetTail`, at a token that does not end
      the statement: either the loop goes on with `t2` collected, or (`done`)
      the tail ends with `t2` where the skip stopped, or a value fails to parse. */
  method TailPass(p: Parser, t: Tail) returns (r: Result<Tail>, done: bool)
    requires p.dialect == Modular && !AtStatementEnd(p.toks, p.i)
    modifies p
    ensures r.Err? ==> WidgetTail(p.toks, t, old(p.i)) == Err(r.msg)
    ensures r.Ok? && done ==> WidgetTail(p.toks, t, old(p.i)) == Ok(Parsed(r.value, p.i))
    ensures r.Ok? && !done ==> old(p.i) < p.i && WidgetTail(p.toks, t, old(p.i)) == WidgetTail(p.toks, r.value, p.i)
  {
    var next := p.toks[p.i];
    ghost var j := p.i;
    done := false;
    if IsKeywordToken(Some(next), "NO") {
      var undo := ReadNoUndo(p);
      if !undo {
        TailSkips(p.toks, t, j, p.i);
        SkipToStatementEnd(p);
        return Ok(t), true;
      }
      TailSetsNoUndo(p.toks, t, j, p.i);
      r := Ok(t.(noUndo := true));
    } else if AttrName(next) in SimpleWidgetAttributes {
      assert TailStepAt(p.toks, j) == ReadAttribute(AttrName(next));
      TailReadsAttribute(p.toks, t, j, AttrName(next));
      var _ := p.EatNext();
      var e := p.ParseExpr();
      if e.Err? {
        return Err(e.msg), false;
      }
      r := Ok(t.(attributes := t.attributes + [Attribute(AttrName(next), e.value)]));
    } else {
      assert TailStepAt(p.toks, j) == SkipFrom(j);
      TailSkips(p.toks, t, j, j);
      SkipToStatementEnd(p);
      return Ok(t), true;
    }
  }

  method ParseWidgetTail(p: Parser) returns (r: Result<Tail>)
    requires p.dialect == Modular
    modifies p
    ensures Agrees(r, p.i, WidgetTail(p.toks, Tail([], false), old(p.i)))
  {
    var t := Tail([], false);
    while !AtStatementEnd(p.toks, p.i)
      invariant WidgetTail(p.toks, Tail([], false), old(p.i)) == WidgetTail(p.toks, t, p.i)
      decreases |p.toks| - p.i
    {
      var done;
      r, done := TailPass(p, t);
      if r.Err? || done {
        return;
      }
      t := r.value;
    }
    r := Ok(t);
  }

  method ParseWidgetDefinition(p: Parser, widgetType: string) returns (r: Result<Stmt>)
    requires p.dialect == Modular
    modifies p
    ensures Agrees(r, p.i, WidgetDefinition(p.toks, old(p.i), widgetType))
  {
    if p.i >= |p.toks| || p.toks[p.i].kind != IDENT {
      return Err("Expected widget name after " + widgetType);
    }
    var name := p.Eat(IDENT);
    var tail :- ParseWidgetTail(p);
    var _ :- p.OptionalDot();
    r := Ok(Ast.DefineWidget(widgetType, TokText(name.value), tail.attributes, tail.noUndo));
  }

  method Parse(p: Parser) returns (r: Result<Stmt>)
    requires p.dialect == Modular
    modifies p
    ensures Agrees(r, p.i, ParseDefine(p.toks, old(p.i)))
  {
    var _ :- p.Eat(Keyword("DEFINE"));
    var next :- p.Peek();
    if next.kind == Keyword("VARIABLE") {
      var _ := p.Eat(next.kind);
      r := ParseVariableForm(p);
    } else if next.kind == Keyword("INPUT") || next.kind == Keyword("OUTPUT") {
      var _ := p.Eat(next.kind);
      r := ParseParameterForm(p, KindName(next.kind));
    } else {
      var wt :- WidgetTypes.ReadWidgetType(p);
      r := ParseWidgetDefinition(p, wt);
    }
  }

  method ParseVariableForm(p: Parser) returns (r: Result<Stmt>)
    requires p.dialect == Modular
    modifies p
    ensures Agrees(r, p.i, VariableForm(p.toks, old(p.i)))
  {
    var det :- ParseDefineDetails(p);
    var _ :- p.OptionalDot();
    r := Ok(DefineVariable(det.id, det.dataType, det.init, det.noUndo));
  }

  method ParseParameterForm(p: Parser, mode: string) returns (r: Result<Stmt>)
    requires p.dialect == Modular
    modifies p
    ensures Agrees(r, p.i, ParameterForm(p.toks, old(p.i), mode))
  {
    var _ :- p.Eat(Keyword("PARAMETER"));
    var det :- ParseDefineDetails(p);
    var _ :- p.OptionalDot();
    r := Ok(DefineParameter(mode, det.id, det.dataType, det.init, det.noUndo));
  }

  // ---------------------------------------------------------- the executors

  /** The environment after `executeDefineVariable` bound `v`: the variable is
      overwritten, and its definition recorded when the table exists. */
  function BindDefined(f: Frame, id: string, dataType: Option<string>, noUndo: bool, v: Value): (g: Frame)
    ensures g.vars == f.vars[id := v]
    ensures g.varDefs.Some? <==> f.varDefs.Some?
    ensures g.varDefs.Some? ==> g.varDefs.value == f.varDefs.value[id := VarDef(dataType, noUndo, false)]
    ensures g == f.(vars := g.vars, varDefs := g.varDefs)
  {
    f.(vars := f.vars[id := v],
       varDefs := if f.varDefs.Some? then Some(f.varDefs.value[id := VarDef(dataType, noUndo, false)]) else None)
  }

  /** The initial value: the INIT expression's value, else the type's default. */
  function InitialValue(ctx: Context, s: Stmt, fs: Frames, env: EnvId): Result<Value>
    requires s.DefineVariable?
  {
    if s.init.Some? then ctx.evalExpr(s.init.value, fs, env) else Ok(ctx.initialValueForType(s.dataType))
  }

  /** `executeDefineVariable`: binds in the current environment itself, not
      through `setVar`. */
  method ExecuteDefineVariable(h: Heap, ctx: Context, env: EnvId, s: Stmt) returns (r: Result<()>)
    requires s.DefineVariable?
    modifies h
    ensures match InitialValue(ctx, s, old(h.frames), env)
            case Ok(v) => r == Ok(()) &&
              h.frames == old(h.frames)[env := BindDefined(FrameOf(old(h.frames), env), s.id, s.dataType, s.noUndo, v)]
            case Err(m) => r == Err(m) && h.frames == old(h.frames)
  {
    var value;
    if s.init.Some? {
      value :- ctx.evalExpr(s.init.value, h.frames, env);
    } else {
      value := ctx.initialValueForType(s.dataType);
    }
    h.frames := h.frames[env := BindDefined(FrameOf(h.frames, env), s.id, s.dataType, s.noUndo, value)];
    r := Ok(());
  }

  /** `executeDefineParameter`: parameters are bound when a procedure is run,
      so executing the statement changes nothing. */
  method ExecuteDefineParameter(h: Heap, env: EnvId, s: Stmt) returns (r: Result<()>)
    requires s.DefineParameter?
    ensures r == Ok(())
  {
    r := Ok(());
  }

  /** The attribute values in order; a later attribute of the same name overwrites an earlier one. */
  function ComputeAttributes(ctx: Context, fs: Frames, env: EnvId, attrs: seq<Attribute>): Result<map<string, Value>>
    decreases |attrs|
  {
    if attrs == [] then Ok(map[])
    else
      var m :- ComputeAttributes(ctx, fs, env, attrs[..|attrs| - 1]);
      var v :- ctx.evalExpr(attrs[|attrs| - 1].expr, fs, env);
      Ok(m[attrs[|attrs| - 1].name := v])
  }

  /** An exception from an attribute stops the computation. */
  lemma {:induction false} ComputeStops(ctx: Context, fs: Frames, env: EnvId, attrs: seq<Attribute>, n: nat)
    requires n <= |attrs| && ComputeAttributes(ctx, fs, env, attrs[..n]).Err?
    ensures ComputeAttributes(ctx, fs, env, attrs) == ComputeAttributes(ctx, fs, env, attrs[..n])
    decreases |attrs|
  {
    if n < |attrs| {
      var init := attrs[..|attrs| - 1];
      assert init[..n] == attrs[..n];
      ComputeStops(ctx, fs, env, init, n);
    } else {
      assert attrs[..n] == attrs;
    }
  }

  /** An attribute name gets the value of its last occurrence: the one no
      later attribute of the same name overrides. */
  lemma {:induction false} ComputeAttributesLastWins(ctx: Context, fs: Frames, env: EnvId, attrs: seq<Attribute>, k: nat)
    requires ComputeAttributes(ctx, fs, env, attrs).Ok?
    requires k < |attrs| && forall m :: k < m < |attrs| ==> attrs[m].name != attrs[k].name
    ensures var vals := ComputeAttributes(ctx, fs, env, attrs).value;
      attrs[k].name in vals && ctx.evalExpr(attrs[k].expr, fs, env) == Ok(vals[attrs[k].name])
    decreases |attrs|
  {
    if k < |attrs| - 1 {
      ComputeAttributesLastWins(ctx, fs, env, attrs[..|attrs| - 1], k);
    }
  }

  /** The environment after `executeDefineWidget` bound the entry: the variable
      named by the lower-cased widget name refers to the entry, and the
      definition is recorded as a widget when the table exists. */
  function BindWidget(f: Frame, key: string, widgetType: string, noUndo: bool): Frame {
    f.(vars := f.vars[key := Obj(EntryRef(key))],
       varDefs := if f.varDefs.Some? then Some(f.varDefs.value[key := VarDef(Some(widgetType), noUndo, true)]) else None)
  }

  method ComputeAttributeValues(ctx: Context, fs: Frames, env: EnvId, attrs: seq<Attribute>) returns (r: Result<map<string, Value>>)
    ensures r == ComputeAttributes(ctx, fs, env, attrs)
  {
    var computed: map<string, Value> := map[];
    var k := 0;
    while k < |attrs|
      invariant 0 <= k <= |attrs|
      invariant ComputeAttributes(ctx, fs, env, attrs[..k]) == Ok(computed)
    {
      assert attrs[..k + 1][..k] == attrs[..k];
      var v := ctx.evalExpr(attrs[k].expr, fs, env);
      if v.Err? {
        ComputeStops(ctx, fs, env, attrs, k + 1);
        return Err(v.msg);
      }
      computed := computed[attrs[k].name := v.value];
      k := k + 1;
    }
    assert attrs[..k] == attrs;
    r := Ok(computed);
  }

  /** `executeDefineWidget`. */
  method ExecuteDefineWidget(h: Heap, ctx: Context, env: EnvId, s: Stmt) returns (r: Result<()>)
    requires s.DefineWidget?
    modifies h
    ensures match ComputeAttributes(ctx, old(h.frames), env, s.attributes)
            case Ok(vals) =>
              var fs := WidgetState.AtRoot(h, old(h.frames), env,
                WidgetState.DefineWidgetFrame(WidgetState.RootFrame(h, old(h.frames), env), s.widgetType, s.name, vals, s.noUndo));
              r == Ok(()) && h.frames == fs[env := BindWidget(FrameOf(fs, env), Lower(s.name), s.widgetType, s.noUndo)]
            case Err(m) => r == Err(m) && h.frames == old(h.frames)
  {
    var vals :- ComputeAttributeValues(ctx, h.frames, env, s.attributes);
    var _ := WidgetState.DefineWidget(h, env, s.widgetType, s.name, vals, s.noUndo);
    var key := Lower(s.name);
    h.frames := h.frames[env := BindWidget(FrameOf(h.frames, env), key, s.widgetType, s.noUndo)];
    r := Ok(());
  }
}
