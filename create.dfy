/** CREATE widget-type name [IN [FRAME] container] [.]: mark a widget as
    created in the root's widget registry. */
module CreateStmt {
  import opened Results
  import opened Text
  import opened Tokens
  import opened Lexer
  import opened Ast
  import opened Grammar
  import opened ParserCore
  import opened Runtime
  import WidgetTypes
  import WidgetState

  const NoContainerName := "Expected container name after IN"

  /** `[IN [FRAME] ident]`; the container type is "FRAME" when FRAME is
      written and "UNKNOWN" otherwise. */
  function ContainerClause(toks: TokenList, j: nat): (r: Result<Parsed<Option<Container>>>)
    ensures r.Ok? ==> (r.value.value.None? <==> !IsKeywordToken(At(toks, j), "IN"))
    ensures r.Ok? && r.value.value.None? ==> r.value.next == j
    ensures r.Ok? && r.value.value.Some? ==>
      j < r.value.next <= |toks| && r.value.value.value.ctype == (if IsKeywordToken(At(toks, j + 1), "FRAME") then "FRAME" else "UNKNOWN")
      && toks[r.value.next - 1].kind == IDENT && r.value.value.value.name == TokText(toks[r.value.next - 1])
    ensures r.Err? ==> r.msg == NoContainerName
  {
    if !IsKeywordToken(At(toks, j), "IN") then Ok(Parsed(None, j))
    else
      var framed := IsKeywordToken(At(toks, j + 1), "FRAME");
      var k := if framed then j + 2 else j + 1;
      if k < |toks| && toks[k].kind == IDENT then
        Ok(Parsed(Some(Container(if framed then "FRAME" else "UNKNOWN", TokText(toks[k]))), k + 1))
      else Err(NoContainerName)
  }

  /** `parseCreate`: the widget type by the longest matching pattern, then
      the rest of the statement. */
  function ParseCreate(toks: TokenList, i: nat): (r: Result<Parsed<Stmt>>)
    ensures r.Ok? ==> i < r.value.next <= |toks| && r.value.value.CreateWidget?
  {
    var kw :- Eat(toks, i, Keyword("CREATE"));
    var wt :- WidgetTypes.WidgetType(toks, kw.next);
    CreateBody(toks, wt.next, wt.value)
  }

  /** After the type: a required name, kept as written, and the container. */
  function CreateBody(toks: TokenList, j: nat, widgetType: string): (r: Result<Parsed<Stmt>>)
    ensures r.Ok? ==> j < r.value.next <= |toks| && r.value.value.CreateWidget?
    ensures r.Ok? ==> toks[j].kind == IDENT && r.value.value == CreateWidget(widgetType, TokText(toks[j]), r.value.value.container)
    ensures j >= |toks| || toks[j].kind != IDENT ==> r == Err("Expected widget name after " + widgetType)
  {
    if !(j < |toks| && toks[j].kind == IDENT) then Err("Expected widget name after " + widgetType)
    else
      var container :- ContainerClause(toks, j + 1);
      var end :- OptionalDot(toks, container.next);
      Ok(Parsed(CreateWidget(widgetType, TokText(toks[j]), container.value), end))
  }

  method ParseContainer(p: Parser) returns (r: Result<Option<Container>>)
    modifies p
    ensures Agrees(r, p.i, ContainerClause(p.toks, old(p.i)))
  {
    if !IsKeywordToken(At(p.toks, p.i), "IN") {
      return Ok(None);
    }
    var _ := p.EatNext();
    var ctype := "UNKNOWN";
    if IsKeywordToken(At(p.toks, p.i), "FRAME") {
      ctype := "FRAME";
      var _ := p.EatNext();
    }
    if !(p.i < |p.toks| && p.toks[p.i].kind == IDENT) {
      return Err(NoContainerName);
    }
    var name := p.toks[p.i];
    var _ := p.Eat(IDENT);
    r := Ok(Some(Container(ctype, TokText(name))));
  }

  method ParseBody(p: Parser, widgetType: string) returns (r: Result<Stmt>)
    modifies p
    ensures Agrees(r, p.i, CreateBody(p.toks, old(p.i), widgetType))
  {
    if !(p.i < |p.toks| && p.toks[p.i].kind == IDENT) {
      return Err("Expected widget name after " + widgetType);
    }
    var name := p.toks[p.i];
    var _ := p.Eat(IDENT);
    var container :- ParseContainer(p);
    var _ :- p.OptionalDot();
    r := Ok(CreateWidget(widgetType, TokText(name), container));
  }

  method Parse(p: Parser) returns (r: Result<Stmt>)
    modifies p
    ensures Agrees(r, p.i, ParseCreate(p.toks, old(p.i)))
  {
    var _ :- p.Eat(Keyword("CREATE"));
    var widgetType :- WidgetTypes.ReadWidgetType(p);
    r := ParseBody(p, widgetType);
  }

  /** The `container` option handed to `createWidget`. */
  function Options(s: Stmt): WidgetState.CreateOptions
    requires s.CreateWidget?
  {
    WidgetState.CreateOptions(
      if s.container.Some? then Some(WidgetContainer(s.container.value.ctype, s.container.value.name)) else None,
      None, None)
  }

  /** After `executeCreateWidget` the widget's entry exists under its
      normalised name and is marked created, with the statement's type; its
      enabled and visible flags are untouched. */
  lemma CreateMarksCreated(f: Frame, s: Stmt)
    requires s.CreateWidget? && s.widgetType != ""
    ensures var g := WidgetState.CreateWidgetFrame(f, s.widgetType, s.name, Options(s));
      var key := WidgetState.NormalizeWidgetName(s.name);
      key in WidgetState.Widgets(g) && WidgetState.Widgets(g)[key].created
      && WidgetState.Widgets(g)[key].wtype == Some(s.widgetType)
      && WidgetState.Widgets(g)[key].enabled == WidgetState.EntryOf(f, s.name).enabled
      && WidgetState.Widgets(g)[key].visible == WidgetState.EntryOf(f, s.name).visible
      && (s.container.Some? ==> WidgetState.Widgets(g)[key].container.Some?)
  {
    WidgetState.CreateWidgetEffect(f, s.widgetType, s.name, Options(s));
  }

  /** `executeCreateWidget`. */
  method Execute(h: Heap, env: EnvId, s: Stmt)
    requires s.CreateWidget?
    modifies h
    ensures h.frames == WidgetState.AtRoot(h, old(h.frames), env,
      WidgetState.CreateWidgetFrame(WidgetState.RootFrame(h, old(h.frames), env), s.widgetType, s.name, Options(s)))
  {
    var _ := WidgetState.CreateWidget(h, env, s.widgetType, s.name, Options(s));
  }
}
