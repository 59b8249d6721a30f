/** ENABLE and VIEW: a keyword followed by widget names, optionally separated
    by commas; ENABLE makes each widget enabled and visible, VIEW makes it
    visible. */
module TargetListStmts {
  import opened Results
  import opened Text
  import opened Tokens
  import opened Lexer
  import opened Ast
  import opened Grammar
  import opened ParserCore
  import opened Runtime
  import opened WidgetState

  // ----------------------------------------------------------------- parsing

  /** The identifier names among `s`, in order. */
  function Idents(s: seq<Token>): seq<string> {
    if s == [] then [] else (if s[0].kind == IDENT then [TokText(s[0])] else []) + Idents(s[1..])
  }

  /** The name loop: stops at the end of the tokens, at a DOT or EOF, and at
      anything else that is not an identifier; a comma after a name is
      skipped. */
  function TargetsFrom(toks: TokenList, acc: seq<string>, j: nat): (r: Result<Parsed<seq<string>>>)
    decreases |toks| - j
  {
    if !(j < |toks| && toks[j].kind == IDENT) then Ok(Parsed(acc, j))
    else
      var c :- Match(toks, j + 1, COMMA);
      TargetsFrom(toks, acc + [TokText(toks[j])], c.next)
  }

  /** The names are exactly the identifiers of the tokens consumed, which are
      all identifiers or commas, and the token after them is not an identifier. */
  lemma {:induction false} TargetsSpan(toks: TokenList, acc: seq<string>, j: nat)
    requires j <= |toks| && TargetsFrom(toks, acc, j).Ok?
    ensures var p := TargetsFrom(toks, acc, j).value;
      j <= p.next <= |toks|
      && p.value == acc + Idents(toks[j..p.next])
      && (forall k :: j <= k < p.next ==> toks[k].kind == IDENT || toks[k].kind == COMMA)
      && !(p.next < |toks| && toks[p.next].kind == IDENT)
    decreases |toks| - j
  {
    if j < |toks| && toks[j].kind == IDENT {
      var c := Match(toks, j + 1, COMMA).value;
      TargetsSpan(toks, acc + [TokText(toks[j])], c.next);
      var p := TargetsFrom(toks, acc, j).value;
      var s := toks[j..p.next];
      assert s[1..] == toks[j + 1..p.next];
      if c.value {
        assert toks[j + 1..p.next][1..] == toks[j + 2..p.next];
        assert toks[j + 1].kind == COMMA;
      }
    } else {
      assert toks[j..j] == [];
    }
  }

  function NoTargetsMessage(kw: string): string { kw + " requires at least one widget name" }

  /** `parseEnable` and `parseView`, which differ only in the keyword. */
  function TargetList(toks: TokenList, i: nat, kw: string): (r: Result<Parsed<seq<string>>>)
    ensures r.Ok? ==> r.value.value != [] && i < r.value.next <= |toks|
  {
    var k :- Eat(toks, i, Keyword(kw));
    var ts :- TargetsFrom(toks, [], k.next);
    if ts.value == [] then Err(NoTargetsMessage(kw))
    else
      TargetsSpan(toks, [], k.next);
      var end :- OptionalDot(toks, ts.next);
      Ok(Parsed(ts.value, end))
  }

  function ParseEnable(toks: TokenList, i: nat): (r: Result<Parsed<Stmt>>)
    ensures r.Ok? ==> i < r.value.next <= |toks| && r.value.value.EnableWidgets? && r.value.value.targets != []
  {
    var ts :- TargetList(toks, i, "ENABLE");
    Ok(Parsed(EnableWidgets(ts.value), ts.next))
  }

  function ParseView(toks: TokenList, i: nat): (r: Result<Parsed<Stmt>>)
    ensures r.Ok? ==> i < r.value.next <= |toks| && r.value.value.ViewWidgets? && r.value.value.targets != []
  {
    var ts :- TargetList(toks, i, "VIEW");
    Ok(Parsed(ViewWidgets(ts.value), ts.next))
  }

  /** A keyword with no identifier after it is rejected. */
  lemma EmptyListRejected(toks: TokenList, i: nat, kw: string)
    requires i + 1 < |toks| && toks[i].kind == Keyword(kw) && toks[i + 1].kind != IDENT
    ensures TargetList(toks, i, kw) == Err(NoTargetsMessage(kw))
  {
  }

  method ParseTargets(p: Parser) returns (r: Result<seq<string>>)
    modifies p
    ensures Agrees(r, p.i, TargetsFrom(p.toks, [], old(p.i)))
  {
    var targets: seq<string> := [];
    while p.i < |p.toks| && p.toks[p.i].kind == IDENT
      invariant TargetsFrom(p.toks, [], old(p.i)) == TargetsFrom(p.toks, targets, p.i)
      decreases |p.toks| - p.i
    {
      var name := p.toks[p.i];
      var _ := p.Eat(IDENT);
      targets := targets + [TokText(name)];
      var _ :- p.Match(COMMA);
    }
    r := Ok(targets);
  }

  method ParseTargetList(p: Parser, kw: string) returns (r: Result<seq<string>>)
    modifies p
    ensures Agrees(r, p.i, TargetList(p.toks, old(p.i), kw))
  {
    var _ :- p.Eat(Keyword(kw));
    var targets :- ParseTargets(p);
    if targets == [] {
      return Err(NoTargetsMessage(kw));
    }
    var _ :- p.OptionalDot();
    r := Ok(targets);
  }

  method ParseEnableStmt(p: Parser) returns (r: Result<Stmt>)
    modifies p
    ensures Agrees(r, p.i, ParseEnable(p.toks, old(p.i)))
  {
    var ts :- ParseTargetList(p, "ENABLE");
    r := Ok(EnableWidgets(ts));
  }

  method ParseViewStmt(p: Parser) returns (r: Result<Stmt>)
    modifies p
    ensures Agrees(r, p.i, ParseView(p.toks, old(p.i)))
  {
    var ts :- ParseTargetList(p, "VIEW");
    r := Ok(ViewWidgets(ts));
  }

  // --------------------------------------------------------------- execution

  const EnableUpdates := Updates(Some(true), Some(true), None)
  const ViewUpdates := Updates(None, Some(true), None)

  /** `setWidgetState(env, name, u)` for each name in order. */
  function SetAll(h: Heap, fs: Frames, env: EnvId, names: seq<string>, u: Updates): Frames
    decreases |names|
  {
    if names == [] then fs
    else
      var before := SetAll(h, fs, env, names[..|names| - 1], u);
      AtRoot(h, before, env, SetWidgetStateFrame(RootFrame(h, before, env), names[|names| - 1], u))
  }

  /** The update `u` holds for the widget `key`. */
  predicate Updated(f: Frame, key: string, u: Updates) {
    key in Widgets(f)
    && (u.enabled.Some? ==> Widgets(f)[key].enabled == u.enabled.value)
    && (u.visible.Some? ==> Widgets(f)[key].visible == u.visible.value)
  }

  /** One more `setWidgetState` with the same update keeps `key` updated,
      whichever widget it names. */
  lemma UpdatedStays(f: Frame, name: string, u: Updates, key: string)
    requires Updated(f, key, u) || key == NormalizeWidgetName(name)
    ensures Updated(SetWidgetStateFrame(f, name, u), key, u)
  {
    SetWidgetStateExact(f, name, u);
  }

  /** After the loop every named widget has the update's flags, whatever the
      order and repetitions of the names. */
  lemma {:induction false} SetAllUpdates(h: Heap, fs: Frames, env: EnvId, names: seq<string>, u: Updates)
    ensures forall n :: n in names ==> Updated(RootFrame(h, SetAll(h, fs, env, names, u), env), NormalizeWidgetName(n), u)
    decreases |names|
  {
    if names != [] {
      var init := names[..|names| - 1];
      var last := names[|names| - 1];
      SetAllUpdates(h, fs, env, init, u);
      var f := RootFrame(h, SetAll(h, fs, env, init, u), env);
      assert RootFrame(h, SetAll(h, fs, env, names, u), env) == SetWidgetStateFrame(f, last, u);
      forall n | n in names
        ensures Updated(SetWidgetStateFrame(f, last, u), NormalizeWidgetName(n), u)
      {
        assert n == last || n in init;
        UpdatedStays(f, last, u, NormalizeWidgetName(n));
      }
    }
  }

  /** Every widget none of the names normalises to is left as it was. */
  lemma {:induction false} SetAllOthers(h: Heap, fs: Frames, env: EnvId, names: seq<string>, u: Updates, k: string)
    requires k in Widgets(RootFrame(h, fs, env))
    requires forall n :: n in names ==> NormalizeWidgetName(n) != k
    ensures k in Widgets(RootFrame(h, SetAll(h, fs, env, names, u), env))
    ensures Widgets(RootFrame(h, SetAll(h, fs, env, names, u), env))[k] == Widgets(RootFrame(h, fs, env))[k]
    decreases |names|
  {
    if names != [] {
      var init := names[..|names| - 1];
      var last := names[|names| - 1];
      assert forall n :: n in init ==> n in names;
      SetAllOthers(h, fs, env, init, u, k);
      var f := RootFrame(h, SetAll(h, fs, env, init, u), env);
      SetWidgetStateExact(f, last, u);
      assert RootFrame(h, SetAll(h, fs, env, names, u), env) == SetWidgetStateFrame(f, last, u);
    }
  }

  /** ENABLE leaves every named widget enabled and visible. */
  lemma EnableMakesUsable(h: Heap, fs: Frames, env: EnvId, names: seq<string>)
    ensures forall n :: n in names ==>
      var f := RootFrame(h, SetAll(h, fs, env, names, EnableUpdates), env);
      NormalizeWidgetName(n) in Widgets(f) && Widgets(f)[NormalizeWidgetName(n)].enabled
      && Widgets(f)[NormalizeWidgetName(n)].visible
  {
    SetAllUpdates(h, fs, env, names, EnableUpdates);
    forall n | n in names
      ensures Updated(RootFrame(h, SetAll(h, fs, env, names, EnableUpdates), env), NormalizeWidgetName(n), EnableUpdates)
    {
    }
  }

  method SetEach(h: Heap, env: EnvId, names: seq<string>, u: Updates)
    modifies h
    ensures h.frames == SetAll(h, old(h.frames), env, names, u)
  {
    for k := 0 to |names|
      invariant h.frames == SetAll(h, old(h.frames), env, names[..k], u)
    {
      assert names[..k + 1][..k] == names[..k];
      var _ := SetWidgetState(h, env, names[k], u);
    }
    assert names[..|names|] == names;
  }

  /** `executeEnableWidgets`. */
  method ExecuteEnable(h: Heap, env: EnvId, s: Stmt)
    requires s.EnableWidgets?
    modifies h
    ensures h.frames == SetAll(h, old(h.frames), env, s.targets, EnableUpdates)
  {
    SetEach(h, env, s.targets, EnableUpdates);
  }

  /** `executeViewWidgets`. */
  method ExecuteView(h: Heap, env: EnvId, s: Stmt)
    requires s.ViewWidgets?
    modifies h
    ensures h.frames == SetAll(h, old(h.frames), env, s.targets, ViewUpdates)
  {
    SetEach(h, env, s.targets, ViewUpdates);
  }
}
