/** DISPLAY (and PRINT): a list of items, each with optional LABEL and FORMAT,
    and an optional WITH list; executing it emits one line of text, or one rich
    line when some item is a widget. */
module DisplayStmt {
  import opened Results
  import opened Text
  import opened Values
  import opened Tokens
  import opened Lexer
  import opened Ast
  import opened Grammar
  import opened ParserCore
  import opened Runtime

  /** `isExprStartToken`. */
  predicate IsExprStart(t: Option<Token>) {
    t.Some? &&
    (t.value.kind in {IDENT, NUMBER, STRING, UNKNOWN, LPAREN} || IsOp(t.value, {"+", "-"})
     || t.value.kind == Keyword("NOT"))
  }

  /** The expression starts are exactly the tokens the expression parser does
      not reject on sight: any other token makes `parseExpr` throw at once. */
  lemma NotExprStartRejected(toks: TokenList, j: nat)
    requires j < |toks| && !IsExprStart(Some(toks[j]))
    ensures ParseExpr(Modular, toks, j) == Err(UnexpectedInExpression(toks[j].kind))
  {
    assert ParsePrimary(Modular, toks, j) == Err(UnexpectedInExpression(toks[j].kind));
    assert ParseUnary(Modular, toks, j) == Err(UnexpectedInExpression(toks[j].kind));
    assert ParseMul(Modular, toks, j) == Err(UnexpectedInExpression(toks[j].kind));
    assert ParseAdd(Modular, toks, j) == Err(UnexpectedInExpression(toks[j].kind));
    assert ParseCompare(Modular, toks, j) == Err(UnexpectedInExpression(toks[j].kind));
    assert ParseNot(Modular, toks, j) == Err(UnexpectedInExpression(toks[j].kind));
    assert ParseAnd(Modular, toks, j) == Err(UnexpectedInExpression(toks[j].kind));
  }

  // ----------------------------------------------------------------- parsing

  /** The LABEL/FORMAT loop after an item's expression. */
  function MetaFrom(toks: TokenList, item: DisplayItem, j: nat): (r: Result<Parsed<DisplayItem>>)
    ensures r.Ok? ==> j <= r.value.next <= |toks| && r.value.value.expr == item.expr
    decreases |toks| - j
  {
    var next :- Peek(toks, j);
    if next.kind == Keyword("LABEL") then
      var e :- ParseExpr(Modular, toks, j + 1);
      MetaFrom(toks, item.(labelExpr := Some(e.value)), e.next)
    else if next.kind == Keyword("FORMAT") then
      var e :- ParseExpr(Modular, toks, j + 1);
      MetaFrom(toks, item.(format := Some(e.value)), e.next)
    else Ok(Parsed(item, j))
  }

  /** A later LABEL replaces an earlier one: from a LABEL token on, the result
      does not depend on the label read before, and it has a label. */
  lemma {:induction false} LabelLastWins(toks: TokenList, item: DisplayItem, l: Option<Expr>, j: nat)
    requires j < |toks| && toks[j].kind == Keyword("LABEL")
    ensures MetaFrom(toks, item, j) == MetaFrom(toks, item.(labelExpr := l), j)
    ensures MetaFrom(toks, item, j).Ok? ==> MetaFrom(toks, item, j).value.value.labelExpr.Some?
  {
    var e := ParseExpr(Modular, toks, j + 1);
    if e.Ok? {
      assert MetaFrom(toks, item, j) == MetaFrom(toks, item.(labelExpr := Some(e.value.value)), e.value.next);
      MetaKeeps(toks, item.(labelExpr := Some(e.value.value)), e.value.next);
    }
  }

  /** A later FORMAT replaces an earlier one: from a FORMAT token on, the
      result does not depend on the format read before, and it has a format. */
  lemma {:induction false} FormatLastWins(toks: TokenList, item: DisplayItem, f: Option<Expr>, j: nat)
    requires j < |toks| && toks[j].kind == Keyword("FORMAT")
    ensures MetaFrom(toks, item, j) == MetaFrom(toks, item.(format := f), j)
    ensures MetaFrom(toks, item, j).Ok? ==> MetaFrom(toks, item, j).value.value.format.Some?
  {
    var e := ParseExpr(Modular, toks, j + 1);
    if e.Ok? {
      MetaKeeps(toks, item.(format := Some(e.value.value)), e.value.next);
    }
  }

  /** A label or format, once read, stays present. */
  lemma {:induction false} MetaKeeps(toks: TokenList, item: DisplayItem, j: nat)
    ensures var r := MetaFrom(toks, item, j);
      r.Ok? ==>
        (item.labelExpr.Some? ==> r.value.value.labelExpr.Some?) &&
        (item.format.Some? ==> r.value.value.format.Some?)
    decreases |toks| - j
  {
    if j < |toks| {
      var e := ParseExpr(Modular, toks, j + 1);
      if e.Ok? {
        if toks[j].kind == Keyword("LABEL") {
          MetaKeeps(toks, item.(labelExpr := Some(e.value.value)), e.value.next);
        } else if toks[j].kind == Keyword("FORMAT") {
          MetaKeeps(toks, item.(format := Some(e.value.value)), e.value.next);
        }
      }
    }
  }

  /** The item loop: an item, then a comma or the start of another expression continues it. */
  function ItemsFrom(toks: TokenList, acc: seq<DisplayItem>, j: nat): (r: Result<Parsed<seq<DisplayItem>>>)
    ensures r.Ok? ==> j < r.value.next <= |toks|
    decreases |toks| - j
  {
    var e :- ParseExpr(Modular, toks, j);
    var meta :- MetaFrom(toks, DisplayItem(e.value, None, None), e.next);
    var m :- Match(toks, meta.next, COMMA);
    if m.value then ItemsFrom(toks, acc + [meta.value], m.next)
    else if IsExprStart(At(toks, meta.next)) then ItemsFrom(toks, acc + [meta.value], meta.next)
    else Ok(Parsed(acc + [meta.value], meta.next))
  }

  /** The loop adds at least one item after those already read, and it stops
      exactly at a token that is neither a comma nor an expression start. */
  lemma {:induction false} ItemsStop(toks: TokenList, acc: seq<DisplayItem>, j: nat)
    requires ItemsFrom(toks, acc, j).Ok?
    ensures var r := ItemsFrom(toks, acc, j).value;
      |r.value| > |acc| && r.value[..|acc|] == acc
      && r.next < |toks| && toks[r.next].kind != COMMA && !IsExprStart(Some(toks[r.next]))
    decreases |toks| - j
  {
    var e := ParseExpr(Modular, toks, j).value;
    var meta := MetaFrom(toks, DisplayItem(e.value, None, None), e.next).value;
    var m := Match(toks, meta.next, COMMA).value;
    var acc' := acc + [meta.value];
    if m.value {
      ItemsStop(toks, acc', m.next);
      assert ItemsFrom(toks, acc', m.next).value.value[..|acc'|][..|acc|] == acc;
    } else if IsExprStart(At(toks, meta.next)) {
      ItemsStop(toks, acc', meta.next);
      assert ItemsFrom(toks, acc', meta.next).value.value[..|acc'|][..|acc|] == acc;
    }
  }

  /** One WITH option: CENTERED, FRAME with an optional target expression, or
      any identifier, upper-cased; `None` (nothing read) at any other token. */
  function WithOption(toks: TokenList, j: nat): (r: Result<Parsed<Option<string>>>)
    ensures r.Ok? && r.value.value.None? ==> r.value.next == j
    ensures r.Ok? && r.value.value.Some? ==>
      j < r.value.next <= |toks| && Upper(r.value.value.value) == r.value.value.value
  {
    var next :- Peek(toks, j);
    if next.kind == Keyword("CENTERED") then Ok(Parsed(Some("CENTERED"), j + 1))
    else if next.kind == Keyword("FRAME") then
      if IsExprStart(At(toks, j + 1)) then
        var e :- ParseExpr(Modular, toks, j + 1);
        Ok(Parsed(Some("FRAME"), e.next))
      else Ok(Parsed(Some("FRAME"), j + 1))
    else if next.kind == IDENT then
      UpperIdempotent(TokText(next));
      Ok(Parsed(Some(Upper(TokText(next))), j + 1))
    else Ok(Parsed(None, j))
  }

  /** The WITH list: options separated by commas. */
  function WithFrom(toks: TokenList, acc: seq<string>, j: nat): (r: Result<Parsed<seq<string>>>)
    ensures r.Ok? ==> j <= r.value.next <= |toks|
    decreases |toks| - j
  {
    var step :- WithOption(toks, j);
    if step.value.None? then Ok(Parsed(acc, j))
    else
      var m :- Match(toks, step.next, COMMA);
      if m.value then WithFrom(toks, acc + [step.value.value], m.next)
      else Ok(Parsed(acc + [step.value.value], step.next))
  }

  predicate AllUpper(opts: seq<string>) {
    forall k :: 0 <= k < |opts| ==> Upper(opts[k]) == opts[k]
  }

  /** Every WITH option is recorded in upper case. */
  lemma {:induction false} WithOptionsUpper(toks: TokenList, acc: seq<string>, j: nat)
    requires AllUpper(acc) && WithFrom(toks, acc, j).Ok?
    ensures AllUpper(WithFrom(toks, acc, j).value.value)
    decreases |toks| - j
  {
    var step := WithOption(toks, j).value;
    if step.value.Some? {
      var acc' := acc + [step.value.value];
      assert AllUpper(acc');
      var m := Match(toks, step.next, COMMA).value;
      if m.value {
        WithOptionsUpper(toks, acc', m.next);
      }
    }
  }

  /** `parseDisplay`. */
  function ParseDisplay(toks: TokenList, i: nat): (r: Result<Parsed<Stmt>>)
    ensures r.Ok? ==> i < r.value.next <= |toks| && r.value.value.Display?
  {
    var kw :- EatNext(toks, i);
    var items :- ItemsFrom(toks, [], kw.next);
    var w :- Match(toks, items.next, Keyword("WITH"));
    var opts :- if w.value then WithFrom(toks, [], w.next) else Ok(Parsed([], items.next));
    var end :- OptionalDot(toks, opts.next);
    Ok(Parsed(Display(items.value, opts.value), end))
  }

  method ParseMeta(p: Parser, item: DisplayItem) returns (r: Result<DisplayItem>)
    requires p.dialect == Modular
    modifies p
    ensures Agrees(r, p.i, MetaFrom(p.toks, item, old(p.i)))
  {
    var meta := item;
    while true
      invariant MetaFrom(p.toks, item, old(p.i)) == MetaFrom(p.toks, meta, p.i)
      decreases |p.toks| - p.i
    {
      var next :- p.Peek();
      if next.kind == Keyword("LABEL") {
        var _ := p.Eat(Keyword("LABEL"));
        var e :- p.ParseExpr();
        meta := meta.(labelExpr := Some(e));
      } else if next.kind == Keyword("FORMAT") {
        var _ := p.Eat(Keyword("FORMAT"));
        var e :- p.ParseExpr();
        meta := meta.(format := Some(e));
      } else {
        return Ok(meta);
      }
    }
  }

  method ParseItems(p: Parser) returns (r: Result<seq<DisplayItem>>)
    requires p.dialect == Modular
    modifies p
    ensures Agrees(r, p.i, ItemsFrom(p.toks, [], old(p.i)))
  {
    var items: seq<DisplayItem> := [];
    while true
      invariant ItemsFrom(p.toks, [], old(p.i)) == ItemsFrom(p.toks, items, p.i)
      decreases |p.toks| - p.i
    {
      var e :- p.ParseExpr();
      var meta :- ParseMeta(p, DisplayItem(e, None, None));
      items := items + [meta];
      var m :- p.Match(COMMA);
      if !m && !IsExprStart(At(p.toks, p.i)) {
        return Ok(items);
      }
    }
  }

  method ParseWithOption(p: Parser) returns (r: Result<Option<string>>)
    requires p.dialect == Modular
    modifies p
    ensures Agrees(r, p.i, WithOption(p.toks, old(p.i)))
  {
    var next :- p.Peek();
    if next.kind == Keyword("CENTERED") {
      var _ := p.EatNext();
      r := Ok(Some("CENTERED"));
    } else if next.kind == Keyword("FRAME") {
      var _ := p.EatNext();
      if IsExprStart(At(p.toks, p.i)) {
        var _ :- p.ParseExpr();
      }
      r := Ok(Some("FRAME"));
    } else if next.kind == IDENT {
      var _ := p.EatNext();
      r := Ok(Some(Upper(TokText(next))));
    } else {
      r := Ok(None);
    }
  }

  method ParseWith(p: Parser) returns (r: Result<seq<string>>)
    requires p.dialect == Modular
    modifies p
    ensures Agrees(r, p.i, WithFrom(p.toks, [], old(p.i)))
  {
    var opts: seq<string> := [];
    while true
      invariant WithFrom(p.toks, [], old(p.i)) == WithFrom(p.toks, opts, p.i)
      decreases |p.toks| - p.i
    {
      var o :- ParseWithOption(p);
      if o.None? {
        return Ok(opts);
      }
      opts := opts + [o.value];
      var m :- p.Match(COMMA);
      if !m {
        return Ok(opts);
      }
    }
  }

  method Parse(p: Parser) returns (r: Result<Stmt>)
    requires p.dialect == Modular
    modifies p
    ensures Agrees(r, p.i, ParseDisplay(p.toks, old(p.i)))
  {
    var _ :- p.EatNext();
    var items :- ParseItems(p);
    var w :- p.Match(Keyword("WITH"));
    var opts: seq<string> := [];
    if w {
      opts :- ParseWith(p);
    }
    var _ :- p.OptionalDot();
    r := Ok(Display(items, opts));
  }

  // ------------------------------------------------------------- segments

  /** Segments with the `null` entries the merge tolerates. */
  function Present(segs: seq<Option<Segment>>): (r: seq<Segment>)
    ensures |r| <= |segs|
    decreases |segs|
  {
    if segs == [] then []
    else Present(segs[..|segs| - 1]) + (if segs[|segs| - 1].Some? then [segs[|segs| - 1].value] else [])
  }

  /** One step of `mergeAdjacentTextSegments`: a text segment extends a text
      segment before it, anything else is appended. */
  function MergeStep(merged: seq<Segment>, s: Option<Segment>): seq<Segment> {
    match s
    case None => merged
    case Some(Text(t)) =>
      if merged != [] && merged[|merged| - 1].Text? then
        merged[..|merged| - 1] + [Text(merged[|merged| - 1].text + t)]
      else merged + [Text(t)]
    case Some(w) => merged + [w]
  }

  /** `mergeAdjacentTextSegments`. */
  function Merge(segs: seq<Option<Segment>>): seq<Segment>
    decreases |segs|
  {
    if segs == [] then [] else MergeStep(Merge(segs[..|segs| - 1]), segs[|segs| - 1])
  }

  /** No two text segments are next to each other. */
  predicate NoAdjacentText(segs: seq<Segment>) {
    forall k :: 0 < k < |segs| ==> !(segs[k - 1].Text? && segs[k].Text?)
  }

  /** What a line shows, character by character, with each widget as one atom. */
  datatype Atom = Ch(c: char) | W(widget: Value)

  function Chars(s: string): (r: seq<Atom>)
    ensures |r| == |s|
  {
    if s == [] then [] else [Ch(s[0])] + Chars(s[1..])
  }

  function AtomsOf(s: Segment): seq<Atom> {
    match s
    case Text(t) => Chars(t)
    case WidgetSegment(w) => [W(w)]
  }

  function Flatten(segs: seq<Segment>): seq<Atom>
    decreases |segs|
  {
    if segs == [] then []
    else Flatten(segs[..|segs| - 1]) + AtomsOf(segs[|segs| - 1])
  }

  lemma {:induction false} CharsAppend(a: string, b: string)
    ensures Chars(a + b) == Chars(a) + Chars(b)
    decreases |a|
  {
    if a != [] {
      assert (a + b)[1..] == a[1..] + b;
      CharsAppend(a[1..], b);
    } else {
      assert a + b == b;
    }
  }

  lemma {:induction false} FlattenAppend(a: seq<Segment>, b: seq<Segment>)
    ensures Flatten(a + b) == Flatten(a) + Flatten(b)
    decreases |b|
  {
    if b != [] {
      assert (a + b)[..|a + b| - 1] == a + b[..|b| - 1];
      FlattenAppend(a, b[..|b| - 1]);
    } else {
      assert a + b == a;
    }
  }

  function OptAtoms(s: Option<Segment>): seq<Atom> {
    if s.Some? then AtomsOf(s.value) else []
  }

  lemma FlattenSnoc(a: seq<Segment>, x: Segment)
    ensures Flatten(a + [x]) == Flatten(a) + AtomsOf(x)
  {
    assert (a + [x])[..|a|] == a;
  }

  lemma NoAdjacentSnoc(m: seq<Segment>, x: Segment)
    requires NoAdjacentText(m)
    requires x.Text? ==> m == [] || !m[|m| - 1].Text?
    ensures NoAdjacentText(m + [x])
  {
    forall k | 0 < k < |m + [x]|
      ensures !((m + [x])[k - 1].Text? && (m + [x])[k].Text?)
    {
      if k < |m| {
        assert (m + [x])[k - 1] == m[k - 1] && (m + [x])[k] == m[k];
      }
    }
  }

  /** Extending the last text segment keeps the text segments apart and adds
      the new characters at the end. */
  lemma ExtendLastText(prev: seq<Segment>, u: string, t: string)
    requires NoAdjacentText(prev + [Text(u)])
    ensures NoAdjacentText(prev + [Text(u + t)])
    ensures Flatten(prev + [Text(u + t)]) == Flatten(prev + [Text(u)]) + Chars(t)
  {
    ExtendLastTextApart(prev, u, t);
    calc {
      Flatten(prev + [Text(u + t)]);
      { FlattenSnoc(prev, Text(u + t)); }
      Flatten(prev) + Chars(u + t);
      { CharsAppend(u, t); }
      Flatten(prev) + Chars(u) + Chars(t);
      { FlattenSnoc(prev, Text(u)); }
      Flatten(prev + [Text(u)]) + Chars(t);
    }
  }

  lemma ExtendLastTextApart(prev: seq<Segment>, u: string, t: string)
    requires NoAdjacentText(prev + [Text(u)])
    ensures NoAdjacentText(prev + [Text(u + t)])
  {
    var a := prev + [Text(u)];
    var b := prev + [Text(u + t)];
    forall k | 0 < k < |b|
      ensures !(b[k - 1].Text? && b[k].Text?)
    {
      assert a[k - 1].Text? == b[k - 1].Text? && a[k].Text? == b[k].Text?;
    }
  }

  /** One merge step keeps the text segments apart and adds exactly the
      characters (or the widget) of the new segment. */
  lemma MergeStepShape(m: seq<Segment>, s: Option<Segment>)
    requires NoAdjacentText(m)
    ensures NoAdjacentText(MergeStep(m, s))
    ensures Flatten(MergeStep(m, s)) == Flatten(m) + OptAtoms(s)
  {
    match s
    case None =>
    case Some(Text(t)) =>
      if m != [] && m[|m| - 1].Text? {
        var prev := m[..|m| - 1];
        assert m == prev + [Text(m[|m| - 1].text)];
        ExtendLastText(prev, m[|m| - 1].text, t);
      } else {
        NoAdjacentSnoc(m, Text(t));
        FlattenSnoc(m, Text(t));
      }
    case Some(w) =>
      NoAdjacentSnoc(m, w);
      FlattenSnoc(m, w);
  }

  /** The merge drops the `null` entries, keeps every widget segment in order
      and every character of the text, and leaves no two text segments side by
      side. */
  lemma {:induction false} MergeShape(segs: seq<Option<Segment>>)
    ensures NoAdjacentText(Merge(segs))
    ensures Flatten(Merge(segs)) == Flatten(Present(segs))
    decreases |segs|
  {
    if segs != [] {
      var init := segs[..|segs| - 1];
      var last := segs[|segs| - 1];
      MergeShape(init);
      MergeStepShape(Merge(init), last);
      if last.Some? {
        FlattenSnoc(Present(init), last.value);
      } else {
        assert Present(segs) == Present(init);
      }
    }
  }

  method MergeAdjacentTextSegments(segs: seq<Option<Segment>>) returns (merged: seq<Segment>)
    ensures merged == Merge(segs)
  {
    merged := [];
    for k := 0 to |segs|
      invariant merged == Merge(segs[..k])
    {
      assert segs[..k + 1][..k] == segs[..k];
      match segs[k]
      case None =>
      case Some(Text(t)) =>
        if merged != [] && merged[|merged| - 1].Text? {
          merged := merged[..|merged| - 1] + [Text(merged[|merged| - 1].text + t)];
        } else {
          merged := merged + [Text(t)];
        }
      case Some(w) =>
        merged := merged + [w];
    }
    assert segs[..|segs|] == segs;
  }

  // ------------------------------------------------------------- execution

  /** `isWidgetValue`: an object flagged as a widget by the runtime. */
  predicate IsWidgetValue(v: Value) { v.Obj? && v.ref.WidgetHandle? }

  /** `labelValue == null ? '' : String(labelValue)`. */
  function LabelText(lv: Value): string { if lv == Null then "" else ToStr(lv) }

  /** The segments one item contributes, in evaluation order: the value, then
      the label, then (for a plain value) the format. */
  function ItemSegments(ctx: Context, fs: Frames, env: EnvId, item: DisplayItem): (r: Result<seq<Segment>>)
    ensures r.Ok? ==> ctx.evalExpr(item.expr, fs, env).Ok?
    ensures r.Ok? && IsWidgetValue(ctx.evalExpr(item.expr, fs, env).value) ==>
      1 <= |r.value| <= 2 && r.value[|r.value| - 1] == WidgetSegment(ctx.evalExpr(item.expr, fs, env).value)
      && (|r.value| == 2 ==> r.value[0].Text?)
    ensures r.Ok? && !IsWidgetValue(ctx.evalExpr(item.expr, fs, env).value) ==> |r.value| == 1 && r.value[0].Text?
  {
    var v :- ctx.evalExpr(item.expr, fs, env);
    var lv :- if item.labelExpr.Some? then ctx.evalExpr(item.labelExpr.value, fs, env) else Ok(Null);
    var labelText := LabelText(lv);
    if IsWidgetValue(v) then
      Ok((if labelText != "" then [Text(labelText + " ")] else []) + [WidgetSegment(v)])
    else
      var fmt :- if item.format.Some? then ctx.evalExpr(item.format.value, fs, env) else Ok(Null);
      var formatted := ctx.formatDisplayValue(v, fmt);
      Ok([Text(if labelText != "" then Trim(labelText + " " + formatted) else formatted)])
  }

  /** With a label the item reads `(label + ' ' + formatted).trim()`; without
      one (or with a null or empty label) it is the formatted value. */
  lemma LabelledItemText(ctx: Context, fs: Frames, env: EnvId, item: DisplayItem, v: Value, lv: Value)
    requires ctx.evalExpr(item.expr, fs, env) == Ok(v) && !IsWidgetValue(v)
    requires item.labelExpr.Some? ==> ctx.evalExpr(item.labelExpr.value, fs, env) == Ok(lv)
    requires item.labelExpr.None? ==> lv == Null
    requires item.format.Some? ==> ctx.evalExpr(item.format.value, fs, env).Ok?
    ensures var fmt := if item.format.Some? then ctx.evalExpr(item.format.value, fs, env).value else Null;
      var formatted := ctx.formatDisplayValue(v, fmt);
      ItemSegments(ctx, fs, env, item) ==
        Ok([Text(if LabelText(lv) != "" then Trim(LabelText(lv) + " " + formatted) else formatted)])
  {
  }

  /** The segments so far, then a `' '` text segment unless `k` is the first item, then item `k`'s. */
  function Spaced(prev: seq<Segment>, k: nat, mine: seq<Segment>): seq<Segment> {
    prev + (if k > 0 then [Text(" ")] else []) + mine
  }

  /** The items' segments in order, a `' '` text segment between consecutive
      items; the first exception stops the loop. */
  function Collect(rs: seq<Result<seq<Segment>>>): Result<seq<Segment>>
    decreases |rs|
  {
    if rs == [] then Ok([])
    else
      var prev :- Collect(rs[..|rs| - 1]);
      var mine :- rs[|rs| - 1];
      Ok(Spaced(prev, |rs| - 1, mine))
  }

  function ItemResults(ctx: Context, fs: Frames, env: EnvId, items: seq<DisplayItem>): (rs: seq<Result<seq<Segment>>>)
    ensures |rs| == |items| && forall k :: 0 <= k < |items| ==> rs[k] == ItemSegments(ctx, fs, env, items[k])
  {
    seq(|items|, k requires 0 <= k < |items| => ItemSegments(ctx, fs, env, items[k]))
  }

  function Segments(ctx: Context, fs: Frames, env: EnvId, items: seq<DisplayItem>): Result<seq<Segment>> {
    Collect(ItemResults(ctx, fs, env, items))
  }

  predicate HasWidget(segs: seq<Segment>) {
    exists k :: 0 <= k < |segs| && segs[k].WidgetSegment?
  }

  /** `segments.map(s => String(s.text || '')).join('')`. */
  function Concat(segs: seq<Segment>): string
    decreases |segs|
  {
    if segs == [] then ""
    else Concat(segs[..|segs| - 1]) + (if segs[|segs| - 1].Text? then segs[|segs| - 1].text else "")
  }

  /** Some WITH option reads CENTERED in upper case. */
  predicate HasCentered(opts: seq<string>) {
    exists k :: 0 <= k < |opts| && Upper(opts[k]) == "CENTERED"
  }

  function Wrap(segs: seq<Segment>): (r: seq<Option<Segment>>)
    ensures |r| == |segs| && forall k :: 0 <= k < |segs| ==> r[k] == Some(segs[k])
  {
    seq(|segs|, k requires 0 <= k < |segs| => Some(segs[k]))
  }

  /** What `executeDisplay` passes to `env.output`. */
  function DisplayOutput(ctx: Context, fs: Frames, env: EnvId, s: Stmt): Result<OutputItem>
    requires s.Display?
  {
    var segs :- Segments(ctx, fs, env, s.items);
    var centered := HasCentered(s.withOptions);
    if !HasWidget(segs) then
      Ok(Line(if centered then ctx.centerLine(Concat(segs)) else Concat(segs)))
    else Ok(Rich(centered, Merge(Wrap(segs))))
  }

  lemma {:induction false} JoinSnoc(parts: seq<string>, x: string, sep: string)
    requires parts != []
    ensures Join(parts + [x], sep) == Join(parts, sep) + sep + x
    decreases |parts|
  {
    if |parts| > 1 {
      assert (parts + [x])[1..] == parts[1..] + [x];
      JoinSnoc(parts[1..], x, sep);
    }
  }

  lemma ConcatSnoc(a: seq<Segment>, x: Segment)
    ensures Concat(a + [x]) == Concat(a) + (if x.Text? then x.text else "")
  {
    assert (a + [x])[..|a|] == a;
  }

  lemma HasWidgetAppend(a: seq<Segment>, b: seq<Segment>)
    ensures HasWidget(a + b) <==> HasWidget(a) || HasWidget(b)
  {
    if HasWidget(b) {
      var k :| 0 <= k < |b| && b[k].WidgetSegment?;
      assert (a + b)[|a| + k] == b[k];
    }
    if HasWidget(a) {
      var k :| 0 <= k < |a| && a[k].WidgetSegment?;
      assert (a + b)[k] == a[k];
    }
    if HasWidget(a + b) {
      var k :| 0 <= k < |a + b| && (a + b)[k].WidgetSegment?;
      if k >= |a| {
        assert b[k - |a|] == (a + b)[k];
      }
    }
  }

  /** An item's segments hold a widget exactly when its value is a widget. */
  lemma ItemWidget(ctx: Context, fs: Frames, env: EnvId, item: DisplayItem)
    requires ItemSegments(ctx, fs, env, item).Ok?
    ensures HasWidget(ItemSegments(ctx, fs, env, item).value) <==> IsWidgetValue(ctx.evalExpr(item.expr, fs, env).value)
  {
    var segs := ItemSegments(ctx, fs, env, item).value;
    if IsWidgetValue(ctx.evalExpr(item.expr, fs, env).value) {
      assert segs[|segs| - 1].WidgetSegment?;
    }
  }

  /** A widget appears after the step exactly when one appeared before or in
      the new item; the text grows by the separator and the item's text. */
  lemma SpacedShape(prev: seq<Segment>, k: nat, mine: seq<Segment>)
    ensures HasWidget(Spaced(prev, k, mine)) <==> HasWidget(prev) || HasWidget(mine)
    ensures |mine| == 1 && mine[0].Text? ==>
      Concat(Spaced(prev, k, mine)) == Concat(prev) + (if k > 0 then " " else "") + mine[0].text
  {
    var sep: seq<Segment> := if k > 0 then [Text(" ")] else [];
    HasWidgetAppend(prev, sep);
    HasWidgetAppend(prev + sep, mine);
    if |mine| == 1 && mine[0].Text? {
      assert Spaced(prev, k, mine) == (prev + sep) + [mine[0]];
      ConcatSnoc(prev + sep, mine[0]);
      if k > 0 {
        ConcatSnoc(prev, Text(" "));
      } else {
        assert prev + sep == prev;
      }
    }
  }

  /** When every item is a plain text, the segments hold no widget and read
      as the texts joined by single spaces. */
  lemma {:induction false} PlainCollect(rs: seq<Result<seq<Segment>>>, texts: seq<string>)
    requires |texts| == |rs|
    requires forall k :: 0 <= k < |rs| ==> rs[k] == Ok([Text(texts[k])])
    ensures Collect(rs).Ok? && !HasWidget(Collect(rs).value)
    ensures Concat(Collect(rs).value) == Join(texts, " ")
    decreases |rs|
  {
    if rs != [] {
      var n := |rs| - 1;
      PlainCollect(rs[..n], texts[..n]);
      var prev := Collect(rs[..n]).value;
      SpacedShape(prev, n, [Text(texts[n])]);
      assert texts[..n] + [texts[n]] == texts;
      if n > 0 {
        JoinSnoc(texts[..n], texts[n], " ");
      }
    }
  }

  /** Without widget values DISPLAY emits exactly one line, the item texts
      joined by single spaces, centred only when CENTERED is among the options. */
  lemma DisplayPlainLine(ctx: Context, fs: Frames, env: EnvId, s: Stmt, texts: seq<string>)
    requires s.Display? && |texts| == |s.items|
    requires forall k :: 0 <= k < |s.items| ==> ItemSegments(ctx, fs, env, s.items[k]) == Ok([Text(texts[k])])
    ensures DisplayOutput(ctx, fs, env, s) ==
      Ok(Line(if HasCentered(s.withOptions) then ctx.centerLine(Join(texts, " ")) else Join(texts, " ")))
  {
    PlainCollect(ItemResults(ctx, fs, env, s.items), texts);
  }

  /** An exception from an item stops the statement. */
  lemma {:induction false} CollectStop(rs: seq<Result<seq<Segment>>>, n: nat)
    requires n <= |rs| && Collect(rs[..n]).Err?
    ensures Collect(rs) == Collect(rs[..n])
    decreases |rs|
  {
    if n < |rs| {
      var init := rs[..|rs| - 1];
      assert init[..n] == rs[..n];
      CollectStop(init, n);
    } else {
      assert rs[..n] == rs;
    }
  }

  /** The loop over the items: the segments, and whether one was a widget. */
  method BuildSegments(ctx: Context, fs: Frames, env: EnvId, items: seq<DisplayItem>)
    returns (r: Result<seq<Segment>>, containsWidget: bool)
    ensures r == Segments(ctx, fs, env, items)
    ensures r.Ok? ==> containsWidget == HasWidget(r.value)
  {
    ghost var rs := ItemResults(ctx, fs, env, items);
    var segments: seq<Segment> := [];
    containsWidget := false;
    var k := 0;
    while k < |items|
      invariant 0 <= k <= |items|
      invariant Collect(rs[..k]) == Ok(segments)
      invariant containsWidget == HasWidget(segments)
    {
      assert rs[..k + 1][..k] == rs[..k];
      var v := ctx.evalExpr(items[k].expr, fs, env);
      var mine := ItemSegments(ctx, fs, env, items[k]);
      if mine.Err? {
        CollectStop(rs, k + 1);
        return Err(mine.msg), containsWidget;
      }
      ItemWidget(ctx, fs, env, items[k]);
      SpacedShape(segments, k, mine.value);
      if IsWidgetValue(v.value) {
        containsWidget := true;
      }
      segments := Spaced(segments, k, mine.value);
      k := k + 1;
    }
    assert rs[..k] == rs;
    r := Ok(segments);
  }

  /** `executeDisplay`: one call of `env.output` with the line or the rich line. */
  method Execute(h: Heap, ctx: Context, env: EnvId, s: Stmt) returns (r: Result<()>)
    requires s.Display?
    modifies h
    ensures match DisplayOutput(ctx, old(h.frames), env, s)
            case Ok(item) =>
              (match Runtime.Emit(FrameOf(old(h.frames), env), item)
               case Ok(f) => r == Ok(()) && h.frames == old(h.frames)[env := f]
               case Err(m) => r == Err(m) && h.frames == old(h.frames))
            case Err(m) => r == Err(m) && h.frames == old(h.frames)
  {
    var centered := false;
    for k := 0 to |s.withOptions|
      invariant centered <==> exists m :: 0 <= m < k && Upper(s.withOptions[m]) == "CENTERED"
    {
      if Upper(s.withOptions[k]) == "CENTERED" {
        centered := true;
      }
    }
    var segs, containsWidget := BuildSegments(ctx, h.frames, env, s.items);
    if segs.Err? {
      return Err(segs.msg);
    }
    var item;
    if !containsWidget {
      var combined := Concat(segs.value);
      item := Line(if centered then ctx.centerLine(combined) else combined);
    } else {
      var merged := MergeAdjacentTextSegments(Wrap(segs.value));
      item := Rich(centered, merged);
    }
    var f :- Runtime.Emit(FrameOf(h.frames, env), item);
    h.frames := h.frames[env := f];
    r := Ok(());
  }
}
