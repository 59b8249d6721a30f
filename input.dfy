/** INPUT: `INPUT [STREAM name] [target] [FROM source options] [.]`; executing
    it binds the target to the next queued input, the terminal's answer, or
    the value of the FROM expression. */
module InputStmt {
  import opened Results
  import opened Text
  import opened Values
  import opened Tokens
  import opened Lexer
  import opened Ast
  import opened Grammar
  import opened ParserCore
  import opened Runtime

  // ------------------------------------------------------------- lookahead

  /** One position of a `lookaheadMatches` sequence: a token type, or `'-'`,
      which asks for the operator `-`. */
  datatype Expected = Tok(k: Kind) | Hyphen

  predicate Fits(t: Token, e: Expected) {
    match e
    case Hyphen => t.kind == OP && t.value == TStr("-")
    case Tok(k) => t.kind == k
  }

  /** `lookaheadMatches`: the tokens from `i` on fit `sq` position by position. */
  function LookaheadMatches(toks: TokenList, i: nat, sq: seq<Expected>): bool
    decreases |sq|
  {
    if sq == [] then true
    else if i >= |toks| then false
    else Fits(toks[i], sq[0]) && LookaheadMatches(toks, i + 1, sq[1..])
  }

  /** Position `i + k` holds a token that fits `sq[k]`. */
  predicate FitsAt(toks: TokenList, i: nat, sq: seq<Expected>, k: nat)
    requires k < |sq|
  {
    i + k < |toks| && Fits(toks[i + k], sq[k])
  }

  predicate FitsAll(toks: TokenList, i: nat, sq: seq<Expected>) {
    forall k :: 0 <= k < |sq| ==> FitsAt(toks, i, sq, k)
  }

  /** The lookahead is true exactly when every position fits, so it is false
      as soon as the tokens run out. */
  lemma {:induction false} LookaheadExact(toks: TokenList, i: nat, sq: seq<Expected>)
    ensures LookaheadMatches(toks, i, sq) <==> FitsAll(toks, i, sq)
    decreases |sq|
  {
    if sq != [] {
      LookaheadExact(toks, i + 1, sq[1..]);
      var rest, next := sq[1..], i + 1;
      forall k | 0 <= k < |rest|
        ensures FitsAt(toks, next, rest, k) <==> FitsAt(toks, i, sq, k + 1)
      {
        assert rest[k] == sq[k + 1];
      }
      if FitsAll(toks, i, sq) {
        assert FitsAt(toks, i, sq, 0);
        assert FitsAll(toks, i + 1, sq[1..]);
      }
      if LookaheadMatches(toks, i, sq) {
        forall k | 0 <= k < |sq|
          ensures FitsAt(toks, i, sq, k)
        {
          if k > 0 {
            assert FitsAt(toks, i + 1, sq[1..], k - 1);
          }
        }
      }
    }
  }

  /** A lookahead that matches a sequence matches each of its prefixes. */
  lemma LookaheadPrefix(toks: TokenList, i: nat, a: seq<Expected>, b: seq<Expected>)
    requires LookaheadMatches(toks, i, a + b)
    ensures LookaheadMatches(toks, i, a)
  {
    LookaheadExact(toks, i, a + b);
    LookaheadExact(toks, i, a);
    forall k | 0 <= k < |a|
      ensures FitsAt(toks, i, a, k)
    {
      assert FitsAt(toks, i, a + b, k);
      assert (a + b)[k] == a[k];
    }
  }

  const StreamHandle: seq<Expected> := [Tok(Keyword("STREAM")), Hyphen, Tok(Keyword("HANDLE"))]
  const OsDirWords: seq<Expected> := [Tok(Keyword("OS")), Hyphen, Tok(Keyword("DIR"))]
  const NoAttrList: seq<Expected> := [Tok(Keyword("NO")), Hyphen, Tok(Keyword("ATTR")), Hyphen, Tok(Keyword("LIST"))]
  const LobDirWords: seq<Expected> := [Tok(Keyword("LOB")), Hyphen, Tok(Keyword("DIR"))]

  /** `NO-<word>`. */
  function NoWord(w: string): seq<Expected> { [Tok(Keyword("NO")), Hyphen, Tok(Keyword(w))] }

  method Lookahead(p: Parser, sq: seq<Expected>) returns (b: bool)
    ensures b == LookaheadMatches(p.toks, p.i, sq)
  {
    LookaheadExact(p.toks, p.i, sq);
    for k := 0 to |sq|
      invariant forall m :: 0 <= m < k ==> FitsAt(p.toks, p.i, sq, m)
    {
      if p.i + k >= |p.toks| {
        assert !FitsAt(p.toks, p.i, sq, k);
        return false;
      }
      var expected := sq[k];
      var tok := p.toks[p.i + k];
      if expected.Hyphen? {
        if tok.kind != OP || tok.value != TStr("-") {
          assert !FitsAt(p.toks, p.i, sq, k);
          return false;
        }
      } else if tok.kind != expected.k {
        assert !FitsAt(p.toks, p.i, sq, k);
        return false;
      }
      assert FitsAt(p.toks, p.i, sq, k);
    }
    return true;
  }

  /** `consumeHyphenatedKeyword`, always called after a successful lookahead:
      each token of the sequence is eaten (an OP for `'-'`), so none of the
      eats can fail and the cursor moves past exactly the looked-at tokens. */
  method ConsumeHyphenated(p: Parser, sq: seq<Expected>)
    requires LookaheadMatches(p.toks, p.i, sq)
    modifies p
    ensures p.i == old(p.i) + |sq|
  {
    LookaheadExact(p.toks, p.i, sq);
    for k := 0 to |sq|
      invariant p.i == old(p.i) + k
    {
      assert FitsAt(p.toks, old(p.i), sq, k);
      var _ := p.Eat(if sq[k].Hyphen? then OP else sq[k].k);
    }
  }

  // ------------------------------------------------------------ the stream

  function StreamOf(kind: string, id: Parsed<Token>): Parsed<Option<StreamClause>> {
    Parsed(Some(StreamClause(kind, Lower(TokText(id.value)))), id.next)
  }

  /** `parseStreamClause` as written: the test for a STREAM token comes first,
      so the `STREAM - HANDLE` branch can never be taken. */
  function StreamClauseAsWritten(toks: TokenList, i: nat): (r: Result<Parsed<Option<StreamClause>>>)
  {
    var t :- Peek(toks, i);
    if t.kind == Keyword("STREAM") then
      var id :- Eat(toks, i + 1, IDENT);
      Ok(StreamOf("STREAM", id))
    else if LookaheadMatches(toks, i, StreamHandle) then
      match Eat(toks, i + |StreamHandle|, IDENT)
      case Ok(id) => Ok(StreamOf("STREAM-HANDLE", id))
      case Err(m) => Err(m)
    else Ok(Parsed(None, i))
  }

  /** As written, no input ever yields a STREAM-HANDLE clause. */
  lemma StreamHandleUnreachable(toks: TokenList, i: nat)
    requires StreamClauseAsWritten(toks, i).Ok?
    ensures StreamClauseAsWritten(toks, i).value.value.Some? ==>
      StreamClauseAsWritten(toks, i).value.value.value.kind == "STREAM"
  {
  }

  /** `INPUT STREAM-HANDLE h x.`: the clause the STREAM-HANDLE branch was
      written for is rejected, because the `-` is read where the stream name
      is expected. */
  lemma StreamHandleRejected()
    ensures var toks := [Token(Keyword("STREAM"), TStr("STREAM"), 6), Token(OP, TStr("-"), 7),
                         Token(Keyword("HANDLE"), TStr("HANDLE"), 13), Token(IDENT, TStr("h"), 15),
                         Token(EOF, TNull, 15)];
      StreamClauseAsWritten(toks, 0) == Err("Expected IDENT but got OP")
  {
  }

  /** The stream clause with the longer `STREAM - HANDLE` form tried first. */
  function ParseStream(toks: TokenList, i: nat): (r: Result<Parsed<Option<StreamClause>>>)
    ensures r.Ok? ==> i <= r.value.next <= |toks| && (r.value.value.None? <==> r.value.next == i)
  {
    var t :- Peek(toks, i);
    if LookaheadMatches(toks, i, StreamHandle) then
      var id :- Eat(toks, i + |StreamHandle|, IDENT);
      Ok(StreamOf("STREAM-HANDLE", id))
    else if t.kind == Keyword("STREAM") then
      var id :- Eat(toks, i + 1, IDENT);
      Ok(StreamOf("STREAM", id))
    else Ok(Parsed(None, i))
  }

  /** `STREAM-HANDLE name` now gives a STREAM-HANDLE clause with the lower-cased
      name, and every input without that prefix is read as before. */
  lemma StreamClauseCorrected(toks: TokenList, i: nat)
    ensures LookaheadMatches(toks, i, StreamHandle + [Tok(IDENT)]) ==>
      i + 3 < |toks| &&
      ParseStream(toks, i) ==
        Ok(Parsed(Some(StreamClause("STREAM-HANDLE", Lower(TokText(toks[i + 3])))), i + 4))
    ensures !LookaheadMatches(toks, i, StreamHandle) ==> ParseStream(toks, i) == StreamClauseAsWritten(toks, i)
  {
    LookaheadExact(toks, i, StreamHandle + [Tok(IDENT)]);
    if LookaheadMatches(toks, i, StreamHandle + [Tok(IDENT)]) {
      assert FitsAt(toks, i, StreamHandle + [Tok(IDENT)], 3);
      LookaheadPrefix(toks, i, StreamHandle, [Tok(IDENT)]);
    }
  }

  method ParseStreamClause(p: Parser) returns (r: Result<Option<StreamClause>>)
    modifies p
    ensures Agrees(r, p.i, ParseStream(p.toks, old(p.i)))
  {
    var t :- p.Peek();
    var handle := Lookahead(p, StreamHandle);
    if handle {
      ConsumeHyphenated(p, StreamHandle);
      var id :- p.Eat(IDENT);
      return Ok(Some(StreamClause("STREAM-HANDLE", Lower(TokText(id)))));
    }
    if t.kind == Keyword("STREAM") {
      var _ := p.Eat(Keyword("STREAM"));
      var id :- p.Eat(IDENT);
      return Ok(Some(StreamClause("STREAM", Lower(TokText(id)))));
    }
    r := Ok(None);
  }

  // ------------------------------------------------------------ the source

  /** `parseValueExpression`: `VALUE ( expr )`. */
  function ValueExpression(toks: TokenList, j: nat): (r: Result<Parsed<Expr>>)
    ensures r.Ok? ==> j < r.value.next <= |toks|
  {
    var v :- Eat(toks, j, Keyword("VALUE"));
    var l :- Eat(toks, v.next, LPAREN);
    var e :- ParseExpr(Modular, toks, l.next);
    var rp :- Eat(toks, e.next, RPAREN);
    Ok(Parsed(e.value, rp.next))
  }

  /** `OS-DIR ( expr ) [NO-ATTR-LIST]`, after the lookahead saw `OS - DIR`. */
  function OsDirSource(toks: TokenList, j: nat): (r: Result<Parsed<InputSource>>)
    requires LookaheadMatches(toks, j, OsDirWords)
    ensures r.Ok? ==> j < r.value.next <= |toks| && r.value.value.OsDir?
  {
    var l :- Eat(toks, j + |OsDirWords|, LPAREN);
    var d :- ParseExpr(Modular, toks, l.next);
    var rp :- Eat(toks, d.next, RPAREN);
    if LookaheadMatches(toks, rp.next, NoAttrList) then
      Ok(Parsed(OsDir(d.value, true), rp.next + |NoAttrList|))
    else Ok(Parsed(OsDir(d.value, false), rp.next))
  }

  /** `parseInputSource`: TERMINAL, VALUE(expr), OS-DIR(expr), or any expression. */
  function InputSource(toks: TokenList, j: nat): (r: Result<Parsed<InputSource>>)
    ensures r.Ok? ==> j < r.value.next <= |toks|
  {
    var m :- Match(toks, j, Keyword("TERMINAL"));
    if m.value then Ok(Parsed(Terminal, m.next))
    else if toks[j].kind == Keyword("VALUE") then
      var e :- ValueExpression(toks, j);
      Ok(Parsed(ValueOf(e.value), e.next))
    else if LookaheadMatches(toks, j, OsDirWords) then OsDirSource(toks, j)
    else
      var e :- ParseExpr(Modular, toks, j);
      Ok(Parsed(FromExpr(e.value), e.next))
  }

  method ParseValueExpression(p: Parser) returns (r: Result<Expr>)
    requires p.dialect == Modular
    modifies p
    ensures Agrees(r, p.i, ValueExpression(p.toks, old(p.i)))
  {
    var _ :- p.Eat(Keyword("VALUE"));
    var _ :- p.Eat(LPAREN);
    var e :- p.ParseExpr();
    var _ :- p.Eat(RPAREN);
    r := Ok(e);
  }

  method ParseOsDir(p: Parser) returns (r: Result<InputSource>)
    requires p.dialect == Modular && LookaheadMatches(p.toks, p.i, OsDirWords)
    modifies p
    ensures Agrees(r, p.i, OsDirSource(p.toks, old(p.i)))
  {
    ConsumeHyphenated(p, OsDirWords);
    var _ :- p.Eat(LPAREN);
    var directory :- p.ParseExpr();
    var _ :- p.Eat(RPAREN);
    var noAttrList := Lookahead(p, NoAttrList);
    if noAttrList {
      ConsumeHyphenated(p, NoAttrList);
    }
    r := Ok(OsDir(directory, noAttrList));
  }

  method ParseInputSource(p: Parser) returns (r: Result<InputSource>)
    requires p.dialect == Modular
    modifies p
    ensures Agrees(r, p.i, InputSource(p.toks, old(p.i)))
  {
    var terminal :- p.Match(Keyword("TERMINAL"));
    if terminal {
      return Ok(Terminal);
    }
    if p.toks[p.i].kind == Keyword("VALUE") {
      var e :- ParseValueExpression(p);
      return Ok(ValueOf(e));
    }
    var osDir := Lookahead(p, OsDirWords);
    if osDir {
      r := ParseOsDir(p);
      return;
    }
    var e :- p.ParseExpr();
    r := Ok(FromExpr(e));
  }

  // ----------------------------------------------------------- the options

  /** `parseLobDir`: nothing unless the tokens read `LOB - DIR`. */
  function LobDirClause(toks: TokenList, j: nat): (r: Result<Parsed<Option<LobDir>>>)
    ensures r.Ok? && r.value.value.None? ==> r.value.next == j
    ensures r.Ok? && r.value.value.Some? ==> j < r.value.next <= |toks|
  {
    if !LookaheadMatches(toks, j, LobDirWords) then Ok(Parsed(None, j))
    else
      var k := j + |LobDirWords|;
      var t :- Peek(toks, k);
      if t.kind == Keyword("VALUE") then
        var e :- ValueExpression(toks, k);
        Ok(Parsed(Some(LobValue(e.value)), e.next))
      else
        var e :- ParseExpr(Modular, toks, k);
        Ok(Parsed(Some(LobExpr(e.value)), e.next))
  }

  /** The first four tests of one pass of the option loop: LOB-DIR, BINARY,
      NO-ECHO and ECHO. `None` when none of them applies. */
  function FlagOption(toks: TokenList, o: InputOptions, j: nat): (r: Result<Parsed<Option<InputOptions>>>)
    ensures r.Ok? && r.value.value.None? ==> r.value.next == j
    ensures r.Ok? && r.value.value.Some? ==> j < r.value.next <= |toks|
  {
    var lob :- LobDirClause(toks, j);
    if lob.value.Some? then Ok(Parsed(Some(o.(lobDir := lob.value)), lob.next))
    else
      var b :- Match(toks, j, Keyword("BINARY"));
      if b.value then Ok(Parsed(Some(o.(binary := true)), b.next))
      else if LookaheadMatches(toks, j, NoWord("ECHO")) then
        Ok(Parsed(Some(o.(echo := Some(false))), j + |NoWord("ECHO")|))
      else
        var e :- Match(toks, j, Keyword("ECHO"));
        if e.value then Ok(Parsed(Some(o.(echo := Some(true))), e.next))
        else Ok(Parsed(None, j))
  }

  /** The remaining tests: NO-MAP, MAP expr, UNBUFFERED, NO-CONVERT and
      CONVERT [TARGET expr] [SOURCE expr]. */
  function OtherOption(toks: TokenList, o: InputOptions, j: nat): (r: Result<Parsed<Option<InputOptions>>>)
    ensures r.Ok? && r.value.value.None? ==> r.value.next == j
    ensures r.Ok? && r.value.value.Some? ==> j < r.value.next <= |toks|
  {
    var m :- MapOption(toks, o, j);
    if m.value.Some? then Ok(m) else ConvertOption(toks, o, j)
  }

  /** NO-MAP and MAP expr. */
  function MapOption(toks: TokenList, o: InputOptions, j: nat): (r: Result<Parsed<Option<InputOptions>>>)
    ensures r.Ok? && r.value.value.None? ==> r.value.next == j
    ensures r.Ok? && r.value.value.Some? ==> j < r.value.next <= |toks|
  {
    if LookaheadMatches(toks, j, NoWord("MAP")) then
      Ok(Parsed(Some(o.(mapping := Some(MapNone))), j + |NoWord("MAP")|))
    else
      var m :- Match(toks, j, Keyword("MAP"));
      if m.value then
        var e :- ParseExpr(Modular, toks, m.next);
        Ok(Parsed(Some(o.(mapping := Some(MapEntry(e.value)))), e.next))
      else Ok(Parsed(None, j))
  }

  /** UNBUFFERED, NO-CONVERT and CONVERT [TARGET expr] [SOURCE expr]. */
  function ConvertOption(toks: TokenList, o: InputOptions, j: nat): (r: Result<Parsed<Option<InputOptions>>>)
    ensures r.Ok? && r.value.value.None? ==> r.value.next == j
    ensures r.Ok? && r.value.value.Some? ==> j < r.value.next <= |toks|
  {
    var u :- Match(toks, j, Keyword("UNBUFFERED"));
    if u.value then Ok(Parsed(Some(o.(unbuffered := true)), u.next))
    else if LookaheadMatches(toks, j, NoWord("CONVERT")) then
      Ok(Parsed(Some(o.(convert := Some(ConvertNone))), j + |NoWord("CONVERT")|))
    else
      var c :- Match(toks, j, Keyword("CONVERT"));
      if c.value then
        var cv :- ConvertClause(toks, c.next);
        Ok(Parsed(Some(o.(convert := Some(cv.value))), cv.next))
      else Ok(Parsed(None, j))
  }

  /** `[TARGET expr] [SOURCE expr]` after CONVERT. */
  function ConvertClause(toks: TokenList, j: nat): (r: Result<Parsed<ConvertOption>>)
    ensures r.Ok? ==> j <= r.value.next <= |toks| && r.value.value.Convert?
  {
    var t :- Match(toks, j, Keyword("TARGET"));
    var target :- if t.value then OptExpr(toks, t.next) else Ok(Parsed(None, j));
    var s :- Match(toks, target.next, Keyword("SOURCE"));
    var source :- if s.value then OptExpr(toks, s.next) else Ok(Parsed(None, target.next));
    Ok(Parsed(Convert(target.value, source.value), source.next))
  }

  function OptExpr(toks: TokenList, j: nat): (r: Result<Parsed<Option<Expr>>>)
    ensures r.Ok? ==> j < r.value.next <= |toks| && r.value.value.Some?
  {
    var e :- ParseExpr(Modular, toks, j);
    Ok(Parsed(Some(e.value), e.next))
  }

  /** One pass of the option loop. */
  function OptionStep(toks: TokenList, o: InputOptions, j: nat): (r: Result<Parsed<Option<InputOptions>>>)
    ensures r.Ok? && r.value.value.None? ==> r.value.next == j
    ensures r.Ok? && r.value.value.Some? ==> j < r.value.next <= |toks|
  {
    var f :- FlagOption(toks, o, j);
    if f.value.Some? then Ok(f) else OtherOption(toks, o, j)
  }

  /** `parseInputOptions`: the options, or `None` when no pass consumed one. */
  function OptionsFrom(toks: TokenList, o: InputOptions, consumed: bool, j: nat): (r: Result<Parsed<Option<InputOptions>>>)
    ensures r.Ok? ==> j <= r.value.next <= |toks|
    decreases |toks| - j
  {
    var step :- OptionStep(toks, o, j);
    if step.value.None? then Ok(Parsed(if consumed then Some(o) else None, j))
    else OptionsFrom(toks, step.value.value, true, step.next)
  }

  /** The options are `None` exactly when the first pass consumed nothing. */
  lemma {:induction false} OptionsNullIffNothingRead(toks: TokenList, o: InputOptions, consumed: bool, j: nat)
    requires OptionsFrom(toks, o, consumed, j).Ok?
    ensures OptionsFrom(toks, o, consumed, j).value.value.None? <==>
      !consumed && OptionStep(toks, o, j).value.value.None?
    ensures OptionsFrom(toks, o, consumed, j).value.value.None? ==> OptionsFrom(toks, o, consumed, j).value.next == j
    decreases |toks| - j
  {
    var step := OptionStep(toks, o, j).value;
    if step.value.Some? {
      OptionsNullIffNothingRead(toks, step.value.value, true, step.next);
    }
  }

  /** NO-ECHO sets `echo` to false and ECHO sets it to true, whatever an
      earlier pass had set, and nothing else changes. */
  lemma EchoOverwrites(toks: TokenList, o: InputOptions, j: nat)
    ensures LookaheadMatches(toks, j, NoWord("ECHO")) ==>
      OptionStep(toks, o, j) == Ok(Parsed(Some(o.(echo := Some(false))), j + 3))
    ensures j < |toks| && toks[j].kind == Keyword("ECHO") ==>
      OptionStep(toks, o, j) == Ok(Parsed(Some(o.(echo := Some(true))), j + 1))
  {
    if LookaheadMatches(toks, j, NoWord("ECHO")) {
      assert Fits(toks[j], NoWord("ECHO")[0]);
    }
  }

  /** NO-MAP sets the map option's kind to NONE, whatever an earlier pass had set. */
  lemma NoMapOverwrites(toks: TokenList, o: InputOptions, j: nat)
    requires LookaheadMatches(toks, j, NoWord("MAP"))
    ensures OptionStep(toks, o, j) == Ok(Parsed(Some(o.(mapping := Some(MapNone))), j + 3))
  {
    assert Fits(toks[j], NoWord("MAP")[0]) && Fits(toks[j + 2], NoWord("MAP")[2]);
    assert !Fits(toks[j + 2], NoWord("ECHO")[2]);
    assert FlagOption(toks, o, j) == Ok(Parsed(None, j));
  }

  /** NO-CONVERT sets the convert option's kind to NONE, whatever an earlier pass had set. */
  lemma NoConvertOverwrites(toks: TokenList, o: InputOptions, j: nat)
    requires LookaheadMatches(toks, j, NoWord("CONVERT"))
    ensures OptionStep(toks, o, j) == Ok(Parsed(Some(o.(convert := Some(ConvertNone))), j + 3))
  {
    assert Fits(toks[j], NoWord("CONVERT")[0]) && Fits(toks[j + 2], NoWord("CONVERT")[2]);
    assert !Fits(toks[j + 2], NoWord("ECHO")[2]) && !Fits(toks[j + 2], NoWord("MAP")[2]);
    assert FlagOption(toks, o, j) == Ok(Parsed(None, j));
  }

  method ParseLobDir(p: Parser) returns (r: Result<Option<LobDir>>)
    requires p.dialect == Modular
    modifies p
    ensures Agrees(r, p.i, LobDirClause(p.toks, old(p.i)))
  {
    var lob := Lookahead(p, LobDirWords);
    if !lob {
      return Ok(None);
    }
    ConsumeHyphenated(p, LobDirWords);
    var t :- p.Peek();
    if t.kind == Keyword("VALUE") {
      var e :- ParseValueExpression(p);
      return Ok(Some(LobValue(e)));
    }
    var e :- p.ParseExpr();
    r := Ok(Some(LobExpr(e)));
  }

  method ParseFlagOption(p: Parser, o: InputOptions) returns (r: Result<Option<InputOptions>>)
    requires p.dialect == Modular
    modifies p
    ensures Agrees(r, p.i, FlagOption(p.toks, o, old(p.i)))
  {
    var lobDir :- ParseLobDir(p);
    if lobDir.Some? {
      return Ok(Some(o.(lobDir := lobDir)));
    }
    var binary :- p.Match(Keyword("BINARY"));
    if binary {
      return Ok(Some(o.(binary := true)));
    }
    var noEcho := Lookahead(p, NoWord("ECHO"));
    if noEcho {
      ConsumeHyphenated(p, NoWord("ECHO"));
      return Ok(Some(o.(echo := Some(false))));
    }
    var echo :- p.Match(Keyword("ECHO"));
    if echo {
      return Ok(Some(o.(echo := Some(true))));
    }
    r := Ok(None);
  }

  method ParseConvert(p: Parser) returns (r: Result<ConvertOption>)
    requires p.dialect == Modular
    modifies p
    ensures Agrees(r, p.i, ConvertClause(p.toks, old(p.i)))
  {
    var targetCodepage: Option<Expr> := None;
    var sourceCodepage: Option<Expr> := None;
    var t :- p.Match(Keyword("TARGET"));
    if t {
      var e :- p.ParseExpr();
      targetCodepage := Some(e);
    }
    var s :- p.Match(Keyword("SOURCE"));
    if s {
      var e :- p.ParseExpr();
      sourceCodepage := Some(e);
    }
    r := Ok(Convert(targetCodepage, sourceCodepage));
  }

  method ParseOtherOption(p: Parser, o: InputOptions) returns (r: Result<Option<InputOptions>>)
    requires p.dialect == Modular
    modifies p
    ensures Agrees(r, p.i, OtherOption(p.toks, o, old(p.i)))
  {
    var m :- ParseMapOption(p, o);
    if m.Some? {
      return Ok(m);
    }
    r := ParseConvertOption(p, o);
  }

  method ParseMapOption(p: Parser, o: InputOptions) returns (r: Result<Option<InputOptions>>)
    requires p.dialect == Modular
    modifies p
    ensures Agrees(r, p.i, MapOption(p.toks, o, old(p.i)))
  {
    var noMap := Lookahead(p, NoWord("MAP"));
    if noMap {
      ConsumeHyphenated(p, NoWord("MAP"));
      return Ok(Some(o.(mapping := Some(MapNone))));
    }
    var map_ :- p.Match(Keyword("MAP"));
    if map_ {
      var entry :- p.ParseExpr();
      return Ok(Some(o.(mapping := Some(MapEntry(entry)))));
    }
    r := Ok(None);
  }

  method ParseConvertOption(p: Parser, o: InputOptions) returns (r: Result<Option<InputOptions>>)
    requires p.dialect == Modular
    modifies p
    ensures Agrees(r, p.i, ConvertOption(p.toks, o, old(p.i)))
  {
    var unbuffered :- p.Match(Keyword("UNBUFFERED"));
    if unbuffered {
      return Ok(Some(o.(unbuffered := true)));
    }
    var noConvert := Lookahead(p, NoWord("CONVERT"));
    if noConvert {
      ConsumeHyphenated(p, NoWord("CONVERT"));
      return Ok(Some(o.(convert := Some(ConvertNone))));
    }
    var convert :- p.Match(Keyword("CONVERT"));
    if convert {
      var cv :- ParseConvert(p);
      return Ok(Some(o.(convert := Some(cv))));
    }
    r := Ok(None);
  }

  method ParseInputOptions(p: Parser) returns (r: Result<Option<InputOptions>>)
    requires p.dialect == Modular
    modifies p
    ensures Agrees(r, p.i, OptionsFrom(p.toks, NoOptions, false, old(p.i)))
  {
    var options := NoOptions;
    var consumed := false;
    while true
      invariant OptionsFrom(p.toks, NoOptions, false, old(p.i)) == OptionsFrom(p.toks, options, consumed, p.i)
      decreases |p.toks| - p.i
    {
      var start := p.i;
      var step :- ParseFlagOption(p, options);
      if step.None? {
        step :- ParseOtherOption(p, options);
      }
      if step.None? {
        return Ok(if consumed then Some(options) else None);
      }
      assert p.i > start;
      options := step.value;
      consumed := true;
    }
  }

  // ------------------------------------------------------------ the statement

  /** A target counts only when it is a non-empty name. */
  predicate HasTarget(target: Option<string>) { target.Some? && target.value != "" }

  const NeedsTargetMessage := "INPUT statement requires a target variable or FROM clause"

  /** The FROM part: the source and the options, or nothing without FROM. */
  function FromClause(toks: TokenList, j: nat): (r: Result<Parsed<(Option<InputSource>, Option<InputOptions>)>>)
    ensures r.Ok? ==> j <= r.value.next <= |toks| && (r.value.value.0.None? ==> r.value.value.1.None?)
  {
    var f :- Match(toks, j, Keyword("FROM"));
    if !f.value then Ok(Parsed((None, None), j))
    else
      var src :- InputSource(toks, f.next);
      var opts :- OptionsFrom(toks, NoOptions, false, src.next);
      Ok(Parsed((Some(src.value), opts.value), opts.next))
  }

  /** `parseInput`. */
  function ParseInput(toks: TokenList, i: nat): (r: Result<Parsed<Stmt>>)
    ensures r.Ok? ==> i < r.value.next <= |toks| && r.value.value.Input?
    ensures r.Ok? ==>
      var s := r.value.value;
      HasTarget(s.inputTarget) || s.source.Some? || s.stream.Some?
  {
    var kw :- Eat(toks, i, Keyword("INPUT"));
    var stream :- ParseStream(toks, kw.next);
    InputTail(toks, stream.value, stream.next)
  }

  /** `parseInput` after the stream clause: the target, the FROM part, the
      check that something was given, and the optional dot. */
  function InputTail(toks: TokenList, stream: Option<StreamClause>, j: nat): (r: Result<Parsed<Stmt>>)
    ensures r.Ok? ==> j <= r.value.next <= |toks| && r.value.value.Input? && r.value.value.stream == stream
    ensures r.Ok? ==>
      var s := r.value.value;
      HasTarget(s.inputTarget) || s.source.Some? || s.stream.Some?
  {
    var t :- Peek(toks, j);
    var target := if t.kind == IDENT then Some(Lower(TokText(t))) else None;
    var from :- FromClause(toks, if t.kind == IDENT then j + 1 else j);
    Finish(toks, Input(target, stream, from.value.0, from.value.1), from.next)
  }

  /** The check that a target, a source or a stream was given, then the optional dot. */
  function Finish(toks: TokenList, s: Stmt, j: nat): (r: Result<Parsed<Stmt>>)
    requires s.Input?
    ensures r.Ok? ==> r.value.value == s && j <= r.value.next <= j + 1
    ensures r.Ok? ==> HasTarget(s.inputTarget) || s.source.Some? || s.stream.Some?
  {
    if !HasTarget(s.inputTarget) && s.source.None? && s.stream.None? then Err(NeedsTargetMessage)
    else
      var end :- OptionalDot(toks, j);
      Ok(Parsed(s, end))
  }

  /** `INPUT` followed by neither a stream, nor a name, nor FROM is a syntax error. */
  lemma InputAloneRejected(toks: TokenList, i: nat)
    requires i + 1 < |toks| && toks[i].kind == Keyword("INPUT")
    requires toks[i + 1].kind !in {Keyword("STREAM"), IDENT, Keyword("FROM")}
    ensures ParseInput(toks, i) == Err(NeedsTargetMessage)
  {
    assert !LookaheadMatches(toks, i + 1, StreamHandle) by {
      assert !Fits(toks[i + 1], StreamHandle[0]);
    }
  }

  method Parse(p: Parser) returns (r: Result<Stmt>)
    requires p.dialect == Modular
    modifies p
    ensures Agrees(r, p.i, ParseInput(p.toks, old(p.i)))
  {
    var _ :- p.Eat(Keyword("INPUT"));
    var stream :- ParseStreamClause(p);
    r := ParseInputTail(p, stream);
  }

  method ParseFromClause(p: Parser) returns (r: Result<(Option<InputSource>, Option<InputOptions>)>)
    requires p.dialect == Modular
    modifies p
    ensures Agrees(r, p.i, FromClause(p.toks, old(p.i)))
  {
    var from :- p.Match(Keyword("FROM"));
    if !from {
      return Ok((None, None));
    }
    var source :- ParseInputSource(p);
    var options :- ParseInputOptions(p);
    r := Ok((Some(source), options));
  }

  method ParseInputTail(p: Parser, stream: Option<StreamClause>) returns (r: Result<Stmt>)
    requires p.dialect == Modular
    modifies p
    ensures Agrees(r, p.i, InputTail(p.toks, stream, old(p.i)))
  {
    var nextTok :- p.Peek();
    var target: Option<string> := None;
    if nextTok.kind == IDENT {
      var _ := p.Eat(IDENT);
      target := Some(Lower(TokText(nextTok)));
    }
    ghost var k := p.i;
    assert k == (if nextTok.kind == IDENT then old(p.i) + 1 else old(p.i));
    var from := ParseFromClause(p);
    if from.Err? {
      return Err(from.msg);
    }
    assert FromClause(p.toks, k).Ok?;
    r := ParseFinish(p, Input(target, stream, from.value.0, from.value.1));
  }

  method ParseFinish(p: Parser, s: Stmt) returns (r: Result<Stmt>)
    requires s.Input?
    modifies p
    ensures Agrees(r, p.i, Finish(p.toks, s, old(p.i)))
  {
    if !HasTarget(s.inputTarget) && s.source.None? && s.stream.None? {
      return Err(NeedsTargetMessage);
    }
    var _ :- p.OptionalDot();
    r := Ok(s);
  }

  // ------------------------------------------------------------- execution

  /** `takeNextInput`: the front of `env.inputs`, removed from the queue, or
      `null` with nothing changed when the queue is empty or absent. */
  function TakeNext(fs: Frames, env: EnvId): (r: (Value, Frames))
    ensures var q := FrameOf(fs, env).inputs;
      if q.Some? && q.value != [] then
        FrameOf(r.1, env).inputs.Some? && [r.0] + FrameOf(r.1, env).inputs.value == q.value
        && r.1 == fs[env := FrameOf(fs, env).(inputs := FrameOf(r.1, env).inputs)]
      else r == (Null, fs)
  {
    var f := FrameOf(fs, env);
    if f.inputs.Some? && |f.inputs.value| > 0 then
      (f.inputs.value[0], fs[env := f.(inputs := Some(f.inputs.value[1..]))])
    else (Null, fs)
  }

  method TakeNextInput(h: Heap, env: EnvId) returns (v: Value)
    modifies h
    ensures (v, h.frames) == TakeNext(old(h.frames), env)
  {
    var f := FrameOf(h.frames, env);
    if f.inputs.Some? && |f.inputs.value| > 0 {
      v := f.inputs.value[0];
      h.frames := h.frames[env := f.(inputs := Some(f.inputs.value[1..]))];
    } else {
      v := Null;
    }
  }

  /** A queued value, or when the front is `null` or the queue is empty, what the terminal answers. */
  function FromTerminal(ctx: Context, fs: Frames, env: EnvId, target: Option<string>): (Value, Frames) {
    var (queued, fs') := TakeNext(fs, env);
    (if queued != Null then queued else ctx.readFromTerminal(target), fs')
  }

  /** `resolveSourceValue`: the value to bind and the environments after taking it. */
  function ResolveSource(ctx: Context, fs: Frames, env: EnvId, s: Stmt): (r: Result<(Value, Frames)>)
    requires s.Input?
    ensures r.Err? ==> s.source.Some? && !s.source.value.Terminal?
    ensures r.Err? && !s.source.value.OsDir? ==> ctx.evalExpr(s.source.value.expr, fs, env).Err?
  {
    match s.source
    case None => Ok(FromTerminal(ctx, fs, env, s.inputTarget))
    case Some(FromExpr(e)) =>
      var v :- ctx.evalExpr(e, fs, env);
      Ok((v, fs))
    case Some(Terminal) => Ok(FromTerminal(ctx, fs, env, s.inputTarget))
    case Some(ValueOf(e)) =>
      var v :- ctx.evalExpr(e, fs, env);
      Ok((v, fs))
    case Some(OsDir(_, _)) => Err("INPUT FROM OS-DIR is not supported in this runtime")
  }

  /** `executeInput`: the environments after the statement, or its exception. */
  function InputEffect(ctx: Context, fs: Frames, env: EnvId, s: Stmt): Result<Frames>
    requires s.Input?
  {
    if !HasTarget(s.inputTarget) then
      if s.stream.Some? then Err("INPUT STREAM configuration is not supported in this runtime")
      else if s.source.Some? then Err("INPUT FROM without a target variable is not supported in this runtime")
      else Ok(fs)
    else
      var (v, fs') :- ResolveSource(ctx, fs, env, s);
      Ok(ctx.setVar(fs', env, s.inputTarget.value, v))
  }

  /** Without FROM, INPUT binds the front of the queue and removes it; with
      an empty or absent queue it binds what the terminal answers. */
  lemma InputTakesFront(ctx: Context, fs: Frames, env: EnvId, s: Stmt, v: Value, rest: seq<Value>)
    requires s.Input? && HasTarget(s.inputTarget) && (s.source.None? || s.source == Some(Terminal))
    ensures FrameOf(fs, env).inputs == Some([v] + rest) && v != Null ==>
      InputEffect(ctx, fs, env, s) ==
        Ok(ctx.setVar(fs[env := FrameOf(fs, env).(inputs := Some(rest))], env, s.inputTarget.value, v))
    ensures FrameOf(fs, env).inputs.None? || FrameOf(fs, env).inputs == Some([]) ==>
      InputEffect(ctx, fs, env, s) == Ok(ctx.setVar(fs, env, s.inputTarget.value, ctx.readFromTerminal(s.inputTarget)))
  {
    if FrameOf(fs, env).inputs == Some([v] + rest) {
      assert ([v] + rest)[1..] == rest;
    }
  }

  /** FROM expr and FROM VALUE(expr) bind the value of the expression and leave
      the queue alone; OS-DIR throws. */
  lemma InputFromExpression(ctx: Context, fs: Frames, env: EnvId, s: Stmt)
    requires s.Input? && HasTarget(s.inputTarget) && s.source.Some?
    ensures (s.source.value.FromExpr? || s.source.value.ValueOf?) ==>
      InputEffect(ctx, fs, env, s) ==
        match ctx.evalExpr(s.source.value.expr, fs, env)
        case Ok(v) => Ok(ctx.setVar(fs, env, s.inputTarget.value, v))
        case Err(m) => Err(m)
    ensures s.source.value.OsDir? ==> InputEffect(ctx, fs, env, s) == Err("INPUT FROM OS-DIR is not supported in this runtime")
  {
  }

  /** Without a target, a stream or a source makes the statement throw, and
      otherwise it does nothing. */
  lemma InputWithoutTarget(ctx: Context, fs: Frames, env: EnvId, s: Stmt)
    requires s.Input? && !HasTarget(s.inputTarget)
    ensures InputEffect(ctx, fs, env, s).Err? <==> s.stream.Some? || s.source.Some?
    ensures InputEffect(ctx, fs, env, s).Ok? ==> InputEffect(ctx, fs, env, s).value == fs
  {
  }

  method ResolveSourceValue(h: Heap, ctx: Context, env: EnvId, s: Stmt) returns (r: Result<Value>)
    requires s.Input?
    modifies h
    ensures match ResolveSource(ctx, old(h.frames), env, s)
            case Ok(res) => r == Ok(res.0) && h.frames == res.1
            case Err(m) => r == Err(m) && h.frames == old(h.frames)
  {
    if s.source.None? || s.source.value.Terminal? {
      var queued := TakeNextInput(h, env);
      return Ok(if queued != Null then queued else ctx.readFromTerminal(s.inputTarget));
    }
    if s.source.value.FromExpr? || s.source.value.ValueOf? {
      r := ctx.evalExpr(s.source.value.expr, h.frames, env);
      return;
    }
    r := Err("INPUT FROM OS-DIR is not supported in this runtime");
  }

  method Execute(h: Heap, ctx: Context, env: EnvId, s: Stmt) returns (r: Result<()>)
    requires s.Input?
    modifies h
    ensures match InputEffect(ctx, old(h.frames), env, s)
            case Ok(fs) => r == Ok(()) && h.frames == fs
            case Err(m) => r == Err(m) && h.frames == old(h.frames)
  {
    if !HasTarget(s.inputTarget) {
      if s.stream.Some? {
        return Err("INPUT STREAM configuration is not supported in this runtime");
      }
      if s.source.Some? {
        return Err("INPUT FROM without a target variable is not supported in this runtime");
      }
      return Ok(());
    }
    var value :- ResolveSourceValue(h, ctx, env, s);
    h.frames := ctx.setVar(h.frames, env, s.inputTarget.value, value);
    r := Ok(());
  }
}
