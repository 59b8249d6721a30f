/** The two tokenizers: the legacy one of mini4GL.js and the modular one of
    src/mini4gl/parser.js. They share every rule except three: the modular one
    has a larger keyword table, reads `NE`, `EQ`, `GE`, `LE` as comparison
    operators and reads `?` as the unknown value. */
module Lexer {
  import opened Results
  import opened Text
  import opened Values
  import opened Tokens

  datatype Dialect = Legacy | Modular

  const LegacyKeywords: set<string> :=
    {"ASSIGN", "DISPLAY", "PRINT", "INPUT", "IF", "THEN", "ELSE", "END", "DO", "WHILE", "REPEAT",
     "LEAVE", "NEXT", "AND", "OR", "NOT"}

  const ModularKeywords: set<string> :=
    LegacyKeywords +
    {"FOR", "EACH", "WHERE", "BY", "OF", "LOCK", "FIND", "FIRST", "LAST", "ERROR", "DEFINE",
     "VARIABLE", "AS", "NO", "UNDO", "INIT", "LABEL", "FORMAT", "WITH", "FRAME", "CENTERED",
     "PROCEDURE", "RUN", "PARAMETER", "OUTPUT", "DESCENDING", "BREAK", "PRIVATE", "EXTERNAL", "IN",
     "SUPER", "ORDINAL", "PERSISTENT", "THREAD", "SAFE", "CDECL", "PASCAL", "STDCALL", "FROM",
     "STREAM", "HANDLE", "TERMINAL", "VALUE", "OS", "DIR", "LOB", "ATTR", "LIST", "BINARY", "ECHO",
     "MAP", "UNBUFFERED", "CONVERT", "TARGET", "SOURCE", "CREATE", "ENABLE", "VIEW", "APPLY", "ON",
     "WAIT", "TO"}

  function Keywords(d: Dialect): set<string> {
    if d == Legacy then LegacyKeywords else ModularKeywords
  }

  /** The word operators of the modular lexer. */
  const OpKeywords: map<string, string> := map["NE" := "<>", "EQ" := "=", "GE" := ">=", "LE" := "<="]

  /** Upper-case spellings that never become IDENT tokens in dialect `d`. */
  predicate Reserved(d: Dialect, upper: string) {
    upper in Keywords(d) || (d == Modular && upper in OpKeywords)
  }

  const TwoCharOps: set<string> := {"<=", ">=", "<>", "=="}

  /** `singleMap` of the lexers. */
  function SingleKind(c: char): Option<Kind> {
    if c in "+-*/=<>" then Some(OP)
    else if c == '(' then Some(LPAREN)
    else if c == ')' then Some(RPAREN)
    else if c == ',' then Some(COMMA)
    else if c == ':' then Some(COLON)
    else if c == '.' then Some(DOT)
    else None
  }

  function UnexpectedChar(c: char, at: nat): string {
    "Unexpected character '" + [c] + "' at " + NatToString(at)
  }

  /** The token for an identifier-shaped word `raw` ending at `pos`. */
  function WordToken(d: Dialect, raw: string, pos: int): Token {
    var upper := Upper(raw);
    if d == Modular && upper in OpKeywords then Token(OP, TStr(OpKeywords[upper]), pos)
    else if upper in Keywords(d) then Token(Keyword(upper), TStr(upper), pos)
    else Token(IDENT, TStr(raw), pos)
  }

  // ------------------------------------------------------- scanning helpers

  /** Where a block comment's closing `*` is, scanning from `j` (|src| if none). */
  function CommentClose(src: string, j: nat): (k: nat)
    requires j <= |src|
    ensures j <= k <= |src|
    ensures k < |src| ==> k + 1 < |src| && src[k] == '*' && src[k + 1] == '/'
    decreases |src| - j
  {
    if j >= |src| || (src[j] == '*' && j + 1 < |src| && src[j + 1] == '/') then j
    else CommentClose(src, j + 1)
  }

  /** The newline that ends a line comment, scanning from `j` (|src| if none). */
  function LineEnd(src: string, j: nat): (k: nat)
    requires j <= |src|
    ensures j <= k <= |src|
    decreases |src| - j
  {
    if j >= |src| || src[j] == '\n' then j else LineEnd(src, j + 1)
  }

  /** The end of a run of digits and dots starting at `j`. */
  function NumberEnd(src: string, j: nat): (k: nat)
    requires j <= |src|
    ensures j <= k <= |src|
    decreases |src| - j
  {
    if j < |src| && (IsDigit(src[j]) || src[j] == '.') then NumberEnd(src, j + 1) else j
  }

  /** The end of a run of identifier characters starting at `j`. */
  function WordEnd(src: string, j: nat): (k: nat)
    requires j <= |src|
    ensures j <= k <= |src|
    ensures forall m :: j <= m < k ==> IsAlnum(src[m])
    ensures k < |src| ==> !IsAlnum(src[k])
    decreases |src| - j
  {
    if j < |src| && IsAlnum(src[j]) then WordEnd(src, j + 1) else j
  }

  /** The rest of a string literal from `j`: its text and the offset just after
      it. `esc` says the previous character was an unconsumed backslash. */
  function StringRest(src: string, j: nat, esc: bool): (r: (string, nat))
    requires j <= |src|
    ensures j <= r.1 <= |src|
    decreases |src| - j
  {
    if j >= |src| then ("", j)
    else
      var c := src[j];
      if esc then
        var (s, e) := StringRest(src, j + 1, false); ([c] + s, e)
      else if c == '\\' then StringRest(src, j + 1, true)
      else if c == '"' then ("", j + 1)
      else
        var (s, e) := StringRest(src, j + 1, false); ([c] + s, e)
  }

  // ---------------------------------------------------------------- one step

  /** What the lexer does at offset `i`: skip, emit one token, or throw. */
  datatype Step = Skip(next: nat) | Emit(tok: Token, next: nat) | Fail(msg: string)

  predicate StartsBlockComment(src: string, i: nat) {
    i + 1 < |src| && src[i] == '/' && src[i + 1] == '*'
  }

  predicate StartsNumber(src: string, i: nat) requires i < |src| {
    IsDigit(src[i]) || (src[i] == '.' && i + 1 < |src| && IsDigit(src[i + 1]))
  }

  function StepAt(d: Dialect, src: string, i: nat): (r: Step)
    requires i < |src|
    ensures !r.Fail? ==> r.next > i
    ensures !r.Fail? ==> r.next <= |src| || r.next == |src| + 2
  {
    var ch := src[i];
    if IsSpace(ch) then Skip(i + 1)
    else if StartsBlockComment(src, i) then
      var k := CommentClose(src, i + 2);
      Skip(k + 2)
    else if ch == '/' && i + 1 < |src| && src[i + 1] == '/' then Skip(LineEnd(src, i + 2))
    else if d == Modular && ch == '?' then Emit(Token(UNKNOWN, TNull, i), i + 1)
    else if ch == '"' then
      var (s, e) := StringRest(src, i + 1, false);
      Emit(Token(STRING, TStr(s), e), e)
    else if StartsNumber(src, i) then
      var e := NumberEnd(src, i + 1);
      Emit(Token(NUMBER, TNum(ParseFloat(src[i..e])), e), e)
    else if IsAlpha(ch) then
      var e := WordEnd(src, i + 1);
      Emit(WordToken(d, src[i..e], e), e)
    else if i + 1 < |src| && src[i..i + 2] in TwoCharOps then
      Emit(Token(OP, TStr(src[i..i + 2]), i), i + 2)
    else match SingleKind(ch)
      case Some(k) => Emit(Token(k, TStr([ch]), i), i + 1)
      case None => Fail(UnexpectedChar(ch, i))
  }

  /** The token list from offset `i` on, ending in EOF. */
  function TokensFrom(d: Dialect, src: string, i: nat): Result<seq<Token>>
    decreases |src| - i
  {
    if i >= |src| then Ok([Token(EOF, TNull, i)])
    else match StepAt(d, src, i)
      case Fail(m) => Err(m)
      case Skip(j) => TokensFrom(d, src, j)
      case Emit(t, j) =>
        match TokensFrom(d, src, j)
        case Ok(ts) => Ok([t] + ts)
        case Err(m) => Err(m)
  }

  /** The specification of `tokenize`. */
  function Lex(d: Dialect, src: string): Result<seq<Token>> { TokensFrom(d, src, 0) }

  function Prepend(ts: seq<Token>, r: Result<seq<Token>>): Result<seq<Token>> {
    match r
    case Ok(rest) => Ok(ts + rest)
    case Err(m) => Err(m)
  }

  lemma EmitKeeps(d: Dialect, src: string, i: nat, tokens: seq<Token>, t: Token, j: nat)
    requires i < |src| && StepAt(d, src, i) == Emit(t, j)
    ensures Prepend(tokens, TokensFrom(d, src, i)) == Prepend(tokens + [t], TokensFrom(d, src, j))
  {
    var r := TokensFrom(d, src, j);
    if r.Ok? {
      assert tokens + ([t] + r.value) == tokens + [t] + r.value;
    }
  }

  // ------------------------------------------------------------ the loops

  /** The inner loop of a block comment: advance to the closing `*` (or the end). */
  method SkipToCommentClose(src: string, i: nat) returns (j: nat)
    requires i <= |src|
    ensures j == CommentClose(src, i)
  {
    j := i;
    while j < |src| && !(src[j] == '*' && j + 1 < |src| && src[j + 1] == '/')
      invariant i <= j <= |src|
      invariant CommentClose(src, i) == CommentClose(src, j)
      decreases |src| - j
    {
      j := j + 1;
    }
  }

  /** The inner loop of a line comment: advance to the newline (or the end). */
  method SkipToLineEnd(src: string, i: nat) returns (j: nat)
    requires i <= |src|
    ensures j == LineEnd(src, i)
  {
    j := i;
    while j < |src| && src[j] != '\n'
      invariant i <= j <= |src|
      invariant LineEnd(src, i) == LineEnd(src, j)
      decreases |src| - j
    {
      j := j + 1;
    }
  }

  /** The inner loop of a string literal, starting after the opening quote. */
  method ReadString(src: string, i: nat) returns (s: string, j: nat)
    requires i <= |src|
    ensures (s, j) == StringRest(src, i, false)
  {
    j := i;
    s := "";
    var esc := false;
    assert s + StringRest(src, j, esc).0 == StringRest(src, j, esc).0;
    while j < |src|
      invariant i <= j <= |src|
      invariant StringRest(src, i, false) == (s + StringRest(src, j, esc).0, StringRest(src, j, esc).1)
      decreases |src| - j
    {
      var c := src[j];
      j := j + 1;
      if esc {
        assert s + ([c] + StringRest(src, j, false).0) == (s + [c]) + StringRest(src, j, false).0;
        s := s + [c];
        esc := false;
        continue;
      }
      if c == '\\' {
        esc := true;
        continue;
      }
      if c == '"' {
        assert s + "" == s;
        break;
      }
      assert s + ([c] + StringRest(src, j, false).0) == (s + [c]) + StringRest(src, j, false).0;
      s := s + [c];
    }
    assert j == |src| ==> s + "" == s;
  }

  /** The inner loop of a number: digits and dots. */
  method ReadNumberEnd(src: string, i: nat) returns (j: nat)
    requires i <= |src|
    ensures j == NumberEnd(src, i)
  {
    j := i;
    while j < |src| && (IsDigit(src[j]) || src[j] == '.')
      invariant i <= j <= |src|
      invariant NumberEnd(src, i) == NumberEnd(src, j)
      decreases |src| - j
    {
      j := j + 1;
    }
  }

  /** The inner loop of an identifier: letters, digits and underscores. */
  method ReadWordEnd(src: string, i: nat) returns (j: nat)
    requires i <= |src|
    ensures j == WordEnd(src, i)
  {
    j := i;
    while j < |src| && IsAlnum(src[j])
      invariant i <= j <= |src|
      invariant WordEnd(src, i) == WordEnd(src, j)
      decreases |src| - j
    {
      j := j + 1;
    }
  }

  /** One pass of the `tokenize` loop body at offset `i`. */
  method ScanStep(d: Dialect, src: string, i: nat) returns (r: Step)
    requires i < |src|
    ensures r == StepAt(d, src, i)
  {
    var n := |src|;
    var ch := src[i];
    if IsSpace(ch) {
      return Skip(i + 1);
    }
    if ch == '/' && i + 1 < n && src[i + 1] == '*' {
      var j := SkipToCommentClose(src, i + 2);
      return Skip(j + 2);
    }
    if ch == '/' && i + 1 < n && src[i + 1] == '/' {
      var j := SkipToLineEnd(src, i + 2);
      return Skip(j);
    }
    if d == Modular && ch == '?' {
      return Emit(Token(UNKNOWN, TNull, i), i + 1);
    }
    if ch == '"' {
      var s, j := ReadString(src, i + 1);
      return Emit(Token(STRING, TStr(s), j), j);
    }
    if IsDigit(ch) || (ch == '.' && i + 1 < n && IsDigit(src[i + 1])) {
      var j := ReadNumberEnd(src, i + 1);
      return Emit(Token(NUMBER, TNum(ParseFloat(src[i..j])), j), j);
    }
    if IsAlpha(ch) {
      var j := ReadWordEnd(src, i + 1);
      var raw := src[i..j];
      var upper := Upper(raw);
      if d == Modular && upper in OpKeywords {
        return Emit(Token(OP, TStr(OpKeywords[upper]), j), j);
      } else if upper in Keywords(d) {
        return Emit(Token(Keyword(upper), TStr(upper), j), j);
      }
      return Emit(Token(IDENT, TStr(raw), j), j);
    }
    if i + 1 < n && src[i..i + 2] in TwoCharOps {
      return Emit(Token(OP, TStr(src[i..i + 2]), i), i + 2);
    }
    var single := SingleKind(ch);
    if single.Some? {
      return Emit(Token(single.value, TStr([ch]), i), i + 1);
    }
    return Fail(UnexpectedChar(ch, i));
  }

  /** `tokenize`: the cursor `i` walks the source, appending tokens, and a final
      EOF token carries the cursor's last value. */
  method Tokenize(d: Dialect, src: string) returns (r: Result<seq<Token>>)
    ensures r == Lex(d, src)
  {
    var tokens: seq<Token> := [];
    var i: nat := 0;
    assert TokensFrom(d, src, 0).Ok? ==> [] + TokensFrom(d, src, 0).value == TokensFrom(d, src, 0).value;
    while i < |src|
      invariant Lex(d, src) == Prepend(tokens, TokensFrom(d, src, i))
      decreases |src| - i
    {
      var step := ScanStep(d, src, i);
      match step
      case Fail(m) =>
        return Err(m);
      case Skip(j) =>
        i := j;
      case Emit(tok, j) =>
        EmitKeeps(d, src, i, tokens, tok, j);
        tokens := tokens + [tok];
        i := j;
    }
    tokens := tokens + [Token(EOF, TNull, i)];
    return Ok(tokens);
  }

  // ------------------------------------------------------------ properties

  /** A character no token can start with. */
  predicate Unrecognized(d: Dialect, c: char) {
    !IsSpace(c) && !IsAlnum(c) && c !in "\"+-*/=<>(),:." && !(d == Modular && c == '?')
  }

  /** One step of the scanner throws only at an unrecognised character, naming
      it and its offset, and never emits EOF. */
  lemma StepFails(d: Dialect, src: string, i: nat)
    requires i < |src|
    ensures StepAt(d, src, i).Fail? ==>
      StepAt(d, src, i).msg == UnexpectedChar(src[i], i) && Unrecognized(d, src[i])
    ensures StepAt(d, src, i).Emit? ==> StepAt(d, src, i).tok.kind != EOF
  {
  }

  /** `tokenize` either throws naming an unrecognised character and its offset, or
      returns a list whose last token, and only that one, is EOF, placed at the end
      of the source (two past it when an unterminated block comment ends the text). */
  lemma {:induction false} TokensFromShape(d: Dialect, src: string, i: nat)
    requires i <= |src| || i == |src| + 2
    ensures TokensFrom(d, src, i).Ok? ==> EndsWithEof(src, TokensFrom(d, src, i).value)
    ensures TokensFrom(d, src, i).Err? ==>
      exists k :: i <= k < |src| && TokensFrom(d, src, i).msg == UnexpectedChar(src[k], k)
        && Unrecognized(d, src[k])
    decreases |src| - i
  {
    if i < |src| {
      StepFails(d, src, i);
      match StepAt(d, src, i)
      case Fail(m) =>
      case Skip(j) =>
        TokensFromShape(d, src, j);
      case Emit(t, j) =>
        TokensFromShape(d, src, j);
        if TokensFrom(d, src, j).Ok? {
          var ts := TokensFrom(d, src, j).value;
          assert TokensFrom(d, src, i).value == [t] + ts;
        }
    }
  }

  predicate EndsWithEof(src: string, ts: seq<Token>) {
    |ts| >= 1 && ts[|ts| - 1].kind == EOF
    && (ts[|ts| - 1].pos == |src| || ts[|ts| - 1].pos == |src| + 2)
    && forall k :: 0 <= k < |ts| - 1 ==> ts[k].kind != EOF
  }

  lemma LexShape(d: Dialect, src: string)
    ensures Lex(d, src).Ok? ==> EndsWithEof(src, Lex(d, src).value)
    ensures Lex(d, src).Err? ==>
      exists k :: 0 <= k < |src| && Lex(d, src).msg == UnexpectedChar(src[k], k) && Unrecognized(d, src[k])
  {
    TokensFromShape(d, src, 0);
  }

  /** `src[a..b]` is a whole identifier-shaped word: it starts with a letter or
      underscore and cannot be extended to the right. */
  predicate IsWord(src: string, a: int, b: int) {
    0 <= a < b <= |src| && IsAlpha(src[a]) && (forall m :: a < m < b ==> IsAlnum(src[m]))
    && (b < |src| ==> !IsAlnum(src[b]))
  }

  /** An operator symbol at `p`: a two-character operator, or a single character
      that does not begin a two-character operator. */
  predicate SymbolAt(src: string, p: int, s: string) {
    0 <= p && p + |s| <= |src| && src[p..p + |s|] == s
    && (s in TwoCharOps || (|s| == 1 && s[0] in "+-*/=<>" && !(p + 1 < |src| && src[p..p + 2] in TwoCharOps)))
  }

  /** The string literal whose opening quote is at `s` ends just before `t.pos`,
      and `t` holds its text with the escapes removed. */
  predicate StringRead(src: string, s: int, t: Token) {
    0 <= s < |src| && src[s] == '"' && t.value.TStr? && StringRest(src, s + 1, false) == (t.value.s, t.pos)
  }

  /** The run of digits and dots starting at `s` ends at `t.pos`, and `t` holds
      the number `parseFloat` reads from it. */
  predicate NumberRead(src: string, s: int, t: Token) {
    0 <= s < |src| && StartsNumber(src, s) && NumberEnd(src, s + 1) == t.pos
    && t.value == TNum(ParseFloat(src[s..t.pos]))
  }

  /** How every token but the final EOF relates to the text it came from. */
  predicate Fits(d: Dialect, src: string, t: Token) {
    match t.kind
    case IDENT =>
      t.value.TStr? && IsWord(src, t.pos - |t.value.s|, t.pos)
      && src[t.pos - |t.value.s|..t.pos] == t.value.s && !Reserved(d, Upper(t.value.s))
    case Keyword(w) =>
      t.value == TStr(w) && w in Keywords(d)
      && !(d == Modular && w in OpKeywords)
      && IsWord(src, t.pos - |w|, t.pos) && Upper(src[t.pos - |w|..t.pos]) == w
    case OP =>
      t.value.TStr? &&
      (SymbolAt(src, t.pos, t.value.s)
       || (d == Modular && IsWord(src, t.pos - 2, t.pos) && Upper(src[t.pos - 2..t.pos]) in OpKeywords
           && OpKeywords[Upper(src[t.pos - 2..t.pos])] == t.value.s))
    case UNKNOWN => d == Modular && 0 <= t.pos < |src| && src[t.pos] == '?' && t.value == TNull
    case STRING => t.value.TStr? && exists s :: 0 <= s < |src| && StringRead(src, s, t)
    case NUMBER =>
      t.value.TNum? && t.value.n.Fin? && t.value.n.x >= 0.0
      && exists s :: 0 <= s < |src| && NumberRead(src, s, t)
    case EOF => t.value == TNull && (t.pos == |src| || t.pos == |src| + 2)
    case _ =>
      0 <= t.pos < |src| && t.value == TStr([src[t.pos]]) && SingleKind(src[t.pos]) == Some(t.kind)
      && (t.kind == DOT ==> !(t.pos + 1 < |src| && IsDigit(src[t.pos + 1])))
  }

  lemma WordFits(d: Dialect, src: string, i: nat, e: nat)
    requires IsWord(src, i, e)
    ensures Fits(d, src, WordToken(d, src[i..e], e))
  {
    var raw := src[i..e];
    assert |Upper(raw)| == |raw|;
    if d == Modular && Upper(raw) in OpKeywords {
      assert |raw| == 2;
    }
  }

  lemma SymbolFits(d: Dialect, src: string, i: nat)
    requires i + 1 < |src| && src[i..i + 2] in TwoCharOps
    ensures Fits(d, src, Token(OP, TStr(src[i..i + 2]), i))
  {
    assert SymbolAt(src, i, src[i..i + 2]);
  }

  lemma SingleFits(d: Dialect, src: string, i: nat, k: Kind)
    requires i < |src| && SingleKind(src[i]) == Some(k) && !StartsNumber(src, i)
    requires !(i + 1 < |src| && src[i..i + 2] in TwoCharOps)
    ensures Fits(d, src, Token(k, TStr([src[i]]), i))
  {
    if k == OP {
      assert src[i..i + 1] == [src[i]];
      assert SymbolAt(src, i, [src[i]]);
    }
  }

  lemma StepFits(d: Dialect, src: string, i: nat)
    requires i < |src|
    ensures StepAt(d, src, i).Emit? ==> Fits(d, src, StepAt(d, src, i).tok)
  {
    var ch := src[i];
    if IsSpace(ch) || StartsBlockComment(src, i) || (ch == '/' && i + 1 < |src| && src[i + 1] == '/') {
    } else if d == Modular && ch == '?' {
      assert StepAt(d, src, i).tok == Token(UNKNOWN, TNull, i);
    } else if ch == '"' {
      var (v, e) := StringRest(src, i + 1, false);
      assert StepAt(d, src, i).tok == Token(STRING, TStr(v), e);
      assert StringRead(src, i, Token(STRING, TStr(v), e));
    } else if StartsNumber(src, i) {
      var e := NumberEnd(src, i + 1);
      ParseFloatUnsigned(src[i..e]);
      assert StepAt(d, src, i).tok == Token(NUMBER, TNum(ParseFloat(src[i..e])), e);
      assert NumberRead(src, i, Token(NUMBER, TNum(ParseFloat(src[i..e])), e));
    } else if IsAlpha(ch) {
      var e := WordEnd(src, i + 1);
      WordFits(d, src, i, e);
      assert StepAt(d, src, i).tok == WordToken(d, src[i..e], e);
    } else if i + 1 < |src| && src[i..i + 2] in TwoCharOps {
      SymbolFits(d, src, i);
      assert StepAt(d, src, i).tok == Token(OP, TStr(src[i..i + 2]), i);
    } else if SingleKind(ch).Some? {
      SingleFits(d, src, i, SingleKind(ch).value);
      assert StepAt(d, src, i).tok == Token(SingleKind(ch).value, TStr([ch]), i);
    }
  }

  predicate AllFit(d: Dialect, src: string, ts: seq<Token>) {
    forall k :: 0 <= k < |ts| ==> Fits(d, src, ts[k])
  }

  lemma {:induction false} TokensFromFit(d: Dialect, src: string, i: nat)
    requires i <= |src| || i == |src| + 2
    ensures TokensFrom(d, src, i).Ok? ==> AllFit(d, src, TokensFrom(d, src, i).value)
    decreases |src| - i
  {
    if i < |src| {
      StepFits(d, src, i);
      match StepAt(d, src, i)
      case Fail(m) =>
      case Skip(j) =>
        TokensFromFit(d, src, j);
        assert TokensFrom(d, src, i) == TokensFrom(d, src, j);
      case Emit(t, j) =>
        TokensFromFit(d, src, j);
        if TokensFrom(d, src, j).Ok? {
          var ts := TokensFrom(d, src, j).value;
          assert TokensFrom(d, src, i).value == [t] + ts;
        }
    }
  }

  /** Every token sits where the source says it should: words are whole
      words whose IDENT or keyword kind follows the keyword table, symbols are
      read longest-first so a single-character OP never begins `<=`, `>=`, `<>`
      or `==`, punctuation is the character at the token's offset, and EOF
      carries `null`. */
  lemma LexFits(d: Dialect, src: string)
    ensures Lex(d, src).Ok? ==> AllFit(d, src, Lex(d, src).value)
  {
    assert Lex(d, src) == TokensFrom(d, src, 0);
    TokensFromFit(d, src, 0);
  }

  /** No two adjacent single-character OP tokens spell a two-character operator
      when they are adjacent in the source. */
  lemma NoSplitTwoCharOp(d: Dialect, src: string, k: nat)
    requires Lex(d, src).Ok? && k + 1 < |Lex(d, src).value|
    requires var ts := Lex(d, src).value;
      ts[k].kind == OP && ts[k + 1].kind == OP && ts[k].value.TStr? && ts[k + 1].value.TStr?
      && ts[k + 1].pos == ts[k].pos + 1 && |ts[k].value.s| == 1 && SymbolAt(src, ts[k].pos, ts[k].value.s)
      && SymbolAt(src, ts[k + 1].pos, ts[k + 1].value.s)
    ensures var ts := Lex(d, src).value; ts[k].value.s + ts[k + 1].value.s !in TwoCharOps
  {
    var ts := Lex(d, src).value;
    var p := ts[k].pos;
    var a := ts[k].value.s;
    var b := ts[k + 1].value.s;
    assert src[p..p + 2] == [src[p], src[p + 1]];
    assert a == [src[p]];
    assert b[0] == src[p + 1];
    if |b| == 1 {
      assert a + b == src[p..p + 2];
    } else {
      assert a + b !in TwoCharOps;
    }
  }

  /** A lone identifier-shaped word lexes to one word token and EOF. */
  lemma {:induction false} LoneWord(d: Dialect, w: string)
    requires |w| > 0 && IsAlpha(w[0]) && forall m :: 0 < m < |w| ==> IsAlnum(w[m])
    ensures Lex(d, w) == Ok([WordToken(d, w, |w|), Token(EOF, TNull, |w|)])
  {
    assert !IsSpace(w[0]) && !IsDigit(w[0]) && w[0] != '"' && w[0] != '/' && w[0] != '?' && w[0] != '.';
    var e := WordEnd(w, 1);
    assert e == |w|;
    assert w[0..e] == w;
    assert StepAt(d, w, 0) == Emit(WordToken(d, w, |w|), |w|);
    assert TokensFrom(d, w, |w|) == Ok([Token(EOF, TNull, |w|)]);
    assert TokensFrom(d, w, 0) == Ok([WordToken(d, w, |w|)] + [Token(EOF, TNull, |w|)]);
    assert [WordToken(d, w, |w|)] + [Token(EOF, TNull, |w|)] == [WordToken(d, w, |w|), Token(EOF, TNull, |w|)];
  }

  /** Keyword case folding: a word whose upper-case spelling is a keyword (and not
      a word operator) becomes that keyword with the upper-case spelling as its
      value; any other word is IDENT with its spelling kept. */
  lemma WordClassification(d: Dialect, w: string)
    requires |w| > 0 && IsAlpha(w[0]) && forall m :: 0 < m < |w| ==> IsAlnum(w[m])
    ensures !(d == Modular && Upper(w) in OpKeywords) && Upper(w) in Keywords(d) ==>
      Lex(d, w) == Ok([Token(Keyword(Upper(w)), TStr(Upper(w)), |w|), Token(EOF, TNull, |w|)])
    ensures !Reserved(d, Upper(w)) ==>
      Lex(d, w) == Ok([Token(IDENT, TStr(w), |w|), Token(EOF, TNull, |w|)])
  {
    LoneWord(d, w);
  }

  /** In the modular lexer NE, EQ, GE and LE, in any case, are operators, ahead
      of the keyword table; the legacy lexer keeps them as identifiers. */
  lemma OperatorWords(w: string)
    requires |w| == 2 && IsAlpha(w[0]) && IsAlpha(w[1]) && Upper(w) in OpKeywords
    ensures Lex(Modular, w) == Ok([Token(OP, TStr(OpKeywords[Upper(w)]), 2), Token(EOF, TNull, 2)])
    ensures Lex(Legacy, w) == Ok([Token(IDENT, TStr(w), 2), Token(EOF, TNull, 2)])
  {
    LoneWord(Modular, w);
    LoneWord(Legacy, w);
    assert Upper(w) !in LegacyKeywords;
  }

  /** `?` is the unknown value in the modular lexer and an error in the legacy one. */
  lemma QuestionMark()
    ensures Lex(Modular, "?") == Ok([Token(UNKNOWN, TNull, 0), Token(EOF, TNull, 1)])
    ensures Lex(Legacy, "?") == Err(UnexpectedChar('?', 0))
  {
    assert StepAt(Legacy, "?", 0) == Fail(UnexpectedChar('?', 0));
    assert StepAt(Modular, "?", 0) == Emit(Token(UNKNOWN, TNull, 0), 1);
    assert TokensFrom(Modular, "?", 1) == Ok([Token(EOF, TNull, 1)]);
    assert TokensFrom(Modular, "?", 0) == Ok([Token(UNKNOWN, TNull, 0)] + [Token(EOF, TNull, 1)]);
    assert [Token(UNKNOWN, TNull, 0)] + [Token(EOF, TNull, 1)] == [Token(UNKNOWN, TNull, 0), Token(EOF, TNull, 1)];
  }

  /** An unterminated block comment moves the EOF token two past the end. */
  lemma UnterminatedComment(d: Dialect)
    ensures Lex(d, "/*") == Ok([Token(EOF, TNull, 4)])
  {
    assert StepAt(d, "/*", 0) == Skip(4);
  }

  /** The escaped spelling of `s`: a backslash before every `"` and `\`. */
  function Escape(s: string): (r: string)
    ensures |r| >= |s|
  {
    if s == [] then []
    else (if s[0] == '"' || s[0] == '\\' then ['\\', s[0]] else [s[0]]) + Escape(s[1..])
  }

  function Quote(s: string): string { "\"" + Escape(s) + "\"" }

  lemma {:induction false} StringRestEscaped(src: string, j: nat, s: string)
    requires j + |Escape(s)| < |src| && src[j..j + |Escape(s)| + 1] == Escape(s) + "\""
    ensures StringRest(src, j, false) == (s, j + |Escape(s)| + 1)
    decreases s
  {
    if s == [] {
      assert src[j] == '"';
    } else {
      var e := Escape(s);
      var rest := Escape(s[1..]);
      var c := s[0];
      assert src[j..j + |e| + 1][0] == src[j];
      if c == '"' || c == '\\' {
        assert e == ['\\', c] + rest;
        assert src[j] == '\\' && src[j + 1] == c;
        assert src[j + 2..j + 2 + |rest| + 1] == src[j..j + |e| + 1][2..];
        StringRestEscaped(src, j + 2, s[1..]);
        assert [c] + s[1..] == s;
      } else {
        assert e == [c] + rest;
        assert src[j] == c;
        assert src[j + 1..j + 1 + |rest| + 1] == src[j..j + |e| + 1][1..];
        StringRestEscaped(src, j + 1, s[1..]);
        assert [c] + s[1..] == s;
      }
    }
  }

  /** String literals: a backslash makes the next character literal, the first
      unescaped quote ends the token, and neither quote is part of the value, so
      quoting any text with `Escape` lexes back to exactly that text. */
  lemma StringRoundTrip(d: Dialect, s: string)
    ensures Lex(d, Quote(s)) == Ok([Token(STRING, TStr(s), |Quote(s)|), Token(EOF, TNull, |Quote(s)|)])
  {
    var q := Quote(s);
    assert q[1..1 + |Escape(s)| + 1] == Escape(s) + "\"";
    StringRestEscaped(q, 1, s);
    assert q[0] == '"';
    assert StepAt(d, q, 0) == Emit(Token(STRING, TStr(s), |q|), |q|);
    assert TokensFrom(d, q, |q|) == Ok([Token(EOF, TNull, |q|)]);
    assert TokensFrom(d, q, 0) == Ok([Token(STRING, TStr(s), |q|)] + [Token(EOF, TNull, |q|)]);
    assert [Token(STRING, TStr(s), |q|)] + [Token(EOF, TNull, |q|)] == [Token(STRING, TStr(s), |q|), Token(EOF, TNull, |q|)];
  }

  lemma FitsWellTyped(d: Dialect, src: string, t: Token)
    requires Fits(d, src, t)
    ensures WellTyped(t)
  {
  }

  /** Every successful lexer run yields a well-typed token array. */
  lemma LexWellTyped(d: Dialect, src: string)
    ensures Lex(d, src).Ok? ==> forall k | 0 <= k < |Lex(d, src).value| :: WellTyped(Lex(d, src).value[k])
  {
    LexFits(d, src);
    if Lex(d, src).Ok? {
      var ts := Lex(d, src).value;
      forall k | 0 <= k < |ts| ensures WellTyped(ts[k]) {
        FitsWellTyped(d, src, ts[k]);
      }
    }
  }

}
