/** The word MESSAGE in the tokenizers: the modular keyword table lacks it, so the
    word is always an identifier; and the word rule with MESSAGE added to the table. */
module MessageKeyword {
  import opened Text
  import opened Tokens
  import opened Lexer

  /** The keywords only the modular lexer knows, in three parts (records, definitions
      and displays; procedures; input streams and widgets), so that a word can be
      looked up in one part at a time. `ModularParts` shows they make up the table. */
  const RecordKeywords: set<string> :=
    {"FOR", "EACH", "WHERE", "BY", "OF", "LOCK", "FIND", "FIRST", "LAST", "ERROR", "DEFINE",
     "VARIABLE", "AS", "NO", "UNDO", "INIT", "LABEL", "FORMAT", "WITH", "FRAME", "CENTERED"}

  const ProcedureKeywords: set<string> :=
    {"PROCEDURE", "RUN", "PARAMETER", "OUTPUT", "DESCENDING", "BREAK", "PRIVATE", "EXTERNAL", "IN",
     "SUPER", "ORDINAL", "PERSISTENT", "THREAD", "SAFE", "CDECL", "PASCAL", "STDCALL", "FROM"}

  const StreamWidgetKeywords: set<string> :=
    {"STREAM", "HANDLE", "TERMINAL", "VALUE", "OS", "DIR", "LOB", "ATTR", "LIST", "BINARY", "ECHO",
     "MAP", "UNBUFFERED", "CONVERT", "TARGET", "SOURCE", "CREATE", "ENABLE", "VIEW", "APPLY", "ON",
     "WAIT", "TO"}

  lemma ModularParts()
    ensures ModularKeywords == LegacyKeywords + RecordKeywords + ProcedureKeywords + StreamWidgetKeywords
  { }

  /** A word that cannot be spelled MESSAGE: it has another length or another first letter. */
  predicate UnlikeMessage(w: string) { |w| != 7 || w[0] != 'M' }

  lemma MessageNotLegacy()
    ensures "MESSAGE" !in LegacyKeywords
  {
    forall w | w in LegacyKeywords ensures UnlikeMessage(w) { }
    assert !UnlikeMessage("MESSAGE");
  }

  lemma MessageNotRecord()
    ensures "MESSAGE" !in RecordKeywords
  {
    forall w | w in RecordKeywords ensures UnlikeMessage(w) { }
    assert !UnlikeMessage("MESSAGE");
  }

  lemma MessageNotProcedure()
    ensures "MESSAGE" !in ProcedureKeywords
  {
    forall w | w in ProcedureKeywords ensures UnlikeMessage(w) { }
    assert !UnlikeMessage("MESSAGE");
  }

  lemma MessageNotStreamWidget()
    ensures "MESSAGE" !in StreamWidgetKeywords
  {
    forall w | w in StreamWidgetKeywords ensures UnlikeMessage(w) { }
    assert !UnlikeMessage("MESSAGE");
  }

  lemma MessageNotModular()
    ensures "MESSAGE" !in ModularKeywords
  {
    ModularParts();
    MessageNotLegacy();
    MessageNotRecord();
    MessageNotProcedure();
    MessageNotStreamWidget();
  }

  /** Neither keyword table holds MESSAGE, and it is no operator word. */
  lemma MessageNotReserved(d: Dialect)
    ensures !Reserved(d, "MESSAGE")
  {
    MessageNotLegacy();
    MessageNotModular();
    assert "MESSAGE" !in OpKeywords by { assert |"MESSAGE"| != 2; }
  }

  /** The word MESSAGE, in any letter case, is an IDENT token keeping its spelling. */
  lemma MessageWordIsIdent(d: Dialect, raw: string, pos: int)
    requires Upper(raw) == "MESSAGE"
    ensures WordToken(d, raw, pos) == Token(IDENT, TStr(raw), pos)
  {
    MessageNotReserved(d);
  }

  /** As written, no text lexes to a MESSAGE keyword token, so the statement
      module registered under MESSAGE is never looked up. */
  lemma MessageNeverLexed(d: Dialect, src: string)
    ensures Lex(d, src).Ok? ==>
      forall k :: 0 <= k < |Lex(d, src).value| ==> Lex(d, src).value[k].kind != Keyword("MESSAGE")
  {
    MessageNotReserved(d);
    LexFits(d, src);
  }

  /** The modular keyword table with MESSAGE added: the table the MESSAGE
      statement module evidently expects. */
  const CorrectedKeywords: set<string> := ModularKeywords + {"MESSAGE"}

  /** The modular lexer's word rule over `CorrectedKeywords`: MESSAGE in any
      letter case becomes the MESSAGE keyword. */
  function CorrectedWordToken(raw: string, pos: int): (t: Token)
    ensures Upper(raw) == "MESSAGE" ==> t == Token(Keyword("MESSAGE"), TStr("MESSAGE"), pos)
  {
    var upper := Upper(raw);
    assert upper == "MESSAGE" ==> upper !in OpKeywords by { assert |"MESSAGE"| != 2; }
    if upper in OpKeywords then Token(OP, TStr(OpKeywords[upper]), pos)
    else if upper in CorrectedKeywords then Token(Keyword(upper), TStr(upper), pos)
    else Token(IDENT, TStr(raw), pos)
  }

  /** Every other word is read as the modular lexer reads it. */
  lemma CorrectedKeepsOtherWords(raw: string, pos: int)
    requires Upper(raw) != "MESSAGE"
    ensures CorrectedWordToken(raw, pos) == WordToken(Modular, raw, pos)
  {
    assert Upper(raw) in CorrectedKeywords <==> Upper(raw) in ModularKeywords;
  }
}
