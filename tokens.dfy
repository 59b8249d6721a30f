/** The token records that both lexers produce and both parsers consume. */
module Tokens {
  import opened Values

  /** The `type` field of a token. A keyword token's type is its own upper-case
      spelling, `Keyword(word)`. */
  datatype Kind =
    | IDENT | NUMBER | STRING | OP | LPAREN | RPAREN | COMMA | COLON | DOT | UNKNOWN | EOF
    | Keyword(word: string)

  /** The `value` field: `null`, a string, or a number. */
  datatype TokValue = TNull | TStr(s: string) | TNum(n: JsNum)

  /** `{type, value, pos}`. */
  datatype Token = Token(kind: Kind, value: TokValue, pos: int)

  /** The type name as JavaScript prints it in error messages and uses as a registry key. */
  function KindName(k: Kind): string {
    match k
    case IDENT => "IDENT"
    case NUMBER => "NUMBER"
    case STRING => "STRING"
    case OP => "OP"
    case LPAREN => "LPAREN"
    case RPAREN => "RPAREN"
    case COMMA => "COMMA"
    case COLON => "COLON"
    case DOT => "DOT"
    case UNKNOWN => "UNKNOWN"
    case EOF => "EOF"
    case Keyword(w) => w
  }

  /** The string value of an IDENT, OP, STRING or keyword token ('' for the others). */
  function TextOf(t: Token): string {
    if t.value.TStr? then t.value.s else ""
  }

  /** The value shape each kind of token carries: numbers for NUMBER, `null` for
      UNKNOWN and EOF, the upper-case word for a keyword, a string otherwise. */
  predicate WellTyped(t: Token) {
    match t.kind
    case NUMBER => t.value.TNum?
    case UNKNOWN => t.value == TNull
    case EOF => t.value == TNull
    case Keyword(w) => t.value == TStr(w)
    case _ => t.value.TStr?
  }

  /** Token arrays as the lexers produce them. */
  type TokenList = ts: seq<Token> | forall k | 0 <= k < |ts| :: WellTyped(ts[k])
}
