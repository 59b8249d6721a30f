/** The `Parser` object shared by every statement module: a token array, a
    cursor that the parse methods advance, and the statement tables taken from
    the registry. Each method is proved to do what the matching grammar
    function says. */
module ParserCore {
  import opened Results
  import opened Text
  import opened Tokens
  import opened Lexer
  import opened Ast
  import Registry
  import opened Grammar

  /** A method's outcome `r` with cursor `cursor` is the one the grammar function
      predicts; after an error the cursor is left unspecified, since nothing
      catches a `SyntaxError` inside the parser. */
  predicate Agrees<T(==)>(r: Result<T>, cursor: nat, s: Result<Parsed<T>>) {
    match s
    case Ok(p) => r == Ok(p.value) && cursor == p.next
    case Err(m) => r == Err(m)
  }

  class Parser {
    const toks: TokenList
    const dialect: Dialect
    /** `keywordMap` and `identifierParsers`, when a registry was attached. */
    const registry: Option<Registry.Registry>
    var i: nat

    /** `new Parser(tokens, registry)` (modular) or `new Parser(tokens)` (legacy). */
    constructor (tokens: TokenList, d: Dialect, reg: Option<Registry.Registry>)
      ensures toks == tokens && dialect == d && registry == reg && i == 0
    {
      toks := tokens;
      dialect := d;
      registry := reg;
      i := 0;
    }

    method Peek() returns (r: Result<Token>)
      ensures r == Grammar.Peek(toks, i)
    {
      if i < |toks| {
        r := Ok(toks[i]);
      } else {
        r := Err(UndefinedType);
      }
    }

    method Eat(k: Kind) returns (r: Result<Token>)
      modifies this
      ensures Agrees(r, i, Grammar.Eat(toks, old(i), k))
    {
      var t :- Peek();
      if t.kind != k {
        return Err(ExpectedMessage(k, t.kind));
      }
      i := i + 1;
      r := Ok(t);
    }

    /** `eat(peek().type)`. */
    method EatNext() returns (r: Result<Token>)
      modifies this
      ensures Agrees(r, i, Grammar.EatNext(toks, old(i)))
    {
      var t :- Peek();
      r := Eat(t.kind);
    }

    method Match(k: Kind) returns (r: Result<bool>)
      modifies this
      ensures Agrees(r, i, Grammar.Match(toks, old(i), k))
    {
      var t :- Peek();
      if t.kind == k {
        i := i + 1;
        r := Ok(true);
      } else {
        r := Ok(false);
      }
    }

    method OptionalDot() returns (r: Result<()>)
      modifies this
      ensures match Grammar.OptionalDot(toks, old(i))
              case Ok(j) => r == Ok(()) && i == j
              case Err(m) => r == Err(m)
    {
      var _ :- Match(DOT);
      r := Ok(());
    }

    /** The dotted-path loop of `parseFieldPath` and `parsePrimary`, after the first IDENT. */
    method PathTail(first: seq<string>) returns (r: Result<seq<string>>)
      modifies this
      ensures Agrees(r, i, Grammar.PathTail(toks, first, old(i)))
    {
      var segs := first;
      while true
        invariant Grammar.PathTail(toks, first, old(i)) == Grammar.PathTail(toks, segs, i)
        decreases |toks| - i
      {
        var dotTok :- Peek();
        var nextTok := At(toks, i + 1);
        if dotTok.kind == DOT && nextTok.Some? && nextTok.value.kind == IDENT
           && nextTok.value.pos - |TokText(nextTok.value)| == dotTok.pos + 1
        {
          i := i + 2;
          segs := segs + [TokText(nextTok.value)];
        } else {
          return Ok(segs);
        }
      }
    }

    method ParseFieldPath() returns (r: Result<seq<string>>)
      modifies this
      ensures Agrees(r, i, Grammar.FieldPath(toks, old(i)))
    {
      var id :- Eat(IDENT);
      r := PathTail([TokText(id)]);
    }

    method ParseExpr() returns (r: Result<Expr>)
      modifies this
      ensures Agrees(r, i, Grammar.ParseExpr(dialect, toks, old(i)))
      decreases |toks| - i, 20
    {
      r := ParseOr();
    }

    method ParseOr() returns (r: Result<Expr>)
      modifies this
      ensures Agrees(r, i, Grammar.ParseOr(dialect, toks, old(i)))
      decreases |toks| - i, 19
    {
      var acc :- ParseAnd();
      while true
        invariant old(i) < i <= |toks|
        invariant Grammar.ParseOr(dialect, toks, old(i)) == OrTail(dialect, toks, acc, i)
        decreases |toks| - i
      {
        var m :- Match(Keyword("OR"));
        if !m {
          return Ok(acc);
        }
        var rhs :- ParseAnd();
        acc := Logical("OR", acc, rhs);
      }
    }

    method ParseAnd() returns (r: Result<Expr>)
      modifies this
      ensures Agrees(r, i, Grammar.ParseAnd(dialect, toks, old(i)))
      decreases |toks| - i, 18
    {
      var acc :- ParseNot();
      while true
        invariant old(i) < i <= |toks|
        invariant Grammar.ParseAnd(dialect, toks, old(i)) == AndTail(dialect, toks, acc, i)
        decreases |toks| - i
      {
        var m :- Match(Keyword("AND"));
        if !m {
          return Ok(acc);
        }
        var rhs :- ParseNot();
        acc := Logical("AND", acc, rhs);
      }
    }

    method ParseNot() returns (r: Result<Expr>)
      modifies this
      ensures Agrees(r, i, Grammar.ParseNot(dialect, toks, old(i)))
      decreases |toks| - i, 17
    {
      var m :- Match(Keyword("NOT"));
      if m {
        var arg :- ParseNot();
        r := Ok(Ast.Unary("NOT", arg));
      } else {
        r := ParseCompare();
      }
    }

    method ParseCompare() returns (r: Result<Expr>)
      modifies this
      ensures Agrees(r, i, Grammar.ParseCompare(dialect, toks, old(i)))
      decreases |toks| - i, 16
    {
      var acc :- ParseAdd();
      while true
        invariant old(i) < i <= |toks|
        invariant Grammar.ParseCompare(dialect, toks, old(i)) == CompareTail(dialect, toks, acc, i)
        decreases |toks| - i
      {
        var t :- Peek();
        if !IsOp(t, CompareOps) {
          return Ok(acc);
        }
        i := i + 1;
        var rhs :- ParseAdd();
        acc := Binary(t.value.s, acc, rhs);
      }
    }

    method ParseAdd() returns (r: Result<Expr>)
      modifies this
      ensures Agrees(r, i, Grammar.ParseAdd(dialect, toks, old(i)))
      decreases |toks| - i, 15
    {
      var acc :- ParseMul();
      while true
        invariant old(i) < i <= |toks|
        invariant Grammar.ParseAdd(dialect, toks, old(i)) == AddTail(dialect, toks, acc, i)
        decreases |toks| - i
      {
        var t :- Peek();
        if !IsOp(t, AddOps) {
          return Ok(acc);
        }
        i := i + 1;
        var rhs :- ParseMul();
        acc := Binary(t.value.s, acc, rhs);
      }
    }

    method ParseMul() returns (r: Result<Expr>)
      modifies this
      ensures Agrees(r, i, Grammar.ParseMul(dialect, toks, old(i)))
      decreases |toks| - i, 14
    {
      var acc :- ParseUnary();
      while true
        invariant old(i) < i <= |toks|
        invariant Grammar.ParseMul(dialect, toks, old(i)) == MulTail(dialect, toks, acc, i)
        decreases |toks| - i
      {
        var t :- Peek();
        if !IsOp(t, MulOps) {
          return Ok(acc);
        }
        i := i + 1;
        var rhs :- ParseUnary();
        acc := Binary(t.value.s, acc, rhs);
      }
    }

    method ParseUnary() returns (r: Result<Expr>)
      modifies this
      ensures Agrees(r, i, Grammar.ParseUnary(dialect, toks, old(i)))
      decreases |toks| - i, 13
    {
      var t :- Peek();
      if IsOp(t, AddOps) {
        i := i + 1;
        var arg :- ParseUnary();
        r := Ok(Ast.Unary(t.value.s, arg));
      } else {
        r := ParsePrimary();
      }
    }

    method ParsePrimary() returns (r: Result<Expr>)
      modifies this
      ensures Agrees(r, i, Grammar.ParsePrimary(dialect, toks, old(i)))
      decreases |toks| - i, 12
    {
      var t :- Peek();
      if t.kind == NUMBER {
        i := i + 1;
        return Ok(Number(t.value.n));
      }
      if t.kind == STRING {
        i := i + 1;
        return Ok(String(t.value.s));
      }
      if t.kind == IDENT {
        i := i + 1;
        var segs: seq<string>;
        if dialect == Legacy {
          segs := [t.value.s];
        } else {
          segs :- PathTail([t.value.s]);
        }
        var lp := false;
        if |segs| == 1 {
          lp :- Match(LPAREN);
        }
        if lp {
          r := CallRest(segs[0]);
        } else if |segs| > 1 {
          r := Ok(Field(segs));
        } else {
          r := Ok(Var(Lower(segs[0])));
        }
        return;
      }
      if dialect == Modular {
        var u :- Match(UNKNOWN);
        if u {
          return Ok(Ast.Unknown);
        }
      }
      var lp :- Match(LPAREN);
      if lp {
        var e :- ParseExpr();
        var _ :- Eat(RPAREN);
        r := Ok(e);
      } else {
        r := Err(UnexpectedInExpression(t.kind));
      }
    }

    /** The argument list of a call, after its `(`, through the `)`. */
    method CallRest(name: string) returns (r: Result<Expr>)
      modifies this
      ensures Agrees(r, i, Grammar.CallRest(dialect, toks, name, old(i)))
      decreases |toks| - i, 21
    {
      var t :- Peek();
      var args: seq<Expr> := [];
      if t.kind != RPAREN {
        var first :- ParseExpr();
        args := [first];
        while true
          invariant old(i) < i <= |toks|
          invariant Grammar.CallRest(dialect, toks, name, old(i)) ==
            (var a :- ArgsTail(dialect, toks, args, i);
             var rp :- Grammar.Eat(toks, a.next, RPAREN);
             Ok(Parsed(Call(Upper(name), a.value), rp.next)))
          decreases |toks| - i
        {
          var m :- Match(COMMA);
          if !m {
            break;
          }
          var e :- ParseExpr();
          args := args + [e];
        }
      }
      var _ :- Eat(RPAREN);
      r := Ok(Call(Upper(name), args));
    }
  }
}
