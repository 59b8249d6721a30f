/** The tree-walking interpreter of mini4GL.js: `truthy`, `cmp`, `evalExpr`,
    `execStmt`, `execBlock` and `interpret4GL`.

    The environment `{vars, inputs, output}` is the class `Env`; the lines
    handed to `output` are its `outputs` field. `evalExpr` changes nothing
    but the output (through PRINT), so it is the function `Eval` from the
    variables to a value or the message of the error it throws, with the
    lines it output on the way. The statements are the `Env` methods,
    proved to do what the functions `Exec`, `Run` and `Loop` say. A WHILE
    loop of the source runs until its test is false; here every loop entry
    may run at most `fuel` passes and throws `OutOfFuel` after that. */
module LegacyInterp {
  import opened Results
  import opened Text
  import opened Values
  import opened Tokens
  import opened Lexer
  import Ast
  import opened ParserCore
  import opened LegacyParser
  import Builtins
  import Runtime

  type Vars = map<string, Value>

  /** The value of `evalExpr` or the message it throws, with the lines it
      output on the way (through PRINT), in order. */
  datatype Evaluated = Evaluated(result: Result<Value>, out: seq<string>)

  /** The argument values of a call or the items of DISPLAY, evaluated left
      to right. */
  datatype EvaluatedList = EvaluatedList(result: Result<seq<Value>>, out: seq<string>)

  /** What the environment holds: the variables, the input queue and the
      lines output so far. */
  datatype State = State(vars: Vars, inputs: seq<Value>, outputs: seq<string>)

  /** The state after a statement, and the message of the error it threw. */
  datatype Outcome = Outcome(st: State, thrown: Option<string>)

  const RepeatWithoutWhile := "REPEAT without WHILE not supported in this mini-interpreter"
  const OutOfFuel := "iteration bound reached"
  const UnknownLogical := "Unknown logical op"

  function BadCompare(op: string): string { "Bad compare op " + op }
  function UnknownUnary(op: string): string { "Unknown unary " + op }
  function UnknownNode(tag: string): string { "Unknown expr node " + tag }

  // ------------------------------------------------------------ operators

  /** `env.vars[name] ?? null`. */
  function Lookup(vars: Vars, name: string): Value {
    if name in vars then vars[name] else Null
  }

  /** `cmp`: `=` and `==` are loose equality, `<>` its negation, and the
      four relational operators JavaScript's; any other operator throws. */
  function Compare(op: string, a: Value, b: Value): (r: Result<Value>)
    ensures r.Ok? <==> op in {"=", "==", "<>", "<", "<=", ">", ">="}
    ensures r.Err? ==> r.msg == BadCompare(op)
    ensures op == "<>" ==> r == Ok(Bool(!LooseEquals(a, b)))
    ensures r.Ok? ==> r.value.Bool?
  {
    if op == "=" || op == "==" then Ok(Bool(LooseEquals(a, b)))
    else if op == "<>" then Ok(Bool(!LooseEquals(a, b)))
    else if op == "<" then Ok(Bool(Lt(a, b)))
    else if op == "<=" then Ok(Bool(Le(a, b)))
    else if op == ">" then Ok(Bool(Gt(a, b)))
    else if op == ">=" then Ok(Bool(Ge(a, b)))
    else Err(BadCompare(op))
  }

  /** `v || 0`: a falsy operand reads as 0. */
  function OrZero(v: Value): Value { if ToBoolean(v) then v else Int(0) }

  /** The unary operators: `-` and `+` on `Number(v || 0)`, NOT on `truthy`. */
  function UnaryValue(op: string, v: Value): (r: Result<Value>)
    ensures r.Err? <==> op !in {"-", "+", "NOT"}
    ensures op == "NOT" ==> r == Ok(Bool(!Truthy(v)))
  {
    if op == "-" then Ok(Num(NumNeg(ToNumber(OrZero(v)))))
    else if op == "+" then Ok(Num(ToNumber(OrZero(v))))
    else if op == "NOT" then Ok(Bool(!Truthy(v)))
    else Err(UnknownUnary(op))
  }

  /** The binary operators: `+` joins the string forms when either operand
      is a string and adds the numbers otherwise; `-`, `*` and `/` work on
      the numbers; everything else is a comparison. */
  function BinaryValue(op: string, l: Value, r: Value): Result<Value> {
    if op == "+" then
      if l.Str? || r.Str? then Ok(Str(ToStr(l) + ToStr(r))) else Ok(Num(NumAdd(ToNumber(l), ToNumber(r))))
    else if op == "-" then Ok(Num(NumSub(ToNumber(l), ToNumber(r))))
    else if op == "*" then Ok(Num(NumMul(ToNumber(l), ToNumber(r))))
    else if op == "/" then Ok(Num(NumDiv(ToNumber(l), ToNumber(r))))
    else Compare(op, l, r)
  }

  /** The one line PRINT writes: the string forms joined by single spaces. */
  function PrintLine(args: seq<Value>): string {
    Join(seq(|args|, k requires 0 <= k < |args| => ToStr(args[k])), " ")
  }

  /** `Array.prototype.join` shows `null` as nothing. */
  function JoinForm(v: Value): string { if v == Null then "" else ToStr(v) }

  /** The line DISPLAY writes: `parts.join(' ')`. */
  function DisplayLine(parts: seq<Value>): string {
    Join(seq(|parts|, k requires 0 <= k < |parts| => JoinForm(parts[k])), " ")
  }

  /** The function calls the legacy evaluator knows, on evaluated arguments;
      PRINT adds its line to the output. */
  function CallValue(name: string, args: seq<Value>): (r: Evaluated)
    ensures r.result.Err? <==> name !in {"UPPER", "LOWER", "LENGTH", "INT", "FLOAT", "PRINT"}
    ensures r.result.Err? ==> r.result.msg == Builtins.UnknownFunction(name)
    ensures r.out == if name == "PRINT" then [PrintLine(args)] else []
  {
    var first := Builtins.Arg(args, 0);
    var numeric := Some(if |args| > 0 && args[0] != Null then args[0] else Int(0));
    match name
    case "UPPER" => Evaluated(Ok(Str(Upper(Builtins.TextOr(first)))), [])
    case "LOWER" => Evaluated(Ok(Str(Lower(Builtins.TextOr(first)))), [])
    case "LENGTH" => Evaluated(Ok(Int(|Builtins.TextOr(first)|)), [])
    case "INT" => Evaluated(Ok(Num(ParseInt(Builtins.TextOr(numeric)))), [])
    case "FLOAT" => Evaluated(Ok(Num(ParseFloat(Builtins.TextOr(numeric)))), [])
    case "PRINT" => Evaluated(Ok(Null), [PrintLine(args)])
    case _ => Evaluated(Err(Builtins.UnknownFunction(name)), [])
  }

  // ----------------------------------------------------------- evalExpr

  /** `evalExpr`. Operands are evaluated left to right; AND and OR evaluate
      their right side only when the left side does not decide, and give a
      boolean. Field and Unknown nodes, which only the modular parser builds,
      are unknown here. */
  function Eval(e: Ast.Expr, vars: Vars): (r: Evaluated)
    ensures e.Logical? && r.result.Ok? ==> r.result.value.Bool?
    decreases e, 1
  {
    match e
    case Number(n) => Evaluated(Ok(Num(n)), [])
    case String(s) => Evaluated(Ok(Str(s)), [])
    case Var(name) => Evaluated(Ok(Lookup(vars, name)), [])
    case Unary(_, _) => EvalUnary(e, vars)
    case Binary(_, _, _) => EvalBinary(e, vars)
    case Logical(_, _, _) => EvalLogical(e, vars)
    case Call(_, _) => EvalCall(e, vars)
    case Field(_) => Evaluated(Err(UnknownNode("Field")), [])
    case Unknown => Evaluated(Err(UnknownNode("Unknown")), [])
  }

  /** The Unary case of `evalExpr`. */
  function EvalUnary(e: Ast.Expr, vars: Vars): Evaluated
    requires e.Unary?
    decreases e, 0
  {
    var a := Eval(e.arg, vars);
    if a.result.Err? then a else Evaluated(UnaryValue(e.op, a.result.value), a.out)
  }

  /** The Binary case of `evalExpr`: left operand, then right operand. */
  function EvalBinary(e: Ast.Expr, vars: Vars): Evaluated
    requires e.Binary?
    decreases e, 0
  {
    var l := Eval(e.left, vars);
    if l.result.Err? then l
    else
      var rv := Eval(e.right, vars);
      if rv.result.Err? then Evaluated(rv.result, l.out + rv.out)
      else Evaluated(BinaryValue(e.op, l.result.value, rv.result.value), l.out + rv.out)
  }

  /** The Logical case of `evalExpr`. */
  function EvalLogical(e: Ast.Expr, vars: Vars): (r: Evaluated)
    requires e.Logical?
    ensures r.result.Ok? ==> r.result.value.Bool?
    decreases e, 0
  {
    var op := e.op;
    if op != "AND" && op != "OR" then Evaluated(Err(UnknownLogical), [])
    else
      var l := Eval(e.left, vars);
      if l.result.Err? then l
      else if op == "AND" && !Truthy(l.result.value) then Evaluated(Ok(Bool(false)), l.out)
      else if op == "OR" && Truthy(l.result.value) then Evaluated(Ok(Bool(true)), l.out)
      else
        var rv := Eval(e.right, vars);
        if rv.result.Err? then Evaluated(rv.result, l.out + rv.out)
        else Evaluated(Ok(Bool(Truthy(rv.result.value))), l.out + rv.out)
  }

  /** The Call case of `evalExpr`: the arguments, then the call. */
  function EvalCall(e: Ast.Expr, vars: Vars): Evaluated
    requires e.Call?
    decreases e, 0
  {
    var a := EvalList(e.args, vars);
    if a.result.Err? then Evaluated(Err(a.result.msg), a.out)
    else
      var c := CallValue(e.name, a.result.value);
      Evaluated(c.result, a.out + c.out)
  }

  /** `es.map(a => evalExpr(a, env))`, stopping at the first error. */
  function EvalList(es: seq<Ast.Expr>, vars: Vars): (r: EvaluatedList)
    ensures r.result.Ok? ==> |r.result.value| == |es|
  {
    if es == [] then EvaluatedList(Ok([]), [])
    else
      var h := Eval(es[0], vars);
      if h.result.Err? then EvaluatedList(Err(h.result.msg), h.out)
      else
        var t := EvalList(es[1..], vars);
        if t.result.Err? then EvaluatedList(t.result, h.out + t.out)
        else EvaluatedList(Ok([h.result.value] + t.result.value), h.out + t.out)
  }

  // ---------------------------------------------------------- statements

  /** `t` is what is left of the queue `s` after some of its front was taken. */
  predicate Suffix(s: seq<Value>, t: seq<Value>)
    decreases |s|
  {
    t == s || (s != [] && Suffix(s[1..], t))
  }

  lemma {:induction false} SuffixTrans(a: seq<Value>, b: seq<Value>, c: seq<Value>)
    requires Suffix(a, b) && Suffix(b, c)
    ensures Suffix(a, c)
    decreases |a|
  {
    if b != a {
      SuffixTrans(a[1..], b, c);
    }
  }

  /** What every statement keeps: lines are only added after the ones
      already output, and inputs are only taken from the front of the queue. */
  predicate Advances(a: State, b: State) {
    a.outputs <= b.outputs && Suffix(a.inputs, b.inputs)
  }

  lemma AdvancesTrans(a: State, b: State, c: State)
    requires Advances(a, b) && Advances(b, c)
    ensures Advances(a, c)
  {
    SuffixTrans(a.inputs, b.inputs, c.inputs);
  }

  /** `st` after the lines `lines` were output. */
  function Emit(st: State, lines: seq<string>): (r: State)
    ensures Advances(st, r) && r.vars == st.vars && r.inputs == st.inputs
  {
    st.(outputs := st.outputs + lines)
  }

  /** `execStmt`. */
  function Exec(s: Stmt, st: State, fuel: nat): (o: Outcome)
    ensures Advances(st, o.st)
    decreases fuel, s, 0
  {
    match s
    case Empty => Outcome(st, None)
    case Assign(id, value) =>
      var ev := Eval(value, st.vars);
      if ev.result.Err? then Outcome(Emit(st, ev.out), Some(ev.result.msg))
      else Outcome(Emit(st, ev.out).(vars := st.vars[id := ev.result.value]), None)
    case Display(items) =>
      var ev := EvalList(items, st.vars);
      if ev.result.Err? then Outcome(Emit(st, ev.out), Some(ev.result.msg))
      else Outcome(Emit(st, ev.out + [DisplayLine(ev.result.value)]), None)
    case Input(id) =>
      if st.inputs != [] then Outcome(st.(vars := st.vars[id := st.inputs[0]], inputs := st.inputs[1..]), None)
      else Outcome(st.(vars := st.vars[id := Null]), None)
    case If(test, cons, alt) =>
      var ev := Eval(test, st.vars);
      var st1 := Emit(st, ev.out);
      if ev.result.Err? then Outcome(st1, Some(ev.result.msg))
      else
        var o := if Truthy(ev.result.value) then Run(cons, st1, fuel)
                 else match alt
                   case Else(a) => Run(a, st1, fuel)
                   case NoElse => Outcome(st1, None);
        AdvancesTrans(st, st1, o.st);
        o
    case Do(w, body) => if w.Some? then Loop(w.value, body, st, fuel) else Run(body, st, fuel)
    case Repeat(w, body) => if w.Some? then Loop(w.value, body, st, fuel) else Outcome(st, Some(RepeatWithoutWhile))
    case While(test, body) => Loop(test, body, st, fuel)
  }

  /** `execBlock`: the statements in order, up to the first that throws. */
  function Run(body: seq<Stmt>, st: State, fuel: nat): (o: Outcome)
    ensures Advances(st, o.st)
    decreases fuel, body, 0
  {
    if body == [] then Outcome(st, None)
    else
      var first := Exec(body[0], st, fuel);
      if first.thrown.Some? then first
      else
        var o := Run(body[1..], first.st, fuel);
        AdvancesTrans(st, first.st, o.st);
        o
  }

  /** `while (truthy(evalExpr(test, env))) execBlock(body, env)`, with at most
      `fuel` passes. */
  function Loop(test: Ast.Expr, body: seq<Stmt>, st: State, fuel: nat): (o: Outcome)
    ensures Advances(st, o.st)
    decreases fuel, body, 1
  {
    var ev := Eval(test, st.vars);
    var st1 := Emit(st, ev.out);
    if ev.result.Err? then Outcome(st1, Some(ev.result.msg))
    else if !Truthy(ev.result.value) then Outcome(st1, None)
    else if fuel == 0 then Outcome(st1, Some(OutOfFuel))
    else
      var pass := Run(body, st1, fuel);
      AdvancesTrans(st, st1, pass.st);
      if pass.thrown.Some? then pass
      else
        var o := Loop(test, body, pass.st, fuel - 1);
        AdvancesTrans(st, pass.st, o.st);
        o
  }

  /** One pass of a loop whose test holds: the body runs, and unless it
      throws the loop goes on from the state it leaves with one pass less. */
  lemma LoopPass(test: Ast.Expr, body: seq<Stmt>, st: State, fuel: nat)
    requires var ev := Eval(test, st.vars); ev.result.Ok? && Truthy(ev.result.value) && fuel > 0
    ensures var pass := Run(body, st.(outputs := st.outputs + Eval(test, st.vars).out), fuel);
      Loop(test, body, st, fuel) == if pass.thrown.Some? then pass else Loop(test, body, pass.st, fuel - 1)
  {
  }

  /** A loop whose test throws, is falsy, or finds no fuel left stops at once,
      after the test's output. */
  lemma LoopStop(test: Ast.Expr, body: seq<Stmt>, st: State, fuel: nat)
    requires var ev := Eval(test, st.vars); !(ev.result.Ok? && Truthy(ev.result.value) && fuel > 0)
    ensures var ev := Eval(test, st.vars);
      Loop(test, body, st, fuel)
      == Outcome(st.(outputs := st.outputs + ev.out),
                 if ev.result.Err? then Some(ev.result.msg)
                 else if fuel == 0 && Truthy(ev.result.value) then Some(OutOfFuel) else None)
  {
  }

  // ------------------------------------------------------------ properties

  /** `+` joins two strings; without a string operand it is numeric
      addition of `Number(l)` and `Number(r)`. */
  lemma PlusJoinsOrAdds(l: Value, r: Value)
    ensures l.Str? && r.Str? ==> BinaryValue("+", l, r) == Ok(Str(l.s + r.s))
    ensures !l.Str? && !r.Str? ==> BinaryValue("+", l, r) == BinaryValue("+", Num(ToNumber(l)), Num(ToNumber(r)))
  {
    if l.Str? && r.Str? {
      PlusJoins(l, r);
    } else if !l.Str? && !r.Str? {
      PlusAdds(l, r);
    }
  }

  /** `-` subtracts the operands' numbers. */
  lemma MinusSubtracts(l: Value, r: Value)
    ensures BinaryValue("-", l, r) == Ok(Num(NumSub(ToNumber(l), ToNumber(r))))
  {
    assert "-" != "+";
  }

  /** With a string operand `+` joins the operands' string forms. */
  lemma PlusJoins(l: Value, r: Value)
    requires l.Str? || r.Str?
    ensures BinaryValue("+", l, r) == Ok(Str(ToStr(l) + ToStr(r)))
  {
  }

  /** Without a string operand `+` adds the operands' numbers. */
  lemma PlusAdds(l: Value, r: Value)
    requires !l.Str? && !r.Str?
    ensures BinaryValue("+", l, r) == Ok(Num(NumAdd(ToNumber(l), ToNumber(r))))
    ensures BinaryValue("+", Num(ToNumber(l)), Num(ToNumber(r))) == Ok(Num(NumAdd(ToNumber(l), ToNumber(r))))
  {
    var x, y := ToNumber(l), ToNumber(r);
    assert BinaryValue("+", l, r) == Ok(Num(NumAdd(x, y)));
    assert ToNumber(Num(x)) == x && ToNumber(Num(y)) == y;
  }

  /** `-`, `*` and `/` coerce both operands to numbers, strings included. */
  lemma ArithmeticCoerces(op: string, l: Value, r: Value)
    requires op in {"-", "*", "/"}
    ensures BinaryValue(op, l, r) == BinaryValue(op, Num(ToNumber(l)), Num(ToNumber(r)))
  {
    assert op != "+" by { assert op[0] != '+'; }
    assert ToNumber(Num(ToNumber(l))) == ToNumber(l);
    assert ToNumber(Num(ToNumber(r))) == ToNumber(r);
  }

  /** A string plus an integer appends the integer's digits (`"1" + 2` is
      `"12"`). */
  lemma StringPlusInteger(s: string, n: nat)
    ensures BinaryValue("+", Str(s), Int(n)) == Ok(Str(s + NatToString(n)))
  {
    PlusJoins(Str(s), Int(n));
    IntegerStringRoundTrip(n);
  }

  /** A string of digits minus an integer is numeric subtraction (`"3" - 1`
      is 2). */
  lemma DigitsMinusInteger(m: nat, n: nat)
    ensures BinaryValue("-", Str(NatToString(m)), Int(n)) == Ok(Num(Fin(m as real - n as real)))
  {
    MinusSubtracts(Str(NatToString(m)), Int(n));
    IntegerStringRoundTrip(m);
    assert ToNumber(Str(NatToString(m))) == Fin(m as real);
    assert ToNumber(Int(n)) == Fin(n as real);
  }

  /** When the left side of AND is falsy, or the left side of OR truthy,
      the right side is not evaluated: whatever it is (even an expression
      that throws or prints), the result is `false` or `true` and the output
      is the left side's. */
  lemma ShortCircuit(op: string, left: Ast.Expr, right1: Ast.Expr, right2: Ast.Expr, vars: Vars)
    requires op in {"AND", "OR"}
    requires var l := Eval(left, vars); l.result.Ok? && (Truthy(l.result.value) <==> op == "OR")
    ensures Eval(Ast.Logical(op, left, right1), vars) == Eval(Ast.Logical(op, left, right2), vars)
    ensures Eval(Ast.Logical(op, left, right1), vars) == Evaluated(Ok(Bool(op == "OR")), Eval(left, vars).out)
  {
  }

  /** Otherwise AND and OR are the boolean connectives on `truthy` of
      both sides, and the output is the left side's followed by the right
      side's. */
  lemma LogicalConnectives(op: string, left: Ast.Expr, right: Ast.Expr, vars: Vars)
    requires op in {"AND", "OR"}
    requires Eval(left, vars).result.Ok? && Eval(right, vars).result.Ok?
    ensures var a := Truthy(Eval(left, vars).result.value);
            var b := Truthy(Eval(right, vars).result.value);
            var r := Eval(Ast.Logical(op, left, right), vars);
            r.result == Ok(Bool(if op == "AND" then a && b else a || b))
            && r.out == if (op == "AND") == a then Eval(left, vars).out + Eval(right, vars).out else Eval(left, vars).out
  {
  }

  /** The legacy calls are a subset of the modular built-in table and agree
      with it: UPPER, LOWER, LENGTH, INT and FLOAT give the same value, and
      PRINT the same line; every name the modular table rejects, the legacy
      evaluator rejects with the same message (and it also rejects INTEGER,
      STRING, MONTH and ENTRY). */
  lemma CallsAgreeWithBuiltins(h: Builtins.Helpers, name: string, args: seq<Value>, f: Runtime.Frame)
    ensures CallValue(name, args).result.Ok? ==> Builtins.EvaluateBuiltin(h, name, args, f).Ok?
    ensures CallValue(name, args).result.Ok? ==>
      CallValue(name, args).result.value == Builtins.EvaluateBuiltin(h, name, args, f).value.value
    ensures name == "PRINT" && f.output.Some? ==>
      Builtins.EvaluateBuiltin(h, name, args, f).value.frame.output == Some(f.output.value + [Runtime.Line(PrintLine(args))])
    ensures Builtins.EvaluateBuiltin(h, name, args, f).Err? ==>
      CallValue(name, args).result == Err(Builtins.EvaluateBuiltin(h, name, args, f).msg)
  {
  }

  /** DISPLAY shows an unset variable as an empty line, because `join`
      prints `null` as nothing, while the evaluator's `PRINT` call node
      shows it as `null`. That node is never built from program text: a
      `PRINT x.` statement is a DISPLAY, and `PRINT(x)` in an expression is
      rejected by the parser (GrammarProps.PrintNotAnExpression). */
  lemma DisplayShowsNullAsBlank(name: string, st: State, fuel: nat)
    requires name !in st.vars
    ensures Exec(Display([Ast.Var(name)]), st, fuel) == Outcome(st.(outputs := st.outputs + [""]), None)
    ensures Eval(Ast.Call("PRINT", [Ast.Var(name)]), st.vars) == Evaluated(Ok(Null), ["null"])
  {
    var items := [Ast.Var(name)];
    assert items[1..] == [];
    assert Eval(items[0], st.vars) == Evaluated(Ok(Null), []);
    assert EvalList(items[1..], st.vars) == EvaluatedList(Ok([]), []);
    assert [Null] + [] == [Null];
    assert EvalList(items, st.vars) == EvaluatedList(Ok([Null]), []);
    assert seq(1, k requires 0 <= k < 1 => JoinForm([Null][k])) == [""];
    assert DisplayLine([Null]) == "";
    assert seq(1, k requires 0 <= k < 1 => ToStr([Null][k])) == ["null"];
    assert PrintLine([Null]) == "null";
  }

  /** DO without WHILE runs its body once; DO WHILE, REPEAT WHILE and WHILE
      are the same loop; REPEAT without WHILE throws before doing anything. */
  lemma LoopForms(w: Ast.Expr, body: seq<Stmt>, st: State, fuel: nat)
    ensures Exec(Do(None, body), st, fuel) == Run(body, st, fuel)
    ensures Exec(Do(Some(w), body), st, fuel) == Exec(While(w, body), st, fuel) == Exec(Repeat(Some(w), body), st, fuel)
    ensures Exec(Repeat(None, body), st, fuel) == Outcome(st, Some(RepeatWithoutWhile))
  {
  }

  /** The test is evaluated before the first pass: a loop whose test is
      falsy at the start never runs its body. */
  lemma TestBeforeFirstPass(test: Ast.Expr, body: seq<Stmt>, st: State, fuel: nat)
    requires var ev := Eval(test, st.vars); ev.result.Ok? && !Truthy(ev.result.value)
    ensures Exec(While(test, body), st, fuel) == Outcome(st.(outputs := st.outputs + Eval(test, st.vars).out), None)
  {
  }

  /** A loop that ends without an error ends because its test evaluated to a
      falsy value on the final variables. */
  lemma {:induction false} LoopEndsOnFalse(test: Ast.Expr, body: seq<Stmt>, st: State, fuel: nat)
    requires Loop(test, body, st, fuel).thrown.None?
    ensures var vars := Loop(test, body, st, fuel).st.vars;
            Eval(test, vars).result.Ok? && !Truthy(Eval(test, vars).result.value)
    decreases fuel
  {
    var ev := Eval(test, st.vars);
    if ev.result.Ok? && Truthy(ev.result.value) && fuel > 0 {
      var pass := Run(body, st.(outputs := st.outputs + ev.out), fuel);
      LoopEndsOnFalse(test, body, pass.st, fuel - 1);
    }
  }

  /** INPUT statements for distinct names, one after another. */
  function Inputs(ids: seq<string>): (r: seq<Stmt>)
    ensures |r| == |ids|
  {
    seq(|ids|, k requires 0 <= k < |ids| => Input(ids[k]))
  }

  function Min(a: nat, b: nat): nat { if a <= b then a else b }

  /** One INPUT of a run of them: it never throws, and the rest of the run
      goes on from the state it leaves. */
  lemma InputsUnroll(ids: seq<string>, st: State, fuel: nat)
    requires ids != []
    ensures Exec(Input(ids[0]), st, fuel).thrown.None?
    ensures Exec(Input(ids[0]), st, fuel).st.outputs == st.outputs
    ensures Exec(Input(ids[0]), st, fuel).st.inputs == if st.inputs != [] then st.inputs[1..] else []
    ensures Run(Inputs(ids), st, fuel) == Run(Inputs(ids[1..]), Exec(Input(ids[0]), st, fuel).st, fuel)
  {
    assert Inputs(ids)[0] == Input(ids[0]);
    assert Inputs(ids)[1..] == Inputs(ids[1..]);
  }

  /** A run of INPUTs never throws or outputs, and drops as many queued
      values as there are INPUTs, or all of them. */
  lemma {:induction false} InputsQueue(ids: seq<string>, st: State, fuel: nat)
    ensures var o := Run(Inputs(ids), st, fuel);
      o.thrown.None? && o.st.outputs == st.outputs && o.st.inputs == st.inputs[Min(|ids|, |st.inputs|)..]
    decreases |ids|
  {
    if ids != [] {
      var first := Exec(Input(ids[0]), st, fuel).st;
      InputsUnroll(ids, st, fuel);
      InputsQueue(ids[1..], first, fuel);
      var q, q1 := st.inputs, first.inputs;
      assert q[Min(|ids|, |q|)..] == q1[Min(|ids| - 1, |q1|)..];
    }
  }

  /** In a run of INPUTs for distinct names, the k-th binds the k-th queued
      value, or `null` past the end of the queue. */
  lemma {:induction false} InputsBind(ids: seq<string>, st: State, fuel: nat)
    requires forall a, b | 0 <= a < b < |ids| :: ids[a] != ids[b]
    ensures var o := Run(Inputs(ids), st, fuel);
      forall k | 0 <= k < |ids| :: ids[k] in o.st.vars && o.st.vars[ids[k]] == if k < |st.inputs| then st.inputs[k] else Null
    decreases |ids|
  {
    if ids != [] {
      var first := Exec(Input(ids[0]), st, fuel).st;
      InputsUnroll(ids, st, fuel);
      InputsBind(ids[1..], first, fuel);
      InputsKeep(ids[1..], first, fuel);
      var o := Run(Inputs(ids), st, fuel);
      forall k | 0 <= k < |ids|
        ensures ids[k] in o.st.vars && o.st.vars[ids[k]] == if k < |st.inputs| then st.inputs[k] else Null
      {
        if k == 0 {
          assert ids[0] !in ids[1..];
        } else {
          assert ids[k] == ids[1..][k - 1];
        }
      }
    }
  }

  /** A run of INPUTs leaves every variable it does not name as it was. */
  lemma {:induction false} InputsKeep(ids: seq<string>, st: State, fuel: nat)
    ensures var o := Run(Inputs(ids), st, fuel);
      forall x | x in st.vars && x !in ids :: x in o.st.vars && o.st.vars[x] == st.vars[x]
    decreases |ids|
  {
    if ids != [] {
      var first := Exec(Input(ids[0]), st, fuel).st;
      InputsUnroll(ids, st, fuel);
      InputsKeep(ids[1..], first, fuel);
      forall x | x in st.vars && x !in ids
        ensures x in first.vars && first.vars[x] == st.vars[x] && x !in ids[1..]
      {
      }
    }
  }

  /** INPUT takes values from the front of the queue in order, and binds
      `null` once the queue is empty: the k-th INPUT binds the k-th queued
      value; nothing is output and other variables keep their values. */
  lemma {:induction false} InputsInOrder(ids: seq<string>, st: State, fuel: nat)
    requires forall a, b | 0 <= a < b < |ids| :: ids[a] != ids[b]
    ensures var o := Run(Inputs(ids), st, fuel);
      o.thrown.None? && o.st.outputs == st.outputs && o.st.inputs == st.inputs[Min(|ids|, |st.inputs|)..]
      && (forall k | 0 <= k < |ids| :: ids[k] in o.st.vars && o.st.vars[ids[k]] == if k < |st.inputs| then st.inputs[k] else Null)
      && (forall x | x in st.vars && x !in ids :: x in o.st.vars && o.st.vars[x] == st.vars[x])
  {
    InputsQueue(ids, st, fuel);
    InputsBind(ids, st, fuel);
    InputsKeep(ids, st, fuel);
  }

  /** With the queue empty, INPUT binds `null` and changes nothing else. */
  lemma EmptyQueueBindsNull(id: string, st: State, fuel: nat)
    requires st.inputs == []
    ensures Exec(Input(id), st, fuel) == Outcome(st.(vars := st.vars[id := Null]), None)
  {
  }

  // ---------------------------------------------------------- interpret4GL

  /** What `interpret4GL` returns: the output lines, the final variables and
      input queue (the `env`), and the program. */
  datatype Finished = Finished(output: seq<string>, vars: Vars, inputs: seq<Value>, ast: seq<Stmt>)

  /** `interpret4GL(source, {inputs})`: tokenize, parse, run the program
      from empty variables on a copy of the inputs; a lexing, parsing or
      runtime error is thrown. */
  function Interpret(source: string, inputs: seq<Value>, fuel: nat): (r: Result<Finished>)
    ensures r.Ok? ==> Lex(Legacy, source).Ok?
    ensures r.Ok? ==> Suffix(inputs, r.value.inputs)
  {
    var tokens :- Lex(Legacy, source);
    LexWellTyped(Legacy, source);
    var ast :- ParseProgram(tokens);
    var o := Run(ast, State(map[], inputs, []), fuel);
    if o.thrown.Some? then Err(o.thrown.value)
    else Ok(Finished(o.st.outputs, o.st.vars, o.st.inputs, ast))
  }

  /** The environment object of `interpret4GL`. */
  class Env {
    var vars: Vars
    var inputs: seq<Value>
    var outputs: seq<string>

    function Current(): State
      reads this
    {
      State(vars, inputs, outputs)
    }

    /** `{vars: Object.create(null), inputs: [...queue], output}`. */
    constructor (queue: seq<Value>)
      ensures Current() == State(map[], queue, [])
    {
      vars := map[];
      inputs := queue;
      outputs := [];
    }

    /** `execStmt`. */
    method ExecStmt(s: Stmt, fuel: nat) returns (thrown: Option<string>)
      modifies this
      ensures Outcome(Current(), thrown) == Exec(s, old(Current()), fuel)
      decreases fuel, s, 0
    {
      match s
      case Empty =>
        thrown := None;
      case Assign(id, value) =>
        var ev := Eval(value, vars);
        outputs := outputs + ev.out;
        if ev.result.Err? {
          return Some(ev.result.msg);
        }
        vars := vars[id := ev.result.value];
        thrown := None;
      case Display(items) =>
        var ev := EvalList(items, vars);
        outputs := outputs + ev.out;
        if ev.result.Err? {
          return Some(ev.result.msg);
        }
        outputs := outputs + [DisplayLine(ev.result.value)];
        thrown := None;
      case Input(id) =>
        var v := Null;
        if inputs != [] {
          v := inputs[0];
          inputs := inputs[1..];
        }
        vars := vars[id := v];
        thrown := None;
      case If(test, cons, alt) =>
        var ev := Eval(test, vars);
        outputs := outputs + ev.out;
        if ev.result.Err? {
          return Some(ev.result.msg);
        }
        if Truthy(ev.result.value) {
          thrown := ExecBlock(cons, fuel);
        } else {
          match alt
          case Else(a) =>
            thrown := ExecBlock(a, fuel);
          case NoElse =>
            thrown := None;
        }
      case Do(w, body) =>
        if w.Some? {
          thrown := RunLoop(w.value, body, fuel);
        } else {
          thrown := ExecBlock(body, fuel);
        }
      case Repeat(w, body) =>
        if w.Some? {
          thrown := RunLoop(w.value, body, fuel);
        } else {
          thrown := Some(RepeatWithoutWhile);
        }
      case While(test, body) =>
        thrown := RunLoop(test, body, fuel);
    }

    /** `execBlock`. */
    method ExecBlock(body: seq<Stmt>, fuel: nat) returns (thrown: Option<string>)
      modifies this
      ensures Outcome(Current(), thrown) == Run(body, old(Current()), fuel)
      decreases fuel, body, 0
    {
      for k := 0 to |body|
        invariant Run(body, old(Current()), fuel) == Run(body[k..], Current(), fuel)
      {
        assert body[k..][0] == body[k] && body[k..][1..] == body[k + 1..];
        thrown := ExecStmt(body[k], fuel);
        if thrown.Some? {
          return;
        }
      }
      thrown := None;
    }

    /** The `while` loops of DO WHILE, REPEAT WHILE and WHILE. */
    method RunLoop(test: Ast.Expr, body: seq<Stmt>, fuel: nat) returns (thrown: Option<string>)
      modifies this
      ensures Outcome(Current(), thrown) == Loop(test, body, old(Current()), fuel)
      decreases fuel, body, 2
    {
      ghost var whole := Loop(test, body, Current(), fuel);
      var left: nat := fuel;
      while true
        invariant left <= fuel
        invariant whole == Loop(test, body, Current(), left)
        decreases left
      {
        var stop;
        stop, thrown := LoopStep(test, body, left);
        if stop {
          return;
        }
        left := left - 1;
      }
    }

    /** One test of the loop and, when it holds, one pass of the body: either
        the loop is over, with the state and exception `Loop` gives, or it goes
        on from the new state with one pass less. */
    method LoopStep(test: Ast.Expr, body: seq<Stmt>, left: nat) returns (stop: bool, thrown: Option<string>)
      modifies this
      ensures stop ==> Outcome(Current(), thrown) == Loop(test, body, old(Current()), left)
      ensures !stop ==> left > 0 && Loop(test, body, old(Current()), left) == Loop(test, body, Current(), left - 1)
      decreases left, body, 1
    {
      ghost var before := Current();
      var ev := Eval(test, vars);
      outputs := outputs + ev.out;
      if ev.result.Err? || !Truthy(ev.result.value) || left == 0 {
        LoopStop(test, body, before, left);
        thrown := if ev.result.Err? then Some(ev.result.msg) else if left == 0 && Truthy(ev.result.value) then Some(OutOfFuel) else None;
        return true, thrown;
      }
      ghost var st1 := Current();
      assert st1 == before.(outputs := before.outputs + Eval(test, before.vars).out);
      LoopPass(test, body, before, left);
      thrown := ExecBlock(body, left);
      stop := thrown.Some?;
    }
  }

  /** `interpret4GL`. The caller's input array is copied into the new
      environment and is not changed. */
  method Interpret4GL(source: string, inputs: array?<Value>, fuel: nat) returns (r: Result<Finished>)
    ensures r == Interpret(source, if inputs == null then [] else inputs[..], fuel)
    ensures inputs != null ==> inputs[..] == old(inputs[..])
  {
    var tokens :- Tokenize(Legacy, source);
    LexWellTyped(Legacy, source);
    var p := new Parser(tokens, Legacy, None);
    var ast :- Program(p);
    var queue := if inputs == null then [] else inputs[..];
    var env := new Env(queue);
    var thrown := env.ExecBlock(ast, fuel);
    if thrown.Some? {
      return Err(thrown.value);
    }
    r := Ok(Finished(env.outputs, env.vars, env.inputs, ast));
  }
}
