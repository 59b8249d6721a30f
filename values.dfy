/** JavaScript values as the interpreter sees them, with the coercions that the
    evaluator and the built-ins apply: ToBoolean, Number(), String(),
    parseFloat, parseInt, loose equality and relational comparison. Numbers are
    exact rationals extended with NaN and the two infinities. */
module Values {
  import opened Results
  import opened Text

  /** A JavaScript number: a finite value, NaN, or an infinity (`neg` for -Infinity). */
  datatype JsNum = Fin(x: real) | NaN | Inf(neg: bool)

  /** Host objects: a record fetched from the store, a widget registry entry (an
      alias: the variable and the registry see the same object), and a value
      flagged `__mini4glWidget` by the runtime. */
  datatype ObjRef = RowRef(id: nat) | EntryRef(key: string) | WidgetHandle(id: nat)

  datatype Value = Null | Bool(b: bool) | Num(n: JsNum) | Str(s: string) | Obj(ref: ObjRef)

  function Int(i: int): Value { Num(Fin(i as real)) }

  /** `!!v`: the falsy values are false, 0, NaN, '' and null. */
  predicate ToBoolean(v: Value) {
    match v
    case Null => false
    case Bool(b) => b
    case Num(n) => !(n.NaN? || n == Fin(0.0))
    case Str(s) => s != ""
    case Obj(_) => true
  }

  /** `truthy` of the evaluator: a string is truthy iff it is non-empty, any other
      value iff `!!v`. */
  predicate Truthy(v: Value) {
    if v.Str? then |v.s| > 0 else ToBoolean(v)
  }

  /** The string rule of `truthy` agrees with JavaScript's own ToBoolean, so the
      evaluator's `truthy` is ToBoolean on every value. */
  lemma TruthyIsToBoolean(v: Value)
    ensures Truthy(v) == ToBoolean(v)
  {
  }

  // ---------------------------------------------------------------- arithmetic

  function NumNeg(a: JsNum): JsNum {
    match a
    case Fin(x) => Fin(-x)
    case NaN => NaN
    case Inf(n) => Inf(!n)
  }

  function NumAdd(a: JsNum, b: JsNum): JsNum {
    match (a, b)
    case (NaN, _) => NaN
    case (_, NaN) => NaN
    case (Inf(m), Inf(n)) => if m == n then Inf(m) else NaN
    case (Inf(m), _) => Inf(m)
    case (_, Inf(n)) => Inf(n)
    case (Fin(x), Fin(y)) => Fin(x + y)
  }

  function NumSub(a: JsNum, b: JsNum): JsNum { NumAdd(a, NumNeg(b)) }

  /** The sign of a non-NaN operand, for the sign of infinite products and quotients. */
  predicate Negative(a: JsNum) { (a.Fin? && a.x < 0.0) || (a.Inf? && a.neg) }

  function NumMul(a: JsNum, b: JsNum): JsNum {
    match (a, b)
    case (NaN, _) => NaN
    case (_, NaN) => NaN
    case (Fin(x), Fin(y)) => Fin(x * y)
    case _ =>
      if a == Fin(0.0) || b == Fin(0.0) then NaN else Inf(Negative(a) != Negative(b))
  }

  function NumDiv(a: JsNum, b: JsNum): JsNum {
    match (a, b)
    case (NaN, _) => NaN
    case (_, NaN) => NaN
    case (Inf(_), Inf(_)) => NaN
    case (Fin(_), Inf(_)) => Fin(0.0)
    case (Inf(_), Fin(_)) => Inf(Negative(a) != Negative(b))
    case (Fin(x), Fin(y)) =>
      if y != 0.0 then Fin(x / y)
      else if x == 0.0 then NaN
      else Inf(x < 0.0)
  }

  // ----------------------------------------------------- decimal digit strings

  function Pow10(n: nat): (r: nat) ensures r >= 1 {
    if n == 0 then 1 else 10 * Pow10(n - 1)
  }

  predicate AllDigits(s: string) { forall k :: 0 <= k < |s| ==> IsDigit(s[k]) }

  function DigitsValue(s: string): nat
    requires AllDigits(s)
  {
    if s == [] then 0 else DigitsValue(s[..|s| - 1]) * 10 + (s[|s| - 1] as int - '0' as int)
  }

  /** The number of digits at the start of `s`. */
  function LeadingDigits(s: string): (r: nat)
    ensures r <= |s| && AllDigits(s[..r]) && (r < |s| ==> !IsDigit(s[r]))
  {
    if |s| > 0 && IsDigit(s[0]) then
      var r := 1 + LeadingDigits(s[1..]);
      assert s[..r] == [s[0]] + s[1..][..r - 1];
      r
    else 0
  }

  /** A prefix read as an unsigned decimal: its value and its length. */
  datatype Scanned = Scanned(value: real, len: nat)

  /** The longest prefix of `s` of the form `digits [. digits]` with at least one
      digit, as `parseFloat` reads it (exponents are not read). */
  function UnsignedDecimal(s: string): (r: Option<Scanned>)
    ensures r.Some? ==> 0 < r.value.len <= |s| && r.value.value >= 0.0
  {
    var a := LeadingDigits(s);
    var whole := DigitsValue(s[..a]) as real;
    if a < |s| && s[a] == '.' then
      var b := LeadingDigits(s[a + 1..]);
      if a + b == 0 then None
      else Some(Scanned(whole + DigitsValue(s[a + 1..][..b]) as real / Pow10(b) as real, a + 1 + b))
    else if a == 0 then None
    else Some(Scanned(whole, a))
  }

  /** A leading sign: whether it is `-`, and how many characters it takes. */
  function SignOf(s: string): (bool, nat) {
    if |s| > 0 && s[0] == '-' then (true, 1)
    else if |s| > 0 && s[0] == '+' then (false, 1)
    else (false, 0)
  }

  function Signed(neg: bool, x: real): JsNum { if neg then Fin(-x) else Fin(x) }

  /** `parseFloat(s)`: leading white space, an optional sign, then `Infinity` or
      the longest decimal prefix; NaN when there is none. */
  function ParseFloat(s: string): JsNum {
    var t := TrimStart(s);
    var (neg, k) := SignOf(t);
    var rest := t[k..];
    if |rest| >= 8 && rest[..8] == "Infinity" then Inf(neg)
    else match UnsignedDecimal(rest)
      case None => NaN
      case Some(d) => Signed(neg, d.value)
  }

  /** Text that starts like a number literal reads as a finite, non-negative number. */
  lemma ParseFloatUnsigned(s: string)
    requires |s| > 0 && (IsDigit(s[0]) || (s[0] == '.' && |s| > 1 && IsDigit(s[1])))
    ensures ParseFloat(s).Fin? && ParseFloat(s).x >= 0.0
  {
    assert !IsSpace(s[0]);
    assert TrimStart(s) == s;
    assert s[0..] == s;
    if s[0] == '.' {
      assert LeadingDigits(s) == 0;
      assert LeadingDigits(s[1..]) >= 1;
    } else {
      assert LeadingDigits(s) >= 1;
    }
  }

  /** `parseInt(s, 10)`: leading white space, an optional sign, then at least one digit. */
  function ParseInt(s: string): JsNum {
    var t := TrimStart(s);
    var (neg, k) := SignOf(t);
    var rest := t[k..];
    var a := LeadingDigits(rest);
    if a == 0 then NaN else Signed(neg, DigitsValue(rest[..a]) as real)
  }

  /** `Number(s)` for a string: blank is 0; otherwise the whole trimmed text must be
      a signed decimal or a signed `Infinity`, else NaN. */
  function StringToNumber(s: string): JsNum {
    var t := Trim(s);
    if t == "" then Fin(0.0)
    else
      var (neg, k) := SignOf(t);
      var rest := t[k..];
      if rest == "Infinity" then Inf(neg)
      else match UnsignedDecimal(rest)
        case Some(d) => if d.len == |rest| then Signed(neg, d.value) else NaN
        case None => NaN
  }

  /** `Number(v)`. */
  function ToNumber(v: Value): JsNum {
    match v
    case Null => Fin(0.0)
    case Bool(b) => if b then Fin(1.0) else Fin(0.0)
    case Num(n) => n
    case Str(s) => StringToNumber(s)
    case Obj(_) => NaN
  }

  // ------------------------------------------------------------ to string

  /** Up to `k` further decimal digits of a fraction in [0, 1), stopping when it is exhausted. */
  function FractionDigits(f: real, k: nat): string
    requires 0.0 <= f < 1.0
    decreases k
  {
    if k == 0 || f == 0.0 then ""
    else
      var t := f * 10.0;
      var d := t.Floor;
      [DigitChar(d)] + FractionDigits(t - d as real, k - 1)
  }

  function UnsignedRealToString(x: real): string
    requires x >= 0.0
  {
    var whole := x.Floor;
    var f := x - whole as real;
    NatToString(whole) + (if f == 0.0 then "" else "." + FractionDigits(f, 17))
  }

  /** `String(n)` for a number, in plain decimal notation. */
  function NumberToString(n: JsNum): string {
    match n
    case NaN => "NaN"
    case Inf(neg) => if neg then "-Infinity" else "Infinity"
    case Fin(x) => if x < 0.0 then "-" + UnsignedRealToString(-x) else UnsignedRealToString(x)
  }

  /** `String(v)`. */
  function ToStr(v: Value): string {
    match v
    case Null => "null"
    case Bool(b) => if b then "true" else "false"
    case Num(n) => NumberToString(n)
    case Str(s) => s
    case Obj(_) => "[object Object]"
  }

  /** Integers print as their decimal digits, and reading those digits back with
      `Number` gives the integer again. */
  lemma {:induction false} IntegerStringRoundTrip(i: nat)
    ensures NumberToString(Fin(i as real)) == NatToString(i)
    ensures StringToNumber(NatToString(i)) == Fin(i as real)
  {
    var s := NatToString(i);
    assert (i as real).Floor == i;
    NatDigitsValue(i);
    assert s[0] != '-' && s[0] != '+';
    assert SignOf(s) == (false, 0);
    assert s[0..] == s;
    NoSpaceInDigits(s);
    assert LeadingDigits(s) == |s| by { AllDigitsLeading(s); }
    assert s[..|s|] == s;
  }

  lemma {:induction false} NatDigitsValue(n: nat)
    ensures AllDigits(NatToString(n)) && DigitsValue(NatToString(n)) == n
  {
    if n >= 10 {
      NatDigitsValue(n / 10);
      var s := NatToString(n);
      assert s[..|s| - 1] == NatToString(n / 10);
    }
  }

  lemma {:induction false} AllDigitsLeading(s: string)
    requires AllDigits(s)
    ensures LeadingDigits(s) == |s|
    decreases |s|
  {
    if |s| > 0 { AllDigitsLeading(s[1..]); }
  }

  lemma NoSpaceInDigits(s: string)
    requires AllDigits(s) && |s| > 0
    ensures Trim(s) == s
  {
    assert !IsSpace(s[0]) && !IsSpace(s[|s| - 1]);
  }

  // ------------------------------------------------------------ comparison

  /** Numeric equality: NaN equals nothing. */
  predicate NumEq(a: JsNum, b: JsNum) { !a.NaN? && !b.NaN? && a == b }

  function Rank(v: Value): nat { if v.Bool? then 2 else if v.Obj? then 1 else 0 }

  /** Loose equality `a == b` (undefined is not a value of the model). */
  predicate LooseEquals(a: Value, b: Value)
    decreases Rank(a) + Rank(b)
  {
    match (a, b)
    case (Null, Null) => true
    case (Null, _) => false
    case (_, Null) => false
    case (Num(m), Num(n)) => NumEq(m, n)
    case (Str(s), Str(t)) => s == t
    case (Bool(c), Bool(d)) => c == d
    case (Obj(p), Obj(q)) => p == q
    case (Num(m), Str(t)) => NumEq(m, StringToNumber(t))
    case (Str(s), Num(n)) => NumEq(StringToNumber(s), n)
    case (Bool(_), _) => LooseEquals(Num(ToNumber(a)), b)
    case (_, Bool(_)) => LooseEquals(a, Num(ToNumber(b)))
    case (Obj(_), _) => LooseEquals(Str(ToStr(a)), b)
    case (_, Obj(_)) => LooseEquals(a, Str(ToStr(b)))
  }

  /** Lexicographic order of strings by Unicode scalar value: a proper
      prefix is smaller. */
  predicate StrLess(a: string, b: string) {
    if |a| == 0 then |b| > 0
    else if |b| == 0 then false
    else if a[0] != b[0] then a[0] < b[0]
    else StrLess(a[1..], b[1..])
  }

  /** `a < b` on numbers; None when either is NaN (the "undefined" outcome). */
  function NumLess(a: JsNum, b: JsNum): Option<bool> {
    match (a, b)
    case (NaN, _) => None
    case (_, NaN) => None
    case (Fin(x), Fin(y)) => Some(x < y)
    case (Inf(m), Inf(n)) => Some(m && !n)
    case (Inf(m), Fin(_)) => Some(m)
    case (Fin(_), Inf(n)) => Some(!n)
  }

  /** ToPrimitive: objects become the string `[object Object]`. */
  function ToPrimitive(v: Value): Value { if v.Obj? then Str(ToStr(v)) else v }

  /** The abstract relational comparison `a < b`: strings by `StrLess`, anything
      else by Number(); None stands for the NaN outcome. */
  function LessThan(a: Value, b: Value): Option<bool> {
    var pa := ToPrimitive(a);
    var pb := ToPrimitive(b);
    if pa.Str? && pb.Str? then Some(StrLess(pa.s, pb.s))
    else NumLess(ToNumber(pa), ToNumber(pb))
  }

  predicate Lt(a: Value, b: Value) { LessThan(a, b) == Some(true) }
  predicate Gt(a: Value, b: Value) { LessThan(b, a) == Some(true) }
  predicate Le(a: Value, b: Value) { LessThan(b, a) == Some(false) }
  predicate Ge(a: Value, b: Value) { LessThan(a, b) == Some(false) }

  /** On two finite numbers the four relational operators are the usual order. */
  lemma RelationalOnNumbers(x: real, y: real)
    ensures Lt(Num(Fin(x)), Num(Fin(y))) <==> x < y
    ensures Le(Num(Fin(x)), Num(Fin(y))) <==> x <= y
    ensures Gt(Num(Fin(x)), Num(Fin(y))) <==> x > y
    ensures Ge(Num(Fin(x)), Num(Fin(y))) <==> x >= y
  {
  }

  /** NaN compares false under every relational operator and is not loosely equal to itself. */
  lemma NaNComparesFalse(v: Value)
    ensures !Lt(Num(NaN), v) && !Le(Num(NaN), v) && !Gt(Num(NaN), v) && !Ge(Num(NaN), v)
    ensures !LooseEquals(Num(NaN), Num(NaN))
  {
  }
}
