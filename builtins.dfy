/** The built-in function table of the modular runtime: `evaluateBuiltin`
    applied to a function name and the already evaluated arguments. The
    date and number-formatting helpers it is created with are taken as given
    functions. */
module Builtins {
  import opened Results
  import opened Text
  import opened Values
  import opened Runtime

  /** `getUTCMonth()`: January is 0. */
  type MonthIndex = m: int | 0 <= m < 12

  /** A date as `parse4GLDate` returns it. */
  datatype UtcDate = UtcDate(year: int, month: MonthIndex, day: int)

  /** The helpers `createBuiltinEvaluator` receives. An absent argument is
      `None` (JavaScript's `undefined`); `formatTimeFromSeconds` answers
      `None` when it does not apply to the value. */
  datatype Helpers = Helpers(
    formatDisplayValue: (Value, Value) -> string,
    formatTimeFromSeconds: (Value, Value) -> Option<string>,
    parse4GLDate: Option<Value> -> Option<UtcDate>,
    toIntegerValue: Option<Value> -> Value)

  /** `args[k]`, or `undefined` past the end. */
  function Arg(args: seq<Value>, k: nat): Option<Value> {
    if k < |args| then Some(args[k]) else None
  }

  /** `String(v ?? '')`: `null` and `undefined` read as the empty string. */
  function TextOr(v: Option<Value>): (r: string)
    ensures v.None? || v == Some(Null) ==> r == ""
    ensures v.Some? && v.value.Str? ==> r == v.value.s
  {
    if v.None? || v == Some(Null) then "" else ToStr(v.value)
  }

  /** `Number(v)`, where `undefined` is NaN. */
  function NumberOf(v: Option<Value>): JsNum {
    if v.None? then NaN else ToNumber(v.value)
  }

  // -------------------------------------------------------------- STRING

  /** STRING(source[, format]). Without a format (absent or `null`), `null`
      and `undefined` give `''` and any other value `String(value)`; with a
      format, the time formatter when it applies, else the display formatter. */
  function StringOf(h: Helpers, args: seq<Value>): (r: string)
    ensures Arg(args, 1) in {None, Some(Null)} ==> r == TextOr(Arg(args, 0))
  {
    var source := Arg(args, 0);
    var format := if |args| >= 2 then args[1] else Null;
    if format == Null then
      if source.None? || source == Some(Null) then "" else ToStr(source.value)
    else
      var timed := h.formatTimeFromSeconds(source.value, format);
      if timed.Some? then timed.value else h.formatDisplayValue(source.value, format)
  }

  // --------------------------------------------------------------- ENTRY

  /** The delimiter of ENTRY: `,` when the third argument is absent, `null` or
      `''`, else its string form. */
  function Delimiter(args: seq<Value>): (r: string)
    ensures |r| > 0
    ensures Arg(args, 2) in {None, Some(Null), Some(Str(""))} ==> r == ","
  {
    var d := if |args| >= 3 then args[2] else Null;
    if d == Null || d == Str("") then ","
    else
      var t := ToStr(d);
      if t == "" then "," else t
  }

  /** The pieces of the list: `['']` for an empty string, the split otherwise. */
  function Entries(list: string, delimiter: string): (r: seq<string>)
    requires |delimiter| > 0
    ensures |r| >= 1
  {
    if |list| > 0 then Split(list, delimiter) else [""]
  }

  /** ENTRY(index, list[, delimiter]): the trimmed element at the 1-based
      index `Math.trunc(Number(index))`, or `''` for an index that is not
      finite, below 1 or past the end. The truncation of a number is below 1
      exactly when the number is, and from 1 on it is the floor. */
  function Entry(args: seq<Value>): (r: string)
    ensures !NumberOf(Arg(args, 0)).Fin? || NumberOf(Arg(args, 0)).x < 1.0 ==> r == ""
  {
    var idx := NumberOf(Arg(args, 0));
    if !idx.Fin? || idx.x < 1.0 then ""
    else
      var entries := Entries(TextOr(Arg(args, 1)), Delimiter(args));
      var k := idx.x.Floor;
      if k - 1 < |entries| then Trim(entries[k - 1]) else ""
  }

  // -------------------------------------------------------------- the table

  /** The value a built-in call returns and the environment's output after it. */
  datatype Called = Called(value: Value, frame: Frame)

  function UnknownFunction(name: string): string { "Unknown function " + name }

  /** `evaluateBuiltin(name, args, env)`: only PRINT touches the environment. */
  function EvaluateBuiltin(h: Helpers, name: string, args: seq<Value>, f: Frame): (r: Result<Called>)
    ensures r.Err? <==> name !in {"UPPER", "LOWER", "LENGTH", "INT", "INTEGER", "FLOAT", "STRING", "MONTH", "ENTRY", "PRINT"}
    ensures r.Err? ==> r.msg == UnknownFunction(name)
    ensures r.Ok? && name != "PRINT" ==> r.value.frame == f
  {
    match name
    case "UPPER" => Ok(Called(Str(Upper(TextOr(Arg(args, 0)))), f))
    case "LOWER" => Ok(Called(Str(Lower(TextOr(Arg(args, 0)))), f))
    case "LENGTH" => Ok(Called(Int(|TextOr(Arg(args, 0))|), f))
    case "INT" => Ok(Called(Num(ParseInt(TextOr(Some(if |args| > 0 && args[0] != Null then args[0] else Int(0))))), f))
    case "INTEGER" => Ok(Called(h.toIntegerValue(Arg(args, 0)), f))
    case "FLOAT" => Ok(Called(Num(ParseFloat(TextOr(Some(if |args| > 0 && args[0] != Null then args[0] else Int(0))))), f))
    case "STRING" => Ok(Called(Str(StringOf(h, args)), f))
    case "MONTH" =>
      var date := h.parse4GLDate(Arg(args, 0));
      Ok(Called(if date.Some? then Int(date.value.month + 1) else Null, f))
    case "ENTRY" => Ok(Called(Str(Entry(args)), f))
    case "PRINT" =>
      var line := Join(seq(|args|, k requires 0 <= k < |args| => ToStr(args[k])), " ");
      Ok(Called(Null, if f.output.Some? then f.(output := Some(f.output.value + [Line(line)])) else f))
    case _ => Err(UnknownFunction(name))
  }

  // ------------------------------------------------------------ properties

  /** UPPER, LOWER and LENGTH read a `null` or missing argument as `''`. */
  lemma NullIsEmptyText(h: Helpers, name: string, args: seq<Value>, f: Frame)
    requires name in {"UPPER", "LOWER", "LENGTH"}
    requires args == [] || args[0] == Null
    ensures EvaluateBuiltin(h, name, args, f) == Ok(Called(if name == "LENGTH" then Int(0) else Str(""), f))
  {
    assert TextOr(Arg(args, 0)) == "";
  }

  /** LENGTH of a string argument is its number of characters, and UPPER and
      LOWER keep that length. */
  lemma CaseKeepsLength(h: Helpers, s: string, f: Frame)
    ensures var n := EvaluateBuiltin(h, "LENGTH", [Str(s)], f).value.value;
      n == Int(|s|)
      && EvaluateBuiltin(h, "LENGTH", [EvaluateBuiltin(h, "UPPER", [Str(s)], f).value.value], f).value.value == n
      && EvaluateBuiltin(h, "LENGTH", [EvaluateBuiltin(h, "LOWER", [Str(s)], f).value.value], f).value.value == n
  {
  }

  /** MONTH is `null` or a month number from 1 to 12. */
  lemma MonthNumber(h: Helpers, args: seq<Value>, f: Frame)
    ensures var m := EvaluateBuiltin(h, "MONTH", args, f).value.value;
      m == Null || (m.Num? && m.n.Fin? && 1.0 <= m.n.x <= 12.0)
  {
  }

  /** PRINT returns `null` and adds exactly one line, the string forms of the
      arguments joined by single spaces, when the environment has an output;
      without one it changes nothing. */
  lemma PrintOneLine(h: Helpers, args: seq<Value>, f: Frame)
    ensures var r := EvaluateBuiltin(h, "PRINT", args, f).value;
      r.value == Null
      && (f.output.None? ==> r.frame == f)
      && (f.output.Some? ==>
            r.frame.output.Some? && |r.frame.output.value| == |f.output.value| + 1
            && r.frame.output.value[..|f.output.value|] == f.output.value
            && r.frame.output.value[|f.output.value|] == Line(Join(seq(|args|, k requires 0 <= k < |args| => ToStr(args[k])), " "))
            && r.frame.(output := f.output) == f)
  {
  }

  /** The delimiter defaults to `,`, so leaving out the third argument and
      passing `null` or `''` select the same element. */
  lemma EntryDefaultDelimiter(index: Value, list: Value, d: Value)
    requires d in {Null, Str("")}
    ensures Entry([index, list]) == Entry([index, list, d]) == Entry([index, list, Str(",")])
  {
    EntryDependsOnArgs([index, list], [index, list, d]);
    EntryDependsOnArgs([index, list], [index, list, Str(",")]);
  }

  /** ENTRY reads only the index, the list and the delimiter. */
  lemma EntryDependsOnArgs(a: seq<Value>, b: seq<Value>)
    requires Arg(a, 0) == Arg(b, 0) && Arg(a, 1) == Arg(b, 1) && Delimiter(a) == Delimiter(b)
    ensures Entry(a) == Entry(b)
  {
  }

  /** The ENTRY calls of the project's own test: the second element of
      `alpha,beta,gamma` with the default delimiter, the third of `a|b|c`
      with `|`, and an index past the end of `x,y,z`. */
  lemma EntryDefaultList(list: string)
    requires list == "alpha,beta,gamma"
    ensures Entry([Int(2), Str(list)]) == "beta"
  {
    var parts := ["alpha", "beta", "gamma"];
    assert Join(parts[2..], ",") == "gamma";
    assert Join(parts[1..], ",") == "beta,gamma";
    assert Join(parts, ",") == list;
    assert Trim(parts[1]) == "beta" by { TrimFixed(parts[1]); }
    assert Entry([Int(2), Str(list)] + []) == Trim(parts[1]) by { EntrySelects(parts, ',', list, 2, []); }
    assert [Int(2), Str(list)] + [] == [Int(2), Str(list)];
  }

  lemma EntryPipeList(list: string)
    requires list == "a|b|c"
    ensures Entry([Int(3), Str(list), Str("|")]) == "c"
  {
    var parts := ["a", "b", "c"];
    assert Join(parts[2..], "|") == "c";
    assert Join(parts[1..], "|") == "b|c";
    assert Join(parts, "|") == list;
    assert Trim(parts[2]) == "c" by { TrimFixed(parts[2]); }
    assert Entry([Int(3), Str(list)] + [Str("|")]) == Trim(parts[2]) by { EntrySelects(parts, '|', list, 3, [Str("|")]); }
    assert [Int(3), Str(list)] + [Str("|")] == [Int(3), Str(list), Str("|")];
  }

  lemma EntryPastEnd(list: string)
    requires list == "x,y,z"
    ensures Entry([Int(5), Str(list)]) == ""
  {
    var parts := ["x", "y", "z"];
    assert Join(parts[2..], ",") == "z";
    assert Join(parts[1..], ",") == "y,z";
    assert Join(parts, ",") == list;
    EntrySelects(parts, ',', list, 5, []);
  }

  /** For a list built by joining pieces with a one-character delimiter that
      none of them contains (passed as the third argument, or left out when
      it is the comma), ENTRY(k) is the k-th piece trimmed, for every k from
      1 to the number of pieces, and `''` after the last. */
  lemma EntrySelects(parts: seq<string>, d: char, list: string, k: nat, rest: seq<Value>)
    requires |parts| >= 1 && forall p :: p in parts ==> d !in p
    requires list == Join(parts, [d]) && list != "" && k >= 1
    requires (rest == [] && d == ',') || rest == [Str([d])]
    ensures var r := Entry([Int(k), Str(list)] + rest);
      (k <= |parts| ==> r == Trim(parts[k - 1])) && (k > |parts| ==> r == "")
  {
    var args := [Int(k), Str(list)] + rest;
    assert Arg(args, 0) == Some(Int(k)) && Arg(args, 1) == Some(Str(list));
    assert Delimiter(args) == [d] by {
      if rest != [] {
        assert args[2] == Str([d]);
      }
    }
    SplitJoin(parts, [d]);
    EntryAtIndex(args, k, parts);
  }

  /** ENTRY at a whole index `k >= 1` of a list whose pieces are `entries`. */
  lemma EntryAtIndex(args: seq<Value>, k: nat, entries: seq<string>)
    requires k >= 1 && NumberOf(Arg(args, 0)) == Fin(k as real)
    requires Entries(TextOr(Arg(args, 1)), Delimiter(args)) == entries
    ensures Entry(args) == if k <= |entries| then Trim(entries[k - 1]) else ""
  {
    var x := NumberOf(Arg(args, 0)).x;
    assert x.Floor == k && !(x < 1.0);
  }

  /** A name that is not in the table throws `Unknown function <name>`. */
  lemma UnknownNameThrows(h: Helpers, args: seq<Value>, f: Frame)
    ensures EvaluateBuiltin(h, "SUBSTRING", args, f) == Err(UnknownFunction("SUBSTRING"))
  {
  }

  /** STRING without a format: `''` for `null` and a missing value, the
      string itself for a string, and `String(v)` for numbers and booleans. */
  lemma StringWithoutFormat(h: Helpers, v: Value)
    ensures StringOf(h, []) == "" && StringOf(h, [Null]) == "" && StringOf(h, [Null, Null]) == ""
    ensures v != Null ==> StringOf(h, [v]) == ToStr(v) && StringOf(h, [v, Null]) == ToStr(v)
  {
  }
}
