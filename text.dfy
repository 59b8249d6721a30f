/** Character classes and the string operations of JavaScript that the
    interpreter relies on: the `\s` class, ASCII case mapping, `trim`, `split`
    and `join`, and decimal rendering of integers. */
module Text {
  import opened Results

  /** The characters matched by the regular expression `\s` (and removed by
      `String.prototype.trim`): white space and line terminators. */
  predicate IsSpace(c: char) {
    c == ' ' || c == '\t' || c == '\n' || c == '\U{B}' || c == '\U{C}' || c == '\r'
    || c == '\U{A0}' || c == '\U{1680}' || ('\U{2000}' <= c <= '\U{200A}')
    || c == '\U{2028}' || c == '\U{2029}' || c == '\U{202F}' || c == '\U{205F}'
    || c == '\U{3000}' || c == '\U{FEFF}'
  }

  /** `/[A-Za-z_]/`, `/[0-9]/` and `/[A-Za-z0-9_]/` of the lexers. */
  predicate IsAlpha(c: char) { ('A' <= c <= 'Z') || ('a' <= c <= 'z') || c == '_' }
  predicate IsDigit(c: char) { '0' <= c <= '9' }
  predicate IsAlnum(c: char) { IsAlpha(c) || IsDigit(c) }

  function UpperChar(c: char): char { if 'a' <= c <= 'z' then (c as int - 32) as char else c }
  function LowerChar(c: char): char { if 'A' <= c <= 'Z' then (c as int + 32) as char else c }

  /** `toUpperCase` / `toLowerCase`, restricted to the ASCII letters. */
  function Upper(s: string): (r: string)
    ensures |r| == |s|
  {
    seq(|s|, k requires 0 <= k < |s| => UpperChar(s[k]))
  }

  function Lower(s: string): (r: string)
    ensures |r| == |s|
  {
    seq(|s|, k requires 0 <= k < |s| => LowerChar(s[k]))
  }

  /** No lower-case letter is left after upper-casing: each one becomes its
      capital, and every other character is kept. */
  lemma UpperCases(s: string)
    ensures forall k :: 0 <= k < |s| ==> !('a' <= Upper(s)[k] <= 'z')
    ensures forall k :: 0 <= k < |s| && !('a' <= s[k] <= 'z') ==> Upper(s)[k] == s[k]
    ensures forall k :: 0 <= k < |s| && 'a' <= s[k] <= 'z' ==>
      'A' <= Upper(s)[k] <= 'Z' && Upper(s)[k] as int + 32 == s[k] as int
  {
  }

  /** No capital is left after lower-casing: each one becomes its lower-case
      letter, and every other character is kept. */
  lemma LowerCases(s: string)
    ensures forall k :: 0 <= k < |s| ==> !('A' <= Lower(s)[k] <= 'Z')
    ensures forall k :: 0 <= k < |s| && !('A' <= s[k] <= 'Z') ==> Lower(s)[k] == s[k]
    ensures forall k :: 0 <= k < |s| && 'A' <= s[k] <= 'Z' ==>
      'a' <= Lower(s)[k] <= 'z' && Lower(s)[k] as int == s[k] as int + 32
  {
  }

  /** Upper-casing is idempotent: a spelling that is already upper case stays put. */
  lemma UpperIdempotent(s: string)
    ensures Upper(Upper(s)) == Upper(s)
  {
    assert forall k :: 0 <= k < |s| ==> UpperChar(UpperChar(s[k])) == UpperChar(s[k]);
  }

  /** Lower-casing forgets an earlier upper-casing: both spellings of a word
      have the same lower-case form. */
  lemma LowerOfUpper(s: string)
    ensures Lower(Upper(s)) == Lower(s)
  {
    assert forall k :: 0 <= k < |s| ==> LowerChar(UpperChar(s[k])) == LowerChar(s[k]);
  }

  function TrimStart(s: string): (r: string)
    ensures |r| <= |s|
    ensures |r| > 0 ==> !IsSpace(r[0])
  {
    if |s| > 0 && IsSpace(s[0]) then TrimStart(s[1..]) else s
  }

  /** `TrimStart` removes exactly the white space at the front. */
  lemma {:induction false} TrimStartDrops(s: string)
    ensures var r := TrimStart(s); r == s[|s| - |r|..]
    ensures forall k :: 0 <= k < |s| - |TrimStart(s)| ==> IsSpace(s[k])
    decreases |s|
  {
    if |s| > 0 && IsSpace(s[0]) {
      TrimStartDrops(s[1..]);
      var r := TrimStart(s);
      assert s[1..][|s| - 1 - |r|..] == s[|s| - |r|..];
      forall k | 0 <= k < |s| - |r|
        ensures IsSpace(s[k])
      {
        if k > 0 {
          assert s[k] == s[1..][k - 1];
        }
      }
    }
  }

  function TrimEnd(s: string): (r: string)
    ensures |r| <= |s|
    ensures |r| > 0 ==> !IsSpace(r[|r| - 1])
  {
    if |s| > 0 && IsSpace(s[|s| - 1]) then TrimEnd(s[..|s| - 1]) else s
  }

  /** `TrimEnd` removes exactly the white space at the back. */
  lemma {:induction false} TrimEndTakes(s: string)
    ensures var r := TrimEnd(s); r == s[..|r|]
    ensures forall k :: |TrimEnd(s)| <= k < |s| ==> IsSpace(s[k])
    decreases |s|
  {
    if |s| > 0 && IsSpace(s[|s| - 1]) {
      var init := s[..|s| - 1];
      TrimEndTakes(init);
      var r := TrimEnd(s);
      assert init[..|r|] == s[..|r|];
      forall k | |r| <= k < |s|
        ensures IsSpace(s[k])
      {
        if k < |s| - 1 {
          assert s[k] == init[k];
        }
      }
    }
  }

  /** `String.prototype.trim`. */
  function Trim(s: string): string { TrimEnd(TrimStart(s)) }

  predicate IsBlank(s: string) { forall k :: 0 <= k < |s| ==> IsSpace(s[k]) }

  lemma {:induction false} BlankTrimStart(s: string)
    requires IsBlank(s)
    ensures TrimStart(s) == ""
    decreases |s|
  {
    if |s| > 0 { BlankTrimStart(s[1..]); }
  }

  /** A string trims to the empty string exactly when it is all white space,
      which is how the event and title checks read `!String(x).trim()`. */
  lemma TrimEmptyIffBlank(s: string)
    ensures Trim(s) == "" <==> IsBlank(s)
  {
    var t := TrimStart(s);
    if IsBlank(s) {
      BlankTrimStart(s);
    }
    if Trim(s) == "" {
      TrimStartDrops(s);
      TrimEndTakes(t);
      assert |t| == 0;
    }
  }

  /** A string whose ends are not white space is its own trim. */
  lemma TrimFixed(s: string)
    requires |s| > 0 ==> !IsSpace(s[0]) && !IsSpace(s[|s| - 1])
    ensures Trim(s) == s
  {
    assert TrimStart(s) == s;
  }

  /** Trimming twice trims no further. */
  lemma TrimIdempotent(s: string)
    ensures Trim(Trim(s)) == Trim(s)
  {
    var t := Trim(s);
    TrimEndTakes(TrimStart(s));
    if |t| > 0 {
      assert TrimStart(t) == t;
      assert TrimEnd(t) == t;
    } else {
      assert TrimStart(t) == "";
    }
  }

  /** `d` occurs in `s` at offset `k`. */
  predicate OccursAt(s: string, d: string, k: nat) {
    k + |d| <= |s| && s[k..k + |d|] == d
  }

  /** The first offset at or after `from` where `d` occurs in `s`. */
  function FindFrom(s: string, d: string, from: nat): (r: Option<nat>)
    requires |d| > 0
    ensures r.Some? ==> from <= r.value && OccursAt(s, d, r.value)
    ensures r.Some? ==> forall k :: from <= k < r.value ==> !OccursAt(s, d, k)
    ensures r.None? ==> forall k :: from <= k ==> !OccursAt(s, d, k)
    decreases |s| - from
  {
    if from + |d| > |s| then None
    else if s[from..from + |d|] == d then Some(from)
    else FindFrom(s, d, from + 1)
  }

  /** `s.split(d)` for a non-empty separator: the pieces between the
      left-most non-overlapping occurrences of `d`. */
  function Split(s: string, d: string): (r: seq<string>)
    requires |d| > 0
    ensures |r| >= 1
    decreases |s|
  {
    match FindFrom(s, d, 0)
    case None => [s]
    case Some(k) => [s[..k]] + Split(s[k + |d|..], d)
  }

  /** `parts.join(sep)`. */
  function Join(parts: seq<string>, sep: string): string {
    if |parts| == 0 then ""
    else if |parts| == 1 then parts[0]
    else parts[0] + sep + Join(parts[1..], sep)
  }

  /** Splitting a join of pieces that do not contain the one-character separator
      gives the pieces back, which is what makes ENTRY(k, list) select the k-th
      element of a list built with that delimiter. */
  lemma {:induction false} SplitJoin(parts: seq<string>, d: string)
    requires |d| == 1 && |parts| >= 1
    requires forall p :: p in parts ==> d[0] !in p
    ensures Split(Join(parts, d), d) == parts
    decreases |parts|
  {
    var p := parts[0];
    if |parts| == 1 {
      NoSeparator(p, d, 0);
    } else {
      var rest := Join(parts[1..], d);
      var s := p + d + rest;
      assert Join(parts, d) == s;
      forall k | 0 <= k < |p| ensures !OccursAt(s, d, k) {
        assert s[k..k + 1][0] == p[k];
      }
      assert s[|p|..|p| + |d|] == d;
      FindFromFirst(s, d, 0, |p|);
      assert s[..|p|] == p;
      assert s[|p| + |d|..] == rest;
      SplitJoin(parts[1..], d);
    }
  }

  lemma {:induction false} NoSeparator(p: string, d: string, from: nat)
    requires |d| == 1 && d[0] !in p
    ensures FindFrom(p, d, from).None?
    decreases |p| - from
  {
    if from + 1 <= |p| {
      assert p[from..from + 1][0] == p[from];
      NoSeparator(p, d, from + 1);
    }
  }

  lemma {:induction false} FindFromFirst(s: string, d: string, from: nat, k: nat)
    requires |d| > 0 && from <= k && OccursAt(s, d, k)
    requires forall j :: from <= j < k ==> !OccursAt(s, d, j)
    ensures FindFrom(s, d, from) == Some(k)
    decreases k - from
  {
    if from < k { FindFromFirst(s, d, from + 1, k); }
  }

  function DigitChar(d: nat): char requires d < 10 { ('0' as int + d) as char }

  /** Decimal rendering of a natural number without leading zeros. */
  function NatToString(n: nat): (r: string)
    ensures |r| >= 1 && forall k :: 0 <= k < |r| ==> IsDigit(r[k])
  {
    if n < 10 then [DigitChar(n)] else NatToString(n / 10) + [DigitChar(n % 10)]
  }

  function IntToString(i: int): string {
    if i < 0 then "-" + NatToString(-i) else NatToString(i)
  }
}
