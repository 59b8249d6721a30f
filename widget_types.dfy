/** The widget type names that DEFINE and CREATE accept, and the reader that
    recognises one (possibly hyphenated) type name at the parser's cursor. */
module WidgetTypes {
  import opened Results
  import opened Text
  import opened Tokens
  import opened Grammar
  import opened ParserCore

  /** A widget type name and the token parts that spell it; `-` is the operator. */
  datatype Pattern = Pattern(name: string, parts: seq<string>)

  const RawPatterns: seq<Pattern> := [
    Pattern("SELECTION-LIST", ["SELECTION", "-", "LIST"]),
    Pattern("SHADOW-WINDOW", ["SHADOW", "-", "WINDOW"]),
    Pattern("SUB-MENU", ["SUB", "-", "MENU"]),
    Pattern("MENU-ITEM", ["MENU", "-", "ITEM"]),
    Pattern("CONTROL-FRAME", ["CONTROL", "-", "FRAME"]),
    Pattern("DIALOG-BOX", ["DIALOG", "-", "BOX"]),
    Pattern("FIELD-GROUP", ["FIELD", "-", "GROUP"]),
    Pattern("COMBO-BOX", ["COMBO", "-", "BOX"]),
    Pattern("TOGGLE-BOX", ["TOGGLE", "-", "BOX"]),
    Pattern("RADIO-SET", ["RADIO", "-", "SET"]),
    Pattern("FILL-IN", ["FILL", "-", "IN"]),
    Pattern("WINDOW", ["WINDOW"]),
    Pattern("TEXT", ["TEXT"]),
    Pattern("SLIDER", ["SLIDER"]),
    Pattern("RECTANGLE", ["RECTANGLE"]),
    Pattern("MENU", ["MENU"]),
    Pattern("LITERAL", ["LITERAL"]),
    Pattern("IMAGE", ["IMAGE"]),
    Pattern("FRAME", ["FRAME"]),
    Pattern("EDITOR", ["EDITOR"]),
    Pattern("BUTTON", ["BUTTON"]),
    Pattern("BROWSE", ["BROWSE"])
  ]

  // ------------------------------------------------------ de-duplication

  /** The patterns of `ps` whose name is neither in `seen` nor taken by an
      earlier pattern of `ps`, in order. */
  function Dedup(ps: seq<Pattern>, seen: set<string>): seq<Pattern>
    decreases |ps|
  {
    if ps == [] then []
    else if ps[0].name in seen then Dedup(ps[1..], seen)
    else [ps[0]] + Dedup(ps[1..], seen + {ps[0].name})
  }

  /** The module-load loop that fills `UNIQUE_PATTERNS` through the `seen` set. */
  method DedupPatterns(raw: seq<Pattern>) returns (unique: seq<Pattern>)
    ensures unique == Dedup(raw, {})
  {
    unique := [];
    var seen: set<string> := {};
    var k := 0;
    while k < |raw|
      invariant 0 <= k <= |raw|
      invariant unique + Dedup(raw[k..], seen) == Dedup(raw, {})
    {
      assert raw[k..][1..] == raw[k + 1..];
      if raw[k].name !in seen {
        seen := seen + {raw[k].name};
        unique := unique + [raw[k]];
      }
      k := k + 1;
    }
  }

  predicate DistinctNames(ps: seq<Pattern>) {
    forall a, b :: 0 <= a < b < |ps| ==> ps[a].name != ps[b].name
  }

  function Names(ps: seq<Pattern>): set<string> {
    set p | p in ps :: p.name
  }

  /** Whether `p` is the first pattern of `ps` with its name. */
  predicate FirstOfName(ps: seq<Pattern>, p: Pattern) {
    exists j :: 0 <= j < |ps| && ps[j] == p && forall j' :: 0 <= j' < j ==> ps[j'].name != p.name
  }

  /** De-duplication keeps exactly one pattern per name not in `seen`, and that
      one is the first pattern of the input with the name. */
  lemma DedupKeepsFirst(ps: seq<Pattern>, seen: set<string>)
    ensures DistinctNames(Dedup(ps, seen))
    ensures Names(Dedup(ps, seen)) == Names(ps) - seen
    ensures forall p :: p in Dedup(ps, seen) ==> FirstOfName(ps, p)
  {
    DedupDistinct(ps, seen);
    DedupNames(ps, seen);
    DedupFirst(ps, seen);
  }

  /** The names of a non-empty list are its head's and its tail's. */
  lemma NamesCons(ps: seq<Pattern>)
    requires ps != []
    ensures Names(ps) == {ps[0].name} + Names(ps[1..])
  {
    assert forall p :: p in ps <==> p == ps[0] || p in ps[1..];
  }

  /** De-duplication keeps the names not in `seen`. */
  lemma {:induction false} DedupNames(ps: seq<Pattern>, seen: set<string>)
    ensures Names(Dedup(ps, seen)) == Names(ps) - seen
    decreases |ps|
  {
    if ps != [] {
      NamesCons(ps);
      if ps[0].name in seen {
        DedupNames(ps[1..], seen);
      } else {
        var rest := Dedup(ps[1..], seen + {ps[0].name});
        DedupNames(ps[1..], seen + {ps[0].name});
        assert Dedup(ps, seen) == [ps[0]] + rest;
        NamesCons([ps[0]] + rest);
        assert ([ps[0]] + rest)[1..] == rest;
      }
    }
  }

  /** De-duplication leaves no name twice. */
  lemma {:induction false} DedupDistinct(ps: seq<Pattern>, seen: set<string>)
    ensures DistinctNames(Dedup(ps, seen))
    decreases |ps|
  {
    if ps != [] {
      if ps[0].name in seen {
        DedupDistinct(ps[1..], seen);
      } else {
        var rest := Dedup(ps[1..], seen + {ps[0].name});
        DedupDistinct(ps[1..], seen + {ps[0].name});
        DedupNames(ps[1..], seen + {ps[0].name});
        var d := Dedup(ps, seen);
        assert d == [ps[0]] + rest;
        forall a, b | 0 <= a < b < |d| ensures d[a].name != d[b].name {
          if a == 0 {
            assert d[b] == rest[b - 1];
            assert rest[b - 1] in rest;
            assert rest[b - 1].name in Names(rest);
          } else {
            assert d[a] == rest[a - 1] && d[b] == rest[b - 1];
          }
        }
      }
    }
  }

  /** Every pattern de-duplication keeps is the first of the input with its name. */
  lemma {:induction false} DedupFirst(ps: seq<Pattern>, seen: set<string>)
    ensures forall p :: p in Dedup(ps, seen) ==> FirstOfName(ps, p)
    decreases |ps|
  {
    if ps != [] {
      var seen' := if ps[0].name in seen then seen else seen + {ps[0].name};
      var rest := Dedup(ps[1..], seen');
      DedupFirst(ps[1..], seen');
      DedupNames(ps[1..], seen');
      forall p | p in Dedup(ps, seen) ensures FirstOfName(ps, p) {
        if ps[0].name !in seen && p == ps[0] {
          assert ps[0] == p;
        } else {
          assert p in rest;
          FirstOfTail(ps, p);
        }
      }
    }
  }

  /** The first pattern of the tail with a name the head does not have is
      the first of the whole list with it. */
  lemma FirstOfTail(ps: seq<Pattern>, p: Pattern)
    requires ps != [] && FirstOfName(ps[1..], p) && p.name != ps[0].name
    ensures FirstOfName(ps, p)
  {
    var j :| 0 <= j < |ps[1..]| && ps[1..][j] == p && forall j' :: 0 <= j' < j ==> ps[1..][j'].name != p.name;
    assert ps[j + 1] == p;
    forall j' | 0 <= j' < j + 1 ensures ps[j'].name != p.name {
      if j' > 0 { assert ps[j'] == ps[1..][j' - 1]; }
    }
  }

  /** No name of `ps` is in `seen` or repeated. */
  predicate FreshNames(ps: seq<Pattern>, seen: set<string>)
    decreases |ps|
  {
    ps == [] || (ps[0].name !in seen && FreshNames(ps[1..], seen + {ps[0].name}))
  }

  /** A list whose names are already distinct passes through unchanged. */
  lemma {:induction false} DedupFresh(ps: seq<Pattern>, seen: set<string>)
    requires FreshNames(ps, seen)
    ensures Dedup(ps, seen) == ps
    decreases |ps|
  {
    if ps != [] {
      DedupFresh(ps[1..], seen + {ps[0].name});
    }
  }

  // --------------------------------------------------------------- sorting

  function Len(p: Pattern): nat { |p.parts| }

  /** Non-increasing token count. */
  predicate SortedByLength(ps: seq<Pattern>) {
    forall a, b :: 0 <= a < b < |ps| ==> Len(ps[a]) >= Len(ps[b])
  }

  /** Places `p` after every pattern at least as long, and before the first shorter one. */
  function InsertByLength(s: seq<Pattern>, p: Pattern): seq<Pattern>
    decreases |s|
  {
    if s == [] then [p]
    else if Len(s[0]) < Len(p) then [p] + s
    else [s[0]] + InsertByLength(s[1..], p)
  }

  /** `sort((a, b) => b.tokens.length - a.tokens.length)`; the sort of
      ECMAScript is stable, which this insertion sort is too. */
  function SortByLength(ps: seq<Pattern>): seq<Pattern>
    decreases |ps|
  {
    if ps == [] then [] else InsertByLength(SortByLength(ps[..|ps| - 1]), ps[|ps| - 1])
  }

  /** The patterns of length `n`, in order. */
  function OfLength(ps: seq<Pattern>, n: nat): seq<Pattern>
    decreases |ps|
  {
    if ps == [] then [] else (if Len(ps[0]) == n then [ps[0]] else []) + OfLength(ps[1..], n)
  }

  lemma {:induction false} OfLengthAppend(a: seq<Pattern>, b: seq<Pattern>, n: nat)
    ensures OfLength(a + b, n) == OfLength(a, n) + OfLength(b, n)
    decreases |a|
  {
    if a == [] {
      assert a + b == b;
    } else {
      OfLengthAppend(a[1..], b, n);
      var h := if Len(a[0]) == n then [a[0]] else [];
      assert (a + b)[0] == a[0] && (a + b)[1..] == a[1..] + b;
      assert OfLength(a + b, n) == h + OfLength(a[1..] + b, n);
      assert h + (OfLength(a[1..], n) + OfLength(b, n)) == (h + OfLength(a[1..], n)) + OfLength(b, n);
    }
  }

  lemma {:induction false} OfLengthShorter(s: seq<Pattern>, n: nat)
    requires forall k :: 0 <= k < |s| ==> Len(s[k]) < n
    ensures OfLength(s, n) == []
    decreases |s|
  {
    if s != [] {
      OfLengthShorter(s[1..], n);
    }
  }

  lemma {:induction false} SortedTail(s: seq<Pattern>)
    requires s != [] && SortedByLength(s)
    ensures SortedByLength(s[1..])
    ensures forall k :: 0 <= k < |s[1..]| ==> Len(s[1..][k]) <= Len(s[0])
  {
    forall a, b | 0 <= a < b < |s[1..]| ensures Len(s[1..][a]) >= Len(s[1..][b]) {
      assert s[1..][a] == s[a + 1] && s[1..][b] == s[b + 1];
    }
    forall k | 0 <= k < |s[1..]| ensures Len(s[1..][k]) <= Len(s[0]) {
      assert s[1..][k] == s[k + 1];
    }
  }

  lemma {:induction false} InsertMultiset(s: seq<Pattern>, p: Pattern)
    ensures multiset(InsertByLength(s, p)) == multiset(s) + multiset{p}
    decreases |s|
  {
    if s != [] && Len(s[0]) >= Len(p) {
      InsertMultiset(s[1..], p);
      assert s == [s[0]] + s[1..];
    }
  }

  /** Every pattern of the result is `p` or one of `s`, and its length is bounded
      by the larger of the two heads. */
  lemma {:induction false} InsertSorted(s: seq<Pattern>, p: Pattern)
    requires SortedByLength(s)
    ensures SortedByLength(InsertByLength(s, p))
    ensures InsertByLength(s, p) != []
    ensures InsertByLength(s, p)[0] == if s != [] && Len(s[0]) >= Len(p) then s[0] else p
    decreases |s|
  {
    var r := InsertByLength(s, p);
    if s == [] {
    } else if Len(s[0]) < Len(p) {
      forall a, b | 0 <= a < b < |r| ensures Len(r[a]) >= Len(r[b]) {
        if a == 0 { assert r[b] == s[b - 1]; } else { assert r[a] == s[a - 1] && r[b] == s[b - 1]; }
      }
    } else {
      SortedTail(s);
      InsertSorted(s[1..], p);
      var tail := InsertByLength(s[1..], p);
      assert r == [s[0]] + tail;
      assert Len(tail[0]) <= Len(s[0]) by {
        if s[1..] != [] && Len(s[1..][0]) >= Len(p) {
          assert tail[0] == s[1..][0];
        }
      }
      forall a, b | 0 <= a < b < |r| ensures Len(r[a]) >= Len(r[b]) {
        if a == 0 {
          assert r[b] == tail[b - 1];
          if b > 1 { assert Len(tail[0]) >= Len(tail[b - 1]); }
        } else {
          assert r[a] == tail[a - 1] && r[b] == tail[b - 1];
        }
      }
    }
  }

  lemma {:induction false} InsertStable(s: seq<Pattern>, p: Pattern, n: nat)
    requires SortedByLength(s)
    ensures OfLength(InsertByLength(s, p), n) ==
      if n == Len(p) then OfLength(s, n) + [p] else OfLength(s, n)
    decreases |s|
  {
    if s == [] {
      OfLengthSingle(p, n);
    } else if Len(s[0]) < Len(p) {
      if n == Len(p) {
        OfLengthShorter(s, n) by {
          forall k | 0 <= k < |s| ensures Len(s[k]) < n {
            if k > 0 { assert Len(s[0]) >= Len(s[k]); }
          }
        }
      }
      OfLengthCons(p, s, n);
    } else {
      SortedTail(s);
      InsertStable(s[1..], p, n);
      var tail := InsertByLength(s[1..], p);
      assert InsertByLength(s, p) == [s[0]] + tail;
      OfLengthCons(s[0], tail, n);
      OfLengthCons(s[0], s[1..], n);
      assert [s[0]] + s[1..] == s;
    }
  }

  /** `OfLength` of a list with a known head. */
  lemma OfLengthCons(x: Pattern, s: seq<Pattern>, n: nat)
    ensures OfLength([x] + s, n) == (if Len(x) == n then [x] else []) + OfLength(s, n)
  {
    assert ([x] + s)[0] == x && ([x] + s)[1..] == s;
  }

  /** `OfLength` of a non-empty list, split before its last pattern. */
  lemma OfLengthLast(ps: seq<Pattern>, n: nat)
    requires ps != []
    ensures OfLength(ps, n) == OfLength(ps[..|ps| - 1], n) + if Len(ps[|ps| - 1]) == n then [ps[|ps| - 1]] else []
  {
    var init, last := ps[..|ps| - 1], ps[|ps| - 1];
    assert ps == init + [last];
    OfLengthSnoc(init, last, n);
  }

  lemma OfLengthSnoc(init: seq<Pattern>, last: Pattern, n: nat)
    ensures OfLength(init + [last], n) == OfLength(init, n) + if Len(last) == n then [last] else []
  {
    OfLengthAppend(init, [last], n);
    OfLengthSingle(last, n);
  }

  lemma OfLengthSingle(x: Pattern, n: nat)
    ensures OfLength([x], n) == if Len(x) == n then [x] else []
  {
    OfLengthCons(x, [], n);
    assert [x] + [] == [x];
  }

  /** The sort orders by descending token count. */
  lemma {:induction false} SortOrders(ps: seq<Pattern>)
    ensures SortedByLength(SortByLength(ps))
    decreases |ps|
  {
    if ps != [] {
      SortOrders(ps[..|ps| - 1]);
      InsertSorted(SortByLength(ps[..|ps| - 1]), ps[|ps| - 1]);
    }
  }

  /** The sort is a permutation. */
  lemma {:induction false} SortPermutes(ps: seq<Pattern>)
    ensures multiset(SortByLength(ps)) == multiset(ps)
    decreases |ps|
  {
    if ps != [] {
      var init, last := ps[..|ps| - 1], ps[|ps| - 1];
      assert SortByLength(ps) == InsertByLength(SortByLength(init), last);
      SortPermutes(init);
      InsertMultiset(SortByLength(init), last);
      assert ps == init + [last];
    }
  }

  /** The sort is stable: the patterns of each length keep their relative order. */
  lemma {:induction false} SortStable(ps: seq<Pattern>, n: nat)
    ensures OfLength(SortByLength(ps), n) == OfLength(ps, n)
    decreases |ps|
  {
    if ps != [] {
      var init, last := ps[..|ps| - 1], ps[|ps| - 1];
      assert SortByLength(ps) == InsertByLength(SortByLength(init), last);
      SortStable(init, n);
      SortOrders(init);
      InsertStable(SortByLength(init), last, n);
      OfLengthLast(ps, n);
    }
  }

  /** Sorting an already sorted list changes nothing. */
  lemma {:induction false} SortSorted(ps: seq<Pattern>)
    requires SortedByLength(ps)
    ensures SortByLength(ps) == ps
    decreases |ps|
  {
    if ps != [] {
      var init := ps[..|ps| - 1];
      assert SortedByLength(init) by {
        forall a, b | 0 <= a < b < |init| ensures Len(init[a]) >= Len(init[b]) {
          assert init[a] == ps[a] && init[b] == ps[b];
        }
      }
      SortSorted(init);
      InsertAtEnd(init, ps[|ps| - 1]);
      assert init + [ps[|ps| - 1]] == ps;
    }
  }

  lemma {:induction false} InsertAtEnd(s: seq<Pattern>, p: Pattern)
    requires forall k :: 0 <= k < |s| ==> Len(s[k]) >= Len(p)
    ensures InsertByLength(s, p) == s + [p]
    decreases |s|
  {
    if s != [] {
      InsertAtEnd(s[1..], p);
      assert s == [s[0]] + s[1..];
    }
  }

  /** `UNIQUE_PATTERNS`. */
  function UniquePatterns(): seq<Pattern> { SortByLength(Dedup(RawPatterns, {})) }

  /** The list the reader tries: ordered by descending token count, with every
      raw name once, each represented by its first raw pattern. */
  lemma UniquePatternsShape()
    ensures SortedByLength(UniquePatterns())
    ensures Names(UniquePatterns()) == Names(RawPatterns)
    ensures forall p :: p in UniquePatterns() ==> FirstOfName(RawPatterns, p)
  {
    var d := Dedup(RawPatterns, {});
    SortOrders(d);
    SortPermutes(d);
    DedupKeepsFirst(RawPatterns, {});
    assert forall p :: p in UniquePatterns() <==> p in d by {
      forall p ensures p in UniquePatterns() <==> p in d {
        assert p in UniquePatterns() <==> p in multiset(UniquePatterns());
        assert p in d <==> p in multiset(d);
      }
    }
    assert Names(UniquePatterns()) == Names(d);
  }

  // ------------------------------------------------------------- matching

  /** `tokenMatchesPart`. */
  predicate TokenMatchesPart(t: Option<Token>, part: string) {
    t.Some? &&
    if part == "-" then IsHyphen(t)
    else (if t.value.kind == IDENT then Upper(TokText(t.value)) else KindName(t.value.kind)) == part
  }

  /** `matchesPattern` on the parts from offset `j` on. */
  predicate MatchesFrom(toks: TokenList, j: nat, parts: seq<string>)
    decreases |parts|
  {
    parts == [] || (TokenMatchesPart(At(toks, j), parts[0]) && MatchesFrom(toks, j + 1, parts[1..]))
  }

  predicate Matches(toks: TokenList, i: nat, p: Pattern) { MatchesFrom(toks, i, p.parts) }

  /** Part `k` matches the token `k` places after `j`. */
  predicate PartMatches(toks: TokenList, j: nat, parts: seq<string>, k: nat)
    requires k < |parts|
  {
    TokenMatchesPart(At(toks, j + k), parts[k])
  }

  predicate AllPartsMatch(toks: TokenList, j: nat, parts: seq<string>) {
    forall k :: 0 <= k < |parts| ==> PartMatches(toks, j, parts, k)
  }

  /** Lookahead matches iff every part matches the token at its offset. */
  lemma {:induction false} MatchesPositionwise(toks: TokenList, j: nat, parts: seq<string>)
    ensures MatchesFrom(toks, j, parts) <==> AllPartsMatch(toks, j, parts)
    decreases |parts|
  {
    if parts != [] {
      var rest := parts[1..];
      var j' := j + 1;
      MatchesPositionwise(toks, j', rest);
      forall k | 0 <= k < |rest|
        ensures PartMatches(toks, j', rest, k) == PartMatches(toks, j, parts, k + 1)
      {
        assert rest[k] == parts[k + 1];
        assert j' + k == j + (k + 1);
      }
      assert PartMatches(toks, j, parts, 0) == TokenMatchesPart(At(toks, j), parts[0]);
      if AllPartsMatch(toks, j, parts) {
        assert AllPartsMatch(toks, j', rest) by {
          forall k | 0 <= k < |rest| ensures PartMatches(toks, j', rest, k) {
            assert PartMatches(toks, j, parts, k + 1);
          }
        }
      }
      if MatchesFrom(toks, j, parts) {
        forall k | 0 <= k < |parts| ensures PartMatches(toks, j, parts, k) {
          if k > 0 { assert PartMatches(toks, j', rest, k - 1); }
        }
      }
    }
  }

  /** `consumePart`: the cursor after one part. */
  function ConsumedPart(toks: TokenList, j: nat, part: string): (r: Result<nat>)
    ensures r.Ok? ==> r.value == j + 1
  {
    if part == "-" then
      var t :- Eat(toks, j, OP);
      if t.value.value != TStr("-") then Err("Expected hyphen in widget type") else Ok(t.next)
    else if j >= |toks| then Err("Unexpected end while reading widget type " + part)
    else if toks[j].kind == IDENT then
      if Upper(TokText(toks[j])) != part then Err("Expected " + part + " in widget type") else Ok(j + 1)
    else if KindName(toks[j].kind) == part then Ok(j + 1)
    else Err("Unexpected token " + KindName(toks[j].kind) + " when reading widget type")
  }

  function ConsumedParts(toks: TokenList, j: nat, parts: seq<string>): Result<nat>
    decreases |parts|
  {
    if parts == [] then Ok(j)
    else
      var n :- ConsumedPart(toks, j, parts[0]);
      ConsumedParts(toks, n, parts[1..])
  }

  /** After a successful lookahead, consuming the parts cannot fail and takes
      exactly one token per part. */
  lemma {:induction false} MatchedConsumes(toks: TokenList, j: nat, parts: seq<string>)
    requires MatchesFrom(toks, j, parts)
    ensures ConsumedParts(toks, j, parts) == Ok(j + |parts|)
    decreases |parts|
  {
    if parts != [] {
      MatchedConsumes(toks, j + 1, parts[1..]);
    }
  }

  /** The first part of a matched pattern is consumed as one token, and the
      rest still matches after it. */
  lemma FirstPartConsumed(toks: TokenList, j: nat, parts: seq<string>)
    requires parts != [] && MatchesFrom(toks, j, parts)
    ensures ConsumedPart(toks, j, parts[0]) == Ok(j + 1) && MatchesFrom(toks, j + 1, parts[1..])
  {
  }

  /** The text after "Unknown widget type near". */
  function Near(toks: TokenList, i: nat): string {
    if i < |toks| then ValueOrType(toks[i]) else "EOF"
  }

  /** The loop of `readWidgetType` over `ps`. */
  function WidgetTypeFrom(toks: TokenList, i: nat, ps: seq<Pattern>): (r: Result<Parsed<string>>)
    ensures r.Ok? <==> exists k :: 0 <= k < |ps| && Matches(toks, i, ps[k])
    ensures r.Ok? ==>
      (exists k :: 0 <= k < |ps| && Matches(toks, i, ps[k])
        && (forall k' :: 0 <= k' < k ==> !Matches(toks, i, ps[k']))
        && r.value == Parsed(ps[k].name, i + |ps[k].parts|))
    ensures r.Err? ==> r.msg == "Unknown widget type near " + Near(toks, i)
    decreases |ps|
  {
    if ps == [] then Err("Unknown widget type near " + Near(toks, i))
    else if Matches(toks, i, ps[0]) then
      MatchedConsumes(toks, i, ps[0].parts);
      Ok(Parsed(ps[0].name, ConsumedParts(toks, i, ps[0].parts).value))
    else
      var r := WidgetTypeFrom(toks, i, ps[1..]);
      assert forall k :: 1 <= k < |ps| ==> ps[k] == ps[1..][k - 1];
      if r.Ok? then
        ghost var k :| 0 <= k < |ps[1..]| && Matches(toks, i, ps[1..][k])
          && (forall k' :: 0 <= k' < k ==> !Matches(toks, i, ps[1..][k']))
          && r.value == Parsed(ps[1..][k].name, i + |ps[1..][k].parts|);
        assert forall k' :: 0 <= k' < k + 1 ==> !Matches(toks, i, ps[k']);
        r
      else r
  }

  /** `readWidgetType`. */
  function WidgetType(toks: TokenList, i: nat): Result<Parsed<string>> {
    WidgetTypeFrom(toks, i, UniquePatterns())
  }

  // ---------------------------------------------------------- the methods

  /** `peekAhead(parser, offset)`. */
  method PeekAhead(p: Parser, offset: nat) returns (t: Option<Token>)
    ensures t == At(p.toks, p.i + offset)
  {
    if p.i + offset < |p.toks| {
      t := Some(p.toks[p.i + offset]);
    } else {
      t := None;
    }
  }

  /** `matchesPattern`: a read-only loop over the parts. */
  method MatchesPattern(p: Parser, pat: Pattern) returns (b: bool)
    ensures b == Matches(p.toks, p.i, pat)
  {
    MatchesPositionwise(p.toks, p.i, pat.parts);
    var index := 0;
    while index < |pat.parts|
      invariant 0 <= index <= |pat.parts|
      invariant forall k :: 0 <= k < index ==> PartMatches(p.toks, p.i, pat.parts, k)
    {
      var t := PeekAhead(p, index);
      if !TokenMatchesPart(t, pat.parts[index]) {
        assert !PartMatches(p.toks, p.i, pat.parts, index);
        return false;
      }
      index := index + 1;
    }
    b := true;
  }

  /** `consumePart`. */
  method ConsumePart(p: Parser, part: string) returns (r: Result<()>)
    modifies p
    ensures match ConsumedPart(p.toks, old(p.i), part)
            case Ok(n) => r == Ok(()) && p.i == n
            case Err(m) => r == Err(m)
  {
    if part == "-" {
      var tok :- p.Eat(OP);
      if tok.value != TStr("-") {
        return Err("Expected hyphen in widget type");
      }
      return Ok(());
    }
    if p.i >= |p.toks| {
      return Err("Unexpected end while reading widget type " + part);
    }
    var next := p.toks[p.i];
    if next.kind == IDENT {
      var consumed := p.Eat(IDENT);
      if Upper(TokText(consumed.value)) != part {
        return Err("Expected " + part + " in widget type");
      }
      return Ok(());
    }
    if KindName(next.kind) == part {
      var _ := p.Eat(next.kind);
      return Ok(());
    }
    r := Err("Unexpected token " + KindName(next.kind) + " when reading widget type");
  }

  /** The inner `for (const part of pattern.tokens)` loop, after a match. */
  method ConsumeParts(p: Parser, parts: seq<string>)
    requires MatchesFrom(p.toks, p.i, parts)
    modifies p
    ensures p.i == old(p.i) + |parts|
  {
    var index := 0;
    while index < |parts|
      invariant 0 <= index <= |parts| && p.i == old(p.i) + index
      invariant MatchesFrom(p.toks, p.i, parts[index..])
    {
      assert parts[index..][1..] == parts[index + 1..];
      FirstPartConsumed(p.toks, p.i, parts[index..]);
      var _ := ConsumePart(p, parts[index]);
      index := index + 1;
    }
  }

  /** The outer loop of `readWidgetType` over a pattern list. */
  method ReadWidgetTypeFrom(p: Parser, patterns: seq<Pattern>) returns (r: Result<string>)
    modifies p
    ensures Agrees(r, p.i, WidgetTypeFrom(p.toks, old(p.i), patterns))
    ensures r.Err? ==> p.i == old(p.i) && r.msg == "Unknown widget type near " + Near(p.toks, p.i)
    ensures r.Ok? ==> exists k :: (0 <= k < |patterns| && Matches(p.toks, old(p.i), patterns[k])
                                  && r.value == patterns[k].name && p.i == old(p.i) + |patterns[k].parts|)
  {
    var k := 0;
    while k < |patterns|
      invariant 0 <= k <= |patterns| && p.i == old(p.i)
      invariant WidgetTypeFrom(p.toks, p.i, patterns) == WidgetTypeFrom(p.toks, p.i, patterns[k..])
    {
      assert patterns[k..][1..] == patterns[k + 1..];
      var m := MatchesPattern(p, patterns[k]);
      if m {
        MatchedConsumes(p.toks, p.i, patterns[k].parts);
        ConsumeParts(p, patterns[k].parts);
        return Ok(patterns[k].name);
      }
      k := k + 1;
    }
    var near := if p.i < |p.toks| then ValueOrType(p.toks[p.i]) else "EOF";
    r := Err("Unknown widget type near " + near);
  }

  /** `readWidgetType`. */
  method ReadWidgetType(p: Parser) returns (r: Result<string>)
    modifies p
    ensures Agrees(r, p.i, WidgetType(p.toks, old(p.i)))
    ensures r.Err? ==> p.i == old(p.i) && r.msg == "Unknown widget type near " + Near(p.toks, p.i)
    ensures r.Ok? ==> exists k :: (0 <= k < |UniquePatterns()| && Matches(p.toks, old(p.i), UniquePatterns()[k])
                                  && r.value == UniquePatterns()[k].name && p.i == old(p.i) + |UniquePatterns()[k].parts|)
  {
    r := ReadWidgetTypeFrom(p, UniquePatterns());
  }
}
