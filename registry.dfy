/** The statement registry: which module parses a statement that starts with a
    given keyword, which modules may parse a statement that starts with an
    identifier, and which module executes each node type. */
module Registry {
  import opened Results

  /** The statement modules of the modular interpreter. */
  datatype StmtModule =
    | AssignModule | DefineModule | ProcedureModule | RunModule | CreateWidgetModule
    | EnableModule | ViewModule | ApplyModule | OnModule | WaitForModule | DisplayModule
    | InputModule | IfModule | DoModule | RepeatModule | WhileModule | ForEachModule
    | FindModule | MessageModule

  /** What a module exports: its keywords (when it has a keyword array), whether
      it accepts identifier-led statements, and the node types it executes (when
      it has an executor table). */
  datatype Descriptor = Descriptor(
    id: StmtModule, keywords: Option<seq<string>>, allowIdentifierStart: bool,
    executors: Option<seq<string>>)

  /** The descriptor each module file exports. */
  function DescriptorOf(m: StmtModule): Descriptor {
    match m
    case AssignModule => Descriptor(m, Some(["ASSIGN"]), true, Some(["Assign"]))
    case DefineModule =>
      Descriptor(m, Some(["DEFINE"]), false, Some(["DefineVariable", "DefineParameter", "DefineWidget"]))
    case ProcedureModule => Descriptor(m, Some(["PROCEDURE"]), false, Some(["Procedure"]))
    case RunModule => Descriptor(m, Some(["RUN"]), false, Some(["Run"]))
    case CreateWidgetModule => Descriptor(m, Some(["CREATE"]), false, Some(["CreateWidget"]))
    case EnableModule => Descriptor(m, Some(["ENABLE"]), false, Some(["EnableWidgets"]))
    case ViewModule => Descriptor(m, Some(["VIEW"]), false, Some(["ViewWidgets"]))
    case ApplyModule => Descriptor(m, Some(["APPLY"]), false, Some(["ApplyEvent"]))
    case OnModule => Descriptor(m, Some(["ON"]), false, Some(["OnEvent"]))
    case WaitForModule => Descriptor(m, Some(["WAIT"]), false, Some(["WaitForEvent"]))
    case DisplayModule => Descriptor(m, Some(["DISPLAY", "PRINT"]), false, Some(["Display"]))
    case InputModule => Descriptor(m, Some(["INPUT"]), false, Some(["Input"]))
    case IfModule => Descriptor(m, Some(["IF"]), false, Some(["If"]))
    case DoModule => Descriptor(m, Some(["DO"]), false, Some(["Do"]))
    case RepeatModule => Descriptor(m, Some(["REPEAT"]), false, Some(["Repeat"]))
    case WhileModule => Descriptor(m, Some(["WHILE"]), false, Some(["While"]))
    case ForEachModule => Descriptor(m, Some(["FOR"]), false, Some(["ForEach"]))
    case FindModule => Descriptor(m, Some(["FIND"]), false, Some(["Find"]))
    case MessageModule => Descriptor(m, Some(["MESSAGE"]), false, Some(["Message"]))
  }

  /** The CommonJS module list in load order; MESSAGE is not in it. */
  const LoadOrder: seq<StmtModule> := [
    AssignModule, DefineModule, ProcedureModule, RunModule, CreateWidgetModule, EnableModule,
    ViewModule, ApplyModule, OnModule, WaitForModule, DisplayModule, InputModule, IfModule,
    DoModule, RepeatModule, WhileModule, ForEachModule, FindModule]

  function Loaded(ms: seq<StmtModule>): (r: seq<Option<Descriptor>>)
    ensures |r| == |ms|
    ensures forall k :: 0 <= k < |ms| ==> r[k] == Some(DescriptorOf(ms[k]))
  {
    if ms == [] then [] else [Some(DescriptorOf(ms[0]))] + Loaded(ms[1..])
  }

  /** `{keywordMap, identifierParsers, executors}`. */
  datatype Registry = Registry(
    keywordMap: map<string, StmtModule>, identifierParsers: seq<StmtModule>,
    executors: map<string, StmtModule>)

  const EmptyRegistry := Registry(map[], [], map[])

  /** `m[k] = v` for every `k` of `ks`, in order. */
  function PutAll(m: map<string, StmtModule>, ks: seq<string>, v: StmtModule): map<string, StmtModule>
    decreases |ks|
  {
    if ks == [] then m else PutAll(m[ks[0] := v], ks[1..], v)
  }

  function PutOpt(m: map<string, StmtModule>, ks: Option<seq<string>>, v: StmtModule): map<string, StmtModule> {
    if ks.Some? then PutAll(m, ks.value, v) else m
  }

  /** The effect of one pass of the registry loop. */
  function AddModule(r: Registry, entry: Option<Descriptor>): Registry {
    match entry
    case None => r
    case Some(d) =>
      Registry(
        PutOpt(r.keywordMap, d.keywords, d.id),
        if d.allowIdentifierStart then r.identifierParsers + [d.id] else r.identifierParsers,
        PutOpt(r.executors, d.executors, d.id))
  }

  /** The registry after the loop has processed `entries`. */
  function Build(entries: seq<Option<Descriptor>>): Registry
    decreases |entries|
  {
    if entries == [] then EmptyRegistry
    else AddModule(Build(entries[..|entries| - 1]), entries[|entries| - 1])
  }

  /** The inner `for (const keyword of ...)` loop. */
  method PutEach(m: map<string, StmtModule>, ks: seq<string>, v: StmtModule) returns (r: map<string, StmtModule>)
    ensures r == PutAll(m, ks, v)
  {
    r := m;
    var i := 0;
    while i < |ks|
      invariant 0 <= i <= |ks|
      invariant PutAll(r, ks[i..], v) == PutAll(m, ks, v)
    {
      assert ks[i..][1..] == ks[i + 1..];
      r := r[ks[i] := v];
      i := i + 1;
    }
    assert ks[i..] == [];
  }

  /** The registry-building loop. */
  method BuildRegistry(entries: seq<Option<Descriptor>>) returns (r: Registry)
    ensures r == Build(entries)
  {
    var keywordMap: map<string, StmtModule> := map[];
    var identifierParsers: seq<StmtModule> := [];
    var executors: map<string, StmtModule> := map[];
    var i := 0;
    while i < |entries|
      invariant 0 <= i <= |entries|
      invariant Registry(keywordMap, identifierParsers, executors) == Build(entries[..i])
    {
      assert entries[..i + 1][..i] == entries[..i];
      if entries[i].Some? {
        var d := entries[i].value;
        if d.keywords.Some? {
          keywordMap := PutEach(keywordMap, d.keywords.value, d.id);
        }
        if d.allowIdentifierStart {
          identifierParsers := identifierParsers + [d.id];
        }
        if d.executors.Some? {
          executors := PutEach(executors, d.executors.value, d.id);
        }
      }
      i := i + 1;
    }
    assert entries[..i] == entries;
    r := Registry(keywordMap, identifierParsers, executors);
  }

  // ------------------------------------------------------------ properties

  /** The module of the last entry whose key list (chosen by `keys`) holds `k`. */
  function LastOwner(entries: seq<Option<Descriptor>>, k: string, executorsTable: bool): Option<StmtModule>
    decreases |entries|
  {
    if entries == [] then None
    else
      var e := entries[|entries| - 1];
      var ks := if e.None? then None else if executorsTable then e.value.executors else e.value.keywords;
      if ks.Some? && k in ks.value then Some(e.value.id)
      else LastOwner(entries[..|entries| - 1], k, executorsTable)
  }

  function Lookup(m: map<string, StmtModule>, k: string): Option<StmtModule> {
    if k in m then Some(m[k]) else None
  }

  lemma {:induction false} PutAllLookup(m: map<string, StmtModule>, ks: seq<string>, v: StmtModule, k: string)
    ensures Lookup(PutAll(m, ks, v), k) == if k in ks then Some(v) else Lookup(m, k)
    decreases |ks|
  {
    if ks != [] {
      PutAllLookup(m[ks[0] := v], ks[1..], v, k);
      assert k in ks <==> k == ks[0] || k in ks[1..];
    }
  }

  /** Every keyword maps to the module that declared it, and on a collision the
      later module in the list wins; a keyword nobody declared is absent. */
  lemma {:induction false} KeywordMapLaterWins(entries: seq<Option<Descriptor>>, k: string)
    ensures Lookup(Build(entries).keywordMap, k) == LastOwner(entries, k, false)
    decreases |entries|
  {
    if entries != [] {
      var init := entries[..|entries| - 1];
      KeywordMapLaterWins(init, k);
      var e := entries[|entries| - 1];
      if e.Some? && e.value.keywords.Some? {
        PutAllLookup(Build(init).keywordMap, e.value.keywords.value, e.value.id, k);
      }
    }
  }

  /** `executors` maps each node type to the last module that declared it. */
  lemma {:induction false} ExecutorsLaterWin(entries: seq<Option<Descriptor>>, k: string)
    ensures Lookup(Build(entries).executors, k) == LastOwner(entries, k, true)
    decreases |entries|
  {
    if entries != [] {
      var init := entries[..|entries| - 1];
      ExecutorsLaterWin(init, k);
      var e := entries[|entries| - 1];
      if e.Some? && e.value.executors.Some? {
        PutAllLookup(Build(init).executors, e.value.executors.value, e.value.id, k);
      }
    }
  }

  /** The modules that accept identifier-led statements, in list order. */
  function IdentifierStarters(entries: seq<Option<Descriptor>>): seq<StmtModule>
    decreases |entries|
  {
    if entries == [] then []
    else
      var e := entries[|entries| - 1];
      IdentifierStarters(entries[..|entries| - 1])
        + (if e.Some? && e.value.allowIdentifierStart then [e.value.id] else [])
  }

  lemma {:induction false} IdentifierParsersInOrder(entries: seq<Option<Descriptor>>)
    ensures Build(entries).identifierParsers == IdentifierStarters(entries)
    ensures forall m :: m in Build(entries).identifierParsers <==>
      exists j :: 0 <= j < |entries| && entries[j].Some? && entries[j].value.allowIdentifierStart && entries[j].value.id == m
    decreases |entries|
  {
    if entries != [] {
      var init := entries[..|entries| - 1];
      IdentifierParsersInOrder(init);
      forall m ensures m in Build(entries).identifierParsers <==>
        exists j :: 0 <= j < |entries| && entries[j].Some? && entries[j].value.allowIdentifierStart && entries[j].value.id == m
      {
        if m in Build(entries).identifierParsers {
          if m in Build(init).identifierParsers {
            var j :| 0 <= j < |init| && init[j].Some? && init[j].value.allowIdentifierStart && init[j].value.id == m;
            assert entries[j] == init[j];
          } else {
            assert entries[|entries| - 1].Some? && entries[|entries| - 1].value.id == m;
          }
        }
        if exists j :: 0 <= j < |entries| && entries[j].Some? && entries[j].value.allowIdentifierStart && entries[j].value.id == m {
          var j :| 0 <= j < |entries| && entries[j].Some? && entries[j].value.allowIdentifierStart && entries[j].value.id == m;
          if j < |init| {
            assert init[j] == entries[j];
          }
        }
      }
    }
  }

  /** Falsy entries are skipped and contribute nothing. */
  lemma {:induction false} FalsyEntriesSkipped(a: seq<Option<Descriptor>>, b: seq<Option<Descriptor>>)
    ensures Build(a + [None] + b) == Build(a + b)
    decreases |b|
  {
    if b == [] {
      assert (a + [None] + b)[..|a + [None] + b| - 1] == a;
      assert a + b == a;
    } else {
      var b' := b[..|b| - 1];
      FalsyEntriesSkipped(a, b');
      assert (a + [None] + b)[..|a + [None] + b| - 1] == a + [None] + b';
      assert (a + b)[..|a + b| - 1] == a + b';
    }
  }

  /** The registry of the shipped module list. */
  function Standard(): Registry { Build(Loaded(LoadOrder)) }

  /** Only ASSIGN accepts identifier-led statements: a list that starts with
      ASSIGN and does not repeat it yields ASSIGN as the one identifier parser. */
  lemma {:induction false} AssignFirstOnly(ms: seq<StmtModule>)
    requires |ms| > 0 && ms[0] == AssignModule && forall k :: 0 < k < |ms| ==> ms[k] != AssignModule
    ensures Build(Loaded(ms)).identifierParsers == [AssignModule]
    decreases |ms|
  {
    if |ms| == 1 {
      assert Loaded(ms)[..0] == [];
    } else {
      var init := ms[..|ms| - 1];
      AssignFirstOnly(init);
      assert Loaded(ms)[..|ms| - 1] == Loaded(init);
    }
  }

  /** With the shipped module list, ASSIGN is the only module offered a
      statement that starts with an identifier. */
  lemma StandardIdentifierParsers()
    ensures Standard().identifierParsers == [AssignModule]
  {
    AssignFirstOnly(LoadOrder);
  }
}
