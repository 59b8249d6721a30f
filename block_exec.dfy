/** The executors of the block statements: IF, DO, REPEAT, WHILE, FOR EACH
    and PROCEDURE. Each is a function from the environments before the
    statement to an `Outcome` (the environments after it, and the exception
    it threw, if any), and a method that runs the statement on a `Heap` and
    is proved to leave exactly that outcome.

    Loops whose number of passes the statement does not fix (WHILE, REPEAT,
    DO WHILE, counted DO) take a `fuel` bound: after `fuel` passes the model
    stops with `OutOfFuel` where the interpreter would keep going. */
module BlockExec {
  import opened Results
  import opened Text
  import opened Values
  import opened Ast
  import opened Runtime
  import FindStmt

  /** Not a message of the interpreter: the model's stand-in for a loop that
      has not finished within its `fuel` passes. */
  const OutOfFuel := "iteration bound reached"

  /** The method left the heap in `o.frames` and reports `o.thrown`. */
  predicate Installed(o: Outcome, frames: Frames, r: Result<()>) {
    frames == o.frames && (r.Err? <==> o.thrown.Some?) && (r.Err? ==> r.msg == o.thrown.value)
  }

  /** The outcome of a statement that throws before it changes anything. */
  function Thrown(fs: Frames, m: string): Outcome { Outcome(fs, Some(m)) }

  // ------------------------------------------------------------------- IF

  /** `executeIf`: the consequent when the test is truthy, else the
      alternate when there is one, else nothing. */
  function IfEffect(ctx: Context, fs: Frames, env: EnvId, s: Stmt): (o: Outcome)
    requires s.If?
    ensures ctx.evalExpr(s.test, fs, env).Err? ==> o == Thrown(fs, ctx.evalExpr(s.test, fs, env).msg)
    ensures ctx.evalExpr(s.test, fs, env).Ok? && !ctx.truthy(ctx.evalExpr(s.test, fs, env).value) && s.alternate.None?
      ==> o == Outcome(fs, None)
  {
    match ctx.evalExpr(s.test, fs, env)
    case Err(m) => Thrown(fs, m)
    case Ok(v) =>
      if ctx.truthy(v) then ctx.execBlock(s.consequent, fs, env)
      else if s.alternate.Some? then ctx.execBlock(s.alternate.value, fs, env)
      else Outcome(fs, None)
  }

  /** Exactly one of the two blocks runs, chosen by the test alone. */
  lemma IfRunsOneBranch(ctx: Context, fs: Frames, env: EnvId, s: Stmt)
    requires s.If? && ctx.evalExpr(s.test, fs, env).Ok?
    ensures var v := ctx.evalExpr(s.test, fs, env).value;
      (ctx.truthy(v) ==> IfEffect(ctx, fs, env, s) == ctx.execBlock(s.consequent, fs, env))
      && (!ctx.truthy(v) && s.alternate.Some? ==> IfEffect(ctx, fs, env, s) == ctx.execBlock(s.alternate.value, fs, env))
  {
  }

  method ExecuteIf(h: Heap, ctx: Context, env: EnvId, s: Stmt) returns (r: Result<()>)
    requires s.If?
    modifies h
    ensures Installed(IfEffect(ctx, old(h.frames), env, s), h.frames, r)
  {
    var test :- ctx.evalExpr(s.test, h.frames, env);
    if ctx.truthy(test) {
      r := ExecBlock(h, ctx, s.consequent, env);
    } else if s.alternate.Some? {
      r := ExecBlock(h, ctx, s.alternate.value, env);
    } else {
      r := Ok(());
    }
  }

  // --------------------------------------------------------- record scope

  /** `map[key]` when the key is present. */
  function Get(m: map<string, Value>, key: string): Option<Value> {
    if key in m then Some(m[key]) else None
  }

  /** Puts back a saved entry: the previous value, or no entry at all. */
  function Put(m: map<string, Value>, key: string, v: Option<Value>): (r: map<string, Value>)
    ensures Get(r, key) == v
    ensures forall k :: k != key ==> Get(r, k) == Get(m, k)
  {
    if v.Some? then m[key := v.value] else m - {key}
  }

  /** What DO FOR and FOR EACH remember about a name before they bind it: its
      record buffer entry and its variable entry, each absent or present. */
  datatype Saved = Saved(key: string, record: Option<Value>, variable: Option<Value>)

  /** The entries of `key` in `f`. */
  function SavedOf(f: Frame, key: string): Saved {
    Saved(key, FindStmt.ActiveRecord(f, key), Get(f.vars, key))
  }

  /** One FOR record of DO: remember its entries and set both to `null`. */
  function SaveOne(f: Frame, key: string): (r: (Frame, Saved))
    requires f.records.Some?
    ensures r.1 == SavedOf(f, key) && r.0.records.Some?
    ensures Get(r.0.vars, key) == Some(Null) && Get(r.0.records.value, key) == Some(Null)
    ensures forall k :: k != key ==> Get(r.0.vars, k) == Get(f.vars, k) && Get(r.0.records.value, k) == Get(f.records.value, k)
  {
    (f.(records := Some(f.records.value[key := Null]), vars := f.vars[key := Null]), SavedOf(f, key))
  }

  /** The `saved` list of `withRecordScope`, built in the order of the names. */
  function SaveAll(f: Frame, keys: seq<string>): (r: (Frame, seq<Saved>))
    requires f.records.Some?
    ensures r.0.records.Some? && |r.1| == |keys|
    ensures forall n :: 0 <= n < |keys| ==> r.1[n].key == keys[n]
    decreases |keys|
  {
    if keys == [] then (f, [])
    else
      var before := SaveAll(f, keys[..|keys| - 1]);
      var last := SaveOne(before.0, keys[|keys| - 1]);
      (last.0, before.1 + [last.1])
  }

  /** The `finally` step for one saved entry. */
  function RestoreOne(f: Frame, s: Saved): (r: Frame)
    ensures Get(r.vars, s.key) == s.variable
    ensures r.records.Some? <==> f.records.Some?
    ensures r.records.Some? ==> Get(r.records.value, s.key) == s.record
  {
    f.(records := if f.records.Some? then Some(Put(f.records.value, s.key, s.record)) else None,
       vars := Put(f.vars, s.key, s.variable))
  }

  /** The `finally` loop, in the order the entries were saved. */
  function RestoreAll(f: Frame, saved: seq<Saved>): (r: Frame)
    ensures r.records.Some? <==> f.records.Some?
    decreases |saved|
  {
    if saved == [] then f else RestoreOne(RestoreAll(f, saved[..|saved| - 1]), saved[|saved| - 1])
  }

  /** The keys of `node.forRecords`, lower-cased. */
  function RecordKeys(rs: seq<RecordRef>): (r: seq<string>)
    ensures |r| == |rs| && forall n :: 0 <= n < |rs| ==> r[n] == Lower(rs[n].name)
  {
    seq(|rs|, n requires 0 <= n < |rs| => Lower(rs[n].name))
  }

  /** The frame the body starts from inside the record scope, and the saved
      entries: the records map is created if missing, then every name is
      saved and cleared. */
  function ScopeEntry(f: Frame, keys: seq<string>): (r: (Frame, seq<Saved>))
    ensures r.0.records.Some?
  {
    SaveAll(f.(records := Some(if f.records.Some? then f.records.value else map[])), keys)
  }

  /** `withRecordScope(run)` around one run of the body: with no FOR records
      the body runs as it is; otherwise it runs from `ScopeEntry` and every
      saved entry is put back afterwards, whether or not the body threw. */
  function ScopedRun(ctx: Context, body: seq<Stmt>, keys: seq<string>, fs: Frames, env: EnvId): Outcome {
    if keys == [] then ctx.execBlock(body, fs, env)
    else
      var save := ScopeEntry(FrameOf(fs, env), keys);
      var o := ctx.execBlock(body, fs[env := save.0], env);
      Outcome(o.frames[env := RestoreAll(FrameOf(o.frames, env), save.1)], o.thrown)
  }

  /** Every pass of the body starts with each FOR name bound to `null`, both
      as a variable and in the records map, even a name given twice; every
      other variable is as it was. */
  lemma {:induction false} ScopeClears(f: Frame, keys: seq<string>)
    ensures forall k :: k in keys ==>
      Get(ScopeEntry(f, keys).0.vars, k) == Some(Null) && Get(ScopeEntry(f, keys).0.records.value, k) == Some(Null)
    ensures forall k :: k !in keys ==> Get(ScopeEntry(f, keys).0.vars, k) == Get(f.vars, k)
  {
    SaveAllClears(f.(records := Some(if f.records.Some? then f.records.value else map[])), keys);
  }

  lemma {:induction false} SaveAllClears(f: Frame, keys: seq<string>)
    requires f.records.Some?
    ensures forall k :: k in keys ==>
      Get(SaveAll(f, keys).0.vars, k) == Some(Null) && Get(SaveAll(f, keys).0.records.value, k) == Some(Null)
    ensures forall k :: k !in keys ==> Get(SaveAll(f, keys).0.vars, k) == Get(f.vars, k)
    decreases |keys|
  {
    if keys != [] {
      var init := keys[..|keys| - 1];
      SaveAllClears(f, init);
      forall k | k in keys
        ensures Get(SaveAll(f, keys).0.vars, k) == Some(Null) && Get(SaveAll(f, keys).0.records.value, k) == Some(Null)
      {
        if k != keys[|keys| - 1] {
          assert k in init;
        }
      }
      forall k | k !in keys
        ensures Get(SaveAll(f, keys).0.vars, k) == Get(f.vars, k)
      {
        assert k !in init;
      }
    }
  }

  /** Saving distinct names remembers each name's entries as they were before
      the scope. */
  lemma {:induction false} SavedOriginals(f: Frame, keys: seq<string>)
    requires f.records.Some?
    requires forall a, b :: 0 <= a < b < |keys| ==> keys[a] != keys[b]
    ensures forall n :: 0 <= n < |keys| ==> SaveAll(f, keys).1[n] == SavedOf(f, keys[n])
    ensures forall k :: k !in keys ==> Get(SaveAll(f, keys).0.vars, k) == Get(f.vars, k)
    ensures forall k :: k !in keys ==> Get(SaveAll(f, keys).0.records.value, k) == Get(f.records.value, k)
    decreases |keys|
  {
    if keys != [] {
      var init := keys[..|keys| - 1];
      var last := keys[|keys| - 1];
      SavedOriginals(f, init);
      var before := SaveAll(f, init);
      assert last !in init by {
        forall a | 0 <= a < |init| ensures init[a] != last {
          assert keys[a] != keys[|keys| - 1];
        }
      }
      assert SavedOf(before.0, last) == SavedOf(f, last);
      forall k | k !in keys
        ensures Get(SaveAll(f, keys).0.vars, k) == Get(f.vars, k)
        ensures Get(SaveAll(f, keys).0.records.value, k) == Get(f.records.value, k)
      {
        assert k !in init;
      }
    }
  }

  /** Putting back entries for distinct names leaves each name with its saved
      entries and every other name as it was. */
  lemma {:induction false} RestoreAllPutsBack(g: Frame, saved: seq<Saved>)
    requires forall a, b :: 0 <= a < b < |saved| ==> saved[a].key != saved[b].key
    ensures forall n :: 0 <= n < |saved| ==> Get(RestoreAll(g, saved).vars, saved[n].key) == saved[n].variable
    ensures g.records.Some? ==> forall n :: 0 <= n < |saved| ==>
      Get(RestoreAll(g, saved).records.value, saved[n].key) == saved[n].record
    ensures forall k :: (forall n :: 0 <= n < |saved| ==> saved[n].key != k) ==>
      Get(RestoreAll(g, saved).vars, k) == Get(g.vars, k)
    decreases |saved|
  {
    if saved != [] {
      var init := saved[..|saved| - 1];
      var last := saved[|saved| - 1];
      RestoreAllPutsBack(g, init);
      var before := RestoreAll(g, init);
      assert RestoreAll(g, saved) == RestoreOne(before, last);
      forall n | 0 <= n < |saved|
        ensures Get(RestoreAll(g, saved).vars, saved[n].key) == saved[n].variable
        ensures g.records.Some? ==> Get(RestoreAll(g, saved).records.value, saved[n].key) == saved[n].record
      {
        if n < |saved| - 1 {
          assert init[n] == saved[n];
          assert saved[n].key != last.key;
        }
      }
      forall k | forall n :: 0 <= n < |saved| ==> saved[n].key != k
        ensures Get(RestoreAll(g, saved).vars, k) == Get(g.vars, k)
      {
        assert last.key != k;
        assert forall n :: 0 <= n < |init| ==> init[n] == saved[n];
      }
    }
  }

  /** DO FOR with distinct names: after the block, whatever the body did and
      whether or not it threw, every named variable and record buffer entry
      is back to what it was before the statement (present with the same
      value, or absent), as long as the records map still exists. */
  lemma ScopeRestores(ctx: Context, body: seq<Stmt>, keys: seq<string>, fs: Frames, env: EnvId)
    requires keys != []
    requires forall a, b :: 0 <= a < b < |keys| ==> keys[a] != keys[b]
    ensures var before := FrameOf(fs, env);
      var after := FrameOf(ScopedRun(ctx, body, keys, fs, env).frames, env);
      forall k :: k in keys ==>
        Get(after.vars, k) == Get(before.vars, k)
        && (after.records.Some? ==> Get(after.records.value, k) == FindStmt.ActiveRecord(before, k))
  {
    var f := FrameOf(fs, env);
    var withRecords := f.(records := Some(if f.records.Some? then f.records.value else map[]));
    var save := ScopeEntry(f, keys);
    SavedOriginals(withRecords, keys);
    var o := ctx.execBlock(body, fs[env := save.0], env);
    RestoreAllPutsBack(FrameOf(o.frames, env), save.1);
    var after := FrameOf(ScopedRun(ctx, body, keys, fs, env).frames, env);
    assert after == RestoreAll(FrameOf(o.frames, env), save.1);
    forall k | k in keys
      ensures Get(after.vars, k) == Get(f.vars, k)
      ensures after.records.Some? ==> Get(after.records.value, k) == FindStmt.ActiveRecord(f, k)
    {
      var n :| 0 <= n < |keys| && keys[n] == k;
      assert save.1[n] == SavedOf(withRecords, k);
      assert FindStmt.ActiveRecord(withRecords, k) == FindStmt.ActiveRecord(f, k);
    }
  }

  /** A name given twice is saved the second time as the `null` the first
      save left, and the in-order restore ends on that `null`: such a name
      is not put back. */
  lemma RepeatedNameLeftNull(f: Frame, g: Frame, key: string)
    requires f.records.Some?
    ensures Get(RestoreAll(g, SaveAll(f, [key, key]).1).vars, key) == Some(Null)
  {
    assert [key, key][..1] == [key];
    assert [key][..0] == [];
  }

  method SaveEach(f: Frame, keys: seq<string>) returns (g: Frame, saved: seq<Saved>)
    requires f.records.Some?
    ensures (g, saved) == SaveAll(f, keys)
  {
    g, saved := f, [];
    for n := 0 to |keys|
      invariant (g, saved) == SaveAll(f, keys[..n])
    {
      assert keys[..n + 1][..n] == keys[..n];
      var entry := SavedOf(g, keys[n]);
      g := g.(records := Some(g.records.value[keys[n] := Null]), vars := g.vars[keys[n] := Null]);
      saved := saved + [entry];
    }
    assert keys[..|keys|] == keys;
  }

  method RestoreEach(f: Frame, saved: seq<Saved>) returns (g: Frame)
    ensures g == RestoreAll(f, saved)
  {
    g := f;
    for n := 0 to |saved|
      invariant g == RestoreAll(f, saved[..n])
    {
      assert saved[..n + 1][..n] == saved[..n];
      var entry := saved[n];
      if g.records.Some? {
        g := g.(records := Some(if entry.record.Some? then g.records.value[entry.key := entry.record.value]
                                else g.records.value - {entry.key}));
      }
      g := g.(vars := if entry.variable.Some? then g.vars[entry.key := entry.variable.value] else g.vars - {entry.key});
    }
    assert saved[..|saved|] == saved;
  }

  /** `runIteration`: one run of the body inside the record scope. */
  method RunScoped(h: Heap, ctx: Context, body: seq<Stmt>, keys: seq<string>, env: EnvId) returns (r: Result<()>)
    modifies h
    ensures Installed(ScopedRun(ctx, body, keys, old(h.frames), env), h.frames, r)
  {
    if keys == [] {
      r := ExecBlock(h, ctx, body, env);
      return;
    }
    var f := FrameOf(h.frames, env);
    if f.records.None? {
      f := f.(records := Some(map[]));
    }
    var cleared, saved := SaveEach(f, keys);
    h.frames := h.frames[env := cleared];
    r := ExecBlock(h, ctx, body, env);
    var restored := RestoreEach(FrameOf(h.frames, env), saved);
    h.frames := h.frames[env := restored];
  }

  // ---------------------------------------------------------- conditional loops

  /** `conditionTrue`: true without a WHILE, otherwise the truthiness of the
      expression. */
  function Condition(ctx: Context, whileExpr: Option<Expr>, fs: Frames, env: EnvId): (r: Result<bool>)
    ensures whileExpr.None? ==> r == Ok(true)
  {
    if whileExpr.None? then Ok(true)
    else
      var v :- ctx.evalExpr(whileExpr.value, fs, env);
      Ok(ctx.truthy(v))
  }

  /** `while (truthy(evalExpr(test))) run body`, with the body in the record
      scope of `keys`; an exception from the test or the body ends the loop. */
  function WhileLoop(ctx: Context, test: Expr, body: seq<Stmt>, keys: seq<string>, fs: Frames, env: EnvId, fuel: nat)
    : Outcome
    decreases fuel
  {
    match ctx.evalExpr(test, fs, env)
    case Err(m) => Thrown(fs, m)
    case Ok(v) =>
      if !ctx.truthy(v) then Outcome(fs, None)
      else if fuel == 0 then Thrown(fs, OutOfFuel)
      else
        var o := ScopedRun(ctx, body, keys, fs, env);
        if o.thrown.Some? then o else WhileLoop(ctx, test, body, keys, o.frames, env, fuel - 1)
  }

  /** A loop that ends without an exception ends because the test, evaluated
      on the final environments, is falsy. */
  lemma {:induction false} WhileExitsOnFalse(ctx: Context, test: Expr, body: seq<Stmt>, keys: seq<string>, fs: Frames, env: EnvId, fuel: nat)
    ensures var o := WhileLoop(ctx, test, body, keys, fs, env, fuel);
      o.thrown.None? ==> ctx.evalExpr(test, o.frames, env).Ok? && !ctx.truthy(ctx.evalExpr(test, o.frames, env).value)
    decreases fuel
  {
    match ctx.evalExpr(test, fs, env)
    case Err(m) =>
    case Ok(v) =>
      if ctx.truthy(v) && fuel > 0 {
        var o := ScopedRun(ctx, body, keys, fs, env);
        if o.thrown.None? {
          WhileExitsOnFalse(ctx, test, body, keys, o.frames, env, fuel - 1);
        }
      }
  }

  /** A test that is falsy at the start runs the body zero times. */
  lemma WhileFalseAtStart(ctx: Context, test: Expr, body: seq<Stmt>, keys: seq<string>, fs: Frames, env: EnvId, fuel: nat)
    requires ctx.evalExpr(test, fs, env).Ok? && !ctx.truthy(ctx.evalExpr(test, fs, env).value)
    ensures WhileLoop(ctx, test, body, keys, fs, env, fuel) == Outcome(fs, None)
  {
  }

  method RunWhile(h: Heap, ctx: Context, test: Expr, body: seq<Stmt>, keys: seq<string>, env: EnvId, fuel: nat)
    returns (r: Result<()>)
    modifies h
    ensures Installed(WhileLoop(ctx, test, body, keys, old(h.frames), env, fuel), h.frames, r)
  {
    var left := fuel;
    while true
      invariant WhileLoop(ctx, test, body, keys, old(h.frames), env, fuel) == WhileLoop(ctx, test, body, keys, h.frames, env, left)
      decreases left
    {
      var v :- ctx.evalExpr(test, h.frames, env);
      if !ctx.truthy(v) {
        return Ok(());
      }
      if left == 0 {
        return Err(OutOfFuel);
      }
      r := RunScoped(h, ctx, body, keys, env);
      if r.Err? {
        return;
      }
      left := left - 1;
    }
  }

  // ------------------------------------------------------------ WHILE, REPEAT

  function WhileEffect(ctx: Context, fs: Frames, env: EnvId, s: Stmt, fuel: nat): Outcome
    requires s.While?
  {
    WhileLoop(ctx, s.test, s.body, [], fs, env, fuel)
  }

  const RepeatWithoutWhile := "REPEAT without WHILE not supported in this mini-interpreter"

  /** `executeRepeat`: a WHILE loop over the REPEAT's condition; a REPEAT
      without WHILE throws before anything runs. */
  function RepeatEffect(ctx: Context, fs: Frames, env: EnvId, s: Stmt, fuel: nat): (o: Outcome)
    requires s.Repeat?
    ensures s.whileExpr.None? ==> o == Thrown(fs, RepeatWithoutWhile)
    ensures s.whileExpr.Some? && o.thrown.None? ==>
      ctx.evalExpr(s.whileExpr.value, o.frames, env).Ok? && !ctx.truthy(ctx.evalExpr(s.whileExpr.value, o.frames, env).value)
  {
    if s.whileExpr.None? then Thrown(fs, RepeatWithoutWhile)
    else
      var o := WhileLoop(ctx, s.whileExpr.value, s.body, [], fs, env, fuel);
      WhileExitsOnFalse(ctx, s.whileExpr.value, s.body, [], fs, env, fuel);
      o
  }

  method ExecuteWhile(h: Heap, ctx: Context, env: EnvId, s: Stmt, fuel: nat) returns (r: Result<()>)
    requires s.While?
    modifies h
    ensures Installed(WhileEffect(ctx, old(h.frames), env, s, fuel), h.frames, r)
  {
    r := RunWhile(h, ctx, s.test, s.body, [], env, fuel);
  }

  method ExecuteRepeat(h: Heap, ctx: Context, env: EnvId, s: Stmt, fuel: nat) returns (r: Result<()>)
    requires s.Repeat?
    modifies h
    ensures Installed(RepeatEffect(ctx, old(h.frames), env, s, fuel), h.frames, r)
  {
    if s.whileExpr.None? {
      return Err(RepeatWithoutWhile);
    }
    r := RunWhile(h, ctx, s.whileExpr.value, s.body, [], env, fuel);
  }

  // ----------------------------------------------------------------- DO

  const BadStep := "DO loop BY value must be a non-zero finite number"
  const BadBounds := "DO loop bounds must evaluate to finite numbers"

  /** The counted loop from `current` on, and the number of passes of the
      body it made: each pass re-evaluates the limit, stops past it (above
      for a non-negative step, below for a negative one), assigns the loop
      variable, checks the WHILE condition and runs the body in the record
      scope; the step is added after the body. */
  function CountedFrom(ctx: Context, lc: LoopControl, whileExpr: Option<Expr>, body: seq<Stmt>, keys: seq<string>,
                       step: real, current: JsNum, fs: Frames, env: EnvId, fuel: nat): (r: (Outcome, nat))
    ensures r.1 <= fuel
    decreases fuel
  {
    match ctx.evalExpr(lc.toExpr, fs, env)
    case Err(m) => (Thrown(fs, m), 0)
    case Ok(limitValue) =>
      var limit := ToNumber(limitValue);
      if !limit.Fin? || !current.Fin? then (Thrown(fs, BadBounds), 0)
      else if !(if step >= 0.0 then current.x <= limit.x else current.x >= limit.x) then (Outcome(fs, None), 0)
      else
        var setFs := ctx.setVar(fs, env, lc.variable, Num(current));
        var go := Condition(ctx, whileExpr, setFs, env);
        if go.Err? then (Thrown(setFs, go.msg), 0)
        else if !go.value then (Outcome(setFs, None), 0)
        else if fuel == 0 then (Thrown(setFs, OutOfFuel), 0)
        else
          var o := ScopedRun(ctx, body, keys, setFs, env);
          if o.thrown.Some? then (o, 1)
          else
            var rest := CountedFrom(ctx, lc, whileExpr, body, keys, step, Fin(current.x + step), o.frames, env, fuel - 1);
            (rest.0, rest.1 + 1)
  }

  /** A body that never throws does not throw inside the record scope either. */
  lemma ScopedNoThrow(ctx: Context, body: seq<Stmt>, keys: seq<string>, fs: Frames, env: EnvId)
    requires forall g :: ctx.execBlock(body, g, env).thrown.None?
    ensures ScopedRun(ctx, body, keys, fs, env).thrown.None?
  {
  }

  /** One pass of the counted loop with no WHILE, when the value is within
      the limit, fuel is left and the body does not throw. */
  lemma CountedPass(ctx: Context, lc: LoopControl, body: seq<Stmt>, keys: seq<string>,
                    step: real, x: real, limit: real, fs: Frames, env: EnvId, fuel: nat)
    requires ctx.evalExpr(lc.toExpr, fs, env) == Ok(Num(Fin(limit)))
    requires step >= 0.0 && x <= limit && fuel > 0
    requires ScopedRun(ctx, body, keys, ctx.setVar(fs, env, lc.variable, Num(Fin(x))), env).thrown.None?
    ensures var o := ScopedRun(ctx, body, keys, ctx.setVar(fs, env, lc.variable, Num(Fin(x))), env);
      var rest := CountedFrom(ctx, lc, None, body, keys, step, Fin(x + step), o.frames, env, fuel - 1);
      CountedFrom(ctx, lc, None, body, keys, step, Fin(x), fs, env, fuel) == (rest.0, rest.1 + 1)
  {
  }

  /** `DO v = a TO b:` with integer bounds, step 1, a limit that does not
      change, no WHILE and a body that never throws runs the body once for
      each of a, a + 1, ..., b: b - a + 1 times, or not at all when b < a. */
  lemma {:induction false} CountedRunsRange(ctx: Context, lc: LoopControl, body: seq<Stmt>, keys: seq<string>,
                                            a: int, b: int, fs: Frames, env: EnvId, fuel: nat)
    requires forall g :: ctx.evalExpr(lc.toExpr, g, env) == Ok(Num(Fin(b as real)))
    requires forall g :: ctx.execBlock(body, g, env).thrown.None?
    requires fuel >= b - a + 1
    ensures var r := CountedFrom(ctx, lc, None, body, keys, 1.0, Fin(a as real), fs, env, fuel);
      r.0.thrown.None? && r.1 == if b < a then 0 else b - a + 1
    decreases b - a + 1
  {
    assert ctx.evalExpr(lc.toExpr, fs, env) == Ok(Num(Fin(b as real)));
    if a <= b {
      var setFs := ctx.setVar(fs, env, lc.variable, Num(Fin(a as real)));
      ScopedNoThrow(ctx, body, keys, setFs, env);
      var o := ScopedRun(ctx, body, keys, setFs, env);
      CountedPass(ctx, lc, body, keys, 1.0, a as real, b as real, fs, env, fuel);
      CountedRunsRange(ctx, lc, body, keys, a + 1, b, o.frames, env, fuel - 1);
      assert a as real + 1.0 == (a + 1) as real;
    }
  }

  /** A first value already past the limit: no pass, and nothing changes,
      so the loop variable keeps whatever it held. */
  lemma CountedNoPass(ctx: Context, lc: LoopControl, whileExpr: Option<Expr>, body: seq<Stmt>, keys: seq<string>,
                      step: real, x: real, fs: Frames, env: EnvId, fuel: nat)
    requires ctx.evalExpr(lc.toExpr, fs, env).Ok? && ToNumber(ctx.evalExpr(lc.toExpr, fs, env).value).Fin?
    requires var limit := ToNumber(ctx.evalExpr(lc.toExpr, fs, env).value).x;
      if step >= 0.0 then x > limit else x < limit
    ensures CountedFrom(ctx, lc, whileExpr, body, keys, step, Fin(x), fs, env, fuel) == (Outcome(fs, None), 0)
  {
  }

  /** The frames one pass of `DO v = a TO ...` with no WHILE leaves: `v` set
      to a, then the body in the record scope. */
  function PassFrames(ctx: Context, lc: LoopControl, body: seq<Stmt>, keys: seq<string>, a: int, fs: Frames, env: EnvId): Frames {
    ScopedRun(ctx, body, keys, ctx.setVar(fs, env, lc.variable, Num(Fin(a as real))), env).frames
  }

  /** One pass of the integer counted loop with step 1, as an equation. */
  lemma CountedUnroll(ctx: Context, lc: LoopControl, body: seq<Stmt>, keys: seq<string>,
                      a: int, b: int, fs: Frames, env: EnvId, fuel: nat)
    requires ctx.evalExpr(lc.toExpr, fs, env) == Ok(Num(Fin(b as real)))
    requires a <= b && fuel > 0
    requires ScopedRun(ctx, body, keys, ctx.setVar(fs, env, lc.variable, Num(Fin(a as real))), env).thrown.None?
    ensures CountedFrom(ctx, lc, None, body, keys, 1.0, Fin(a as real), fs, env, fuel).0
      == CountedFrom(ctx, lc, None, body, keys, 1.0, Fin((a + 1) as real), PassFrames(ctx, lc, body, keys, a, fs, env), env, fuel - 1).0
  {
    CountedPass(ctx, lc, body, keys, 1.0, a as real, b as real, fs, env, fuel);
    assert a as real + 1.0 == (a + 1) as real;
  }

  /** The loop variable's value, as the evaluator reads it. */
  function LoopValue(ctx: Context, lc: LoopControl, fs: Frames, env: EnvId): Result<Value> {
    ctx.evalExpr(Var(lc.variable), fs, env)
  }

  /** After `DO v = a TO b:` (integer bounds, step 1, a fixed limit, a body
      that never throws and leaves `v` alone) with a <= b, `v` holds b, the
      last value that passed the limit test, and not b + 1. */
  lemma {:induction false} CountedEndsOnLast(ctx: Context, lc: LoopControl, body: seq<Stmt>, keys: seq<string>,
                                             a: int, b: int, fs: Frames, env: EnvId, fuel: nat)
    requires forall g :: ctx.evalExpr(lc.toExpr, g, env) == Ok(Num(Fin(b as real)))
    requires forall g :: ctx.execBlock(body, g, env).thrown.None?
    requires forall g, v :: LoopValue(ctx, lc, ctx.setVar(g, env, lc.variable, v), env) == Ok(v)
    requires forall g :: LoopValue(ctx, lc, ScopedRun(ctx, body, keys, g, env).frames, env) == LoopValue(ctx, lc, g, env)
    requires a <= b && fuel >= b - a + 1
    ensures LoopValue(ctx, lc, CountedFrom(ctx, lc, None, body, keys, 1.0, Fin(a as real), fs, env, fuel).0.frames, env)
      == Ok(Num(Fin(b as real)))
    decreases b - a
  {
    CountedStep(ctx, lc, body, keys, a, b, fs, env, fuel);
    var after := PassFrames(ctx, lc, body, keys, a, fs, env);
    if a < b {
      CountedEndsOnLast(ctx, lc, body, keys, a + 1, b, after, env, fuel - 1);
    } else {
      CountedNoPass(ctx, lc, None, body, keys, 1.0, (a + 1) as real, after, env, fuel - 1);
      var setFs := ctx.setVar(fs, env, lc.variable, Num(Fin(a as real)));
      assert LoopValue(ctx, lc, after, env) == LoopValue(ctx, lc, setFs, env);
    }
  }

  /** With a fixed limit b and a body that never throws, a pass at a <= b
      leads to the loop from a + 1 on the frames the pass left. */
  lemma CountedStep(ctx: Context, lc: LoopControl, body: seq<Stmt>, keys: seq<string>,
                    a: int, b: int, fs: Frames, env: EnvId, fuel: nat)
    requires forall g :: ctx.evalExpr(lc.toExpr, g, env) == Ok(Num(Fin(b as real)))
    requires forall g :: ctx.execBlock(body, g, env).thrown.None?
    requires a <= b && fuel > 0
    ensures CountedFrom(ctx, lc, None, body, keys, 1.0, Fin(a as real), fs, env, fuel).0
      == CountedFrom(ctx, lc, None, body, keys, 1.0, Fin((a + 1) as real), PassFrames(ctx, lc, body, keys, a, fs, env), env, fuel - 1).0
  {
    var setFs := ctx.setVar(fs, env, lc.variable, Num(Fin(a as real)));
    ScopedNoThrow(ctx, body, keys, setFs, env);
    CountedUnroll(ctx, lc, body, keys, a, b, fs, env, fuel);
  }

  /** `executeDo`. */
  function DoEffect(ctx: Context, fs: Frames, env: EnvId, s: Stmt, fuel: nat): Outcome
    requires s.Do?
  {
    var keys := RecordKeys(s.forRecords);
    if s.loopControl.Some? then
      var lc := s.loopControl.value;
      var stepValue := if lc.byExpr.Some? then ctx.evalExpr(lc.byExpr.value, fs, env) else Ok(Int(1));
      if stepValue.Err? then Thrown(fs, stepValue.msg)
      else
        var step := ToNumber(stepValue.value);
        if !step.Fin? || step.x == 0.0 then Thrown(fs, BadStep)
        else
          match ctx.evalExpr(lc.fromExpr, fs, env)
          case Err(m) => Thrown(fs, m)
          case Ok(from) => CountedFrom(ctx, lc, s.whileExpr, s.body, keys, step.x, ToNumber(from), fs, env, fuel).0
    else if s.whileExpr.Some? then WhileLoop(ctx, s.whileExpr.value, s.body, keys, fs, env, fuel)
    else ScopedRun(ctx, s.body, keys, fs, env)
  }

  /** A BY value that is zero or not a finite number throws before the
      start value is evaluated and before anything changes. */
  lemma DoRejectsStep(ctx: Context, fs: Frames, env: EnvId, s: Stmt, fuel: nat)
    requires s.Do? && s.loopControl.Some? && s.loopControl.value.byExpr.Some?
    requires var v := ctx.evalExpr(s.loopControl.value.byExpr.value, fs, env);
      v.Ok? && (ToNumber(v.value) == Fin(0.0) || !ToNumber(v.value).Fin?)
    ensures DoEffect(ctx, fs, env, s, fuel) == Thrown(fs, BadStep)
  {
  }

  /** A start value that is not a finite number throws on the first limit
      check, before the loop variable is set. */
  lemma DoRejectsStart(ctx: Context, fs: Frames, env: EnvId, s: Stmt, fuel: nat)
    requires s.Do? && s.loopControl.Some? && s.loopControl.value.byExpr.None?
    requires ctx.evalExpr(s.loopControl.value.fromExpr, fs, env).Ok?
    requires !ToNumber(ctx.evalExpr(s.loopControl.value.fromExpr, fs, env).value).Fin?
    requires ctx.evalExpr(s.loopControl.value.toExpr, fs, env).Ok?
    ensures DoEffect(ctx, fs, env, s, fuel) == Thrown(fs, BadBounds)
  {
  }

  method RunCounted(h: Heap, ctx: Context, lc: LoopControl, whileExpr: Option<Expr>, body: seq<Stmt>, keys: seq<string>,
                    step: real, start: JsNum, env: EnvId, fuel: nat) returns (r: Result<()>)
    modifies h
    ensures Installed(CountedFrom(ctx, lc, whileExpr, body, keys, step, start, old(h.frames), env, fuel).0, h.frames, r)
  {
    var current := start;
    var left := fuel;
    while true
      invariant CountedFrom(ctx, lc, whileExpr, body, keys, step, start, old(h.frames), env, fuel).0
        == CountedFrom(ctx, lc, whileExpr, body, keys, step, current, h.frames, env, left).0
      decreases left
    {
      var limitValue :- ctx.evalExpr(lc.toExpr, h.frames, env);
      var limit := ToNumber(limitValue);
      if !limit.Fin? || !current.Fin? {
        return Err(BadBounds);
      }
      if !(if step >= 0.0 then current.x <= limit.x else current.x >= limit.x) {
        return Ok(());
      }
      h.frames := ctx.setVar(h.frames, env, lc.variable, Num(current));
      var go :- Condition(ctx, whileExpr, h.frames, env);
      if !go {
        return Ok(());
      }
      if left == 0 {
        return Err(OutOfFuel);
      }
      r := RunScoped(h, ctx, body, keys, env);
      if r.Err? {
        return;
      }
      current := Fin(current.x + step);
      left := left - 1;
    }
  }

  method ExecuteDo(h: Heap, ctx: Context, env: EnvId, s: Stmt, fuel: nat) returns (r: Result<()>)
    requires s.Do?
    modifies h
    ensures Installed(DoEffect(ctx, old(h.frames), env, s, fuel), h.frames, r)
  {
    var keys := RecordKeys(s.forRecords);
    if s.loopControl.Some? {
      var lc := s.loopControl.value;
      var stepValue := Int(1);
      if lc.byExpr.Some? {
        stepValue :- ctx.evalExpr(lc.byExpr.value, h.frames, env);
      }
      var step := ToNumber(stepValue);
      if !step.Fin? || step.x == 0.0 {
        return Err(BadStep);
      }
      var from :- ctx.evalExpr(lc.fromExpr, h.frames, env);
      r := RunCounted(h, ctx, lc, s.whileExpr, s.body, keys, step.x, ToNumber(from), env, fuel);
    } else if s.whileExpr.Some? {
      r := RunWhile(h, ctx, s.whileExpr.value, s.body, keys, env, fuel);
    } else {
      r := RunScoped(h, ctx, s.body, keys, env);
    }
  }

  // ------------------------------------------------------------- FOR EACH

  const NoStore := "Prisma client is required for FOR EACH statements"

  function Unavailable(target: string): string { "Prisma model " + target + " is not available" }
  function NoFindFirst(target: string): string { "Prisma model " + target + " does not support findFirst" }
  function NoParent(target: string, relation: string): string {
    "No active record for " + relation + " to satisfy FOR EACH " + target + " OF " + relation
  }

  /** `(node.qualifier || 'EACH').toUpperCase()`. */
  function Qualifier(s: Stmt): string requires s.ForEach? {
    if s.qualifier == "" then "EACH" else Upper(s.qualifier)
  }

  /** `orderBy.map(buildOrderBy)`, stopping at the first exception. */
  function OrderValues(ctx: Context, entries: seq<OrderEntry>, target: string, fs: Frames, env: EnvId)
    : (r: Result<seq<Value>>)
    ensures r.Ok? ==> |r.value| == |entries|
    decreases |entries|
  {
    if entries == [] then Ok([])
    else
      var first :- ctx.buildOrderBy(entries[0], target, fs, env);
      var rest :- OrderValues(ctx, entries[1..], target, fs, env);
      Ok([first] + rest)
  }

  /** The delegate and the query of a FOR EACH, or the exception thrown
      before the store is asked. */
  function ForEachQuery(ctx: Context, prisma: Option<map<string, Delegate>>, fs: Frames, env: EnvId, s: Stmt)
    : (r: Result<(Delegate, Query)>)
    requires s.ForEach?
    ensures r.Ok? ==> r.value.0.findMany.Some?
    ensures r.Ok? && s.relation.Some? ==>
      var parent := FindStmt.ActiveRecord(FrameOf(fs, env), Lower(s.relation.value));
      parent.Some? && ToBoolean(parent.value)
    ensures r.Ok? ==> (r.value.1.orderBy.Some? <==> Qualifier(s) == "EACH" && s.orderBy != [])
  {
    if prisma.None? then Err(NoStore)
    else
      var name := ctx.lowerFirst(s.target);
      if name !in prisma.value || prisma.value[name].findMany.None? then Err(Unavailable(s.target))
      else
        var targetLower := Lower(s.target);
        var where :- ctx.buildWhere(s.where, fs, env, targetLower);
        var where' :-
          if s.relation.None? then Ok(where)
          else
            var parentKey := Lower(s.relation.value);
            var parent := FindStmt.ActiveRecord(FrameOf(fs, env), parentKey);
            if parent.None? || !ToBoolean(parent.value) then Err(NoParent(s.target, s.relation.value))
            else Ok(Some(ctx.mergeWhereClauses(where, ctx.relationWhere(targetLower, parentKey, parent.value))));
        var orderBy :-
          if Qualifier(s) == "EACH" && s.orderBy != [] then
            var entries :- OrderValues(ctx, s.orderBy, targetLower, fs, env);
            Ok(Some(entries))
          else Ok(None);
        Ok((prisma.value[name], Query(where', orderBy)))
  }

  /** The last row alone, or nothing. */
  function LastOf(list: seq<Value>): (r: seq<Value>)
    ensures |r| <= 1 && (r == [] <==> list == []) && (r != [] ==> r[0] == list[|list| - 1])
  {
    if list == [] then [] else [list[|list| - 1]]
  }

  /** The rows to visit: FIRST asks `findFirst` and keeps a truthy record;
      LAST keeps the last row of `findMany`; anything else keeps them all. */
  function Rows(d: Delegate, qualifier: string, q: Query, target: string): (r: Result<seq<Value>>)
    requires d.findMany.Some?
    ensures r.Ok? && qualifier in {"FIRST", "LAST"} ==> |r.value| <= 1
    ensures r.Ok? && qualifier == "LAST" ==>
      (d.findMany.value(q).Ok? && r.value == LastOf(d.findMany.value(q).value))
    ensures qualifier !in {"FIRST", "LAST"} ==> r == d.findMany.value(q)
    ensures qualifier == "FIRST" && d.findFirst.None? ==> r == Err(NoFindFirst(target))
  {
    if qualifier == "FIRST" then
      if d.findFirst.None? then Err(NoFindFirst(target))
      else
        var record :- d.findFirst.value(q);
        Ok(if ToBoolean(record) then [record] else [])
    else if qualifier == "LAST" then
      var list :- d.findMany.value(q);
      Ok(LastOf(list))
    else d.findMany.value(q)
  }

  /** The row loop: bind each row to the record buffer (when there is one)
      and the variable, then run the body; an exception ends the loop. */
  function RowLoop(ctx: Context, body: seq<Stmt>, key: string, rows: seq<Value>, fs: Frames, env: EnvId): Outcome
    decreases |rows|
  {
    if rows == [] then Outcome(fs, None)
    else
      var o := ctx.execBlock(body, fs[env := FindStmt.BindRecord(FrameOf(fs, env), key, rows[0])], env);
      if o.thrown.Some? then o else RowLoop(ctx, body, key, rows[1..], o.frames, env)
  }

  /** `executeForEach`: the target's entries are saved, cleared in the
      records map, bound to each row in turn, and put back after the last
      row. There is no `finally`: an exception from a body leaves the
      current row bound. */
  function ForEachEffect(ctx: Context, prisma: Option<map<string, Delegate>>, fs: Frames, env: EnvId, s: Stmt): Outcome
    requires s.ForEach?
  {
    match ForEachQuery(ctx, prisma, fs, env, s)
    case Err(m) => Thrown(fs, m)
    case Ok(req) =>
      match Rows(req.0, Qualifier(s), req.1, s.target)
      case Err(m) => Thrown(fs, m)
      case Ok(rows) =>
        var key := Lower(s.target);
        var f := FrameOf(fs, env);
        var saved := SavedOf(f, key);
        var cleared := if f.records.Some? then f.(records := Some(f.records.value[key := Null])) else f;
        var o := RowLoop(ctx, s.body, key, rows, fs[env := cleared], env);
        if o.thrown.Some? then o
        else Outcome(o.frames[env := RestoreOne(FrameOf(o.frames, env), saved)], None)
  }

  /** A FOR EACH that completes leaves the target's variable and record
      buffer entries as they were before it. */
  lemma ForEachRestores(ctx: Context, prisma: Option<map<string, Delegate>>, fs: Frames, env: EnvId, s: Stmt)
    requires s.ForEach? && ForEachEffect(ctx, prisma, fs, env, s).thrown.None?
    ensures var before := FrameOf(fs, env);
      var after := FrameOf(ForEachEffect(ctx, prisma, fs, env, s).frames, env);
      Get(after.vars, Lower(s.target)) == Get(before.vars, Lower(s.target))
      && (after.records.Some? ==> Get(after.records.value, Lower(s.target)) == FindStmt.ActiveRecord(before, Lower(s.target)))
  {
  }

  /** A body that throws on the first row leaves that row bound to the
      variable: the entries are not put back. */
  lemma ForEachThrowKeepsRow(ctx: Context, prisma: Option<map<string, Delegate>>, fs: Frames, env: EnvId, s: Stmt)
    requires s.ForEach? && ForEachQuery(ctx, prisma, fs, env, s).Ok?
    requires var req := ForEachQuery(ctx, prisma, fs, env, s).value;
      var rows := Rows(req.0, Qualifier(s), req.1, s.target);
      rows.Ok? && rows.value != []
    requires forall g :: ctx.execBlock(s.body, g, env).thrown.Some? && ctx.execBlock(s.body, g, env).frames == g
    ensures var req := ForEachQuery(ctx, prisma, fs, env, s).value;
      var o := ForEachEffect(ctx, prisma, fs, env, s);
      o.thrown.Some?
      && Get(FrameOf(o.frames, env).vars, Lower(s.target)) == Some(Rows(req.0, Qualifier(s), req.1, s.target).value[0])
  {
  }

  /** FOR EACH ... OF parent with no truthy active record for the parent
      throws before the store is asked, and changes nothing. */
  lemma ForEachNeedsParent(ctx: Context, prisma: Option<map<string, Delegate>>, fs: Frames, env: EnvId, s: Stmt)
    requires s.ForEach? && s.relation.Some?
    requires prisma.Some? && ctx.lowerFirst(s.target) in prisma.value
    requires prisma.value[ctx.lowerFirst(s.target)].findMany.Some?
    requires ctx.buildWhere(s.where, fs, env, Lower(s.target)).Ok?
    requires var parent := FindStmt.ActiveRecord(FrameOf(fs, env), Lower(s.relation.value));
      parent.None? || !ToBoolean(parent.value)
    ensures ForEachEffect(ctx, prisma, fs, env, s) == Thrown(fs, NoParent(s.target, s.relation.value))
  {
  }

  /** `acc` in front of a list of values, or the exception. */
  function Prefixed(acc: seq<Value>, r: Result<seq<Value>>): Result<seq<Value>> {
    match r
    case Ok(rest) => Ok(acc + rest)
    case Err(m) => Err(m)
  }

  lemma PrefixedJoin(acc: seq<Value>, v: Value, r: Result<seq<Value>>)
    ensures Prefixed(acc, match r case Ok(rest) => Ok([v] + rest) case Err(m) => Err(m)) == Prefixed(acc + [v], r)
  {
    if r.Ok? {
      assert acc + ([v] + r.value) == acc + [v] + r.value;
    }
  }

  method BuildOrder(ctx: Context, entries: seq<OrderEntry>, target: string, fs: Frames, env: EnvId)
    returns (r: Result<seq<Value>>)
    ensures r == OrderValues(ctx, entries, target, fs, env)
  {
    var acc: seq<Value> := [];
    assert entries[0..] == entries;
    assert Prefixed([], OrderValues(ctx, entries, target, fs, env)) == OrderValues(ctx, entries, target, fs, env) by {
      var all := OrderValues(ctx, entries, target, fs, env);
      if all.Ok? {
        assert [] + all.value == all.value;
      }
    }
    for n := 0 to |entries|
      invariant OrderValues(ctx, entries, target, fs, env) == Prefixed(acc, OrderValues(ctx, entries[n..], target, fs, env))
    {
      assert entries[n..][1..] == entries[n + 1..] && entries[n..][0] == entries[n];
      var v := ctx.buildOrderBy(entries[n], target, fs, env);
      if v.Err? {
        return Err(v.msg);
      }
      PrefixedJoin(acc, v.value, OrderValues(ctx, entries[n + 1..], target, fs, env));
      acc := acc + [v.value];
    }
    assert entries[|entries|..] == [] && acc + [] == acc;
    r := Ok(acc);
  }

  method RunRows(h: Heap, ctx: Context, body: seq<Stmt>, key: string, rows: seq<Value>, env: EnvId)
    returns (r: Result<()>)
    modifies h
    ensures Installed(RowLoop(ctx, body, key, rows, old(h.frames), env), h.frames, r)
  {
    for n := 0 to |rows|
      invariant RowLoop(ctx, body, key, rows, old(h.frames), env) == RowLoop(ctx, body, key, rows[n..], h.frames, env)
    {
      assert rows[n..][1..] == rows[n + 1..];
      h.frames := h.frames[env := FindStmt.BindRecord(FrameOf(h.frames, env), key, rows[n])];
      r := ExecBlock(h, ctx, body, env);
      if r.Err? {
        return;
      }
    }
    assert rows[|rows|..] == [];
    r := Ok(());
  }

  method ExecuteForEach(h: Heap, ctx: Context, env: EnvId, s: Stmt) returns (r: Result<()>)
    requires s.ForEach?
    modifies h
    ensures Installed(ForEachEffect(ctx, h.prisma, old(h.frames), env, s), h.frames, r)
  {
    var req :- ForEachQuery(ctx, h.prisma, h.frames, env, s);
    var rows :- Rows(req.0, Qualifier(s), req.1, s.target);
    var key := Lower(s.target);
    var f := FrameOf(h.frames, env);
    var saved := SavedOf(f, key);
    var cleared := f;
    if f.records.Some? {
      cleared := f.(records := Some(f.records.value[key := Null]));
    }
    h.frames := h.frames[env := cleared];
    r := RunRows(h, ctx, s.body, key, rows, env);
    if r.Err? {
      return;
    }
    h.frames := h.frames[env := RestoreOne(FrameOf(h.frames, env), saved)];
  }

  // ------------------------------------------------------------ PROCEDURE

  /** The definition `executeProcedure` stores: the node's fields and the
      defining environment. */
  function Definition(env: EnvId, s: Stmt): ProcDef requires s.Procedure? {
    ProcDef(s.name, s.parameters, s.body, s.isPrivate, s.external, s.inSuper, s.prototypeOnly, env)
  }

  /** `executeProcedure`: creates `env.procedures` if missing and stores the
      definition under the procedure's name, replacing an earlier one. */
  function ProcedureEffect(f: Frame, env: EnvId, s: Stmt): (r: Frame)
    requires s.Procedure?
    ensures r.procedures.Some? && s.name in r.procedures.value
    ensures r.procedures.value[s.name] == Definition(env, s) && r.procedures.value[s.name].ownerEnv == env
    ensures f.procedures.Some? ==> forall n :: n in f.procedures.value && n != s.name ==>
      n in r.procedures.value && r.procedures.value[n] == f.procedures.value[n]
    ensures f.procedures.None? ==> r.procedures.value.Keys == {s.name}
    ensures r.(procedures := f.procedures) == f
  {
    f.(procedures := Some((if f.procedures.Some? then f.procedures.value else map[])[s.name := Definition(env, s)]))
  }

  method ExecuteProcedure(h: Heap, env: EnvId, s: Stmt)
    requires s.Procedure?
    modifies h
    ensures h.frames == old(h.frames)[env := ProcedureEffect(FrameOf(old(h.frames), env), env, s)]
  {
    var f := FrameOf(h.frames, env);
    var procedures := if f.procedures.Some? then f.procedures.value else map[];
    procedures := procedures[s.name := Definition(env, s)];
    h.frames := h.frames[env := f.(procedures := Some(procedures))];
  }
}
