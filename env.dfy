/** The environment records of the modular runtime and the helpers its
    statement executors reach through the `context` object.

    An environment is a JavaScript object with `vars`, `records`, `varDefs`,
    `procedures`, `inputs`, an `output` callback, and, on the root, the
    `widgets` and `eventHandlers` registries; every environment but the root
    has a `parent`. Here the environments live in one `Heap`: a map from an
    environment's identity to its fields, which the executors reassign, plus
    the fixed parent links. A parent is always created before its children,
    so a parent's identity is smaller than its child's. */
module Runtime {
  import opened Results
  import opened Values
  import opened Ast

  type EnvId = nat

  /** `env.parent` for every environment that has one. */
  type ParentLinks = m: map<EnvId, EnvId> | forall id | id in m :: m[id] < id witness map[]

  // ------------------------------------------------------------- the root

  /** The environment reached by following parent links until there is none. */
  function RootOf(parent: ParentLinks, id: EnvId): (r: EnvId)
    ensures r !in parent && r <= id
    decreases id
  {
    if id in parent then RootOf(parent, parent[id]) else id
  }

  /** The environment `n` parent links above `id` (or the root, if the chain is shorter). */
  function Ancestor(parent: ParentLinks, id: EnvId, n: nat): EnvId
    decreases n
  {
    if n == 0 || id !in parent then id else Ancestor(parent, parent[id], n - 1)
  }

  /** Every environment on a chain has the same root, so the registries kept
      on the root are shared by all nested environments. */
  lemma {:induction false} AncestorsShareRoot(parent: ParentLinks, id: EnvId, n: nat)
    ensures RootOf(parent, Ancestor(parent, id, n)) == RootOf(parent, id)
    decreases n
  {
    if n > 0 && id in parent {
      AncestorsShareRoot(parent, parent[id], n - 1);
    }
  }

  /** The root is an ancestor of the environment and has no parent. */
  lemma {:induction false} RootIsAncestor(parent: ParentLinks, id: EnvId)
    ensures Ancestor(parent, id, id) == RootOf(parent, id)
    ensures RootOf(parent, id) !in parent
    decreases id
  {
    if id in parent {
      RootIsAncestor(parent, parent[id]);
      AncestorFromRoot(parent, parent[id], parent[id], id - 1);
    }
  }

  /** Climbing further than the root stays at the root. */
  lemma {:induction false} AncestorFromRoot(parent: ParentLinks, id: EnvId, n: nat, m: nat)
    requires n <= m
    requires Ancestor(parent, id, n) == RootOf(parent, id)
    ensures Ancestor(parent, id, m) == RootOf(parent, id)
    decreases n
  {
    if id in parent {
      if n > 0 {
        AncestorFromRoot(parent, parent[id], n - 1, m - 1);
      } else {
        assert false;
      }
    }
  }

  /** `getRootEnv`: walk the parent links until there is none. */
  method GetRootEnv(parent: ParentLinks, env: EnvId) returns (root: EnvId)
    ensures root == RootOf(parent, env)
  {
    root := env;
    while root in parent
      invariant RootOf(parent, root) == RootOf(parent, env)
      decreases root
    {
      root := parent[root];
    }
  }

  // ------------------------------------------------------- registry records

  /** The `container` of a created widget: `{type, name}`. */
  datatype WidgetContainer = WidgetContainer(ctype: string, name: string)

  /** A widget registry entry. Variables bound to a widget hold `Obj(EntryRef(key))`,
      so they observe every later change to the entry. */
  datatype WidgetEntry = WidgetEntry(
    name: string, displayName: string, wtype: Option<string>,
    defined: bool, created: bool, enabled: bool, visible: bool,
    attributes: map<string, Value>, container: Option<WidgetContainer>,
    lastEvent: Option<string>, noUndo: bool)

  /** A registered event handler: the block to run and the environment it was registered in. */
  datatype Handler = Handler(body: seq<Stmt>, ownerEnv: EnvId)

  /** An entry of `env.procedures`. */
  datatype ProcDef = ProcDef(
    name: string, parameters: seq<Param>, body: seq<Stmt>, isPrivate: bool,
    external: Option<External>, inSuper: bool, prototypeOnly: bool, ownerEnv: EnvId)

  /** An entry of `env.varDefs`: `{dataType, noUndo}` for a variable and
      `{dataType, noUndo, isWidget: true}` for a widget. */
  datatype VarDef = VarDef(dataType: Option<string>, noUndo: bool, isWidget: bool)

  /** One piece of a rich DISPLAY line. A widget segment is described by the
      widget value it renders. */
  datatype Segment = Text(text: string) | WidgetSegment(widget: Value)

  /** What `env.output` was called with: a line of text, or a rich line. */
  datatype OutputItem = Line(line: string) | Rich(centered: bool, segments: seq<Segment>)

  /** The fields of one environment. `output` is the list of items passed so
      far to the `env.output` callback, `None` when there is no callback. */
  datatype Frame = Frame(
    vars: map<string, Value>,
    records: Option<map<string, Value>>,
    varDefs: Option<map<string, VarDef>>,
    procedures: Option<map<string, ProcDef>>,
    inputs: Option<seq<Value>>,
    output: Option<seq<OutputItem>>,
    widgets: Option<map<string, WidgetEntry>>,
    eventHandlers: Option<map<string, map<string, Handler>>>)

  const EmptyFrame := Frame(map[], None, None, None, None, None, None, None)

  type Frames = map<EnvId, Frame>

  /** The fields of environment `id`. */
  function FrameOf(fs: Frames, id: EnvId): Frame {
    if id in fs then fs[id] else EmptyFrame
  }

  /** `env.output(item)`: appends to the log, or throws when there is no callback. */
  function Emit(f: Frame, item: OutputItem): (r: Result<Frame>)
    ensures r.Ok? <==> f.output.Some?
    ensures r.Ok? ==> r.value == f.(output := Some(f.output.value + [item]))
  {
    if f.output.None? then Err("TypeError: env.output is not a function")
    else Ok(f.(output := Some(f.output.value + [item])))
  }

  // ---------------------------------------------------------- the store

  /** The query handed to the store: `{where?, orderBy?}`; the compiled filter
      and sort entries are opaque values. */
  datatype Query = Query(where: Option<Value>, orderBy: Option<seq<Value>>)

  /** A store delegate: `findMany` and `findFirst`, when they are functions. A
      rejected promise is an `Err`; `findFirst` resolves to a record or `null`. */
  datatype Delegate = Delegate(
    findMany: Option<Query -> Result<seq<Value>>>,
    findFirst: Option<Query -> Result<Value>>)

  // ---------------------------------------------------------- the context

  /** The state after a block: the environments, and the message of the
      exception it threw, if it threw. */
  datatype Outcome = Outcome(frames: Frames, thrown: Option<string>)

  /** The `context` object: helpers whose code is not part of this model,
      taken as given functions of the environments they read.
      `readFromTerminal` stands for the `window.prompt` call of INPUT. */
  datatype Context = Context(
    evalExpr: (Expr, Frames, EnvId) -> Result<Value>,
    setVar: (Frames, EnvId, string, Value) -> Frames,
    truthy: Value -> bool,
    execBlock: (seq<Stmt>, Frames, EnvId) -> Outcome,
    initialValueForType: Option<string> -> Value,
    formatDisplayValue: (Value, Value) -> string,
    centerLine: string -> string,
    runProcedure: (Stmt, Frames, EnvId) -> Outcome,
    lowerFirst: string -> string,
    buildWhere: (Option<Expr>, Frames, EnvId, string) -> Result<Option<Value>>,
    relationWhere: (string, string, Value) -> Value,
    mergeWhereClauses: (Option<Value>, Value) -> Value,
    buildOrderBy: (OrderEntry, string, Frames, EnvId) -> Result<Value>,
    readFromTerminal: Option<string> -> Value)

  /** Every environment of one interpreter run: the fields, reassigned by the
      executors, the parent links, and `env.prisma`, the store's delegates. */
  class Heap {
    const parent: ParentLinks
    const prisma: Option<map<string, Delegate>>
    var frames: Frames

    constructor (links: ParentLinks, store: Option<map<string, Delegate>>, initial: Frames)
      ensures parent == links && prisma == store && frames == initial
    {
      parent := links;
      prisma := store;
      frames := initial;
    }
  }

  /** Runs a block through `context.execBlock` and installs the state it leaves,
      even when it throws. */
  method ExecBlock(h: Heap, ctx: Context, body: seq<Stmt>, env: EnvId) returns (r: Result<()>)
    modifies h
    ensures var o := ctx.execBlock(body, old(h.frames), env);
      h.frames == o.frames && (r.Err? <==> o.thrown.Some?) && (r.Err? ==> r.msg == o.thrown.value)
  {
    var o := ctx.execBlock(body, h.frames, env);
    h.frames := o.frames;
    if o.thrown.Some? {
      r := Err(o.thrown.value);
    } else {
      r := Ok(());
    }
  }
}
