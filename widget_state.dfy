/** The widget and event registries, which live on the root environment:
    entries keyed by the normalised widget name, and per widget a table of
    handlers keyed by the upper-case event name. Each operation is a method on
    the `Heap` proved to produce the state its specification function gives;
    the lemmas below are about those functions. */
module WidgetState {
  import opened Results
  import opened Text
  import opened Values
  import opened Ast
  import opened Runtime

  // --------------------------------------------------------------- names

  /** `normalizeWidgetName`: trimmed and lower-cased. */
  function NormalizeWidgetName(name: string): string { Lower(Trim(name)) }

  /** A trimmed string does not begin or end with white space. */
  lemma TrimmedEnds(s: string)
    ensures var t := Trim(s); |t| > 0 ==> !IsSpace(t[0]) && !IsSpace(t[|t| - 1])
  {
    var u := TrimStart(s);
    var t := TrimEnd(u);
    TrimEndTakes(u);
    if |t| > 0 {
      assert t[0] == u[0];
    }
  }

  /** Normalising twice changes nothing, so a stored key is its own key. */
  lemma NormalizeIdempotent(name: string)
    ensures NormalizeWidgetName(NormalizeWidgetName(name)) == NormalizeWidgetName(name)
  {
    var t := Trim(name);
    var l := Lower(t);
    TrimmedEnds(name);
    if |l| > 0 {
      assert l[0] == LowerChar(t[0]) && l[|l| - 1] == LowerChar(t[|t| - 1]);
    }
    TrimFixed(l);
    LowerIdempotent(t);
  }

  lemma LowerIdempotent(s: string)
    ensures Lower(Lower(s)) == Lower(s)
  {
    assert forall k :: 0 <= k < |s| ==> LowerChar(LowerChar(s[k])) == LowerChar(s[k]);
  }

  // ------------------------------------------------------ widget registry

  /** `root.widgets`, empty while it has not been created. */
  function Widgets(f: Frame): map<string, WidgetEntry> {
    if f.widgets.Some? then f.widgets.value else map[]
  }

  /** `ensureWidgetRegistry` on the root's fields. */
  function WithWidgetRegistry(f: Frame): (r: Frame)
    ensures r.widgets.Some? && Widgets(r) == Widgets(f)
    ensures r == f.(widgets := r.widgets)
  {
    if f.widgets.Some? then f else f.(widgets := Some(map[]))
  }

  /** The entry `ensureWidgetEntry` creates. */
  function DefaultEntry(key: string, name: string): WidgetEntry {
    WidgetEntry(key, name, None, false, false, false, false, map[], None, None, false)
  }

  /** `ensureWidgetEntry` on the root's fields. */
  function WithEntry(f: Frame, name: string): Frame {
    var g := WithWidgetRegistry(f);
    var key := NormalizeWidgetName(name);
    if key in Widgets(g) then g
    else g.(widgets := Some(Widgets(g)[key := DefaultEntry(key, name)]))
  }

  /** The entry `ensureWidgetEntry` returns. */
  function EntryOf(f: Frame, name: string): WidgetEntry {
    var key := NormalizeWidgetName(name);
    if key in Widgets(f) then Widgets(f)[key] else DefaultEntry(key, name)
  }

  /** The registry with the entry for `name` replaced by `e`. */
  function PutEntry(f: Frame, name: string, e: WidgetEntry): Frame {
    f.(widgets := Some(Widgets(f)[NormalizeWidgetName(name) := e]))
  }

  /** `ensureWidgetEntry` creates the default entry only when the name is
      missing; an existing entry, and every other entry, is left as it was. */
  lemma EnsureEntryKeeps(f: Frame, name: string)
    ensures var key := NormalizeWidgetName(name);
      var g := WithEntry(f, name);
      key in Widgets(g) && Widgets(g)[key] == EntryOf(f, name)
      && (key in Widgets(f) ==> Widgets(g) == Widgets(f))
      && (key !in Widgets(f) ==> Widgets(g)[key] == DefaultEntry(key, name))
      && (forall k :: k in Widgets(f) ==> k in Widgets(g) && Widgets(g)[k] == Widgets(f)[k])
      && g == f.(widgets := g.widgets)
  {
  }

  /** Repeated calls return the same entry and change nothing more. */
  lemma EnsureEntryIdempotent(f: Frame, name: string)
    ensures WithEntry(WithEntry(f, name), name) == WithEntry(f, name)
    ensures EntryOf(WithEntry(f, name), name) == EntryOf(f, name)
  {
  }

  /** `defineWidget` on the root's fields. */
  function DefineWidgetFrame(f: Frame, widgetType: string, name: string, attributes: map<string, Value>, noUndo: bool): Frame {
    var e := EntryOf(f, name);
    PutEntry(WithEntry(f, name), name,
      e.(wtype := Some(widgetType), displayName := name, defined := true, noUndo := noUndo,
         attributes := e.attributes + attributes))
  }

  /** `defineWidget` sets the type, display name, `defined` and `noUndo`, and
      merges the attributes: given keys overwrite, the others stay. */
  lemma DefineWidgetEffect(f: Frame, widgetType: string, name: string, attributes: map<string, Value>, noUndo: bool)
    ensures var g := DefineWidgetFrame(f, widgetType, name, attributes, noUndo);
      var key := NormalizeWidgetName(name);
      var e := Widgets(g)[key];
      key in Widgets(g) && e.wtype == Some(widgetType) && e.displayName == name && e.defined && e.noUndo == noUndo
      && e.name == EntryOf(f, name).name && e.created == EntryOf(f, name).created
      && e.enabled == EntryOf(f, name).enabled && e.visible == EntryOf(f, name).visible
      && (forall k :: k in attributes ==> k in e.attributes && e.attributes[k] == attributes[k])
      && (forall k :: k !in attributes && k in EntryOf(f, name).attributes ==>
            k in e.attributes && e.attributes[k] == EntryOf(f, name).attributes[k])
      && (forall k :: k in e.attributes ==> k in attributes || k in EntryOf(f, name).attributes)
      && (forall k :: k != key && k in Widgets(f) ==> k in Widgets(g) && Widgets(g)[k] == Widgets(f)[k])
  {
  }

  /** The options `createWidget` reads: `container`, and `visible`/`enabled`
      when they are booleans. */
  datatype CreateOptions = CreateOptions(container: Option<WidgetContainer>, visible: Option<bool>, enabled: Option<bool>)

  /** `createWidget` on the root's fields. An empty type string is falsy and keeps the old type. */
  function CreateWidgetFrame(f: Frame, widgetType: string, name: string, o: CreateOptions): Frame {
    PutEntry(WithEntry(f, name), name, Created(EntryOf(f, name), widgetType, name, o))
  }

  /** The entry after `createWidget`'s assignments. */
  function Created(e: WidgetEntry, widgetType: string, name: string, o: CreateOptions): WidgetEntry {
    e.(wtype := if widgetType != "" then Some(widgetType) else e.wtype,
       created := true, displayName := name,
       container := if o.container.Some? then o.container else e.container,
       visible := if o.visible.Some? then o.visible.value else e.visible,
       enabled := if o.enabled.Some? then o.enabled.value else e.enabled)
  }

  /** `createWidget` sets `created`, changes the type only when one is given and
      `visible`/`enabled` only when a boolean is supplied. */
  lemma CreateWidgetEffect(f: Frame, widgetType: string, name: string, o: CreateOptions)
    ensures var g := CreateWidgetFrame(f, widgetType, name, o);
      var key := NormalizeWidgetName(name);
      var old_ := EntryOf(f, name);
      key in Widgets(g) &&
      var e := Widgets(g)[key];
      e.created && e.displayName == name
      && (widgetType != "" ==> e.wtype == Some(widgetType)) && (widgetType == "" ==> e.wtype == old_.wtype)
      && e.visible == (if o.visible.Some? then o.visible.value else old_.visible)
      && e.enabled == (if o.enabled.Some? then o.enabled.value else old_.enabled)
      && (o.container.None? ==> e.container == old_.container)
      && e.defined == old_.defined && e.attributes == old_.attributes && e.lastEvent == old_.lastEvent
      && (forall k :: k != key && k in Widgets(f) ==> k in Widgets(g) && Widgets(g)[k] == Widgets(f)[k])
  {
  }

  /** The keys of a `setWidgetState` update that the executors pass. */
  datatype Updates = Updates(enabled: Option<bool>, visible: Option<bool>, lastEvent: Option<string>)

  function ApplyUpdates(e: WidgetEntry, u: Updates): WidgetEntry {
    e.(enabled := if u.enabled.Some? then u.enabled.value else e.enabled,
       visible := if u.visible.Some? then u.visible.value else e.visible,
       lastEvent := if u.lastEvent.Some? then u.lastEvent else e.lastEvent)
  }

  /** `setWidgetState` on the root's fields. */
  function SetWidgetStateFrame(f: Frame, name: string, u: Updates): Frame {
    PutEntry(WithEntry(f, name), name, ApplyUpdates(EntryOf(f, name), u))
  }

  /** `setWidgetState` overwrites exactly the keys present in the update. */
  lemma SetWidgetStateExact(f: Frame, name: string, u: Updates)
    ensures var g := SetWidgetStateFrame(f, name, u);
      var key := NormalizeWidgetName(name);
      var old_ := EntryOf(f, name);
      key in Widgets(g) &&
      var e := Widgets(g)[key];
      (u.enabled.Some? ==> e.enabled == u.enabled.value) && (u.enabled.None? ==> e.enabled == old_.enabled)
      && (u.visible.Some? ==> e.visible == u.visible.value) && (u.visible.None? ==> e.visible == old_.visible)
      && (u.lastEvent.Some? ==> e.lastEvent == u.lastEvent) && (u.lastEvent.None? ==> e.lastEvent == old_.lastEvent)
      && e.(enabled := old_.enabled, visible := old_.visible, lastEvent := old_.lastEvent) == old_
      && (forall k :: k != key && k in Widgets(f) ==> k in Widgets(g) && Widgets(g)[k] == Widgets(f)[k])
      && g == f.(widgets := g.widgets)
  {
  }

  // ---------------------------------------------------------- heap steps

  /** The environments after a change `f` to the root of `env`. */
  function AtRoot(h: Heap, fs: Frames, env: EnvId, f: Frame): Frames {
    fs[RootOf(h.parent, env) := f]
  }

  /** The root's fields in `fs`. */
  function RootFrame(h: Heap, fs: Frames, env: EnvId): Frame {
    FrameOf(fs, RootOf(h.parent, env))
  }

  /** The registries are reached through the root, so an operation from any
      environment on a chain acts on the same fields. */
  lemma RegistryShared(h: Heap, fs: Frames, env: EnvId, n: nat)
    ensures RootFrame(h, fs, Ancestor(h.parent, env, n)) == RootFrame(h, fs, env)
  {
    AncestorsShareRoot(h.parent, env, n);
  }

  method EnsureWidgetRegistry(h: Heap, env: EnvId) returns (root: EnvId)
    modifies h
    ensures root == RootOf(h.parent, env)
    ensures h.frames == old(h.frames)[root := WithWidgetRegistry(FrameOf(old(h.frames), root))]
  {
    root := GetRootEnv(h.parent, env);
    var f := FrameOf(h.frames, root);
    if f.widgets.None? {
      h.frames := h.frames[root := f.(widgets := Some(map[]))];
    } else {
      h.frames := h.frames[root := f];
    }
  }

  /** `ensureWidgetEntry`; the entry is returned by its key. */
  method EnsureWidgetEntry(h: Heap, env: EnvId, name: string) returns (key: string)
    modifies h
    ensures key == NormalizeWidgetName(name)
    ensures h.frames == AtRoot(h, old(h.frames), env, WithEntry(RootFrame(h, old(h.frames), env), name))
  {
    var root := EnsureWidgetRegistry(h, env);
    key := Lower(Trim(name));
    var f := h.frames[root];
    assert f == WithWidgetRegistry(RootFrame(h, old(h.frames), env));
    if key !in f.widgets.value {
      var g := f.(widgets := Some(f.widgets.value[key := DefaultEntry(key, name)]));
      PutAtRoot(h, old(h.frames), env, root, f, g);
      h.frames := h.frames[root := g];
    }
  }

  /** `ensureWidgetEntry` followed by a read of the root's fields, as each
      entry-updating operation begins. */
  method EntryStep(h: Heap, env: EnvId, name: string) returns (key: string, f: Frame, root: EnvId)
    modifies h
    ensures key == NormalizeWidgetName(name) && root == RootOf(h.parent, env)
    ensures f == WithEntry(RootFrame(h, old(h.frames), env), name)
    ensures h.frames == old(h.frames)[root := f]
    ensures f.widgets.Some? && key in f.widgets.value && f.widgets.value[key] == EntryOf(RootFrame(h, old(h.frames), env), name)
  {
    key := EnsureWidgetEntry(h, env, name);
    root := GetRootEnv(h.parent, env);
    f := h.frames[root];
    EnsureEntryKeeps(RootFrame(h, old(h.frames), env), name);
  }

  /** Two writes to the root leave only the second. */
  lemma PutAtRoot(h: Heap, before: Frames, env: EnvId, root: EnvId, f: Frame, g: Frame)
    requires root == RootOf(h.parent, env)
    ensures before[root := f][root := g] == AtRoot(h, before, env, g)
  {
  }

  method DefineWidget(h: Heap, env: EnvId, widgetType: string, name: string, attributes: map<string, Value>, noUndo: bool)
    returns (key: string)
    modifies h
    ensures key == NormalizeWidgetName(name)
    ensures h.frames == AtRoot(h, old(h.frames), env,
      DefineWidgetFrame(RootFrame(h, old(h.frames), env), widgetType, name, attributes, noUndo))
  {
    var f, root;
    key, f, root := EntryStep(h, env, name);
    var e := f.widgets.value[key];
    e := e.(wtype := Some(widgetType), displayName := name, defined := true, noUndo := noUndo,
            attributes := e.attributes + attributes);
    var g := PutEntry(f, name, e);
    PutAtRoot(h, old(h.frames), env, root, f, g);
    h.frames := h.frames[root := g];
  }

  method CreateWidget(h: Heap, env: EnvId, widgetType: string, name: string, o: CreateOptions) returns (key: string)
    modifies h
    ensures key == NormalizeWidgetName(name)
    ensures h.frames == AtRoot(h, old(h.frames), env, CreateWidgetFrame(RootFrame(h, old(h.frames), env), widgetType, name, o))
  {
    var f, root;
    key, f, root := EntryStep(h, env, name);
    var e := ApplyCreate(f.widgets.value[key], widgetType, name, o);
    var g := PutEntry(f, name, e);
    PutAtRoot(h, old(h.frames), env, root, f, g);
    h.frames := h.frames[root := g];
  }

  /** The assignments `createWidget` makes to the entry, one option at a time. */
  method ApplyCreate(e0: WidgetEntry, widgetType: string, name: string, o: CreateOptions) returns (e: WidgetEntry)
    ensures e == Created(e0, widgetType, name, o)
  {
    e := e0;
    if widgetType != "" {
      e := e.(wtype := Some(widgetType));
    }
    e := e.(created := true, displayName := name);
    if o.container.Some? {
      e := e.(container := o.container);
    }
    if o.visible.Some? {
      e := e.(visible := o.visible.value);
    }
    if o.enabled.Some? {
      e := e.(enabled := o.enabled.value);
    }
  }

  method SetWidgetState(h: Heap, env: EnvId, name: string, u: Updates) returns (key: string)
    modifies h
    ensures key == NormalizeWidgetName(name)
    ensures h.frames == AtRoot(h, old(h.frames), env, SetWidgetStateFrame(RootFrame(h, old(h.frames), env), name, u))
  {
    var f, root;
    key, f, root := EntryStep(h, env, name);
    var e := f.widgets.value[key];
    if u.enabled.Some? {
      e := e.(enabled := u.enabled.value);
    }
    if u.visible.Some? {
      e := e.(visible := u.visible.value);
    }
    if u.lastEvent.Some? {
      e := e.(lastEvent := u.lastEvent);
    }
    var g := PutEntry(f, name, e);
    PutAtRoot(h, old(h.frames), env, root, f, g);
    h.frames := h.frames[root := g];
  }

  // ------------------------------------------------------- event registry

  function Handlers(f: Frame): map<string, map<string, Handler>> {
    if f.eventHandlers.Some? then f.eventHandlers.value else map[]
  }

  /** `ensureEventRegistry` on the root's fields. */
  function WithEventRegistry(f: Frame): (r: Frame)
    ensures r.eventHandlers.Some? && Handlers(r) == Handlers(f)
    ensures r == f.(eventHandlers := r.eventHandlers)
  {
    if f.eventHandlers.Some? then f else f.(eventHandlers := Some(map[]))
  }

  /** `registerEventHandler` on the root's fields. */
  function RegisterFrame(f: Frame, widgetName: string, eventName: string, handler: Handler): Frame {
    var hs := Handlers(f);
    var wk := NormalizeWidgetName(widgetName);
    var table := if wk in hs then hs[wk] else map[];
    f.(eventHandlers := Some(hs[wk := table[Upper(eventName) := handler]]))
  }

  /** `getEventHandler`: the handler for the widget and event, if any. */
  function HandlerFor(f: Frame, widgetName: string, eventName: string): Option<Handler> {
    var hs := Handlers(f);
    var wk := NormalizeWidgetName(widgetName);
    if wk in hs && Upper(eventName) in hs[wk] then Some(hs[wk][Upper(eventName)]) else None
  }

  /** Registration and lookup agree: after registering, the same widget and
      event (up to normalisation and case) find the new handler, replacing any
      earlier one, and every other lookup finds what it found before. */
  lemma RegisterThenLookup(f: Frame, w: string, e: string, hd: Handler, w': string, e': string)
    ensures HandlerFor(RegisterFrame(f, w, e, hd), w', e') ==
      if NormalizeWidgetName(w') == NormalizeWidgetName(w) && Upper(e') == Upper(e) then Some(hd)
      else HandlerFor(f, w', e')
  {
  }

  method EnsureEventRegistry(h: Heap, env: EnvId) returns (root: EnvId)
    modifies h
    ensures root == RootOf(h.parent, env)
    ensures h.frames == old(h.frames)[root := WithEventRegistry(FrameOf(old(h.frames), root))]
  {
    root := GetRootEnv(h.parent, env);
    var f := FrameOf(h.frames, root);
    if f.eventHandlers.None? {
      f := f.(eventHandlers := Some(map[]));
    }
    h.frames := h.frames[root := f];
  }

  method RegisterEventHandler(h: Heap, env: EnvId, widgetName: string, eventName: string, handler: Handler)
    modifies h
    ensures h.frames == AtRoot(h, old(h.frames), env, RegisterFrame(RootFrame(h, old(h.frames), env), widgetName, eventName, handler))
  {
    var root := EnsureEventRegistry(h, env);
    var f := h.frames[root];
    assert f == WithEventRegistry(RootFrame(h, old(h.frames), env));
    var registry := f.eventHandlers.value;
    var widgetKey := Lower(Trim(widgetName));
    if widgetKey !in registry {
      registry := registry[widgetKey := map[]];
    }
    var table := registry[widgetKey];
    registry := registry[widgetKey := table[Upper(eventName) := handler]];
    var g := f.(eventHandlers := Some(registry));
    ghost var f0 := RootFrame(h, old(h.frames), env);
    assert table == if widgetKey in Handlers(f0) then Handlers(f0)[widgetKey] else map[];
    assert registry == Handlers(f0)[widgetKey := table[Upper(eventName) := handler]];
    assert g == RegisterFrame(f0, widgetName, eventName, handler);
    PutAtRoot(h, old(h.frames), env, root, f, g);
    h.frames := h.frames[root := g];
  }

  /** `getEventHandler`, which creates the event registry when it is missing. */
  method GetEventHandler(h: Heap, env: EnvId, widgetName: string, eventName: string) returns (r: Option<Handler>)
    modifies h
    ensures r == HandlerFor(RootFrame(h, old(h.frames), env), widgetName, eventName)
    ensures h.frames == AtRoot(h, old(h.frames), env, WithEventRegistry(RootFrame(h, old(h.frames), env)))
  {
    var root := EnsureEventRegistry(h, env);
    var registry := h.frames[root].eventHandlers.value;
    var widgetKey := Lower(Trim(widgetName));
    if widgetKey !in registry {
      return None;
    }
    var event := Upper(eventName);
    if event in registry[widgetKey] {
      r := Some(registry[widgetKey][event]);
    } else {
      r := None;
    }
  }

  // -------------------------------------------------------------- trigger

  /** What `triggerEvent` leaves: the environments and whether a handler ran
      (or the message its body threw). */
  datatype Triggered = Triggered(frames: Frames, result: Result<bool>)

  /** `triggerEvent`: with no handler, `false` and only the event registry
      created; otherwise the body runs in the handler's environment, then the
      widget's `lastEvent` becomes the upper-case event name and the result is `true`. */
  function Trigger(ctx: Context, h: Heap, fs: Frames, env: EnvId, widgetName: string, eventName: string): Triggered {
    var fs1 := AtRoot(h, fs, env, WithEventRegistry(RootFrame(h, fs, env)));
    var handler := HandlerFor(RootFrame(h, fs, env), widgetName, eventName);
    if handler.None? then Triggered(fs1, Ok(false))
    else
      var o := ctx.execBlock(handler.value.body, fs1, handler.value.ownerEnv);
      if o.thrown.Some? then Triggered(o.frames, Err(o.thrown.value))
      else
        var fs2 := AtRoot(h, o.frames, env,
          SetWidgetStateFrame(RootFrame(h, o.frames, env), widgetName, Updates(None, None, Some(Upper(eventName)))));
        Triggered(fs2, Ok(true))
  }

  /** A missing handler gives `false` and leaves every widget and handler as it was. */
  lemma TriggerWithoutHandler(ctx: Context, h: Heap, fs: Frames, env: EnvId, w: string, e: string)
    requires HandlerFor(RootFrame(h, fs, env), w, e).None?
    ensures var t := Trigger(ctx, h, fs, env, w, e);
      t.result == Ok(false)
      && RootFrame(h, t.frames, env) == WithEventRegistry(RootFrame(h, fs, env))
      && Widgets(RootFrame(h, t.frames, env)) == Widgets(RootFrame(h, fs, env))
      && Handlers(RootFrame(h, t.frames, env)) == Handlers(RootFrame(h, fs, env))
      && forall id :: id != RootOf(h.parent, env) ==> FrameOf(t.frames, id) == FrameOf(fs, id)
  {
  }

  /** When a handler runs to completion the widget's `lastEvent` is the
      upper-case event name and the result is `true`. */
  lemma TriggerSetsLastEvent(ctx: Context, h: Heap, fs: Frames, env: EnvId, w: string, e: string)
    requires HandlerFor(RootFrame(h, fs, env), w, e).Some?
    ensures var t := Trigger(ctx, h, fs, env, w, e);
      var hd := HandlerFor(RootFrame(h, fs, env), w, e).value;
      var o := ctx.execBlock(hd.body, AtRoot(h, fs, env, WithEventRegistry(RootFrame(h, fs, env))), hd.ownerEnv);
      (o.thrown.None? ==>
         t.result == Ok(true)
         && NormalizeWidgetName(w) in Widgets(RootFrame(h, t.frames, env))
         && Widgets(RootFrame(h, t.frames, env))[NormalizeWidgetName(w)].lastEvent == Some(Upper(e)))
      && (o.thrown.Some? ==> t.result == Err(o.thrown.value) && t.frames == o.frames)
  {
    var t := Trigger(ctx, h, fs, env, w, e);
    var hd := HandlerFor(RootFrame(h, fs, env), w, e).value;
    var o := ctx.execBlock(hd.body, AtRoot(h, fs, env, WithEventRegistry(RootFrame(h, fs, env))), hd.ownerEnv);
    if o.thrown.None? {
      SetWidgetStateExact(RootFrame(h, o.frames, env), w, Updates(None, None, Some(Upper(e))));
    }
  }

  method TriggerEvent(h: Heap, ctx: Context, env: EnvId, widgetName: string, eventName: string) returns (r: Result<bool>)
    modifies h
    ensures var t := Trigger(ctx, h, old(h.frames), env, widgetName, eventName);
      h.frames == t.frames && r == t.result
  {
    var handler := GetEventHandler(h, env, widgetName, eventName);
    if handler.None? {
      return Ok(false);
    }
    var ran := ExecBlock(h, ctx, handler.value.body, handler.value.ownerEnv);
    if ran.Err? {
      return Err(ran.msg);
    }
    var _ := SetWidgetState(h, env, widgetName, Updates(None, None, Some(Upper(eventName))));
    r := Ok(true);
  }

  /** `resolveEventName`: the evaluated event expression as a string; a bare
      identifier whose value is null or blank stands for its own name, and a
      null value gives `''`. */
  function ResolveEventName(ctx: Context, eventExpr: Expr, fs: Frames, env: EnvId): (r: Result<string>)
    ensures ctx.evalExpr(eventExpr, fs, env).Err? ==> r == Err(ctx.evalExpr(eventExpr, fs, env).msg)
    ensures ctx.evalExpr(eventExpr, fs, env) == Ok(Null) ==> r == Ok(if eventExpr.Var? then eventExpr.name else "")
    ensures (ctx.evalExpr(eventExpr, fs, env).Ok? && ctx.evalExpr(eventExpr, fs, env).value != Null
             && !IsBlank(ToStr(ctx.evalExpr(eventExpr, fs, env).value)))
            ==> r == Ok(ToStr(ctx.evalExpr(eventExpr, fs, env).value))
  {
    var raw :- ctx.evalExpr(eventExpr, fs, env);
    TrimEmptyIffBlank(ToStr(raw));
    var raw' := if (raw == Null || Trim(ToStr(raw)) == "") && eventExpr.Var? then Str(eventExpr.name) else raw;
    if raw' == Null then Ok("") else Ok(ToStr(raw'))
  }
}
