/**
 * The template renderer as the objects it is: `BloggifyTemplate` entries whose
 * `render` and `hasRenderer` fields are updated in place, the
 * `BloggifyTemplateRenderer` with its `templates` and `renderers` tables, the
 * response context and the `data` object the dispatch chain writes to.
 * Every method is proved against the value-level functions of `Registry` and
 * `Dispatch`.
 */
module Renderer {
  import opened Wrappers
  import opened Host
  import opened Registry
  import opened Dispatch
  import Paths

  /** A `BloggifyTemplate`. */
  class Template {
    const name: string
    const source: Source
    var data: Option<Fields>
    var render: RenderFn
    var hasRenderer: bool

    /** A function in place of a path is the render function itself; a path gets the placeholder. */
    constructor (name: string, source: Source)
      ensures View() == EntryView(name, source, None, InitialRender(source), source.Inline?)
    {
      this.name := name;
      this.source := source;
      data := None;
      render := InitialRender(source);
      hasRenderer := source.Inline?;
    }

    function View(): EntryView
      reads this
    {
      EntryView(name, source, data, render, hasRenderer)
    }

    /** One step of the `forEach` in `registerRenderer`: claim the entry for `func` if it fits. */
    method Attach(ext: string, func: FnId)
      modifies this
      ensures View() == Registry.Attach(old(View()), ext, func)
    {
      if source.File? && source.ext == ext && !hasRenderer {
        hasRenderer := true;
        render := Fn(func);
      }
    }
  }

  /** The request context; only `ctx.end` is used. */
  class Context {
    var ends: seq<Response>

    constructor ()
      ensures ends == []
    {
      ends := [];
    }

    method End(body: string, status: int)
      modifies this
      ensures ends == old(ends) + [Response(body, status)]
    {
      ends := ends + [Response(body, status)];
    }
  }

  /** A `data` object handed to `_render`. */
  class Data {
    var error: Option<Error>
    var render500: Option<bool>
    var fields: Fields

    constructor (error: Option<Error>, render500: Option<bool>, fields: Fields)
      ensures View() == DataView(error, render500, fields)
    {
      this.error := error;
      this.render500 := render500;
      this.fields := fields;
    }

    function View(): DataView
      reads this
    {
      DataView(error, render500, fields)
    }
  }

  /** Every name of `before` is still bound, to the same entry object, in `after`. */
  predicate Retains(before: map<string, Template>, after: map<string, Template>) {
    forall n :: n in before ==> n in after && after[n] == before[n]
  }

  /** A `BloggifyTemplateRenderer`. */
  class TemplateRenderer {
    var templates: map<string, Template>
    var renderers: map<string, FnId>
    /** Everything written with `bloggify.log`. */
    var log: seq<LogEntry>
    /** Every name looked up with `getTemplate`. */
    ghost var attempts: seq<string>
    /** Every template name whose render function `_render` invoked. */
    ghost var invoked: seq<string>
    /** Every entry object the registry has stored; a superset of the table's values. */
    ghost var Repr: set<Template>
    /** The table as values: what each stored entry object holds. */
    ghost var entries: map<string, EntryView>
    /** `ul.merge` on the plain fields of `data` and of a template's `data`. */
    const merge: (Fields, Fields) -> Fields
    /** How each host render function calls its callback. */
    const behaviour: (FnId, EntryView, DataView) -> Completion

    /** `entries` mirrors the entry objects, each stored under its own name and consistent. */
    ghost predicate Valid()
      reads this`templates, this`Repr, this`entries, Repr
    {
      && templates.Values <= Repr
      && entries.Keys == templates.Keys
      && (forall n :: n in templates ==> templates[n].View() == entries[n])
      && WellFormed(entries)
    }

    ghost function Environment(): Env
      reads this`renderers
    {
      Env(renderers, merge, behaviour)
    }

    ghost function State(ctx: Context): St
      reads this`entries, this`log, this`attempts, this`invoked, ctx`ends
    {
      St(entries, ctx.ends, log, attempts, invoked)
    }

    constructor (merge: (Fields, Fields) -> Fields, behaviour: (FnId, EntryView, DataView) -> Completion)
      ensures Valid()
      ensures templates == map[] && renderers == map[] && log == []
      ensures Repr == {}
      ensures attempts == [] && invoked == []
      ensures this.merge == merge && this.behaviour == behaviour
    {
      templates := map[];
      renderers := map[];
      log := [];
      attempts := [];
      invoked := [];
      Repr := {};
      entries := map[];
      this.merge := merge;
      this.behaviour := behaviour;
    }

    /** `getRenderer(ext)`: the renderer stored for `ext`, if any. */
    function GetRenderer(ext: string): (r: Option<FnId>)
      reads this`renderers
      ensures r.Some? <==> ext in renderers
      ensures r.Some? ==> r.value == renderers[ext]
    {
      if ext in renderers then Some(renderers[ext]) else None
    }

    /**
     * What `registerTemplate` does once the call is resolved: the entry
     * already stored under the name unless `reregister` applies, the error
     * Node throws for an undefined path, or a fresh entry stored under the name.
     */
    twostate predicate Stored(call: Call, new r: Result<Template, Error>)
      reads this, if r.Ok? then {r.value} else {}
    {
      if call.name in old(templates) && !call.reregister then
        r == Ok(old(templates)[call.name]) && templates == old(templates)
      else if SourceOf(call.path).None? then
        r == Err(MissingPath) && templates == old(templates)
      else
        && r.Ok? && fresh(r.value)
        && templates == old(templates)[call.name := r.value]
        && r.value.View() == NewEntry(call.name, SourceOf(call.path).value, renderers)
    }

    /**
     * `registerTemplate(name, tmplPath, usePathName, reregister)`: throws on a
     * malformed call, returns the stored entry unless `reregister` applies,
     * and otherwise stores a fresh entry under the resolved name.
     */
    method RegisterTemplate(name: Arg, tmplPath: Arg, usePathName: bool, reregister: bool)
      returns (r: Result<Template, Error>)
      requires Valid()
      modifies this`templates, this`Repr, this`entries
      ensures fresh(Repr - old(Repr))
      decreases if name.Str? then 0 else 1
      ensures Valid()
      ensures ResolveCall(name, tmplPath, usePathName, reregister).Err? ==>
        r == Err(InvalidArguments) && templates == old(templates)
      ensures ResolveCall(name, tmplPath, usePathName, reregister).Ok? ==>
        Stored(ResolveCall(name, tmplPath, usePathName, reregister).value, r)
      ensures templates == old(templates) ==> entries == old(entries)
      ensures r.Ok? && fresh(r.value) ==> entries == old(entries)[r.value.name := r.value.View()]
    {
      ResolveFails(name, tmplPath, usePathName, reregister);
      if !name.Str? && !tmplPath.Str? {
        return Err(InvalidArguments);
      }
      var n, path := name, tmplPath;
      if Falsy(path) {
        path := n;
        n := if usePathName then path else Str("");
      }
      if !n.Str? {
        assert ResolveCall(name, tmplPath, usePathName, reregister) == ResolveCall(Str(""), path, false, false);
        r := RegisterTemplate(Str(""), path, false, false);
        return;
      }
      var resolved := n.s;
      if path.Str? && resolved == "" {
        resolved := Paths.Parse(path.s).name;
      }
      assert ResolveCall(name, tmplPath, usePathName, reregister) == Ok(Call(resolved, path, reregister));
      r := Store(Call(resolved, path, reregister));
    }

    /** Lines that consult and update the table, once the name is resolved. */
    method Store(call: Call) returns (r: Result<Template, Error>)
      requires Valid()
      modifies this`templates, this`Repr, this`entries
      ensures fresh(Repr - old(Repr))
      ensures Valid()
      ensures Stored(call, r)
      ensures templates == old(templates) ==> entries == old(entries)
      ensures r.Ok? && fresh(r.value) ==> entries == old(entries)[r.value.name := r.value.View()]
    {
      if call.name in templates && !call.reregister {
        return Ok(templates[call.name]);
      }
      var source: Source;
      match call.path {
        case Missing => return Err(MissingPath);
        case Str(p) => source := FileSource(p);
        case Func(f) => source := Inline(f);
      }
      assert SourceOf(call.path) == Some(source);
      var tmpl := Insert(call.name, source);
      r := Ok(tmpl);
    }

    /** A fresh entry built by the constructor, given the renderer for its extension, and stored. */
    method Insert(name: string, source: Source) returns (tmpl: Template)
      requires Valid()
      modifies this`templates, this`Repr, this`entries
      ensures fresh(Repr - old(Repr))
      ensures Valid()
      ensures fresh(tmpl) && templates == old(templates)[name := tmpl]
      ensures tmpl.View() == NewEntry(name, source, renderers)
      ensures entries == old(entries)[name := tmpl.View()]
    {
      ghost var stored := templates;
      tmpl := new Template(name, source);
      var renderer := GetRenderer(RendererKey(tmpl.source));
      if renderer.Some? {
        tmpl.render := Fn(renderer.value);
      }
      NewEntryRender(name, source, renderers);
      templates := templates[tmpl.name := tmpl];
      Repr := Repr + {tmpl};
      entries := entries[name := tmpl.View()];
      WellFormedStore(old(entries), name, tmpl.View());
      forall n | n in templates
        ensures templates[n].View() == entries[n]
      {
        if n != name {
          assert templates[n] == stored[n];
        }
      }
      forall t | t in templates.Values
        ensures t in Repr
      {
        var n :| n in templates && templates[n] == t;
        if n != name {
          assert stored[n] == t;
        }
      }
    }

    /**
     * `getTemplate(name, cb)` in direct style: the stored entry, an entry
     * registered on the spot for a missing absolute name, or the error
     * "Template not found: <name>".
     */
    method GetTemplate(name: string) returns (r: Result<Template, Error>)
      requires Valid()
      modifies this`templates, this`Repr, this`entries, this`attempts
      ensures fresh(Repr - old(Repr))
      ensures Retains(old(templates), templates)
      ensures Valid()
      ensures attempts == old(attempts) + [name]
      ensures var (found, after) := Lookup(old(entries), renderers, name);
        && entries == after
        && (r.Ok? <==> found.Some?)
        && (r.Ok? ==> name in templates && templates[name] == r.value && r.value.View() == found.value)
        && (r.Err? ==> r.error == NotFoundError(name))
      ensures name in old(templates) ==> r == Ok(old(templates)[name]) && templates == old(templates)
      ensures name !in old(templates) && r.Ok? ==> fresh(r.value) && templates == old(templates)[name := r.value]
      ensures r.Err? ==> templates == old(templates)
    {
      attempts := attempts + [name];
      if name in templates {
        return Ok(templates[name]);
      }
      if Paths.IsAbsolute(name) {
        FullPathName(name, false);
        r := RegisterTemplate(Str(name), Missing, true, false);
        return;
      }
      return Err(NotFoundError(name));
    }

    /**
     * `registerRenderer(ext, func)`: the first renderer stored for an
     * extension stays; then every entry of that extension without
     * `hasRenderer`, on either path, is given `func`.
     */
    method RegisterRenderer(ext: string, func: FnId)
      requires Valid()
      modifies this`renderers, this`log, this`entries, Repr
      ensures Valid()
      ensures ext in old(renderers) ==>
        renderers == old(renderers) && log == old(log) + [LogWarn(AlreadyRegistered(ext))]
      ensures ext !in old(renderers) ==>
        renderers == old(renderers)[ext := func] && log == old(log)
      ensures entries.Keys == old(entries).Keys
      ensures forall n :: n in entries ==> entries[n] == Attach(old(entries)[n], ext, func)
      ensures forall o :: o in old(Repr) && o !in old(templates.Values) ==> unchanged(o)
    {
      var existing := GetRenderer(ext);
      if existing.Some? {
        log := log + [LogWarn(AlreadyRegistered(ext))];
      } else {
        renderers := renderers[ext := func];
      }
      AttachAll(ext, func);
    }

    /** The `forEach` over the table in `registerRenderer`. */
    method AttachAll(ext: string, func: FnId)
      requires Valid()
      modifies this`entries, Repr
      ensures Valid()
      ensures entries.Keys == old(entries).Keys
      ensures forall n :: n in entries ==> entries[n] == Attach(old(entries)[n], ext, func)
      ensures forall o :: o in old(Repr) && o !in old(templates.Values) ==> unchanged(o)
    {
      AttachEach(ext, func);
      forall n | n in entries
        ensures Attach(entries[n], ext, func).name == n && Consistent(Attach(entries[n], ext, func))
      {
        AttachEffect(entries[n], ext, func);
      }
      entries := map n | n in entries :: Attach(entries[n], ext, func);
    }

    /** The loop of `AttachAll`, on the entry objects alone. */
    method AttachEach(ext: string, func: FnId)
      requires Valid()
      modifies Repr
      ensures forall n :: n in templates ==> templates[n].View() == Attach(entries[n], ext, func)
      ensures forall o :: o in Repr && o !in templates.Values ==> unchanged(o)
    {
      var todo := templates.Keys;
      ghost var done: set<string> := {};
      while todo != {}
        invariant todo + done == templates.Keys && todo !! done
        invariant forall n :: n in done ==> templates[n].View() == Attach(entries[n], ext, func)
        invariant forall n :: n in todo ==> templates[n].View() == entries[n]
        invariant forall o :: o in Repr && o !in templates.Values ==> unchanged(o)
        decreases todo
      {
        var k :| k in todo;
        templates[k].Attach(ext, func);
        todo := todo - {k};
        done := done + {k};
      }
    }

    /**
     * The first half of `_render`: look the template up, merge its static
     * data into a copy of `data` when it has some, and invoke its render
     * function. Returns how that function calls back and the data object it
     * was given.
     */
    method Attempt(ctx: Context, name: string, data: Data) returns (outcome: Completion, d: Data)
      requires Valid()
      modifies this`templates, this`Repr, this`entries, this`attempts, this`invoked, ctx
      ensures fresh(Repr - old(Repr))
      ensures Retains(old(templates), templates)
      ensures Valid()
      ensures var t := Primary(old(Environment()), old(State(ctx)), name, old(data.View()));
        && outcome == t.outcome && State(ctx) == t.st && d.View() == t.data
        && (t.merged ==> fresh(d)) && (!t.merged ==> d == data)
    {
      ghost var env, st0, d0 := Environment(), State(ctx), data.View();
      ghost var after := Lookup(entries, renderers, name).1;
      var found := GetTemplate(name);
      ghost var st1 := st0.(templates := after, attempts := st0.attempts + [name]);
      assert State(ctx) == st1;
      ghost var kept, added := templates, Repr;
      match found {
        case Err(err) =>
          return CalledWithError(err), data;
        case Ok(tmpl) =>
          assert Primary(env, st0, name, d0) == Invoke(env, st1, name, tmpl.View(), d0);
          outcome, d := InvokeTemplate(ctx, name, tmpl, data);
          assert templates == kept && Repr == added;
      }
    }

    /** The part of `_render` after a template `tmpl` was found for `name`. */
    method InvokeTemplate(ctx: Context, name: string, tmpl: Template, data: Data) returns (outcome: Completion, d: Data)
      requires Valid()
      modifies this`invoked, ctx
      ensures Valid()
      ensures var t := Invoke(Environment(), old(State(ctx)), name, tmpl.View(), old(data.View()));
        && outcome == t.outcome && State(ctx) == t.st && d.View() == t.data
        && (t.merged ==> fresh(d)) && (!t.merged ==> d == data)
    {
      d := data;
      if tmpl.data.Some? {
        d := new Data(data.error, data.render500, merge(data.fields, tmpl.data.value));
      }
      invoked := invoked + [name];
      match tmpl.render {
        case Default =>
          ctx.End(PleaseRegister(tmpl.View()), 500);
          outcome := NotCalled;
        case Fn(f) =>
          outcome := behaviour(f, tmpl.View(), d.View());
      }
    }

    /**
     * `_render(ctx, tmplName, data, cb)` in direct style: the result is how
     * `cb` is called. A failure falls back to the "500" template unless
     * `data.error` already has status 500.
     */
    method Render(ctx: Context, name: string, data: Data) returns (c: Completion)
      requires Valid()
      modifies this`templates, this`Repr, this`entries, this`log, this`attempts, this`invoked, ctx, data
      ensures fresh(Repr - old(Repr))
      ensures Retains(old(templates), templates)
      decreases RenderRank(data.View()), 1
      ensures Valid()
      ensures var s := RenderSpec(old(Environment()), old(State(ctx)), name, old(data.View()));
        c == s.done && State(ctx) == s.st && data.View() == s.data
    {
      ghost var t := Primary(Environment(), State(ctx), name, data.View());
      PrimaryKeepsFlags(Environment(), State(ctx), name, data.View());
      var outcome, d := Attempt(ctx, name, data);
      c := Fallback(ctx, data, outcome, d, t);
    }

    /**
     * The callbacks in `_render`: a failure falls back to the "500" template
     * unless the data `d` the render function saw already has status 500.
     */
    method Fallback(ctx: Context, data: Data, outcome: Completion, d: Data, ghost t: Try) returns (c: Completion)
      requires Valid()
      requires outcome == t.outcome && State(ctx) == t.st && d.View() == t.data
      requires t.merged ==> d != data
      requires !t.merged ==> d == data
      modifies this`templates, this`Repr, this`entries, this`log, this`attempts, this`invoked, ctx, d
      ensures fresh(Repr - old(Repr))
      ensures Retains(old(templates), templates)
      decreases RenderRank(d.View()), 0
      ensures Valid()
      ensures var s := AfterPrimary(old(Environment()), t, old(data.View()));
        c == s.done && State(ctx) == s.st && data.View() == s.data
    {
      if outcome.CalledWithError? && !(d.error.Some? && d.error.value.statusCode == Some(500)) {
        c := RenderInternalServerError(ctx, d, outcome.err);
      } else {
        c := outcome;
      }
    }

    /**
     * `renderInternalServerError(ctx, data, err, cb)`: records the error on
     * `data`, then either gives up with the fixed response or renders the
     * "500" template once, giving up if that fails too.
     */
    method RenderInternalServerError(ctx: Context, data: Data, err: Error) returns (c: Completion)
      requires Valid()
      modifies this`templates, this`Repr, this`entries, this`log, this`attempts, this`invoked, ctx, data
      ensures fresh(Repr - old(Repr))
      ensures Retains(old(templates), templates)
      decreases ServerErrorRank(data.View()), 0
      ensures Valid()
      ensures var s := ServerErrorSpec(old(Environment()), old(State(ctx)), old(data.View()), err);
        c == s.done && State(ctx) == s.st && data.View() == s.data
    {
      if data.render500 == Some(false) {
        c := GiveUp(ctx, data, err);
      } else {
        PrepareErrorPage(ctx, data, err);
        c := RenderErrorPage(ctx, data);
      }
    }

    /** The branch of `renderInternalServerError` taken once the "500" template has failed. */
    method GiveUp(ctx: Context, data: Data, err: Error) returns (c: Completion)
      modifies this`log, ctx, data
      ensures c == CalledWithError(err)
      ensures State(ctx) == old(State(ctx)).(log := old(log) + [LogError(err)],
                                             ends := old(ctx.ends) + [Response(FatalBody, 500)])
      ensures data.View() == old(data.View()).(error := Some(err))
    {
      data.error := Some(err);
      log := log + [LogError(err)];
      ctx.End(FatalBody, 500);
      return CalledWithError(err);
    }

    /** The steps of `renderInternalServerError` ahead of rendering the "500" template. */
    method PrepareErrorPage(ctx: Context, data: Data, err: Error)
      modifies this`log, data
      ensures State(ctx) == ErrorPageState(old(State(ctx)), err)
      ensures data.View() == ErrorPageData(old(data.View()), err)
    {
      data.error := Some(err);
      log := log + [LogError(err)];
      data.error := Some(err.(statusCode := Some(500)));
      log := log + [LogInfo(RenderingErrorPage)];
    }

    /** The attempt at the "500" template in `renderInternalServerError`. */
    method RenderErrorPage(ctx: Context, data: Data) returns (c: Completion)
      requires Valid()
      modifies this`templates, this`Repr, this`entries, this`log, this`attempts, this`invoked, ctx, data
      ensures fresh(Repr - old(Repr))
      ensures Retains(old(templates), templates)
      decreases ErrorPageRank(data.View()), 0
      ensures Valid()
      ensures var s := ErrorPageSpec(old(Environment()), old(State(ctx)), old(data.View()));
        c == s.done && State(ctx) == s.st && data.View() == s.data
    {
      ghost var s := RenderSpec(Environment(), State(ctx), "500", data.View());
      var inner := Render(ctx, "500", data);
      if inner.CalledWithError? {
        data.render500 := Some(false);
        assert State(ctx) == s.st && data.View() == s.data.(render500 := Some(false));
        c := RenderInternalServerError(ctx, data, inner.err);
      } else {
        c := inner;
      }
    }
  }
}
