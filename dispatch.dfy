/**
 * The render dispatch chain as values: `_render(ctx, tmplName, data, cb)` and
 * `renderInternalServerError(ctx, data, err, cb)`, written in direct style.
 * Each returns how the callback `cb` ends up being called, the state of the
 * registry, response and log afterwards, and the final state of the `data`
 * object it was given. The methods of `Renderer.TemplateRenderer` are proved
 * to compute exactly these functions.
 */
module Dispatch {
  import opened Wrappers
  import opened Host
  import opened Registry
  import Paths

  /** The fields of a `data` object the chain reads and writes. */
  datatype DataView = DataView(error: Option<Error>, render500: Option<bool>, fields: Fields)

  /** `data.error && data.error.statusCode === 500` */
  predicate Is500(d: DataView) {
    d.error.Some? && d.error.value.statusCode == Some(500)
  }

  /** `data.__render500 === false`: rendering the "500" template already failed. */
  predicate GaveUp(d: DataView) {
    d.render500 == Some(false)
  }

  /**
   * How a callback is invoked: `cb()`, `cb(err)`, or never. Host render
   * functions are described by the same three cases.
   */
  datatype Completion = Called | CalledWithError(err: Error) | NotCalled

  /**
   * What the chain depends on and does not change: the renderer table, the
   * deep merge of `ul.merge` (on the plain fields; `error` and `__render500`
   * are kept from `data`), and how each host render function calls back.
   */
  datatype Env = Env(
    renderers: map<string, FnId>,
    merge: (Fields, Fields) -> Fields,
    behaviour: (FnId, EntryView, DataView) -> Completion)

  /**
   * What the chain changes: the template table (absolute names are registered
   * on the fly), the responses written with `ctx.end`, the log, and two
   * records kept for the proofs: every template name looked up and every
   * template whose render function was invoked.
   */
  datatype St = St(
    templates: map<string, EntryView>,
    ends: seq<Response>,
    log: seq<LogEntry>,
    attempts: seq<string>,
    invoked: seq<string>)

  /** The result of one call: its completion, the new state, the final `data`. */
  datatype Step = Step(done: Completion, st: St, data: DataView)

  /**
   * The first half of `_render`: look the template up and, if found, merge
   * its static data and invoke its render function. `data` is the object the
   * render function saw (a fresh copy when `merged`).
   */
  datatype Try = Try(outcome: Completion, st: St, data: DataView, merged: bool)

  const FatalBody := "Something went really wrong."
  const RenderingErrorPage := "Rendering 500."

  /** The text the placeholder render function ends the response with. */
  function PleaseRegister(e: EntryView): string {
    "Please register the " + (if e.source.File? then e.source.ext else "undefined") + " render."
  }

  function Primary(env: Env, st: St, name: string, d: DataView): Try {
    var (found, templates) := Lookup(st.templates, env.renderers, name);
    var st1 := st.(templates := templates, attempts := st.attempts + [name]);
    match found
    case None => Try(CalledWithError(NotFoundError(name)), st1, d, false)
    case Some(e) => Invoke(env, st1, name, e, d)
  }

  /** Invoking the render function of the entry `e` found for `name`. */
  function Invoke(env: Env, st: St, name: string, e: EntryView, d: DataView): Try {
    var merged := e.data.Some?;
    var d2 := if merged then d.(fields := env.merge(d.fields, e.data.value)) else d;
    var st2 := st.(invoked := st.invoked + [name]);
    match e.render
    case Default => Try(NotCalled, st2.(ends := st2.ends + [Response(PleaseRegister(e), 500)]), d2, merged)
    case Fn(f) => Try(env.behaviour(f, e, d2), st2, d2, merged)
  }

  /** The log lines `renderInternalServerError` writes before rendering "500". */
  function ErrorPageState(st: St, err: Error): St {
    st.(log := st.log + [LogError(err), LogInfo(RenderingErrorPage)])
  }

  /** `data` once `data.error = err` and `err.statusCode = 500` have run. */
  function ErrorPageData(d: DataView, err: Error): DataView {
    d.(error := Some(err.(statusCode := Some(500))))
  }

  /** Termination measures: a call that can still fall back ranks higher. */
  function RenderRank(d: DataView): nat {
    if Is500(d) || GaveUp(d) then 1 else 4
  }

  function ServerErrorRank(d: DataView): nat {
    if GaveUp(d) then 0 else 3
  }

  function ErrorPageRank(d: DataView): nat {
    if Is500(d) then 2 else 5
  }

  /** `_render(ctx, name, data, cb)`. */
  function RenderSpec(env: Env, st: St, name: string, d: DataView): Step
    decreases RenderRank(d), 1
  {
    PrimaryKeepsFlags(env, st, name, d);
    AfterPrimary(env, Primary(env, st, name, d), d)
  }

  /**
   * What the callback of `getTemplate` and of the render function in
   * `_render` does with the outcome `t`; `d` is the caller's data.
   */
  function AfterPrimary(env: Env, t: Try, d: DataView): Step
    decreases RenderRank(t.data), 0
  {
    match t.outcome
    case Called => Step(Called, t.st, d)
    case NotCalled => Step(NotCalled, t.st, d)
    case CalledWithError(err) =>
      if Is500(t.data) then Step(CalledWithError(err), t.st, d)
      else
        var s := ServerErrorSpec(env, t.st, t.data, err);
        // a merged copy takes the changes; the caller's object keeps its state
        s.(data := if t.merged then d else s.data)
  }

  /** `renderInternalServerError(ctx, data, err, cb)`. */
  function ServerErrorSpec(env: Env, st: St, d: DataView, err: Error): Step
    decreases ServerErrorRank(d), 0
  {
    if GaveUp(d) then
      Step(CalledWithError(err),
           st.(log := st.log + [LogError(err)], ends := st.ends + [Response(FatalBody, 500)]),
           d.(error := Some(err)))
    else
      ErrorPageSpec(env, ErrorPageState(st, err), ErrorPageData(d, err))
  }

  /**
   * The second half of `renderInternalServerError`: render "500" with `d`;
   * when that fails too, set the give-up flag and report the new error.
   */
  function ErrorPageSpec(env: Env, st: St, d: DataView): Step
    decreases ErrorPageRank(d), 0
  {
    var s := RenderSpec(env, st, "500", d);
    if s.done.CalledWithError? then
      ServerErrorSpec(env, s.st, s.data.(render500 := Some(false)), s.done.err)
    else s
  }

  /** `s` extends `t` by at most `k` elements. */
  predicate GrowsBy(t: seq<string>, s: seq<string>, k: nat) {
    |t| <= |s| <= |t| + k && s[..|t|] == t
  }

  /** The registry changes during a render only by adding entries under absolute names. */
  predicate OnlyAddsAbsolute(before: map<string, EntryView>, after: map<string, EntryView>) {
    && (forall n :: n in before ==> n in after && after[n] == before[n])
    && (forall n :: n in after && n !in before ==> Paths.IsAbsolute(n))
  }

  /** A lookup-and-invoke leaves the error and give-up flag of `data` as they were. */
  lemma PrimaryKeepsFlags(env: Env, st: St, name: string, d: DataView)
    ensures var t := Primary(env, st, name, d);
      && t.data.error == d.error && t.data.render500 == d.render500
      && (!t.merged ==> t.data == d)
  {
  }

  /** What one lookup-and-invoke does to the state. */
  lemma PrimaryEffect(env: Env, st: St, name: string, d: DataView)
    ensures var t := Primary(env, st, name, d);
      && t.data.error == d.error && t.data.render500 == d.render500
      && (!t.merged ==> t.data == d)
      && t.st.attempts == st.attempts + [name]
      && (t.st.invoked == st.invoked || t.st.invoked == st.invoked + [name])
      && t.st.log == st.log
      && (t.outcome.CalledWithError? || t.outcome.Called? ==> t.st.ends == st.ends)
      && OnlyAddsAbsolute(st.templates, t.st.templates)
      && (WellFormed(st.templates) ==> WellFormed(t.st.templates))
  {
    LookupCases(st.templates, env.renderers, name);
  }

  /**
   * Once `data.error` has status 500, `_render` never falls back: its callback
   * gets exactly what the lookup or the render function produced, and nothing
   * else is rendered or logged.
   */
  lemma {:induction false} GuardedRender(env: Env, st: St, name: string, d: DataView)
    requires Is500(d)
    ensures var t := Primary(env, st, name, d);
      var r := RenderSpec(env, st, name, d);
      r.done == t.outcome && r.st == t.st && r.data == d
  {
    PrimaryEffect(env, st, name, d);
  }

  /**
   * Once `data.__render500 === false`, `renderInternalServerError` ends the
   * response with the fixed text at status 500 and hands `err` to the callback.
   */
  lemma {:induction false} GivenUp(env: Env, st: St, d: DataView, err: Error)
    requires GaveUp(d)
    ensures var r := ServerErrorSpec(env, st, d, err);
      && r.done == CalledWithError(err)
      && r.st == st.(log := st.log + [LogError(err)], ends := st.ends + [Response(FatalBody, 500)])
      && r.data == d.(error := Some(err))
  {
  }

  /**
   * `renderInternalServerError` without the give-up flag makes exactly one
   * attempt at the "500" template. The callback gets what that attempt gave;
   * if it failed, the response is ended with the fixed text and the flag is
   * left set on `data`.
   */
  lemma {:induction false} ErrorPage(env: Env, st: St, d: DataView, err: Error)
    requires !GaveUp(d)
    ensures var t := Primary(env, ErrorPageState(st, err), "500", ErrorPageData(d, err));
      var r := ServerErrorSpec(env, st, d, err);
      && r.done == t.outcome
      && r.st.attempts == st.attempts + ["500"]
      && r.st.invoked == t.st.invoked && GrowsBy(st.invoked, r.st.invoked, 1)
      && r.st.templates == t.st.templates
      && (r.done.CalledWithError? ==>
            && r.st.ends == st.ends + [Response(FatalBody, 500)]
            && r.st.log == st.log + [LogError(err), LogInfo(RenderingErrorPage), LogError(r.done.err)]
            && r.data == ErrorPageData(d, err).(render500 := Some(false), error := Some(r.done.err)))
      && (!r.done.CalledWithError? ==>
            && r.st == t.st
            && r.data == ErrorPageData(d, err))
  {
    var st5, d5 := ErrorPageState(st, err), ErrorPageData(d, err);
    GuardedRender(env, st5, "500", d5);
    PrimaryEffect(env, st5, "500", d5);
    var s := RenderSpec(env, st5, "500", d5);
    if s.done.CalledWithError? {
      GivenUp(env, s.st, s.data.(render500 := Some(false)), s.done.err);
    }
  }

  /**
   * A failing primary render (a miss or a renderer error) on data carrying no
   * 500 error and no give-up flag leads to exactly one attempt at "500"; the
   * callback gets the outcome of that attempt, and when it fails too the
   * response ends with the fixed text.
   */
  lemma {:induction false} PrimaryFailureFallback(env: Env, st: St, name: string, d: DataView)
    requires !Is500(d) && !GaveUp(d)
    requires Primary(env, st, name, d).outcome.CalledWithError?
    ensures var t := Primary(env, st, name, d);
      var e := t.outcome.err;
      var t5 := Primary(env, ErrorPageState(t.st, e), "500", ErrorPageData(t.data, e));
      var r := RenderSpec(env, st, name, d);
      && r.st.attempts == st.attempts + [name, "500"]
      && GrowsBy(st.invoked, r.st.invoked, 2)
      && r.done == t5.outcome
      && (r.done.CalledWithError? ==> r.st.ends == st.ends + [Response(FatalBody, 500)])
      && (!r.done.CalledWithError? ==> r.st.ends == t5.st.ends)
      && (!t.merged && r.done.CalledWithError? ==>
            r.data.render500 == Some(false) && r.data.error == Some(r.done.err))
      && (t.merged ==> r.data == d)
  {
    var t := Primary(env, st, name, d);
    PrimaryEffect(env, st, name, d);
    ErrorPage(env, t.st, t.data, t.outcome.err);
  }

  /** The placeholder render function ends the response and never calls back, so nothing falls back. */
  lemma {:induction false} PlaceholderStops(env: Env, st: St, name: string, d: DataView)
    requires Lookup(st.templates, env.renderers, name).0.Some?
    requires Lookup(st.templates, env.renderers, name).0.value.render.Default?
    ensures var e := Lookup(st.templates, env.renderers, name).0.value;
      var r := RenderSpec(env, st, name, d);
      && r.done == NotCalled
      && r.st.ends == st.ends + [Response(PleaseRegister(e), 500)]
      && r.st.attempts == st.attempts + [name]
      && r.st.invoked == st.invoked + [name]
      && r.data == d
  {
  }

  /** `renderInternalServerError` makes at most one render attempt and one invocation. */
  lemma {:induction false} ServerErrorBound(env: Env, st: St, d: DataView, err: Error)
    ensures var r := ServerErrorSpec(env, st, d, err);
      && GrowsBy(st.attempts, r.st.attempts, 1)
      && GrowsBy(st.invoked, r.st.invoked, 1)
      && OnlyAddsAbsolute(st.templates, r.st.templates)
      && (WellFormed(st.templates) ==> WellFormed(r.st.templates))
  {
    if !GaveUp(d) {
      ErrorPage(env, st, d, err);
      PrimaryEffect(env, ErrorPageState(st, err), "500", ErrorPageData(d, err));
    }
  }

  /**
   * Every render terminates after at most two lookups and two invocations of a
   * render function, and only adds entries under absolute names to the registry.
   */
  lemma {:induction false} RenderBound(env: Env, st: St, name: string, d: DataView)
    ensures var r := RenderSpec(env, st, name, d);
      && GrowsBy(st.attempts, r.st.attempts, 2)
      && GrowsBy(st.invoked, r.st.invoked, 2)
      && OnlyAddsAbsolute(st.templates, r.st.templates)
      && (WellFormed(st.templates) ==> WellFormed(r.st.templates))
  {
    var t := Primary(env, st, name, d);
    PrimaryEffect(env, st, name, d);
    if t.outcome.CalledWithError? && !Is500(t.data) {
      ServerErrorBound(env, t.st, t.data, t.outcome.err);
    }
  }
}
