/**
 * The template registry as values: the call shapes `registerTemplate` accepts,
 * how it resolves the entry name, what a fresh entry looks like, what
 * `registerRenderer` does to one entry, and how `getTemplate` looks a name up.
 * The class `Renderer.TemplateRenderer` keeps the same tables in place and is
 * specified by these functions.
 */
module Registry {
  import opened Wrappers
  import opened Host
  import Paths

  /** An argument of `registerTemplate`: undefined or null, a string, or a function. */
  datatype Arg = Missing | Str(s: string) | Func(fn: FnId)

  /** JavaScript falsiness, for the values an `Arg` can hold. */
  predicate Falsy(a: Arg) {
    a.Missing? || a == Str("")
  }

  /**
   * What a template was built from: a render function given in place of a
   * path, or a file path with the parts `path.parse` found in it (`ext`
   * without its leading dot).
   */
  datatype Source =
    | Inline(fn: FnId)
    | File(path: string, ext: string, dir: string, base: string)

  /** The `render` field of an entry: the built-in placeholder or a host function. */
  datatype RenderFn = Default | Fn(fn: FnId)

  /** The fields of one `BloggifyTemplate` object. */
  datatype EntryView = EntryView(
    name: string,
    source: Source,
    data: Option<Fields>,
    render: RenderFn,
    hasRenderer: bool)

  /**
   * What the registry keeps true of every entry: a set `hasRenderer` always
   * comes with a host render function, and only file entries use the
   * placeholder. (The converse of the first does not hold: an entry created
   * while its extension already had a renderer has that renderer but
   * `hasRenderer` false.)
   */
  predicate Consistent(e: EntryView) {
    && (e.hasRenderer ==> e.render.Fn?)
    && (e.render.Default? ==> e.source.File?)
  }

  /** Every entry is stored under its own name and is consistent. */
  predicate WellFormed(templates: map<string, EntryView>) {
    forall n :: n in templates ==> templates[n].name == n && Consistent(templates[n])
  }

  /** Storing a consistent entry under its own name keeps the table well formed. */
  lemma WellFormedStore(templates: map<string, EntryView>, name: string, e: EntryView)
    requires WellFormed(templates) && e.name == name && Consistent(e)
    ensures WellFormed(templates[name := e])
  {
  }

  /**
   * The source of a file entry: the parsed path, `ext` with its dot sliced off.
   * Its base is the last path segment, and `ext` is that segment's extension
   * without the dot.
   */
  function FileSource(p: string): (s: Source)
    ensures s.File? && s.path == p
    ensures s.base == Paths.BaseName(p)
    ensures Paths.Extension(s.base) == "." + s.ext || (s.ext == "" && Paths.Extension(s.base) == "")
  {
    var parsed := Paths.Parse(p);
    var dotted := parsed.ext;
    var ext := if dotted == "" then "" else dotted[1..];
    Paths.ExtensionSpec(parsed.base);
    File(p, ext, parsed.dir, parsed.base)
  }

  /** The extension of a file entry is one segment: it holds no dot. */
  lemma FileExtHasNoDot(p: string)
    ensures forall i :: 0 <= i < |FileSource(p).ext| ==> FileSource(p).ext[i] != '.'
  {
    var s := FileSource(p);
    var dotted := Paths.Extension(s.base);
    Paths.ExtensionSpec(s.base);
    if s.ext != "" {
      assert dotted == "." + s.ext;
      forall i | 0 <= i < |s.ext| ensures s.ext[i] != '.' {
        assert s.ext[i] == dotted[i + 1];
      }
    }
  }

  /**
   * The key `getRenderer(tmpl.ext)` reads: an inline entry has no `ext`, and
   * JavaScript turns the undefined key into the string "undefined".
   */
  function RendererKey(s: Source): string {
    if s.Inline? then "undefined" else s.ext
  }

  /** The `render` and `hasRenderer` the `BloggifyTemplate` constructor sets. */
  function InitialRender(s: Source): RenderFn {
    if s.Inline? then Fn(s.fn) else Default
  }

  /**
   * A fresh entry as `registerTemplate` stores it: built by the constructor,
   * then given the renderer already registered for its extension, if any,
   * without touching `hasRenderer`.
   */
  function NewEntry(name: string, s: Source, renderers: map<string, FnId>): EntryView {
    var key := RendererKey(s);
    EntryView(name, s, None, if key in renderers then Fn(renderers[key]) else InitialRender(s), s.Inline?)
  }

  lemma NewEntryRender(name: string, s: Source, renderers: map<string, FnId>)
    ensures var e := NewEntry(name, s, renderers);
      && Consistent(e)
      && e.name == name && e.source == s && e.data == None
      && e.hasRenderer == s.Inline?
      && (e.render.Default? <==> s.File? && s.ext !in renderers)
      && (s.File? && s.ext in renderers ==> e.render == Fn(renderers[s.ext]) && !e.hasRenderer)
      && (s.Inline? ==> e.render == Fn(if "undefined" in renderers then renderers["undefined"] else s.fn))
  {
  }

  /** The thrown errors of `registerTemplate`. */
  const InvalidArguments := Error("Please provide the template path and name.", None)
  /** What Node throws when the constructor reads `absolute` of an undefined path. */
  const MissingPath := Error("Cannot read properties of undefined (reading 'absolute')", None)

  /** The name an entry is stored under, the path argument it is built from, and the override flag. */
  datatype Call = Call(name: string, path: Arg, reregister: bool)

  /**
   * How `registerTemplate(name, tmplPath, usePathName, reregister)` resolves
   * its arguments before consulting the table: a path given alone is moved to
   * `tmplPath`, a non-string name restarts the call as
   * `registerTemplate("", tmplPath)`, and an empty name falls back to the file
   * name without its extension.
   */
  function ResolveCall(name: Arg, tmplPath: Arg, usePathName: bool, reregister: bool): Result<Call, Error>
    decreases if name.Str? then 0 else 1
  {
    if !name.Str? && !tmplPath.Str? then Err(InvalidArguments)
    else
      var path := if Falsy(tmplPath) then name else tmplPath;
      var n := if !Falsy(tmplPath) || usePathName then name else Str("");
      if !n.Str? then ResolveCall(Str(""), path, false, false)
      else if path.Str? && n.s == "" then Ok(Call(Paths.Parse(path.s).name, path, reregister))
      else Ok(Call(n.s, path, reregister))
  }

  /** The source a resolved path argument builds, or nothing when the constructor would throw. */
  function SourceOf(path: Arg): Option<Source> {
    match path
    case Missing => None
    case Str(p) => Some(FileSource(p))
    case Func(f) => Some(Inline(f))
  }

  /** A call fails exactly when neither `name` nor `tmplPath` is a string. */
  lemma ResolveFails(name: Arg, tmplPath: Arg, usePathName: bool, reregister: bool)
    ensures ResolveCall(name, tmplPath, usePathName, reregister).Err? <==> !name.Str? && !tmplPath.Str?
    ensures ResolveCall(name, tmplPath, usePathName, reregister).Err? ==>
      ResolveCall(name, tmplPath, usePathName, reregister).error == InvalidArguments
  {
  }

  /** `registerTemplate(path)` stores the entry under the file name without its extension. */
  lemma PathOnlyName(p: string, reregister: bool)
    ensures ResolveCall(Str(p), Missing, false, reregister) == Ok(Call(Paths.Parse(p).name, Str(p), reregister))
  {
  }

  /** `registerTemplate(path, null, true)` stores the entry under the full path. */
  lemma FullPathName(p: string, reregister: bool)
    ensures ResolveCall(Str(p), Missing, true, reregister) == Ok(Call(p, Str(p), reregister))
  {
    if p == "" {
      Paths.ParseEmpty();
    }
  }

  /** `registerTemplate(name, path)` with a non-empty name keeps that name and the flag. */
  lemma NamedCall(n: string, tmplPath: Arg, usePathName: bool, reregister: bool)
    requires n != "" && !Falsy(tmplPath)
    ensures ResolveCall(Str(n), tmplPath, usePathName, reregister) == Ok(Call(n, tmplPath, reregister))
  {
  }

  /**
   * A non-string name with a path behaves like `registerTemplate("", path)`:
   * `usePathName` and `reregister` are dropped.
   */
  lemma NonStringName(name: Arg, p: string, usePathName: bool, reregister: bool)
    requires !name.Str? && p != ""
    ensures ResolveCall(name, Str(p), usePathName, reregister) == ResolveCall(Str(""), Str(p), false, false)
    ensures ResolveCall(name, Str(p), usePathName, reregister) == Ok(Call(Paths.Parse(p).name, Str(p), false))
  {
  }

  /**
   * `registerTemplate(undefined, "")` without `usePathName` moves the empty
   * path into `name` and leaves the path undefined: the constructor then reads
   * `absolute` of `undefined`. With `usePathName` the restart keeps the empty path.
   */
  lemma {:induction false} UndefinedPathCall(reregister: bool)
    ensures ResolveCall(Missing, Str(""), false, reregister) == Ok(Call("", Missing, reregister))
    ensures SourceOf(ResolveCall(Missing, Str(""), false, reregister).value.path).None?
    ensures ResolveCall(Missing, Str(""), true, reregister) == Ok(Call("", Str(""), false))
    ensures ResolveCall(Str(""), Missing, false, reregister) == Ok(Call("", Str(""), reregister))
  {
    Paths.ParseEmpty();
  }

  /**
   * One step of the loop in `registerRenderer`: a file entry of that
   * extension that has no renderer of its own gets `func`.
   */
  function Attach(e: EntryView, ext: string, func: FnId): EntryView {
    if e.source.File? && e.source.ext == ext && !e.hasRenderer
    then e.(hasRenderer := true, render := Fn(func))
    else e
  }

  lemma AttachEffect(e: EntryView, ext: string, func: FnId)
    ensures var a := Attach(e, ext, func);
      && a.name == e.name && a.source == e.source && a.data == e.data
      && (Consistent(e) ==> Consistent(a))
      && (Consistent(e) && e.source.File? && e.source.ext == ext ==> a.hasRenderer && a.render.Fn?)
      && (e.source.File? && e.source.ext == ext && !e.hasRenderer ==> a.render == Fn(func))
      && (e.hasRenderer || e.source.Inline? || e.source.ext != ext ==> a == e)
  {
  }

  /**
   * The renderer an entry got from an earlier registration is replaced by a
   * second registration for the same extension, although the renderer table
   * keeps the first one.
   */
  lemma LaterRendererReplacesFirst(name: string, p: string, ext: string, first: FnId, second: FnId)
    requires FileSource(p).ext == ext
    ensures var e := NewEntry(name, FileSource(p), map[ext := first]);
      e.render == Fn(first) && Attach(e, ext, second).render == Fn(second)
  {
  }

  /** The warning `registerRenderer` logs for an extension that already has a renderer. */
  function AlreadyRegistered(ext: string): string {
    "\"" + ext + "\" has been already registered"
  }

  function NotFoundError(name: string): Error {
    Error("Template not found: " + name, None)
  }

  /**
   * `getTemplate(name)`: the stored entry, or for a missing absolute name an
   * entry registered on the spot under the full path, or nothing.
   * Returns the entry found and the table afterwards.
   */
  function Lookup(templates: map<string, EntryView>, renderers: map<string, FnId>, name: string)
    : (Option<EntryView>, map<string, EntryView>)
  {
    if name in templates then (Some(templates[name]), templates)
    else if Paths.IsAbsolute(name) then
      var e := NewEntry(name, FileSource(name), renderers);
      (Some(e), templates[name := e])
    else (None, templates)
  }

  lemma LookupCases(templates: map<string, EntryView>, renderers: map<string, FnId>, name: string)
    ensures var (found, after) := Lookup(templates, renderers, name);
      && (found.Some? <==> name in templates || Paths.IsAbsolute(name))
      && (name in templates ==> found == Some(templates[name]) && after == templates)
      && (name !in templates && Paths.IsAbsolute(name) ==>
            && after == templates[name := found.value]
            && found.value == NewEntry(name, FileSource(name), renderers))
      && (found.None? ==> after == templates)
      && (WellFormed(templates) ==> WellFormed(after))
  {
    if name !in templates && Paths.IsAbsolute(name) {
      NewEntryRender(name, FileSource(name), renderers);
    }
  }
}
