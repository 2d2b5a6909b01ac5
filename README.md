# Bloggify template renderer — a Dafny model

`lib/index.js` is the template renderer of the Bloggify blogging framework.
It has two parts:

- **A registry** (`BloggifyTemplateRenderer` with its `BloggifyTemplate` entries). It keeps two tables that it changes in place: `templates` maps a name to an entry, and `renderers` maps a file extension to a render function.
  - `registerTemplate` works out the entry name from several call shapes. It does nothing new for a name that is already stored, unless `reregister` is given.
  - `registerRenderer` keeps the first function stored for an extension. In every case it then gives the new function to each entry of that extension whose `hasRenderer` is not yet set.
  - `getTemplate` looks a name up. A missing absolute path is registered on the spot.
- **A dispatch chain** (`_render` and `renderInternalServerError`). Any failure, whether a lookup miss or a render function that reports an error, falls back to the template named `"500"`. Two guards stop the recursion: `data.error.statusCode === 500` and `data.__render500 === false`. The chain ends with a fixed plain-text response.

The model takes the same form, in six modules:

- `Wrappers`: `Option` and `Result`.
- `Host`: the host values the renderer passes around: error objects, `ctx.end` responses, log lines, and the identity of a plugin's render function.
- `Paths`: POSIX `path.isAbsolute` and `path.parse`.
- `Registry`: the registry as values, with lemmas about it:
  - call shapes and name resolution;
  - what a fresh entry looks like;
  - one step of the `registerRenderer` loop;
  - the `getTemplate` lookup.
- `Dispatch`: `_render` and `renderInternalServerError` as total functions in direct style, with lemmas about them. Each function returns:
  - how the callback is called: `cb()`, `cb(err)` or never;
  - the new registry, responses and log;
  - the final state of the `data` object.
- `Renderer`: the objects themselves, as classes updated in place:
  - each `BloggifyTemplate` is a `Template` object;
  - `TemplateRenderer` holds its `templates` and `renderers` tables;
  - `Context` is the request context;
  - `Data` is the `data` object.

  Every method of `Renderer` is proved to compute its `Registry` or `Dispatch` function exactly. The `Registry` and `Dispatch` lemmas then carry over to the methods.

Callbacks are modelled in direct style:

- A host render function is an oracle, `behaviour: (FnId, EntryView, DataView) -> Completion`, fixed when the renderer is created. It says whether the function calls back with no error, with an error, or never.
- `ul.merge` is another fixed function, `merge: (Fields, Fields) -> Fields`. It acts on the plain fields of `data`. `error` and `__render500` are carried over from `data` unchanged.
- `bloggify.log` appends to a `log` sequence. `ctx.end` appends to the context's `ends`.
- Two ghost traces record what the chain did, so the bound on work can be stated:
  - `attempts` holds every name `getTemplate` looked up;
  - `invoked` holds every template whose render function was invoked.

JavaScript details that the code depends on are modelled as written:

- **Falsiness and argument kinds.** An argument of `registerTemplate` is undefined/null, a string or a function (`Arg`). Falsy means undefined, null or `""`.
- **Inline entries and the renderer table.** An entry created from a function has no `ext`. `getRenderer(tmpl.ext)` therefore reads the key `"undefined"` (`RendererKey`). A renderer registered under the extension `"undefined"` before the entry is created replaces that entry's function. One registered later never touches it, because the loop at line 170 compares `tmpl.ext`, which is undefined, and the entry's `hasRenderer` is set.
- **Undefined path.** `registerTemplate(undefined, "")` without `usePathName` moves the empty path into `name` (lines 106-112) and leaves `tmplPath` undefined. Line 120 is skipped, so line 131 passes `"" || undefined` to the `BloggifyTemplate` constructor, which fails reading `absolute` of `undefined` at line 26. The model returns the error `MissingPath` for that call (`UndefinedPathCall`), unless an entry is already stored under `""` and `reregister` is unset: lines 127-128 then return that entry before line 131 runs (`Stored` keeps this order). The neighbouring calls succeed. `registerTemplate("", undefined)` stores a path entry for `""`. `registerTemplate(undefined, "", true)` restarts at line 116 as `registerTemplate("", undefined)`, whose line 107 takes the empty string back as the path.
- **Placeholder render.** An entry whose extension has no renderer gets a placeholder render. It ends the response with `Please register the <ext> render.` at status 500 and never calls its callback. So, as lib/index.js:30-32 is written, a render that reaches the placeholder stops there and does not fall back to `"500"` (`PlaceholderStops`).
- **Merged copy.** When a template has static `data`, `_render` replaces `data` with a merged copy (line 228). `renderInternalServerError` then writes `error` and `__render500` on that copy, and the caller's object keeps its state (`AfterPrimary`, `PrimaryFailureFallback`).
- **Order-dependent renderer.** An entry created while its extension already has a renderer gets that renderer, but `hasRenderer` stays false (lines 133-135). A second `registerRenderer` for the same extension keeps the first function in the table but gives the second function to that entry (`LaterRendererReplacesFirst`).

## Model

| member | source | states |
|---|---|---|
| Paths.BaseNameSpec | lib/index.js:121 | The base name `path.parse` yields is the suffix of the path after its last slash, and holds no slash. |
| Paths.ExtensionSpec | lib/index.js:121 | The extension is a suffix of the base name: a dot followed by no dot. It is non-empty exactly when the base name has a dot after its first character and is not "..". |
| Paths.ParseSpec | lib/index.js:121-122 | `name` concatenated with `ext` is the base name, and `name` is non-empty whenever there is an extension. |
| Paths.ParseEmpty | lib/index.js:121-122 | Parsing the empty path gives empty parts, so `name` falls back to "". |
| Registry.FileSource | lib/index.js:26-29 | A path entry records the given path as its `path`. Its `base` is the last path segment. Its `ext` is that segment's extension with the leading dot sliced off. |
| Registry.FileExtHasNoDot | lib/index.js:27 | The `ext` of a path entry contains no dot. |
| Registry.WellFormedStore | lib/index.js:136 | Storing a consistent entry under its own name keeps every entry stored under its own name and consistent. |
| Registry.NewEntryRender | lib/index.js:131-135 | A fresh entry has the given name and source and no data, and `hasRenderer` is true exactly for a function template. A path entry whose extension has a renderer gets that renderer, but `hasRenderer` stays false. A path entry whose extension has none gets the placeholder. A function template keeps its function unless the key "undefined" has a renderer. |
| Registry.ResolveFails | lib/index.js:102-104 | The call throws "Please provide the template path and name." exactly when neither `name` nor `tmplPath` is a string. This includes a call with no arguments. |
| Registry.PathOnlyName | lib/index.js:106-124 | A path given alone, without `usePathName`, is stored under the file name without its extension. |
| Registry.FullPathName | lib/index.js:106-124 | A path given alone, with `usePathName`, is stored under the full path. |
| Registry.NamedCall | lib/index.js:106-124 | A non-empty string name with a truthy path keeps that name and the `reregister` flag. |
| Registry.NonStringName | lib/index.js:115-117 | A non-string name with a path behaves like `registerTemplate("", path)`: `usePathName` and `reregister` are dropped, and the file name is used. |
| Registry.AttachEffect | lib/index.js:169-174 | One loop step of `registerRenderer` gives `func` to a path entry of that extension without `hasRenderer`, and sets the flag. Every other entry is unchanged. Name, source and data are never touched. Consistency is kept. |
| Registry.LaterRendererReplacesFirst | lib/index.js:131-135 | For any extension: an entry created while the extension already had a renderer has the first function. A second registration for that extension replaces it on the entry. |
| Registry.UndefinedPathCall | lib/index.js:106-131 | `registerTemplate(undefined, "")` resolves to the name "" with an undefined path, which the constructor cannot build. With `usePathName` the restart keeps the empty path and drops `reregister`. `registerTemplate("", undefined)` resolves to the name "" with the path "". |
| Registry.LookupCases | lib/index.js:68-77 | A stored name returns its entry and leaves the table unchanged. A missing absolute name is registered under the full path as a fresh entry and returned. Any other name finds nothing and leaves the table unchanged. A well-formed table stays well formed. |
| Dispatch.PrimaryKeepsFlags | lib/index.js:227-229 | Looking up and invoking a template leaves `data.error` and `__render500` as they were. Without static template data, the data object is unchanged. |
| Dispatch.PrimaryEffect | lib/index.js:217-231 | One lookup-and-invoke records the lookup and at most one invocation. It writes no log line. It ends the response only when the callback is never called. It only adds entries, and only under absolute names. |
| Dispatch.GuardedRender | lib/index.js:219-236 | Once `data.error` has status 500, `_render` hands a failure straight to its callback, whether it is a lookup miss or an error reported by the render function. Nothing else is rendered, logged or changed. |
| Dispatch.GivenUp | lib/index.js:188-194 | Once `__render500 === false`, `renderInternalServerError` logs the error, ends the response with "Something went really wrong." at status 500, and calls back with the error. |
| Dispatch.ErrorPage | lib/index.js:195-203 | Without the give-up flag, `renderInternalServerError` makes exactly one attempt at "500" and hands its outcome to the callback. If that attempt fails, it ends the response with the fixed text, logs both errors, and leaves the flag set on `data`. |
| Dispatch.PrimaryFailureFallback | lib/index.js:217-241 | A failing primary render, on data with neither guard set, leads to exactly one attempt at "500" and at most two invocations. The callback gets that attempt's outcome. When the attempt fails, the response ends with the fixed text. |
| Dispatch.PlaceholderStops | lib/index.js:30-32 | An entry with the placeholder render ends the response with "Please register the <ext> render." at status 500. The callback is never called and nothing falls back. |
| Dispatch.ServerErrorBound | lib/index.js:188-204 | `renderInternalServerError` makes at most one lookup and one invocation, and only adds entries under absolute names. |
| Dispatch.RenderBound | lib/index.js:217-241 | Every render terminates after at most two lookups and two render-function invocations. It only adds entries, under absolute names, and keeps the table well formed. |
| Renderer.Template.constructor | lib/index.js:19-35 | A function template uses the function itself and has `hasRenderer` set. A path entry gets the placeholder and has `hasRenderer` unset. `data` is null. |
| Renderer.Template.Attach | lib/index.js:170-173 | The entry object changes exactly as `Registry.Attach` says. |
| Renderer.TemplateRenderer.constructor | lib/index.js:46-57 | Both tables start empty, and no entry object is tracked yet. |
| Renderer.TemplateRenderer.GetRenderer | lib/index.js:149-151 | Returns the stored renderer for the extension exactly when there is one. |
| Renderer.TemplateRenderer.RegisterTemplate | lib/index.js:100-138 | On a malformed call: throws and leaves the table unchanged. Otherwise, per the resolved call: returns the stored entry when one exists and `reregister` is unset; otherwise builds a fresh entry as `NewEntry` says and stores it under its name, replacing only that name. Every entry object it adds to the tracked set is fresh. |
| Renderer.TemplateRenderer.Store | lib/index.js:126-137 | Once the name is resolved: the stored entry is returned, or the constructor's error, or a fresh entry that replaces only its own name. |
| Renderer.TemplateRenderer.Insert | lib/index.js:131-136 | A fresh object, equal to `NewEntry`, is stored under the name. The rest of the table is unchanged. |
| Renderer.TemplateRenderer.GetTemplate | lib/index.js:68-77 | Agrees with `Registry.Lookup`: the entry found, or "Template not found: <name>", plus the table afterwards. The stored object is returned for a known name. An entry registered on the spot is a fresh object stored under that name alone, and a miss leaves the table unchanged. Every name stored before keeps its entry object. |
| Renderer.TemplateRenderer.RegisterRenderer | lib/index.js:162-175 | A known extension: logs the warning and keeps the table. An unknown one: stores `func`. Either way, every entry becomes `Registry.Attach` of itself, and no name is added or removed. Entry objects no longer in the table, such as ones a `reregister` replaced, are left untouched. |
| Renderer.TemplateRenderer.AttachAll | lib/index.js:169-174 | Every entry of the table becomes `Registry.Attach` of itself. |
| Renderer.TemplateRenderer.AttachEach | lib/index.js:169-174 | The loop over the entry objects: every stored object ends as `Registry.Attach` of what it held. |
| Renderer.TemplateRenderer.Attempt | lib/index.js:219-231 | Lookup, merge and invocation agree with `Dispatch.Primary`. The object handed on is a fresh copy exactly when the template has data. |
| Renderer.TemplateRenderer.InvokeTemplate | lib/index.js:227-231 | Merging and invoking agree with `Dispatch.Invoke`, placeholder included. |
| Renderer.TemplateRenderer.Render | lib/index.js:217-241 | The result, the registry, the responses, the log and `data` agree with `Dispatch.RenderSpec`. Every name stored before keeps its entry object, and every entry object added is fresh. |
| Renderer.TemplateRenderer.Fallback | lib/index.js:220-236 | The callback of `getTemplate` on a miss, and the callback of the render function, agree with `Dispatch.AfterPrimary`. |
| Renderer.TemplateRenderer.RenderInternalServerError | lib/index.js:188-204 | Agrees with `Dispatch.ServerErrorSpec`. |
| Renderer.TemplateRenderer.GiveUp | lib/index.js:189-194 | Records the error on `data`, logs it, ends the response with the fixed text, and calls back with the error. |
| Renderer.TemplateRenderer.PrepareErrorPage | lib/index.js:189-196 | Records the error on `data` with status 500 and writes both log lines. |
| Renderer.TemplateRenderer.RenderErrorPage | lib/index.js:197-203 | Agrees with `Dispatch.ErrorPageSpec`: one render of "500", then on failure the give-up flag is set and `renderInternalServerError` is called again. |

## Left out

- The module-level choice of `render` (lib/index.js:269-285). It reads the global `Bloggify.options.server.transformers` and the host hooks `getHooks` and `trans.start`, which belong to the host framework.
- `beforeRender` (lib/index.js:253-255): a one-line wrapper over the host's `bloggify.server.hook`.
- Setting a template's static `data`: host code outside lib/index.js does this. The model keeps the field and the merge path, but no operation writes it.
- `ul.merge`: a foreign library whose precedence rules are not in this file. The model uses a fixed function on the plain fields.
- `bloggify.log`: modelled as a recorded log, not as output. The message of an error-level line is the error value itself.
- Kinds of arguments: values other than undefined/null, strings and functions (numbers, objects, booleans) are not modelled. Entry names that collide with `Object.prototype` keys are not modelled either.
- `arguments.length === 0`: not modelled separately. With no arguments, `name` and `tmplPath` are both undefined, and that case is covered.
- `path.parse` and `path.isAbsolute`: modelled for POSIX only. Windows separators are not modelled, and neither is the special case of trailing slashes. Nor is Node's handling of `".."` directly after the root: for `"/.."` Node gives the extension `"."` and the name `"."`, where the model gives `""` and `".."`. The stored `ext` is the same either way after the leading dot is sliced off. Only the name of `registerTemplate("/..")` without `usePathName` differs.
- Host render functions: a render function may have other side effects, or call its callback more than once or later. The model represents only which of the three ways it calls back, once, and assumes it calls back synchronously.
- Error-object aliasing: in the source, `err.statusCode = 500` changes the error object that `data.error` holds and the log line already refers to. The model records the status change only on `data.error` and logs the error as it was.
- Asynchrony: every callback is modelled as taking effect at once, in order.
- The unused imports `read-file-cache` and `safe-r-json`.
