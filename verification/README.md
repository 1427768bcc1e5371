# comper — a Dafny model of the template manager

comper is a small Go package that renders `text/template` files for a gin web
server. At start-up it walks `<webDir>/templates` and indexes every `.gohtml`
file under its slash-separated path relative to that directory. A
`TemplateManager` holds that index, process-wide global data and a "current
layout". `Render` executes a named template on the global data overlaid with
per-call page data, either directly or wrapped in the current layout: the
layout receives `{Content: <inner output>, Data: <merged data>}`.
`RenderWithLayout` sets a layout, renders, then tries to unset it, and the
`ApplyLayout` middleware calls it once the downstream handlers have put a
`content` template name (and optionally `data`) into the request context.

The model is functional. A `TemplateManager` is an immutable record, and each
operation returns the new manager together with its outcome. A response is
`Ok(body)`, `Err500(message)` with the source's fixed message, or `Panic`.
The template engine is an `Executor`, an uninterpreted function from a
template name and a data value to `Some(output)` or `None`. It is consulted
only for names in the index, as `ExecuteTemplate` is. Reading and parsing a
file are oracle functions, and the directory walk is the list of entries it
visits. The host's path separator is a parameter.

Modules: `Wrappers` (Option, Result), `Values` (Go `any` values, responses,
fixed messages), `Paths` (`filepath.Ext`, `Rel`, `ToSlash`), `TemplateIndex`
(`indexTemplate`, `indexTemplates`), `Comper` (the manager), `RenderProperties`
(lemmas across operations), `Middleware` (`ApplyLayout`).

What the code does where a description of its intent says otherwise: clearing
the layout with `SetLayout("")` was meant to return the manager to "no
layout". In the code, `""` is never a name in the index: the root template
`template.New("")` is not itself registered, and only the parsed file trees are
added. So `SetLayout("")` fails with `template  not found` (two spaces), and
`RenderWithLayout` swallows exactly that message. The layout therefore stays
set after every successful `RenderWithLayout`, and a later direct layout render
uses it instead of failing with "no layout set". The model follows the code
(`SetLayoutEmptyFails`, `RenderWithLayoutLeavesLayoutSet`,
`StaleLayoutAfterRenderWithLayout`).

A second consequence of the code: `mergeData` asserts the page data to exactly
`map[string]any`. A value of a defined map type such as gin's `gin.H` fails
that assertion, so its entries are silently ignored (`MergeDropsDefinedMapType`).

## Model

| member | source | states |
|---|---|---|
| Paths.Ext | comper.go:137 | the extension is empty exactly when the final path element has no dot; otherwise it is the suffix of the path that starts at the last dot of the final element |
| Paths.Rel | comper.go:138-141 | the root itself is named "."; any other path under the root is named by what follows the root's directory prefix, and that name is never empty |
| Paths.RelJoin | comper.go:121-122 | Rel recovers the relative name of every path the walk builds under the root |
| Paths.ToSlash | comper.go:143 | length is kept, each host separator becomes '/' and every other character is kept, so on a '/' host the path is unchanged |
| TemplateIndex.IndexTemplate | comper.go:133-158 | an incoming walk error propagates; a non-directory with extension .gohtml fails with the error of the first failing step of Rel, read and parse (in that order), and otherwise is indexed under its slash-normalised relative name; every other entry is skipped without error |
| TemplateIndex.CollectSucceeds | comper.go:121-128 | the walk's fold succeeds exactly when no entry fails |
| TemplateIndex.CollectNames | comper.go:121-128 | a successful fold yields exactly the names of the indexed entries |
| TemplateIndex.CollectFirstError | comper.go:121-128 | a failed fold reports the error of the first failing entry in walk order |
| TemplateIndex.IndexTemplatesSpec | comper.go:118-131 | indexing succeeds exactly when no entry fails, yields precisely the indexed template names, and otherwise reports the first failing entry's error |
| TemplateIndex.IndexOmitsEmptyName | comper.go:118-131 | a successful index never contains the empty name |
| Comper.NewTemplateManager | comper.go:21-33 | an index failure becomes "failed to index templates: " plus the error; a success gives a manager with exactly the indexed names, no layout, the given global data, and the manager invariant |
| Comper.AddGlobalData | comper.go:35-37 | the key now maps to the value; other globals, the index and the layout are unchanged |
| Comper.MergeData | comper.go:103-116 | the merged keys are the global keys plus the page-map keys; page values win on a shared key; other keys keep their global values; non-map page data contributes nothing |
| Comper.MergeDataLoop | comper.go:103-116 | the two copy loops, in any map iteration order, compute the overlay, and for non-map page data a copy of the globals |
| Comper.SetLayout | comper.go:39-46 | succeeds exactly for names in the index, and then the layout is that name; otherwise it returns "template NAME not found" and the manager is unchanged; the index and the globals never change |
| Comper.RenderContent | comper.go:95-101 | the inner template's output, or "" when executing it fails |
| Comper.Render | comper.go:66-93 | a layout render with no layout set fails with "Error rendering layout template"; with a layout set, a layout render succeeds exactly when the layout is indexed and executes on the inner content and the merged data, and its body is the layout's output; a direct render succeeds exactly when the named template is indexed and executes on the merged data; every failure carries the mode's fixed message |
| Comper.RenderWithLayout | comper.go:48-64 | an absent layout answers "Error setting layout" and renders nothing; otherwise the response is a layout render with that layout, and the unset step changes the layout only if "" were an indexed name |
| RenderProperties.MergeIgnoresNonMap | comper.go:109-113 | page data that is not a map[string]any, nil included, leaves exactly the global data |
| RenderProperties.MergeDropsDefinedMapType | comper.go:109 | a defined map type's entries are dropped where the same plain map's entries are merged |
| RenderProperties.AddedGlobalIsMerged | comper.go:35-37 | a global added with AddGlobalData is visible to every render unless page data overrides it |
| RenderProperties.SetLayoutPreservesValid | comper.go:39-46 | setting a layout keeps the invariant that "" is not indexed and a set layout is indexed |
| RenderProperties.SetLayoutIdempotent | comper.go:39-46 | setting the same layout twice is the same as setting it once |
| RenderProperties.SetLayoutEmptyFails | comper.go:39-46 | on a valid manager SetLayout("") fails with "template  not found" (two spaces) and changes nothing |
| RenderProperties.RenderWithoutLayoutExecutesNothing | comper.go:69-74 | with no layout set, a layout render fails whatever the engine would do, so no template runs |
| RenderProperties.LayoutContentIsDirectOutput | comper.go:76-79 | the Content a layout receives equals the body of a direct render of the same template on the same data |
| RenderProperties.InnerFailureGivesEmptyContent | comper.go:95-101 | when the inner template fails, the layout still runs on empty Content, and the response succeeds exactly when the layout does |
| RenderProperties.RenderWithLayoutPreservesValid | comper.go:48-64 | RenderWithLayout keeps the manager invariant for any layout name |
| RenderProperties.RenderWithLayoutLeavesLayoutSet | comper.go:58-59 | on a valid manager the unset step swallows its error, so the layout stays the one rendered with and nothing else changes |
| RenderProperties.StaleLayoutAfterRenderWithLayout | comper.go:58-59 | a later direct layout render uses the layout left behind instead of reporting that no layout is set |
| RenderProperties.HomeInBaseLayout | comper.go:66-84 | a page rendered in a base layout on global data comes out wrapped by the layout |
| RenderProperties.PageOverridesGlobal | comper.go:85-91 | in a direct render, a page entry overrides the global of the same name |
| Middleware.ContextData | comper.go:171 | the context's data value, or nil when the key is absent |
| Middleware.ApplyLayout | comper.go:165-173 | a missing content key answers "content not set" and renders nothing; a string content name calls RenderWithLayout with the fixed layout and the context's data; any other content value panics and leaves the manager unchanged |
| Middleware.MissingDataRendersGlobals | comper.go:171-173 | without page data in the context, the content renders on the global data alone |
| Middleware.NoContentExecutesNothing | comper.go:165-169 | without a content key no template runs, whatever the engine would do |

## Left out

- Template parsing and execution in `text/template` (`Parse`, `ExecuteTemplate`, `AddParseTree`, `template.Must`): a foreign library, modelled as the parse oracle and the uninterpreted `Executor`. Templates declared with `{{define}}` inside a file are not modelled. Only the file's own tree is added to the index, and that is the only name the model indexes.
- Reading files and the directory walk (`os.ReadFile`, `filepath.Walk`): I/O. The walk is the given list of entries, and the read result is an oracle. The partially built template set that `indexTemplates` returns beside an error is not modelled, because its only caller discards it.
- `filepath.Join(webDir, "templates")` in `NewTemplateManager`: the templates root is a separate parameter.
- Paths.Rel: only modelled for targets under the root, which is all the walk produces. For any other target the model reports an error, where Go would return a `..`-prefixed path. Go's path cleaning is not modelled.
- Response bytes: `http.Error` appends a newline to its message, and `c.String` does not. A failed execution may already have streamed part of its output before the 500 is written. `Err500` records only the fixed message. `log.Println` output is not modelled.
- Comper.RenderWithLayout: the "Error unsetting layout" branch is kept, but it cannot be taken, because SetLayout("") can only fail with the tolerated message. What Go would write there after an already-rendered body is not modelled.
- gin plumbing: `c.Next()` is represented by the context map it leaves behind. `c.Writer` is the response. The panic of `tmpl.(string)` is `Panic`, and gin's recovery handling of it is not modelled.
- Sharing of the global map: Go's `NewTemplateManager` keeps the caller's map itself, not a copy, and `AddGlobalData` writes into that same map. So the caller's later writes reach every render, and `AddGlobalData` changes the caller's map. The model's global data is an immutable value owned by the manager, so this aliasing is not modelled.
- A nil global map: Go's `NewTemplateManager` accepts one, merging reads it as empty, and `AddGlobalData` then panics on assignment. In the model the global data is always a map, so that panic is not modelled.
- Concurrency: the unsynchronised sharing of `layout` and `globalData` between requests. The model is sequential.
- The count property "N template files give N names" is not stated. Distinct walk paths give distinct names only for a clean walk, and the model states the set of names instead (`IndexTemplatesSpec`).
