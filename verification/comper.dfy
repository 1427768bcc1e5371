/**
 * The template manager: global data, the current layout, and rendering a
 * named template either directly or wrapped in the current layout. The
 * template engine is an Executor, consulted only for names in the index.
 */
module Comper {
  import opened Wrappers
  import opened Values
  import opened TemplateIndex

  /**
   * The manager's state. `templates` is the set of lookup-able template
   * names; `layout` is the current layout ("" when none is set).
   */
  datatype TemplateManager = TemplateManager(
    templates: set<string>,
    webDir: string,
    layout: string,
    globalData: map<string, Value>)

  /**
   * The template engine's behaviour on the parsed templates: the output of
   * executing template `name` on `data`, or None when execution fails.
   */
  type Executor = (string, Value) -> Option<string>

  /** The manager's invariant: "" is never a template, and a set layout is one. */
  predicate Valid(tm: TemplateManager)
  {
    "" !in tm.templates && (tm.layout == "" || tm.layout in tm.templates)
  }

  /** ExecuteTemplate: an unknown name fails; a known one runs the engine. */
  function Execute(tm: TemplateManager, run: Executor, name: string, data: Value): (out: Option<string>)
    ensures name !in tm.templates ==> out == None
    ensures name in tm.templates ==> out == run(name, data)
  {
    if name in tm.templates then run(name, data) else None
  }

  /**
   * NewTemplateManager: index the templates under `templatesRoot` (the
   * web directory's "templates" sub-directory); a failure is wrapped, a
   * success gives a manager with no layout and the given global data.
   */
  function NewTemplateManager(
    webDir: string, templatesRoot: string, globalData: map<string, Value>,
    entries: seq<WalkEntry>, sep: char, fs: Oracles): (r: Result<TemplateManager, string>)
    ensures r.Failure? <==> IndexTemplates(templatesRoot, entries, sep, fs).Failure?
    ensures r.Failure? ==>
      r.error == "failed to index templates: " + IndexTemplates(templatesRoot, entries, sep, fs).error
    ensures r.Success? ==> Valid(r.value) && r.value.layout == ""
    ensures r.Success? ==> r.value.templates == IndexTemplates(templatesRoot, entries, sep, fs).value
    ensures r.Success? ==> r.value.globalData == globalData && r.value.webDir == webDir
  {
    IndexOmitsEmptyName(templatesRoot, entries, sep, fs);
    match IndexTemplates(templatesRoot, entries, sep, fs)
    case Failure(err) => Failure("failed to index templates: " + err)
    case Success(names) => Success(TemplateManager(names, webDir, "", globalData))
  }

  /** AddGlobalData: insert or overwrite one global entry. */
  function AddGlobalData(tm: TemplateManager, key: string, value: Value): (tm': TemplateManager)
    ensures tm'.globalData.Keys == tm.globalData.Keys + {key}
    ensures tm'.globalData[key] == value
    ensures forall k :: k in tm.globalData && k != key ==> tm'.globalData[k] == tm.globalData[k]
    ensures tm'.templates == tm.templates && tm'.layout == tm.layout && tm'.webDir == tm.webDir
  {
    tm.(globalData := tm.globalData[key := value])
  }

  /**
   * The entries a page-data value contributes: those of a `map[string]any`;
   * any other value, nil or a defined map type included, contributes none.
   */
  function PageEntries(pageData: Value): (m: map<string, Value>)
    ensures pageData.MapValue? ==> m == pageData.entries
    ensures !pageData.MapValue? ==> m == map[]
  {
    match pageData
    case MapValue(entries) => entries
    case _ => map[]
  }

  /**
   * mergeData: a fresh map holding the global entries overlaid with the
   * page entries; page values win on a shared key.
   */
  function MergeData(globalData: map<string, Value>, pageData: Value): (merged: map<string, Value>)
    ensures merged.Keys == globalData.Keys + PageEntries(pageData).Keys
    ensures forall k :: k in PageEntries(pageData) ==> merged[k] == PageEntries(pageData)[k]
    ensures forall k :: k in globalData && k !in PageEntries(pageData) ==> merged[k] == globalData[k]
  {
    globalData + PageEntries(pageData)
  }

  /**
   * mergeData as the source computes it: copy every global entry, then, if
   * the page data is a `map[string]any`, copy each of its entries over. Map
   * iteration order is unspecified, so each step picks any remaining key.
   */
  method MergeDataLoop(globalData: map<string, Value>, pageData: Value) returns (merged: map<string, Value>)
    ensures merged == MergeData(globalData, pageData)
    ensures !pageData.MapValue? ==> merged == globalData
  {
    merged := map[];
    var todo := globalData.Keys;
    while todo != {}
      invariant todo <= globalData.Keys
      invariant merged.Keys == globalData.Keys - todo
      invariant forall k :: k in merged ==> merged[k] == globalData[k]
      decreases todo
    {
      var k :| k in todo;
      merged := merged[k := globalData[k]];
      todo := todo - {k};
    }
    assert merged == globalData;
    if pageData.MapValue? {
      var pd := pageData.entries;
      var rest := pd.Keys;
      while rest != {}
        invariant rest <= pd.Keys
        invariant merged.Keys == globalData.Keys + (pd.Keys - rest)
        invariant forall k :: k in merged ==> merged[k] == (if k in pd && k !in rest then pd[k] else globalData[k])
        decreases rest
      {
        var k :| k in rest;
        merged := merged[k := pd[k]];
        rest := rest - {k};
      }
    }
  }

  /** The outcome of SetLayout: the new manager and the error, if any. */
  datatype LayoutChange = LayoutChange(tm: TemplateManager, err: Option<string>)

  /**
   * SetLayout: a name in the index becomes the layout; any other name,
   * "" included, is an error and leaves the manager as it was.
   */
  function SetLayout(tm: TemplateManager, name: string): (r: LayoutChange)
    ensures r.err.None? <==> name in tm.templates
    ensures r.err.Some? ==> r.tm == tm && r.err.value == NotFoundMessage(name)
    ensures r.err.None? ==> r.tm.layout == name
    ensures r.tm.templates == tm.templates && r.tm.globalData == tm.globalData && r.tm.webDir == tm.webDir
  {
    if name !in tm.templates then LayoutChange(tm, Some(NotFoundMessage(name)))
    else LayoutChange(tm.(layout := name), None)
  }

  /** The map a layout is executed on: the inner output and the merged data. */
  function LayoutPayload(content: string, data: map<string, Value>): (v: Value)
    ensures v.MapValue? && v.entries.Keys == {"Content", "Data"}
    ensures v.entries["Content"] == StrValue(content) && v.entries["Data"] == MapValue(data)
  {
    MapValue(map["Content" := StrValue(content), "Data" := MapValue(data)])
  }

  /** renderContent: the inner template's output, or "" if executing it fails. */
  function RenderContent(tm: TemplateManager, run: Executor, name: string, data: Value): (s: string)
    ensures Execute(tm, run, name, data).Some? ==> s == Execute(tm, run, name, data).value
    ensures Execute(tm, run, name, data).None? ==> s == ""
  {
    match Execute(tm, run, name, data)
    case Some(out) => out
    case None => ""
  }

  /**
   * Render: with `useLayout`, fail when no layout is set, otherwise execute
   * the layout on the inner output and the merged data; without it, execute
   * the named template on the merged data. Failures are fixed 500 texts.
   */
  function Render(tm: TemplateManager, run: Executor, name: string, pageData: Value, useLayout: bool): (r: Response)
    ensures !r.Panic?
    ensures r.Err500? ==> r.message == (if useLayout then ErrRenderingLayout else ErrRendering)
    ensures useLayout && tm.layout == "" ==> r == Err500(ErrRenderingLayout)
    ensures useLayout && tm.layout != "" ==>
      var data := MergeData(tm.globalData, pageData);
      (r.Ok? <==> tm.layout in tm.templates
                  && run(tm.layout, LayoutPayload(RenderContent(tm, run, name, MapValue(data)), data)).Some?)
    ensures useLayout && r.Ok? ==> tm.layout in tm.templates
    ensures useLayout && r.Ok? ==>
      var data := MergeData(tm.globalData, pageData);
      run(tm.layout, LayoutPayload(RenderContent(tm, run, name, MapValue(data)), data)) == Some(r.body)
    ensures !useLayout ==>
      (r.Ok? <==> name in tm.templates && run(name, MapValue(MergeData(tm.globalData, pageData))).Some?)
    ensures !useLayout && r.Ok? ==> run(name, MapValue(MergeData(tm.globalData, pageData))) == Some(r.body)
  {
    var data := MergeData(tm.globalData, pageData);
    if useLayout then
      if tm.layout == "" then Err500(ErrRenderingLayout)
      else
        match Execute(tm, run, tm.layout, LayoutPayload(RenderContent(tm, run, name, MapValue(data)), data))
        case Some(out) => Ok(out)
        case None => Err500(ErrRenderingLayout)
    else
      match Execute(tm, run, name, MapValue(data))
      case Some(out) => Ok(out)
      case None => Err500(ErrRendering)
  }

  /** The outcome of a render step that may also change the manager. */
  datatype Rendered = Rendered(tm: TemplateManager, response: Response)

  /**
   * RenderWithLayout: set the layout (a failure answers "Error setting
   * layout" and renders nothing), render with it, then try to unset it with
   * SetLayout(""), tolerating the "template  not found" error.
   */
  function RenderWithLayout(tm: TemplateManager, run: Executor, name: string, pageData: Value, layout: string): (r: Rendered)
    ensures layout !in tm.templates ==> r == Rendered(tm, Err500(ErrSettingLayout))
    ensures layout in tm.templates ==> r.response == Render(tm.(layout := layout), run, name, pageData, true)
    ensures layout in tm.templates ==> r.tm == tm.(layout := if "" in tm.templates then "" else layout)
  {
    var setting := SetLayout(tm, layout);
    if setting.err.Some? then Rendered(tm, Err500(ErrSettingLayout))
    else
      var response := Render(setting.tm, run, name, pageData, true);
      var unset := SetLayout(setting.tm, "");
      if unset.err.Some? && unset.err.value != NotFoundEmpty then Rendered(unset.tm, Err500(ErrUnsettingLayout))
      else Rendered(unset.tm, response)
  }
}
