/**
 * Properties relating the manager's operations to each other: how merging
 * sees global and page data, the layout state machine, what a layout render
 * hands the layout, and what RenderWithLayout leaves behind.
 */
module RenderProperties {
  import opened Wrappers
  import opened Values
  import opened Comper

  /** Any page data that is not a `map[string]any` leaves exactly the globals. */
  lemma MergeIgnoresNonMap(globalData: map<string, Value>, pageData: Value)
    requires !pageData.MapValue?
    ensures MergeData(globalData, pageData) == globalData
  {
  }

  /**
   * A defined map type (gin's H, say) is not a `map[string]any`, so its
   * entries are dropped, while the same entries as a plain map are merged.
   */
  lemma MergeDropsDefinedMapType(globalData: map<string, Value>, typeName: string, entries: map<string, Value>)
    ensures MergeData(globalData, NamedMapValue(typeName, entries)) == globalData
    ensures MergeData(globalData, MapValue(entries)).Keys == globalData.Keys + entries.Keys
  {
  }

  /** A global added with AddGlobalData reaches every render unless the page overrides it. */
  lemma AddedGlobalIsMerged(tm: TemplateManager, key: string, value: Value, pageData: Value)
    ensures var merged := MergeData(AddGlobalData(tm, key, value).globalData, pageData);
      key in merged && merged[key] == (if key in PageEntries(pageData) then PageEntries(pageData)[key] else value)
  {
  }

  /** SetLayout keeps the manager's invariant. */
  lemma SetLayoutPreservesValid(tm: TemplateManager, name: string)
    requires Valid(tm)
    ensures Valid(SetLayout(tm, name).tm)
  {
  }

  /** Setting the same layout twice is the same as setting it once. */
  lemma SetLayoutIdempotent(tm: TemplateManager, name: string)
    ensures SetLayout(SetLayout(tm, name).tm, name) == SetLayout(tm, name)
  {
  }

  /**
   * The empty name is never a template of a valid manager, so SetLayout("")
   * does not clear the layout: it fails with the two-space message and
   * changes nothing.
   */
  lemma SetLayoutEmptyFails(tm: TemplateManager)
    requires Valid(tm)
    ensures SetLayout(tm, "") == LayoutChange(tm, Some(NotFoundEmpty))
  {
    assert NotFoundMessage("") == NotFoundEmpty;
  }

  /** Without a layout, a layout render fails whatever the engine would do: nothing is executed. */
  lemma RenderWithoutLayoutExecutesNothing(tm: TemplateManager, run1: Executor, run2: Executor, name: string, pageData: Value)
    requires tm.layout == ""
    ensures Render(tm, run1, name, pageData, true) == Render(tm, run2, name, pageData, true)
    ensures Render(tm, run1, name, pageData, true) == Err500(ErrRenderingLayout)
  {
  }

  /**
   * The Content a layout receives is byte for byte the output the same
   * template gives when rendered directly on the same data.
   */
  lemma LayoutContentIsDirectOutput(tm: TemplateManager, run: Executor, name: string, pageData: Value, body: string)
    requires Render(tm, run, name, pageData, false) == Ok(body)
    ensures RenderContent(tm, run, name, MapValue(MergeData(tm.globalData, pageData))) == body
  {
  }

  /**
   * When the inner template fails, the layout still runs, on empty Content;
   * the response succeeds exactly when the layout does.
   */
  lemma InnerFailureGivesEmptyContent(tm: TemplateManager, run: Executor, name: string, pageData: Value)
    requires Render(tm, run, name, pageData, false).Err500?
    requires tm.layout != "" && tm.layout in tm.templates
    ensures var data := MergeData(tm.globalData, pageData);
      RenderContent(tm, run, name, MapValue(data)) == ""
      && (Render(tm, run, name, pageData, true).Ok?
          <==> run(tm.layout, LayoutPayload("", data)).Some?)
  {
  }

  /** RenderWithLayout keeps the manager's invariant, whatever the layout name. */
  lemma RenderWithLayoutPreservesValid(tm: TemplateManager, run: Executor, name: string, pageData: Value, layout: string)
    requires Valid(tm)
    ensures Valid(RenderWithLayout(tm, run, name, pageData, layout).tm)
  {
  }

  /**
   * On a valid manager the "unset" step of RenderWithLayout never clears:
   * afterwards the layout is still the one it rendered with, and nothing
   * else has changed.
   */
  lemma RenderWithLayoutLeavesLayoutSet(tm: TemplateManager, run: Executor, name: string, pageData: Value, layout: string)
    requires Valid(tm)
    requires layout in tm.templates
    ensures RenderWithLayout(tm, run, name, pageData, layout).tm == tm.(layout := layout)
    ensures RenderWithLayout(tm, run, name, pageData, layout).tm.layout != ""
  {
  }

  /**
   * Consequence: a later direct layout render does not report a missing
   * layout but renders with the stale one left behind.
   */
  lemma StaleLayoutAfterRenderWithLayout(
    tm: TemplateManager, run: Executor, name: string, pageData: Value, layout: string,
    laterName: string, laterData: Value)
    requires Valid(tm)
    requires layout in tm.templates
    ensures var after := RenderWithLayout(tm, run, name, pageData, layout).tm;
      Render(after, run, laterName, laterData, true)
        == RenderWithLayout(tm, run, laterName, laterData, layout).response
  {
  }

  /**
   * A home page rendered inside a base layout: the global Name reaches the
   * inner template and the layout wraps its output.
   */
  lemma HomeInBaseLayout(run: Executor)
    requires run("home.gohtml", MapValue(map["Name" := StrValue("World")])) == Some("Hello World")
    requires run("base.gohtml", LayoutPayload("Hello World", map["Name" := StrValue("World")]))
      == Some("<html>Hello World</html>")
    ensures var tm := TemplateManager({"home.gohtml", "base.gohtml"}, "web", "", map["Name" := StrValue("World")]);
      Render(SetLayout(tm, "base.gohtml").tm, run, "home.gohtml", NilValue, true) == Ok("<html>Hello World</html>")
  {
    var globals := map["Name" := StrValue("World")];
    assert MergeData(globals, NilValue) == globals;
  }

  /** Page data overrides a global of the same name in a direct render. */
  lemma PageOverridesGlobal(run: Executor)
    requires run("home.gohtml", MapValue(map["Name" := StrValue("Page")])) == Some("Hello Page")
    ensures var tm := TemplateManager({"home.gohtml", "base.gohtml"}, "web", "", map["Name" := StrValue("World")]);
      Render(tm, run, "home.gohtml", MapValue(map["Name" := StrValue("Page")]), false) == Ok("Hello Page")
  {
    var globals := map["Name" := StrValue("World")];
    var page := map["Name" := StrValue("Page")];
    assert MergeData(globals, MapValue(page)) == page;
  }
}
