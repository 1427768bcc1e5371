/**
 * The ApplyLayout middleware's decision once the rest of the request
 * pipeline has run: render the "content" template inside the fixed layout,
 * or answer 500 when no content template was chosen.
 */
module Middleware {
  import opened Values
  import opened Comper

  /** The request-context key naming the content template. */
  const ContentKey: string := "content"

  /** The request-context key holding the page data. */
  const DataKey: string := "data"

  /** The page data in the context; a missing key reads as nil. */
  function ContextData(ctx: map<string, Value>): (v: Value)
    ensures DataKey in ctx ==> v == ctx[DataKey]
    ensures DataKey !in ctx ==> v == NilValue
  {
    if DataKey in ctx then ctx[DataKey] else NilValue
  }

  /**
   * ApplyLayout, after the downstream handlers have filled `ctx`: a missing
   * content key answers "content not set"; a string content renders inside
   * `layout`; any other content value fails the string type assertion.
   */
  function ApplyLayout(tm: TemplateManager, run: Executor, layout: string, ctx: map<string, Value>): (r: Rendered)
    ensures ContentKey !in ctx ==> r == Rendered(tm, Err500(ContentNotSet))
    ensures ContentKey in ctx && ctx[ContentKey].StrValue? ==>
      r == RenderWithLayout(tm, run, ctx[ContentKey].s, ContextData(ctx), layout)
    ensures r.response.Panic? <==> ContentKey in ctx && !ctx[ContentKey].StrValue?
    ensures r.response.Panic? ==> r.tm == tm
  {
    if ContentKey !in ctx then Rendered(tm, Err500(ContentNotSet))
    else
      match ctx[ContentKey]
      case StrValue(name) => RenderWithLayout(tm, run, name, ContextData(ctx), layout)
      case _ => Rendered(tm, Panic("interface conversion: interface {} is not string"))
  }

  /** Without page data in the context, the content renders on the globals alone. */
  lemma MissingDataRendersGlobals(tm: TemplateManager, run: Executor, layout: string, ctx: map<string, Value>)
    requires ContentKey in ctx && ctx[ContentKey].StrValue?
    requires DataKey !in ctx
    requires layout in tm.templates
    ensures ApplyLayout(tm, run, layout, ctx).response
      == Render(tm.(layout := layout), run, ctx[ContentKey].s, MapValue(map[]), true)
  {
  }

  /** A context without content never reaches the template engine. */
  lemma NoContentExecutesNothing(tm: TemplateManager, run1: Executor, run2: Executor, layout: string, ctx: map<string, Value>)
    requires ContentKey !in ctx
    ensures ApplyLayout(tm, run1, layout, ctx) == ApplyLayout(tm, run2, layout, ctx)
    ensures ApplyLayout(tm, run1, layout, ctx).response == Err500("content not set")
  {
  }
}
