/**
 * Dynamic values (Go's `any`) as they flow through the renderer, and the
 * responses the renderer writes.
 */
module Values {

  /**
   * A Go value of static type `any`. `MapValue` is exactly a `map[string]any`;
   * `NamedMapValue` is a value of a defined map type such as gin's `H`, which
   * has the same shape but a different dynamic type and so fails a type
   * assertion to `map[string]any`.
   */
  datatype Value =
    | NilValue
    | StrValue(s: string)
    | IntValue(n: int)
    | BoolValue(b: bool)
    | ListValue(items: seq<Value>)
    | MapValue(entries: map<string, Value>)
    | NamedMapValue(typeName: string, entries: map<string, Value>)

  /**
   * What one request ends with: a rendered body (status 200), a fixed-text
   * 500 response, or a Go panic raised by a failed type assertion.
   */
  datatype Response =
    | Ok(body: string)
    | Err500(message: string)
    | Panic(reason: string)

  // The fixed response texts of the renderer and the middleware.
  const ErrSettingLayout: string := "Error setting layout"
  const ErrUnsettingLayout: string := "Error unsetting layout"
  const ErrRenderingLayout: string := "Error rendering layout template"
  const ErrRendering: string := "Error rendering template"
  const ContentNotSet: string := "content not set"

  /** The error text SetLayout produces for an absent name. */
  function NotFoundMessage(name: string): string
  {
    "template " + name + " not found"
  }

  /** The one error text RenderWithLayout tolerates: NotFoundMessage("") has two spaces. */
  const NotFoundEmpty: string := "template  not found"
}
