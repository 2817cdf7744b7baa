/** The tool registry: one instance per tool name, and the lookup that falls back to the
    select tool.  A tool is named here by its kind; the instances themselves are the objects
    of the tool classes, created once, so that a tool's gesture state survives switching away
    and back. */
module ToolRegistry {

  datatype ToolKind = Select | Rectangle | Ellipse | Arrow | Draw | Text | Eraser

  /** The name each tool is registered under. */
  function NameOf(k: ToolKind): string
  {
    match k
    case Select => "select"
    case Rectangle => "rectangle"
    case Ellipse => "ellipse"
    case Arrow => "arrow"
    case Draw => "draw"
    case Text => "text"
    case Eraser => "eraser"
  }

  /** The `tools` object: name to tool. */
  const Registry: map<string, ToolKind> :=
    map["select" := Select, "rectangle" := Rectangle, "ellipse" := Ellipse,
        "arrow" := Arrow, "draw" := Draw, "text" := Text, "eraser" := Eraser]

  /** `getTool(name)`: the registered tool, or the select tool for any other name. */
  function GetTool(name: string): (k: ToolKind)
    ensures name !in Registry ==> k == Select
    ensures name in Registry ==> k == Registry[name]
  {
    if name in Registry then Registry[name] else Select
  }

  /** The registry holds exactly the seven names, each under the name of its own tool, so
      looking a tool up by its name gives that tool back and no two names share a tool. */
  lemma RegistryExact()
    ensures Registry.Keys == {"select", "rectangle", "ellipse", "arrow", "draw", "text", "eraser"}
    ensures forall k: ToolKind :: NameOf(k) in Registry && GetTool(NameOf(k)) == k
    ensures forall n :: n in Registry ==> NameOf(Registry[n]) == n
  {
    forall k: ToolKind ensures NameOf(k) in Registry && GetTool(NameOf(k)) == k {
      match k
      case Select =>
      case Rectangle =>
      case Ellipse =>
      case Arrow =>
      case Draw =>
      case Text =>
      case Eraser =>
    }
  }

  /** Lookup is total: every name gives a tool, and only "select" and unknown names give the
      select tool. */
  lemma SelectFallback(name: string)
    ensures GetTool(name) == Select <==> name == "select" || name !in Registry
  {
  }
}
