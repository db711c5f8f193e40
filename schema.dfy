/**
 * The protocol schema as the viewer reads it from the JSON documents.
 *
 * A list that the JSON may omit (`commands`, `events`, `types`,
 * `parameters`, `returns`, `properties`) is a sequence: the renderer tests
 * `list && list.length`, so an absent list and an empty one behave alike.
 * A boolean flag that may be absent (`optional`, `experimental`) is `false`
 * when absent, as JavaScript truthiness makes it. A description that may be
 * absent is an `Option`.
 */
module Schema {
  import opened Wrappers

  /** The type annotation of a parameter (`type`, `$ref`, `items`); the renderer never reads it. */
  datatype ParamType =
    | Primitive(name: string)
    | Reference(ref: string)
    | ArrayOf(items: ParamType)
    | Untyped

  /** A parameter, a return value or a property. */
  datatype Parameter = Parameter(
    name: string,
    description: Option<string>,
    optional: bool,
    experimental: bool,
    kind: ParamType)

  /** A command or an event: both share this shape and both are rendered as a method. */
  datatype Method = Method(
    name: string,
    description: Option<string>,
    experimental: bool,
    parameters: seq<Parameter>,
    returnValues: seq<Parameter>)

  /** A type declaration; `baseType` is its JSON `type` field and `enumValues` its `enum`. */
  datatype TypeDecl = TypeDecl(
    id: string,
    description: Option<string>,
    experimental: bool,
    properties: seq<Parameter>,
    baseType: Option<string>,
    enumValues: seq<string>)

  /** A domain; `domain` is its name, the key it is merged under. */
  datatype Domain = Domain(
    domain: string,
    description: Option<string>,
    experimental: bool,
    commands: seq<Method>,
    events: seq<Method>,
    types: seq<TypeDecl>)

  /** The `domains` list of one protocol document. */
  type Protocol = seq<Domain>
}
