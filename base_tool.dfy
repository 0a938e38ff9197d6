/** The tool interface (`BaseTool`): a name, a description and the function-calling schema the
    planner shows to the model. A tool's `execute` is abstract here; each concrete tool supplies
    its own (see the tool modules), and the executor reaches them through the environment. */
module BaseTool {
  import opened Wrappers
  import opened Json

  /** One parameter an overriding `to_schema` declares: its name, JSON-schema type and description. */
  datatype Param = Param(name: string, typ: string, description: string)

  /** The parameter schema: the base class's empty one, or the one a concrete tool declares. */
  datatype Parameters =
    | Inherited
    | Declared(properties: seq<Param>, required: seq<string>)

  datatype Tool = Tool(name: string, description: string, parameters: Parameters)

  function ParamSchema(p: Param): Json {
    JObj([("type", JStr(p.typ)), ("description", JStr(p.description))])
  }

  function Strings(names: seq<string>): (r: Json)
    ensures r.JArr? && |r.items| == |names|
    ensures forall i :: 0 <= i < |names| ==> r.items[i] == JStr(names[i])
  {
    JArr(seq(|names|, i requires 0 <= i < |names| => JStr(names[i])))
  }

  function ParametersSchema(ps: Parameters): Json {
    match ps
    case Inherited => JObj([("type", JStr("object")), ("properties", JObj([]))])
    case Declared(props, req) =>
      JObj([("type", JStr("object")),
            ("properties", JObj(seq(|props|, i requires 0 <= i < |props| => (props[i].name, ParamSchema(props[i]))))),
            ("required", Strings(req))])
  }

  /** `tool.to_schema()`: a "function" entry carrying the tool's own name and description and an
      object schema for its parameters. Only the overrides declare `required`; the base
      schema has empty `properties` and no `required` key. */
  function ToSchema(t: Tool): (r: Json)
    ensures Path(r, ["type"]) == Some(JStr("function"))
    ensures Path(r, ["function", "name"]) == Some(JStr(t.name))
    ensures Path(r, ["function", "description"]) == Some(JStr(t.description))
    ensures Path(r, ["function", "parameters", "type"]) == Some(JStr("object"))
    ensures t.parameters.Inherited? ==>
      Path(r, ["function", "parameters", "properties"]) == Some(JObj([])) &&
      Path(r, ["function", "parameters", "required"]) == None
    ensures t.parameters.Declared? ==>
      Path(r, ["function", "parameters", "required"]) == Some(Strings(t.parameters.required))
  {
    var params := ParametersSchema(t.parameters);
    var entry := JObj([("name", JStr(t.name)), ("description", JStr(t.description)), ("parameters", params)]);
    var r := JObj([("type", JStr("function")), ("function", entry)]);
    LookupFinds(r.fields, "type", 0);
    LookupFinds(r.fields, "function", 1);
    LookupFinds(entry.fields, "name", 0);
    LookupFinds(entry.fields, "description", 1);
    LookupFinds(entry.fields, "parameters", 2);
    LookupFinds(params.fields, "type", 0);
    if t.parameters.Inherited? then
      LookupFinds(params.fields, "properties", 1);
      r
    else
      LookupFinds(params.fields, "required", 2);
      r
  }
}
