/** `convert_tools`: generic tool schemas to Ollama's stricter tool records. */
module Tools {
  import opened Wrappers
  import opened Errors
  import opened Names

  /**
    * One property of a tool's parameter schema, reduced to the keys the conversion reads:
    * `type`, the `type` of each `anyOf` option, and `description`.
    */
  datatype PropertySchema = PropertySchema(
    typ: Option<string>,
    anyOf: Option<seq<Option<string>>>,
    description: Option<string>)

  /** `parameters`: the named properties in dictionary order, and `required`. */
  datatype ParametersSchema = ParametersSchema(
    properties: seq<(string, PropertySchema)>,
    required: Option<seq<string>>)

  datatype ToolSchema = ToolSchema(
    name: string,
    description: Option<string>,
    parameters: Option<ParametersSchema>)

  datatype OllamaProperty = OllamaProperty(typ: string, description: Option<string>)

  datatype OllamaTool = OllamaTool(
    name: string,
    description: string,
    required: Option<seq<string>>,
    properties: Option<seq<(string, OllamaProperty)>>)

  /** Option `k` is the first whose type is not "null". */
  predicate FirstNonNullAt(options: seq<Option<string>>, k: int) {
    && 0 <= k < |options|
    && options[k] != Some("null")
    && forall j :: 0 <= j < k ==> options[j] == Some("null")
  }

  /**
    * `next((opt.get("type") for opt in anyOf if opt.get("type") != "null"), None)`:
    * the type of the first option whose type is not "null" (an option without a type
    * yields None), or None when every option is "null".
    */
  function FirstNonNullType(options: seq<Option<string>>): (r: Option<string>)
    ensures (forall i :: 0 <= i < |options| ==> options[i] == Some("null")) ==> r.None?
    ensures forall k :: FirstNonNullAt(options, k) ==> r == options[k]
    ensures r != Some("null")
    decreases |options|
  {
    if options == [] then None
    else if options[0] != Some("null") then
      assert forall k :: FirstNonNullAt(options, k) ==> k == 0;
      options[0]
    else
      var r := FirstNonNullType(options[1..]);
      assert forall k :: FirstNonNullAt(options, k) ==> r == options[k] by {
        forall k | FirstNonNullAt(options, k) ensures r == options[k] {
          assert k > 0;
          assert FirstNonNullAt(options[1..], k - 1) by {
            forall j | 0 <= j < k - 1 ensures options[1..][j] == Some("null") {
              assert options[1..][j] == options[j + 1];
            }
          }
        }
      }
      r
  }

  /** The property type: `type`, else the `anyOf` choice, and any falsy result becomes "string". */
  function PropertyType(p: PropertySchema): (r: string)
    ensures r != ""
    ensures p.typ.Some? && p.typ.value != "" ==> r == p.typ.value
    ensures p.typ == Some("") ==> r == "string"
    ensures p.typ.None? && p.anyOf.None? ==> r == "string"
    ensures p.typ.None? && p.anyOf.Some? ==>
      forall k :: FirstNonNullAt(p.anyOf.value, k) ==>
        r == (if p.anyOf.value[k].Some? && p.anyOf.value[k].value != "" then p.anyOf.value[k].value else "string")
    ensures p.typ.None? && p.anyOf.Some? && (forall i :: 0 <= i < |p.anyOf.value| ==> p.anyOf.value[i] == Some("null")) ==>
      r == "string"
    ensures r == "null" ==> p.typ == Some("null")
  {
    if p.typ.Some? then OrString(p.typ)
    else if p.anyOf.None? then "string"
    else
      var t := FirstNonNullType(p.anyOf.value);
      assert forall k :: FirstNonNullAt(p.anyOf.value, k) ==> t == p.anyOf.value[k];
      OrString(t)
  }

  /** `prop_type or "string"`: a missing or empty type becomes "string". */
  function OrString(t: Option<string>): string {
    if t.None? || t.value == "" then "string" else t.value
  }

  function ConvertProperty(p: PropertySchema): OllamaProperty {
    OllamaProperty(PropertyType(p), p.description)
  }

  /** The converted properties, same names, same order. */
  function ConvertedProperties(props: seq<(string, PropertySchema)>): seq<(string, OllamaProperty)> {
    seq(|props|, i requires 0 <= i < |props| => (props[i].0, ConvertProperty(props[i].1)))
  }

  /** One tool as the first loop of `convert_tools` builds it. */
  function ConvertedTool(t: ToolSchema): OllamaTool {
    OllamaTool(
      t.name,
      if t.description.Some? then t.description.value else "",
      if t.parameters.Some? then t.parameters.value.required else None,
      if t.parameters.Some? then Some(ConvertedProperties(t.parameters.value.properties)) else None)
  }

  /** Tool `k` is the first whose name fails validation, with error `e`. */
  predicate FirstBadNameAt(tools: seq<ToolSchema>, k: int, e: ClientError) {
    && 0 <= k < |tools|
    && AssertValidName(tools[k].name) == Err(e)
    && forall j :: 0 <= j < k ==> AssertValidName(tools[j].name).Ok?
  }

  /** The error of the first tool whose name fails validation, if any. */
  function FirstNameError(tools: seq<ToolSchema>): (e: Option<ClientError>)
    ensures e.None? <==> forall i :: 0 <= i < |tools| ==> AssertValidName(tools[i].name).Ok?
    ensures e.Some? ==> exists k :: FirstBadNameAt(tools, k, e.value)
    decreases |tools|
  {
    if tools == [] then None
    else match AssertValidName(tools[0].name)
      case Err(err) => (assert FirstBadNameAt(tools, 0, err); Some(err))
      case Ok(_) =>
        var e := FirstNameError(tools[1..]);
        assert e.Some? ==> exists k :: FirstBadNameAt(tools, k, e.value) by {
          if e.Some? {
            var k :| FirstBadNameAt(tools[1..], k, e.value);
            assert tools[k + 1] == tools[1..][k];
            forall j | 0 <= j < k + 1 ensures AssertValidName(tools[j].name).Ok? {
              if j > 0 { assert tools[j] == tools[1..][j - 1]; }
            }
            assert FirstBadNameAt(tools, k + 1, e.value);
          }
        }
        assert e.None? ==> forall i :: 0 <= i < |tools| ==> AssertValidName(tools[i].name).Ok? by {
          if e.None? {
            forall i | 0 <= i < |tools| ensures AssertValidName(tools[i].name).Ok? {
              if i > 0 { assert tools[i] == tools[1..][i - 1]; }
            }
          }
        }
        e
  }

  /**
    * What `convert_tools` returns or raises: every tool converted in order, unless a name
    * fails validation, in which case the first failing name's error.
    */
  function ConvertToolsResult(tools: seq<ToolSchema>): (r: Result<seq<OllamaTool>, ClientError>)
    ensures r.Ok? <==> forall i :: 0 <= i < |tools| ==> AssertValidName(tools[i].name).Ok?
    ensures r.Err? ==> exists k :: FirstBadNameAt(tools, k, r.error)
    ensures r.Ok? ==> |r.value| == |tools| && forall i :: 0 <= i < |tools| ==> r.value[i] == ConvertedTool(tools[i])
  {
    match FirstNameError(tools)
    case Some(e) => Err(e)
    case None => Ok(seq(|tools|, i requires 0 <= i < |tools| => ConvertedTool(tools[i])))
  }

  /** The inner loop of `convert_tools` over one tool's properties. */
  method ConvertProperties(props: seq<(string, PropertySchema)>) returns (r: seq<(string, OllamaProperty)>)
    ensures r == ConvertedProperties(props)
  {
    r := [];
    var i := 0;
    while i < |props|
      invariant 0 <= i <= |props|
      invariant r == ConvertedProperties(props[..i])
    {
      var (name, schema) := props[i];
      var propType := schema.typ;
      if propType.None? && schema.anyOf.Some? {
        propType := FirstNonNullType(schema.anyOf.value);
      }
      var resolved := if propType.None? || propType.value == "" then "string" else propType.value;
      r := r + [(name, OllamaProperty(resolved, schema.description))];
      i := i + 1;
    }
    assert props[..i] == props;
  }

  /** `convert_tools`: convert every tool, then validate every name. */
  method ConvertTools(tools: seq<ToolSchema>) returns (r: Result<seq<OllamaTool>, ClientError>)
    ensures r == ConvertToolsResult(tools)
  {
    var result: seq<OllamaTool> := [];
    var i := 0;
    while i < |tools|
      invariant 0 <= i <= |tools|
      invariant |result| == i
      invariant forall j :: 0 <= j < i ==> result[j] == ConvertedTool(tools[j])
    {
      var tool := tools[i];
      var properties: Option<seq<(string, OllamaProperty)>> := None;
      if tool.parameters.Some? {
        var converted := ConvertProperties(tool.parameters.value.properties);
        properties := Some(converted);
      }
      result := result + [OllamaTool(
        tool.name,
        if tool.description.Some? then tool.description.value else "",
        if tool.parameters.Some? then tool.parameters.value.required else None,
        properties)];
      i := i + 1;
    }
    var k := 0;
    while k < |result|
      invariant 0 <= k <= |result|
      invariant forall j :: 0 <= j < k ==> AssertValidName(tools[j].name).Ok?
    {
      var check := AssertValidName(result[k].name);
      if check.Err? {
        var e := FirstNameError(tools);
        assert e.Some?;
        var k' :| FirstBadNameAt(tools, k', e.value);
        assert k' == k;
        return Err(check.error);
      }
      k := k + 1;
    }
    assert result == seq(|tools|, i requires 0 <= i < |tools| => ConvertedTool(tools[i]));
    return Ok(result);
  }

  // ---------------------------------------------------------------- properties

  /** One output tool per input, in order; names, descriptions and `required` as the source says. */
  lemma ConvertToolsShape(tools: seq<ToolSchema>)
    ensures ConvertToolsResult(tools).Ok? <==> forall i :: 0 <= i < |tools| ==> AssertValidName(tools[i].name).Ok?
    ensures ConvertToolsResult(tools).Ok? ==>
      var out := ConvertToolsResult(tools).value;
      && |out| == |tools|
      && forall i :: 0 <= i < |tools| ==>
        && out[i].name == tools[i].name
        && (tools[i].description.None? ==> out[i].description == "")
        && (tools[i].description.Some? ==> out[i].description == tools[i].description.value)
        && (tools[i].parameters.None? ==> out[i].properties.None? && out[i].required.None?)
        && (tools[i].parameters.Some? ==> out[i].required == tools[i].parameters.value.required)
        && (tools[i].parameters.Some? ==>
              out[i].properties == Some(ConvertedProperties(tools[i].parameters.value.properties)))
  {
  }

  /**
    * Every converted property keeps its name, position and description, and its type is
    * the schema's type as `PropertyType` resolves it.
    */
  lemma ConvertedPropertiesShape(props: seq<(string, PropertySchema)>)
    ensures |ConvertedProperties(props)| == |props|
    ensures forall i :: 0 <= i < |props| ==>
      && ConvertedProperties(props)[i].0 == props[i].0
      && ConvertedProperties(props)[i].1.typ == PropertyType(props[i].1)
      && ConvertedProperties(props)[i].1.typ != ""
      && ConvertedProperties(props)[i].1.description == props[i].1.description
  {
  }

  /** One invalid name fails the whole call, whatever its position. */
  lemma OneBadNameFailsAll(tools: seq<ToolSchema>, k: nat)
    requires k < |tools| && AssertValidName(tools[k].name).Err?
    ensures ConvertToolsResult(tools).Err?
  {
  }

  /** `{"anyOf": [{"type": "null"}, {"type": "integer"}]}` converts to "integer". */
  lemma AnyOfSkipsNull()
    ensures PropertyType(PropertySchema(None, Some([Some("null"), Some("integer")]), None)) == "integer"
  {
    assert [Some("null"), Some("integer")][1..] == [Some("integer")];
  }

  /** An `anyOf` option without a type is chosen, and its missing type becomes "string". */
  lemma AnyOfUntypedOption()
    ensures PropertyType(PropertySchema(None, Some([None, Some("integer")]), None)) == "string"
  {
  }
}
