/** ParameterSchema, the OpenAPI Schema object of a function's parameters,
    and its model_dump_for_openapi. */
module Schema {

  /** The JSON-like values a dumped schema holds. */
  datatype Json =
    | JStr(s: string)
    | JList(items: seq<Json>)
    | JObject(fields: map<string, Json>)

  /** Python truthiness of a dumped value: empty strings, lists and dicts are false. */
  predicate Falsy(j: Json) {
    match j
    case JStr(s) => s == ""
    case JList(items) => items == []
    case JObject(fields) => fields == map[]
  }

  /** The model's fields; title and type are the literals "Parameters" and "object". */
  datatype ParameterSchema = ParameterSchema(
    properties: map<string, Json>,
    required: seq<string>,
    definitions: map<string, Json>)

  /** The dumped `required` field: the list of required parameter names. */
  function RequiredList(names: seq<string>): (j: Json)
    ensures j.JList? && |j.items| == |names|
    ensures forall i :: 0 <= i < |names| ==> j.items[i] == JStr(names[i])
  {
    JList(seq(|names|, i requires 0 <= i < |names| => JStr(names[i])))
  }

  /** model_dump(mode="python", exclude_none=True): no field is ever None. */
  function ModelDump(s: ParameterSchema): (d: map<string, Json>)
    ensures d.Keys == {"title", "type", "properties", "required", "definitions"}
  {
    map[
      "title" := JStr("Parameters"),
      "type" := JStr("object"),
      "properties" := JObject(s.properties),
      "required" := RequiredList(s.required),
      "definitions" := JObject(s.definitions)]
  }

  /** model_dump_for_openapi: the dump with the "required" key deleted when
      its list is empty, since OpenAPI does not accept an empty list there. */
  method ModelDumpForOpenapi(s: ParameterSchema) returns (result: map<string, Json>)
    ensures "required" in result <==> s.required != []
    ensures result.Keys == if s.required == [] then ModelDump(s).Keys - {"required"} else ModelDump(s).Keys
    ensures forall k :: k in result ==> result[k] == ModelDump(s)[k]
    ensures "required" in result ==> (
      && result["required"].JList?
      && |result["required"].items| == |s.required|
      && forall i :: 0 <= i < |s.required| ==> result["required"].items[i] == JStr(s.required[i]))
  {
    result := ModelDump(s);
    if "required" in result && Falsy(result["required"]) {
      result := result - {"required"};
    }
  }
}
