/** `convertToZodSchema`: turns a tool's JSON-Schema property list into the
    validator shape handed to the MCP server. Only string, number and boolean
    properties are kept; anything else is dropped silently. */
module ZodSchema {
  import opened Wrappers
  import opened Values
  import opened Mcp
  import OrderedMap

  datatype ZodKind = ZString | ZNumber | ZBoolean

  /** A primitive validator with its description and optional default. */
  datatype Validator = Validator(kind: ZodKind, description: string, default: Option<Value>)

  /** The validator kind a declared type maps to, if it is supported. */
  function KindOf(typeName: string): (k: Option<ZodKind>)
    ensures k == Some(ZString) <==> typeName == "string"
    ensures k == Some(ZNumber) <==> typeName == "number"
    ensures k == Some(ZBoolean) <==> typeName == "boolean"
    ensures k.None? <==> typeName !in {"string", "number", "boolean"}
  {
    if typeName == "string" then Some(ZString)
    else if typeName == "number" then Some(ZNumber)
    else if typeName == "boolean" then Some(ZBoolean)
    else None
  }

  /** Whether a default value has the JavaScript type the validator checks. */
  predicate Matches(kind: ZodKind, v: Value) {
    match kind
    case ZString => v.Str?
    case ZNumber => v.Number?
    case ZBoolean => v.Bool?
  }

  /** One property's validator: the description defaults to `""`, and the
      default is attached only when it is present and of the matching type. */
  function Convert(p: PropertySpec): (r: Option<Validator>)
    ensures r.None? <==> KindOf(p.typeName).None?
    ensures r.Some? ==> r.value.kind == KindOf(p.typeName).value
    ensures r.Some? ==> r.value.description == p.description.GetOr("")
    ensures r.Some? ==> (r.value.default.Some? <==> Matches(r.value.kind, p.default))
    ensures r.Some? && r.value.default.Some? ==> r.value.default.value == p.default
  {
    match KindOf(p.typeName)
    case None => None
    case Some(kind) =>
      Some(Validator(kind, p.description.GetOr(""), if Matches(kind, p.default) then Some(p.default) else None))
  }

  /** The conversion, visiting the properties in order and assigning each
      supported one under its key. */
  function ConvertToZodSchema(properties: OrderedMap.Assoc<PropertySpec>): (r: OrderedMap.Assoc<Validator>)
    ensures OrderedMap.UniqueKeys(r)
  {
    if |properties| == 0 then []
    else
      var last := properties[|properties| - 1];
      var acc := ConvertToZodSchema(properties[..|properties| - 1]);
      match Convert(last.1)
      case None => acc
      case Some(v) =>
        OrderedMap.SetUnique(acc, last.0, v);
        OrderedMap.Set(acc, last.0, v)
  }

  /** No key appears in the output that was not a property. */
  lemma {:induction false} ConvertedKeysAreProperties(properties: OrderedMap.Assoc<PropertySpec>, k: string)
    requires k !in OrderedMap.Keys(properties)
    ensures OrderedMap.Get(ConvertToZodSchema(properties), k) == None
  {
    if |properties| > 0 {
      var init := properties[..|properties| - 1];
      var last := properties[|properties| - 1];
      ConvertedKeysAreProperties(init, k);
      assert last.0 == OrderedMap.Keys(properties)[|properties| - 1];
      if Convert(last.1).Some? {
        OrderedMap.SetOther(ConvertToZodSchema(init), last.0, Convert(last.1).value, k);
      }
    }
  }

  /** For properties with distinct keys (as the keys of a JavaScript object
      are), each key is kept exactly when its type is supported, with the
      validator `Convert` builds for it. */
  lemma {:induction false} ConvertedProperty(properties: OrderedMap.Assoc<PropertySpec>, i: int)
    requires OrderedMap.UniqueKeys(properties)
    requires 0 <= i < |properties|
    ensures OrderedMap.Get(ConvertToZodSchema(properties), properties[i].0) == Convert(properties[i].1)
  {
    var n := |properties|;
    var init := properties[..n - 1];
    var last := properties[n - 1];
    var k := properties[i].0;
    var acc := ConvertToZodSchema(init);
    if i == n - 1 {
      ConvertedKeysAreProperties(init, k);
    } else {
      assert init[i] == properties[i];
      ConvertedProperty(init, i);
      assert k != last.0;
      if Convert(last.1).Some? {
        OrderedMap.SetOther(acc, last.0, Convert(last.1).value, k);
      }
    }
  }

  /** A key is in the converted schema iff it names a property of a supported type. */
  lemma ConvertedKeys(properties: OrderedMap.Assoc<PropertySpec>, k: string)
    requires OrderedMap.UniqueKeys(properties)
    ensures k in OrderedMap.Keys(ConvertToZodSchema(properties))
            <==> exists i :: 0 <= i < |properties| && properties[i].0 == k && KindOf(properties[i].1.typeName).Some?
  {
    if k in OrderedMap.Keys(properties) {
      var i :| 0 <= i < |properties| && OrderedMap.Keys(properties)[i] == k;
      ConvertedProperty(properties, i);
      forall j | 0 <= j < |properties| && properties[j].0 == k ensures j == i { }
    } else {
      ConvertedKeysAreProperties(properties, k);
    }
  }
}
