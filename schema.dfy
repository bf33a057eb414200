/**
 * OpenAPI schema access and input type coercion (internal/util/schema.go): picking
 * the Input and Output components, ordering properties by `x-order`, and turning
 * command-line strings into values of the declared property types.
 */
module Schema {
  import opened Wrappers
  import opened StrConv
  import opened Json

  /** The value of a schema extension, as the OpenAPI loader decodes it. */
  datatype Extension = XNumber(n: real) | XString(s: string) | XBool(b: bool) | XOther

  /**
   * The parts of an OpenAPI schema the client reads: its type, the item schema of an
   * array (absent when not given), its properties and its extensions. A schema with
   * no extensions has an empty extension map.
   */
  datatype Schema = Schema(
    typ: string,
    items: Option<Schema>,
    properties: map<string, Schema>,
    extensions: map<string, Extension>)

  datatype SchemaError = FailedToSerialize(reason: string) | FailedToParse(reason: string)

  /**
   * `GetSchemas`: the `Input` and `Output` components of the document the loader
   * builds from the serialised OpenAPI value. Serialising and loading are given as
   * their results; a missing component is None, not an error.
   */
  function GetSchemas(
    serialized: Result<string, string>,
    load: string -> Result<map<string, Schema>, string>): (r: Result<(Option<Schema>, Option<Schema>), SchemaError>)
    ensures serialized.Err? ==> r == Err(FailedToSerialize(serialized.error))
    ensures serialized.Ok? && load(serialized.value).Err? ==> r == Err(FailedToParse(load(serialized.value).error))
    ensures serialized.Ok? && load(serialized.value).Ok? ==> r.Ok?
    ensures r.Ok? ==>
      var components := load(serialized.value).value;
      (r.value.0.Some? <==> "Input" in components) && (r.value.1.Some? <==> "Output" in components)
      && ("Input" in components ==> r.value.0.value == components["Input"])
      && ("Output" in components ==> r.value.1.value == components["Output"])
  {
    match serialized
    case Err(reason) => Err(FailedToSerialize(reason))
    case Ok(bytes) =>
      match load(bytes)
      case Err(reason) => Err(FailedToParse(reason))
      case Ok(components) =>
        Ok((if "Input" in components then Some(components["Input"]) else None,
            if "Output" in components then Some(components["Output"]) else None))
  }

  /** `float64(1<<63 - 1)`, which rounds to 2^63: the place of a property without `x-order`. */
  const End: real := 9223372036854775808.0

  /** `xorder`: the numeric `x-order` extension of a property, or `End`. */
  function XOrder(prop: Schema): (r: real)
    ensures "x-order" in prop.extensions && prop.extensions["x-order"].XNumber? ==> r == prop.extensions["x-order"].n
    ensures !("x-order" in prop.extensions && prop.extensions["x-order"].XNumber?) ==> r == End
  {
    if "x-order" in prop.extensions then
      match prop.extensions["x-order"]
      case XNumber(n) => n
      case _ => End
    else End
  }

  predicate Distinct(keys: seq<string>)
  {
    forall i, j :: 0 <= i < j < |keys| ==> keys[i] != keys[j]
  }

  /** Every key is a property and the keys come in non-decreasing `x-order`. */
  predicate OrderedBy(keys: seq<string>, properties: map<string, Schema>)
  {
    (forall i :: 0 <= i < |keys| ==> keys[i] in properties)
    && forall i, j :: 0 <= i < j < |keys| ==> XOrder(properties[keys[i]]) <= XOrder(properties[keys[j]])
  }

  /**
   * `SortedKeys`: every property name exactly once, in non-decreasing `x-order`. The
   * names are first collected in an arbitrary order (Go's map iteration) and then
   * sorted; among equal `x-order` values the order is not specified.
   */
  method SortedKeys(properties: map<string, Schema>) returns (keys: seq<string>)
    ensures forall k :: k in keys <==> k in properties
    ensures Distinct(keys)
    ensures |keys| == |properties|
    ensures OrderedBy(keys, properties)
  {
    var collected := CollectKeys(properties);
    keys := [];
    var i := 0;
    while i < |collected|
      invariant 0 <= i <= |collected|
      invariant |keys| == i
      invariant forall k :: k in keys <==> k in collected[..i]
      invariant Distinct(keys)
      invariant OrderedBy(keys, properties)
    {
      var k := collected[i];
      var p := InsertionPoint(keys, k, properties);
      assert k !in keys by {
        assert forall j :: 0 <= j < i ==> collected[j] != k;
      }
      InsertKeepsOrder(keys, p, k, properties);
      keys := keys[..p] + [k] + keys[p..];
      assert collected[..i + 1] == collected[..i] + [k];
      i := i + 1;
    }
    assert collected[..i] == collected;
  }

  /** The property names in some order (Go's map iteration order), each once. */
  method CollectKeys(properties: map<string, Schema>) returns (collected: seq<string>)
    ensures forall k :: k in collected <==> k in properties
    ensures Distinct(collected)
    ensures |collected| == |properties|
  {
    var rest := properties.Keys;
    collected := [];
    while rest != {}
      invariant rest <= properties.Keys
      invariant forall k :: k in collected <==> k in properties && k !in rest
      invariant Distinct(collected)
      invariant |collected| + |rest| == |properties|
      decreases |rest|
    {
      var k :| k in rest;
      collected := collected + [k];
      rest := rest - {k};
    }
  }

  /** The first position whose key ranks above `k`, or the end. */
  method InsertionPoint(keys: seq<string>, k: string, properties: map<string, Schema>) returns (p: nat)
    requires k in properties && forall j :: 0 <= j < |keys| ==> keys[j] in properties
    ensures p <= |keys|
    ensures forall j :: 0 <= j < p ==> XOrder(properties[keys[j]]) <= XOrder(properties[k])
    ensures p < |keys| ==> XOrder(properties[keys[p]]) > XOrder(properties[k])
  {
    p := 0;
    while p < |keys| && XOrder(properties[keys[p]]) <= XOrder(properties[k])
      invariant 0 <= p <= |keys|
      invariant forall j :: 0 <= j < p ==> XOrder(properties[keys[j]]) <= XOrder(properties[k])
    {
      p := p + 1;
    }
  }

  /** Inserting a key where the scan stopped keeps the keys ordered and distinct. */
  lemma InsertKeepsOrder(keys: seq<string>, p: nat, k: string, properties: map<string, Schema>)
    requires OrderedBy(keys, properties) && Distinct(keys)
    requires k in properties && k !in keys && p <= |keys|
    requires forall j :: 0 <= j < p ==> XOrder(properties[keys[j]]) <= XOrder(properties[k])
    requires p < |keys| ==> XOrder(properties[keys[p]]) > XOrder(properties[k])
    ensures OrderedBy(keys[..p] + [k] + keys[p..], properties)
    ensures Distinct(keys[..p] + [k] + keys[p..])
  {
    var ks := keys[..p] + [k] + keys[p..];
    forall j | 0 <= j < |ks|
      ensures ks[j] == (if j < p then keys[j] else if j == p then k else keys[j - 1])
    {
    }
    forall a, b | 0 <= a < b < |ks|
      ensures XOrder(properties[ks[a]]) <= XOrder(properties[ks[b]])
    {
      if a == p {
        assert XOrder(properties[keys[p]]) <= XOrder(properties[keys[b - 1]]) || p == b - 1;
      }
    }
    InsertKeepsDistinct(keys, p, k);
  }

  /** Inserting a new key anywhere keeps the keys distinct. */
  lemma InsertKeepsDistinct(keys: seq<string>, p: nat, k: string)
    requires Distinct(keys) && k !in keys && p <= |keys|
    ensures Distinct(keys[..p] + [k] + keys[p..])
  {
    var ks := keys[..p] + [k] + keys[p..];
    forall j | 0 <= j < |ks|
      ensures ks[j] == (if j < p then keys[j] else if j == p then k else keys[j - 1])
    {
    }
  }

  /** A property with a numeric `x-order` below the sentinel comes before one without. */
  lemma ExplicitOrderFirst(keys: seq<string>, properties: map<string, Schema>, i: nat, j: nat)
    requires OrderedBy(keys, properties)
    requires i < |keys| && j < |keys|
    requires XOrder(properties[keys[i]]) < End
    requires "x-order" !in properties[keys[j]].extensions
    ensures i < j
  {
  }

  /** A coerced input value. */
  datatype Value =
    | VInt(i: int)
    | VFloat(f: Float)
    | VBool(b: bool)
    | VString(s: string)
    | VArray(elements: seq<Value>)

  /** Why `coerceType` failed. `MissingItems` stands for the nil dereference of `schema.Items`. */
  datatype CoerceError =
    | ConversionFailed(numError: NumError)
    | NotAnArray(input: string)
    | ItemFailed(item: string, cause: CoerceError)
    | UnknownType(typ: string)
    | MissingItems

  /**
   * What `json.Unmarshal` into `[]string` yields from a decoded document: `null`
   * gives no elements, an array of strings and nulls its strings (a `null` element
   * leaves the empty string in its place), anything else is an error.
   */
  function StringArray(j: Json): (r: Option<seq<string>>)
    ensures j.Null? ==> r == Some([])
    ensures j.Array? && StringsOrNulls(j.items) ==>
      r.Some? && |r.value| == |j.items|
      && forall i :: 0 <= i < |j.items| ==> r.value[i] == (if j.items[i].Str? then j.items[i].s else "")
    ensures !j.Null? && !(j.Array? && StringsOrNulls(j.items)) ==> r.None?
  {
    match j
    case Null => Some([])
    case Array(items) =>
      if StringsOrNulls(items) then
        Some(seq(|items|, i requires 0 <= i < |items| => if items[i].Str? then items[i].s else ""))
      else None
    case _ => None
  }

  /** Every element decodes into a Go string: a JSON string, or `null`. */
  predicate StringsOrNulls(items: seq<Json>)
  {
    forall i :: 0 <= i < |items| ==> items[i].Str? || items[i].Null?
  }

  /** Lifts a number conversion into coercion: its value wrapped, or its error. */
  function Convert<T>(r: Result<T, NumError>, wrap: T -> Value): Result<Value, CoerceError>
  {
    match r
    case Ok(v) => Ok(wrap(v))
    case Err(e) => Err(ConversionFailed(e))
  }

  /**
   * `coerceType`: the input converted to the schema's type. `decode` is JSON
   * decoding, with None for text that is not JSON.
   */
  function Coerce(input: string, schema: Schema, decode: string -> Option<Json>): (r: Result<Value, CoerceError>)
    ensures r.Ok? ==> schema.typ in {"integer", "number", "boolean", "string", "array"}
    ensures r.Ok? && schema.typ == "array" ==> r.value.VArray?
    ensures r.Err? && schema.typ == "array" && (decode(input).None? || StringArray(decode(input).value).None?) ==>
      r == Err(NotAnArray(input))
    decreases schema, 1, 0
  {
    match schema.typ
    case "integer" => Convert(Atoi(input), (n: int) => VInt(n))
    case "number" => Convert(ParseFloat(input), (f: Float) => VFloat(f))
    case "boolean" => Convert(ParseBool(input), (b: bool) => VBool(b))
    case "string" => Ok(VString(input))
    case "array" =>
      var strings := if decode(input).Some? then StringArray(decode(input).value) else None;
      if strings.None? then Err(NotAnArray(input))
      else
        (match CoerceItems(strings.value, schema, decode)
         case Ok(vs) => Ok(VArray(vs))
         case Err(e) => Err(e))
    case _ => Err(UnknownType(schema.typ))
  }

  /** The elements of an array coerced one by one against the item schema of `parent`. */
  function CoerceItems(elements: seq<string>, parent: Schema, decode: string -> Option<Json>): Result<seq<Value>, CoerceError>
    decreases parent, 0, |elements|
  {
    if elements == [] then Ok([])
    else if parent.items.None? then Err(MissingItems)
    else
      match Coerce(elements[0], parent.items.value, decode)
      case Err(e) => Err(ItemFailed(elements[0], e))
      case Ok(v) =>
        match CoerceItems(elements[1..], parent, decode)
        case Err(e) => Err(e)
        case Ok(vs) => Ok([v] + vs)
  }

  /** A value of the kind a schema declares, all the way down its arrays. */
  predicate Conforms(v: Value, schema: Schema)
    decreases schema
  {
    match schema.typ
    case "integer" => v.VInt? && MinInt64 <= v.i <= MaxInt64
    case "number" => v.VFloat?
    case "boolean" => v.VBool?
    case "string" => v.VString?
    case "array" =>
      v.VArray? && (v.elements == [] || (schema.items.Some? &&
        forall i :: 0 <= i < |v.elements| ==> Conforms(v.elements[i], schema.items.value)))
    case _ => false
  }

  /** Every element coerces, in order, exactly when the whole array does. */
  lemma {:induction false} CoerceItemsOk(elements: seq<string>, parent: Schema, decode: string -> Option<Json>)
    ensures CoerceItems(elements, parent, decode).Ok? <==>
      elements == [] || (parent.items.Some? && forall i :: 0 <= i < |elements| ==> Coerce(elements[i], parent.items.value, decode).Ok?)
    ensures CoerceItems(elements, parent, decode).Ok? ==>
      var vs := CoerceItems(elements, parent, decode).value;
      |vs| == |elements| && forall i :: 0 <= i < |elements| ==> vs[i] == Coerce(elements[i], parent.items.value, decode).value
    decreases |elements|
  {
    if elements != [] && parent.items.Some? {
      CoerceItemsOk(elements[1..], parent, decode);
      assert forall i :: 1 <= i < |elements| ==> elements[i] == elements[1..][i - 1];
    }
  }

  /** A failing array reports the first element that fails, with that element's own error. */
  lemma {:induction false} CoerceItemsFirstFailure(elements: seq<string>, parent: Schema, decode: string -> Option<Json>)
    requires elements != [] && parent.items.Some?
    requires CoerceItems(elements, parent, decode).Err?
    ensures exists j :: (0 <= j < |elements|
      && (forall i :: 0 <= i < j ==> Coerce(elements[i], parent.items.value, decode).Ok?)
      && Coerce(elements[j], parent.items.value, decode).Err?
      && CoerceItems(elements, parent, decode).error == ItemFailed(elements[j], Coerce(elements[j], parent.items.value, decode).error))
    decreases |elements|
  {
    var item := parent.items.value;
    if Coerce(elements[0], item, decode).Ok? {
      var rest := elements[1..];
      assert rest != [] by { CoerceItemsOk(rest, parent, decode); }
      CoerceItemsFirstFailure(rest, parent, decode);
      var j :| 0 <= j < |rest|
        && (forall i :: 0 <= i < j ==> Coerce(rest[i], item, decode).Ok?)
        && Coerce(rest[j], item, decode).Err?
        && CoerceItems(rest, parent, decode).error == ItemFailed(rest[j], Coerce(rest[j], item, decode).error);
      assert forall i :: 0 <= i < j + 1 ==> Coerce(elements[i], item, decode).Ok? by {
        forall i | 0 <= i < j + 1
          ensures Coerce(elements[i], item, decode).Ok?
        {
          if i > 0 {
            assert elements[i] == rest[i - 1];
          }
        }
      }
      assert elements[j + 1] == rest[j];
    }
  }

  /** A successful coercion yields a value of the declared kind. */
  lemma {:induction false} CoercedConforms(input: string, schema: Schema, decode: string -> Option<Json>)
    requires Coerce(input, schema, decode).Ok?
    ensures Conforms(Coerce(input, schema, decode).value, schema)
    decreases schema
  {
    if schema.typ == "array" {
      var strings := StringArray(decode(input).value).value;
      CoerceItemsOk(strings, schema, decode);
      if strings != [] {
        var vs := CoerceItems(strings, schema, decode).value;
        forall i | 0 <= i < |vs|
          ensures Conforms(vs[i], schema.items.value)
        {
          CoercedConforms(strings[i], schema.items.value, decode);
        }
      }
    }
  }

  /** The string type keeps the input as it is, including "" and " ". */
  lemma StringsUnchanged(input: string, schema: Schema, decode: string -> Option<Json>)
    requires schema.typ == "string"
    ensures Coerce(input, schema, decode) == Ok(VString(input))
  {
  }

  /** Any type other than the five handled ones is an error naming the type. */
  lemma UnknownTypeFails(input: string, schema: Schema, decode: string -> Option<Json>)
    requires schema.typ !in {"integer", "number", "boolean", "string", "array"}
    ensures Coerce(input, schema, decode) == Err(UnknownType(schema.typ))
  {
  }

  /**
   * `coerceType` as the source runs it: the array branch appends each coerced element
   * in a loop and stops at the first failure.
   */
  method CoerceType(input: string, schema: Schema, decode: string -> Option<Json>) returns (r: Result<Value, CoerceError>)
    ensures r == Coerce(input, schema, decode)
    decreases schema
  {
    match schema.typ {
      case "integer" => r := Convert(Atoi(input), (n: int) => VInt(n));
      case "number" => r := Convert(ParseFloat(input), (f: Float) => VFloat(f));
      case "boolean" => r := Convert(ParseBool(input), (b: bool) => VBool(b));
      case "string" => r := Ok(VString(input));
      case "array" =>
        var decoded := decode(input);
        if decoded.None? || StringArray(decoded.value).None? {
          return Err(NotAnArray(input));
        }
        var elements := StringArray(decoded.value).value;
        var coerced: seq<Value> := [];
        var i := 0;
        assert elements[i..] == elements;
        PrependNothing(CoerceItems(elements, schema, decode));
        while i < |elements|
          invariant 0 <= i <= |elements|
          invariant CoerceItems(elements, schema, decode) == Prepend(coerced, CoerceItems(elements[i..], schema, decode))
        {
          if schema.items.None? {
            return Err(MissingItems);
          }
          var item := CoerceType(elements[i], schema.items.value, decode);
          if item.Err? {
            return Err(ItemFailed(elements[i], item.error));
          }
          assert elements[i..][1..] == elements[i + 1..];
          PrependOne(coerced, item.value, CoerceItems(elements[i + 1..], schema, decode));
          coerced := coerced + [item.value];
          i := i + 1;
        }
        assert elements[i..] == [];
        assert coerced + [] == coerced;
        assert CoerceItems(elements, schema, decode) == Ok(coerced);
        r := Ok(VArray(coerced));
      case _ => r := Err(UnknownType(schema.typ));
    }
  }

  /** The values already coerced, put in front of the result for the remaining elements. */
  function Prepend(done: seq<Value>, rest: Result<seq<Value>, CoerceError>): Result<seq<Value>, CoerceError>
  {
    match rest
    case Ok(vs) => Ok(done + vs)
    case Err(e) => Err(e)
  }

  lemma PrependNothing(rest: Result<seq<Value>, CoerceError>)
    ensures Prepend([], rest) == rest
  {
    if rest.Ok? {
      assert [] + rest.value == rest.value;
    }
  }

  lemma PrependOne(done: seq<Value>, v: Value, rest: Result<seq<Value>, CoerceError>)
    ensures Prepend(done, Prepend([v], rest)) == Prepend(done + [v], rest)
  {
    if rest.Ok? {
      assert done + ([v] + rest.value) == done + [v] + rest.value;
    }
  }

  /** Why `CoerceTypes` failed. `NilSchema` stands for the nil dereference of `schema`. */
  datatype CoerceTypesError =
    | UnknownProperty(key: string)
    | FailedToCoerce(value: string, typ: string, key: string, cause: CoerceError)
    | NilSchema

  /** Every input names a property of the schema and coerces against it. */
  predicate AllCoerce(inputs: map<string, string>, schema: Schema, decode: string -> Option<Json>)
  {
    forall k :: k in inputs ==> k in schema.properties && Coerce(inputs[k], schema.properties[k], decode).Ok?
  }

  /** Each entry of `coerced` is the coercion of the same input against its property. */
  predicate CoercedFrom(coerced: map<string, Value>, inputs: map<string, string>, schema: Schema,
                        decode: string -> Option<Json>)
  {
    forall k :: k in coerced ==>
      (k in inputs && k in schema.properties
       && Coerce(inputs[k], schema.properties[k], decode).Ok?
       && coerced[k] == Coerce(inputs[k], schema.properties[k], decode).value)
  }

  /**
   * The input `k` explains the error `e`: it is not a property and `e` says so, or its
   * value fails to coerce and `e` carries that failure.
   */
  predicate Blames(inputs: map<string, string>, schema: Schema, decode: string -> Option<Json>,
                   k: string, e: CoerceTypesError)
  {
    k in inputs &&
    ((k !in schema.properties && e == UnknownProperty(k))
     || (k in schema.properties && Coerce(inputs[k], schema.properties[k], decode).Err?
         && e == FailedToCoerce(inputs[k], schema.properties[k].typ, k,
                                Coerce(inputs[k], schema.properties[k], decode).error)))
  }

  /**
   * `CoerceTypes`: each input coerced against its property. Keys are visited in an
   * unspecified order, so when several fail, the error names one of them.
   */
  method CoerceTypes(inputs: map<string, string>, schema: Option<Schema>, decode: string -> Option<Json>)
    returns (r: Result<map<string, Value>, CoerceTypesError>)
    ensures schema.None? ==> (r.Ok? <==> inputs == map[]) && (r.Err? ==> r.error == NilSchema)
    ensures schema.Some? ==> (r.Ok? <==> AllCoerce(inputs, schema.value, decode))
    ensures r.Ok? ==> r.value.Keys == inputs.Keys
    ensures r.Ok? && schema.Some? ==> CoercedFrom(r.value, inputs, schema.value, decode)
    ensures r.Err? && schema.Some? ==> exists k :: Blames(inputs, schema.value, decode, k, r.error)
  {
    var coerced: map<string, Value> := map[];
    var rest := inputs.Keys;
    while rest != {}
      invariant rest <= inputs.Keys
      invariant coerced.Keys == inputs.Keys - rest
      invariant schema.None? ==> rest == inputs.Keys
      invariant schema.Some? ==> CoercedFrom(coerced, inputs, schema.value, decode)
      decreases |rest|
    {
      var k :| k in rest;
      if schema.None? {
        return Err(NilSchema);
      }
      var properties := schema.value.properties;
      if k !in properties {
        assert Blames(inputs, schema.value, decode, k, UnknownProperty(k));
        return Err(UnknownProperty(k));
      }
      var value := CoerceType(inputs[k], properties[k], decode);
      if value.Err? {
        var e := FailedToCoerce(inputs[k], properties[k].typ, k, value.error);
        assert Blames(inputs, schema.value, decode, k, e);
        return Err(e);
      }
      coerced := coerced[k := value.value];
      rest := rest - {k};
    }
    if schema.Some? {
      assert AllCoerce(inputs, schema.value, decode) by {
        forall k | k in inputs
          ensures k in schema.value.properties && Coerce(inputs[k], schema.value.properties[k], decode).Ok?
        {
          assert k in coerced;
        }
      }
    }
    return Ok(coerced);
  }
}
