/** The approved JSON Schema subset for skill arguments, and the validation of
    arguments against it (skill_arguments.go). */
module SkillArguments {
  import opened Text
  import opened Decimal

  /** A decoded JSON value; a number is kept as its text. */
  datatype Value =
    | Null
    | Boolean(flag: bool)
    | Number(text: string)
    | Str(chars: string)
    | Array(items: seq<Value>)
    | Object(fields: map<string, Value>)

  datatype Schema = Schema(
    kind: string, properties: Properties, required: seq<string>, items: Items, enum: seq<Value>,
    minLength: Option<int>, maxLength: Option<int>, minItems: Option<int>, maxItems: Option<int>,
    minimum: Option<int>, maximum: Option<int>)

  /** Absent properties differ from an empty declaration. */
  datatype Properties = Undeclared | Declared(of: map<string, Schema>)
  datatype Items = NoItems | Each(schema: Schema)

  const KINDS := {"object", "string", "boolean", "integer", "array"}

  predicate HasProperties(s: Schema) { s.properties.Declared? && s.properties.of != map[] }

  /** What the shape check accepts: an array has items of an accepted shape, an
      object's properties have accepted shapes, and a scalar has neither. The
      properties of an array and the items of an object are not looked at. */
  ghost predicate ShapeOk(s: Schema) {
    && s.kind in KINDS
    && (s.kind == "array" ==> s.items.Each? && ShapeOk(s.items.schema))
    && (s.kind == "object" && s.properties.Declared? ==>
          forall name | name in s.properties.of :: ShapeOk(s.properties.of[name]))
    && (s.kind != "array" && s.kind != "object" ==> s.items.NoItems? && !HasProperties(s))
  }

  predicate AtLeast(n: int, bound: Option<int>) { bound.Some? ==> bound.value <= n }
  predicate AtMost(n: int, bound: Option<int>) { bound.Some? ==> n <= bound.value }
  predicate Listed(enum: seq<Value>, v: Value) { enum == [] || v in enum }

  /** What a schema of an accepted shape means. A nested object without declared
      properties takes any object, and then requires no field. */
  ghost predicate Conforms(s: Schema, v: Value)
    requires ShapeOk(s)
    decreases v, 1
  {
    Listed(s.enum, v) &&
    match s.kind
    case "object" => v.Object? && (s.properties.Declared? ==> FieldsConform(s, v))
    case "string" => v.Str? && AtLeast(|v.chars|, s.minLength) && AtMost(|v.chars|, s.maxLength)
    case "boolean" => v.Boolean?
    case "integer" =>
      v.Number? && Atoi(v.text).Some? && AtLeast(Atoi(v.text).value, s.minimum) && AtMost(Atoi(v.text).value, s.maximum)
    case _ =>
      v.Array? && AtLeast(|v.items|, s.minItems) && AtMost(|v.items|, s.maxItems)
      && forall i | 0 <= i < |v.items| :: Conforms(s.items.schema, v.items[i])
  }

  /* The required fields are there, and every field is declared and conforms. */
  ghost predicate FieldsConform(s: Schema, v: Value)
    requires ShapeOk(s) && s.kind == "object" && s.properties.Declared? && v.Object?
    decreases v, 0
  {
    && (forall name | name in s.required :: name in v.fields)
    && (forall name | name in v.fields :: name in s.properties.of && Conforms(s.properties.of[name], v.fields[name]))
  }

  // ---- the shape check ------------------------------------------------------------

  /* A map is visited in some order: which one does not matter. */
  method ValidateShape(s: Schema) returns (ok: bool)
    ensures ok <==> ShapeOk(s)
    decreases s
  {
    if s.kind !in KINDS {
      return false;
    }
    match s.kind
    case "array" =>
      if s.items.NoItems? {
        return false;
      }
      ok := ValidateShape(s.items.schema);
    case "object" =>
      if s.properties.Undeclared? {
        return true;
      }
      var rest := s.properties.of.Keys;
      while rest != {}
        invariant rest <= s.properties.of.Keys
        invariant forall name | name in s.properties.of && name !in rest :: ShapeOk(s.properties.of[name])
        decreases |rest|
      {
        var name :| name in rest;
        ok := ValidateShape(s.properties.of[name]);
        if !ok {
          return false;
        }
        rest := rest - {name};
      }
      ok := true;
    case _ =>
      ok := s.items.NoItems? && !HasProperties(s);
  }

  datatype Parsed = NoSchema | Parsed(schema: Schema) | Invalid

  /* parseSkillArgumentsSchema, once the JSON is decoded: an untyped root is an
     object; nothing else has a default. */
  method ParseSchema(raw: Option<Schema>) returns (r: Parsed)
    ensures r.NoSchema? <==> raw.None?
    ensures raw.Some? ==>
      var root := if raw.value.kind == "" then raw.value.(kind := "object") else raw.value;
      r == if root.kind == "object" && ShapeOk(root) then Parsed(root) else Invalid
  {
    if raw.None? {
      return NoSchema;
    }
    var root := raw.value;
    if root.kind == "" {
      root := root.(kind := "object");
    }
    if root.kind != "object" {
      return Invalid;
    }
    var ok := ValidateShape(root);
    return if ok then Parsed(root) else Invalid;
  }

  // ---- the validators ----------------------------------------------------------------

  method ValidateValue(s: Schema, v: Value) returns (ok: bool)
    requires ShapeOk(s)
    ensures ok <==> Conforms(s, v)
    decreases v, 1
  {
    match s.kind {
      case "object" =>
        if !v.Object? {
          return false;
        }
        if s.properties.Declared? {
          var fieldsOk := ValidateFields(s.properties.of, s.required, v);
          if !fieldsOk {
            return false;
          }
        }
      case "string" =>
        if !v.Str? || !AtLeast(|v.chars|, s.minLength) || !AtMost(|v.chars|, s.maxLength) {
          return false;
        }
      case "boolean" =>
        if !v.Boolean? {
          return false;
        }
      case "integer" =>
        if !v.Number? || Atoi(v.text).None? {
          return false;
        }
        if !AtLeast(Atoi(v.text).value, s.minimum) || !AtMost(Atoi(v.text).value, s.maximum) {
          return false;
        }
      case _ =>
        if !v.Array? || !AtLeast(|v.items|, s.minItems) || !AtMost(|v.items|, s.maxItems) {
          return false;
        }
        for i := 0 to |v.items|
          invariant forall k | 0 <= k < i :: Conforms(s.items.schema, v.items[k])
        {
          var itemOk := ValidateValue(s.items.schema, v.items[i]);
          if !itemOk {
            return false;
          }
        }
    }
    ok := ValidateEnum(s.enum, v);
  }

  /* validateSkillArgumentObject; absent properties declare nothing. */
  method ValidateFields(properties: map<string, Schema>, required: seq<string>, v: Value) returns (ok: bool)
    requires v.Object? && forall name | name in properties :: ShapeOk(properties[name])
    ensures ok <==>
      && (forall name | name in required :: name in v.fields)
      && (forall name | name in v.fields :: name in properties && Conforms(properties[name], v.fields[name]))
    decreases v, 0
  {
    for i := 0 to |required|
      invariant forall k | 0 <= k < i :: required[k] in v.fields
    {
      if required[i] !in v.fields {
        return false;
      }
    }
    var rest := v.fields.Keys;
    while rest != {}
      invariant rest <= v.fields.Keys
      invariant forall name | name in v.fields && name !in rest :: name in properties && Conforms(properties[name], v.fields[name])
      decreases |rest|
    {
      var name :| name in rest;
      if name !in properties {
        return false;
      }
      var fieldOk := ValidateValue(properties[name], v.fields[name]);
      if !fieldOk {
        return false;
      }
      rest := rest - {name};
    }
    return true;
  }

  method ValidateEnum(enum: seq<Value>, v: Value) returns (ok: bool)
    ensures ok == Listed(enum, v)
  {
    if |enum| == 0 {
      return true;
    }
    for i := 0 to |enum|
      invariant v !in enum[..i]
    {
      if enum[i] == v {
        return true;
      }
    }
    return false;
  }

  /** What a package accepts: without a schema only the empty object; with one,
      the root's fields, whatever the root's enum says. */
  ghost predicate Accepts(schema: Parsed, v: Value)
    requires v.Object? && !schema.Invalid? && (schema.Parsed? ==> ShapeOk(schema.schema) && schema.schema.kind == "object")
  {
    if schema.NoSchema? then v.fields == map[]
    else FieldsConform(DeclaredRoot(schema.schema), v)
  }

  /* At the root, absent properties are none. */
  ghost function DeclaredRoot(s: Schema): (r: Schema)
    ensures ShapeOk(s) && s.kind == "object" ==> ShapeOk(r) && r.kind == "object" && r.properties.Declared?
  {
    if s.properties.Declared? then s else s.(properties := Declared(map[]))
  }

  method ValidateArguments(schema: Parsed, v: Value) returns (ok: bool)
    requires v.Object? && !schema.Invalid? && (schema.Parsed? ==> ShapeOk(schema.schema) && schema.schema.kind == "object")
    ensures ok <==> Accepts(schema, v)
  {
    if schema.NoSchema? {
      return v.fields == map[];
    }
    var s := schema.schema;
    ok := ValidateFields(if s.properties.Declared? then s.properties.of else map[], s.required, v);
  }

  // ---- what acceptance means -----------------------------------------------------------

  lemma RootAccepts(s: Schema, v: Value)
    requires ShapeOk(s) && s.kind == "object" && v.Object?
    ensures s.properties.Declared? && Listed(s.enum, v) ==> (Accepts(Parsed(s), v) <==> Conforms(s, v))
    ensures s.properties.Undeclared? ==> (Accepts(Parsed(s), v) <==> v.fields == map[] && s.required == [])
  {
    if s.properties.Undeclared? {
      assert s.required != [] ==> s.required[0] in s.required;
    }
  }

  /** A nested object whose properties are absent takes any object, even one
      that lacks the fields it requires. */
  lemma UndeclaredRequiresNothing(s: Schema, v: Value)
    requires ShapeOk(s) && s.kind == "object" && s.properties.Undeclared? && s.enum == []
    ensures Conforms(s, v) <==> v.Object?
  {}

  /** Accepted fields only: leaving out a field that is not required keeps an
      object accepted, and adding an undeclared one never does. */
  lemma FieldsAreClosed(s: Schema, fields: map<string, Value>, name: string, v: Value)
    requires ShapeOk(s) && s.kind == "object" && s.properties.Declared? && FieldsConform(s, Object(fields))
    ensures name !in s.required ==> FieldsConform(s, Object(fields - {name}))
    ensures name !in s.properties.of ==> !FieldsConform(s, Object(fields[name := v]))
  {
    if name !in s.properties.of {
      assert name in fields[name := v];
    }
  }
}
