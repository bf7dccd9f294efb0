/** Parameter schemas of command templates, and the parameters they accept. */
module Schemas {
  import opened Tunnel

  /** A decoded JSON value. */
  datatype Json =
    | Null
    | Bool(value: bool)
    | Num(number: real)
    | Str(text: string)
    | Arr(items: seq<Json>)
    | Obj(fields: map<string, Json>)

  type Fields = map<string, Json>

  function Get(fields: Fields, key: string): Json {
    if key in fields then fields[key] else Null
  }

  /** The declared properties; none when the entry is no object. */
  function Properties(schema: Fields): Fields {
    if Get(schema, "properties").Obj? then schema["properties"].fields else map[]
  }

  predicate KnownType(t: Json) {
    t == Str("string") || t == Str("boolean") || t == Str("integer") || t == Str("number")
  }

  predicate ValidProperty(prop: Json) {
    prop.Obj? && KnownType(Get(prop.fields, "type"))
  }

  predicate ValidSchema(schema: Fields) {
    && Get(schema, "type") == Str("object")
    && forall name :: name in Properties(schema) ==> ValidProperty(Properties(schema)[name])
  }

  datatype Verdict = Accepted | BadSchema | BadParams

  method ValidateSchema(schema: Fields) returns (ok: bool)
    ensures ok <==> ValidSchema(schema)
  {
    if |schema| == 0 {
      return false;
    }
    if Get(schema, "type") != Str("object") {
      return false;
    }
    var props := Properties(schema);
    var todo := props.Keys;
    while todo != {}
      invariant todo <= props.Keys
      invariant forall name :: name in props && name !in todo ==> ValidProperty(props[name])
      decreases todo
    {
      var name :| name in todo;
      todo := todo - {name};
      if !props[name].Obj? {
        return false;
      }
      var t := Get(props[name].fields, "type");
      if !(t == Str("string") || t == Str("boolean") || t == Str("integer") || t == Str("number")) {
        return false;
      }
    }
    ok := true;
  }

  /** A number that an int64 holds exactly. */
  predicate IsInteger(v: Json) {
    v.Num? && -0x8000_0000_0000_0000 as real <= v.number < 0x8000_0000_0000_0000 as real
      && v.number == v.number.Floor as real
  }

  /** `v` is of the type that the property `prop` declares. */
  predicate Typed(prop: Fields, v: Json) {
    match Get(prop, "type")
    case Str(t) =>
      if t == "string" then v.Str?
      else if t == "boolean" then v.Bool?
      else if t == "integer" then IsInteger(v)
      else if t == "number" then v.Num?
      else true
    case _ => true
  }

  predicate Required(schema: Fields, name: string) {
    Get(schema, "required").Arr? && Str(name) in schema["required"].items
  }

  predicate AdditionalAllowed(schema: Fields) {
    Get(schema, "additionalProperties") != Bool(false)
  }

  /** The parameters that a valid schema accepts. */
  ghost predicate Conforms(schema: Fields, params: Fields)
    requires ValidSchema(schema)
  {
    && (forall name :: Required(schema, name) ==> name in params)
    && (forall key :: key in params ==>
          if key in Properties(schema)
            then Typed(Properties(schema)[key].fields, params[key]) else AdditionalAllowed(schema))
  }

  /** The names that the schema requires; entries that are no strings do not count. */
  method RequiredNames(schema: Fields) returns (required: set<string>)
    ensures forall name :: name in required <==> Required(schema, name)
  {
    required := {};
    if !Get(schema, "required").Arr? {
      return;
    }
    var raw := schema["required"].items;
    for k := 0 to |raw|
      invariant forall name :: name in required <==> Str(name) in raw[..k]
    {
      assert raw[..k + 1] == raw[..k] + [raw[k]];
      if raw[k].Str? {
        required := required + {raw[k].text};
      }
    }
    assert raw[..|raw|] == raw;
  }

  /** A bad schema is reported as such, and otherwise exactly the conforming
      parameters are accepted. The destructor on a property that the schema
      declares always applies. */
  method ValidateParams(schema: Fields, params: Fields) returns (verdict: Verdict)
    ensures verdict == BadSchema <==> !ValidSchema(schema)
    ensures ValidSchema(schema) ==> (verdict == Accepted <==> Conforms(schema, params))
  {
    var valid := ValidateSchema(schema);
    if !valid {
      return BadSchema;
    }
    var props := Properties(schema);
    var required := RequiredNames(schema);
    var missing := required - params.Keys;
    if missing != {} {
      var name :| name in missing;
      assert Required(schema, name);
      return BadParams;
    }
    var todo := params.Keys;
    while todo != {}
      invariant todo <= params.Keys
      invariant forall key :: key in params && key !in todo ==>
        if key in props then Typed(props[key].fields, params[key]) else AdditionalAllowed(schema)
      decreases todo
    {
      var key :| key in todo;
      todo := todo - {key};
      if key !in props {
        if Get(schema, "additionalProperties") == Bool(false) {
          return BadParams;
        }
        continue;
      }
      var prop := props[key].fields;
      if !Typed(prop, params[key]) {
        return BadParams;
      }
    }
    verdict := Accepted;
  }

  /** A value of the declared type. */
  function Sample(prop: Fields): (v: Json)
    ensures Typed(prop, v)
  {
    match Get(prop, "type")
    case Str(t) => if t == "string" then Str("") else if t == "boolean" then Bool(false) else Num(0.0)
    case _ => Null
  }

  /** A schema that the service accepts can be met by some parameters exactly when
      it does not both close its properties and require a name outside them. */
  lemma SatisfiableIff(schema: Fields)
    requires ValidSchema(schema)
    ensures (exists params :: Conforms(schema, params))
      <==> AdditionalAllowed(schema) || forall name :: Required(schema, name) ==> name in Properties(schema)
  {
    var props := Properties(schema);
    var required := RequiredNamesOf(schema);
    var params := map name | name in required :: if name in props then Sample(props[name].fields) else Null;
    if AdditionalAllowed(schema) || forall name :: Required(schema, name) ==> name in props {
      assert Conforms(schema, params);
    }
  }

  lemma RequiredNamesOf(schema: Fields) returns (names: set<string>)
    ensures forall name :: name in names <==> Required(schema, name)
  {
    if !Get(schema, "required").Arr? { return {}; }
    var items := schema["required"].items;
    names := set i | 0 <= i < |items| && items[i].Str? :: items[i].text;
  }

  /** A schema of one property `key`, which has the type `t`. */
  function OneProperty(key: string, t: string): Fields {
    map["type" := Str("object"), "properties" := Obj(map[key := Obj(map["type" := Str(t)])])]
  }

  /** `v` is the whole number `n`, of 64 bits. */
  predicate IsWhole(v: Json, n: int) {
    -0x8000_0000_0000_0000 <= n < 0x8000_0000_0000_0000 && v == Num(n as real)
  }

  /** Which values each declared type accepts: an integer is a whole number of 64
      bits, and a string, a boolean or a number any of its kind. */
  lemma EachTypeAccepts(key: string, v: Json)
    ensures forall t :: ValidSchema(OneProperty(key, t)) <==> t in {"string", "boolean", "integer", "number"}
    ensures Conforms(OneProperty(key, "string"), map[key := v]) <==> v.Str?
    ensures Conforms(OneProperty(key, "boolean"), map[key := v]) <==> v.Bool?
    ensures Conforms(OneProperty(key, "number"), map[key := v]) <==> v.Num?
    ensures Conforms(OneProperty(key, "integer"), map[key := v])
      <==> exists n: int :: IsWhole(v, n)
  {
    forall t ensures ValidSchema(OneProperty(key, t)) <==> t in {"string", "boolean", "integer", "number"} {
      OnePropertyIs(key, t, v);
    }
    OnePropertyIs(key, "string", v);
    OnePropertyIs(key, "boolean", v);
    OnePropertyIs(key, "number", v);
    OnePropertyIs(key, "integer", v);
    IntegerIsWhole(v);
  }

  lemma IntegerIsWhole(v: Json)
    ensures IsInteger(v) <==> exists n: int :: IsWhole(v, n)
  {
    if IsInteger(v) {
      assert IsWhole(v, v.number.Floor);
    }
  }

  lemma OnePropertyIs(key: string, t: string, v: Json)
    ensures ValidSchema(OneProperty(key, t)) <==> t in {"string", "boolean", "integer", "number"}
    ensures ValidSchema(OneProperty(key, t)) ==>
      (Conforms(OneProperty(key, t), map[key := v]) <==> Typed(map["type" := Str(t)], v))
  {
    var schema := OneProperty(key, t);
    assert Properties(schema) == map[key := Obj(map["type" := Str(t)])];
    assert ValidProperty(Properties(schema)[key]) <==> KnownType(Str(t));
  }

  /** A name in the list of required ones must be there. */
  lemma RequiredIsNeeded(schema: Fields, params: Fields, items: seq<Json>, name: string)
    requires ValidSchema(schema) && "required" in schema && schema["required"] == Arr(items) && Str(name) in items
    requires Conforms(schema, params)
    ensures name in params
  {
    assert Required(schema, name);
  }

  /** A name that is neither declared nor required may be there exactly when the
      schema does not forbid additional properties. */
  lemma AdditionalIffOpen(schema: Fields, params: Fields, key: string, v: Json)
    requires ValidSchema(schema) && Conforms(schema, params) && key !in params && key !in Properties(schema)
    ensures Conforms(schema, params[key := v]) <==>
      !("additionalProperties" in schema && schema["additionalProperties"] == Bool(false))
  {
    assert params[key := v][key] == v;
    if AdditionalAllowed(schema) {
      assert forall name :: Required(schema, name) ==> name in params[key := v];
    }
  }

  /** Nothing else is required: a value for a declared name may be left out when no
      entry of the list is that name. */
  lemma UnlistedIsOptional(schema: Fields, params: Fields, key: string)
    requires ValidSchema(schema) && Conforms(schema, params)
    requires !("required" in schema && schema["required"].Arr? && Str(key) in schema["required"].items)
    ensures Conforms(schema, params - {key})
  {
  }
}
