/** Decoded JSON, as far as schemas and extraction results need it. */
module Json {

  datatype Option<+T> = None | Some(value: T)

  datatype Value =
    | Null
    | Bool(b: bool)
    | Num(n: int)
    | Str(s: string)
    | Arr(items: seq<Value>)
    | Obj(fields: Fields)

  type Fields = map<string, Value>

  /** A schema that does not decode to an object counts as one without fields. */
  function Definition(schema: Option<Value>): Fields {
    match schema
    case Some(Obj(fields)) => fields
    case _ => map[]
  }

  function Properties(schema: Option<Value>): Fields {
    var def := Definition(schema);
    if "properties" in def && def["properties"].Obj? then def["properties"].fields else map[]
  }

  /** The declared type of a property, if it has one. */
  function TypeOf(prop: Value): string {
    if prop.Obj? && "type" in prop.fields && prop.fields["type"].Str? then prop.fields["type"].s else ""
  }

  predicate IsArrayProperty(props: Fields, key: string) {
    key in props && TypeOf(props[key]) == "array"
  }

  // --- The same, on the schema itself ---

  predicate HasProperties(schema: Option<Value>) {
    && schema.Some? && schema.value.Obj?
    && "properties" in schema.value.fields && schema.value.fields["properties"].Obj?
  }

  predicate IsDeclared(schema: Option<Value>, key: string) {
    HasProperties(schema) && key in schema.value.fields["properties"].fields
  }

  predicate IsDeclaredAs(schema: Option<Value>, key: string, kind: string) {
    && IsDeclared(schema, key)
    && var prop := schema.value.fields["properties"].fields[key];
       prop.Obj? && "type" in prop.fields && prop.fields["type"] == Str(kind)
  }

  predicate IsRequired(schema: Option<Value>, key: string) {
    && schema.Some? && schema.value.Obj?
    && "required" in schema.value.fields && schema.value.fields["required"].Arr?
    && Str(key) in schema.value.fields["required"].items
  }

  lemma {:induction false} DeclaredExactly(schema: Option<Value>, key: string, kind: string)
    requires kind != ""
    ensures key in Properties(schema) <==> IsDeclared(schema, key)
    ensures HasProperties(schema) ==> Properties(schema) == schema.value.fields["properties"].fields
    ensures !HasProperties(schema) ==> Properties(schema) == map[]
    ensures key in Properties(schema) && TypeOf(Properties(schema)[key]) == kind <==> IsDeclaredAs(schema, key, kind)
  {
  }
}
