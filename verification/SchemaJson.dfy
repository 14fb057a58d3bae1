/**
 JSON schemas as the generator and the client see them. Objects are maps, so two
 of them are equal whatever the order of their keys, like Python dicts and the
 sorted bytes that are hashed.
 */
module SchemaJson {
  import opened Common

  /**
   A string. The name of a component ends in the SHA-256 digest of the body it was
   made from, so a pointer to it is modelled by that body.
   */
  datatype Text = Plain(text: string) | Pointer(name: Name)

  datatype Name = SchemaName(body: Json) | DefinitionName(resolved: Json)

  datatype Json = Scalar(id: nat) | Str(text: Text) | Arr(items: seq<Json>) | Obj(fields: map<string, Json>)

  const REF: string := "$ref"

  /** `{"$ref": ...}` and nothing else. */
  predicate OnlyRef(j: Json) {
    j.Obj? && j.fields.Keys == {REF}
  }

  function Link(name: Name): Json {
    Obj(map[REF := Str(Pointer(name))])
  }
}
