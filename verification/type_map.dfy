/** `bolt/openapi.py`, line 2: `TYPE_MAP`, the scalar type to OpenAPI type-name table. */
module TypeMap {
  import opened Signature

  const TYPE_MAP: map<Annotation, string> :=
    map[Int := "integer", Str := "string", Bool := "boolean", Float := "number"]

  /** `TYPE_MAP.get(type_cls, "string")`, the lookup the generator makes (bolt/app.py, lines 107 and 117). */
  function OpenApiType(t: Annotation): (r: string)
    ensures t == Int ==> r == "integer"
    ensures t == Bool ==> r == "boolean"
    ensures t == Float ==> r == "number"
    ensures t != Int && t != Bool && t != Float ==> r == "string"
  {
    if t in TYPE_MAP then TYPE_MAP[t] else "string"
  }

  /** The table has exactly the four scalar types as keys. */
  lemma TypeMapKeys()
    ensures TYPE_MAP.Keys == {Int, Str, Bool, Float}
    ensures forall t :: t in TYPE_MAP <==> IsScalar(t)
  {
  }
}
