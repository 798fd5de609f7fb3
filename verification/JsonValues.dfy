/** JSON values; objects keep their keys in insertion order. */
module JsonValues {
  import opened Basics

  datatype Json =
    | Null
    | Bool(flag: bool)
    | Num(number: real)
    | Str(text: string)
    | Arr(items: seq<Json>)
    | Obj(fields: Dict<Json>)

  function Field(d: Dict<Json>, key: string): Option<Json> {
    if Has(d, key) then Some(Get(d, key)) else None
  }

  /** The fields of an object; anything else counts as an empty one. */
  function Fields(v: Option<Json>): Dict<Json> {
    if v.Some? && v.value.Obj? then v.value.fields else []
  }

  function Items(v: Option<Json>): seq<Json> {
    if v.Some? && v.value.Arr? then v.value.items else []
  }

  predicate IsTrue(v: Option<Json>) {
    v == Some(Bool(true))
  }

  predicate IsFalse(v: Option<Json>) {
    v == Some(Bool(false))
  }
}
