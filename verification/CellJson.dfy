/** JSON values as the frame validators see them; an absent field is `None`. */
module CellJson {
  import opened Strings

  datatype Json =
    | Null
    | Bool(b: bool)
    | Num(n: real)
    | Str(s: string)
    | Arr(items: seq<Json>)
    | Obj(fields: map<string, Json>)

  type Field = Option<Json>

  predicate IsText(f: Field) {
    f.Some? && f.value.Str?
  }

  predicate IsBool(f: Field) {
    f.Some? && f.value.Bool?
  }

  predicate IsArray(f: Field) {
    f.Some? && f.value.Arr?
  }

  const MAX_ID_CHARS := 128

  /** `isBoundedId` */
  predicate BoundedId(f: Field) {
    IsText(f) && 0 < |f.value.s| <= MAX_ID_CHARS
  }
}
