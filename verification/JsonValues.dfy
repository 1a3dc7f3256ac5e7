/** JSON values as Go's json.Unmarshal leaves them in an interface{}. A number is
    represented by the text json.Marshal prints for it. */
module JsonValues {
  const NUMBER_CHARS: string := "0123456789+-.eE"

  predicate IsNumber(s: string) {
    s != "" && forall i :: 0 <= i < |s| ==> s[i] in NUMBER_CHARS
  }

  type NumText = s: string | IsNumber(s) witness "0"

  datatype Json =
    | Null
    | Bool(b: bool)
    | Num(text: NumText)
    | Str(s: string)
    | Arr(items: seq<Json>)
    | Obj(fields: map<string, Json>)
}
