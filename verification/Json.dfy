/** JSON values as trees. */
module Json {
  datatype Value =
    | Null
    | Bool(b: bool)
    | Number(digits: string)
    | Text(s: string)
    | Array(items: seq<Value>)
    | Object(fields: map<string, Value>)
}
