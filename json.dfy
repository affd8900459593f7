/** JSON values as the client exchanges them with the server: event payloads
    handed to user handlers, and the bodies of the action messages it sends. */
module Json {

  datatype Value =
    | Null
    | Bool(b: bool)
    | Int(n: int)
    | Str(s: string)
    | Array(items: seq<Value>)
    | Object(fields: map<string, Value>)
}
