/**
 * The values that the registry file db.json and the settings map hold:
 * the part of Python's JSON data model that the provisioning code produces
 * or reads back (floating-point numbers are not modelled).
 */
module Json {
  datatype Value =
    | Null
    | Bool(b: bool)
    | Int(i: int)
    | Str(s: string)
    | Array(items: seq<Value>)
    | Object(fields: map<string, Value>)
}
