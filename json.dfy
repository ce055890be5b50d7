/**
 * A JSON value, for the parts of the report that are copied through
 * untouched and for the dictionaries handed to the error-tracking SDK.
 */
module Json {

  datatype Value =
    | JNull
    | JBool(b: bool)
    | JInt(i: int)
    | JReal(r: real)
    | JStr(s: string)
    | JArray(items: seq<Value>)
    | JObject(fields: map<string, Value>)
}
