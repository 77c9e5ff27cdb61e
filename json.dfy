/**
 * The JSON document the serializers build before it is streamed out.
 * An object is a map from key to value: the library's object type is an unordered
 * map, so the order in which keys are rendered is not part of the model.
 */
module Json {

  datatype Value =
    | Str(s: string)
    | UInt(n: nat)
      /** A floating-point number rendered with `digits` decimal places; the rendering is not modelled. */
    | Fp(value: real, digits: nat)
    | Bool(b: bool)
    | Arr(items: seq<Value>)
    | Obj(fields: map<string, Value>)
}
