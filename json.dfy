/** The slice of `serde_json::Value` and of raw byte strings that the SDK builds by hand. */
module Json {

  newtype byte = x: int | 0 <= x < 256

  /** A `bytes::Bytes` buffer. */
  type Bytes = seq<byte>

  /** `serde_json::Value`; objects keep their members in insertion order. */
  datatype Value =
    | Null
    | Bool(b: bool)
    | Number(n: int)
    | String(s: string)
    | Array(items: seq<Value>)
    | Object(members: seq<(string, Value)>)

  /** `b` is the UTF-8 encoding of `s`, which is made of ASCII characters only. */
  predicate Spells(b: Bytes, s: string) {
    |b| == |s| && forall i :: 0 <= i < |s| ==> s[i] as int < 128 && b[i] as int == s[i] as int
  }
}
