/**
 * `JsonResponse` of crates/sdk/src/json_response.rs: a value still to be serialised, or
 * bytes the connector has already serialised and vouches for.
 *
 * serde is a pair of function parameters: `ser` is what `serde_json` writes for a value,
 * `deser` what `serde_json::de::from_slice` reads from bytes, failing with an error known
 * by its message.
 */
module JsonResponses {
  import opened Wrappers
  import opened Json
  import Http
  import ConnectorErrors

  datatype JsonResponse<A> = Value(value: A) | Serialized(bytes: Bytes)

  /** `From<A> for JsonResponse<A>` (json_response.rs:19-23): no serialisation happens. */
  function From<A>(a: A): (r: JsonResponse<A>)
    ensures r.Value? && r.value == a
  {
    Value(a)
  }

  /**
   * `into_value` (json_response.rs:30-39): a value is returned as it is; bytes are
   * deserialised, and a failure is boxed into the caller's error type by `lift`
   * (`E: From<Box<dyn Error>>`).
   */
  function IntoValue<A, E>(
    j: JsonResponse<A>,
    deser: Bytes -> Result<A, ConnectorErrors.BoxedError>,
    lift: ConnectorErrors.BoxedError -> E): (r: Result<A, E>)
    ensures j.Value? ==> r == Ok(j.value)
    ensures j.Serialized? && deser(j.bytes).Ok? ==> r == Ok(deser(j.bytes).value)
    ensures j.Serialized? && deser(j.bytes).Err? ==> r == Err(lift(deser(j.bytes).error))
  {
    match j
    case Value(a) => Ok(a)
    case Serialized(b) =>
      match deser(b)
      case Ok(a) => Ok(a)
      case Err(e) => Err(lift(e))
  }

  /** The bytes a response carries: pre-serialised bytes as they are, a value through `ser`. */
  function Body<A>(j: JsonResponse<A>, ser: A -> Bytes): (b: Bytes)
    ensures j.Serialized? ==> b == j.bytes
    ensures j.Value? ==> b == ser(j.value)
  {
    match j
    case Value(a) => ser(a)
    case Serialized(b) => b
  }

  /**
   * `IntoResponse` (json_response.rs:42-56): both forms answer 200 with
   * `Content-Type: application/json`; `axum::Json` serialises a value, and
   * pre-serialised bytes are sent without being read.
   */
  function IntoResponse<A>(j: JsonResponse<A>, ser: A -> Bytes): (r: Http.Response)
    ensures r.status == Http.Ok && r.contentType == Http.ApplicationJson
    ensures r.body == Body(j, ser)
  {
    Http.Response(Http.Ok, Http.ApplicationJson, Body(j, ser))
  }

  /**
   * Reading a served body back gives what `into_value` gives without the round trip,
   * provided serde reads back what it writes for this value.
   */
  lemma ServedBodyReadsBack<A, E>(
    j: JsonResponse<A>,
    ser: A -> Bytes,
    deser: Bytes -> Result<A, ConnectorErrors.BoxedError>,
    lift: ConnectorErrors.BoxedError -> E)
    requires j.Value? ==> deser(ser(j.value)) == Ok(j.value)
    ensures IntoValue(Serialized(IntoResponse(j, ser).body), deser, lift) == IntoValue(j, deser, lift)
  {
  }

  /** Two responses differ only in their bodies, and a serialised body is the bytes given. */
  lemma ServedVerbatim<A>(b: Bytes, a: A, ser: A -> Bytes)
    ensures IntoResponse(Serialized(b), ser).body == b
    ensures IntoResponse(Serialized(b), ser) == IntoResponse(From(a), ser).(body := b)
  {
  }
}
