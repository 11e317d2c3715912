/**
 * crates/sdk-core/src/schema.rs: the capabilities response, and the command that prints
 * a connector's schema and capabilities as one JSON object without re-serialising bytes
 * that are already serialised.
 */
module Schema {
  import opened Wrappers
  import opened Json
  import ConnectorErrors
  import opened JsonResponses
  import LazyState

  /** `ndc_models::CapabilitiesResponse` */
  datatype CapabilitiesResponse<Caps> = CapabilitiesResponse(version: string, capabilities: Caps)

  /**
   * `get_capabilities` (schema.rs:9-16): the connector's capabilities under the version
   * of the NDC specification the SDK is built against (`ndc_models::VERSION`, a parameter
   * here), as a value still to be serialised.
   */
  function GetCapabilities<Caps>(version: string, capabilities: Caps): (r: JsonResponse<CapabilitiesResponse<Caps>>)
    ensures r.Value? && r.value.version == version && r.value.capabilities == capabilities
  {
    From(CapabilitiesResponse(version, capabilities))
  }

  /** The first `n` bytes of `s`, or all of it: the longest prefix of `s` that fits in `n`. */
  function Truncate(s: Bytes, n: nat): (t: Bytes)
    ensures t <= s
    ensures |t| == (if |s| <= n then |s| else n)
  {
    if |s| <= n then s else s[..n]
  }

  /**
   * A `std::io::Write` sink with room for `capacity` bytes. `write_all` stores what fits;
   * if the bytes do not all fit it fails with `failure`, after storing as many as fit.
   */
  class Writer {
    var written: Bytes
    const capacity: nat
    const failure: ConnectorErrors.BoxedError
    /** How many times `write_all` has been called. */
    ghost var writes: nat

    ghost predicate Valid()
      reads this
    {
      |written| <= capacity
    }

    constructor (capacity: nat, failure: ConnectorErrors.BoxedError)
      ensures Valid()
      ensures written == [] && writes == 0
      ensures this.capacity == capacity && this.failure == failure
    {
      written := [];
      writes := 0;
      this.capacity := capacity;
      this.failure := failure;
    }

    method WriteAll(bytes: Bytes) returns (r: Result<(), ConnectorErrors.BoxedError>)
      requires Valid()
      modifies this
      ensures Valid()
      ensures written == Truncate(old(written) + bytes, capacity)
      ensures r.Ok? <==> |old(written)| + |bytes| <= capacity
      ensures r.Err? ==> r.error == failure
      ensures writes == old(writes) + 1
    {
      writes := writes + 1;
      var fits := |written| + |bytes| <= capacity;
      written := Truncate(written + bytes, capacity);
      r := if fits then Ok(()) else Err(failure);
    }
  }

  /** `{"schema":` in UTF-8 */
  const SchemaKey: Bytes := [123, 34, 115, 99, 104, 101, 109, 97, 34, 58]
  /** `,"capabilities":` in UTF-8 */
  const CapabilitiesKey: Bytes := [44, 34, 99, 97, 112, 97, 98, 105, 108, 105, 116, 105, 101, 115, 34, 58]
  /** `}` and the newline `writeln!` adds */
  const Closing: Bytes := [125, 10]

  /** The three literal pieces are the UTF-8 encodings of the text the source writes. */
  lemma LiteralPiecesAreTheirText()
    ensures Spells(SchemaKey, "{\"schema\":")
    ensures Spells(CapabilitiesKey, ",\"capabilities\":")
    ensures Spells(Closing, "}\n")
  {
  }

  /** Everything the printer writes when nothing fails: 28 bytes of keys and braces around the two bodies. */
  function Output<S, Caps>(
    schema: JsonResponse<S>, capabilities: JsonResponse<CapabilitiesResponse<Caps>>,
    serSchema: S -> Bytes, serCapabilities: CapabilitiesResponse<Caps> -> Bytes): (r: Bytes)
    ensures |r| == |Body(schema, serSchema)| + |Body(capabilities, serCapabilities)| + 28
  {
    SchemaKey + Body(schema, serSchema) + CapabilitiesKey + Body(capabilities, serCapabilities) + Closing
  }

  /**
   * Where each part sits in the output: `{"schema":`, then the schema's serialisation,
   * then `,"capabilities":` and the capabilities' serialisation, and the closing brace and
   * newline at the very end.
   */
  lemma OutputLayout<S, Caps>(
    schema: JsonResponse<S>, capabilities: JsonResponse<CapabilitiesResponse<Caps>>,
    serSchema: S -> Bytes, serCapabilities: CapabilitiesResponse<Caps> -> Bytes)
    ensures var r, b1, b3 := Output(schema, capabilities, serSchema, serCapabilities),
                             Body(schema, serSchema), Body(capabilities, serCapabilities);
      && r[..|SchemaKey|] == SchemaKey
      && r[|SchemaKey|..|SchemaKey| + |b1|] == b1
      && r[|SchemaKey| + |b1|..|SchemaKey| + |b1| + |CapabilitiesKey|] == CapabilitiesKey
      && r[|r| - |b3| - |Closing|..|r| - |Closing|] == b3
      && r[|r| - |Closing|..] == Closing
  {
  }

  /** The pieces in the order they are written. */
  function Pieces<S, Caps>(
    schema: JsonResponse<S>, capabilities: JsonResponse<CapabilitiesResponse<Caps>>,
    serSchema: S -> Bytes, serCapabilities: CapabilitiesResponse<Caps> -> Bytes): seq<Bytes>
  {
    [SchemaKey, Body(schema, serSchema), CapabilitiesKey, Body(capabilities, serCapabilities), Closing]
  }

  function Concat(pieces: seq<Bytes>): Bytes
    decreases |pieces|
  {
    if pieces == [] then [] else pieces[0] + Concat(pieces[1..])
  }

  /**
   * Writing `pieces` one `write_all` at a time onto `stored`, stopping at the first
   * failure: what the sink then holds, and whether every write succeeded.
   */
  function WriteEach(stored: Bytes, pieces: seq<Bytes>, capacity: nat): (Bytes, bool)
    decreases |pieces|
  {
    if pieces == [] then (stored, true)
    else if |stored| + |pieces[0]| > capacity then (Truncate(stored + pieces[0], capacity), false)
    else WriteEach(stored + pieces[0], pieces[1..], capacity)
  }

  /**
   * How many of `pieces` are handed to the writer when `used` bytes are already stored:
   * all of them, or those up to and including the first that does not fit.
   */
  function Attempted(used: nat, pieces: seq<Bytes>, capacity: nat): (k: nat)
    ensures k <= |pieces|
    ensures k < |pieces| ==> k > 0
    decreases |pieces|
  {
    if pieces == [] then 0
    else if used + |pieces[0]| > capacity then 1
    else 1 + Attempted(used + |pieces[0]|, pieces[1..], capacity)
  }

  /** Fewer writes than pieces are attempted only when one of them failed. */
  lemma {:induction false} FewerAttemptsOnlyAfterAFailure(stored: Bytes, pieces: seq<Bytes>, capacity: nat)
    ensures Attempted(|stored|, pieces, capacity) < |pieces| ==> !WriteEach(stored, pieces, capacity).1
    decreases |pieces|
  {
    if pieces != [] && |stored| + |pieces[0]| <= capacity {
      FewerAttemptsOnlyAfterAFailure(stored + pieces[0], pieces[1..], capacity);
    }
  }

  /** Once the sink is full, writing more changes nothing. */
  lemma TruncateFull(s: Bytes, t: Bytes, n: nat)
    requires |s| >= n
    ensures Truncate(s + t, n) == Truncate(s, n)
  {
    assert (s + t)[..n] == s[..n];
  }

  /**
   * Stopping at the first failure leaves exactly the prefix of the whole output that fits,
   * and every write succeeds exactly when the whole output fits.
   */
  lemma {:induction false} WriteEachTruncates(stored: Bytes, pieces: seq<Bytes>, capacity: nat)
    requires |stored| <= capacity
    ensures WriteEach(stored, pieces, capacity).0 == Truncate(stored + Concat(pieces), capacity)
    ensures WriteEach(stored, pieces, capacity).1 <==> |stored| + |Concat(pieces)| <= capacity
    decreases |pieces|
  {
    if pieces == [] {
      assert stored + [] == stored;
    } else {
      var rest := Concat(pieces[1..]);
      assert stored + Concat(pieces) == (stored + pieces[0]) + rest;
      if |stored| + |pieces[0]| > capacity {
        TruncateFull(stored + pieces[0], rest, capacity);
      } else {
        WriteEachTruncates(stored + pieces[0], pieces[1..], capacity);
      }
    }
  }

  /**
   * `write_json_response` (schema.rs:57-65): a value goes through `serde_json::to_writer`,
   * pre-serialised bytes go to `write_all` as they are.
   */
  method WriteJsonResponse<A>(writer: Writer, json: JsonResponse<A>, ser: A -> Bytes)
    returns (r: Result<(), ConnectorErrors.BoxedError>)
    requires writer.Valid()
    modifies writer
    ensures writer.Valid()
    ensures writer.written == Truncate(old(writer.written) + Body(json, ser), writer.capacity)
    ensures r.Ok? <==> |old(writer.written)| + |Body(json, ser)| <= writer.capacity
    ensures r.Err? ==> r.error == writer.failure
    ensures writer.writes == old(writer.writes) + 1
  {
    match json {
      case Value(v) =>
        r := writer.WriteAll(ser(v));
      case Serialized(b) =>
        r := writer.WriteAll(b);
    }
  }

  /**
   * `print_json_schema_and_capabilities` (schema.rs:43-55): five writes in order, the
   * first failure ending the function. What the sink holds is then exactly the prefix of
   * the whole output that fits, and the writes after a failing one are never issued.
   */
  method PrintJsonSchemaAndCapabilities<S, Caps>(
    writer: Writer,
    schema: JsonResponse<S>,
    capabilities: JsonResponse<CapabilitiesResponse<Caps>>,
    serSchema: S -> Bytes,
    serCapabilities: CapabilitiesResponse<Caps> -> Bytes)
    returns (r: Result<(), ConnectorErrors.BoxedError>)
    requires writer.Valid()
    modifies writer
    ensures writer.Valid()
    ensures var pieces := Pieces(schema, capabilities, serSchema, serCapabilities);
      && WriteEach(old(writer.written), pieces, writer.capacity) == (writer.written, r.Ok?)
      && writer.writes == old(writer.writes) + Attempted(|old(writer.written)|, pieces, writer.capacity)
    ensures r.Err? ==> r.error == writer.failure
  {
    ghost var cap := writer.capacity;
    ghost var b1, b3 := Body(schema, serSchema), Body(capabilities, serCapabilities);
    ghost var rest4 := [Closing];
    ghost var rest3 := [b3] + rest4;
    ghost var rest2 := [CapabilitiesKey] + rest3;
    ghost var rest1 := [b1] + rest2;
    assert Pieces(schema, capabilities, serSchema, serCapabilities) == [SchemaKey] + rest1;
    Step(writer.written, SchemaKey, rest1, cap);
    r := writer.WriteAll(SchemaKey);
    if r.Ok? {
      Step(writer.written, b1, rest2, cap);
      r := WriteJsonResponse(writer, schema, serSchema);
      if r.Ok? {
        Step(writer.written, CapabilitiesKey, rest3, cap);
        r := writer.WriteAll(CapabilitiesKey);
        if r.Ok? {
          Step(writer.written, b3, rest4, cap);
          r := WriteJsonResponse(writer, capabilities, serCapabilities);
          if r.Ok? {
            assert rest4 == [Closing] + [];
            Step(writer.written, Closing, [], cap);
            r := writer.WriteAll(Closing);
          }
        }
      }
    }
  }

  /** One write of the printer, as one step of `WriteEach` and of `Attempted`. */
  lemma Step(stored: Bytes, piece: Bytes, rest: seq<Bytes>, capacity: nat)
    ensures |stored| + |piece| <= capacity ==>
      && WriteEach(stored, [piece] + rest, capacity) == WriteEach(stored + piece, rest, capacity)
      && Attempted(|stored|, [piece] + rest, capacity) == 1 + Attempted(|stored + piece|, rest, capacity)
    ensures |stored| + |piece| > capacity ==>
      && WriteEach(stored, [piece] + rest, capacity) == (Truncate(stored + piece, capacity), false)
      && Attempted(|stored|, [piece] + rest, capacity) == 1
  {
    assert ([piece] + rest)[1..] == rest;
  }

  lemma ConcatOfFive(a: Bytes, b: Bytes, c: Bytes, d: Bytes, e: Bytes)
    ensures Concat([a, b, c, d, e]) == a + b + c + d + e
  {
    assert Concat([e]) == e by {
      assert [e][1..] == [];
      assert e + [] == e;
    }
    assert Concat([d, e]) == d + e by {
      assert [d, e][1..] == [e];
    }
    assert Concat([c, d, e]) == c + (d + e) by {
      assert [c, d, e][1..] == [d, e];
    }
    assert Concat([b, c, d, e]) == b + (c + (d + e)) by {
      assert [b, c, d, e][1..] == [c, d, e];
    }
    assert Concat([a, b, c, d, e]) == a + (b + (c + (d + e))) by {
      assert [a, b, c, d, e][1..] == [b, c, d, e];
    }
    assert a + (b + (c + (d + e))) == a + b + c + d + e;
  }

  /** The five pieces, written one after the other, form the printer's output. */
  lemma OutputIsConcat<S, Caps>(
    schema: JsonResponse<S>, capabilities: JsonResponse<CapabilitiesResponse<Caps>>,
    serSchema: S -> Bytes, serCapabilities: CapabilitiesResponse<Caps> -> Bytes)
    ensures Concat(Pieces(schema, capabilities, serSchema, serCapabilities))
      == Output(schema, capabilities, serSchema, serCapabilities)
  {
    ConcatOfFive(SchemaKey, Body(schema, serSchema), CapabilitiesKey, Body(capabilities, serCapabilities), Closing);
  }

  /**
   * What the printer leaves in the sink is the prefix of `{"schema":…,"capabilities":…}`
   * and a newline that fits, and it succeeds exactly when all of it fits.
   */
  lemma PrintedPrefix<S, Caps>(
    stored: Bytes, capacity: nat,
    schema: JsonResponse<S>, capabilities: JsonResponse<CapabilitiesResponse<Caps>>,
    serSchema: S -> Bytes, serCapabilities: CapabilitiesResponse<Caps> -> Bytes)
    requires |stored| <= capacity
    ensures var out := Output(schema, capabilities, serSchema, serCapabilities);
      var (written, ok) := WriteEach(stored, Pieces(schema, capabilities, serSchema, serCapabilities), capacity);
      && written == Truncate(stored + out, capacity)
      && (ok <==> |stored| + |out| <= capacity)
  {
    OutputIsConcat(schema, capabilities, serSchema, serCapabilities);
    WriteEachTruncates(stored, Pieces(schema, capabilities, serSchema, serCapabilities), capacity);
  }

  /**
   * `print_schema_and_capabilities` (schema.rs:19-38): builds the server state (which
   * parses the configuration), fetches the schema, and prints. A parse or schema failure
   * is returned before anything is written; a write failure is boxed into `E` by `lift`.
   */
  method PrintSchemaAndCapabilities<C, St, Env, E, S, Caps>(
    parse: string -> Result<C, E>,
    initState: (C, LazyState.Registry, Env) -> Result<St, E>,
    configDirectory: string,
    getSchema: C -> Result<JsonResponse<S>, E>,
    version: string,
    connectorCapabilities: Caps,
    serSchema: S -> Bytes,
    serCapabilities: CapabilitiesResponse<Caps> -> Bytes,
    lift: ConnectorErrors.BoxedError -> E,
    writer: Writer)
    returns (r: Result<(), E>)
    requires writer.Valid()
    modifies writer
    ensures writer.Valid()
    ensures parse(configDirectory).Err? ==>
      r == Err(parse(configDirectory).error) && writer.written == old(writer.written) && writer.writes == old(writer.writes)
    ensures parse(configDirectory).Ok? && getSchema(parse(configDirectory).value).Err? ==>
      r == Err(getSchema(parse(configDirectory).value).error)
      && writer.written == old(writer.written) && writer.writes == old(writer.writes)
    ensures parse(configDirectory).Ok? && getSchema(parse(configDirectory).value).Ok? ==>
      var out := Output(getSchema(parse(configDirectory).value).value,
                        GetCapabilities(version, connectorCapabilities), serSchema, serCapabilities);
      && writer.written == Truncate(old(writer.written) + out, writer.capacity)
      && (r.Ok? <==> |old(writer.written)| + |out| <= writer.capacity)
      && (r.Err? ==> r.error == lift(writer.failure))
  {
    var serverState :- LazyState.InitServerState(parse, initState, configDirectory);
    var schema :- getSchema(serverState.Configuration());
    var capabilities := GetCapabilities(version, connectorCapabilities);
    PrintedPrefix(writer.written, writer.capacity, schema, capabilities, serSchema, serCapabilities);
    var printed := PrintJsonSchemaAndCapabilities(writer, schema, capabilities, serSchema, serCapabilities);
    if printed.Err? {
      return Err(lift(printed.error));
    }
    return Ok(());
  }
}
