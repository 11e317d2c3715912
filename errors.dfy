/**
 * The error types of crates/sdk/src/connector/error.rs and the HTTP responses they turn
 * into.
 *
 * Each result-carrying error either holds a structured `ndc_models::ErrorResponse`
 * (message and details) or is `Other(err, details)` around a boxed error, which is known
 * here only by what its `Display` renders. Every constructor sets the details to `null`;
 * `with_details` replaces the details and nothing else; `into_response` picks a status
 * code of section 15 of RFC 9110 per variant and the body that axum then encodes as JSON.
 */
module ConnectorErrors {
  import opened Json
  import Http

  /** `ndc_models::ErrorResponse` */
  datatype ErrorResponse = ErrorResponse(message: string, details: Json.Value)

  /** A `Box<dyn Error>`, known by its `to_string()`. */
  datatype BoxedError = BoxedError(display: string)

  /** What `into_response` yields: a status and the JSON body before encoding. */
  datatype ErrorReply = ErrorReply(status: Http.StatusCode, body: ErrorResponse)

  /** The body of an `Other(err, details)` response. */
  function OtherBody(err: BoxedError, details: Json.Value): ErrorResponse {
    ErrorResponse(err.display, details)
  }

  /** `InitializationError` (error.rs:105-113): the error `try_init_state` returns. */
  datatype InitializationError = Other(err: BoxedError) {

    /** The fixed prefix, then the boxed error's own text. */
    function Display(): (s: string)
      ensures |s| > |err.display| && s[|s| - |err.display|..] == err.display
      ensures s[..|s| - |err.display|] == "error initializing connector state: "
    {
      "error initializing connector state: " + err.display
    }
  }

  /** `FetchMetricsError` (error.rs:115-149). */
  datatype FetchMetricsError = Other(err: BoxedError, details: Json.Value) {

    static function New(err: BoxedError): (e: FetchMetricsError)
      ensures e.err == err && e.details == Null
    {
      FetchMetricsError.Other(err, Null)
    }

    function WithDetails(details: Json.Value): (e: FetchMetricsError)
      ensures e.err == err && e.details == details
    {
      FetchMetricsError.Other(err, details)
    }

    function IntoResponse(): (r: ErrorReply)
      ensures r.status == Http.InternalServerError
      ensures r.body == OtherBody(err, details)
    {
      ErrorReply(Http.InternalServerError, OtherBody(err, details))
    }

    /** The `Display` thiserror derives (error.rs:120); the response keeps only the inner message. */
    function Display(): (s: string)
      ensures s == "error fetching metrics: " + IntoResponse().body.message
    {
      "error fetching metrics: " + err.display
    }
  }

  /** `HealthError` (error.rs:151-185). */
  datatype HealthError = Other(err: BoxedError, details: Json.Value) {

    static function New(err: BoxedError): (e: HealthError)
      ensures e.err == err && e.details == Null
    {
      HealthError.Other(err, Null)
    }

    function WithDetails(details: Json.Value): (e: HealthError)
      ensures e.err == err && e.details == details
    {
      HealthError.Other(err, details)
    }

    function IntoResponse(): (r: ErrorReply)
      ensures r.status == Http.ServiceUnavailable
      ensures r.body == OtherBody(err, details)
    {
      ErrorReply(Http.ServiceUnavailable, OtherBody(err, details))
    }

    /** The `Display` thiserror derives (error.rs:156); the response keeps only the inner message. */
    function Display(): (s: string)
      ensures s == "error checking health status: " + IntoResponse().body.message
    {
      "error checking health status: " + err.display
    }
  }

  /** `SchemaError` (error.rs:187-227); `From<Box<dyn Error>>` is `New`. */
  datatype SchemaError = Other(err: BoxedError, details: Json.Value) {

    static function New(err: BoxedError): (e: SchemaError)
      ensures e.err == err && e.details == Null
    {
      SchemaError.Other(err, Null)
    }

    function WithDetails(details: Json.Value): (e: SchemaError)
      ensures e.err == err && e.details == details
    {
      SchemaError.Other(err, details)
    }

    function IntoResponse(): (r: ErrorReply)
      ensures r.status == Http.InternalServerError
      ensures r.body == OtherBody(err, details)
    {
      ErrorReply(Http.InternalServerError, OtherBody(err, details))
    }

    /** The `Display` thiserror derives (error.rs:192); the response keeps only the inner message. */
    function Display(): (s: string)
      ensures s == "error retrieving the schema: " + IntoResponse().body.message
    {
      "error retrieving the schema: " + err.display
    }
  }

  /** `QueryError` (error.rs:229-314); `From<Box<dyn Error>>` is `New`. */
  datatype QueryError =
    | InvalidRequest(response: ErrorResponse)
    | UnprocessableContent(response: ErrorResponse)
    | UnsupportedOperation(response: ErrorResponse)
    | Other(err: BoxedError, details: Json.Value)
  {
    function Details(): Json.Value {
      if Other? then details else response.details
    }

    predicate SameVariant(e: QueryError) {
      && (InvalidRequest? <==> e.InvalidRequest?)
      && (UnprocessableContent? <==> e.UnprocessableContent?)
      && (UnsupportedOperation? <==> e.UnsupportedOperation?)
      && (Other? <==> e.Other?)
    }

    static function New(err: BoxedError): (e: QueryError)
      ensures e.Other? && e.err == err && e.Details() == Null
    {
      QueryError.Other(err, Null)
    }

    static function NewInvalidRequest(message: string): (e: QueryError)
      ensures e.InvalidRequest? && e.response.message == message && e.Details() == Null
    {
      QueryError.InvalidRequest(ErrorResponse(message, Null))
    }

    static function NewUnprocessableContent(message: string): (e: QueryError)
      ensures e.UnprocessableContent? && e.response.message == message && e.Details() == Null
    {
      QueryError.UnprocessableContent(ErrorResponse(message, Null))
    }

    static function NewUnsupportedOperation(message: string): (e: QueryError)
      ensures e.UnsupportedOperation? && e.response.message == message && e.Details() == Null
    {
      QueryError.UnsupportedOperation(ErrorResponse(message, Null))
    }

    /** Keeps the variant and its message or boxed error; replaces only the details. */
    function WithDetails(details: Json.Value): (e: QueryError)
      ensures SameVariant(e) && e.Details() == details
      ensures !Other? ==> e.response.message == response.message
      ensures Other? ==> e.err == err
    {
      match this
      case InvalidRequest(r) => QueryError.InvalidRequest(r.(details := details))
      case UnprocessableContent(r) => QueryError.UnprocessableContent(r.(details := details))
      case UnsupportedOperation(r) => QueryError.UnsupportedOperation(r.(details := details))
      case Other(err, _) => QueryError.Other(err, details)
    }

    /**
     * 400, 422 and 501 for the client-facing variants, whose stored response is the body;
     * 500 for `Other`, whose body is the error's message with the stored details.
     */
    function IntoResponse(): (r: ErrorReply)
      ensures InvalidRequest? ==> r.status == Http.BadRequest
      ensures UnprocessableContent? ==> r.status == Http.UnprocessableContent
      ensures UnsupportedOperation? ==> r.status == Http.NotImplemented
      ensures Other? ==> r.status == Http.InternalServerError
      ensures !Other? ==> r.body == response
      ensures Other? ==> r.body == OtherBody(err, details)
      ensures r.body.details == Details()
    {
      match this
      case InvalidRequest(r) => ErrorReply(Http.BadRequest, r)
      case UnprocessableContent(r) => ErrorReply(Http.UnprocessableContent, r)
      case UnsupportedOperation(r) => ErrorReply(Http.NotImplemented, r)
      case Other(err, details) => ErrorReply(Http.InternalServerError, OtherBody(err, details))
    }

    /** What thiserror's `Display` (error.rs:237-250) writes before the message. */
    function Prefix(): string {
      match this
      case InvalidRequest(_) => "invalid request: "
      case UnprocessableContent(_) => "unprocessable content: "
      case UnsupportedOperation(_) => "unsupported operation: "
      case Other(_, _) => "error executing query: "
    }

    /**
     * The `Display` thiserror derives: the variant's prefix and then the message, which is
     * all that the response carries.
     */
    function Display(): (s: string)
      ensures s == Prefix() + IntoResponse().body.message
    {
      Prefix() + if Other? then err.display else response.message
    }
  }

  /** `ExplainError` (error.rs:316-401); `From<Box<dyn Error>>` is `New`. */
  datatype ExplainError =
    | InvalidRequest(response: ErrorResponse)
    | UnprocessableContent(response: ErrorResponse)
    | UnsupportedOperation(response: ErrorResponse)
    | Other(err: BoxedError, details: Json.Value)
  {
    function Details(): Json.Value {
      if Other? then details else response.details
    }

    predicate SameVariant(e: ExplainError) {
      && (InvalidRequest? <==> e.InvalidRequest?)
      && (UnprocessableContent? <==> e.UnprocessableContent?)
      && (UnsupportedOperation? <==> e.UnsupportedOperation?)
      && (Other? <==> e.Other?)
    }

    static function New(err: BoxedError): (e: ExplainError)
      ensures e.Other? && e.err == err && e.Details() == Null
    {
      ExplainError.Other(err, Null)
    }

    static function NewInvalidRequest(message: string): (e: ExplainError)
      ensures e.InvalidRequest? && e.response.message == message && e.Details() == Null
    {
      ExplainError.InvalidRequest(ErrorResponse(message, Null))
    }

    static function NewUnprocessableContent(message: string): (e: ExplainError)
      ensures e.UnprocessableContent? && e.response.message == message && e.Details() == Null
    {
      ExplainError.UnprocessableContent(ErrorResponse(message, Null))
    }

    static function NewUnsupportedOperation(message: string): (e: ExplainError)
      ensures e.UnsupportedOperation? && e.response.message == message && e.Details() == Null
    {
      ExplainError.UnsupportedOperation(ErrorResponse(message, Null))
    }

    function WithDetails(details: Json.Value): (e: ExplainError)
      ensures SameVariant(e) && e.Details() == details
      ensures !Other? ==> e.response.message == response.message
      ensures Other? ==> e.err == err
    {
      match this
      case InvalidRequest(r) => ExplainError.InvalidRequest(r.(details := details))
      case UnprocessableContent(r) => ExplainError.UnprocessableContent(r.(details := details))
      case UnsupportedOperation(r) => ExplainError.UnsupportedOperation(r.(details := details))
      case Other(err, _) => ExplainError.Other(err, details)
    }

    function IntoResponse(): (r: ErrorReply)
      ensures InvalidRequest? ==> r.status == Http.BadRequest
      ensures UnprocessableContent? ==> r.status == Http.UnprocessableContent
      ensures UnsupportedOperation? ==> r.status == Http.NotImplemented
      ensures Other? ==> r.status == Http.InternalServerError
      ensures !Other? ==> r.body == response
      ensures Other? ==> r.body == OtherBody(err, details)
      ensures r.body.details == Details()
    {
      match this
      case InvalidRequest(r) => ErrorReply(Http.BadRequest, r)
      case UnprocessableContent(r) => ErrorReply(Http.UnprocessableContent, r)
      case UnsupportedOperation(r) => ErrorReply(Http.NotImplemented, r)
      case Other(err, details) => ErrorReply(Http.InternalServerError, OtherBody(err, details))
    }

    /** What thiserror's `Display` (error.rs:324-337) writes before the message. */
    function Prefix(): string {
      match this
      case InvalidRequest(_) => "invalid request: "
      case UnprocessableContent(_) => "unprocessable content: "
      case UnsupportedOperation(_) => "unsupported operation: "
      case Other(_, _) => "explain error: "
    }

    /**
     * The `Display` thiserror derives: the variant's prefix and then the message, which is
     * all that the response carries.
     */
    function Display(): (s: string)
      ensures s == Prefix() + IntoResponse().body.message
    {
      Prefix() + if Other? then err.display else response.message
    }
  }

  /** `MutationError` (error.rs:403-516); `From<Box<dyn Error>>` is `New`. */
  datatype MutationError =
    | InvalidRequest(response: ErrorResponse)
    | UnprocessableContent(response: ErrorResponse)
    | UnsupportedOperation(response: ErrorResponse)
    | Conflict(response: ErrorResponse)
    | ConstraintNotMet(response: ErrorResponse)
    | Other(err: BoxedError, details: Json.Value)
  {
    function Details(): Json.Value {
      if Other? then details else response.details
    }

    predicate SameVariant(e: MutationError) {
      && (InvalidRequest? <==> e.InvalidRequest?)
      && (UnprocessableContent? <==> e.UnprocessableContent?)
      && (UnsupportedOperation? <==> e.UnsupportedOperation?)
      && (Conflict? <==> e.Conflict?)
      && (ConstraintNotMet? <==> e.ConstraintNotMet?)
      && (Other? <==> e.Other?)
    }

    static function New(err: BoxedError): (e: MutationError)
      ensures e.Other? && e.err == err && e.Details() == Null
    {
      MutationError.Other(err, Null)
    }

    static function NewInvalidRequest(message: string): (e: MutationError)
      ensures e.InvalidRequest? && e.response.message == message && e.Details() == Null
    {
      MutationError.InvalidRequest(ErrorResponse(message, Null))
    }

    static function NewUnprocessableContent(message: string): (e: MutationError)
      ensures e.UnprocessableContent? && e.response.message == message && e.Details() == Null
    {
      MutationError.UnprocessableContent(ErrorResponse(message, Null))
    }

    static function NewUnsupportedOperation(message: string): (e: MutationError)
      ensures e.UnsupportedOperation? && e.response.message == message && e.Details() == Null
    {
      MutationError.UnsupportedOperation(ErrorResponse(message, Null))
    }

    static function NewConflict(message: string): (e: MutationError)
      ensures e.Conflict? && e.response.message == message && e.Details() == Null
    {
      MutationError.Conflict(ErrorResponse(message, Null))
    }

    static function NewConstraintNotMet(message: string): (e: MutationError)
      ensures e.ConstraintNotMet? && e.response.message == message && e.Details() == Null
    {
      MutationError.ConstraintNotMet(ErrorResponse(message, Null))
    }

    function WithDetails(details: Json.Value): (e: MutationError)
      ensures SameVariant(e) && e.Details() == details
      ensures !Other? ==> e.response.message == response.message
      ensures Other? ==> e.err == err
    {
      match this
      case InvalidRequest(r) => MutationError.InvalidRequest(r.(details := details))
      case UnprocessableContent(r) => MutationError.UnprocessableContent(r.(details := details))
      case UnsupportedOperation(r) => MutationError.UnsupportedOperation(r.(details := details))
      case Conflict(r) => MutationError.Conflict(r.(details := details))
      case ConstraintNotMet(r) => MutationError.ConstraintNotMet(r.(details := details))
      case Other(err, _) => MutationError.Other(err, details)
    }

    function IntoResponse(): (r: ErrorReply)
      ensures InvalidRequest? ==> r.status == Http.BadRequest
      ensures UnprocessableContent? ==> r.status == Http.UnprocessableContent
      ensures UnsupportedOperation? ==> r.status == Http.NotImplemented
      ensures Conflict? ==> r.status == Http.Conflict
      ensures ConstraintNotMet? ==> r.status == Http.Forbidden
      ensures Other? ==> r.status == Http.InternalServerError
      ensures !Other? ==> r.body == response
      ensures Other? ==> r.body == OtherBody(err, details)
      ensures r.body.details == Details()
    {
      match this
      case InvalidRequest(r) => ErrorReply(Http.BadRequest, r)
      case UnprocessableContent(r) => ErrorReply(Http.UnprocessableContent, r)
      case UnsupportedOperation(r) => ErrorReply(Http.NotImplemented, r)
      case Conflict(r) => ErrorReply(Http.Conflict, r)
      case ConstraintNotMet(r) => ErrorReply(Http.Forbidden, r)
      case Other(err, details) => ErrorReply(Http.InternalServerError, OtherBody(err, details))
    }

    /** What thiserror's `Display` (error.rs:411-432) writes before the message. */
    function Prefix(): string {
      match this
      case InvalidRequest(_) => "invalid request: "
      case UnprocessableContent(_) => "unprocessable content: "
      case UnsupportedOperation(_) => "unsupported operation: "
      case Conflict(_) => "mutation would result in a conflicting state: "
      case ConstraintNotMet(_) => "mutation violates constraint: "
      case Other(_, _) => "error executing mutation: "
    }

    /**
     * The `Display` thiserror derives: the variant's prefix and then the message, which is
     * all that the response carries.
     */
    function Display(): (s: string)
      ensures s == Prefix() + IntoResponse().body.message
    {
      Prefix() + if Other? then err.display else response.message
    }
  }

  // ---------------------------------------------------------------------------------
  // Properties that relate several calls.

  /** Setting the details twice keeps only the second; setting them back restores the error. */
  lemma MutationWithDetailsLastWins(e: MutationError, a: Json.Value, b: Json.Value)
    ensures e.WithDetails(a).WithDetails(b) == e.WithDetails(b)
    ensures e.WithDetails(a).WithDetails(e.Details()) == e
  {
  }

  lemma QueryWithDetailsLastWins(e: QueryError, a: Json.Value, b: Json.Value)
    ensures e.WithDetails(a).WithDetails(b) == e.WithDetails(b)
    ensures e.WithDetails(a).WithDetails(e.Details()) == e
  {
  }

  lemma ExplainWithDetailsLastWins(e: ExplainError, a: Json.Value, b: Json.Value)
    ensures e.WithDetails(a).WithDetails(b) == e.WithDetails(b)
    ensures e.WithDetails(a).WithDetails(e.Details()) == e
  {
  }

  /**
   * The status never depends on the details, the details always reach the body, and
   * exactly `Other` and `UnsupportedOperation` (501) are answered with a server error.
   */
  lemma MutationStatusIgnoresDetails(e: MutationError, d: Json.Value)
    ensures e.WithDetails(d).IntoResponse().status == e.IntoResponse().status
    ensures e.WithDetails(d).IntoResponse().body.details == d
    ensures Http.IsServerError(e.IntoResponse().status) <==> e.Other? || e.UnsupportedOperation?
    ensures Http.IsClientError(e.IntoResponse().status) <==> !(e.Other? || e.UnsupportedOperation?)
  {
  }

  lemma QueryStatusIgnoresDetails(e: QueryError, d: Json.Value)
    ensures e.WithDetails(d).IntoResponse().status == e.IntoResponse().status
    ensures e.WithDetails(d).IntoResponse().body.details == d
    ensures Http.IsServerError(e.IntoResponse().status) <==> e.Other? || e.UnsupportedOperation?
    ensures Http.IsClientError(e.IntoResponse().status) <==> !(e.Other? || e.UnsupportedOperation?)
  {
  }

  lemma ExplainStatusIgnoresDetails(e: ExplainError, d: Json.Value)
    ensures e.WithDetails(d).IntoResponse().status == e.IntoResponse().status
    ensures e.WithDetails(d).IntoResponse().body.details == d
    ensures Http.IsServerError(e.IntoResponse().status) <==> e.Other? || e.UnsupportedOperation?
    ensures Http.IsClientError(e.IntoResponse().status) <==> !(e.Other? || e.UnsupportedOperation?)
  {
  }
}
