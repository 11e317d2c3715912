/** HTTP status codes (section 15 of RFC 9110) and responses with a raw body. */
module Http {
  import opened Json

  type StatusCode = x: nat | 100 <= x < 600 witness 200

  const Ok: StatusCode := 200                   // section 15.3.1
  const BadRequest: StatusCode := 400           // section 15.5.1
  const Unauthorized: StatusCode := 401         // section 15.5.2
  const Forbidden: StatusCode := 403            // section 15.5.4
  const Conflict: StatusCode := 409             // section 15.5.10
  const UnprocessableContent: StatusCode := 422 // section 15.5.21
  const InternalServerError: StatusCode := 500  // section 15.6.1
  const NotImplemented: StatusCode := 501       // section 15.6.2
  const ServiceUnavailable: StatusCode := 503   // section 15.6.4

  predicate IsClientError(s: StatusCode) { 400 <= s < 500 }
  predicate IsServerError(s: StatusCode) { 500 <= s < 600 }

  /** `mime::APPLICATION_JSON` */
  const ApplicationJson: string := "application/json"

  /** A response as it leaves the server: status, Content-Type header and body bytes. */
  datatype Response = Response(status: StatusCode, contentType: string, body: Bytes)
}
