/** The status codes of gRPC, with the numbers of the gRPC core status-code list. */
module GrpcStatus {
  datatype Status =
    | Ok | Cancelled | Unknown | InvalidArgument | DeadlineExceeded | NotFound
    | AlreadyExists | PermissionDenied | ResourceExhausted | FailedPrecondition
    | Aborted | OutOfRange | Unimplemented | Internal | Unavailable | DataLoss
    | Unauthenticated
  {
    function Code(): (c: nat)
      ensures c <= 16
      ensures c == 0 <==> this == Ok
    {
      match this
      case Ok => 0
      case Cancelled => 1
      case Unknown => 2
      case InvalidArgument => 3
      case DeadlineExceeded => 4
      case NotFound => 5
      case AlreadyExists => 6
      case PermissionDenied => 7
      case ResourceExhausted => 8
      case FailedPrecondition => 9
      case Aborted => 10
      case OutOfRange => 11
      case Unimplemented => 12
      case Internal => 13
      case Unavailable => 14
      case DataLoss => 15
      case Unauthenticated => 16
    }
  }
}

/**
 * The gRPC error mapper every RPC handler funnels its failures through: an
 * HTTP-to-gRPC status table and `handleError`, which turns whatever was
 * thrown into the `{ code, message }` of an `RpcException`.
 */
module ExceptionHandler {
  import opened Results
  import opened Exceptions
  import GrpcStatus

  /** `HttpStatusCode`: HTTP status (section 15 of RFC 9110) to gRPC status. */
  const HttpStatusCode: map<int, GrpcStatus.Status> := map[
    400 := GrpcStatus.InvalidArgument,
    401 := GrpcStatus.Unauthenticated,
    403 := GrpcStatus.PermissionDenied,
    404 := GrpcStatus.NotFound,
    405 := GrpcStatus.Cancelled,
    409 := GrpcStatus.AlreadyExists,
    408 := GrpcStatus.DeadlineExceeded,
    410 := GrpcStatus.Aborted,
    412 := GrpcStatus.FailedPrecondition,
    413 := GrpcStatus.OutOfRange,
    415 := GrpcStatus.FailedPrecondition,
    418 := GrpcStatus.Unknown,
    422 := GrpcStatus.InvalidArgument,
    429 := GrpcStatus.ResourceExhausted,
    500 := GrpcStatus.Internal,
    501 := GrpcStatus.Unimplemented,
    502 := GrpcStatus.Unavailable,
    503 := GrpcStatus.Unavailable,
    504 := GrpcStatus.DeadlineExceeded,
    505 := GrpcStatus.Unavailable
  ]

  const DefaultMessage := "An internal server error occurred"
  const ValidationFailedMessage := "Validation failed"
  /** The `TypeError` of calling `charAt` on the `undefined` first value of an empty constraints object. */
  const CharAtOfUndefinedMessage := "Cannot read properties of undefined (reading 'charAt')"

  /** `HttpStatusCode[status] || Status.INTERNAL`. */
  function GrpcCodeOf(status: int): (c: nat)
    ensures status in HttpStatusCode ==> c == HttpStatusCode[status].Code()
    ensures status !in HttpStatusCode ==> c == GrpcStatus.Status.Internal.Code()
    ensures c != GrpcStatus.Status.Ok.Code()
  {
    if status in HttpStatusCode && HttpStatusCode[status].Code() != 0 then HttpStatusCode[status].Code()
    else GrpcStatus.Status.Internal.Code()
  }

  /** `isValidationError`: a truthy object carrying both a `constraints` and a `property` key. */
  predicate IsValidationError(e: Element) {
    e.ObjectElement? && e.property.Some? && e.constraints.Some?
  }

  /** The ASCII case mapping of `toUpperCase` on one character. */
  function UpperCase(c: char): (u: char)
    ensures 'a' <= c <= 'z' ==> 'A' <= u <= 'Z' && u as int - 'A' as int == c as int - 'a' as int
    ensures !('a' <= c <= 'z') ==> u == c
  {
    if 'a' <= c <= 'z' then (c as int - 'a' as int + 'A' as int) as char else c
  }

  /** `s.charAt(0).toUpperCase() + s.slice(1)`. */
  function Capitalise(s: string): (r: string)
    ensures |r| == |s|
    ensures |s| > 0 ==> r[0] == UpperCase(s[0]) && r[1..] == s[1..]
  {
    if s == [] then [] else [UpperCase(s[0])] + s[1..]
  }

  /**
   * The message of an `HttpException`: a string response verbatim, otherwise
   * the response's `message` when truthy, otherwise the exception's own message.
   */
  function HttpMessage(response: HttpResponse, message: string): (r: string)
    ensures r == message || (response.TextBody? && r == response.text) || (response.ObjectBody? && response.message == Some(r))
    ensures response.ObjectBody? && message != "" ==> r != ""
    ensures response.ObjectBody? && response.message.Some? && response.message.value != "" ==> r == response.message.value
  {
    match response
    case TextBody(text) => text
    case ObjectBody(m) => if m.Some? && m.value != "" then m.value else message
  }

  /**
   * The message of a validation error: `"<property>: "` and the first
   * constraint message with its first character upper-cased, or
   * "Validation failed" when `constraints` is falsy. An empty constraints
   * object has no first value, and calling `charAt` on it throws.
   */
  function ValidationMessage(property: string, constraints: ConstraintsValue): (r: Result<string, Thrown>)
    ensures r.Err? <==> constraints == Constraints([])
    ensures r.Err? ==> r.error == ErrorObject(CharAtOfUndefinedMessage)
    ensures r.Ok? ==> |r.value| >= |property| + 2 && r.value[..|property| + 2] == property + ": "
    ensures constraints.NoConstraints? ==> r == Ok(property + ": Validation failed")
  {
    match constraints
    case NoConstraints =>
      ValidationFailedIsCapitalised();
      assert property + ": " + ValidationFailedMessage == property + ": Validation failed";
      Ok(property + ": " + Capitalise(ValidationFailedMessage))
    case Constraints(messages) =>
      if messages == [] then Err(ErrorObject(CharAtOfUndefinedMessage))
      else Ok(property + ": " + Capitalise(messages[0]))
  }

  /**
   * `handleError`: `Ok` is the `{ code, message }` of the returned
   * `RpcException` (the input itself when it already is one), `Err` is what
   * `handleError` itself throws.
   */
  function HandleError(e: Thrown): (r: Result<RpcError, Thrown>)
    ensures r.Err? <==>
      e.ArrayValue? && |e.elements| > 0 && IsValidationError(e.elements[0]) &&
      e.elements[0].constraints.value == Constraints([])
    ensures r.Ok? && !e.RpcException? ==> r.value.code != GrpcStatus.Status.Ok.Code()
  {
    match e
    case RpcException(error) => Ok(error)
    case HttpException(status, response, message) =>
      Ok(RpcError(GrpcCodeOf(status), HttpMessage(response, message)))
    case ArrayValue(elements) =>
      if |elements| > 0 && IsValidationError(elements[0]) then
        var message :- ValidationMessage(elements[0].property.value, elements[0].constraints.value);
        Ok(RpcError(GrpcStatus.Status.InvalidArgument.Code(), message))
      else
        Ok(RpcError(GrpcStatus.Status.Internal.Code(), DefaultMessage))
    case ErrorObject(message) =>
      Ok(RpcError(GrpcStatus.Status.Internal.Code(), if message != "" then message else DefaultMessage))
    case OtherValue => Ok(RpcError(GrpcStatus.Status.Internal.Code(), DefaultMessage))
  }

  /** An `RpcException` is passed through untouched, whatever its code. */
  lemma RpcExceptionUnchanged(error: RpcError)
    ensures HandleError(RpcException(error)) == Ok(error)
  {
  }

  /**
   * An `HttpException` keeps its status's gRPC code (INTERNAL when unmapped)
   * and the most specific message it carries.
   */
  lemma HttpExceptionMapped(status: int, response: HttpResponse, message: string)
    ensures var r := HandleError(HttpException(status, response, message));
      && r.Ok?
      && (status in HttpStatusCode ==> r.value.code == HttpStatusCode[status].Code())
      && (status !in HttpStatusCode ==> r.value.code == GrpcStatus.Status.Internal.Code())
      && (response.TextBody? ==> r.value.message == response.text)
      && (response.ObjectBody? && response.message.Some? && response.message.value != "" ==>
            r.value.message == response.message.value)
      && (response.ObjectBody? && (response.message.None? || response.message.value == "") ==>
            r.value.message == message)
  {
  }

  /**
   * The exceptions the services throw land on the codes a gRPC client expects:
   * UNAUTHENTICATED for 401, NOT_FOUND for 404, ALREADY_EXISTS for 409, each
   * with the message it was built from.
   */
  lemma ServiceExceptionsMapped(message: string)
    ensures HandleError(Unauthorized(message)) == Ok(RpcError(GrpcStatus.Status.Unauthenticated.Code(), message))
    ensures HandleError(NotFound(message)) == Ok(RpcError(GrpcStatus.Status.NotFound.Code(), message))
    ensures HandleError(Conflict(message)) == Ok(RpcError(GrpcStatus.Status.AlreadyExists.Code(), message))
  {
  }

  /**
   * The first element of a non-empty array of validation errors decides the
   * outcome: INVALID_ARGUMENT with `"<property>: <First constraint>"`, or
   * `"<property>: Validation failed"` without constraints.
   */
  lemma ValidationErrorMapped(elements: seq<Element>)
    requires |elements| > 0 && IsValidationError(elements[0])
    ensures var first := elements[0];
      var r := HandleError(ArrayValue(elements));
      && (first.constraints.value == NoConstraints ==>
            r == Ok(RpcError(3, first.property.value + ": Validation failed")))
      && (first.constraints.value.Constraints? && |first.constraints.value.messages| > 0 ==>
            var m := first.constraints.value.messages[0];
            && r.Ok? && r.value.code == 3
            && r.value.message == first.property.value + ": " + Capitalise(m)
            && (m != [] && 'a' <= m[0] <= 'z' ==>
            'A' <= r.value.message[|first.property.value| + 2] <= 'Z'))
  {
    var first := elements[0];
    if first.constraints.value == NoConstraints {
      ValidationFailedIsCapitalised();
      assert first.property.value + ": " + ValidationFailedMessage == first.property.value + ": Validation failed";
    } else if |first.constraints.value.messages| > 0 {
      var m := first.constraints.value.messages[0];
      var msg := first.property.value + ": " + Capitalise(m);
      if m != [] {
        assert msg[|first.property.value| + 2] == Capitalise(m)[0];
      }
    }
  }

  /**
   * Only the presence of the two keys makes an element a validation error,
   * whatever their values; anything that is not an object never is.
   */
  lemma ValidationErrorByKeys(property: Option<string>, constraints: Option<ConstraintsValue>)
    ensures IsValidationError(ObjectElement(property, constraints)) <==> property.Some? && constraints.Some?
    ensures !IsValidationError(NonObject)
  {
  }

  /** The fallback validation message already starts with a capital. */
  lemma ValidationFailedIsCapitalised()
    ensures Capitalise(ValidationFailedMessage) == ValidationFailedMessage
  {
    assert ValidationFailedMessage[0] == 'V';
    assert [UpperCase('V')] + ValidationFailedMessage[1..] == ValidationFailedMessage;
  }

  /**
   * Arrays that are empty or whose first element is not a validation error,
   * and values that are neither errors nor exceptions, get the default
   * INTERNAL answer; a plain `Error` keeps its message unless that is empty.
   */
  lemma FallbackMapped(e: Thrown)
    requires e.ErrorObject? || e.OtherValue? ||
      (e.ArrayValue? && (|e.elements| == 0 || !IsValidationError(e.elements[0])))
    ensures var r := HandleError(e);
      && r.Ok? && r.value.code == GrpcStatus.Status.Internal.Code()
      && (e.ErrorObject? && e.message != "" ==> r.value.message == e.message)
      && (!(e.ErrorObject? && e.message != "") ==> r.value.message == DefaultMessage)
  {
  }

  /**
   * The table is not injective: 400 and 422 both become INVALID_ARGUMENT,
   * 502, 503 and 505 all become UNAVAILABLE, 412 and 415 FAILED_PRECONDITION,
   * 408 and 504 DEADLINE_EXCEEDED; so the HTTP status cannot be recovered
   * from the gRPC code.
   */
  lemma TableNotInjective()
    ensures GrpcCodeOf(400) == GrpcCodeOf(422) == GrpcStatus.Status.InvalidArgument.Code()
    ensures GrpcCodeOf(502) == GrpcCodeOf(503) == GrpcCodeOf(505) == GrpcStatus.Status.Unavailable.Code()
    ensures GrpcCodeOf(412) == GrpcCodeOf(415) == GrpcStatus.Status.FailedPrecondition.Code()
    ensures GrpcCodeOf(408) == GrpcCodeOf(504) == GrpcStatus.Status.DeadlineExceeded.Code()
    ensures !(forall s1, s2 :: (s1 in HttpStatusCode && s2 in HttpStatusCode &&
               HttpStatusCode[s1] == HttpStatusCode[s2]) ==> s1 == s2)
  {
    assert 400 in HttpStatusCode && 422 in HttpStatusCode;
  }

  /**
   * No entry of the table is OK, so the `|| Status.INTERNAL` fallback fires
   * exactly for statuses missing from the table, and an unmapped status
   * (a 2xx, say) becomes INTERNAL.
   */
  lemma TableHasNoOk(status: int)
    ensures status in HttpStatusCode ==> HttpStatusCode[status] != GrpcStatus.Ok
    ensures GrpcCodeOf(200) == GrpcStatus.Status.Internal.Code() && GrpcCodeOf(402) == GrpcStatus.Status.Internal.Code()
  {
  }
}
