/**
 * The values the services throw, as far as the error handler tells them apart:
 * gRPC `RpcException`s, Nest `HttpException`s (with the status and the response
 * body Nest builds), plain `Error` objects, arrays of class-validator errors and
 * anything else.
 */
module Exceptions {
  import opened Results

  /** The body of an `HttpException`: a bare string, or an object whose `message` may be missing. */
  datatype HttpResponse = TextBody(text: string) | ObjectBody(message: Option<string>)

  /** The value under a validation error's `constraints` key: falsy, or the constraint messages in key order. */
  datatype ConstraintsValue = NoConstraints | Constraints(messages: seq<string>)

  /**
   * An element of a thrown array. For an object, `None` means the key is not
   * present at all; anything that is not an object is `NonObject`.
   */
  datatype Element =
    | ObjectElement(property: Option<string>, constraints: Option<ConstraintsValue>)
    | NonObject

  /** The `{ code, message }` error carried by a gRPC `RpcException`. */
  datatype RpcError = RpcError(code: int, message: string)

  datatype Thrown =
    | RpcException(error: RpcError)
    | HttpException(status: int, response: HttpResponse, message: string)
    | ErrorObject(message: string)
    | ArrayValue(elements: seq<Element>)
    | OtherValue

  /** `new HttpException`-derived exceptions built from a message string, as Nest builds them. */
  function HttpError(status: int, message: string): Thrown {
    HttpException(status, ObjectBody(Some(message)), message)
  }

  function Unauthorized(message: string): Thrown {
    HttpError(401, message)
  }

  function NotFound(message: string): Thrown {
    HttpError(404, message)
  }

  function Conflict(message: string): Thrown {
    HttpError(409, message)
  }
}
