/** What a remote call can come back with. Nothing here performs I/O: a
    network answer is a value that the caller is given. */
module Http {
  import opened Common

  /** The exception classes the repositories tell apart. `HttpStatus` is
      Retrofit's `HttpException`, thrown by an endpoint that returns its body
      directly when the status is not 2xx. */
  datatype ExceptionKind =
    | SocketTimeout
    | ConnectFailure
    | UnknownHost
    | HttpStatus(code: int)
    | OtherException

  /** A thrown exception: its class and its (nullable) message. */
  datatype Exception = Exception(kind: ExceptionKind, message: Option<string>)

  /** Retrofit's `Response<T>`: the status code and the parsed body. */
  datatype Response<T> = Response(code: int, body: Option<T>) {
    /** `isSuccessful`: a 2xx status. */
    predicate IsSuccessful() {
      200 <= code <= 299
    }
  }

  /** A call to an endpoint declared to return `Response<T>`: a response of any
      status, or a transport exception. */
  datatype Call<T> = Answered(response: Response<T>) | Threw(exception: Exception)

  /** A call to an endpoint declared to return `T` itself: the value, or the
      exception Retrofit or the transport raised. */
  datatype Direct<T> = Returned(value: T) | Raised(exception: Exception)

  /** The call reached the server and it answered 2xx. */
  predicate Succeeded<T>(c: Call<T>) {
    c.Answered? && c.response.IsSuccessful()
  }
}
