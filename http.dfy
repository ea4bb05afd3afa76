/**
 * The outcome of an HTTP route: the value it returns, or the HTTP error it
 * raises with its status code and detail text.
 */
module Http {
  datatype Response<T> = Done(value: T) | Refused(code: nat, detail: string)
}
