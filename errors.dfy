/**
 * The error values the task runner can produce. A Go error made with
 * `errors.New(text)` is `New(text)`; errors that come from libraries the
 * model does not look into are kept opaque, one constructor per origin.
 */
module Errors {

  datatype Error =
    /** `errors.New(text)` (and `fmt.Errorf` with a plain text). */
    | New(text: string)
    /** The HTTP request could not be completed (connection, DNS, TLS, timeout). */
    | Transport(reason: string)
    /** The sentinel `ErrCodeInResponse`: the server answered with a status above 399. */
    | ErrCodeInResponse
    /** `json.Unmarshal` rejected the response body. */
    | Decode(reason: string)
    /** The build engine failed to connect, build or publish. */
    | Engine(reason: string)
    /** A nil pointer was dereferenced: Go panics, and deferred calls still run. */
    | NilDereference
}
