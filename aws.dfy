/** Values from the AWS SDK for Go that the EC2 helpers work with: optional
    pointers, the `aws.StringValue`/`aws.BoolValue` dereferencing helpers,
    errors, and the outcome of a Go call that can panic on a nil pointer. */
module Aws {

  /** A Go pointer (or any nil-able value): `None` is nil. */
  datatype Option<+T> = None | Some(value: T)

  /** `aws.StringValue`: the pointed-to string, or "" for nil. */
  function StringValue(p: Option<string>): string {
    match p
    case Some(s) => s
    case None => ""
  }

  /** `aws.BoolValue`: the pointed-to bool, or false for nil. */
  function BoolValue(p: Option<bool>): bool {
    match p
    case Some(b) => b
    case None => false
  }

  /** `aws.String`: a freshly allocated, hence non-nil, pointer to `s`. */
  function String(s: string): Option<string> {
    Some(s)
  }

  /** A point in time as the SDK returns it (`time.Time`); nothing here does
      arithmetic on it. */
  type Instant = int

  /** A Go `error`. An `awserr.Error` carries a service error code; any other
      error does not. */
  datatype Error =
    | AwsError(code: string, message: string)
    | OtherError(message: string)

  /** How a Go function call ended: it returned, or it panicked on a nil
      pointer dereference. */
  datatype Exit = Returned | NilDereference
}
