/**
 * The error values a run can reject with. The three error classes of the
 * source are folded into one tagged datatype carrying their fixed names and
 * messages; an error coming from an AWS client is kept as it is.
 */
module Errors {
  import opened Wrappers

  /** An error raised by an AWS SDK call: its class name, its optional `code`, its `message`. */
  datatype AwsError = AwsError(name: string, code: Option<string>, message: string)

  datatype EnvError =
    | InvalidFileType           // InvalidFileTypeError
    | InvalidParams             // InvalidParamsError
    | AwsEnvCreator(msg: string) // AwsEnvCreatorError, built from a message
    | Aws(cause: AwsError)      // an SDK error rethrown unchanged
  {
    /** The `name` property of the rejected error object. */
    function Name(): string {
      match this
      case InvalidFileType => "InvalidFileTypeError"
      case InvalidParams => "InvalidParamsError"
      case AwsEnvCreator(_) => "AwsEnvCreatorError"
      case Aws(e) => e.name
    }

    /** The `message` property of the rejected error object. */
    function Message(): string {
      match this
      case InvalidFileType => "It's a file type that is not allowed"
      case InvalidParams => "secretIds or parameterPath is required"
      case AwsEnvCreator(m) => m
      case Aws(e) => e.message
    }
  }

  /**
   * The re-wrap done by the catch handler of the Parameter Store fetch: the new
   * AwsEnvCreatorError carries the underlying error's code, or its message when
   * it has no code.
   */
  function Rewrap(e: AwsError): (r: EnvError)
    ensures r.AwsEnvCreator? && r.Name() == "AwsEnvCreatorError"
    ensures e.code.Some? ==> r.Message() == e.code.value
    ensures e.code.None? ==> r.Message() == e.message
  {
    AwsEnvCreator(if e.code.Some? then e.code.value else e.message)
  }
}
