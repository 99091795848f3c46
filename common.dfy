/** Small shared datatypes: an optional value (Python's `None` or a value) and
    the outcome of a call that may raise. */
module Common {

  datatype Option<+T> = None | Some(value: T) {
    /** The value, or `default` when absent (Python's `d.get(key, default)`). */
    function GetOr(default: T): T {
      match this
      case Some(v) => v
      case None => default
    }
  }

  /** What a call into code that may raise produces: its result, or the text of
      the exception it raised. */
  datatype Attempt<+T> = Returned(result: T) | Raised(message: string)

  /** The process environment, as `os.environ`. */
  type Env = map<string, string>

  /** `os.getenv(key, default)`. */
  function Getenv(env: Env, key: string, default: string): string {
    if key in env then env[key] else default
  }
}
