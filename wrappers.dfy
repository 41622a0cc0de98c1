/** Optional values and the outcome of a call into an external collaborator. */
module Wrappers {

  /** A value that may be absent (`undefined` / `null` in the source). */
  datatype Option<+T> = None | Some(value: T) {
    function GetOr(default: T): T {
      match this
      case Some(v) => v
      case None => default
    }
  }

  /** The settled state of an awaited external call: it resolves with a value
      or rejects with an error carrying a message (possibly the empty string). */
  datatype Reply<+T> = Answered(value: T) | Failed(message: string)

  /** JavaScript truthiness of an optional string: present and non-empty. */
  predicate Truthy(s: Option<string>) {
    s.Some? && s.value != ""
  }
}
