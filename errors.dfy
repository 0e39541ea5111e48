/**
 * Go error values as the application layer sees them.
 *
 * An error coming from a collaborator is opaque: only its message is known.
 * `fmt.Errorf("<prefix>%w", err)` builds a new error whose message is the
 * prefix followed by the message of `err`, and which unwraps to `err`.
 */
module Errors {
  import opened Wrappers

  /** The prefix App puts in front of every mount-enumeration failure (cmd/app/app.go). */
  const MountErrorPrefix: string := "Error loading mount points: "

  datatype Error =
    | Failure(msg: string)                 // an error made by a collaborator
    | Wrapped(prefix: string, cause: Error) // fmt.Errorf(prefix + "%w", cause)
  {
    /** What `err.Error()` returns. */
    function Message(): string {
      match this
      case Failure(m) => m
      case Wrapped(p, c) => p + c.Message()
    }
  }

  /** `errors.Unwrap`: the wrapped error, or nil for an error that wraps nothing. */
  function Unwrap(err: Error): (inner: Option<Error>)
    ensures inner.Some? <==> err.Wrapped?
    ensures inner.Some? ==> inner.value < err
  {
    match err
    case Failure(_) => None
    case Wrapped(_, c) => Some(c)
  }

  /** `errors.Is`: `target` occurs somewhere on the unwrap chain of `err`. */
  predicate Is(err: Error, target: Error) {
    err == target || (err.Wrapped? && Is(err.cause, target))
  }

  /** fmt.Errorf("Error loading mount points: %w", err). */
  function WrapMountError(err: Error): (w: Error)
    ensures w.Message() == MountErrorPrefix + err.Message()
    ensures Unwrap(w) == Some(err)
    ensures Is(w, err) && w != err
  {
    Wrapped(MountErrorPrefix, err)
  }

  /**
   * However many times an error is wrapped, the message of any error on its
   * unwrap chain is still the tail of its own message: wrapping only ever adds
   * context in front, it never hides the cause.
   */
  lemma {:induction false} CauseMessageIsSuffix(err: Error, target: Error)
    requires Is(err, target)
    ensures |target.Message()| <= |err.Message()|
    ensures err.Message()[|err.Message()| - |target.Message()|..] == target.Message()
  {
    if err != target {
      CauseMessageIsSuffix(err.cause, target);
      var m, c := err.Message(), err.cause.Message();
      assert m == err.prefix + c;
      assert m[|m| - |target.Message()|..] == c[|c| - |target.Message()|..];
    }
  }
}
