/** Small wrapper types shared by every module: optional values (TypeScript's
    `T | undefined` / `T | null`), results of operations that can fail with a
    user-facing message, and partial-update patches (`Partial<T>` spreads). */
module Base {

  datatype Option<+T> = None | Some(value: T) {
    function GetOr(default: T): T {
      match this
      case Some(v) => v
      case None => default
    }
  }

  /** Outcome of a handler that either produces a value or sets an error message. */
  datatype Result<+R> = Ok(value: R) | Err(message: string)

  /** One field of a `Partial<T>` object: absent (keep the old value) or present. */
  datatype Patch<+T> = Keep | Set(value: T) {
    function Apply(old_: T): T {
      match this
      case Keep => old_
      case Set(v) => v
    }
  }
}
