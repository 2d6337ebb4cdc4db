/** Failure-compatible result types shared by every module of the model.

    `Result` stands for the `anyhow::Result` / `PyResult` values the bindings
    return; the error carries the message the binding would raise. */
module Outcomes {

  /** Why a conversion or a bridge call failed. */
  datatype Error =
    | Invalid(msg: string)           // an `anyhow::bail!` / `anyhow!` with this message
    | TypeMismatch(expected: string) // a PyO3 extraction of a value of the wrong Python type
    | OutOfRange(target: string)     // a PyO3 integer extraction out of the target's range (OverflowError)
    | MissingKey(key: string)        // `obj[key]` on a mapping without that key (KeyError)
    | OsError                        // a failed system call (`std::io::Error::last_os_error`)
    | ChannelClosed                  // a send on a channel whose receiving side is gone
    | NotifierFailed                 // the host notifier raised
    | NoResultYet                    // a one-shot `try_recv` on an empty slot whose sender is alive
    | ResultDropped                  // a one-shot `try_recv` on a slot whose sender is gone without a value

  datatype Option<+T> = None | Some(value: T)

  datatype Result<+T> = Ok(value: T) | Err(error: Error) {

    predicate IsFailure() {
      Err?
    }

    function PropagateFailure<U>(): Result<U>
      requires Err?
    {
      Err(error)
    }

    function Extract(): T
      requires Ok?
    {
      value
    }
  }
}
