/** Small value wrappers shared by the other modules. */
module Wrappers {

  datatype Option<+T> = None | Some(value: T)

  /** How one step of the promise chain settles.  `Crashed` is an exception
      thrown inside an `exec` callback: it is not a rejection of the promise,
      it ends the process. */
  datatype Settled<+T> = Resolved(value: T) | Rejected(reason: string) | Crashed

  /** What a child process reports back to its `exec` callback. */
  datatype ExecResult = ExecOk(stdout: string) | ExecErr(stderr: string)
}
