/** What the handlers see of an external program (`ssh`, `sshpass`,
    `ssh-keyscan`, `ssh-keygen`, `/backup.sh`) and of the exceptions that end
    a request: the outcome of a run is a parameter of the model, never computed. */
module Process {

  /** The outcome of one `subprocess.run`: the program exited with a code and
      captured output, the timeout expired, or the runner raised some other
      exception before or while running it (its `str(e)` text is kept). */
  datatype ProcOutcome =
    | Exited(code: int, stdout: string, stderr: string)
    | TimedOut(description: string)
    | RunError(description: string)

  /** Exit code 0. */
  predicate Succeeded(o: ProcOutcome)
  {
    o.Exited? && o.code == 0
  }

  /** The exception behind a reply whose message is `str(e)`. */
  datatype Cause =
    | TypeMismatch                 // TypeError or AttributeError on a value of the wrong JSON type
    | BadRequestBody               // the request body is not JSON
    | NoSuchFile(path: string)     // FileNotFoundError
    | IsDirectory(path: string)    // IsADirectoryError
    | NotDirectory(path: string)   // NotADirectoryError
    | ProcessFailure(description: string)  // raised by the process runner

  /** The `message` member of a reply: absent, a literal text, or `str(e)`. */
  datatype Message =
    | NoMessage
    | Says(text: string)
    | Error(cause: Cause)
}
