/** What one invocation of the `mpremote` device-management tool gives back,
    and the one classification every handler shares. */
module Tool {
  import opened PyStr

  /** The three fields of a `subprocess.run` call that returned. */
  datatype ToolResult = ToolResult(stdout: string, returncode: int, stderr: string)

  /** Why `subprocess.run` raised instead of returning: its timeout ran out,
      the tool is not installed (list-form commands only), or anything else. */
  datatype Raise = TimeoutExpired | ToolNotFound | OtherError

  /** One invocation: it returned a result, or it raised with `str(e)` as message. */
  datatype Invocation = Finished(result: ToolResult) | Raised(error: Raise, message: string)

  /** The tool's not-connected signal. */
  const NoDevicePhrase: string := "no device found"

  /** The phrase appears anywhere in standard output (the exit status is not consulted). */
  predicate NoDevice(r: ToolResult) {
    Contains(r.stdout, NoDevicePhrase)
  }

  /** A value that may be absent (Python's `None`). */
  datatype Option<T> = None | Some(value: T)
}
