/** What saving the metadata record on the device shows and does, shared by
    the management GUI and the metadata generator. */
module Upload {
  import opened PyStr
  import opened Tool

  /** The dialog a save ends with. `GenericError` is the catch-all
      "An error occurred: <detail>". */
  datatype UploadDialog =
    | NoUploadDialog
    | UploadSucceeded
    | UploadFailed(stderr: string)
    | NoDeviceError
    | DeviceNotConnectedError
    | MissingInputError
    | TimeoutError
    | GenericError(detail: string)

  /** The side effects of a save, in order. */
  datatype UploadStep = Probed | FormRead | TempCreated | Ran(command: string) | TempRemoved

  /** A temporary file that was created is removed once, as the last step,
      and nothing is removed that was not created. */
  predicate TempCleanedUp(trace: seq<UploadStep>) {
    multiset(trace)[TempCreated] == multiset(trace)[TempRemoved] <= 1
    && (TempCreated in trace ==> trace[|trace| - 1] == TempRemoved)
  }

  /** What the copy of the temporary file shows: exit 0 is success, any other
      exit the tool's error output; a timeout and any other exception get
      their own dialogs. */
  function CopyDialog(copy: Invocation): (d: UploadDialog)
    ensures d == UploadSucceeded <==> copy.Finished? && copy.result.returncode == 0
    ensures d.UploadFailed? <==> copy.Finished? && copy.result.returncode != 0
    ensures d.UploadFailed? ==> d.stderr == copy.result.stderr
    ensures copy.Raised? ==> d == (if copy.error == TimeoutExpired then TimeoutError else GenericError(copy.message))
  {
    match copy
    case Finished(r) => if r.returncode == 0 then UploadSucceeded else UploadFailed(r.stderr)
    case Raised(TimeoutExpired, _) => TimeoutError
    case Raised(_, message) => GenericError(message)
  }

  /** The steps of a save that got a record: create, copy, remove. */
  function CopySteps(command: string): seq<UploadStep> {
    [TempCreated, Ran(command), TempRemoved]
  }

  /** Whatever came before, the copy steps clean up after themselves. */
  lemma CopyStepsCleanUp(before: seq<UploadStep>, command: string)
    requires TempCreated !in before && TempRemoved !in before
    ensures TempCleanedUp(before + CopySteps(command))
    ensures TempCleanedUp(before)
  {
    assert multiset(before + CopySteps(command)) == multiset(before) + multiset{TempCreated, Ran(command), TempRemoved};
  }
}
