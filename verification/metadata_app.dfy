/** The save-on-device handler of the metadata generator: probe the device,
    read the form, then write, copy and remove a temporary file. */
module MetadataApp {
  import opened PyStr
  import opened Tool
  import opened Metadata
  import opened Upload

  /** What the connection probe gives back: an answer, or an exception it
      does not catch. */
  datatype Probe = Answer(connected: bool) | Escaped(message: string)

  /** `check_device_connection`: a run that exits 0 and prints "connected";
      a timeout or a missing tool count as not connected; any other exception
      escapes. */
  function CheckConnection(run: Invocation): (p: Probe)
    ensures p == Answer(true) <==> run.Finished? && run.result.returncode == 0 && Contains(run.result.stdout, "connected")
    ensures p.Escaped? <==> run.Raised? && run.error == OtherError
  {
    match run
    case Finished(r) => Answer(r.returncode == 0 && Contains(r.stdout, "connected"))
    case Raised(TimeoutExpired, _) => Answer(false)
    case Raised(ToolNotFound, _) => Answer(false)
    case Raised(OtherError, message) => Escaped(message)
  }

  /** The copy command; the tool is given the arguments as a list, shown
      here joined by blanks. */
  function UploadCommand(tempName: string): string {
    "mpremote cp " + tempName + " :info.json"
  }

  /** The part after the form was read: nothing without a record; with one,
      the temporary file is written, copied and removed. */
  method UploadRecord(outcome: Collected, tempName: string, copy: Invocation)
    returns (dialog: UploadDialog, steps: seq<UploadStep>)
    ensures !outcome.Built? ==> dialog == NoUploadDialog && steps == []
    ensures outcome.Built? ==> dialog == CopyDialog(copy) && steps == CopySteps(UploadCommand(tempName))
  {
    if !outcome.Built? {
      return NoUploadDialog, [];
    }
    steps := CopySteps(UploadCommand(tempName));
    dialog := CopyDialog(copy);
  }

  /** `generate_and_save_to_device`: the probe comes first and the form is
      read only for a connected device; a temporary file exists only for a
      record, and it is removed after the copy whatever the copy did;
      success is reported exactly when the copy exits 0. */
  method SaveToDevice(form: MetadataForm, probe: Invocation, proceed: bool, parse: string -> Option<real>,
                      now: string, tempName: string, copy: Invocation)
    returns (dialog: UploadDialog, trace: seq<UploadStep>)
    ensures trace != [] && trace[0] == Probed
    ensures FormRead in trace <==> CheckConnection(probe) == Answer(true)
    ensures CheckConnection(probe) != Answer(true) ==> trace == [Probed]
    ensures CheckConnection(probe) == Answer(false) ==> dialog == DeviceNotConnectedError
    ensures CheckConnection(probe).Escaped? ==> dialog == GenericError(CheckConnection(probe).message)
    ensures var outcome := CollectOutcome(form.Text(), proceed, parse, now);
      CheckConnection(probe) == Answer(true) ==>
        (!outcome.Built? ==> dialog == NoUploadDialog && trace == [Probed, FormRead])
        && (outcome.Built? ==> dialog == CopyDialog(copy) && trace == [Probed, FormRead] + CopySteps(UploadCommand(tempName)))
    ensures dialog == UploadSucceeded <==> (CheckConnection(probe) == Answer(true)
      && CollectOutcome(form.Text(), proceed, parse, now).Built? && copy.Finished? && copy.result.returncode == 0)
    ensures TempCleanedUp(trace)
  {
    trace := [Probed];
    CopyStepsCleanUp(trace, UploadCommand(tempName));
    var p := CheckConnection(probe);
    if p.Escaped? {
      return GenericError(p.message), trace;
    }
    if !p.connected {
      return DeviceNotConnectedError, trace;
    }
    var outcome, _, _ := form.Collect(proceed, parse, now);
    trace := trace + [FormRead];
    var steps;
    dialog, steps := UploadRecord(outcome, tempName, copy);
    CopyStepsCleanUp(trace, UploadCommand(tempName));
    assert trace == [Probed, FormRead];
    trace := trace + steps;
    assert FormRead in trace by {
      assert trace[1] == FormRead;
    }
  }
}
