/** The handlers of the full management GUI: the device clock, the set-time
    sequence, the SD-card listing and saving the metadata record on the device. */
module ManagementApp {
  import opened PyStr
  import opened Tool
  import opened Clock
  import opened SdCard
  import opened Metadata
  import opened Upload

  const SetClockCommand: string := "mpremote rtc --set"
  const RunSetTimeCommand: string := "mpremote run set_rtc_time.py"

  // ---------------------------------------------------------------- set time

  /** How setting the device clock ends. */
  datatype SetTimeOutcome = NotConnected | FirstFailed(output: string) | SecondFailed(output: string) | TimeSet

  /** The second command runs only when the first neither reported a missing
      device nor failed. */
  predicate SecondStepRuns(r1: ToolResult) {
    !NoDevice(r1) && r1.returncode == 0
  }

  /** The outcome of the two commands, `r2` being what the second gives back
      if it runs. */
  function SetTimeOutcomeOf(r1: ToolResult, r2: ToolResult): SetTimeOutcome {
    if NoDevice(r1) then NotConnected
    else if r1.returncode != 0 then FirstFailed(Strip(r1.stdout))
    else if NoDevice(r2) then NotConnected
    else if r2.returncode == 0 then TimeSet
    else SecondFailed(Strip(r2.stdout))
  }

  function SetTimeText(o: SetTimeOutcome): string {
    match o
    case NotConnected => "No device found"
    case FirstFailed(out) => out
    case SecondFailed(out) => out
    case TimeSet => "Device time was set"
  }

  /** The time is reported set exactly when both commands ran cleanly. */
  lemma TimeSetIff(r1: ToolResult, r2: ToolResult)
    ensures SetTimeOutcomeOf(r1, r2) == TimeSet <==> SecondStepRuns(r1) && !NoDevice(r2) && r2.returncode == 0
  {
  }

  /** When the second command does not run, its result cannot matter; the
      missing-device phrase wins over the exit status at either step. */
  lemma FirstStepDecides(r1: ToolResult, r2: ToolResult, other: ToolResult)
    ensures !SecondStepRuns(r1) ==> SetTimeOutcomeOf(r1, r2) == SetTimeOutcomeOf(r1, other)
    ensures NoDevice(r1) ==> SetTimeOutcomeOf(r1, r2) == NotConnected
    ensures SecondStepRuns(r1) && NoDevice(r2) ==> SetTimeOutcomeOf(r1, r2) == NotConnected
  {
  }

  // ---------------------------------------------------------------- connection probe

  /** `check_device_connection` of the management GUI (its only call is
      commented out): connected when the tool exits 0 and prints "connected",
      unless it also printed the missing-device phrase. */
  function DeviceConnected(r: ToolResult): bool {
    if NoDevice(r) then false else r.returncode == 0 && Contains(r.stdout, "connected")
  }

  /** The probe never reports a device that the tool says is missing, and it
      agrees with the exit status and the "connected" output otherwise. */
  lemma ProbeAgrees(r: ToolResult)
    ensures NoDevice(r) ==> !DeviceConnected(r)
    ensures !NoDevice(r) ==> (DeviceConnected(r) <==> r.returncode == 0 && Contains(r.stdout, "connected"))
  {
  }

  // ---------------------------------------------------------------- save on device

  /** What the interpreter says about the name used at the copy's error branch. */
  const UnboundResult2: string := "name 'result2' is not defined"
  /** What the interpreter says about the three-argument `showerror` call. */
  const BadShowErrorCall: string := "showerror() takes from 0 to 2 positional arguments but 3 were given"

  function UploadCommand(tempName: string): string {
    "mpremote cp \"" + tempName + "\" :info.json"
  }

  /** The dialog of `generate_and_save_to_device` as the code is written: with
      no record the error call itself fails; a failed copy reaches an unbound
      name; both end in the catch-all dialog. */
  function SaveDialogAsWritten(outcome: Collected, copy: Invocation): UploadDialog {
    if !outcome.Built? then GenericError(BadShowErrorCall)
    else match copy
      case Finished(r) => if r.returncode == 0 then UploadSucceeded else GenericError(UnboundResult2)
      case Raised(TimeoutExpired, _) => TimeoutError
      case Raised(_, message) => GenericError(message)
  }

  /** As written, no failed copy is ever reported as such: neither the
      missing-device dialog nor the tool's error output can appear. */
  lemma CopyFailureHidden(outcome: Collected, r: ToolResult)
    requires outcome.Built? && r.returncode != 0
    ensures SaveDialogAsWritten(outcome, Finished(r)) == GenericError(UnboundResult2)
  {
  }

  /** A concrete case: the tool says the device is missing and exits 1. */
  lemma NoDeviceCopyAsWritten(outcome: Collected)
    requires outcome.Built?
    ensures SaveDialogAsWritten(outcome, Finished(ToolResult("no device found", 1, ""))) != NoDeviceError
  {
  }

  /** With no record the three-argument call never shows its own dialog. */
  lemma MissingInputHidden(outcome: Collected, copy: Invocation)
    requires !outcome.Built?
    ensures SaveDialogAsWritten(outcome, copy) != MissingInputError
  {
  }

  /** The evidently intended dialog: the missing-input error when there is no
      record; for a failed copy the missing-device dialog when the tool says
      so, otherwise its error output. */
  function SaveDialog(outcome: Collected, copy: Invocation): (d: UploadDialog)
    ensures !outcome.Built? ==> d == MissingInputError
    ensures outcome.Built? && copy.Finished? && copy.result.returncode != 0 ==>
      d == (if NoDevice(copy.result) then NoDeviceError else UploadFailed(copy.result.stderr))
  {
    if !outcome.Built? then MissingInputError
    else match copy
      case Finished(r) =>
        if r.returncode == 0 then UploadSucceeded
        else if NoDevice(r) then NoDeviceError
        else UploadFailed(r.stderr)
      case Raised(TimeoutExpired, _) => TimeoutError
      case Raised(_, message) => GenericError(message)
  }

  /** The intended dialog differs from the written one only where the written
      one breaks, and success is reported exactly when the copy exits 0. */
  lemma SaveDialogRepairs(outcome: Collected, copy: Invocation)
    ensures outcome.Built? && (copy.Raised? || copy.result.returncode == 0)
      ==> SaveDialog(outcome, copy) == SaveDialogAsWritten(outcome, copy)
    ensures SaveDialog(outcome, copy) == UploadSucceeded
      <==> outcome.Built? && copy.Finished? && copy.result.returncode == 0
  {
  }

  // ---------------------------------------------------------------- the window

  const DeviceTimePrefix: string := "Device Time:\n"
  const SetTimePrefix: string := "Set Time Result:\n"
  const ListPrompt: string := "Click 'Get SD Card Files' to load"

  /** The widgets the handlers update. A handler whose tool invocation raises
      lets the exception escape and changes nothing. */
  class ManagementGui {
    var deviceTimeLabel: string
    var setTimeLabel: string
    var listbox: seq<string>
    var downloadEnabled: bool

    constructor ()
      ensures deviceTimeLabel == DeviceTimePrefix + "Click button to check"
      ensures setTimeLabel == SetTimePrefix + "Click button to set time"
      ensures listbox == [ListPrompt] && !downloadEnabled
    {
      deviceTimeLabel := DeviceTimePrefix + "Click button to check";
      setTimeLabel := SetTimePrefix + "Click button to set time";
      listbox := [ListPrompt];
      downloadEnabled := false;
    }

    /** `get_device_time`. */
    method GetDeviceTime(run: Invocation) returns (command: string)
      modifies this
      ensures command == ReadClockCommand
      ensures run.Finished? ==> deviceTimeLabel == DeviceTimePrefix + ClockReading(run.result)
      ensures run.Raised? ==> deviceTimeLabel == old(deviceTimeLabel)
      ensures setTimeLabel == old(setTimeLabel) && listbox == old(listbox) && downloadEnabled == old(downloadEnabled)
    {
      command := ReadClockCommand;
      if run.Finished? {
        deviceTimeLabel := DeviceTimePrefix + ClockReading(run.result);
      }
    }

    /** `set_device_time`: the second command is run only after a clean first
        one; `run2` is what it gives back if it runs. */
    method SetDeviceTime(run1: Invocation, run2: Invocation) returns (commands: seq<string>)
      modifies this
      ensures commands == [SetClockCommand]
        + (if run1.Finished? && SecondStepRuns(run1.result) then [RunSetTimeCommand] else [])
      ensures run1.Finished? && run2.Finished? ==>
        setTimeLabel == SetTimePrefix + SetTimeText(SetTimeOutcomeOf(run1.result, run2.result))
      ensures run1.Finished? && !SecondStepRuns(run1.result) ==>
        setTimeLabel == SetTimePrefix + (if NoDevice(run1.result) then "No device found" else Strip(run1.result.stdout))
      ensures run1.Raised? || (SecondStepRuns(run1.result) && run2.Raised?) ==> setTimeLabel == old(setTimeLabel)
      ensures deviceTimeLabel == old(deviceTimeLabel) && listbox == old(listbox) && downloadEnabled == old(downloadEnabled)
    {
      commands := [SetClockCommand];
      if run1.Raised? {
        return;
      }
      var r1 := run1.result;
      if NoDevice(r1) {
        setTimeLabel := SetTimePrefix + "No device found";
        return;
      } else if r1.returncode != 0 {
        setTimeLabel := SetTimePrefix + Strip(r1.stdout);
        return;
      }
      commands := commands + [RunSetTimeCommand];
      if run2.Raised? {
        return;
      }
      var r2 := run2.result;
      if NoDevice(r2) {
        setTimeLabel := SetTimePrefix + "No device found";
      } else if r2.returncode == 0 {
        setTimeLabel := SetTimePrefix + "Device time was set";
      } else {
        setTimeLabel := SetTimePrefix + Strip(r2.stdout);
      }
    }

    /** `get_sd_files`: the listbox is replaced in every branch. */
    method GetSdFiles(run: Invocation) returns (command: string)
      modifies this
      ensures command == ListCommand
      ensures run.Finished? ==> ListingView(listbox, downloadEnabled) == ListingViewOf(run.result)
      ensures run.Raised? ==> listbox == old(listbox) && downloadEnabled == old(downloadEnabled)
      ensures deviceTimeLabel == old(deviceTimeLabel) && setTimeLabel == old(setTimeLabel)
    {
      command := ListCommand;
      if run.Raised? {
        return;
      }
      var r := run.result;
      if NoDevice(r) {
        listbox, downloadEnabled := [NoDeviceEntry], false;
      } else if r.returncode == 0 {
        var files := ParseListing(r.stdout);
        if files != [] {
          listbox, downloadEnabled := files, true;
        } else {
          listbox, downloadEnabled := [NoFilesEntry], false;
        }
      } else {
        listbox, downloadEnabled := [ReadErrorEntry], false;
      }
    }
  }

  /** `generate_and_save_to_device`, with the dialog it evidently means to
      show: the form is read; only with a record is a temporary file written,
      copied as `info.json` and then removed, whatever the copy did. */
  method SaveToDevice(form: MetadataForm, proceed: bool, parse: string -> Option<real>, now: string,
                      tempName: string, copy: Invocation)
    returns (dialog: UploadDialog, trace: seq<UploadStep>)
    ensures var outcome := CollectOutcome(form.Text(), proceed, parse, now);
      dialog == SaveDialog(outcome, copy)
      && (outcome.Built? ==> trace == [FormRead] + CopySteps(UploadCommand(tempName)))
      && (!outcome.Built? ==> trace == [FormRead])
    ensures TempCleanedUp(trace)
  {
    var outcome, _, _ := form.Collect(proceed, parse, now);
    trace := [FormRead];
    if !outcome.Built? {
      return MissingInputError, trace;
    }
    CopyStepsCleanUp(trace, UploadCommand(tempName));
    trace := trace + CopySteps(UploadCommand(tempName));
    dialog := SaveDialog(outcome, copy);
  }
}
