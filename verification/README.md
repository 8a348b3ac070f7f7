# Datalogger front-ends: a Dafny model

Three Tkinter windows drive a Raspberry Pi Pico datalogger through the
`mpremote` command-line tool:

- `full_datalogger_management_gui.py`, the management window, does these things:
  - reads and sets the device clock;
  - lists the SD card and downloads a selection of its files;
  - edits a six-field metadata form, imports it from a JSON file and saves it on the device as `info.json`.
- `generate_metadata_file.py`, the metadata generator, has the same form. It checks the connection before saving.
- `datalogger-gui.py`, the first datalogger window, lists the card, downloads one selected file and resets the device-time label.

This project models the decision logic of those event handlers.

- Each call of the tool is an input: a `Tool.ToolResult` (stdout, exit status, stderr), or an exception it raised.
- The user's answers are plain parameters: the listbox selection and the yes/no answer to the missing-values warning.
- Widgets that the handlers update in place are classes. Their fields are the label texts, the listbox entries, the download button's state and the six entry texts. Each method states the new state of every field.
- The parsing, classification and record-building steps are functions. Lemmas relate them to independent characterisations: round trips, if-and-only-if statements, and order and count invariants.

Modules:

- `PyStr` gives Python's `str` operations the handlers use, on `seq<char>`: `strip`, `split()`, `split(sep)`, `splitlines`, `in`, `startswith`, `re.findall(r'\d+')`, `int`/`str` of naturals and the `02d` format.
- `Tool` holds the tool result, the ways an invocation ends, and the "no device found" test.
- `Clock` is the clock read.
- `SdCard` is the card listing and the batch download.
- `Metadata` has the form, the record builder, the importer and their round trip.
- `Upload` has the dialogs of a save and its temporary-file trace.
- `ManagementApp` and `MetadataApp` hold the handlers of the two windows that save metadata.
- `LoggerApp` is the first datalogger window.

## Model

| member | source | states |
|---|---|---|
| Clock.ClockReading | full_datalogger_management_gui.py:30-31 | When stdout contains "no device found", the clock reads "No device found", whatever the exit status |
| Clock.ClockFromLastThreeRuns | full_datalogger_management_gui.py:32-44 | With exit 0 and at least three digit runs in the stripped output, the text is three ':'-separated fields printed as `02d`: at least two digits, with a leading zero only when padding to exactly two. They read as the third-last, second-last and last runs |
| Clock.FormatHmsFields | full_datalogger_management_gui.py:43 | The `HH:MM:SS` text splits at ':' back into the hours, minutes and seconds, each printed as `02d` |
| Clock.ClockRawFallback | full_datalogger_management_gui.py:45-49 | Without the phrase, a nonzero exit or fewer than three runs shows the stripped output as it is |
| Clock.ExampleRuns | full_datalogger_management_gui.py:34 | The digit runs of "x 14 30 5" are "14", "30", "5" |
| Clock.ClockExample | full_datalogger_management_gui.py:30-44 | Output "x 14 30 5" with exit 0 reads "14:30:05" |
| PyStr.Pad2 | full_datalogger_management_gui.py:43 | `02d` gives at least two digits, exactly two below 100, plain `str(n)` from 10 up, and a leading zero only when padding to two |
| PyStr.Pad2Value | full_datalogger_management_gui.py:43 | A number printed with `02d` reads back as the same number |
| SdCard.FileName | full_datalogger_management_gui.py:71-72 | One leading "sd/" is removed; any other line is kept as it is |
| SdCard.FilesIn | full_datalogger_management_gui.py:62-73 | The listing is never longer than the number of lines |
| SdCard.ListedIff | full_datalogger_management_gui.py:64-73 | A name is listed iff some stripped line is nonempty, is not the "ls :" banner and is not ":sd/", and stands for that name |
| SdCard.FilesInAppend | full_datalogger_management_gui.py:64-73 | The listing of two blocks of lines is the first block's listing followed by the second's, so names keep the order of their lines |
| SdCard.ParseListing | full_datalogger_management_gui.py:62-73 | The loop collects exactly the listing of the stripped output cut at '\n' |
| SdCard.ListingViewOf | full_datalogger_management_gui.py:56-87 | The listbox is never empty. Download is enabled iff there is no phrase, exit is 0 and the listing is nonempty, and then the entries are the names. The phrase gives "No device found". A successful but empty listing gives "No files found on SD card". A nonzero exit gives "Error reading SD card". Download is disabled in all three cases |
| SdCard.FateOf | full_datalogger_management_gui.py:113-126 | A file is fetched iff its copy ran and exited 0. A failure line starts with "<name>: " |
| SdCard.VerdictByEmptiness | full_datalogger_management_gui.py:129-139 | Complete, partial, failed or silent is decided only by which of the two lists are empty, in both directions |
| SdCard.FatesPartition | full_datalogger_management_gui.py:119-126 | Every attempted copy lands in exactly one of the two lists |
| SdCard.StepAccounts | full_datalogger_management_gui.py:105-126 | A step that does not raise adds its entry's copy, if any, to the attempts. The commands stay one per attempt, and the lists stay the fetched names and failure lines of the attempts |
| SdCard.BatchAccounts | full_datalogger_management_gui.py:105-126 | Until an entry raises, there is one copy command per attempt, in selection order. `downloaded` is the names of the attempts whose copy exited 0, and `failed` is the failure lines of the others, both in selection order. Each attempt is in exactly one of them |
| SdCard.OnlyPlaceholders | full_datalogger_management_gui.py:108-110 | Selecting only the three message entries runs no command and shows no dialog |
| SdCard.CrashIsFinal | full_datalogger_management_gui.py:112 | Once an entry has raised, later entries change nothing |
| SdCard.ShortEntryRaises | full_datalogger_management_gui.py:112 | An entry of fewer than two words raises outside the `try`, so no summary dialog appears |
| SdCard.TwoWords | full_datalogger_management_gui.py:112 | The entry "<size> <name>" splits into exactly those two words |
| SdCard.StepOnEntry | full_datalogger_management_gui.py:112-126 | A "<size> <name>" entry runs the copy of `<name>`. Its name goes to downloaded, or its failure line to failed |
| SdCard.ThreeFilesSecondFails | full_datalogger_management_gui.py:105-139 | With three files selected and the second copy failing, all three copies run in order, two files are fetched and the dialog is the partial one |
| SdCard.DownloadSelected | full_datalogger_management_gui.py:89-139 | An empty selection runs nothing and warns. Otherwise the loop's commands and dialog are those of the batch over the whole selection |
| Metadata.BlanksInOrder | full_datalogger_management_gui.py:238-250 | The missing-field list keeps form order |
| Metadata.BlanksIff | full_datalogger_management_gui.py:238-250 | For distinct labels, a label is listed iff its value is blank |
| Metadata.ListedAreLabels | full_datalogger_management_gui.py:238-250 | Only field labels are listed |
| Metadata.MissingNamesBlanks | full_datalogger_management_gui.py:238-250 | "Latitude", "Longitude", "Named Location", "Device Name", "Description" and "Timestep" are named iff that field is blank, in that order |
| Metadata.NothingMissing | full_datalogger_management_gui.py:253 | The warning is skipped iff every field is filled in |
| Metadata.MissingByChecks | full_datalogger_management_gui.py:238-250 | The six appends in turn build exactly the missing-field list |
| Metadata.ListMissing | generate_metadata_file.py:82-94 | The appends give the blank fields' labels in form order |
| Metadata.NumberValue | full_datalogger_management_gui.py:265-266 | A blank number is the integer 9999. Otherwise it is the parsed value, or a failure when `float` fails |
| Metadata.NameCheckedFirst | full_datalogger_management_gui.py:227-235 | A nonblank stripped name containing ' ' is refused first, whatever the other fields, the answer or the parser |
| Metadata.DeclineNeedsMissing | full_datalogger_management_gui.py:253-260 | Collection ends as declined iff the name passed, something is missing and the user said no |
| Metadata.BuiltIff | generate_metadata_file.py:61-120 | A record is built iff the name passed, nothing is missing or the user went on, and each filled-in number parses |
| Metadata.BuiltRecord | full_datalogger_management_gui.py:263-272 | The record has the seven keys. Blank numbers are int 9999 and filled ones are their parsed value. Blank texts are "9999" and filled ones are the stripped text. `generated_at` is the clock value |
| Metadata.RefillIff | full_datalogger_management_gui.py:189-206 | A field is refilled iff its key is present, not null and not its kind's sentinel (9999 or 9999.0 for numbers, "9999" for text). A text comes back as stored |
| Metadata.ImportedNumber | full_datalogger_management_gui.py:190-194 | A saved number imports as blank iff it was blank or parsed to 9999; otherwise it imports as `str` of its value |
| Metadata.CollectedThenImported | generate_metadata_file.py:9-120 | Round trip: importing the record that collecting a form gives restores each text field as stripped, except the literal "9999", which comes back blank. A number comes back blank iff it was blank or parsed to 9999; otherwise it comes back as `str` of its parsed value |
| Metadata.SavedThenImported | generate_metadata_file.py:26-50 | Round trip: saving then importing gives back every filled text field except the literal "9999". Numbers come back per ImportedNumber |
| Metadata.MetadataForm.Collect | full_datalogger_management_gui.py:217-276 | The outcome is that of `collect_sensor_data` on the entry texts. The warning appears iff the name passed and something is blank, and it lists the missing fields. The metadata generator's handler (generate_metadata_file.py lines 61-120) is the same |
| Metadata.MetadataForm.Clear | full_datalogger_management_gui.py:182-187 | All six entries are emptied |
| Metadata.MetadataForm.RefillFrom | full_datalogger_management_gui.py:189-206 | Starting from empty entries, each entry holds its refill, or stays empty |
| Metadata.MetadataForm.ImportJson | full_datalogger_management_gui.py:165-215 | A cancelled, unparsable or unreadable file leaves the form as it was. A non-object clears it. A loaded object clears and refills it, then reports success. The metadata generator's handler (generate_metadata_file.py lines 9-59) is the same |
| Upload.CopyDialog | generate_metadata_file.py:174-194 | Success is shown iff the copy exits 0, the upload error iff it exits nonzero, and that dialog carries the copy's stderr. A timeout gets its own dialog |
| Upload.CopyStepsCleanUp | generate_metadata_file.py:169-189 | Create, copy and remove leave no temporary file behind, and the removal is the last step |
| ManagementApp.TimeSetIff | full_datalogger_management_gui.py:147-163 | "Device time was set" iff the first command is clean and the second lacks the phrase and exits 0 |
| ManagementApp.FirstStepDecides | full_datalogger_management_gui.py:147-159 | When the second command does not run, its result cannot matter. The phrase wins over the exit status at either step |
| ManagementApp.ProbeAgrees | full_datalogger_management_gui.py:278-284 | The phrase means not connected. Otherwise connected iff exit 0 and stdout contains "connected" |
| ManagementApp.CopyFailureHidden | full_datalogger_management_gui.py:334-342 | As written, every nonzero copy exit ends in the generic error about the unbound `result2` |
| ManagementApp.NoDeviceCopyAsWritten | full_datalogger_management_gui.py:338-339 | As written, "no device found" with exit 1 never shows the no-device dialog |
| ManagementApp.MissingInputHidden | full_datalogger_management_gui.py:319-322 | As written, the missing-input dialog never appears |
| ManagementApp.SaveDialog | full_datalogger_management_gui.py:319-351 | Intended dialog: missing input without a record. For a failed copy, the no-device dialog when the phrase is there, otherwise stderr |
| ManagementApp.SaveDialogRepairs | full_datalogger_management_gui.py:329-351 | The intended dialog agrees with the written one wherever the written one works. Success is shown iff a record was built and the copy exited 0 |
| ManagementApp.ManagementGui.constructor | full_datalogger_management_gui.py:422-456 | Initial label texts, the prompt entry, download disabled |
| ManagementApp.ManagementGui.GetDeviceTime | full_datalogger_management_gui.py:25-49 | It runs `mpremote run read_rtc_time.py`. The label becomes "Device Time:\n" plus the clock reading. A raised invocation changes nothing |
| ManagementApp.ManagementGui.SetDeviceTime | full_datalogger_management_gui.py:141-163 | The second command runs only after a clean first one. The label shows the outcome; other widgets are unchanged |
| ManagementApp.ManagementGui.GetSdFiles | full_datalogger_management_gui.py:51-87 | It runs `mpremote connect auto run read_sd.py fs ls sd/`. The listbox and button become the listing view of the result. A raised invocation changes nothing |
| ManagementApp.SaveToDevice | full_datalogger_management_gui.py:309-351 | Without a record, the form is read and nothing else happens. With one, the trace is: form read, temporary file created, copy run, file removed. The dialog is the intended one |
| MetadataApp.CheckConnection | generate_metadata_file.py:122-130 | Connected iff exit 0 and stdout contains "connected". A timeout or missing tool means not connected; other exceptions escape |
| MetadataApp.UploadRecord | generate_metadata_file.py:165-189 | No record: no file and no dialog. A record: create, copy, remove, and the copy's dialog |
| MetadataApp.SaveToDevice | generate_metadata_file.py:155-194 | The probe comes first, and the form is read iff the device answered connected. A refused or failed probe does nothing else. Otherwise, without a record the trace ends there; with one it continues with create, copy, remove. Success is shown iff connected, built and the copy exited 0 |
| LoggerApp.LastTokenIdempotent | datalogger-gui.py:24 | The entry is one word, so taking its last word again gives it back |
| LoggerApp.FirstBlank | datalogger-gui.py:23-24 | The lines before the first word-less line all have words. The loop raises at that line |
| LoggerApp.Tokens | datalogger-gui.py:23-24 | One entry per line, in order, each the last word of its line |
| LoggerApp.CopyCommandWords | datalogger-gui.py:34 | The copy command is exactly six words: mpremote, run, read_sd.py, cp, ":sd/<tok>", `<tok>` |
| LoggerApp.LoggerGui.constructor | datalogger-gui.py:82-108 | Initial hidden time "--:--:--", button text "Download selected file", empty listbox |
| LoggerApp.LoggerGui.RunCommand | datalogger-gui.py:15-24 | It runs the card listing command. The listbox becomes the last words of the lines before the first word-less line. It raises iff such a line exists. Empty output leaves the listbox empty and does not raise |
| LoggerApp.LoggerGui.SaveSelected | datalogger-gui.py:26-35 | The "No Selection" warning appears iff nothing is selected, and then no command runs. Otherwise only the first selected entry's copy command runs |
| LoggerApp.LoggerGui.UpdateButtonText | datalogger-gui.py:44-50 | "Download '<tok>' from device " for the first selected entry, which never reads like the no-selection text. "Download selected item" with no selection |
| LoggerApp.LoggerGui.HideTime | datalogger-gui.py:62-63 | The device-time label becomes "--:--:--"; nothing else changes |

## Left out

- Window layout, fonts, `mainloop` and the `root.after` timers are not modelled. That covers the computer-clock refresh, `update_time`, `display_device_time` and the soft-reset polling loop of `soft_reset_device`.
- `generate_and_save_to_computer` and `save_file` are not modelled. They write a user-chosen file through a file dialog.
- `subprocess.run` itself is not modelled: shell quoting, the working directory and the timeouts. Each invocation's result, or the exception it raised, is an input.
- A handler that does not catch an exception from its invocation (clock read, listing, set time) leaves its widgets unchanged; the traceback is not modelled.
- The filesystem is not modelled: `tempfile`, `os.makedirs("data")`, `os.unlink`, `open` and the file dialogs. The temporary file appears only as create and remove steps in a trace. The import's choice of file is the `ImportSource` input.
- JSON text encoding and decoding (`json.load`, `json.dump`) are not modelled. A document is a map from keys to JSON values; arrays and objects are kept opaque.
- Floating point is not modelled. `float()` is the `parse` oracle and `str()` of a float is the `showFloat` oracle. NaN and infinities are not modelled.
- The `generated_at` timestamp from `datetime.now().isoformat()` is the `now` parameter.
- Message-box rendering and `print` output are not modelled. Dialogs are datatype values, and the user's yes/no answer is a parameter.
- Metadata.MetadataForm.RefillFrom inserts non-string JSON values into a text entry as their Python `str`. Tk's own conversion of such values is not modelled.
- Whitespace is the ASCII `isspace` set (with `\x1c`–`\x1f`), and `\d` is the ASCII digits. Other Unicode whitespace and digits are not modelled.
- SdCard.DownloadSelected takes the selection as given. Tk returns it sorted; the model does not require that.
- ManagementApp.SaveToDevice uses the intended dialog (`ManagementApp.SaveDialog`), not the written one. The written one is `ManagementApp.SaveDialogAsWritten`; see Findings.
- The management window's `check_device_connection` is modelled as `ManagementApp.DeviceConnected`. Its only call is commented out, so `ManagementApp.SaveToDevice` does not probe.

## Findings

| source | as written | input that shows it | evidently intended | confidence | as-written member | corrected member |
|---|---|---|---|---|---|---|
| full_datalogger_management_gui.py:338 | the failed-copy branch reads `result2.stdout`, and no `result2` exists in that function | a copy that exits 1 with stdout "no device found" | the no-device dialog when the phrase is there; otherwise the upload error with the tool's stderr | high, not executed | ManagementApp.CopyFailureHidden | ManagementApp.SaveDialogRepairs |
| full_datalogger_management_gui.py:321 | `showerror` is called with three positional arguments, so it raises and the catch-all dialog appears instead | any form that yields no record, e.g. a declined missing-values warning | the missing-input error dialog | high, not executed | ManagementApp.MissingInputHidden | ManagementApp.SaveDialog |
