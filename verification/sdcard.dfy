/** The SD-card listing (`get_sd_files`) and the batch download
    (`download_selected_files`) of the full management GUI. */
module SdCard {
  import opened PyStr
  import opened Tool

  const ListCommand: string := "mpremote connect auto run read_sd.py fs ls sd/"

  const NoDeviceEntry: string := "No device found"
  const NoFilesEntry: string := "No files found on SD card"
  const ReadErrorEntry: string := "Error reading SD card"

  // ---------------------------------------------------------------- listing

  /** A stripped line names a file unless it is blank, the listing banner
      ("ls :..."), or the directory echo ":sd/". */
  predicate IsFileLine(t: string) {
    t != "" && !StartsWith(t, "ls :") && t != ":sd/"
  }

  /** The name a kept line stands for: one leading "sd/" removed. */
  function FileName(t: string): (name: string)
    ensures StartsWith(t, "sd/") ==> "sd/" + name == t
    ensures !StartsWith(t, "sd/") ==> name == t
  {
    if StartsWith(t, "sd/") then t[3..] else t
  }

  /** The lines `get_sd_files` walks through: the stripped output cut at '\n'. */
  function ListingLines(stdout: string): (lines: seq<string>)
    ensures |lines| >= 1
  {
    SplitOn(Strip(stdout), '\n')
  }

  /** What one line contributes to the listing: its name, or nothing. */
  function Kept(line: string): (names: seq<string>)
    ensures |names| <= 1
  {
    var t := Strip(line);
    if IsFileLine(t) then [FileName(t)] else []
  }

  /** The line at `i` is a file line standing for `name`. */
  predicate ListsAt(lines: seq<string>, i: int, name: string)
    requires 0 <= i < |lines|
  {
    Kept(lines[i]) == [name]
  }

  /** The names listed by `lines`, in order; never more than there are lines. */
  function FilesIn(lines: seq<string>): (files: seq<string>)
    ensures |files| <= |lines|
    decreases |lines|
  {
    if lines == [] then [] else FilesIn(lines[..|lines| - 1]) + Kept(lines[|lines| - 1])
  }

  /** A name some line stands for is listed. */
  lemma {:induction false} ListedFromLine(lines: seq<string>, i: nat, name: string)
    requires i < |lines| && ListsAt(lines, i, name)
    ensures name in FilesIn(lines)
    decreases |lines|
  {
    var n := |lines| - 1;
    FilesInSnoc(lines, n);
    assert lines[..n + 1] == lines;
    if i < n {
      ListedFromLine(lines[..n], i, name);
    }
  }

  /** A listed name comes from some line. */
  lemma {:induction false} LineOfListed(lines: seq<string>, name: string) returns (i: nat)
    requires name in FilesIn(lines)
    ensures i < |lines| && ListsAt(lines, i, name)
    decreases |lines|
  {
    var n := |lines| - 1;
    FilesInSnoc(lines, n);
    assert lines[..n + 1] == lines;
    if name in Kept(lines[n]) {
      i := n;
    } else {
      i := LineOfListed(lines[..n], name);
    }
  }

  /** A name is listed exactly when some line, stripped, is a file line that
      stands for it. */
  lemma ListedIff(lines: seq<string>, name: string)
    ensures name in FilesIn(lines) <==> exists i :: 0 <= i < |lines| && ListsAt(lines, i, name)
  {
    if name in FilesIn(lines) {
      var i := LineOfListed(lines, name);
    }
    if exists i :: 0 <= i < |lines| && ListsAt(lines, i, name) {
      var i :| 0 <= i < |lines| && ListsAt(lines, i, name);
      ListedFromLine(lines, i, name);
    }
  }

  /** Reading one more line extends the listing by that line's name, if any. */
  lemma FilesInSnoc(lines: seq<string>, i: nat)
    requires i < |lines|
    ensures FilesIn(lines[..i + 1]) == FilesIn(lines[..i]) + Kept(lines[i])
  {
    assert lines[..i + 1][..i] == lines[..i];
  }

  /** The listing of two blocks of lines is the listing of the first
      followed by that of the second: names keep the order of their lines. */
  lemma {:induction false} FilesInAppend(a: seq<string>, b: seq<string>)
    ensures FilesIn(a + b) == FilesIn(a) + FilesIn(b)
    decreases |b|
  {
    if b == [] {
      assert a + b == a;
    } else {
      var n := |b| - 1;
      FilesInAppend(a, b[..n]);
      JoinedLast(a, b[..n], b[n], FilesIn(a), FilesIn(b[..n]));
      AppendAssoc(FilesIn(a), FilesIn(b[..n]), Kept(b[n]));
      assert b[..n] + [b[n]] == b;
      FilesInSnoc(b, n);
      assert b[..n + 1] == b;
    }
  }

  lemma AppendAssoc(x: seq<string>, y: seq<string>, z: seq<string>)
    ensures x + (y + z) == (x + y) + z
  {
  }

  /** One more line after two blocks: the step of FilesInAppend. */
  lemma JoinedLast(a: seq<string>, b: seq<string>, line: string, fa: seq<string>, fb: seq<string>)
    requires FilesIn(a) == fa && FilesIn(b) == fb && FilesIn(a + b) == fa + fb
    ensures FilesIn(a + (b + [line])) == (fa + fb) + Kept(line)
  {
    var c := a + (b + [line]);
    var k := |c| - 1;
    assert c[..k] == a + b && c[k] == line && c[..k + 1] == c;
    FilesInSnoc(c, k);
  }

  /** The loop of `get_sd_files` that collects the names. */
  method ParseListing(stdout: string) returns (files: seq<string>)
    ensures files == FilesIn(ListingLines(stdout))
  {
    var lines := ListingLines(stdout);
    files := [];
    var i := 0;
    while i < |lines|
      invariant 0 <= i <= |lines|
      invariant files == FilesIn(lines[..i])
    {
      var line := Strip(lines[i]);
      ghost var before := files;
      if line != "" && !StartsWith(line, "ls :") && line != ":sd/" {
        if StartsWith(line, "sd/") {
          line := line[3..];
        }
        files := files + [line];
      }
      assert files == before + Kept(lines[i]);
      FilesInSnoc(lines, i);
      i := i + 1;
    }
    assert lines[..|lines|] == lines;
  }

  /** What the listbox and the download button show after a listing. */
  datatype ListingView = ListingView(entries: seq<string>, downloadEnabled: bool)

  /** The listbox is never left empty; downloading is enabled exactly when it
      holds the names of a successful, nonempty listing; the not-connected
      phrase wins over the exit status. */
  function ListingViewOf(r: ToolResult): (v: ListingView)
    ensures v.entries != []
    ensures v.downloadEnabled <==> !NoDevice(r) && r.returncode == 0 && FilesIn(ListingLines(r.stdout)) != []
    ensures v.downloadEnabled ==> v.entries == FilesIn(ListingLines(r.stdout))
    ensures NoDevice(r) ==> v == ListingView([NoDeviceEntry], false)
    ensures !NoDevice(r) && r.returncode == 0 && FilesIn(ListingLines(r.stdout)) == []
      ==> v == ListingView([NoFilesEntry], false)
    ensures !NoDevice(r) && r.returncode != 0 ==> v == ListingView([ReadErrorEntry], false)
  {
    if NoDevice(r) then ListingView([NoDeviceEntry], false)
    else if r.returncode == 0 then
      var files := FilesIn(ListingLines(r.stdout));
      if files != [] then ListingView(files, true) else ListingView([NoFilesEntry], false)
    else ListingView([ReadErrorEntry], false)
  }

  // ---------------------------------------------------------------- download

  /** Listbox texts that are messages rather than files; selecting them is ignored. */
  const Placeholders: seq<string> := [NoDeviceEntry, NoFilesEntry, ReadErrorEntry]

  function DownloadCommand(name: string): string {
    "mpremote run read_sd.py cp :sd/" + name + " data/" + name
  }

  /** How one file fares: fetched, or a failure line "name: reason". */
  datatype Fate = Fetched(name: string) | NotFetched(line: string)

  /** A copy that exits 0 fetched the file; any other exit or a raised
      invocation is a failure, reported with the stripped output or the
      exception text. */
  function FateOf(name: string, run: Invocation): (f: Fate)
    ensures f.Fetched? <==> run.Finished? && run.result.returncode == 0
    ensures f.Fetched? ==> f.name == name
    ensures f.NotFetched? ==> StartsWith(f.line, name + ": ")
  {
    match run
    case Finished(r) =>
      if r.returncode == 0 then Fetched(name) else NotFetched(name + ": " + Strip(r.stdout))
    case Raised(_, message) => NotFetched(name + ": " + message)
  }

  /** Which summary dialog closes the batch. */
  datatype Verdict = Complete | Partial | AllFailed | Silent

  function VerdictOf(downloaded: seq<string>, failed: seq<string>): Verdict {
    if downloaded != [] && failed == [] then Complete
    else if downloaded != [] then Partial
    else if failed != [] then AllFailed
    else Silent
  }

  /** The dialog depends only on which of the two lists are empty. */
  lemma VerdictByEmptiness(downloaded: seq<string>, failed: seq<string>)
    ensures VerdictOf(downloaded, failed) == Complete <==> downloaded != [] && failed == []
    ensures VerdictOf(downloaded, failed) == Partial <==> downloaded != [] && failed != []
    ensures VerdictOf(downloaded, failed) == AllFailed <==> downloaded == [] && failed != []
    ensures VerdictOf(downloaded, failed) == Silent <==> downloaded == [] && failed == []
  {
  }

  /** The loop's state: commands run, names fetched, failure lines, and
      whether an entry without a second word raised. */
  datatype Batch = Batch(commands: seq<string>, downloaded: seq<string>, failed: seq<string>, crashed: bool)

  const NoBatch: Batch := Batch([], [], [], false)

  /** One selected entry: placeholders are skipped; the second word of the
      entry is the file name (its first word is the size); an entry with fewer
      than two words raises, which ends the batch. */
  function Step(b: Batch, entry: string, run: Invocation): Batch {
    if b.crashed || entry in Placeholders then b
    else
      var words := Split(entry);
      if |words| < 2 then b.(crashed := true)
      else
        var cmds := b.commands + [DownloadCommand(words[1])];
        match FateOf(words[1], run)
        case Fetched(n) => b.(commands := cmds, downloaded := b.downloaded + [n])
        case NotFetched(l) => b.(commands := cmds, failed := b.failed + [l])
  }

  predicate ValidSelection(entries: seq<string>, selection: seq<nat>, runs: seq<Invocation>) {
    |runs| == |selection| && forall k :: 0 <= k < |selection| ==> selection[k] < |entries|
  }

  /** The state after the first `k` selected entries; `runs[k]` is what the
      copy for the `k`-th selected entry gives back, if it is run. */
  function BatchAfter(entries: seq<string>, selection: seq<nat>, runs: seq<Invocation>, k: nat): Batch
    requires ValidSelection(entries, selection, runs) && k <= |selection|
  {
    if k == 0 then NoBatch
    else Step(BatchAfter(entries, selection, runs, k - 1), entries[selection[k - 1]], runs[k - 1])
  }

  /** One copy the batch tries: the file name and what its copy gives back. */
  datatype Attempt = Attempt(name: string, run: Invocation)

  /** The copy one selected entry leads to, if any: none for a placeholder or
      an entry of fewer than two words. */
  function AttemptOf(entry: string, run: Invocation): seq<Attempt> {
    var words := Split(entry);
    if entry !in Placeholders && |words| >= 2 then [Attempt(words[1], run)] else []
  }

  /** The copies the batch tries, in selection order. */
  function Attempts(entries: seq<string>, selection: seq<nat>, runs: seq<Invocation>, k: nat): seq<Attempt>
    requires ValidSelection(entries, selection, runs) && k <= |selection|
  {
    if k == 0 then []
    else Attempts(entries, selection, runs, k - 1) + AttemptOf(entries[selection[k - 1]], runs[k - 1])
  }

  /** The names of the attempts that fetched their file, in order. */
  function FetchedNames(a: seq<Attempt>): seq<string> {
    if a == [] then []
    else
      var last := a[|a| - 1];
      FetchedNames(a[..|a| - 1]) + (if FateOf(last.name, last.run).Fetched? then [last.name] else [])
  }

  /** The failure lines of the attempts that did not, in order. */
  function FailedLines(a: seq<Attempt>): seq<string> {
    if a == [] then []
    else
      var last := a[|a| - 1];
      FailedLines(a[..|a| - 1])
        + (match FateOf(last.name, last.run) case NotFetched(l) => [l] case Fetched(_) => [])
  }

  /** Every attempt lands in exactly one of the two lists. */
  lemma {:induction false} FatesPartition(a: seq<Attempt>)
    ensures |FetchedNames(a)| + |FailedLines(a)| == |a|
  {
    if a != [] {
      FatesPartition(a[..|a| - 1]);
    }
  }

  /** `b` ran one command per attempt, in order; its fetched names and its
      failure lines are those of the attempts, in order. */
  predicate Accounts(b: Batch, a: seq<Attempt>) {
    |b.commands| == |a| && (forall i :: 0 <= i < |a| ==> b.commands[i] == DownloadCommand(a[i].name))
    && b.downloaded == FetchedNames(a) && b.failed == FailedLines(a)
  }

  /** A step that does not raise keeps the accounts, with its entry's attempt added. */
  lemma StepAccounts(b: Batch, entry: string, run: Invocation, a: seq<Attempt>)
    requires Accounts(b, a) && !Step(b, entry, run).crashed
    ensures !b.crashed && Accounts(Step(b, entry, run), a + AttemptOf(entry, run))
  {
    var a' := a + AttemptOf(entry, run);
    if AttemptOf(entry, run) != [] {
      assert a'[..|a|] == a;
    } else {
      assert a' == a;
    }
  }

  /** Until an entry raises, every attempt runs one command, in order, and
      lands in the list its copy's outcome says: fetched names and failure
      lines in selection order. */
  lemma {:induction false} BatchAccounts(entries: seq<string>, selection: seq<nat>, runs: seq<Invocation>, k: nat)
    requires ValidSelection(entries, selection, runs) && k <= |selection|
    requires !BatchAfter(entries, selection, runs, k).crashed
    ensures var b := BatchAfter(entries, selection, runs, k);
      var a := Attempts(entries, selection, runs, k);
      |b.commands| == |a| && (forall i :: 0 <= i < |a| ==> b.commands[i] == DownloadCommand(a[i].name))
      && b.downloaded == FetchedNames(a) && b.failed == FailedLines(a)
      && |b.downloaded| + |b.failed| == |a|
  {
    var a := Attempts(entries, selection, runs, k);
    if k > 0 {
      var prev := BatchAfter(entries, selection, runs, k - 1);
      var entry := entries[selection[k - 1]];
      assert !prev.crashed;
      BatchAccounts(entries, selection, runs, k - 1);
      StepAccounts(prev, entry, runs[k - 1], Attempts(entries, selection, runs, k - 1));
    }
    FatesPartition(a);
  }

  /** Selecting only message entries runs nothing and reports nothing. */
  lemma {:induction false} OnlyPlaceholders(entries: seq<string>, selection: seq<nat>, runs: seq<Invocation>, k: nat)
    requires ValidSelection(entries, selection, runs) && k <= |selection|
    requires forall j :: 0 <= j < k ==> entries[selection[j]] in Placeholders
    ensures BatchAfter(entries, selection, runs, k) == NoBatch
    ensures ReportOf(BatchAfter(entries, selection, runs, k)) == Summary([], [], Silent)
  {
    if k > 0 {
      OnlyPlaceholders(entries, selection, runs, k - 1);
    }
  }

  /** Once an entry has raised, nothing more happens. */
  lemma {:induction false} CrashIsFinal(entries: seq<string>, selection: seq<nat>, runs: seq<Invocation>, k: nat, j: nat)
    requires ValidSelection(entries, selection, runs) && k <= j <= |selection|
    requires BatchAfter(entries, selection, runs, k).crashed
    ensures BatchAfter(entries, selection, runs, j) == BatchAfter(entries, selection, runs, k)
    decreases j
  {
    if j > k {
      CrashIsFinal(entries, selection, runs, k, j - 1);
    }
  }

  /** A selected entry that is no placeholder and has fewer than two words
      makes the whole batch raise: no summary is shown. */
  lemma ShortEntryRaises(entries: seq<string>, selection: seq<nat>, runs: seq<Invocation>, k: nat)
    requires ValidSelection(entries, selection, runs) && k < |selection|
    requires entries[selection[k]] !in Placeholders && |Split(entries[selection[k]])| < 2
    ensures BatchAfter(entries, selection, runs, |selection|).crashed
  {
    assert BatchAfter(entries, selection, runs, k + 1).crashed;
    CrashIsFinal(entries, selection, runs, k + 1, |selection|);
  }

  /** An entry "size name" splits into its two words. */
  lemma TwoWords(size: string, name: string)
    requires size != [] && NoSpace(size) && name != [] && NoSpace(name)
    ensures Split(size + " " + name) == [size, name]
  {
    SplitAroundBlank(size, name);
    SplitWord(size);
    SplitWord(name);
  }

  /** A "size name" entry that is no placeholder is copied once and lands in
      one of the two lists. */
  lemma StepOnEntry(b: Batch, size: string, name: string, run: Invocation)
    requires !b.crashed && size + " " + name !in Placeholders
    requires size != [] && NoSpace(size) && name != [] && NoSpace(name)
    ensures var c := Step(b, size + " " + name, run);
      !c.crashed && c.commands == b.commands + [DownloadCommand(name)]
      && (FateOf(name, run).Fetched? ==> c.downloaded == b.downloaded + [name] && c.failed == b.failed)
      && (FateOf(name, run).NotFetched? ==> c.failed == b.failed + [FateOf(name, run).line] && c.downloaded == b.downloaded)
  {
    TwoWords(size, name);
  }

  /** Three files selected, the second copy fails: every file is copied in
      order, the first and the third are fetched, the second's failure line is
      kept, and the dialog is the partial one. */
  lemma ThreeFilesSecondFails(sizes: seq<string>, names: seq<string>, ok: ToolResult, bad: ToolResult)
    requires |sizes| == 3 && |names| == 3
    requires forall i :: 0 <= i < 3 ==> sizes[i] != [] && NoSpace(sizes[i]) && names[i] != [] && NoSpace(names[i])
    requires forall i :: 0 <= i < 3 ==> sizes[i] + " " + names[i] !in Placeholders
    requires ok.returncode == 0 && bad.returncode != 0
    ensures var entries := seq(3, i requires 0 <= i < 3 => sizes[i] + " " + names[i]);
      var b := BatchAfter(entries, [0, 1, 2], [Finished(ok), Finished(bad), Finished(ok)], 3);
      b.commands == [DownloadCommand(names[0]), DownloadCommand(names[1]), DownloadCommand(names[2])]
      && ReportOf(b) == Summary([names[0], names[2]], [names[1] + ": " + Strip(bad.stdout)], Partial)
  {
    var E := seq(3, i requires 0 <= i < 3 => sizes[i] + " " + names[i]);
    var S: seq<nat> := [0, 1, 2];
    var R := [Finished(ok), Finished(bad), Finished(ok)];
    assert BatchAfter(E, S, R, 0) == NoBatch;
    var b1 := BatchAfter(E, S, R, 1);
    assert b1 == Step(NoBatch, sizes[0] + " " + names[0], R[0]);
    StepOnEntry(NoBatch, sizes[0], names[0], R[0]);
    var b2 := BatchAfter(E, S, R, 2);
    assert b2 == Step(b1, sizes[1] + " " + names[1], R[1]);
    StepOnEntry(b1, sizes[1], names[1], R[1]);
    var b3 := BatchAfter(E, S, R, 3);
    assert b3 == Step(b2, sizes[2] + " " + names[2], R[2]);
    StepOnEntry(b2, sizes[2], names[2], R[2]);
    assert b3.downloaded == [names[0], names[2]];
  }

  /** What the user is shown at the end. */
  datatype BatchReport = NothingSelected | Aborted | Summary(downloaded: seq<string>, failed: seq<string>, verdict: Verdict)

  function ReportOf(b: Batch): BatchReport {
    if b.crashed then Aborted else Summary(b.downloaded, b.failed, VerdictOf(b.downloaded, b.failed))
  }

  /** `download_selected_files`: with nothing selected, a warning and no
      command; otherwise the selected entries are tried in order. */
  method DownloadSelected(entries: seq<string>, selection: seq<nat>, runs: seq<Invocation>)
    returns (commands: seq<string>, report: BatchReport)
    requires ValidSelection(entries, selection, runs)
    ensures selection == [] ==> commands == [] && report == NothingSelected
    ensures selection != [] ==>
      var b := BatchAfter(entries, selection, runs, |selection|);
      commands == b.commands && report == ReportOf(b)
  {
    if selection == [] {
      return [], NothingSelected;
    }
    var downloaded, failed := [], [];
    commands := [];
    var k := 0;
    while k < |selection|
      invariant 0 <= k <= |selection|
      invariant BatchAfter(entries, selection, runs, k) == Batch(commands, downloaded, failed, false)
    {
      var entry := entries[selection[k]];
      if entry in Placeholders {
        k := k + 1;
        continue;
      }
      var words := Split(entry);
      if |words| < 2 {
        assert BatchAfter(entries, selection, runs, k + 1).crashed;
        CrashIsFinal(entries, selection, runs, k + 1, |selection|);
        return commands, Aborted;
      }
      var name := words[1];
      commands := commands + [DownloadCommand(name)];
      match runs[k] {
        case Finished(r) =>
          if r.returncode == 0 {
            downloaded := downloaded + [name];
          } else {
            failed := failed + [name + ": " + Strip(r.stdout)];
          }
        case Raised(_, message) =>
          failed := failed + [name + ": " + message];
      }
      k := k + 1;
    }
    report := Summary(downloaded, failed, VerdictOf(downloaded, failed));
  }
}
