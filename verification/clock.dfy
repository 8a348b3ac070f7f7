/** Reading the device clock (`get_device_time` of the full management GUI). */
module Clock {
  import opened PyStr
  import opened Tool

  const ReadClockCommand: string := "mpremote run read_rtc_time.py"

  /** `f"{h:02d}:{m:02d}:{s:02d}"`. */
  function FormatHms(h: nat, m: nat, s: nat): string {
    Pad2(h) + ":" + Pad2(m) + ":" + Pad2(s)
  }

  /** The last three runs read as hours, minutes and seconds. */
  function LastThreeAsTime(runs: seq<string>): string
    requires |runs| >= 3 && forall i :: 0 <= i < |runs| ==> AllDigits(runs[i])
  {
    FormatHms(DigitsValue(runs[|runs| - 3]), DigitsValue(runs[|runs| - 2]), DigitsValue(runs[|runs| - 1]))
  }

  /** The text shown under "Device Time:". The not-connected phrase wins over
      the exit status; a successful read shows the last three digit runs of the
      stripped output as hours, minutes and seconds; otherwise the stripped
      output is shown as it is. */
  function ClockReading(r: ToolResult): (text: string)
    ensures NoDevice(r) ==> text == "No device found"
  {
    var out := Strip(r.stdout);
    var runs := DigitRuns(out);
    if NoDevice(r) then "No device found"
    else if r.returncode == 0 && |runs| >= 3 then LastThreeAsTime(runs)
    else out
  }

  /** `p` is how `02d` prints `v`: at least two digits, and a leading zero
      only when it pads to exactly two. */
  predicate PaddedField(p: string, v: nat) {
    |p| >= 2 && AllDigits(p) && (|p| == 2 || p[0] != '0') && DigitsValue(p) == v
  }

  /** `text` is three ':'-separated `02d` fields reading as `h`, `m` and `s`. */
  predicate ShowsTime(text: string, h: nat, m: nat, s: nat) {
    var parts := SplitOn(text, ':');
    |parts| == 3 && PaddedField(parts[0], h) && PaddedField(parts[1], m) && PaddedField(parts[2], s)
  }

  /** Three pieces free of ':' joined by ':' split back into those pieces. */
  lemma {:induction false} ThreePieces(a: string, b: string, c: string)
    requires ':' !in a && ':' !in b && ':' !in c
    ensures SplitOn(a + ":" + b + ":" + c, ':') == [a, b, c]
  {
    assert a + ":" + b + ":" + c == a + [':'] + (b + [':'] + c);
    SplitOnFirst(a, ':', b + [':'] + c);
    SplitOnFirst(b, ':', c);
    SplitOnNone(c, ':');
  }

  /** Splitting a formatted time at ':' gives back the hours, minutes and seconds. */
  lemma {:induction false} FormatHmsFields(h: nat, m: nat, s: nat)
    ensures ShowsTime(FormatHms(h, m, s), h, m, s)
  {
    var a, b, c := Pad2(h), Pad2(m), Pad2(s);
    Pad2Value(h);
    Pad2Value(m);
    Pad2Value(s);
    assert ':' !in a && ':' !in b && ':' !in c;
    ThreePieces(a, b, c);
  }

  /** The time made of the last three runs splits back into their values. */
  lemma LastThreeFields(runs: seq<string>, h: nat, m: nat, s: nat)
    requires |runs| >= 3 && forall i :: 0 <= i < |runs| ==> AllDigits(runs[i])
    requires h == DigitsValue(runs[|runs| - 3]) && m == DigitsValue(runs[|runs| - 2]) && s == DigitsValue(runs[|runs| - 1])
    ensures ShowsTime(LastThreeAsTime(runs), h, m, s)
  {
    FormatHmsFields(h, m, s);
  }

  /** A successful read with at least three digit runs shows the last three
      runs read as a time. */
  lemma ClockShowsLastThree(r: ToolResult)
    requires !NoDevice(r) && r.returncode == 0 && |DigitRuns(Strip(r.stdout))| >= 3
    ensures ClockReading(r) == LastThreeAsTime(DigitRuns(Strip(r.stdout)))
  {
  }

  /** A successful read with at least three digit runs shows the last three
      runs, in order, as hours:minutes:seconds. */
  lemma ClockFromLastThreeRuns(r: ToolResult, runs: seq<string>)
    requires runs == DigitRuns(Strip(r.stdout))
    requires !NoDevice(r) && r.returncode == 0 && |runs| >= 3
    ensures ShowsTime(ClockReading(r), DigitsValue(runs[|runs| - 3]), DigitsValue(runs[|runs| - 2]), DigitsValue(runs[|runs| - 1]))
  {
    ClockShowsLastThree(r);
    var n := |runs|;
    LastThreeFields(runs, DigitsValue(runs[n - 3]), DigitsValue(runs[n - 2]), DigitsValue(runs[n - 1]));
  }

  /** Anything but a successful read with three digit runs shows the stripped
      output, unless the not-connected phrase is there. */
  lemma ClockRawFallback(r: ToolResult)
    requires !NoDevice(r) && (r.returncode != 0 || |DigitRuns(Strip(r.stdout))| < 3)
    ensures ClockReading(r) == Strip(r.stdout)
  {
  }

  lemma ExampleStrip()
    ensures Strip("x 14 30 5") == "x 14 30 5"
  {
  }

  lemma ExampleTailRuns()
    ensures DigitRuns(" 30 5") == ["30", "5"]
  {
    assert DigitRunLength("5") == 1 && "5"[..1] == "5" && "5"[1..] == [];
    assert DigitRuns(" 5") == ["5"];
    assert DigitRunLength("30 5") == 2 && "30 5"[..2] == "30" && "30 5"[2..] == " 5";
  }

  /** The output "x 14 30 5" has three digit runs. */
  lemma ExampleRuns()
    ensures DigitRuns("x 14 30 5") == ["14", "30", "5"]
  {
    ExampleTailRuns();
    assert DigitRunLength("14 30 5") == 2 && "14 30 5"[..2] == "14" && "14 30 5"[2..] == " 30 5";
  }

  /** The runs "14", "30", "5" show as "14:30:05". */
  lemma ExampleTime()
    ensures LastThreeAsTime(["14", "30", "5"]) == "14:30:05"
  {
    assert DigitsValue("14") == 14 && DigitsValue("30") == 30 && DigitsValue("5") == 5;
    assert Pad2(14) == "14" && Pad2(30) == "30" && Pad2(5) == "05";
  }

  /** The output "x 14 30 5" lacks the phrase and has the runs 14, 30, 5. */
  lemma ExampleOutput(r: ToolResult)
    requires r.stdout == "x 14 30 5"
    ensures !NoDevice(r) && DigitRuns(Strip(r.stdout)) == ["14", "30", "5"]
  {
    ContainsNothingLonger(r.stdout, NoDevicePhrase);
    ExampleStrip();
    ExampleRuns();
  }

  /** Any successful read whose runs are 14, 30, 5 shows "14:30:05". */
  lemma ClockOfExampleRuns(r: ToolResult)
    requires !NoDevice(r) && r.returncode == 0 && DigitRuns(Strip(r.stdout)) == ["14", "30", "5"]
    ensures ClockReading(r) == "14:30:05"
  {
    ClockShowsLastThree(r);
    ExampleTime();
  }

  /** Output "x 14 30 5" with exit status 0 shows "14:30:05". */
  lemma ClockExample(r: ToolResult)
    requires r.stdout == "x 14 30 5" && r.returncode == 0
    ensures ClockReading(r) == "14:30:05"
  {
    ExampleOutput(r);
    ClockOfExampleRuns(r);
  }
}
