/** The first datalogger window: list the SD card, download one file, and
    the device-time label. */
module LoggerApp {
  import opened PyStr
  import opened Tool

  const ListCommand: string := "mpremote connect auto run read_sd.py fs ls sd/"
  const HiddenTime: string := "--:--:--"
  const InitialButton: string := "Download selected file"
  const NoSelectionButton: string := "Download selected item"

  /** `line.split()[-1]`: the last whitespace-separated word. */
  function LastToken(line: string): string
    requires Split(line) != []
  {
    Split(line)[|Split(line)| - 1]
  }

  /** The last word is itself a single word, so taking it twice changes nothing. */
  lemma LastTokenIdempotent(line: string)
    requires Split(line) != []
    ensures Split(LastToken(line)) == [LastToken(line)]
    ensures LastToken(LastToken(line)) == LastToken(line)
  {
    SplitWord(LastToken(line));
  }

  /** Index of the first line without a word (where `split()[-1]` raises),
      or the number of lines. */
  function FirstBlank(lines: seq<string>): (k: nat)
    ensures k <= |lines|
    ensures forall j :: 0 <= j < k ==> Split(lines[j]) != []
    ensures k < |lines| ==> Split(lines[k]) == []
    decreases |lines|
  {
    if lines == [] || Split(lines[0]) == [] then 0 else 1 + FirstBlank(lines[1..])
  }

  /** The last word of every line, one entry per line, in order. */
  function Tokens(lines: seq<string>): (toks: seq<string>)
    requires forall j :: 0 <= j < |lines| ==> Split(lines[j]) != []
    ensures |toks| == |lines|
    ensures forall j :: 0 <= j < |lines| ==> toks[j] == LastToken(lines[j])
    ensures forall j :: 0 <= j < |lines| ==> toks[j] != [] && NoSpace(toks[j])
    decreases |lines|
  {
    if lines == [] then [] else Tokens(lines[..|lines| - 1]) + [LastToken(lines[|lines| - 1])]
  }

  /** The command that copies `:sd/<tok>` to a local file named `<tok>`. */
  function CopyCommand(tok: string): string {
    "mpremote run read_sd.py cp " + ":sd/" + tok + " " + tok
  }

  /** A blank and one more word add that word at the end. */
  lemma AppendWord(x: string, w: string, words: seq<string>)
    requires Split(x) == words && w != [] && NoSpace(w)
    ensures Split(x + " " + w) == words + [w]
  {
    SplitAroundBlank(x, w);
    SplitWord(w);
  }

  /** Six words joined by single blanks split back into those six words. */
  lemma {:induction false} SixWords(a: string, b: string, c: string, d: string, e: string, f: string)
    requires a != [] && NoSpace(a) && b != [] && NoSpace(b) && c != [] && NoSpace(c)
    requires d != [] && NoSpace(d) && e != [] && NoSpace(e) && f != [] && NoSpace(f)
    ensures Split(a + " " + b + " " + c + " " + d + " " + e + " " + f) == [a, b, c, d, e, f]
  {
    SplitWord(a);
    var x2 := a + " " + b;
    AppendWord(a, b, [a]);
    var x3 := x2 + " " + c;
    AppendWord(x2, c, [a, b]);
    var x4 := x3 + " " + d;
    AppendWord(x3, d, [a, b, c]);
    var x5 := x4 + " " + e;
    AppendWord(x4, e, [a, b, c, d]);
    AppendWord(x5, f, [a, b, c, d, e]);
  }

  /** For a single-word entry the copy command is six words: the tool, its
      two subcommands, the copy verb, the device path and the local name. */
  lemma CopyCommandWords(tok: string)
    requires tok != [] && NoSpace(tok)
    ensures Split(CopyCommand(tok)) == ["mpremote", "run", "read_sd.py", "cp", ":sd/" + tok, tok]
  {
    var src := ":sd/" + tok;
    assert NoSpace(src) by {
      assert forall j :: 4 <= j < |src| ==> src[j] == tok[j - 4];
    }
    var prefix := "mpremote" + " " + "run" + " " + "read_sd.py" + " " + "cp" + " ";
    assert prefix == "mpremote run read_sd.py cp ";
    assert CopyCommand(tok) == prefix + src + " " + tok;
    SixWords("mpremote", "run", "read_sd.py", "cp", src, tok);
  }

  function ButtonLabel(tok: string): string {
    "Download '" + tok + "' from device "
  }

  /** The widgets of the window. Listbox entries are single words. */
  class LoggerGui {
    var listbox: seq<string>
    var buttonText: string
    var deviceTimeLabel: string

    predicate Valid()
      reads this
    {
      forall j :: 0 <= j < |listbox| ==> listbox[j] != [] && NoSpace(listbox[j])
    }

    constructor ()
      ensures Valid() && listbox == [] && buttonText == InitialButton && deviceTimeLabel == HiddenTime
    {
      listbox, buttonText, deviceTimeLabel := [], InitialButton, HiddenTime;
    }

    /** `run_command`: the listbox is emptied, then gets the last word of
        each output line in turn; a line without a word raises, leaving the
        entries of the lines before it. */
    method RunCommand(r: ToolResult) returns (command: string, raised: bool)
      modifies this
      ensures command == ListCommand
      ensures var lines := SplitLines(r.stdout);
        var k := FirstBlank(lines);
        listbox == Tokens(lines[..k]) && (raised <==> k < |lines|)
      ensures r.stdout == "" ==> listbox == [] && !raised
      ensures Valid()
      ensures buttonText == old(buttonText) && deviceTimeLabel == old(deviceTimeLabel)
    {
      command := ListCommand;
      var lines := SplitLines(r.stdout);
      listbox := [];
      var i := 0;
      while i < |lines|
        invariant 0 <= i <= FirstBlank(lines)
        invariant listbox == Tokens(lines[..i])
        invariant buttonText == old(buttonText) && deviceTimeLabel == old(deviceTimeLabel)
      {
        var words := Split(lines[i]);
        if words == [] {
          return command, true;
        }
        assert lines[..i + 1][..i] == lines[..i];
        listbox := listbox + [words[|words| - 1]];
        i := i + 1;
      }
      return command, false;
    }

    /** `save_selected`: without a selection the "No Selection" warning is
        shown and nothing runs; otherwise only the first selected entry is
        copied. */
    method SaveSelected(selection: seq<nat>) returns (warned: bool, command: Option<string>)
      requires Valid()
      requires forall j :: 0 <= j < |selection| ==> selection[j] < |listbox|
      ensures warned <==> selection == []
      ensures selection == [] ==> command == None
      ensures selection != [] ==> command == Some(CopyCommand(listbox[selection[0]]))
    {
      if selection == [] {
        return true, None;
      }
      warned := false;
      var item := listbox[selection[0]];
      var elements := Split(item);
      SplitWord(item);
      command := Some("mpremote run read_sd.py cp " + ":sd/" + elements[|elements| - 1] + " " + elements[|elements| - 1]);
    }

    /** `update_button_text`: the label names the first selected entry. */
    method UpdateButtonText(selection: seq<nat>)
      modifies this
      requires Valid()
      requires forall j :: 0 <= j < |selection| ==> selection[j] < |listbox|
      ensures listbox == old(listbox) && deviceTimeLabel == old(deviceTimeLabel)
      ensures selection == [] ==> buttonText == NoSelectionButton
      ensures selection != [] ==> buttonText == ButtonLabel(listbox[selection[0]]) && buttonText != NoSelectionButton
    {
      if selection != [] {
        var item := Split(listbox[selection[0]]);
        SplitWord(listbox[selection[0]]);
        buttonText := "Download '" + item[|item| - 1] + "' from device ";
      } else {
        buttonText := NoSelectionButton;
      }
    }

    /** `hide_time`. */
    method HideTime()
      modifies this
      ensures deviceTimeLabel == HiddenTime
      ensures listbox == old(listbox) && buttonText == old(buttonText)
    {
      deviceTimeLabel := HiddenTime;
    }
  }
}
