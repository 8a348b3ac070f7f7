/** The metadata form shared by the management GUI and the metadata
    generator: six entry fields, the record built from them
    (`collect_sensor_data`) and the refill from an imported record
    (`import_json_file`). */
module Metadata {
  import opened PyStr
  import opened Tool

  // ---------------------------------------------------------------- records

  /** A JSON value as `json.load` gives it back; arrays and objects are kept
      as their printed form. */
  datatype Json = JNull | JBool(b: bool) | JInt(i: int) | JNum(x: real) | JStr(s: string) | JComposite(text: string)

  /** A JSON object. */
  type Record = map<string, Json>

  /** What a blank latitude or longitude is saved as. */
  const NumberSentinel: Json := JInt(9999)
  /** What any other blank field is saved as. */
  const TextSentinel: string := "9999"

  /** The six entry texts, in form order. */
  datatype FormText = FormText(latitude: string, longitude: string, location: string,
                               name: string, description: string, timestep: string)

  const Blank: FormText := FormText("", "", "", "", "", "")

  function Values(f: FormText): seq<string> {
    [f.latitude, f.longitude, f.location, f.name, f.description, f.timestep]
  }

  function StripAll(f: FormText): FormText {
    FormText(Strip(f.latitude), Strip(f.longitude), Strip(f.location),
             Strip(f.name), Strip(f.description), Strip(f.timestep))
  }

  /** The labels the missing-values warning lists, in form order. */
  const FieldLabels: seq<string> := ["Latitude", "Longitude", "Named Location", "Device Name", "Description", "Timestep"]

  // ---------------------------------------------------------------- missing fields

  /** `a` is `b` with some elements left out. */
  predicate Subsequence(a: seq<string>, b: seq<string>)
    decreases |b|
  {
    a == [] || (b != [] && (if a[|a| - 1] == b[|b| - 1] then Subsequence(a[..|a| - 1], b[..|b| - 1])
                            else Subsequence(a, b[..|b| - 1])))
  }

  /** The labels whose values are blank, in order. */
  function Blanks(labels: seq<string>, values: seq<string>): (out: seq<string>)
    requires |labels| == |values|
    ensures |out| <= |labels|
    decreases |labels|
  {
    if labels == [] then []
    else
      var n := |labels| - 1;
      Blanks(labels[..n], values[..n]) + (if values[n] == "" then [labels[n]] else [])
  }

  /** Blank labels keep their relative order. */
  lemma {:induction false} BlanksInOrder(labels: seq<string>, values: seq<string>)
    requires |labels| == |values|
    ensures Subsequence(Blanks(labels, values), labels)
    decreases |labels|
  {
    if labels != [] {
      var n := |labels| - 1;
      BlanksInOrder(labels[..n], values[..n]);
      var rest := Blanks(labels[..n], values[..n]);
      if values[n] == "" {
        assert (rest + [labels[n]])[..|rest|] == rest;
      } else {
        assert Blanks(labels, values) == rest + [] == rest;
        SkipLast(rest, labels);
      }
    }
  }

  /** An unmatched last element of the longer sequence can be skipped. */
  lemma SkipLast(a: seq<string>, b: seq<string>)
    requires b != [] && Subsequence(a, b[..|b| - 1])
    ensures Subsequence(a, b)
    decreases |b|, 0
  {
    if a != [] && a[|a| - 1] == b[|b| - 1] {
      DropLast(a, b[..|b| - 1]);
    }
  }

  /** A subsequence stays one when its last element is dropped. */
  lemma {:induction false} DropLast(a: seq<string>, b: seq<string>)
    requires a != [] && Subsequence(a, b)
    ensures Subsequence(a[..|a| - 1], b)
    decreases |b|, 1
  {
    if a[|a| - 1] != b[|b| - 1] {
      DropLast(a, b[..|b| - 1]);
    }
    SkipLast(a[..|a| - 1], b);
  }

  /** With distinct labels, a label is listed exactly when its value is blank. */
  lemma {:induction false} BlanksIff(labels: seq<string>, values: seq<string>, i: nat)
    requires |labels| == |values| && i < |labels|
    requires forall j, k :: 0 <= j < k < |labels| ==> labels[j] != labels[k]
    ensures labels[i] in Blanks(labels, values) <==> values[i] == ""
    decreases |labels|
  {
    var n := |labels| - 1;
    if i == n {
      ListedAreLabels(labels[..n], values[..n]);
      assert labels[n] !in labels[..n];
    } else {
      BlanksIff(labels[..n], values[..n], i);
    }
  }

  /** Only given labels are listed. */
  lemma {:induction false} ListedAreLabels(labels: seq<string>, values: seq<string>)
    requires |labels| == |values|
    ensures forall x :: x in Blanks(labels, values) ==> x in labels
    decreases |labels|
  {
    if labels != [] {
      var n := |labels| - 1;
      ListedAreLabels(labels[..n], values[..n]);
    }
  }

  /** The fields the warning names for a stripped form. */
  function Missing(v: FormText): seq<string> {
    Blanks(FieldLabels, Values(v))
  }

  /** The warning names exactly the blank fields, in form order. */
  lemma MissingNamesBlanks(v: FormText, i: nat)
    requires i < 6
    ensures FieldLabels[i] in Missing(v) <==> Values(v)[i] == ""
    ensures Subsequence(Missing(v), FieldLabels)
  {
    BlanksIff(FieldLabels, Values(v), i);
    BlanksInOrder(FieldLabels, Values(v));
  }

  /** Nothing is missing exactly when every field is filled in. */
  lemma NothingMissing(v: FormText)
    ensures Missing(v) == [] <==> forall i :: 0 <= i < 6 ==> Values(v)[i] != ""
  {
    if Missing(v) != [] {
      var x := Missing(v)[0];
      ListedAreLabels(FieldLabels, Values(v));
      assert x in FieldLabels;
      var i :| 0 <= i < |FieldLabels| && FieldLabels[i] == x;
      MissingNamesBlanks(v, i);
    } else {
      forall i | 0 <= i < 6
        ensures Values(v)[i] != ""
      {
        MissingNamesBlanks(v, i);
      }
    }
  }

  // ---------------------------------------------------------------- collect

  /** A device name is refused when it is filled in and holds a space
      character (tabs and other whitespace are let through). */
  predicate NameRejected(name: string) {
    name != "" && ' ' in name
  }

  /** A latitude or longitude: the sentinel when blank, otherwise what
      `float()` (the `parse` oracle) makes of it, or nothing when it fails. */
  function NumberValue(s: string, parse: string -> Option<real>): (v: Option<Json>)
    ensures s == "" ==> v == Some(NumberSentinel)
    ensures s != "" ==> (v.None? <==> parse(s).None?) && (v.Some? ==> v.value == JNum(parse(s).value))
  {
    if s == "" then Some(NumberSentinel)
    else match parse(s)
      case None => None
      case Some(x) => Some(JNum(x))
  }

  /** Any other field: the sentinel text when blank, otherwise the text. */
  function TextValue(s: string): Json {
    JStr(if s == "" then TextSentinel else s)
  }

  /** The record saved for a stripped form, with `now` as its timestamp. */
  function RecordOf(v: FormText, lat: Json, lon: Json, now: string): Record {
    map["latitude" := lat, "longitude" := lon,
        "named_location" := TextValue(v.location), "device_name" := TextValue(v.name),
        "description" := TextValue(v.description), "timestep" := TextValue(v.timestep),
        "generated_at" := JStr(now)]
  }

  /** How collecting ends: refused name, declined warning, a number that does
      not parse, or a record. */
  datatype Collected = NameHasSpace | Declined | NotANumber | Built(record: Record)

  /** `collect_sensor_data` on the entry texts `f`, with `proceed` the answer
      to the missing-values warning. */
  function CollectOutcome(f: FormText, proceed: bool, parse: string -> Option<real>, now: string): Collected {
    var v := StripAll(f);
    if NameRejected(v.name) then NameHasSpace
    else if Missing(v) != [] && !proceed then Declined
    else
      match (NumberValue(v.latitude, parse), NumberValue(v.longitude, parse))
      case (Some(lat), Some(lon)) => Built(RecordOf(v, lat, lon, now))
      case _ => NotANumber
  }

  /** The device-name check comes first: a refused name gives no record,
      whatever the other fields, the answer or the parser. */
  lemma NameCheckedFirst(f: FormText, proceed: bool, parse: string -> Option<real>, now: string)
    ensures CollectOutcome(f, proceed, parse, now) == NameHasSpace <==> NameRejected(Strip(f.name))
  {
  }

  /** Declining is only possible when something is missing, and then no record is built. */
  lemma DeclineNeedsMissing(f: FormText, proceed: bool, parse: string -> Option<real>, now: string)
    ensures CollectOutcome(f, proceed, parse, now) == Declined
      <==> !NameRejected(Strip(f.name)) && Missing(StripAll(f)) != [] && !proceed
  {
  }

  /** A record is built exactly when the name is accepted, the user went on
      (or nothing was missing) and every filled-in number parses. */
  lemma BuiltIff(f: FormText, proceed: bool, parse: string -> Option<real>, now: string)
    ensures var v := StripAll(f);
      CollectOutcome(f, proceed, parse, now).Built?
      <==> !NameRejected(v.name) && (Missing(v) == [] || proceed)
           && (v.latitude == "" || parse(v.latitude).Some?)
           && (v.longitude == "" || parse(v.longitude).Some?)
  {
  }

  /** The saved record: the seven keys; blank numbers are the integer 9999,
      filled-in ones their parsed value; blank texts are "9999", filled-in
      ones their stripped text. */
  lemma BuiltRecord(f: FormText, proceed: bool, parse: string -> Option<real>, now: string)
    requires CollectOutcome(f, proceed, parse, now).Built?
    ensures var v := StripAll(f);
      var rec := CollectOutcome(f, proceed, parse, now).record;
      rec.Keys == {"latitude", "longitude", "named_location", "device_name", "description", "timestep", "generated_at"}
      && (v.latitude == "" ==> rec["latitude"] == JInt(9999))
      && (v.latitude != "" ==> rec["latitude"] == JNum(parse(v.latitude).value))
      && (v.longitude == "" ==> rec["longitude"] == JInt(9999))
      && (v.longitude != "" ==> rec["longitude"] == JNum(parse(v.longitude).value))
      && rec["named_location"] == JStr(if v.location == "" then "9999" else v.location)
      && rec["device_name"] == JStr(if v.name == "" then "9999" else v.name)
      && rec["description"] == JStr(if v.description == "" then "9999" else v.description)
      && rec["timestep"] == JStr(if v.timestep == "" then "9999" else v.timestep)
      && rec["generated_at"] == JStr(now)
  {
  }

  // ---------------------------------------------------------------- import

  /** Python's `x != 9999` is false for the integer 9999 and the float 9999.0. */
  predicate EqualsNumberSentinel(v: Json) {
    v == JInt(9999) || v == JNum(9999 as real)
  }

  /** `str(v)`; floats are printed by the `showFloat` oracle. */
  function Show(v: Json, showFloat: real -> string): string {
    match v
    case JNull => "None"
    case JBool(b) => if b then "True" else "False"
    case JInt(i) => IntToString(i)
    case JNum(x) => showFloat(x)
    case JStr(s) => s
    case JComposite(text) => text
  }

  /** What an emptied field gets back from `doc[key]`: nothing when the key
      is absent, null, or the field kind's sentinel; its text otherwise. */
  function Refill(doc: Record, key: string, numeric: bool, showFloat: real -> string): Option<string> {
    if key !in doc || doc[key] == JNull then None
    else if numeric && EqualsNumberSentinel(doc[key]) then None
    else if !numeric && doc[key] == JStr(TextSentinel) then None
    else Some(Show(doc[key], showFloat))
  }

  /** A field is refilled exactly when its key is present, not null and not
      its kind's sentinel; a refilled text field gets the stored text back. */
  lemma RefillIff(doc: Record, key: string, numeric: bool, showFloat: real -> string)
    ensures Refill(doc, key, numeric, showFloat).Some?
      <==> key in doc && doc[key] != JNull
           && (numeric ==> doc[key] != JInt(9999) && doc[key] != JNum(9999 as real))
           && (!numeric ==> doc[key] != JStr("9999"))
    ensures !numeric && key in doc && doc[key].JStr? && doc[key].s != "9999"
      ==> Refill(doc, key, numeric, showFloat) == Some(doc[key].s)
  {
  }

  function OrBlank(t: Option<string>): string {
    if t.Some? then t.value else ""
  }

  /** The six fields after importing `doc`. */
  function ImportedForm(doc: Record, showFloat: real -> string): FormText {
    FormText(OrBlank(Refill(doc, "latitude", true, showFloat)),
             OrBlank(Refill(doc, "longitude", true, showFloat)),
             OrBlank(Refill(doc, "named_location", false, showFloat)),
             OrBlank(Refill(doc, "device_name", false, showFloat)),
             OrBlank(Refill(doc, "description", false, showFloat)),
             OrBlank(Refill(doc, "timestep", false, showFloat)))
  }

  /** A built record is the record of the stripped form, with both numbers parsed. */
  lemma BuiltIsRecordOf(f: FormText, proceed: bool, parse: string -> Option<real>, now: string)
    requires CollectOutcome(f, proceed, parse, now).Built?
    ensures var v := StripAll(f);
      NumberValue(v.latitude, parse).Some? && NumberValue(v.longitude, parse).Some?
      && CollectOutcome(f, proceed, parse, now).record
         == RecordOf(v, NumberValue(v.latitude, parse).value, NumberValue(v.longitude, parse).value, now)
  {
  }

  /** Importing a saved number: blank exactly when it was saved blank or
      parsed to 9999, and otherwise `str` of the parsed value. */
  lemma ImportedNumber(rec: Record, key: string, s: string, parse: string -> Option<real>, showFloat: real -> string)
    requires key in rec && NumberValue(s, parse) == Some(rec[key])
    ensures s == "" || parse(s) == Some(9999 as real) ==> OrBlank(Refill(rec, key, true, showFloat)) == ""
    ensures s != "" && parse(s) != Some(9999 as real) ==> OrBlank(Refill(rec, key, true, showFloat)) == showFloat(parse(s).value)
  {
  }

  /** Importing a record this form saved: every text field that was filled in
      comes back as it was saved (stripped), except the literal "9999", which
      comes back blank like a blank field; a number comes back blank when it
      was blank or parsed to 9999, and otherwise as `str` of its value. */
  lemma SavedThenImported(v: FormText, parse: string -> Option<real>, lat: Json, lon: Json, now: string,
                          showFloat: real -> string)
    requires NumberValue(v.latitude, parse) == Some(lat) && NumberValue(v.longitude, parse) == Some(lon)
    ensures var g := ImportedForm(RecordOf(v, lat, lon, now), showFloat);
      g.location == (if v.location == "9999" then "" else v.location)
      && g.name == (if v.name == "9999" then "" else v.name)
      && g.description == (if v.description == "9999" then "" else v.description)
      && g.timestep == (if v.timestep == "9999" then "" else v.timestep)
      && (v.latitude == "" || parse(v.latitude) == Some(9999 as real) ==> g.latitude == "")
      && (v.latitude != "" && parse(v.latitude) != Some(9999 as real) ==> g.latitude == showFloat(parse(v.latitude).value))
      && (v.longitude == "" || parse(v.longitude) == Some(9999 as real) ==> g.longitude == "")
      && (v.longitude != "" && parse(v.longitude) != Some(9999 as real) ==> g.longitude == showFloat(parse(v.longitude).value))
  {
    var rec := RecordOf(v, lat, lon, now);
    ImportedNumber(rec, "latitude", v.latitude, parse, showFloat);
    ImportedNumber(rec, "longitude", v.longitude, parse, showFloat);
  }

  /** Collecting a form and importing the record it gives: each text field
      comes back stripped, except the literal "9999", which comes back blank;
      a number comes back blank when it was blank or parsed to 9999, and
      otherwise as `str` of its parsed value. */
  lemma CollectedThenImported(f: FormText, proceed: bool, parse: string -> Option<real>, now: string,
                              rec: Record, showFloat: real -> string)
    requires CollectOutcome(f, proceed, parse, now) == Built(rec)
    ensures var v := StripAll(f);
      var g := ImportedForm(rec, showFloat);
      g.location == (if v.location == "9999" then "" else v.location)
      && g.name == (if v.name == "9999" then "" else v.name)
      && g.description == (if v.description == "9999" then "" else v.description)
      && g.timestep == (if v.timestep == "9999" then "" else v.timestep)
      && (v.latitude == "" || parse(v.latitude) == Some(9999 as real) ==> g.latitude == "")
      && (v.latitude != "" && parse(v.latitude) != Some(9999 as real) ==> parse(v.latitude).Some? && g.latitude == showFloat(parse(v.latitude).value))
      && (v.longitude == "" || parse(v.longitude) == Some(9999 as real) ==> g.longitude == "")
      && (v.longitude != "" && parse(v.longitude) != Some(9999 as real) ==> parse(v.longitude).Some? && g.longitude == showFloat(parse(v.longitude).value))
  {
    var v := StripAll(f);
    BuiltIsRecordOf(f, proceed, parse, now);
    SavedThenImported(v, parse, NumberValue(v.latitude, parse).value, NumberValue(v.longitude, parse).value, now, showFloat);
  }

  // ---------------------------------------------------------------- the form

  /** One check of `collect_sensor_data`: a blank value appends its label. */
  function NoteIfBlank(missing: seq<string>, text: string, fieldLabel: string): seq<string> {
    if text == "" then missing + [fieldLabel] else missing
  }

  /** One more labelled value at the end is one more check. */
  lemma BlanksAppend(labels: seq<string>, values: seq<string>, fieldLabel: string, text: string)
    requires |labels| == |values|
    ensures Blanks(labels + [fieldLabel], values + [text]) == NoteIfBlank(Blanks(labels, values), text, fieldLabel)
  {
    assert (labels + [fieldLabel])[..|labels|] == labels;
    assert (values + [text])[..|values|] == values;
  }

  /** The warning's list is what the six checks build. */
  lemma MissingByChecks(v: FormText)
    ensures Missing(v) == NoteIfBlank(NoteIfBlank(NoteIfBlank(NoteIfBlank(NoteIfBlank(NoteIfBlank(
      [], v.latitude, "Latitude"), v.longitude, "Longitude"), v.location, "Named Location"),
      v.name, "Device Name"), v.description, "Description"), v.timestep, "Timestep")
  {
    var l1, x1 := [] + ["Latitude"], [] + [v.latitude];
    BlanksAppend([], [], "Latitude", v.latitude);
    var l2, x2 := l1 + ["Longitude"], x1 + [v.longitude];
    BlanksAppend(l1, x1, "Longitude", v.longitude);
    var l3, x3 := l2 + ["Named Location"], x2 + [v.location];
    BlanksAppend(l2, x2, "Named Location", v.location);
    var l4, x4 := l3 + ["Device Name"], x3 + [v.name];
    BlanksAppend(l3, x3, "Device Name", v.name);
    var l5, x5 := l4 + ["Description"], x4 + [v.description];
    BlanksAppend(l4, x4, "Description", v.description);
    BlanksAppend(l5, x5, "Timestep", v.timestep);
    assert l5 + ["Timestep"] == FieldLabels;
    assert x5 + [v.timestep] == Values(v);
  }

  /** The six checks that build the warning's list, one append at a time. */
  method ListMissing(v: FormText) returns (missing: seq<string>)
    ensures missing == Missing(v)
  {
    missing := [];
    missing := NoteIfBlank(missing, v.latitude, "Latitude");
    missing := NoteIfBlank(missing, v.longitude, "Longitude");
    missing := NoteIfBlank(missing, v.location, "Named Location");
    missing := NoteIfBlank(missing, v.name, "Device Name");
    missing := NoteIfBlank(missing, v.description, "Description");
    missing := NoteIfBlank(missing, v.timestep, "Timestep");
    MissingByChecks(v);
  }

  /** Where the text of an import comes from. */
  datatype ImportSource =
    | Cancelled              // the file dialog was closed
    | Unparsable             // the file is not JSON
    | Unreadable             // the file could not be opened or decoded
    | NotAnObject            // JSON, but not an object: `data.get` fails after the fields were cleared
    | Loaded(doc: Record)

  datatype ImportDialog = NoImportDialog | ImportSucceeded | InvalidJsonError | ImportFailedError

  /** The six entry widgets of the form. */
  class MetadataForm {
    var latitude: string
    var longitude: string
    var location: string
    var name: string
    var description: string
    var timestep: string

    function Text(): FormText
      reads this
    {
      FormText(latitude, longitude, location, name, description, timestep)
    }

    constructor ()
      ensures Text() == Blank
    {
      latitude, longitude, location, name, description, timestep := "", "", "", "", "", "";
    }

    /** `collect_sensor_data`: strip the fields, refuse a name with a space,
        list the blank fields and ask `proceed`, then build the record. The
        warning is shown exactly when the name passed and something is blank. */
    method Collect(proceed: bool, parse: string -> Option<real>, now: string)
      returns (outcome: Collected, missing: seq<string>, warned: bool)
      ensures outcome == CollectOutcome(Text(), proceed, parse, now)
      ensures warned <==> !NameRejected(Strip(name)) && Missing(StripAll(Text())) != []
      ensures warned ==> missing == Missing(StripAll(Text()))
    {
      var v := StripAll(Text());
      var lat, lon, loc, dev, desc, step := v.latitude, v.longitude, v.location, v.name, v.description, v.timestep;
      missing, warned := [], false;
      if dev != "" && ' ' in dev {
        return NameHasSpace, missing, warned;
      }
      missing := ListMissing(v);
      if missing != [] {
        warned := true;
        if !proceed {
          return Declined, missing, warned;
        }
      }
      var latValue := NumberValue(lat, parse);
      var lonValue := NumberValue(lon, parse);
      if latValue.None? || lonValue.None? {
        return NotANumber, missing, warned;
      }
      outcome := Built(RecordOf(v, latValue.value, lonValue.value, now));
    }

    /** Every entry emptied (`delete(0, END)`). */
    method Clear()
      modifies this
      ensures Text() == Blank
    {
      latitude, longitude, location, name, description, timestep := "", "", "", "", "", "";
    }

    /** Each emptied entry gets its refill, if any, inserted at position 0. */
    method RefillFrom(doc: Record, showFloat: real -> string)
      modifies this
      requires Text() == Blank
      ensures Text() == ImportedForm(doc, showFloat)
    {
      var t := Refill(doc, "latitude", true, showFloat);
      if t.Some? { latitude := t.value + latitude; }
      assert latitude == OrBlank(Refill(doc, "latitude", true, showFloat));
      t := Refill(doc, "longitude", true, showFloat);
      if t.Some? { longitude := t.value + longitude; }
      assert longitude == OrBlank(Refill(doc, "longitude", true, showFloat));
      t := Refill(doc, "named_location", false, showFloat);
      if t.Some? { location := t.value + location; }
      assert location == OrBlank(Refill(doc, "named_location", false, showFloat));
      t := Refill(doc, "device_name", false, showFloat);
      if t.Some? { name := t.value + name; }
      assert name == OrBlank(Refill(doc, "device_name", false, showFloat));
      t := Refill(doc, "description", false, showFloat);
      if t.Some? { description := t.value + description; }
      assert description == OrBlank(Refill(doc, "description", false, showFloat));
      t := Refill(doc, "timestep", false, showFloat);
      if t.Some? { timestep := t.value + timestep; }
      assert timestep == OrBlank(Refill(doc, "timestep", false, showFloat));
    }

    /** `import_json_file`: nothing changes until a JSON text is read; then
        all six fields are emptied and each is refilled from the record. */
    method ImportJson(src: ImportSource, showFloat: real -> string) returns (dialog: ImportDialog)
      modifies this
      ensures src.Cancelled? ==> dialog == NoImportDialog && Text() == old(Text())
      ensures src.Unparsable? ==> dialog == InvalidJsonError && Text() == old(Text())
      ensures src.Unreadable? ==> dialog == ImportFailedError && Text() == old(Text())
      ensures src.NotAnObject? ==> dialog == ImportFailedError && Text() == Blank
      ensures src.Loaded? ==> dialog == ImportSucceeded && Text() == ImportedForm(src.doc, showFloat)
    {
      match src {
        case Cancelled => return NoImportDialog;
        case Unparsable => return InvalidJsonError;
        case Unreadable => return ImportFailedError;
        case NotAnObject =>
          Clear();
          return ImportFailedError;
        case Loaded(doc) =>
          Clear();
          RefillFrom(doc, showFloat);
          return ImportSucceeded;
      }
    }
  }
}
