/** app/admin/page.tsx, handler logic only: the supervisor's daily statistics,
    the checkpoint form with its checklist row editor, and the CSV export. */
module AdminPage {
  import opened Wrappers
  import opened Seqs
  import Text
  import ChecklistMap
  import opened Data

  /** The patrols each guard is expected to complete per day. */
  const PatrolsPerGuard: nat := 5

  // ---- statistics ----

  /** `guards.length * 5` */
  function ExpectedPatrols(guardCount: nat): (expected: nat)
    ensures expected % PatrolsPerGuard == 0 && expected / PatrolsPerGuard == guardCount
  {
    guardCount * PatrolsPerGuard
  }

  /** `expected > 0 ? Math.round((total / expected) * 100) : 0`: the nearest
      whole percentage, not capped at 100. */
  function CompletionRate(total: nat, expected: nat): (rate: int)
    ensures expected == 0 ==> rate == 0
    ensures expected > 0 ==>
      rate as real - 0.5 <= total as real / expected as real * 100.0 < rate as real + 0.5
    ensures rate >= 0
  {
    if expected > 0 then Text.Round(total as real / expected as real * 100.0) else 0
  }

  /** `Math.max(0, expected - total)` */
  function MissedPatrols(expected: nat, total: nat): (missed: nat)
    ensures total >= expected ==> missed == 0
    ensures total < expected ==> missed + total == expected
  {
    if expected > total then expected - total else 0
  }

  /** Six patrols by a single guard show as 120 percent. */
  lemma RateCanExceedHundred()
    ensures CompletionRate(6, ExpectedPatrols(1)) == 120
  {
    assert 6.0 / 5.0 * 100.0 == 120.0;
  }

  /** Dividing by a positive number keeps a lower bound in step. */
  lemma DivAtLeast(a: real, b: real, c: real)
    requires b > 0.0
    ensures a / b >= c <==> a >= c * b
  {
    assert a / b * b == a;
    if a / b >= c {
      assert a / b * b >= c * b;
    } else {
      assert a / b * b < c * b;
    }
  }

  /** The rate reaches 100 exactly when at least 99.5 percent of the expected
      patrols were done. */
  lemma RateFullIff(total: nat, expected: nat)
    requires expected > 0
    ensures CompletionRate(total, expected) >= 100 <==> 200 * total >= 199 * expected
  {
    var q := total as real / expected as real;
    assert CompletionRate(total, expected) >= 100 <==> q * 100.0 >= 99.5;
    DivAtLeast(total as real, expected as real, 0.995);
  }

  /** When nothing is missed the rate shows at least 100 percent, but the
      converse fails: 399 of 400 patrols rounds to 100 percent with one missed. */
  lemma FullRateDoesNotMeanNoneMissed()
    ensures forall total: nat, expected: nat | expected > 0 && MissedPatrols(expected, total) == 0 ::
      CompletionRate(total, expected) >= 100
    ensures CompletionRate(399, 400) == 100 && MissedPatrols(400, 399) == 1
  {
    forall total: nat, expected: nat | expected > 0 && MissedPatrols(expected, total) == 0
      ensures CompletionRate(total, expected) >= 100
    {
      RateFullIff(total, expected);
    }
    assert 399.0 / 400.0 * 100.0 == 99.75;
  }

  // ---- the checkpoint form ----

  /** The `locationForm` state: coordinates are kept as the typed text. */
  datatype LocationDraft = LocationDraft(
    id: string, name: string, latitude: string, longitude: string, checklist: seq<string>)

  /** The initial and reset value: one empty checklist row. */
  const EmptyDraft := LocationDraft("", "", "", "", [""])

  /** The Edit button: the location's fields, with one empty row after its items. */
  function EditDraft(location: Location, numberToString: real -> string): LocationDraft {
    LocationDraft(location.id, location.name, numberToString(location.latitude),
                  numberToString(location.longitude), location.checklist + [""])
  }

  predicate NotBlank(item: string) {
    Text.Trim(item) != ""
  }

  /** `checklist.filter(item => item.trim() !== '')`: the rows that are not
      blank, untrimmed and in order. */
  function SavedChecklist(items: seq<string>): (kept: seq<string>)
    ensures |kept| <= |items|
    ensures forall i :: 0 <= i < |kept| ==> kept[i] in items && NotBlank(kept[i])
    ensures forall i :: 0 <= i < |items| && NotBlank(items[i]) ==> items[i] in kept
  {
    Filter(items, NotBlank)
  }

  /** A row is dropped exactly when it is nothing but white space. */
  lemma SavedChecklistDropsOnlyWhitespace(items: seq<string>)
    ensures forall i :: 0 <= i < |items| ==>
      (items[i] in SavedChecklist(items) <==> exists k :: 0 <= k < |items[i]| && !Text.IsJsWhitespace(items[i][k]))
  {
    forall i | 0 <= i < |items|
      ensures items[i] in SavedChecklist(items) <==> exists k :: 0 <= k < |items[i]| && !Text.IsJsWhitespace(items[i][k])
    {
      Text.TrimEmptyIff(items[i]);
    }
  }

  /** The request `handleLocationSubmit` sends: a PUT when the form holds an id,
      otherwise a POST (whose empty id the store replaces). */
  datatype LocationRequest = PutLocation(patch: LocationPatch) | PostLocation(location: Location)

  function SaveRequest(draft: LocationDraft, parseFloat: string -> real): (r: LocationRequest)
    ensures r.PutLocation? <==> draft.id != ""
    ensures r.PutLocation? ==> r.patch.id == Some(draft.id) && r.patch.checklist == Some(SavedChecklist(draft.checklist))
    ensures r.PostLocation? ==> r.location.checklist == SavedChecklist(draft.checklist)
  {
    var latitude, longitude := parseFloat(draft.latitude), parseFloat(draft.longitude);
    var checklist := SavedChecklist(draft.checklist);
    if draft.id != "" then
      PutLocation(LocationPatch(Some(draft.id), Some(draft.name), Some(latitude), Some(longitude), Some(checklist)))
    else
      PostLocation(Location(draft.id, draft.name, latitude, longitude, checklist))
  }

  /** Editing a location and saving it untouched sends a PUT that gives the
      location back unchanged, provided its items are not blank and the
      coordinates survive the text round trip. */
  lemma {:induction false} EditThenSaveIsIdentity(location: Location, numberToString: real -> string,
                                                  parseFloat: string -> real)
    requires location.id != ""
    requires forall i :: 0 <= i < |location.checklist| ==> NotBlank(location.checklist[i])
    requires parseFloat(numberToString(location.latitude)) == location.latitude
    requires parseFloat(numberToString(location.longitude)) == location.longitude
    ensures var r := SaveRequest(EditDraft(location, numberToString), parseFloat);
      r.PutLocation? && r.patch.id == Some(location.id) && MergeLocation(location, r.patch.(id := None)) == location
  {
    var draft := EditDraft(location, numberToString);
    assert !NotBlank("") by {
      assert Text.TrimEnd(Text.TrimStart("")) == "";
    }
    assert Filter([""], NotBlank) == [];
    FilterAppend(location.checklist, [""], NotBlank);
    FilterKeepsAll(location.checklist, NotBlank);
    assert SavedChecklist(draft.checklist) == location.checklist;
    assert SaveRequest(draft, parseFloat).patch
        == LocationPatch(Some(location.id), Some(location.name), Some(location.latitude),
                         Some(location.longitude), Some(location.checklist));
  }

  class AdminDashboard {
    /** The result of the guard listing: the guard-role users. */
    var guards: seq<User>
    /** The patrol records of the selected date. */
    var patrols: seq<PatrolRecord>
    var locationForm: LocationDraft

    /** The row editor always shows at least one row, the one with the "+" button. */
    ghost predicate Valid()
      reads this
    {
      |locationForm.checklist| >= 1
    }

    constructor ()
      ensures Valid()
      ensures guards == [] && patrols == [] && locationForm == EmptyDraft
    {
      guards := [];
      patrols := [];
      locationForm := EmptyDraft;
    }

    method GuardsLoaded(list: seq<User>)
      modifies this`guards
      ensures guards == list
    {
      guards := list;
    }

    method PatrolsLoaded(list: seq<PatrolRecord>)
      modifies this`patrols
      ensures patrols == list
    {
      patrols := list;
    }

    /** Typing in row `index`: a copy of the rows is edited in place at
        `index` and becomes the new checklist. */
    method EditItem(index: nat, text: string)
      requires Valid() && index < |locationForm.checklist|
      modifies this`locationForm
      ensures Valid()
      ensures |locationForm.checklist| == |old(locationForm.checklist)|
      ensures locationForm.checklist[index] == text
      ensures forall i :: 0 <= i < |locationForm.checklist| && i != index ==>
        locationForm.checklist[i] == old(locationForm.checklist)[i]
      ensures locationForm == old(locationForm).(checklist := locationForm.checklist)
    {
      var rows := locationForm.checklist;
      var copy := new string[|rows|](i requires 0 <= i < |rows| => rows[i]);
      copy[index] := text;
      locationForm := locationForm.(checklist := copy[..]);
    }

    /** The "+" button on the last row: one empty row is appended. */
    method AddItem()
      requires Valid()
      modifies this`locationForm
      ensures Valid()
      ensures locationForm == old(locationForm).(checklist := old(locationForm.checklist) + [""])
    {
      locationForm := locationForm.(checklist := locationForm.checklist + [""]);
    }

    /** The "-" button, shown on every row but the last: exactly that row goes,
        the others keep their order. */
    method RemoveItem(index: nat)
      requires Valid() && index < |locationForm.checklist| - 1
      modifies this`locationForm
      ensures Valid()
      ensures |locationForm.checklist| == |old(locationForm.checklist)| - 1
      ensures forall i :: 0 <= i < index ==> locationForm.checklist[i] == old(locationForm.checklist)[i]
      ensures forall i :: index <= i < |locationForm.checklist| ==> locationForm.checklist[i] == old(locationForm.checklist)[i + 1]
      ensures locationForm == old(locationForm).(checklist := locationForm.checklist)
    {
      var rows := locationForm.checklist;
      locationForm := locationForm.(checklist := rows[..index] + rows[index + 1..]);
    }

    /** The Edit button of a listed location. */
    method EditLocation(location: Location, numberToString: real -> string)
      modifies this`locationForm
      ensures Valid()
      ensures locationForm == EditDraft(location, numberToString)
    {
      locationForm := EditDraft(location, numberToString);
    }

    /** The Cancel button of the form. */
    method CancelEdit()
      modifies this`locationForm
      ensures Valid() && locationForm == EmptyDraft
    {
      locationForm := EmptyDraft;
    }

    /** `handleLocationSubmit`: the request is built from the form as it stands
        and sent. `resolved` says whether the awaited `fetch` resolved, which it
        does for every HTTP answer, a 404 included; only then is the form reset.
        A rejected `fetch` lands in the `catch` and keeps the form as typed. */
    method SaveLocation(parseFloat: string -> real, resolved: bool) returns (request: LocationRequest)
      requires Valid()
      modifies this`locationForm
      ensures Valid()
      ensures request == SaveRequest(old(locationForm), parseFloat)
      ensures resolved ==> locationForm == EmptyDraft
      ensures !resolved ==> locationForm == old(locationForm)
    {
      request := SaveRequest(locationForm, parseFloat);
      if resolved {
        locationForm := EmptyDraft;
      }
    }

    /** `guards.length * 5` over the loaded guards. */
    function Expected(): nat
      reads this
    {
      ExpectedPatrols(|guards|)
    }

    /** `completionRate` over the loaded guards and patrols. With guards
        listed and none of their patrols missed, the page shows at least 100. */
    function Rate(): (rate: int)
      reads this
      ensures guards == [] ==> rate == 0
      ensures guards != [] && Missed() == 0 ==> rate >= 100
    {
      if guards != [] then RateFullIff(|patrols|, Expected()); CompletionRate(|patrols|, Expected())
      else CompletionRate(|patrols|, Expected())
    }

    /** `missedPatrols` over the loaded guards and patrols. */
    function Missed(): (missed: nat)
      reads this
      ensures missed == 0 <==> |patrols| >= Expected()
    {
      MissedPatrols(Expected(), |patrols|)
    }

    /** `downloadCSV`'s text for the loaded patrols: when no cell holds a line
        break, the header line and then one line per loaded patrol. */
    function Export(localeString: string -> string, toFixed6: real -> string): (csv: string)
      reads this
      ensures (forall i, j :: 0 <= i < |patrols| && 0 <= j < |CsvHeader| ==>
                 '\n' !in RowCells(patrols[i], localeString, toFixed6)[j])
        ==> |Split(csv, '\n')| == |patrols| + 1
    {
      if forall i, j :: 0 <= i < |patrols| && 0 <= j < |CsvHeader| ==>
           '\n' !in RowCells(patrols[i], localeString, toFixed6)[j]
      then
        CsvHasOneLinePerPatrol(patrols, localeString, toFixed6);
        Csv(patrols, localeString, toFixed6)
      else
        Csv(patrols, localeString, toFixed6)
    }
  }

  // ---- CSV export ----

  const CsvHeader: seq<string> := ["Date/Time", "Guard", "Location", "Latitude", "Longitude", "Distance (m)", "Checklist"]

  /** Every cell is wrapped in double quotes; quotes inside are not escaped. */
  function Quote(cell: string): string {
    "\"" + cell + "\""
  }

  function CsvLine(cells: seq<string>): string {
    Join(seq(|cells|, i requires 0 <= i < |cells| => Quote(cells[i])), ",")
  }

  /** `${k}: ${v ? 'Yes' : 'No'}` */
  function EntryText(e: ChecklistMap.Entry): string {
    e.item + ": " + (if e.done then "Yes" else "No")
  }

  /** The entry texts, in entry order. */
  function EntryTexts(results: ChecklistMap.Checklist): seq<string> {
    seq(|results|, i requires 0 <= i < |results| => EntryText(results[i]))
  }

  /** `Object.entries(…).map(…).join('; ')` */
  function ChecklistCell(results: ChecklistMap.Checklist): string {
    Join(EntryTexts(results), "; ")
  }

  /** The cell is built entry by entry: empty for no entries, the entry's text
      for one, and each further entry adds `; ` and its text at the end. */
  lemma ChecklistCellShape(results: ChecklistMap.Checklist, e: ChecklistMap.Entry)
    ensures ChecklistCell([]) == ""
    ensures ChecklistCell([e]) == EntryText(e)
    ensures results != [] ==> ChecklistCell(results + [e]) == ChecklistCell(results) + "; " + EntryText(e)
  {
    assert EntryTexts([e]) == [EntryText(e)];
    if results != [] {
      assert EntryTexts(results + [e]) == EntryTexts(results) + [EntryText(e)];
      JoinSnoc(EntryTexts(results), EntryText(e), "; ");
    }
  }

  /** The seven cells of one patrol's row. `localeString` and `toFixed6` stand
      for `new Date(…).toLocaleString()` and `toFixed(6)`. */
  function RowCells(p: PatrolRecord, localeString: string -> string, toFixed6: real -> string): (cells: seq<string>)
    ensures |cells| == |CsvHeader|
  {
    [localeString(p.timestamp), p.guardName, p.locationName, toFixed6(p.latitude), toFixed6(p.longitude),
     Text.IntToString(Text.Round(p.distanceFromCheckpoint)), ChecklistCell(p.checklistResults)]
  }

  function CsvLines(patrols: seq<PatrolRecord>, localeString: string -> string, toFixed6: real -> string): seq<string> {
    [CsvLine(CsvHeader)] + seq(|patrols|, i requires 0 <= i < |patrols| => CsvLine(RowCells(patrols[i], localeString, toFixed6)))
  }

  /** `downloadCSV`'s text: the header line, then one line per patrol. */
  function Csv(patrols: seq<PatrolRecord>, localeString: string -> string, toFixed6: real -> string): string {
    Join(CsvLines(patrols, localeString, toFixed6), "\n")
  }

  /** A line holds no line break when none of its cells does. */
  lemma CsvLineSingleLine(cells: seq<string>)
    requires forall i :: 0 <= i < |cells| ==> '\n' !in cells[i]
    ensures '\n' !in CsvLine(cells)
  {
    var quoted := seq(|cells|, i requires 0 <= i < |cells| => Quote(cells[i]));
    forall i | 0 <= i < |quoted|
      ensures '\n' !in quoted[i]
    {
      assert quoted[i] == "\"" + cells[i] + "\"";
    }
    JoinAvoids(quoted, ",", '\n');
  }

  /** When no cell contains a line break, splitting the export at line breaks
      gives back the header line followed by one line per patrol, in order. */
  lemma CsvHasOneLinePerPatrol(patrols: seq<PatrolRecord>, localeString: string -> string, toFixed6: real -> string)
    requires forall i, j :: 0 <= i < |patrols| && 0 <= j < |CsvHeader| ==>
      '\n' !in RowCells(patrols[i], localeString, toFixed6)[j]
    ensures Split(Csv(patrols, localeString, toFixed6), '\n') == CsvLines(patrols, localeString, toFixed6)
    ensures |Split(Csv(patrols, localeString, toFixed6), '\n')| == |patrols| + 1
  {
    var lines := CsvLines(patrols, localeString, toFixed6);
    forall k | 0 <= k < |lines|
      ensures '\n' !in lines[k]
    {
      if k == 0 {
        CsvLineSingleLine(CsvHeader);
      } else {
        CsvLineSingleLine(RowCells(patrols[k - 1], localeString, toFixed6));
      }
    }
    assert "\n" == ['\n'];
    SplitJoin(lines, '\n');
  }

  /** Without escaping, one cell holding `a","b` exports exactly like the two
      cells `a` and `b`. */
  lemma QuotesAreNotEscaped()
    ensures CsvLine(["a\",\"b"]) == CsvLine(["a", "b"])
  {
    assert CsvLine(["a\",\"b"]) == "\"a\",\"b\"";
    var two := ["a", "b"];
    assert seq(|two|, i requires 0 <= i < |two| => Quote(two[i])) == [Quote("a"), Quote("b")];
    assert [Quote("a"), Quote("b")][1..] == [Quote("b")];
    assert CsvLine(two) == Quote("a") + "," + Quote("b");
  }
}
