/** The result panes (src/gui/output.py). The output pane lays out its
    sections from the result's budget schedule and gate count, renames the
    budget columns of the gate table, and shows the dots of one budget row
    on the map at a time; the download pane derives the default folder
    name, enables its checkboxes from the figures, and picks the files to
    save. The result tables and figures are reduced to the few values these
    rules read: the budget triple, the gate lists of the summary rows, the
    column names and the figure names. */
module Output {
  import opened Text
  import opened Wrappers
  import Op
  import Budgets
  import Info

  // ---------------------------------------------------------------------
  // Gate table columns
  // ---------------------------------------------------------------------

  /** The columns named by a budget amount are those whose name is all
      digits; each such amount must be one the formatter writes exactly. */
  predicate BudgetColumnsFormattable(cols: seq<string>)
  {
    forall i :: 0 <= i < |cols| && IsDigitString(cols[i]) ==> Op.Representable(DigitsValue(cols[i]))
  }

  /** The renaming of the gate table's columns: a budget column becomes its
      dollar label, any other column keeps its name, and the order stays. */
  function RenameColumns(cols: seq<string>): (r: seq<string>)
    requires BudgetColumnsFormattable(cols)
    ensures |r| == |cols|
    ensures forall i :: 0 <= i < |cols| && !IsDigitString(cols[i]) ==> r[i] == cols[i]
    ensures forall i :: 0 <= i < |cols| && IsDigitString(cols[i]) ==> StartsWith(r[i], "$")
  {
    seq(|cols|, i requires 0 <= i < |cols| =>
      if IsDigitString(cols[i]) then Op.FormatBudgetAmount(DigitsValue(cols[i])) else cols[i])
  }

  /** A renamed budget column reads back as the budget it was named by. */
  lemma RenamedColumnParsesBack(cols: seq<string>, i: nat)
    requires BudgetColumnsFormattable(cols) && i < |cols| && IsDigitString(cols[i])
    ensures Budgets.FixedBudgetBox.ParseDollarAmount(RenameColumns(cols)[i]) == DigitsValue(cols[i])
  {
    Budgets.ParseFormatRoundTrip(DigitsValue(cols[i]));
  }

  /** When no other column starts with "$", the columns that get the
      tick-cross formatter for starting with "$" are exactly the budget
      columns. */
  lemma DollarColumnsAreBudgets(cols: seq<string>, i: nat)
    requires BudgetColumnsFormattable(cols) && i < |cols|
    requires forall j :: 0 <= j < |cols| ==> !StartsWith(cols[j], "$")
    ensures StartsWith(RenameColumns(cols)[i], "$") <==> IsDigitString(cols[i])
  {
  }

  // ---------------------------------------------------------------------
  // Output pane
  // ---------------------------------------------------------------------

  /** `gate_count`: the number of gates over all summary rows. */
  function GateCount(gates: seq<seq<string>>): (r: nat)
    ensures forall i :: 0 <= i < |gates| ==> |gates[i]| <= r
  {
    if gates == [] then 0 else GateCount(gates[..|gates| - 1]) + |gates[|gates| - 1]|
  }

  /** The gate count is zero exactly when no budget selected a gate. */
  lemma {:induction false} NoGatesIffEmpty(gates: seq<seq<string>>)
    ensures GateCount(gates) == 0 <==> forall i :: 0 <= i < |gates| ==> gates[i] == []
  {
    if gates != [] {
      var front := gates[..|gates| - 1];
      NoGatesIffEmpty(front);
      if GateCount(gates) == 0 {
        forall i | 0 <= i < |gates| ensures gates[i] == [] {
          if i < |front| {
            assert front[i] == gates[i];
          }
        }
      } else if GateCount(front) != 0 {
        var i :| 0 <= i < |front| && front[i] != [];
        assert gates[i] == front[i];
      } else {
        assert gates[|gates| - 1] != [];
      }
    }
  }

  datatype Section = ResultsHeader | Title | RoiHeader | Figures | SummaryHeader | NoBarriersNote | BudgetTable | BarrierDetails

  /** The sections of the output pane, from top to bottom. */
  function Layout(bcount: int, gateCount: nat): (r: seq<Section>)
    ensures Figures in r <==> bcount > 1
    ensures BudgetTable in r <==> gateCount > 0
    ensures BarrierDetails in r <==> gateCount > 0
    ensures NoBarriersNote in r <==> gateCount == 0
    ensures |r| >= 3 && r[0] == ResultsHeader && r[1] == Title
  {
    [ResultsHeader, Title] + (if bcount > 1 then [RoiHeader, Figures] else []) + [SummaryHeader]
      + (if gateCount == 0 then [NoBarriersNote] else [BudgetTable, BarrierDetails])
  }

  /** Which dots are drawn on the map, and which budget row they belong to. */
  datatype DotState = DotState(selected: Option<nat>, visible: seq<bool>)
  {
    predicate InRange()
    {
      selected.Some? ==> selected.value < |visible|
    }

    /** At most one row's dots are visible, and they are the selected row's. */
    predicate OneShown()
    {
      forall i :: 0 <= i < |visible| ==> (visible[i] <==> selected == Some(i))
    }
  }

  /** Python's truth value of `selected_row`: None and row 0 are false. */
  predicate Truthy(row: Option<nat>)
  {
    row.Some? && row.value != 0
  }

  /** `budget_table_cb` as written: the previous row is hidden only when it
      is truthy, then the clicked row is selected and shown. */
  function ClickAsWritten(d: DotState, row: nat): (r: DotState)
    requires d.InRange() && row < |d.visible|
    ensures r.InRange() && r.selected == Some(row) && |r.visible| == |d.visible| && r.visible[row]
    ensures forall i :: 0 <= i < |d.visible| && i != row ==> (r.visible[i] <==> d.visible[i] && !(Truthy(d.selected) && d.selected.value == i))
  {
    var v := if Truthy(d.selected) then d.visible[d.selected.value := false] else d.visible;
    DotState(Some(row), v[row := true])
  }

  /** `hide_dots` as written: the selected row is hidden only when it is
      truthy, and the selection is cleared. */
  function HideAsWritten(d: DotState): (r: DotState)
    requires d.InRange()
    ensures r.selected.None? && |r.visible| == |d.visible|
    ensures forall i :: 0 <= i < |d.visible| ==> (r.visible[i] <==> d.visible[i] && !(Truthy(d.selected) && d.selected.value == i))
  {
    DotState(None, if Truthy(d.selected) then d.visible[d.selected.value := false] else d.visible)
  }

  /** The click as evidently intended: whatever row was selected is hidden. */
  function Click(d: DotState, row: nat): (r: DotState)
    requires d.InRange() && row < |d.visible|
    ensures r.InRange() && r.selected == Some(row) && |r.visible| == |d.visible|
  {
    var v := if d.selected.Some? then d.visible[d.selected.value := false] else d.visible;
    DotState(Some(row), v[row := true])
  }

  /** `hide_dots` as evidently intended. */
  function Hide(d: DotState): (r: DotState)
    requires d.InRange()
    ensures r.selected.None? && |r.visible| == |d.visible|
  {
    DotState(None, if d.selected.Some? then d.visible[d.selected.value := false] else d.visible)
  }

  /** The intended click keeps exactly one row's dots on the map. */
  lemma ClickKeepsOneShown(d: DotState, row: nat)
    requires d.InRange() && d.OneShown() && row < |d.visible|
    ensures Click(d, row).OneShown()
  {
  }

  /** The intended hide leaves no dots on the map. */
  lemma HideClearsMap(d: DotState)
    requires d.InRange() && d.OneShown()
    ensures Hide(d).OneShown()
    ensures forall i :: 0 <= i < |d.visible| ==> !Hide(d).visible[i]
  {
  }

  /** As written and as intended agree unless row 0 is the selected row. */
  lemma AgreeAwayFromRowZero(d: DotState, row: nat)
    requires d.InRange() && row < |d.visible| && d.selected != Some(0)
    ensures ClickAsWritten(d, row) == Click(d, row) && HideAsWritten(d) == Hide(d)
  {
  }

  /** The dots as `make_dots` leaves them: none selected, all hidden. */
  function NoDots(rows: nat): (r: DotState)
    ensures r.InRange() && r.OneShown() && |r.visible| == rows
  {
    DotState(None, seq(rows, _ => false))
  }

  /** Clicking row 0 and then row 1 leaves both rows' dots on the map,
      and hiding after clicking row 0 leaves row 0's dots on it. */
  lemma RowZeroStaysShown(rows: nat)
    requires rows >= 2
    ensures var d := ClickAsWritten(ClickAsWritten(NoDots(rows), 0), 1);
      d.visible[0] && d.visible[1] && !d.OneShown()
    ensures var h := HideAsWritten(ClickAsWritten(NoDots(rows), 0));
      h.visible[0] && !h.OneShown()
  {
    var first := ClickAsWritten(NoDots(rows), 0);
    assert first.visible[0] && first.selected == Some(0);
    var d := ClickAsWritten(first, 1);
    assert d.visible[0];
  }

  /** The pane after its constructor: its sections, the gate count and,
      when the budget table was made, the dots of each of its rows.
      `hasDots` records whether `make_dots` has run: until it does, the
      attributes `selected_row` and `dots` do not exist, and the two fields
      below stand empty. */
  class OutputPane {
    var sections: seq<Section>
    var gateCount: nat
    var hasDots: bool
    var selectedRow: Option<nat>
    var dots: seq<bool>

    function State(): (r: DotState)
      reads this
      ensures r.selected == selectedRow && r.visible == dots
    {
      DotState(selectedRow, dots)
    }

    /** The selected row is a row of the table, and only its dots show;
        a pane without dots has neither. */
    predicate Valid()
      reads this
    {
      State().InRange() && State().OneShown() && (!hasDots ==> State() == NoDots(0))
    }

    /** `__init__`: the ROI section only for several budget levels, the
        budget and barrier tables only when some gate was selected, and the
        dots once the budget table (with `tableRows` rows) is made. */
    constructor (b: Budgets.Triple, gates: seq<seq<string>>, tableRows: nat)
      ensures Valid()
      ensures sections == Layout(b.count, GateCount(gates)) && gateCount == GateCount(gates)
      ensures hasDots <==> gateCount > 0
      ensures hasDots ==> State() == NoDots(tableRows)
    {
      var layout := [ResultsHeader, Title];
      if b.count > 1 {
        layout := layout + [RoiHeader, Figures];
      }
      layout := layout + [SummaryHeader];
      var count := GateCount(gates);
      if count == 0 {
        layout := layout + [NoBarriersNote];
      } else {
        layout := layout + [BudgetTable, BarrierDetails];
      }
      sections := layout;
      gateCount := count;
      hasDots := false;
      selectedRow := None;
      dots := [];
      new;
      if count > 0 {
        MakeDots(tableRows);
      }
    }

    /** `make_dots`: one hidden group of dots per budget row. */
    method MakeDots(rows: nat)
      modifies this
      ensures hasDots && State() == NoDots(rows)
      ensures sections == old(sections) && gateCount == old(gateCount)
    {
      hasDots := true;
      selectedRow := None;
      dots := [];
      var i := 0;
      while i < rows
        invariant i <= rows && dots == seq(i, _ => false) && selectedRow == None && hasDots
        invariant sections == old(sections) && gateCount == old(gateCount)
      {
        dots := dots + [false];
        i := i + 1;
      }
    }

    /** `budget_table_cb`, with the previous row hidden whichever row it
        was (`ClickAsWritten` is the code's own test). */
    method BudgetTableCb(row: nat)
      requires Valid() && row < |dots|
      modifies this
      ensures Valid() && State() == Click(old(State()), row)
      ensures sections == old(sections) && gateCount == old(gateCount) && hasDots == old(hasDots)
    {
      ClickKeepsOneShown(State(), row);
      if selectedRow.Some? {
        dots := dots[selectedRow.value := false];
      }
      selectedRow := Some(row);
      dots := dots[row := true];
    }

    /** `hide_dots`, with the selected row hidden whichever row it was
        (`HideAsWritten` is the code's own test). On a pane whose budget
        table was never made, reading `selected_row` raises AttributeError:
        `ok` is false and nothing changes. */
    method HideDots() returns (ok: bool)
      requires Valid()
      modifies this
      ensures ok <==> old(hasDots)
      ensures Valid() && hasDots == old(hasDots)
      ensures ok ==> State() == Hide(old(State())) && forall i :: 0 <= i < |dots| ==> !dots[i]
      ensures !ok ==> State() == old(State())
      ensures sections == old(sections) && gateCount == old(gateCount)
    {
      if !hasDots {
        return false;
      }
      ok := true;
      HideClearsMap(State());
      if selectedRow.Some? {
        dots := dots[selectedRow.value := false];
      }
      selectedRow := None;
    }
  }

  // ---------------------------------------------------------------------
  // Title
  // ---------------------------------------------------------------------

  function Upper(c: char): char { if 'a' <= c <= 'z' then (c as int - 32) as char else c }
  function Lower(c: char): char { if 'A' <= c <= 'Z' then (c as int + 32) as char else c }

  /** Python's `capitalize` on ASCII text: the first letter upper case, the
      rest lower case. */
  function Capitalize(s: string): (r: string)
    ensures |r| == |s|
  {
    if s == [] then [] else [Upper(s[0])] + seq(|s| - 1, i requires 0 <= i < |s| - 1 => Lower(s[i + 1]))
  }

  /** The amounts the title formats can be written by the formatter. */
  predicate TitleFormattable(b: Budgets.Triple)
  {
    if b.count > 1 then Op.Representable(b.increment) && Op.Representable(b.increment * b.count)
    else Op.Representable(b.start)
  }

  /** The budget part of the title as written: for a single budget the
      formatted amount is computed but the text holds the literal "{b}". */
  function TitleBudgetAsWritten(b: Budgets.Triple): (r: string)
    requires TitleFormattable(b)
    ensures b.count > 1 ==> r == TitleBudget(b)
    ensures b.count <= 1 ==> r == " <b>Budget:</b> {b}</p>"
  {
    if b.count > 1 then
      " <b>Budgets:</b> " + Op.FormatBudgetAmount(b.increment) + " to " + Op.FormatBudgetAmount(b.increment * b.count) + "</p>"
    else
      var amount := Op.FormatBudgetAmount(b.start);
      " <b>Budget:</b> {b}</p>"
  }

  /** The budget part of the title as evidently intended. */
  function TitleBudget(b: Budgets.Triple): (r: string)
    requires TitleFormattable(b)
    ensures EndsWith(r, "</p>")
  {
    if b.count > 1 then
      " <b>Budgets:</b> " + Op.FormatBudgetAmount(b.increment) + " to " + Op.FormatBudgetAmount(b.increment * b.count) + "</p>"
    else
      " <b>Budget:</b> " + Op.FormatBudgetAmount(b.start) + "</p>"
  }

  /** `_make_title`: regions, targets (with their weights), the mapping
      when the project has one, and the budgets, of which it shows the top
      budget of a range or the single budget. The short target names come
      from the project's target table and are passed in. */
  function TitleText(regions: seq<string>, shortNames: seq<string>, weights: seq<string>,
                     mappingName: string, mapping: Option<string>, b: Budgets.Triple): (r: string)
    requires weights == [] || |weights| >= |shortNames|
    requires TitleFormattable(b)
    ensures b.count > 1 ==> Contains(r, Op.FormatBudgetAmount(b.increment * b.count))
    ensures b.count <= 1 ==> Contains(r, Op.FormatBudgetAmount(b.start))
  {
    var head := TitleHead(regions, shortNames, weights, mappingName, mapping);
    TitleShowsBudget(head, b);
    head + TitleBudget(b)
  }

  /** The title up to its budget part. */
  function TitleHead(regions: seq<string>, shortNames: seq<string>, weights: seq<string>,
                     mappingName: string, mapping: Option<string>): (r: string)
    requires weights == [] || |weights| >= |shortNames|
    ensures StartsWith(r, "<p><b>Regions:</b> " + Join(", ", regions) + ";")
    ensures mappingName == "" ==> EndsWith(r, " <b>Targets:</b> " + Join(", ", TitleTargets(shortNames, weights)) + ";")
  {
    var lead := "<p><b>Regions:</b> " + Join(", ", regions) + ";";
    var targets := " <b>Targets:</b> " + Join(", ", TitleTargets(shortNames, weights)) + ";";
    var tail := if mappingName != "" then " <b>" + Capitalize(mappingName) + ":</b> " + Info.MappingText(mapping) + ";" else "";
    assert (lead + targets + tail)[..|lead|] == lead;
    assert mappingName == "" ==> (lead + targets + tail)[|lead + targets + tail| - |targets|..] == targets;
    lead + targets + tail
  }

  /** The target names of the title: the short names, each followed by
      " ⨉ weight" when weights are given. */
  function TitleTargets(shortNames: seq<string>, weights: seq<string>): (r: seq<string>)
    requires weights == [] || |weights| >= |shortNames|
    ensures |r| == |shortNames|
    ensures weights == [] ==> r == shortNames
    ensures weights != [] ==> forall i :: 0 <= i < |r| ==> r[i] == shortNames[i] + Info.Times + weights[i]
  {
    if weights == [] then shortNames
    else seq(|shortNames|, i requires 0 <= i < |shortNames| => shortNames[i] + Info.Times + weights[i])
  }

  /** Whatever precedes it, the budget part keeps its amount in view. */
  lemma TitleShowsBudget(head: string, b: Budgets.Triple)
    requires TitleFormattable(b)
    ensures b.count > 1 ==> Contains(head + TitleBudget(b), Op.FormatBudgetAmount(b.increment * b.count))
    ensures b.count <= 1 ==> Contains(head + TitleBudget(b), Op.FormatBudgetAmount(b.start))
  {
    if b.count > 1 {
      TitleShowsTopBudget(b);
      ContainsAfter(head, TitleBudget(b), Op.FormatBudgetAmount(b.increment * b.count));
    } else {
      TitleShowsSingleBudget(b);
      ContainsAfter(head, TitleBudget(b), Op.FormatBudgetAmount(b.start));
    }
  }

  /** A part that occurs in a string holds the string's characters. */
  lemma ContainedCharacters(s: string, part: string)
    requires Contains(s, part) && part != []
    ensures part[0] in s
  {
    var i :| 0 <= i <= |s| - |part| && OccursAt(s, part, i);
    assert s[i..i + |part|][0] == s[i];
  }

  /** For several levels the title's range ends at increment times count. */
  lemma TitleShowsTopBudget(b: Budgets.Triple)
    requires TitleFormattable(b) && b.count > 1
    ensures Contains(TitleBudget(b), Op.FormatBudgetAmount(b.increment * b.count))
  {
    var top := Op.FormatBudgetAmount(b.increment * b.count);
    var head := " <b>Budgets:</b> " + Op.FormatBudgetAmount(b.increment) + " to ";
    assert TitleBudget(b) == head + top + "</p>";
    ContainsMiddle(head, top, "</p>");
  }

  /** For a single budget the intended title shows the amount... */
  lemma TitleShowsSingleBudget(b: Budgets.Triple)
    requires TitleFormattable(b) && b.count <= 1
    ensures Contains(TitleBudget(b), Op.FormatBudgetAmount(b.start))
  {
    ContainsMiddle(" <b>Budget:</b> ", Op.FormatBudgetAmount(b.start), "</p>");
  }

  /** ...while the title as written shows no amount at all. */
  lemma TitleAsWrittenHidesBudget(b: Budgets.Triple)
    requires TitleFormattable(b) && b.count <= 1
    ensures !Contains(TitleBudgetAsWritten(b), Op.FormatBudgetAmount(b.start))
  {
    var s := TitleBudgetAsWritten(b);
    var f := Op.FormatBudgetAmount(b.start);
    assert s == " <b>Budget:</b> {b}</p>";
    assert f[0] == '$';
    assert '$' !in s by {
      forall i | 0 <= i < |s| ensures s[i] != '$' {
      }
    }
    if Contains(s, f) {
      ContainedCharacters(s, f);
    }
  }

  // ---------------------------------------------------------------------
  // Download pane
  // ---------------------------------------------------------------------

  /** The four checkboxes, keyed in the source by their labels. */
  datatype BoxName = NB | BS | IT | BD
  {
    function Label(): string
    {
      match this
      case NB => "Net benefit plot"
      case BS => "Budget summary table"
      case IT => "Individual target plots"
      case BD => "Barrier detail table"
    }
  }

  datatype Checkbox = Checkbox(value: bool, disabled: bool)

  /** The checkboxes as `__init__` leaves them, given the names of the
      figures: the tables checked, the target plots enabled and checked when
      there are figures, the net benefit plot when the first one is 'Net'. */
  function InitialBoxes(figures: seq<string>): map<BoxName, Checkbox>
  {
    var plots := figures != [];
    var net := plots && figures[0] == "Net";
    map[NB := Checkbox(net, !net), BS := Checkbox(true, false), IT := Checkbox(plots, !plots), BD := Checkbox(true, false)]
  }

  /** The four boxes and what they say after construction. */
  lemma InitialBoxRules(figures: seq<string>)
    ensures InitialBoxes(figures).Keys == {NB, BS, IT, BD}
    ensures InitialBoxes(figures)[BS] == Checkbox(true, false) && InitialBoxes(figures)[BD] == Checkbox(true, false)
    ensures !InitialBoxes(figures)[IT].disabled <==> figures != []
    ensures !InitialBoxes(figures)[NB].disabled <==> figures != [] && figures[0] == "Net"
    ensures forall x :: x in InitialBoxes(figures) ==> (InitialBoxes(figures)[x].value <==> !InitialBoxes(figures)[x].disabled)
  {
  }

  /** The boxes the constructor's loop has made after the given names. */
  function StartBoxes(names: seq<BoxName>): map<BoxName, Checkbox>
  {
    if names == [] then map[]
    else
      var x := names[|names| - 1];
      StartBoxes(names[..|names| - 1])[x := if x == NB || x == IT then Checkbox(false, true) else Checkbox(true, false)]
  }

  /** The guard of `_archive_cb`: some box is checked. */
  predicate AnyChecked(boxes: map<BoxName, Checkbox>)
  {
    exists x :: x in boxes && boxes[x].value
  }

  datatype ImageType = Html | Pdf | Png | Jpeg

  /** The file extension of a figure: the format's name in lower case. */
  function Extension(t: ImageType): string
  {
    match t
    case Html => "html"
    case Pdf => "pdf"
    case Png => "png"
    case Jpeg => "jpeg"
  }

  /** The boxes `_save_files` reads; the constructor makes all four. */
  predicate HasBoxes(boxes: map<BoxName, Checkbox>)
  {
    NB in boxes && IT in boxes && BS in boxes && BD in boxes
  }

  /** Whether a figure is saved: 'Net' with the net benefit box, any other
      figure with the target plots box. */
  predicate Saved(boxes: map<BoxName, Checkbox>, name: string)
    requires HasBoxes(boxes)
  {
    if name == "Net" then boxes[NB].value else boxes[IT].value
  }

  /** The names of the figures that are saved, in order. */
  function SavedFigures(boxes: map<BoxName, Checkbox>, figures: seq<string>): seq<string>
    requires HasBoxes(boxes)
  {
    if figures == [] then []
    else
      var last := figures[|figures| - 1];
      SavedFigures(boxes, figures[..|figures| - 1]) + (if Saved(boxes, last) then [last] else [])
  }

  /** The files written into the folder: the saved figures, then the tables
      whose boxes are checked. */
  function SavedFiles(boxes: map<BoxName, Checkbox>, figures: seq<string>, t: ImageType): seq<string>
    requires HasBoxes(boxes)
  {
    var kept := SavedFigures(boxes, figures);
    seq(|kept|, i requires 0 <= i < |kept| => kept[i] + "." + Extension(t))
      + (if boxes[BS].value then ["budget_summary.csv"] else [])
      + (if boxes[BD].value then ["barrier_details.csv"] else [])
  }

  /** A figure is saved iff it was made and its box is checked. */
  lemma {:induction false} SavedFiguresRule(boxes: map<BoxName, Checkbox>, figures: seq<string>, name: string)
    requires HasBoxes(boxes)
    ensures name in SavedFigures(boxes, figures) <==> name in figures && Saved(boxes, name)
  {
    if figures != [] {
      var front := figures[..|figures| - 1];
      SavedFiguresRule(boxes, front, name);
      assert figures == front + [figures[|figures| - 1]];
    }
  }

  /** The tables are written last, each exactly when its box is checked. */
  lemma SavedTables(boxes: map<BoxName, Checkbox>, figures: seq<string>, t: ImageType)
    requires HasBoxes(boxes)
    ensures var files := SavedFiles(boxes, figures, t);
      var n := |SavedFigures(boxes, figures)|;
      |files| == n + (if boxes[BS].value then 1 else 0) + (if boxes[BD].value then 1 else 0) &&
      files[n..] == (if boxes[BS].value then ["budget_summary.csv"] else []) + (if boxes[BD].value then ["barrier_details.csv"] else [])
  {
  }

  /** The name fields `_make_folder_name` joins. */
  function FolderParts(regions: seq<string>, targets: seq<string>, weights: seq<string>,
                       mapping: Option<string>, b: Budgets.Triple): (r: seq<string>)
    requires weights == [] || |weights| >= |targets|
    requires Op.Representable(b.increment * b.count)
    ensures |r| == |regions| + |targets| + 1 + (if mapping.Some? && mapping.value != "" then 1 else 0)
  {
    var lst := if weights == [] then targets
      else seq(|targets|, i requires 0 <= i < |targets| => targets[i] + "x" + weights[i]);
    seq(|regions|, i requires 0 <= i < |regions| => TakePrefix(regions[i], 3)) + lst
      + [Op.FormatBudgetAmount(b.increment * b.count)[1..]]
      + (if mapping.Some? && mapping.value != "" then [mapping.value] else [])
  }

  /** No character of a non-negative formatted amount is an underscore. */
  lemma FormatNoUnderscore(n: int)
    requires Op.Representable(n) && n >= 0
    ensures '_' !in Op.FormatBudgetAmount(n)
  {
    Op.FormatShape(n);
    var divisor := if n >= Op.Million then Op.Million else Op.Thousand;
    var digits := NatToString(n / divisor);
    forall i | 0 <= i < |digits| ensures digits[i] != '_' {
      assert IsDigit(digits[i]);
    }
  }

  /** No field holds an underscore. */
  predicate NoUnderscores(parts: seq<string>)
  {
    forall k :: 0 <= k < |parts| ==> '_' !in parts[k]
  }

  lemma NoUnderscoresConcat(a: seq<string>, b: seq<string>)
    requires NoUnderscores(a) && NoUnderscores(b)
    ensures NoUnderscores(a + b)
  {
    forall k | 0 <= k < |a + b| ensures '_' !in (a + b)[k] {
      if k >= |a| {
        assert (a + b)[k] == b[k - |a|];
      }
    }
  }

  /** A region's first three characters hold no underscore the name lacks. */
  lemma RegionPrefixesFree(regions: seq<string>)
    requires NoUnderscores(regions)
    ensures NoUnderscores(seq(|regions|, i requires 0 <= i < |regions| => TakePrefix(regions[i], 3)))
  {
    var p := seq(|regions|, i requires 0 <= i < |regions| => TakePrefix(regions[i], 3));
    forall k | 0 <= k < |p| ensures '_' !in p[k] {
      var r := regions[k];
      forall i | 0 <= i < |p[k]| ensures p[k][i] != '_' {
        assert p[k][i] == r[i] && r[i] in r;
      }
    }
  }

  /** The target fields hold no underscore the targets and weights lack. */
  lemma TargetFieldsFree(targets: seq<string>, weights: seq<string>)
    requires weights == [] || |weights| >= |targets|
    requires NoUnderscores(targets) && NoUnderscores(weights)
    ensures NoUnderscores(if weights == [] then targets
      else seq(|targets|, i requires 0 <= i < |targets| => targets[i] + "x" + weights[i]))
  {
  }

  /** The budget field, the formatted top budget without its "$". */
  lemma BudgetFieldFree(n: int)
    requires Op.Representable(n) && n >= 0
    ensures '_' !in Op.FormatBudgetAmount(n)[1..]
  {
    var f := Op.FormatBudgetAmount(n);
    FormatNoUnderscore(n);
    forall i | 0 <= i < |f| - 1 ensures f[1..][i] != '_' {
      assert f[1..][i] == f[i + 1] && f[i + 1] in f;
    }
  }

  /** The default folder name splits back on '_' into its fields when no
      region, target, weight or mapping holds an underscore. */
  lemma FolderNameSplits(regions: seq<string>, targets: seq<string>, weights: seq<string>,
                         mapping: Option<string>, b: Budgets.Triple)
    requires weights == [] || |weights| >= |targets|
    requires Op.Representable(b.increment * b.count) && b.increment * b.count >= 0
    requires NoUnderscores(regions) && NoUnderscores(targets) && NoUnderscores(weights)
    requires mapping.Some? ==> '_' !in mapping.value
    ensures Split(Join("_", FolderParts(regions, targets, weights, mapping, b)), '_') == FolderParts(regions, targets, weights, mapping, b)
  {
    var prefixes := seq(|regions|, i requires 0 <= i < |regions| => TakePrefix(regions[i], 3));
    var lst := if weights == [] then targets
      else seq(|targets|, i requires 0 <= i < |targets| => targets[i] + "x" + weights[i]);
    var top := [Op.FormatBudgetAmount(b.increment * b.count)[1..]];
    var tail := if mapping.Some? && mapping.value != "" then [mapping.value] else [];
    var parts := FolderParts(regions, targets, weights, mapping, b);
    assert parts == prefixes + lst + top + tail;
    RegionPrefixesFree(regions);
    TargetFieldsFree(targets, weights);
    BudgetFieldFree(b.increment * b.count);
    NoUnderscoresConcat(prefixes, lst);
    NoUnderscoresConcat(prefixes + lst, top);
    NoUnderscoresConcat(prefixes + lst + top, tail);
    assert "_" == ['_'];
    SplitJoin(parts, '_');
  }

  /** The download pane: its checkboxes, the default folder name, and
      whether the form is shown (the barrier detail table is not empty). */
  class DownloadPane {
    var boxes: map<BoxName, Checkbox>
    var folderName: string
    var showsForm: bool

    /** `__init__`: the folder name, then the four boxes in the order net
        benefit, budget summary, target plots, barrier details, then the
        plot boxes enabled from the figures. */
    constructor (regions: seq<string>, targets: seq<string>, weights: seq<string>, mapping: Option<string>,
                 b: Budgets.Triple, figures: seq<string>, detailRows: nat)
      requires weights == [] || |weights| >= |targets|
      requires Op.Representable(b.increment * b.count)
      ensures boxes == InitialBoxes(figures)
      ensures folderName == Join("_", FolderParts(regions, targets, weights, mapping, b))
      ensures showsForm <==> detailRows > 0
    {
      var name := MakeFolderName(regions, targets, weights, mapping, b);
      folderName := name;
      var bx := MakeBoxes();
      if |figures| > 0 {
        if figures[0] == "Net" {
          bx := bx[NB := Checkbox(true, false)];
        }
        bx := bx[IT := Checkbox(true, false)];
      }
      boxes := bx;
      showsForm := detailRows > 0;
    }

    /** The loop of `__init__` over the four boxes: the plot boxes
        disabled and unchecked, the table boxes checked. */
    static method MakeBoxes() returns (bx: map<BoxName, Checkbox>)
      ensures bx == map[NB := Checkbox(false, true), BS := Checkbox(true, false), IT := Checkbox(false, true), BD := Checkbox(true, false)]
    {
      bx := map[];
      var order := [NB, BS, IT, BD];
      var i := 0;
      while i < |order|
        invariant 0 <= i <= |order|
        invariant bx == StartBoxes(order[..i])
      {
        var x := order[i];
        assert order[..i + 1][..i] == order[..i];
        if x == NB || x == IT {
          bx := bx[x := Checkbox(false, true)];
        } else {
          bx := bx[x := Checkbox(true, false)];
        }
        i := i + 1;
      }
      assert order[..4] == order;
      assert order[..4][..3] == order[..3] && order[..3][..2] == order[..2];
      assert order[..2][..1] == order[..1] && order[..1][..0] == [];
      assert StartBoxes(order[..1]) == map[NB := Checkbox(false, true)];
      assert StartBoxes(order[..2]) == map[NB := Checkbox(false, true), BS := Checkbox(true, false)];
      assert StartBoxes(order[..3]) == map[NB := Checkbox(false, true), BS := Checkbox(true, false), IT := Checkbox(false, true)];
    }

    /** `_make_folder_name`: region prefixes, then the targets (each with
        'x' and its weight when there are weights), then the top budget
        without its "$", then the mapping when there is one, joined by '_'. */
    static method MakeFolderName(regions: seq<string>, targets: seq<string>, weights: seq<string>,
                                 mapping: Option<string>, b: Budgets.Triple) returns (name: string)
      requires weights == [] || |weights| >= |targets|
      requires Op.Representable(b.increment * b.count)
      ensures name == Join("_", FolderParts(regions, targets, weights, mapping, b))
    {
      ghost var spec := FolderParts(regions, targets, weights, mapping, b);
      var parts := seq(|regions|, i requires 0 <= i < |regions| => TakePrefix(regions[i], 3));
      var lst := targets;
      if weights != [] {
        lst := seq(|lst|, i requires 0 <= i < |lst| => lst[i] + "x" + weights[i]);
      }
      assert lst == (if weights == [] then targets
        else seq(|targets|, i requires 0 <= i < |targets| => targets[i] + "x" + weights[i]));
      parts := parts + lst;
      parts := parts + [Op.FormatBudgetAmount(b.increment * b.count)[1..]];
      if mapping.Some? && mapping.value != "" {
        parts := parts + [mapping.value];
      }
      assert parts == spec;
      name := Join("_", parts);
    }

    /** A click on an enabled checkbox flips it: the widget's own behaviour,
        which is how the boxes change after construction. */
    method Toggle(x: BoxName)
      requires x in boxes && !boxes[x].disabled
      modifies this
      ensures boxes == old(boxes)[x := Checkbox(!old(boxes)[x].value, false)]
      ensures folderName == old(folderName) && showsForm == old(showsForm)
    {
      boxes := boxes[x := Checkbox(!boxes[x].value, false)];
    }

    /** `_save_files`: the figures of the chosen kind whose boxes are
        checked, then the two tables; the files written are returned. */
    method SaveFiles(figures: seq<string>, t: ImageType) returns (written: seq<string>)
      requires HasBoxes(boxes)
      ensures written == SavedFiles(boxes, figures, t)
    {
      written := [];
      ghost var kept: seq<string> := [];
      var i := 0;
      while i < |figures|
        invariant 0 <= i <= |figures|
        invariant kept == SavedFigures(boxes, figures[..i])
        invariant written == seq(|kept|, j requires 0 <= j < |kept| => kept[j] + "." + Extension(t))
      {
        var name := figures[i];
        assert figures[..i + 1][..i] == figures[..i];
        if name == "Net" && !boxes[NB].value {
          i := i + 1;
          continue;
        }
        if name != "Net" && !boxes[IT].value {
          i := i + 1;
          continue;
        }
        written := written + [name + "." + Extension(t)];
        kept := kept + [name];
        i := i + 1;
      }
      assert figures[..i] == figures;
      if boxes[BS].value {
        written := written + ["budget_summary.csv"];
      }
      if boxes[BD].value {
        written := written + ["barrier_details.csv"];
      }
    }

    /** `_archive_cb`: nothing happens unless some box is checked; then the
        files are saved, the figures for display in HTML format and the
        figures for download otherwise. */
    method ArchiveCb(displayFigures: seq<string>, downloadFigures: seq<string>, t: ImageType)
      returns (written: Option<seq<string>>)
      requires HasBoxes(boxes)
      ensures written.None? <==> !AnyChecked(boxes)
      ensures written.Some? ==> written.value == SavedFiles(boxes, if t == Html then displayFigures else downloadFigures, t)
    {
      if !AnyChecked(boxes) {
        return None;
      }
      var figures := if t == Html then displayFigures else downloadFigures;
      var files := SaveFiles(figures, t);
      written := Some(files);
    }
  }

  /** The boxes as constructed always let the archive go ahead. */
  lemma InitialBoxesArchive(figures: seq<string>)
    ensures HasBoxes(InitialBoxes(figures)) && AnyChecked(InitialBoxes(figures))
  {
    assert InitialBoxes(figures)[BS].value;
  }
}
