/** The message box (src/gui/infobox.py): every message replaces the box's
    contents with one alert, built from fixed texts, and opens the modal
    dialog. The dialog is reduced to an open/closed flag. */
module Info {
  import opened Text
  import opened Wrappers
  import Op
  import Budgets

  datatype AlertKind = Warning | Secondary | Success | Danger

  /** What the box holds: alerts, and the row of Cancel/Continue buttons. */
  datatype Pane = Alert(text: string, kind: AlertKind) | ContinueRow

  const MissingParamsText := "### Missing Information\n\nPlease select\n\n"
  const NoRegionsLine := " * one or more geographic regions\n"
  const NoBudgetLine := " * a maximum budget\n"
  const NoTargetsLine := " * one or more targets\n"
  const InvalidWeightsHead := "### Invalid Weights\n\nTarget weights must be numbers between 1 and 5 (not "
  const PreviewMessageText := "### Review Optimizer Settings\n\nClicking Continue will run the optimizer with the following settings:\n\n"
  const SuccessText := "### Optimization Complete\n\nClick on the **Output** tab to see the results.\n"
  const FailHead := "### Optimization Failed\n\nReason: "
  const NoSolution := "No solution"
  const Hint := "\n * try increasing the maximum budget"
  /** The multiplication sign between a target and its weight. */
  const Times := " \U{2A09} "

  /** The "missing" lines, one per missing item, in the order regions,
      budget, targets. */
  function MissingLines(noRegions: bool, noBudget: bool, noTargets: bool): (r: seq<string>)
    ensures NoRegionsLine in r <==> noRegions
    ensures NoBudgetLine in r <==> noBudget
    ensures NoTargetsLine in r <==> noTargets
    ensures |r| == (if noRegions then 1 else 0) + (if noBudget then 1 else 0) + (if noTargets then 1 else 0)
    ensures forall i, j :: 0 <= i < j < |r| ==> r[i] != r[j]
  {
    (if noRegions then [NoRegionsLine] else []) + (if noBudget then [NoBudgetLine] else [])
      + (if noTargets then [NoTargetsLine] else [])
  }

  function MissingText(regions: set<string>, budget: int, targets: seq<string>): string
  {
    MissingParamsText + Join("", MissingLines(regions == {}, budget == 0, targets == []))
  }

  /** Python's `repr` of a string: single quotes unless the string holds a
      single quote and no double quote; backslash, the quote, newline,
      carriage return and tab escaped. */
  function StrRepr(s: string): (r: string)
    ensures |r| >= |s| + 2 && r[0] == r[|r| - 1]
    ensures r[0] == '"' <==> '\'' in s && '"' !in s
    ensures r[0] != '"' ==> r[0] == '\''
  {
    var q := if '\'' in s && '"' !in s then '"' else '\'';
    [q] + Escape(s, q) + [q]
  }

  /** Escaping never drops a character. */
  function Escape(s: string, q: char): (r: string)
    ensures |r| >= |s|
  {
    if s == [] then []
    else EscapeChar(s[0], q) + Escape(s[1..], q)
  }

  function EscapeChar(c: char, q: char): string
  {
    if c == '\\' then "\\\\"
    else if c == q then ['\\', q]
    else if c == '\n' then "\\n"
    else if c == '\r' then "\\r"
    else if c == '\t' then "\\t"
    else [c]
  }

  /** A character `repr` writes as itself inside single quotes. */
  predicate PlainChar(c: char)
  {
    c != '\\' && c != '\'' && c != '\n' && c != '\r' && c != '\t'
  }

  /** Python's `repr` (and `str`) of a list of strings. */
  function ListRepr(xs: seq<string>): (r: string)
    ensures |r| >= 2 && r[0] == '[' && r[|r| - 1] == ']'
    ensures xs == [] ==> r == "[]"
  {
    "[" + Join(", ", seq(|xs|, i requires 0 <= i < |xs| => StrRepr(xs[i]))) + "]"
  }

  function InvalidWeightsText(weights: seq<string>): string
  {
    InvalidWeightsHead + ListRepr(weights) + ")\n"
  }

  /** The three amounts the review formats can be written by the formatter. */
  predicate Formattable(b: Budgets.Triple)
  {
    Op.Representable(b.increment * b.count) && Op.Representable(b.increment) && Op.Representable(b.start)
  }

  /** The review's line on the budget schedule. */
  function BudgetLine(b: Budgets.Triple): string
    requires Formattable(b)
  {
    if b.count > 1 then
      "  * " + IntToString(b.count) + " budget levels from " + Op.FormatBudgetAmount(b.increment)
        + " up to " + Op.FormatBudgetAmount(b.increment * b.count) + " in increments of "
        + Op.FormatBudgetAmount(b.increment) + "\n\n"
    else "  * a single budget of " + Op.FormatBudgetAmount(b.start) + "\n\n"
  }

  /** The display names of the targets: the text after the last ':' of each,
      followed by its weight when there are weights. */
  function DisplayNames(targets: seq<string>, weights: seq<string>): (r: seq<string>)
    requires weights == [] || |weights| >= |targets|
    ensures |r| == |targets|
    ensures forall i :: 0 <= i < |r| ==> r[i] == LastField(targets[i], ':') + (if weights == [] then "" else Times + weights[i])
  {
    seq(|targets|, i requires 0 <= i < |targets| =>
      LastField(targets[i], ':') + (if weights == [] then "" else Times + weights[i]))
  }

  /** `str(mapping)`: the name, or "None". */
  function MappingText(mapping: Option<string>): string
  {
    if mapping.None? then "None" else mapping.value
  }

  /** The settings review: the heading and regions, the budget line, then
      the targets and the mapping. */
  function ParamsText(regions: seq<string>, b: Budgets.Triple, targets: seq<string>, weights: seq<string>, mapping: Option<string>): string
    requires Formattable(b) && (weights == [] || |weights| >= |targets|)
  {
    ReviewHead(regions) + BudgetLine(b) + TargetsLine(targets, weights) + MappingLine(mapping)
  }

  function ReviewHead(regions: seq<string>): string
  {
    PreviewMessageText + "  * Regions: " + Join(", ", regions) + "\n\n"
  }

  function TargetsLine(targets: seq<string>, weights: seq<string>): string
    requires weights == [] || |weights| >= |targets|
  {
    "  * Targets: " + Join(", ", DisplayNames(targets, weights)) + "\n"
  }

  function MappingLine(mapping: Option<string>): string
  {
    "  * Mapping: " + MappingText(mapping) + "\n\n"
  }

  function FailText(reason: string): string
  {
    FailHead + reason + "\n" + (if reason == NoSolution then Hint else "")
  }

  class InfoBox {
    var contents: seq<Pane>
    var modalOpen: bool

    constructor ()
      ensures contents == [] && !modalOpen
    {
      contents := [];
      modalOpen := false;
    }

    /** `_cancel_cb`: close the dialog. */
    method Cancel()
      modifies this
      ensures !modalOpen && contents == old(contents)
    {
      modalOpen := false;
    }

    /** `show_missing`: the header and one line per missing item. */
    method ShowMissing(regions: set<string>, budget: int, targets: seq<string>)
      modifies this
      ensures contents == [Alert(MissingText(regions, budget, targets), Warning)] && modalOpen
    {
      var text := MissingParamsText;
      ghost var lines: seq<string> := [];
      assert text == MissingParamsText + Join("", lines);
      if |regions| == 0 {
        AppendLine(MissingParamsText, lines, NoRegionsLine);
        text, lines := text + NoRegionsLine, lines + [NoRegionsLine];
      }
      if budget == 0 {
        AppendLine(MissingParamsText, lines, NoBudgetLine);
        text, lines := text + NoBudgetLine, lines + [NoBudgetLine];
      }
      if |targets| == 0 {
        AppendLine(MissingParamsText, lines, NoTargetsLine);
        text, lines := text + NoTargetsLine, lines + [NoTargetsLine];
      }
      assert lines == MissingLines(regions == {}, budget == 0, targets == []);
      contents := [Alert(text, Warning)];
      modalOpen := true;
    }

    /** `show_invalid_weights`: the rejected list, as Python prints it. */
    method ShowInvalidWeights(weights: seq<string>)
      modifies this
      ensures contents == [Alert(InvalidWeightsText(weights), Warning)] && modalOpen
    {
      contents := [Alert(InvalidWeightsHead + ListRepr(weights) + ")\n", Warning)];
      modalOpen := true;
    }

    /** `show_params`: the settings for review, then the Cancel/Continue row.
        Weights shorter than the targets raise IndexError (`ok == false`)
        before the box is touched. */
    method ShowParams(regions: seq<string>, b: Budgets.Triple, targets: seq<string>, weights: seq<string>, mapping: Option<string>)
      returns (ok: bool)
      requires Formattable(b)
      modifies this
      ensures ok <==> weights == [] || |weights| >= |targets|
      ensures ok ==> contents == [Alert(ParamsText(regions, b, targets, weights, mapping), Secondary), ContinueRow] && modalOpen
      ensures !ok ==> contents == old(contents) && modalOpen == old(modalOpen)
    {
      var text := PreviewMessageText;
      text := text + "  * Regions: " + Join(", ", regions) + "\n\n";
      text := text + BudgetLine(b);
      if weights != [] && |weights| < |targets| {
        ok := false;
        return;
      }
      text := text + TargetsLine(targets, weights);
      text := text + MappingLine(mapping);
      contents := [Alert(text, Secondary), ContinueRow];
      modalOpen := true;
      ok := true;
    }

    /** `show_success`. */
    method ShowSuccess()
      modifies this
      ensures contents == [Alert(SuccessText, Success)] && modalOpen
    {
      contents := [Alert(SuccessText, Success)];
      modalOpen := true;
    }

    /** `show_fail`: the reason, and the hint when the reason is "No solution". */
    method ShowFail(reason: string)
      modifies this
      ensures contents == [Alert(FailText(reason), Danger)] && modalOpen
    {
      var text := FailHead + reason + "\n";
      if reason == NoSolution {
        text := text + Hint;
      } else {
        assert text + "" == text;
      }
      contents := [Alert(text, Danger)];
      modalOpen := true;
    }
  }

  /** The text built so far, followed by one more line. */
  lemma AppendLine(head: string, lines: seq<string>, line: string)
    ensures head + Join("", lines) + line == head + Join("", lines + [line])
  {
    JoinSnoc(lines, line);
  }

  /** Appending one more piece to a list joined with "". */
  lemma {:induction false} JoinSnoc(xs: seq<string>, x: string)
    ensures Join("", xs + [x]) == Join("", xs) + x
  {
    if xs == [] {
      assert xs + [x] == [x];
    } else if |xs| == 1 {
      assert xs + [x] == [xs[0], x];
      assert [xs[0], x][1..] == [x];
    } else {
      JoinSnoc(xs[1..], x);
      assert (xs + [x])[1..] == xs[1..] + [x];
    }
  }

  /** The missing message names at least one item whenever the run check
      reports something missing. */
  lemma MissingNamesSomething(regions: set<string>, budget: int, targets: seq<string>)
    requires regions == {} || budget == 0 || targets == []
    ensures MissingLines(regions == {}, budget == 0, targets == []) != []
  {
  }

  /** The hint is appended exactly for the reason "No solution". */
  lemma HintIffNoSolution(reason: string)
    ensures EndsWith(FailText(reason), Hint) <==> reason == NoSolution
  {
    var text := FailText(reason);
    EndsWithLast(text, Hint);
    if reason != NoSolution {
      assert text == FailHead + reason + "\n" + "";
      assert text[|text| - 1] == '\n';
    }
  }

  /** A string ending in `suffix` ends in its last character. */
  lemma EndsWithLast(s: string, suffix: string)
    requires suffix != []
    ensures EndsWith(s, suffix) ==> |s| > 0 && s[|s| - 1] == suffix[|suffix| - 1]
  {
    if EndsWith(s, suffix) {
      assert s[|s| - |suffix|..][|suffix| - 1] == s[|s| - 1];
    }
  }

  /** The failure text holds the reason verbatim. */
  lemma FailShowsReason(reason: string)
    ensures Contains(FailText(reason), reason)
  {
    ContainsMiddle(FailHead, reason, "\n" + (if reason == NoSolution then Hint else ""));
    assert FailText(reason) == FailHead + reason + ("\n" + (if reason == NoSolution then Hint else ""));
  }

  /** A string without quote, backslash or control characters is shown
      between single quotes as it is. */
  lemma {:induction false} PlainRepr(s: string)
    requires forall i :: 0 <= i < |s| ==> PlainChar(s[i])
    ensures StrRepr(s) == "'" + s + "'"
  {
    EscapePlain(s);
  }

  lemma {:induction false} EscapePlain(s: string)
    requires forall i :: 0 <= i < |s| ==> PlainChar(s[i])
    ensures Escape(s, '\'') == s
  {
    if s != [] {
      EscapePlain(s[1..]);
      assert s == [s[0]] + s[1..];
    }
  }

  /** Each piece of a joined list occurs in the joined text. */
  lemma {:induction false} JoinContains(sep: string, parts: seq<string>, i: nat)
    requires i < |parts|
    ensures Contains(Join(sep, parts), parts[i])
  {
    if |parts| == 1 {
      ContainsMiddle("", parts[0], "");
      assert "" + parts[0] + "" == parts[0];
    } else if i == 0 {
      ContainsMiddle("", parts[0], sep + Join(sep, parts[1..]));
      assert Join(sep, parts) == "" + parts[0] + (sep + Join(sep, parts[1..]));
    } else {
      JoinContains(sep, parts[1..], i - 1);
      ContainsWithin(parts[0] + sep, Join(sep, parts[1..]), "", parts[i]);
      assert Join(sep, parts) == parts[0] + sep + Join(sep, parts[1..]) + "";
    }
  }

  /** Text found in `x` is found in anything around `x`. */
  lemma ContainsWithin(a: string, x: string, b: string, p: string)
    requires Contains(x, p)
    ensures Contains(a + x + b, p)
  {
    var i :| 0 <= i <= |x| - |p| && OccursAt(x, p, i);
    var s := a + x + b;
    assert s[|a| + i..|a| + i + |p|] == x[i..i + |p|];
    assert OccursAt(s, p, |a| + i);
  }

  /** The invalid-weights message shows each plain weight in quotes. */
  lemma InvalidWeightsShowsEach(weights: seq<string>, i: nat)
    requires i < |weights|
    requires forall k :: 0 <= k < |weights[i]| ==> PlainChar(weights[i][k])
    ensures Contains(InvalidWeightsText(weights), "'" + weights[i] + "'")
  {
    var reprs := seq(|weights|, k requires 0 <= k < |weights| => StrRepr(weights[k]));
    PlainRepr(weights[i]);
    JoinContains(", ", reprs, i);
    ContainsWithin("[", Join(", ", reprs), "]", reprs[i]);
    ContainsWithin(InvalidWeightsHead, ListRepr(weights), ")\n", reprs[i]);
  }

  /** Target names lose their prefix up to the last ':' and keep their order
      and number; with weights, name i carries weight i. */
  lemma DisplayNamesPairwise(targets: seq<string>, weights: seq<string>, i: nat)
    requires |weights| >= |targets| > i && weights != []
    ensures DisplayNames(targets, weights)[i] == LastField(targets[i], ':') + Times + weights[i]
    ensures ':' !in LastField(targets[i], ':') && EndsWith(targets[i], LastField(targets[i], ':'))
  {
  }

  /** A schedule of several levels is reviewed with its top budget,
      increment times count, written by the formatter. */
  lemma ReviewSeveralLevels(b: Budgets.Triple)
    requires Formattable(b) && b.count > 1
    ensures Contains(BudgetLine(b), Op.FormatBudgetAmount(b.increment * b.count))
  {
    var top := Op.FormatBudgetAmount(b.increment * b.count);
    var step := Op.FormatBudgetAmount(b.increment);
    var head := "  * " + IntToString(b.count) + " budget levels from " + step + " up to ";
    var tail := " in increments of " + step + "\n\n";
    assert BudgetLine(b) == head + top + tail;
    ContainsMiddle(head, top, tail);
  }

  /** Whatever the budget line shows, the whole review shows. */
  lemma ParamsShowBudgetLine(regions: seq<string>, b: Budgets.Triple, targets: seq<string>, weights: seq<string>, mapping: Option<string>, p: string)
    requires Formattable(b) && (weights == [] || |weights| >= |targets|)
    requires Contains(BudgetLine(b), p)
    ensures Contains(ParamsText(regions, b, targets, weights, mapping), p)
  {
    var headed := ReviewHead(regions) + BudgetLine(b);
    ContainsAfter(ReviewHead(regions), BudgetLine(b), p);
    ContainsBefore(headed, TargetsLine(targets, weights), p);
    ContainsBefore(headed + TargetsLine(targets, weights), MappingLine(mapping), p);
  }

  /** The whole review names the schedule's top budget, or its single budget. */
  lemma ReviewShowsBudget(regions: seq<string>, b: Budgets.Triple, targets: seq<string>, weights: seq<string>, mapping: Option<string>)
    requires Formattable(b) && (weights == [] || |weights| >= |targets|)
    ensures b.count > 1 ==> Contains(ParamsText(regions, b, targets, weights, mapping), Op.FormatBudgetAmount(b.increment * b.count))
    ensures b.count <= 1 ==> Contains(ParamsText(regions, b, targets, weights, mapping), Op.FormatBudgetAmount(b.start))
  {
    if b.count > 1 {
      ReviewSeveralLevels(b);
      ParamsShowBudgetLine(regions, b, targets, weights, mapping, Op.FormatBudgetAmount(b.increment * b.count));
    } else {
      var amount := Op.FormatBudgetAmount(b.start);
      ReviewSingleLevel(b);
      ContainsMiddle("  * a single budget of ", amount, "\n\n");
      ParamsShowBudgetLine(regions, b, targets, weights, mapping, amount);
    }
  }

  /** A schedule of one level is reviewed as its start. */
  lemma ReviewSingleLevel(b: Budgets.Triple)
    requires Formattable(b) && b.count <= 1
    ensures BudgetLine(b) == "  * a single budget of " + Op.FormatBudgetAmount(b.start) + "\n\n"
  {
  }
}
