# Tide gate optimizer client: a Dafny model of its settings and results logic

The tide gate optimizer client is a Panel dashboard. Users pick river
regions, a budget and restoration targets, and an optimization server
(OptiPass) chooses which tide gates to replace. This project models the
logic behind that dashboard:

- the project data the client is set up with: region names sorted and
  distinct, and per-region cost totals (`Op.Project.Setup`);
- the dollar formatter `format_budget_amount` and the dollar parser of the
  Fixed budget tab, with a round trip between them for the parser read with
  exact decimals (the program's float product breaks it for some amounts,
  e.g. "$4.1M"; see Left out);
- the three budget tabs (Basic presets, Advanced sliders, Fixed amount) and
  the tabbed box that answers for the active tab (`Budgets`);
- the region checkboxes, which keep a set of selected regions and re-bound
  the budget by that selection's total cost (`Regions`);
- the target checkbox and weight-entry tabs (`Targets`);
- the check run by the Run Optimizer button (`App.Validate`);
- the messages of the info box (`Info`);
- the output pane: its layout, the map dots of the budget rows and the
  title (`Output.OutputPane`);
- the download pane: its checkboxes, the default folder name and the files
  saved into the folder (`Output.DownloadPane`).

Widgets are reduced to their values. A slider is its value and range, a
text box its text and a checkbox its state. The dashboard's objects whose
attributes change in place are classes: the budget tabs, the region box,
the info box and the two output panes. Exceptions the code catches, and
`KeyError`/`IndexError` paths, are `Option` results or `ok` flags.

Module layout:

- `wrappers.dfy`: `Option`.
- `text.dfy` (`Text`): Python string behaviour the code relies on, namely
  `str(int)`, `split`, `join`, `[-1]` of a split, `startswith`/`endswith`,
  `in` on strings, and `sorted` on strings.
- `op.dfy` (`Op`): `src/op.py`.
- `budgets.dfy` (`Budgets`): `src/gui/budgets.py`.
- `regionbox.dfy` (`Regions`): `src/gui/regionbox.py`.
- `targetbox.dfy` (`Targets`): `src/gui/targetbox.py`.
- `app.dfy` (`App`): `src/gui/app.py`.
- `infobox.dfy` (`Info`): `src/gui/infobox.py`.
- `output.dfy` (`Output`): `src/gui/output.py`.

Where the code and its documentation disagree, the model follows the code.
`set_budget_max` raises the index of the top preset to at least
`MIN_LEVELS` = 3 and then offers `labels[:i+1]`. So at least four presets
are offered, not three (`Budgets.AllowedOptionsZero`).

## Model

| member | source | states |
|---|---|---|
| Op.FormatBudgetAmount | src/op.py:149-160 | The text starts with "$", has at least 3 characters, and ends in "M" from $1M up and in "K" below. |
| Op.FormatShape | src/op.py:155-160 | For a non-negative amount the text is "$", the whole number of thousands or millions, ".d" only when the tenths digit d is not 0, then the unit letter. |
| Op.FormatZero | src/op.py:155-160 | $0 is written "$0K". |
| Op.FormatBudgets | src/op.py:145-147 | The key set is exactly the set of column amounts, and each key maps to its formatted amount. |
| Op.Project.constructor | src/op.py:125-127 | Before set-up there are no region names and no cost totals. |
| Op.Project.Setup | src/op.py:125-127 | Region names are sorted and duplicate-free. They are exactly the keys of the cost map and the regions that occur in the barrier file. Each total is the summed cost of that region's barriers, and the totals add up to the cost of all barriers. |
| Op.NoCostOutside | src/op.py:125 | A region with no barriers has a total of 0. |
| Op.SortedDistinct | src/op.py:126 | Sorting distinct group names keeps them distinct and keeps the same names. |
| Op.SumCoversAll | src/op.py:125-127 | Summing the per-region totals over a distinct list that covers every region gives the total barrier cost. |
| Op.SumInSnoc | src/op.py:125 | One more barrier adds its cost to the sum exactly when its region is listed. |
| Op.SumOfCosts | src/op.py:127 | Summing the stored totals equals summing the regions' barrier costs. |
| Op.DefaultList | src/op.py:194-198 | The list is empty iff the variable is unset or empty. Otherwise its fields contain no ":" and join back with ":" to the value. |
| Text.NatToString | src/gui/budgets.py:176 | The text is a digit string whose decimal value is n, with no leading zero. |
| Text.IntToString | src/gui/budgets.py:176 | `str` of an int: the digits of the magnitude, with "-" in front when negative. |
| Text.SplitJoin | src/gui/output.py:275 | Splitting a "_".join of separator-free fields gives back the fields. |
| Text.SplitLength | src/gui/budgets.py:199 | `split` gives one more field than there are separators. |
| Text.LastField | src/gui/infobox.py:117 | The last field of a split is a separator-free suffix of the text, preceded by the separator unless it is the whole text. |
| Text.LastFieldIsSuffix | src/gui/infobox.py:117 | The final element of the split is a suffix of the text, preceded by the separator unless it is the whole text, which it is exactly when the split has one piece. |
| Text.TakePrefix | src/gui/output.py:267 | `s[:3]`: a prefix of s of length min(len(s), 3). |
| Text.SortStrings | src/op.py:126 | `sorted`: the result is ordered and is a permutation of the input. |
| Text.LessEqTotal | src/op.py:126 | The string order is total. |
| Text.LessEqAntisymmetric | src/op.py:126 | The string order is antisymmetric. |
| Text.LessEqTransitive | src/op.py:126 | The string order is transitive. |
| Budgets.Labels | src/gui/budgets.py:89 | The labels are the preset names, in table order. |
| Budgets.AmountOf | src/gui/budgets.py:90 | The amount of a label is the amount of the preset with that name. |
| Budgets.ScanDown | src/gui/budgets.py:108-110 | The downward scan stops at the highest preset not above n, or at index 0. |
| Budgets.AllowedOptions | src/gui/budgets.py:100-112 | The options are a prefix of the labels, at least MIN_LEVELS + 1 long. Beyond those, a preset is offered iff its amount is at most n. |
| Budgets.AllowedOptionsZero | src/gui/budgets.py:108-112 | With no regions selected the options are $0, $500K, $1M and $2.5M. |
| Budgets.AllowedOptionsCoquille | src/gui/budgets.py:108-112 | An $11.8M selection offers presets up to $10M and not $25M. |
| Budgets.AmountsMultipleOfTen | src/gui/budgets.py:73-83 | Every preset amount divides evenly by BUDGET_COUNT. |
| Budgets.ZeroPreset | src/gui/budgets.py:125-129 | Only "$0" has amount 0. |
| Budgets.LowPresetLabels | src/gui/budgets.py:73-78 | The labels $500K, $1M, $2.5M and $5M are what the formatter writes for their amounts. |
| Budgets.HighPresetLabels | src/gui/budgets.py:79-82 | The labels $10M up to $100M are what the formatter writes for their amounts. |
| Budgets.BasicBudgetBox.constructor | src/gui/budgets.py:87-97 | The first MIN_LEVELS labels are offered and "$0" is chosen. |
| Budgets.BasicBudgetBox.SetBudgetMax | src/gui/budgets.py:100-112 | The options become AllowedOptions(n); the chosen label is kept. |
| Budgets.BasicBudgetBox.Values | src/gui/budgets.py:114-123 | Start 0, count BUDGET_COUNT, and increment times count equals the chosen preset's amount. |
| Budgets.BasicBudgetBox.Defined | src/gui/budgets.py:125-129 | Defined iff the preset amount is positive, iff the increment is positive. |
| Budgets.BasicBudgetBox.SetValue | src/gui/budgets.py:131-135 | Python indexing of the options: succeeds iff -len <= n < len, choosing options[n] (counted from the end when negative). Out of range it fails (IndexError) and nothing changes. |
| Budgets.FixedBudgetBox.constructor | src/gui/budgets.py:147-150 | The text box starts as "$". |
| Budgets.FixedBudgetBox.SetBudgetMax | src/gui/budgets.py:152-153 | Changes nothing. |
| Budgets.FixedBudgetBox.Values | src/gui/budgets.py:155-164 | One budget: the parsed amount as start, increment 0, count 1. |
| Budgets.FixedBudgetBox.Defined | src/gui/budgets.py:166-170 | Defined iff the parsed amount is positive. |
| Budgets.FixedBudgetBox.SetValue | src/gui/budgets.py:172-176 | The text becomes "$" followed by `str(n)`; for n >= 0 the box then reports the budget (n, 0, 1). |
| Budgets.IntOf | src/gui/budgets.py:201-206 | `int` of an ASCII digit string is its value. Any other text reads as 0 here, including text Python's `int` accepts (see Left out). |
| Budgets.ParseDollar | src/gui/budgets.py:193-194 | A leading "$" is dropped before parsing. |
| Budgets.ParseNoDollar | src/gui/budgets.py:193-194 | Text without a leading "$" is parsed as it is. |
| Budgets.ParseSuffixed | src/gui/budgets.py:195-197 | A final K or M scales the decimal before it by 1,000 or 1,000,000. |
| Budgets.FixedBudgetBox.ParseDollarAmount | src/gui/budgets.py:178-206 | A plain digit string reads as its value; the empty text and a bare "$" read as 0. |
| Budgets.ParseAmount | src/gui/budgets.py:195-204 | After the "$" is dropped: a digit string reads as its value and the empty text as 0. |
| Budgets.ParseDigits | src/gui/budgets.py:202-203 | A digit string, with or without "$", parses to its value. |
| Budgets.ParsePlainAmount | src/gui/budgets.py:172-176 | What `set_value` writes for a non-negative n parses back to n. |
| Budgets.ScaledWhole | src/gui/budgets.py:197 | A whole number with a suffix is the number times the multiplier. |
| Budgets.ScaledTenths | src/gui/budgets.py:197 | "w.d" with a suffix is ((10w + d) * multiplier) / 10, computed with exact decimals and then truncated; Python's float product can fall one below (see Left out). |
| Budgets.ParseLabel | src/gui/budgets.py:193-197 | Any "$w" or "$w.d" followed by K or M parses to its scaled value, read with exact decimals (see Left out for the float case). |
| Budgets.ParseFormatRoundTrip | src/gui/budgets.py:178-206 | With exact decimals, parsing the formatter's text for any representable non-negative amount gives the amount back. The program's float parser does not (see Left out). |
| Budgets.RoundTripThousands | src/gui/budgets.py:178-206 | The exact-decimal round trip below $1M (the K branch). |
| Budgets.RoundTripMillions | src/gui/budgets.py:178-206 | The exact-decimal round trip from $1M up (the M branch). |
| Budgets.ParseCommaGroups | src/gui/budgets.py:198-201 | A first group of 1 to 3 digits followed by groups of exactly 3 digits parses to the value of the digits without commas. |
| Budgets.ParseExampleCommas | src/gui/budgets.py:181-182 | "1,500,000" parses to 1500000. |
| Budgets.ParseExamplePlain | src/gui/budgets.py:181 | "1500000" parses to 1500000. |
| Budgets.ParseExampleMillions | src/gui/budgets.py:182 | "1.5M" parses to 1500000. |
| Budgets.ParseMalformed | src/gui/budgets.py:200-206 | A misplaced comma, non-digits, "" and "$" all parse to 0. |
| Budgets.AdvancedBudgetBox.constructor | src/gui/budgets.py:231-264 | The sliders start at 0 with range [0, 1], and the count starts at 10. |
| Budgets.AdvancedBudgetBox.Values | src/gui/budgets.py:281-286 | Start 0, the increment slider and the count input. |
| Budgets.AdvancedBudgetBox.Defined | src/gui/budgets.py:288-292 | Defined iff the increment is positive. |
| Budgets.AdvancedBudgetBox.SetBudgetMax | src/gui/budgets.py:300-311 | The maximum slider's range becomes [MAX_STEP, max(1, n)]. The increment's range becomes [max(INC_STEP, n / COUNT_MAX), max(1, n // 2)]. Values are unchanged. |
| Budgets.AdvancedBudgetBox.RangesFor | src/gui/budgets.py:308-311 | The four slider bounds `set_budget_max(n)` sets, bundled. |
| Budgets.IncFloor | src/gui/budgets.py:311 | The increment slider's lower bound is the larger of INC_STEP and n / COUNT_MAX: at least both, and equal to one of them. |
| Budgets.AdvancedBudgetBox.MaxUpdated | src/gui/budgets.py:315-323 | The increment becomes max // count; it is unchanged when the count is 0 (the caught ZeroDivisionError). |
| Budgets.AdvancedBudgetBox.IncUpdated | src/gui/budgets.py:325-335 | The count becomes max // inc clamped to [COUNT_MIN, COUNT_MAX]; it is unchanged when the increment is 0. |
| Budgets.AdvancedBudgetBox.CountUpdated | src/gui/budgets.py:337-345 | As MaxUpdated, fired by the count. |
| Budgets.AdvancedBudgetBox.EditMax | src/gui/budgets.py:315-323 | The user moves the maximum slider: the value is set and the watcher re-derives the increment. |
| Budgets.AdvancedBudgetBox.EditIncrement | src/gui/budgets.py:325-335 | The user moves the increment: the value is set and the count is re-derived within its bounds. |
| Budgets.AdvancedBudgetBox.EditCount | src/gui/budgets.py:337-345 | The user types a count: the value is set and the increment is re-derived. |
| Budgets.AdvancedBudgetBox.SetValue | src/gui/budgets.py:294-298 | The maximum becomes n and the watcher re-derives the increment. The watcher runs even when n equals the current maximum, where Panel would fire no event (see Left out). |
| Budgets.Clamp | src/gui/budgets.py:331-332 | min(hi, max(lo, x)) lies in [lo, hi] and equals x when x is already inside. |
| Budgets.FloorDiv | src/gui/budgets.py:321 | Python's `//`: the quotient rounded toward minus infinity, for either sign of divisor. |
| Budgets.BudgetBox.constructor | src/gui/budgets.py:19-26 | Three fresh tabs; Basic is active. |
| Budgets.BudgetBox.SetBudgetMax | src/gui/budgets.py:28-38 | Every tab gets the new bound, whichever tab is active: the Basic options become AllowedOptions(n), and the Advanced ranges become [MAX_STEP, max(1, n)] and [max(INC_STEP, n / COUNT_MAX), max(1, n // 2)]. |
| Budgets.BudgetBox.Values | src/gui/budgets.py:40-51 | The triple of the active tab. |
| Budgets.BudgetBox.Defined | src/gui/budgets.py:53-57 | Whether the active tab holds a budget. |
| Budgets.BudgetBox.SetValue | src/gui/budgets.py:59-64 | Only the active tab is initialised; the others are unchanged. On the Basic tab it succeeds iff -len <= n < len and chooses options[n]. On the Advanced tab the maximum becomes n and the increment is re-derived as n // count. On the Fixed tab the text becomes "$n". |
| Regions.Step | src/gui/regionbox.py:49-55 | A 'changed' event adds the region when checked and removes it when unchecked. Removing an unselected region is the KeyError (None). Other events change nothing. |
| Regions.RegionBox.constructor | src/gui/regionbox.py:29-39 | No region is selected and there is no external callback. |
| Regions.RegionBox.Selection | src/gui/regionbox.py:63-67 | The live set of selected regions. |
| Regions.RegionBox.AddExternalCallback | src/gui/regionbox.py:69-76 | Registers the callback; the selection is unchanged. |
| Regions.RegionBox.Cb | src/gui/regionbox.py:42-61 | The selection becomes the replay of the events. After each 'changed' event the Basic presets are re-bounded by the selection's total cost. After a batch with a 'changed' event the Advanced ranges are re-bounded the same way. No slider value changes. On success the map shows the selection and the external callback (if any) runs once. On a KeyError the processing stops at that event, with the earlier events applied and neither the map nor the callback told. A batch with no 'changed' event changes nothing. |
| Regions.RegionBox.Apply | src/gui/regionbox.py:50-57 | One event: a step of the selection, then `set_budget_max` of its total cost, which re-bounds the Basic presets and the Advanced ranges and leaves every slider value alone. |
| Regions.RegionBox.Amount | src/gui/regionbox.py:56 | The summed cost of the selected regions. |
| Regions.SetSumRemove | src/gui/regionbox.py:56 | The sum of the costs does not depend on the order the set is visited in. |
| Regions.SetSumAdd | src/gui/regionbox.py:52-57 | Selecting one more region adds its cost to the amount. |
| Regions.ReplayStops | src/gui/regionbox.py:49-57 | Once an event fails, the batch fails. |
| Regions.CheckThenUncheck | src/gui/regionbox.py:52-55 | Checking then unchecking a new region restores the selection. |
| Regions.UncheckUnselected | src/gui/regionbox.py:55 | Unchecking a region that is not selected raises KeyError. |
| Targets.Kept | src/gui/targetbox.py:58-62 | A comprehension's filter: exactly the flagged positions, in increasing order. |
| Targets.BasicTargetBox.Selection | src/gui/targetbox.py:58-62 | A name is selected iff its box is checked; there are no more selected names than boxes. |
| Targets.CheckedNames | src/gui/targetbox.py:62 | The comprehension over the boxes keeps a name iff its box is checked. |
| Targets.BasicTargetBox.Weights | src/gui/targetbox.py:64-68 | The checkbox tab has no weights. |
| Targets.SelectionIsChecked | src/gui/targetbox.py:58-62 | The selection lists the names of the checked boxes, in dictionary order. |
| Targets.CheckedIffSelected | src/gui/targetbox.py:48-62 | A target is selected iff its box is checked. |
| Targets.SelectionDistinct | src/gui/targetbox.py:48-62 | No target is selected twice. |
| Targets.WeightsParallel | src/gui/targetbox.py:91-101 | Selection and weights come from the same non-empty rows, so weight i belongs to target i. |
| Targets.WeightsFromEntries | src/gui/targetbox.py:91-101 | Every weight is a non-empty entry, and every row with an entry has its target selected. |
| Targets.WeightedTargetBox.Selection | src/gui/targetbox.py:91-95 | A target is selected iff one of its rows has a non-empty entry. |
| Targets.WeightedTargetBox.Weights | src/gui/targetbox.py:97-101 | One weight per selected target, none of them empty. |
| Targets.FilledNamesEntered | src/gui/targetbox.py:95 | The comprehension keeps a row's target iff its entry is non-empty. |
| Targets.FilledTextsEntries | src/gui/targetbox.py:101 | The comprehension keeps the non-empty entries, one per kept target. |
| Targets.RowsParallel | src/gui/targetbox.py:91-101 | The kept targets and the kept entries come from the same rows, in order. |
| Targets.TargetBox.Selection | src/gui/targetbox.py:23-27 | The active tab's selection: the checked boxes or the targets with an entry. |
| Targets.TargetBox.Weights | src/gui/targetbox.py:29-33 | None on the checkbox tab, one per selected target on the weight tab. |
| Targets.OnlyActiveTab | src/gui/targetbox.py:23-33 | Only the active tab decides the answers. |
| Targets.WeightsFitSelection | src/gui/targetbox.py:23-33 | The weights are either absent or one per selected target. |
| App.Validate | src/gui/app.py:123-142 | Missing iff no region, no budget or no target, naming each. Invalid weights iff none is missing and some given weight is not a digit string in [1, 5]. Otherwise the settings go to review. |
| App.OneBadWeightRejects | src/gui/app.py:135-138 | A single bad weight rejects the whole list. |
| App.NothingSelected | src/gui/app.py:131-133 | With nothing selected, all three items are reported missing and the weights are not examined. |
| App.WeightZeroRejected | src/gui/app.py:136 | The weight "0" is below the range and is rejected. |
| App.NoWeightsReview | src/gui/app.py:135 | An empty weight list (the checkbox tab) never triggers the weight check. |
| App.ScheduleMaxMeansDefined | src/gui/app.py:127-131 | Given the widget ranges, the budget the check reads is non-zero iff the active tab reports a budget as defined. |
| Info.MissingLines | src/gui/infobox.py:71-77 | One line per missing item and only for those, in a fixed order, none repeated. |
| Info.InfoBox.constructor | src/gui/infobox.py:43-58 | The box starts empty with the dialog closed. |
| Info.InfoBox.Cancel | src/gui/infobox.py:60-64 | Closes the dialog. |
| Info.InfoBox.ShowMissing | src/gui/infobox.py:66-80 | Shows one warning holding the heading and the missing lines, and opens the dialog. |
| Info.InfoBox.ShowInvalidWeights | src/gui/infobox.py:82-93 | Shows one warning with the weight list in Python's list notation, and opens the dialog. |
| Info.InfoBox.ShowParams | src/gui/infobox.py:95-125 | Fails (IndexError) iff weights are given and there are fewer of them than targets. Otherwise it shows the review text and the Cancel/Continue row, and opens the dialog. |
| Info.DisplayNames | src/gui/infobox.py:117-119 | One name per target: the last ':' field, followed by " ⨉ weight" when weights are given. |
| Info.InfoBox.ShowSuccess | src/gui/infobox.py:127-134 | Shows the success message and opens the dialog. |
| Info.InfoBox.ShowFail | src/gui/infobox.py:136-148 | Shows the failure message with the reason and opens the dialog. |
| Info.MissingNamesSomething | src/gui/infobox.py:71-77 | When the check reports something missing, the message names at least one item. |
| Info.HintIffNoSolution | src/gui/infobox.py:144-146 | The message ends with the "increase the budget" hint iff the reason is "No solution". |
| Info.FailShowsReason | src/gui/infobox.py:144 | The failure message contains the reason. |
| Info.StrRepr | src/gui/infobox.py:90 | Python's `repr` of a string: the same quote at both ends, a double quote exactly when the string holds a single quote and no double quote, and no character lost. |
| Info.Escape | src/gui/infobox.py:90 | Escaping never shortens the text. |
| Info.ListRepr | src/gui/infobox.py:90 | A list's `repr` is bracketed, and "[]" for the empty list. |
| Info.PlainRepr | src/gui/infobox.py:90 | `repr` of a string without quotes or backslashes is the string in single quotes. |
| Info.InvalidWeightsShowsEach | src/gui/infobox.py:90 | Every plain weight the user entered appears, quoted, in the message. |
| Info.DisplayNamesPairwise | src/gui/infobox.py:117-119 | Display name i pairs target i's last field with weight i. |
| Info.ReviewSeveralLevels | src/gui/infobox.py:108-114 | With several levels the review states the top budget, increment times count. |
| Info.ParamsShowBudgetLine | src/gui/infobox.py:107-121 | Whatever the budget line shows, the whole review shows. |
| Info.ReviewShowsBudget | src/gui/infobox.py:107-121 | The review shows the top budget for several levels and the single budget otherwise. |
| Info.ReviewSingleLevel | src/gui/infobox.py:110-116 | With one level the review states the single starting budget. |
| Output.RenameColumns | src/gui/output.py:125 | Same number of columns. Digit-string names become formatted dollar amounts (starting with "$"); the others are kept. |
| Output.RenamedColumnParsesBack | src/gui/output.py:125 | With exact decimals, a renamed amount column parses back to the column's amount (see Left out). |
| Output.DollarColumnsAreBudgets | src/gui/output.py:125-130 | When no column starts with "$" before renaming, the tick-cross test `startswith('$')` picks exactly the budget columns. |
| Output.GateCount | src/gui/output.py:38 | The sum of the gate-list lengths: no budget level has more gates than the total. |
| Output.NoGatesIffEmpty | src/gui/output.py:38-39 | The gate count is 0 iff every budget level's gate list is empty. |
| Output.Layout | src/gui/output.py:30-46 | The pane starts with the results header and the title. It has ROI curves iff there are several budget levels, and the budget and barrier tables iff some gate was chosen; otherwise it has the no-barriers note. |
| Output.ClickAsWritten | src/gui/output.py:169-172 | The code as written: the previous row is hidden only when truthy (not row 0), then the clicked row is shown. |
| Output.HideAsWritten | src/gui/output.py:179-181 | The code as written: the selected row is hidden only when truthy; the selection is cleared. |
| Output.Click | src/gui/output.py:163-172 | The corrected click selects the clicked row, within range. |
| Output.Hide | src/gui/output.py:174-181 | The corrected hide clears the selection. |
| Output.ClickKeepsOneShown | src/gui/output.py:163-172 | After a corrected click exactly the clicked row's dots are on the map. |
| Output.HideClearsMap | src/gui/output.py:174-181 | After the corrected hide no dots are on the map. |
| Output.AgreeAwayFromRowZero | src/gui/output.py:169-181 | As written and corrected agree unless row 0 is selected. |
| Output.RowZeroStaysShown | src/gui/output.py:169-181 | As written, clicking row 0 then row 1 shows both rows' dots, and hiding after row 0 leaves row 0's dots shown. |
| Output.NoDots | src/gui/output.py:155-161 | No row is selected and every row's dots are hidden. |
| Output.OutputPane.constructor | src/gui/output.py:18-46 | The sections are Layout(count, gate count). The pane has dots iff some gate was chosen, and then one hidden group per budget row with nothing selected. Without a budget table `make_dots` never runs. |
| Output.OutputPane.MakeDots | src/gui/output.py:150-161 | One hidden dot group per row, nothing selected; the pane now has dots. |
| Output.OutputPane.BudgetTableCb | src/gui/output.py:163-172 | The corrected click; only the clicked row's dots stay on the map. |
| Output.OutputPane.HideDots | src/gui/output.py:174-181 | Fails (AttributeError on `selected_row`) iff the pane never made its dots, and then nothing changes. Otherwise the corrected hide: no dots stay on the map. |
| Output.TitleHead | src/gui/output.py:52-59 | The title opens with the regions joined by ", "; without a mapping name it ends with the targets, each with " ⨉ weight" when weights are given. |
| Output.Capitalize | src/gui/output.py:59 | `capitalize` keeps the length of the text. |
| Output.TitleBudgetAsWritten | src/gui/output.py:60-67 | As written: for several levels the same text as the corrected budget part; for one level the literal " <b>Budget:</b> {b}</p>". |
| Output.TitleBudget | src/gui/output.py:60-67 | The corrected budget part, which closes the title's paragraph. |
| Output.TitleText | src/gui/output.py:48-68 | The title shows the top budget for several levels and the single budget otherwise (the corrected budget part). |
| Output.TitleShowsBudget | src/gui/output.py:59-67 | Whatever precedes it, the budget part keeps its amount in view. |
| Output.TitleShowsTopBudget | src/gui/output.py:60-64 | With several levels the title shows the top budget, increment times count. |
| Output.TitleShowsSingleBudget | src/gui/output.py:65-67 | The corrected title shows the single budget's amount. |
| Output.TitleAsWrittenHidesBudget | src/gui/output.py:65-67 | As written, the single-budget title never contains the formatted amount. |
| Output.InitialBoxRules | src/gui/output.py:213-261 | Four boxes. Both tables are checked and enabled. The target plots box is enabled iff there are figures, and the net benefit box iff the first figure is 'Net'. Each box is checked iff it is enabled. |
| Output.DownloadPane.constructor | src/gui/output.py:195-261 | The boxes follow InitialBoxes. The folder name is the "_".join of the folder fields. The form is shown iff the barrier matrix has rows. |
| Output.DownloadPane.MakeBoxes | src/gui/output.py:213-223 | The loop makes NB and IT unchecked and disabled, and BS and BD checked. |
| Output.DownloadPane.MakeFolderName | src/gui/output.py:263-275 | The folder name joins the region prefixes, the (weighted) target fields, the top budget without "$" and the mapping. |
| Output.FolderParts | src/gui/output.py:267-274 | There is one field per region and per target, one for the budget, and one for a non-empty mapping. |
| Output.FormatNoUnderscore | src/gui/output.py:272 | A formatted amount contains no "_". |
| Output.FolderNameSplits | src/gui/output.py:263-275 | When the names contain no "_", splitting the folder name at "_" gives back its fields. |
| Output.DownloadPane.Toggle | src/gui/output.py:216-222 | A click on an enabled box flips only that box. |
| Output.SavedFiguresRule | src/gui/output.py:311-315 | A figure is saved iff it was made and its box ('Net' or target plots) is checked. |
| Output.SavedTables | src/gui/output.py:322-334 | After the figures come the summary and the detail table, each exactly when its box is checked. |
| Output.DownloadPane.SaveFiles | src/gui/output.py:303-334 | The files written are the kept figures with the format's extension, then the checked tables. |
| Output.DownloadPane.ArchiveCb | src/gui/output.py:277-310 | Nothing is written iff no box is checked. Otherwise the display figures are saved for HTML and the download figures for the other formats. |
| Output.InitialBoxesArchive | src/gui/output.py:277-284 | The boxes as constructed always let the archive go ahead. |

## Left out

- Server requests in `MetaOP.setup` (src/op.py:88-123) are I/O. The model starts from the barrier rows and models only the aggregation at lines 125-127.
- `OP.run_optimizer` (src/op.py:163-187) only builds a request string and references an undefined `server`. It sends nothing and is not modelled; `TideGatesApp.run_optimizer` (src/gui/app.py:144-157) is therefore left out too.
- `url_for_figure`, `default_regions`, `default_budget` and `default_targets` are environment and URL lookups. Only their shared `default_list` is modelled.
- `src/gui/tgmap.py`, `src/gui/styles.py` and `src/main.py` are not part of this model. The map is reduced to the set of regions it was last told to display and to the dots' visibility.
- Rendering is left out: HTML panes, Tabulator formatters and alignments, slider widths, the "Limit" label of the Advanced tab (src/gui/budgets.py:312-313).
- The `OPResult` object (`budget_table`, `gate_table`, `make_roi_curves`, the figure lists) is computed elsewhere. Its sizes and figure names are passed in.
- Writing the archive is file-system I/O and is left out: `_make_archive_dir`, `make_archive`, `savehtml`, `savefig` and `to_csv`. `SaveFiles` returns the names of the files it would write. `filename_input.value_input` is not modelled.
- Budgets.AdvancedBudgetBox: the FloatSliders' values are ints here. Only the increment slider's lower bound carries the float `n / COUNT_MAX`, as a real; slider stepping and snapping is not modelled.
- Budgets.ScaledDecimal: `int(float(d) * m)` is computed with exact decimals. Float rounding, exponents, signs, whitespace, underscores, "inf"/"nan" and non-ASCII digits accepted by Python's `float`/`int` are not modelled; such text parses to 0 here.
- Budgets.ParseFormatRoundTrip: the round trip holds only for the parser read with exact decimals. In the program, `int(float(s[:-1]) * multiplier)` (src/gui/budgets.py:197) truncates a double product that can fall just below the integer. "$4.1M" parses to 4099999, "$8.2M" to 8199999 and "$32.3K" to 32299, and these are the texts the formatter writes for 4100000, 8200000 and 32300. The same applies to ParseLabel, ScaledTenths, RoundTripThousands, RoundTripMillions and Output.RenamedColumnParsesBack.
- Budgets.IntOf: only ASCII digit strings are read. Python's `int` also accepts a sign ("+5"), surrounding whitespace (" 5"), underscores ("5_0") and non-ASCII decimal digits ("٣"), which read as 0 here.
- Budgets.FixedBudgetBox.Values: the negative result of `int` on a text such as "-5" is not modelled (the parser yields a `nat`) and stands as 0.
- Op.FormatBudgetAmount: exact only for the amounts in `Op.Representable` (multiples of $100 below $1M and of $100K from $1M on, within float range). Other amounts print more digits or exponent notation in Python and have no model.
- Widget events do not cascade here: each `Edit...` method runs the one watcher the user's edit fires. The renewed events a watcher's own assignment fires are not modelled.
- Budgets.AdvancedBudgetBox.SetValue: `param.watch` (src/gui/budgets.py:277) fires only when the value actually changes. For n equal to the current maximum Panel would not re-derive the increment, while the model always does. At the one call site (src/gui/app.py:111) the box is fresh with the Basic tab active, so the Advanced tab's `set_value` is not reached there.
- Output.RenameColumns: a column name counts as an amount when it is an ASCII digit string. Python's `str.isdigit` (src/gui/output.py:125) also holds for other Unicode digits, which the model keeps as they are.
- Output.Capitalize: only ASCII letters change case. Python's `str.capitalize` applies full Unicode case mapping, which can change the length ("ß" becomes "Ss").
- App.Validate: a weight is checked against ASCII digits only. Python's `isdigit` and `int` also accept other Unicode decimal digits (e.g. "٣" reads as 3), and for a digit-like character such as "²" `isdigit` holds while `int` raises ValueError out of the callback. The model reports invalid weights in both cases.
- Budgets.BasicBudgetBox.SetBudgetMax: the chosen label is kept even when the new options no longer hold it. What Panel's DiscreteSlider does with a value outside its options is library behaviour outside this model, so `Values()` may report a preset the slider no longer offers.
- Info.EscapeChar: Python's `repr` also escapes other control and non-printable characters (e.g. "\x01" and "\x7f"); here they are written as themselves.
- Op.Project.Setup: barrier costs are integers. The pandas cost column may hold floats, whose sums round; that is not modelled.
- Regions.RegionBox.Cb: the external callback's effect is not modelled, only that it is called. The order the map iterates the set in is not modelled.
- Info.ShowParams takes the regions as a list in a fixed order; Python iterates the set in an unspecified order.
- Output.TitleText: the short target names come from `OP.target_frame` and are passed in. When there are fewer weights than targets (IndexError), a precondition excludes the call.
- Output.DownloadPane.MakeFolderName: the IndexError for fewer weights than targets is excluded by a precondition rather than modelled as an error.
- Info.ReviewSeveralLevels: states only that the top budget appears in the review line, not the whole line's text.
- Source defect not modelled at src/gui/app.py:128: `values()` returns three numbers, but two names unpack it (ValueError). `App.Validate` takes the triple and reads the schedule maximum as the budget.
- Source defect not modelled at src/gui/app.py:140: the target box has no `mapping()` method. The mapping is a parameter.
- Source defect not modelled at src/gui/app.py:142: `show_params` is called with six arguments but takes five. `Info.InfoBox.ShowParams` takes the triple as one argument.
- Source defect not modelled at src/gui/targetbox.py:49 and 83: `make_layout` is not defined anywhere. The tabs are built from their entries directly.
- `TargetBox.set_selection` and `RegionBox.check` (called at src/gui/app.py:109-112) are not defined in the files shown and are not modelled.

## Findings

| source | as written | input that shows it | evidently intended | confidence | as-written member | corrected member |
|---|---|---|---|---|---|---|
| src/gui/output.py:169-172, 179-181 | `if n := self.selected_row` and `if self.selected_row` test truthiness, so row 0's dots are never hidden | click budget row 0, then row 1: both rows' dots are shown; or click row 0 and then a region name: row 0's dots stay | hide the previous row whenever one is selected (`is not None`) | not executed | Output.ClickAsWritten, Output.HideAsWritten, Output.RowZeroStaysShown | Output.Click, Output.Hide, Output.ClickKeepsOneShown, Output.HideClearsMap |
| src/gui/output.py:65-67 | the single-budget title is not an f-string, so it shows the literal "{b}"; `b` is also a one-element tuple | any result with one budget level, e.g. start $1.5M: the title never contains "$1.5M" | `title += f" <b>Budget:</b> {b}</p>"` with `b` the formatted amount | not executed | Output.TitleBudgetAsWritten, Output.TitleAsWrittenHidesBudget | Output.TitleBudget, Output.TitleShowsSingleBudget |
