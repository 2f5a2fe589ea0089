/** The target selection (src/gui/targetbox.py): a tab of checkboxes and a
    tab of weight entry boxes over the same targets, and a box that answers
    for whichever tab is active. The widgets are reduced to their values:
    a checkbox to its name and state, a text entry row to its text and the
    target name beside it. */
module Targets {
  /** The positions of the true flags, in increasing order. */
  function Kept(flags: seq<bool>): (r: seq<nat>)
    ensures forall k :: 0 <= k < |r| ==> r[k] < |flags| && flags[r[k]]
    ensures forall k, l :: 0 <= k < l < |r| ==> r[k] < r[l]
    ensures forall j :: 0 <= j < |flags| && flags[j] ==> j in r
  {
    if flags == [] then []
    else
      var rest := Kept(flags[..|flags| - 1]);
      if flags[|flags| - 1] then rest + [|flags| - 1] else rest
  }

  datatype Checkbox = Checkbox(name: string, value: bool)

  /** The checkbox tab: `boxes` is a dictionary from target name to
      checkbox, held here as its entries in insertion order. */
  datatype BasicTargetBox = BasicTargetBox(boxes: seq<Checkbox>)
  {
    /** Dictionary keys are distinct. */
    predicate Valid()
    {
      forall i, j :: 0 <= i < j < |boxes| ==> boxes[i].name != boxes[j].name
    }

    function Flags(): (r: seq<bool>)
      ensures |r| == |boxes|
    {
      seq(|boxes|, i requires 0 <= i < |boxes| => boxes[i].value)
    }

    /** `selection`: the names of the checked boxes. */
    function Selection(): (r: seq<string>)
      ensures |r| <= |boxes|
      ensures forall t :: t in r <==> AnyChecked(boxes, t)
    {
      CheckedNames(boxes)
    }

    /** `weights`: this tab gives every target the same weight. */
    function Weights(): (r: seq<string>)
      ensures r == []
    {
      []
    }
  }

  /** Some box named `t` is checked. */
  predicate AnyChecked(boxes: seq<Checkbox>, t: string)
  {
    exists j :: 0 <= j < |boxes| && boxes[j].value && boxes[j].name == t
  }

  /** The names of the checked boxes, in order. */
  function CheckedNames(boxes: seq<Checkbox>): (r: seq<string>)
    ensures |r| <= |boxes|
    ensures forall t :: t in r <==> AnyChecked(boxes, t)
  {
    if boxes == [] then []
    else
      var last := boxes[|boxes| - 1];
      CheckedNames(boxes[..|boxes| - 1]) + (if last.value then [last.name] else [])
  }

  /** One text entry row of the weighted tab: the entered text and the
      target name shown beside it. */
  datatype Row = Row(text: string, name: string)

  /** The weight tab: its rows in grid order. */
  datatype WeightedTargetBox = WeightedTargetBox(rows: seq<Row>)
  {
    /** Which rows have a non-empty entry: the rows Python finds truthy. */
    function Filled(): (r: seq<bool>)
      ensures |r| == |rows|
    {
      seq(|rows|, i requires 0 <= i < |rows| => rows[i].text != "")
    }

    /** `selection`: the target names of the rows with an entry. */
    function Selection(): (r: seq<string>)
      ensures |r| <= |rows|
      ensures forall t :: t in r <==> AnyEntered(rows, t)
    {
      FilledNamesEntered(rows);
      FilledNames(rows)
    }

    /** `weights`: the entries themselves, from the same rows, so one per
        selected target and none of them empty. */
    function Weights(): (r: seq<string>)
      ensures |r| == |Selection()|
      ensures forall i :: 0 <= i < |r| ==> r[i] != ""
    {
      FilledTextsEntries(rows);
      FilledTexts(rows)
    }
  }

  /** Some row for target `t` has an entry. */
  predicate AnyEntered(rows: seq<Row>, t: string)
  {
    exists j :: 0 <= j < |rows| && rows[j].text != "" && rows[j].name == t
  }

  /** The target names of the rows with an entry, in order. */
  function FilledNames(rows: seq<Row>): seq<string>
  {
    if rows == [] then []
    else
      var last := rows[|rows| - 1];
      FilledNames(rows[..|rows| - 1]) + (if last.text != "" then [last.name] else [])
  }

  function FilledTexts(rows: seq<Row>): seq<string>
  {
    if rows == [] then []
    else
      var last := rows[|rows| - 1];
      FilledTexts(rows[..|rows| - 1]) + (if last.text != "" then [last.text] else [])
  }

  /** The comprehension over the rows keeps a target iff its row has an
      entry. */
  lemma {:induction false} FilledNamesEntered(rows: seq<Row>)
    ensures |FilledNames(rows)| <= |rows|
    ensures forall t :: t in FilledNames(rows) <==> AnyEntered(rows, t)
    decreases |rows|
  {
    if rows != [] {
      var n := |rows| - 1;
      FilledNamesEntered(rows[..n]);
      forall t ensures AnyEntered(rows, t) <==> AnyEntered(rows[..n], t) || (rows[n].text != "" && rows[n].name == t) {
        if AnyEntered(rows, t) {
          var j :| 0 <= j < |rows| && rows[j].text != "" && rows[j].name == t;
          if j < n {
            assert rows[..n][j] == rows[j];
          }
        }
        if AnyEntered(rows[..n], t) {
          var j :| 0 <= j < n && rows[..n][j].text != "" && rows[..n][j].name == t;
          assert rows[j] == rows[..n][j];
        }
      }
    }
  }

  /** The comprehension keeps the non-empty entries, one per kept target. */
  lemma {:induction false} FilledTextsEntries(rows: seq<Row>)
    ensures |FilledTexts(rows)| == |FilledNames(rows)|
    ensures forall i :: 0 <= i < |FilledTexts(rows)| ==> FilledTexts(rows)[i] != ""
    decreases |rows|
  {
    if rows != [] {
      FilledTextsEntries(rows[..|rows| - 1]);
    }
  }

  datatype TargetTab = BasicTargets | WeightedTargets

  /** The two tabs and which one is shown. */
  datatype TargetBox = TargetBox(active: TargetTab, basic: BasicTargetBox, weighted: WeightedTargetBox)
  {
    /** `selection`: asks the active tab, so it names the checked boxes
        or the targets with an entry. */
    function Selection(): (r: seq<string>)
      ensures active == BasicTargets ==> forall t :: t in r <==> AnyChecked(basic.boxes, t)
      ensures active == WeightedTargets ==> forall t :: t in r <==> AnyEntered(weighted.rows, t)
    {
      match active
      case BasicTargets => basic.Selection()
      case WeightedTargets => weighted.Selection()
    }

    /** `weights`: asks the active tab: none on the checkbox tab, one per
        selected target on the weight tab. */
    function Weights(): (r: seq<string>)
      ensures active == BasicTargets ==> r == []
      ensures active == WeightedTargets ==> |r| == |Selection()|
    {
      match active
      case BasicTargets => basic.Weights()
      case WeightedTargets => weighted.Weights()
    }
  }

  /** The checkbox tab selects exactly the checked boxes, in their order. */
  lemma {:induction false} SelectionIsChecked(box: BasicTargetBox)
    ensures var k := Kept(box.Flags());
      |box.Selection()| == |k| && forall i :: 0 <= i < |k| ==> box.Selection()[i] == box.boxes[k[i]].name
    decreases |box.boxes|
  {
    var boxes := box.boxes;
    if boxes != [] {
      var n := |boxes| - 1;
      var front := BasicTargetBox(boxes[..n]);
      SelectionIsChecked(front);
      assert front.Flags() == box.Flags()[..n];
      var kf, k := Kept(front.Flags()), Kept(box.Flags());
      assert k == kf + (if boxes[n].value then [n] else []);
      var sel := box.Selection();
      assert sel == front.Selection() + (if boxes[n].value then [boxes[n].name] else []);
      forall i | 0 <= i < |k| ensures sel[i] == boxes[k[i]].name {
        if i < |kf| {
          assert sel[i] == front.Selection()[i] && front.boxes[kf[i]] == boxes[kf[i]];
        }
      }
    }
  }

  /** A checkbox's name is selected iff its box is checked. */
  lemma CheckedIffSelected(box: BasicTargetBox, j: nat)
    requires box.Valid() && j < |box.boxes|
    ensures box.boxes[j].name in box.Selection() <==> box.boxes[j].value
  {
    SelectionIsChecked(box);
    var k := Kept(box.Flags());
    var sel := box.Selection();
    if box.boxes[j].value {
      assert box.Flags()[j];
      var i :| 0 <= i < |k| && k[i] == j;
      assert sel[i] == box.boxes[j].name;
    }
    if box.boxes[j].name in sel {
      var i :| 0 <= i < |sel| && sel[i] == box.boxes[j].name;
      assert box.boxes[k[i]].name == box.boxes[j].name;
      assert k[i] == j;
      assert box.Flags()[k[i]];
    }
  }

  /** No target is selected twice by the checkbox tab. */
  lemma SelectionDistinct(box: BasicTargetBox)
    requires box.Valid()
    ensures forall i, j :: 0 <= i < j < |box.Selection()| ==> box.Selection()[i] != box.Selection()[j]
  {
    SelectionIsChecked(box);
  }

  /** The weighted tab's two lists come from the same rows, picked by the
      same test, so they are parallel: weight i was entered for target i. */
  lemma WeightsParallel(box: WeightedTargetBox)
    ensures var k := Kept(box.Filled());
      |box.Selection()| == |k| && |box.Weights()| == |k| &&
      forall i :: 0 <= i < |k| ==> box.Selection()[i] == box.rows[k[i]].name && box.Weights()[i] == box.rows[k[i]].text
  {
    RowsParallel(box.rows);
  }

  /** `WeightsParallel` on the rows themselves. */
  lemma {:induction false} RowsParallel(rows: seq<Row>)
    ensures var k := Kept(WeightedTargetBox(rows).Filled());
      var sel, ws := FilledNames(rows), FilledTexts(rows);
      |sel| == |k| && |ws| == |k| && forall i :: 0 <= i < |k| ==> sel[i] == rows[k[i]].name && ws[i] == rows[k[i]].text
    decreases |rows|
  {
    if rows != [] {
      var n := |rows| - 1;
      RowsParallel(rows[..n]);
      assert WeightedTargetBox(rows[..n]).Filled() == WeightedTargetBox(rows).Filled()[..n];
      var kf, k := Kept(WeightedTargetBox(rows[..n]).Filled()), Kept(WeightedTargetBox(rows).Filled());
      assert k == kf + (if rows[n].text != "" then [n] else []);
      var sel, ws := FilledNames(rows), FilledTexts(rows);
      forall i | 0 <= i < |k| ensures sel[i] == rows[k[i]].name && ws[i] == rows[k[i]].text {
        if i < |kf| {
          assert sel[i] == FilledNames(rows[..n])[i] && ws[i] == FilledTexts(rows[..n])[i];
          assert rows[..n][kf[i]] == rows[kf[i]];
        }
      }
    }
  }

  /** Every weight handed on is a non-empty entry, and every row with an
      entry contributes its target. */
  lemma WeightsFromEntries(box: WeightedTargetBox)
    ensures forall i :: 0 <= i < |box.Weights()| ==> box.Weights()[i] != ""
    ensures forall j :: 0 <= j < |box.rows| && box.rows[j].text != "" ==> box.rows[j].name in box.Selection()
  {
    WeightsParallel(box);
    var k := Kept(box.Filled());
    forall j | 0 <= j < |box.rows| && box.rows[j].text != ""
      ensures box.rows[j].name in box.Selection()
    {
      assert box.Filled()[j];
      var i :| 0 <= i < |k| && k[i] == j;
      assert box.Selection()[i] == box.rows[j].name;
    }
  }

  /** The active tab alone decides what the box answers. */
  lemma OnlyActiveTab(a: TargetBox, b: TargetBox)
    requires a.active == b.active
    requires a.active == BasicTargets ==> a.basic == b.basic
    requires a.active == WeightedTargets ==> a.weighted == b.weighted
    ensures a.Selection() == b.Selection() && a.Weights() == b.Weights()
  {
  }

  /** Whatever tab is active, the weights are either absent or one per
      selected target: what the review of the settings needs. */
  lemma WeightsFitSelection(box: TargetBox)
    ensures box.Weights() == [] || |box.Weights()| == |box.Selection()|
  {
    if box.active == WeightedTargets {
      WeightsParallel(box.weighted);
    }
  }
}
