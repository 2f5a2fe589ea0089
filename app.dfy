/** The run check behind the Run Optimizer button (`validate_settings` in
    src/gui/app.py): missing selections first, then an all-or-nothing check
    of the target weights, and only then the parameter review. */
module App {
  import opened Text
  import Budgets

  /** Which message the check leads to: the missing items, the rejected
      weights, or the review of the settings. */
  datatype Verdict =
    | Missing(noRegions: bool, noBudget: bool, noTargets: bool)
    | InvalidWeights(weights: seq<string>)
    | Review(regions: set<string>, budget: Budgets.Triple, targets: seq<string>, weights: seq<string>)

  /** The largest budget of a schedule, as the review text reports it: the
      increment times the count when there are several levels, otherwise
      the start. */
  function ScheduleMax(t: Budgets.Triple): int
  {
    if t.count > 1 then t.increment * t.count else t.start
  }

  /** A weight is a digit string whose value lies in [1, 5]. */
  predicate ValidWeight(w: string)
  {
    IsDigitString(w) && 1 <= DigitsValue(w) <= 5
  }

  predicate AllValid(weights: seq<string>)
  {
    forall i :: 0 <= i < |weights| ==> ValidWeight(weights[i])
  }

  /** `validate_settings`, with the budget read as the schedule maximum. */
  function Validate(regions: set<string>, budget: Budgets.Triple, targets: seq<string>, weights: seq<string>): (v: Verdict)
    ensures v.Missing? <==> regions == {} || ScheduleMax(budget) == 0 || targets == []
    ensures v.Missing? ==> v == Missing(regions == {}, ScheduleMax(budget) == 0, targets == [])
    ensures v.InvalidWeights? <==> !v.Missing? && weights != [] && exists i :: 0 <= i < |weights| && !ValidWeight(weights[i])
    ensures v.InvalidWeights? ==> v.weights == weights
    ensures v.Review? <==> !v.Missing? && AllValid(weights)
    ensures v.Review? ==> v == Review(regions, budget, targets, weights)
  {
    if |regions| == 0 || ScheduleMax(budget) == 0 || |targets| == 0 then
      Missing(|regions| == 0, ScheduleMax(budget) == 0, |targets| == 0)
    else if weights != [] && !AllValid(weights) then
      InvalidWeights(weights)
    else
      Review(regions, budget, targets, weights)
  }

  /** One bad weight rejects the whole list, whatever the others are. */
  lemma OneBadWeightRejects(regions: set<string>, budget: Budgets.Triple, targets: seq<string>, weights: seq<string>, i: nat)
    requires regions != {} && ScheduleMax(budget) != 0 && targets != []
    requires i < |weights| && !ValidWeight(weights[i])
    ensures Validate(regions, budget, targets, weights) == InvalidWeights(weights)
  {
  }

  /** With nothing selected, every missing item is reported, and the weights
      are not looked at. */
  lemma NothingSelected(weights: seq<string>)
    ensures Validate({}, Budgets.Triple(0, 0, 10), [], weights) == Missing(true, true, true)
  {
  }

  /** Weights "0" and "3" are rejected: "0" is below the range. */
  lemma WeightZeroRejected(regions: set<string>, budget: Budgets.Triple, targets: seq<string>)
    requires regions != {} && ScheduleMax(budget) != 0 && targets != []
    ensures Validate(regions, budget, targets, ["0", "3"]) == InvalidWeights(["0", "3"])
  {
    assert !ValidWeight(["0", "3"][0]) by {
      assert DigitsValue("0") == 0 by { assert "0"[..0] == ""; }
    }
  }

  /** The Basic target tab has no weights, so its settings go to review. */
  lemma NoWeightsReview(regions: set<string>, budget: Budgets.Triple, targets: seq<string>)
    requires regions != {} && ScheduleMax(budget) != 0 && targets != []
    ensures Validate(regions, budget, targets, []).Review?
  {
  }

  /** The value the check reads from the budget box is non-zero exactly when
      the active tab reports a budget as defined, given the widget ranges: a
      non-negative increment on the Advanced tab, and a count of at least 2. */
  lemma ScheduleMaxMeansDefined(box: Budgets.BudgetBox)
    requires box.Valid()
    requires box.active == Budgets.AdvancedTab ==> box.advanced.incValue >= 0 && box.advanced.countValue >= 2
    ensures ScheduleMax(box.Values()) != 0 <==> box.Defined()
  {
    match box.active
    case BasicTab =>
      var t := box.basic.Values();
      assert t.increment * t.count == Budgets.AmountOf(box.basic.value);
    case AdvancedTab =>
      var inc, count := box.advanced.incValue, box.advanced.countValue;
      assert inc > 0 ==> inc * count > 0;
    case FixedTab =>
  }
}
