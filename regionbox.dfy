/** The region checkboxes (src/gui/regionbox.py): the set of selected
    regions, kept in step with checkbox events, and the budget bound that
    follows the total barrier cost of that set. The map widget is reduced to
    the set it was last told to display, and the optional external callback
    to a count of its calls. */
module Regions {
  import opened Wrappers
  import Budgets

  datatype EventKind = Changed | Other

  /** A widget event: its type, the checkbox's region name and its new value. */
  datatype Event = Event(kind: EventKind, region: string, checked: bool)

  /** The effect of one event on the selection; a removal of a region that is
      not selected raises KeyError, which is `None` here. */
  function Step(selected: set<string>, e: Event): (r: Option<set<string>>)
    ensures e.kind == Other ==> r == Some(selected)
    ensures e.kind == Changed && e.checked ==> r == Some(selected + {e.region})
    ensures e.kind == Changed && !e.checked ==> (r.None? <==> e.region !in selected)
    ensures r.Some? && e.kind == Changed && !e.checked ==> r.value == selected - {e.region}
  {
    if e.kind == Other then Some(selected)
    else if e.checked then Some(selected + {e.region})
    else if e.region in selected then Some(selected - {e.region})
    else None
  }

  /** The selection after a batch of events, or `None` if one of them fails. */
  function Replay(selected: set<string>, events: seq<Event>): Option<set<string>>
  {
    if events == [] then Some(selected)
    else
      var before := Replay(selected, events[..|events| - 1]);
      if before.None? then None else Step(before.value, events[|events| - 1])
  }

  /** Whether a batch holds a 'changed' event, the kind that re-bounds the budget. */
  predicate AnyChanged(events: seq<Event>)
  {
    exists i :: 0 <= i < |events| && events[i].kind == Changed
  }

  /** `sum(OP.total_cost[x] for x in selected)`: the order of a set does not
      matter to a sum, so it is defined by removing any one element. */
  ghost function SetSum(costs: map<string, int>, s: set<string>): int
    requires s <= costs.Keys
  {
    if s == {} then 0
    else
      var x :| x in s;
      costs[x] + SetSum(costs, s - {x})
  }

  /** Any element can be the one taken out first. */
  lemma SetSumRemove(costs: map<string, int>, s: set<string>, y: string)
    requires s <= costs.Keys && y in s
    ensures SetSum(costs, s) == costs[y] + SetSum(costs, s - {y})
    decreases |s|
  {
    var x :| x in s && SetSum(costs, s) == costs[x] + SetSum(costs, s - {x});
    if x != y {
      SetSumRemove(costs, s - {x}, y);
      SetSumRemove(costs, s - {y}, x);
      assert s - {x} - {y} == s - {y} - {x};
    }
  }

  /** The sum grows by a region's cost when the region is added. */
  lemma {:induction false} SetSumAdd(costs: map<string, int>, s: set<string>, y: string)
    requires s <= costs.Keys && y in costs && y !in s
    ensures SetSum(costs, s + {y}) == SetSum(costs, s) + costs[y]
  {
    SetSumRemove(costs, s + {y}, y);
    assert s + {y} - {y} == s;
  }

  /** Event `k` of the batch is the first to fail, and `reached` is the
      selection the events before it produce. */
  predicate FailsAt(selected: set<string>, events: seq<Event>, k: int, reached: set<string>)
  {
    0 <= k < |events| && Replay(selected, events[..k]) == Some(reached) && Step(reached, events[k]).None?
  }

  class RegionBox {
    /** `OP.total_cost`: the cost of the barriers in each region. */
    const totalCost: map<string, int>
    const budget: Budgets.BudgetBox
    var selected: set<string>
    /** The regions the map was last asked to display. */
    var displayed: set<string>
    var hasExternal: bool
    var externalCalls: nat

    ghost predicate Valid()
      reads this, budget, budget.basic
    {
      selected <= totalCost.Keys && budget.Valid()
    }

    constructor (costs: map<string, int>, box: Budgets.BudgetBox)
      requires box.Valid()
      ensures Valid() && totalCost == costs && budget == box
      ensures selected == {} && displayed == {} && !hasExternal && externalCalls == 0
    {
      totalCost := costs;
      budget := box;
      selected := {};
      displayed := {};
      hasExternal := false;
      externalCalls := 0;
    }

    /** `selection`: the live set of selected region names. */
    function Selection(): (r: set<string>)
      reads this
      ensures r == selected
    {
      selected
    }

    /** `add_external_callback`. */
    method AddExternalCallback()
      modifies this
      ensures hasExternal && externalCalls == old(externalCalls)
      ensures selected == old(selected) && displayed == old(displayed)
    {
      hasExternal := true;
    }

    /** `cb`: apply each 'changed' event to the selection, re-bounding the
        budget by the selection's total cost after each one; then show the
        selection on the map and call the external callback. A removal of an
        unselected region raises KeyError: processing stops there, with the
        earlier events applied and neither the map nor the callback told. */
    method Cb(events: seq<Event>) returns (ok: bool)
      requires Valid()
      requires forall i :: 0 <= i < |events| ==> events[i].region in totalCost
      modifies this, budget.basic, budget.advanced
      ensures Valid()
      ensures ok <==> Replay(old(selected), events).Some?
      ensures ok ==> Replay(old(selected), events) == Some(selected)
      ensures ok ==> displayed == selected
      ensures ok ==> externalCalls == old(externalCalls) + (if hasExternal then 1 else 0)
      ensures !ok ==> exists k :: FailsAt(old(selected), events, k, selected)
      ensures !ok ==> displayed == old(displayed) && externalCalls == old(externalCalls)
      ensures ok && AnyChanged(events) ==> budget.basic.options == Budgets.AllowedOptions(SetSum(totalCost, selected))
      ensures ok && AnyChanged(events) ==> budget.advanced.RangesFor(SetSum(totalCost, selected))
      ensures budget.basic.value == old(budget.basic.value) && budget.advanced.maxValue == old(budget.advanced.maxValue)
      ensures budget.advanced.Values() == old(budget.advanced.Values())
      ensures !AnyChanged(events) ==> selected == old(selected) && unchanged(budget.basic, budget.advanced)
      ensures hasExternal == old(hasExternal)
    {
      var i := 0;
      while i < |events|
        invariant 0 <= i <= |events| && Valid()
        invariant Replay(old(selected), events[..i]) == Some(selected)
        invariant AnyChanged(events[..i]) ==> budget.basic.options == Budgets.AllowedOptions(SetSum(totalCost, selected))
        invariant AnyChanged(events[..i]) ==> budget.advanced.RangesFor(SetSum(totalCost, selected))
        invariant budget.basic.value == old(budget.basic.value) && budget.advanced.maxValue == old(budget.advanced.maxValue)
        invariant budget.advanced.Values() == old(budget.advanced.Values())
        invariant !AnyChanged(events[..i]) ==> selected == old(selected) && unchanged(budget.basic, budget.advanced)
        invariant displayed == old(displayed) && externalCalls == old(externalCalls) && hasExternal == old(hasExternal)
      {
        ghost var before := selected;
        var applied := Apply(events[i]);
        ReplayNext(old(selected), events, i, before);
        if !applied {
          ReplayStops(old(selected), events, i + 1);
          assert FailsAt(old(selected), events, i, selected);
          ok := false;
          return;
        }
        ChangedPrefix(events, i);
        i := i + 1;
      }
      assert events[..i] == events;
      displayed := selected;
      if hasExternal {
        externalCalls := externalCalls + 1;
      }
      ok := true;
    }

    /** One event of `cb`: a 'changed' event updates the selection and then
        the budget bound; any other event does nothing. */
    method Apply(e: Event) returns (ok: bool)
      requires Valid() && e.region in totalCost
      modifies this, budget.basic, budget.advanced
      ensures Valid()
      ensures Step(old(selected), e) == (if ok then Some(selected) else None)
      ensures !ok ==> selected == old(selected)
      ensures ok && e.kind == Changed ==> budget.basic.options == Budgets.AllowedOptions(SetSum(totalCost, selected))
      ensures ok && e.kind == Changed ==> budget.advanced.RangesFor(SetSum(totalCost, selected))
      ensures budget.basic.value == old(budget.basic.value) && budget.advanced.maxValue == old(budget.advanced.maxValue)
      ensures budget.advanced.Values() == old(budget.advanced.Values())
      ensures !ok || e.kind == Other ==> unchanged(budget.basic, budget.advanced)
      ensures displayed == old(displayed) && externalCalls == old(externalCalls) && hasExternal == old(hasExternal)
    {
      ok := true;
      if e.kind == Changed {
        if e.checked {
          selected := selected + {e.region};
        } else if e.region in selected {
          selected := selected - {e.region};
        } else {
          ok := false;
          return;
        }
        var amount := Amount();
        budget.SetBudgetMax(amount);
      }
    }

    /** The total cost of the selection, one region at a time. */
    method Amount() returns (amount: int)
      requires selected <= totalCost.Keys
      ensures amount == SetSum(totalCost, selected)
    {
      amount := 0;
      var rest := selected;
      while rest != {}
        invariant rest <= selected
        invariant amount + SetSum(totalCost, rest) == SetSum(totalCost, selected)
        decreases |rest|
      {
        var x :| x in rest;
        SetSumRemove(totalCost, rest, x);
        amount := amount + totalCost[x];
        rest := rest - {x};
      }
    }
  }

  /** One more event extends the replay by one step. */
  lemma ReplayNext(selected: set<string>, events: seq<Event>, i: nat, before: set<string>)
    requires i < |events| && Replay(selected, events[..i]) == Some(before)
    ensures Replay(selected, events[..i + 1]) == Step(before, events[i])
  {
    assert events[..i + 1][..i] == events[..i];
  }

  /** Once a prefix of the batch fails, the whole batch fails. */
  lemma {:induction false} ReplayStops(selected: set<string>, events: seq<Event>, j: nat)
    requires j <= |events| && Replay(selected, events[..j]).None?
    ensures Replay(selected, events).None?
    decreases |events| - j
  {
    if j < |events| {
      assert events[..j + 1][..j] == events[..j];
      ReplayStops(selected, events, j + 1);
    } else {
      assert events[..j] == events;
    }
  }

  /** The prefix holds a 'changed' event iff the shorter one does or the new
      event is one. */
  lemma ChangedPrefix(events: seq<Event>, i: nat)
    requires i < |events|
    ensures AnyChanged(events[..i + 1]) <==> AnyChanged(events[..i]) || events[i].kind == Changed
  {
    if events[i].kind == Changed {
      assert events[..i + 1][i] == events[i];
    } else {
      NoNewChange(events, i);
    }
  }

  /** An event other than 'changed' adds no changed event to the prefix. */
  lemma NoNewChange(events: seq<Event>, i: nat)
    requires i < |events| && events[i].kind == Other
    ensures AnyChanged(events[..i + 1]) <==> AnyChanged(events[..i])
  {
    if AnyChanged(events[..i + 1]) {
      var j :| 0 <= j < i + 1 && events[..i + 1][j].kind == Changed;
      assert j < i && events[..i][j] == events[..i + 1][j];
    }
    if AnyChanged(events[..i]) {
      var j :| 0 <= j < i && events[..i][j].kind == Changed;
      assert events[..i + 1][j] == events[..i][j];
    }
  }

  /** Checking a box and then unchecking it restores the selection when the
      region was not selected before. */
  lemma CheckThenUncheck(selected: set<string>, r: string)
    requires r !in selected
    ensures Replay(selected, [Event(Changed, r, true), Event(Changed, r, false)]) == Some(selected)
  {
    var events := [Event(Changed, r, true), Event(Changed, r, false)];
    assert events[..1] == [Event(Changed, r, true)] && events[..1][..0] == [];
    assert Replay(selected, events[..1]) == Some(selected + {r});
    assert selected + {r} - {r} == selected;
  }

  /** Unchecking a box that is not checked is the KeyError path. */
  lemma UncheckUnselected(selected: set<string>, r: string)
    requires r !in selected
    ensures Replay(selected, [Event(Changed, r, false)]).None?
  {
    assert [Event(Changed, r, false)][..0] == [];
  }
}
