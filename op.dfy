/** The OptiPass client interface (src/op.py): the dollar formatter used for
    every displayed amount, the per-region cost totals computed when the
    project is set up, and the developer defaults read from the environment. */
module Op {
  import opened Text
  import opened Wrappers

  const Thousand: int := 1000
  const Million: int := 1000000

  /** The amounts whose quotient Python prints exactly as a decimal with one
      digit after the point: multiples of $100 below $1M, multiples of $100K
      from $1M on, and far enough from zero that the float neither loses the
      tenths digit nor switches to exponent notation. */
  predicate Representable(n: int)
  {
    -100000000000000000 < n < 100000000000000000000 &&
    n % 100 == 0 && (n >= Million ==> n % 100000 == 0)
  }

  function Abs(k: int): nat { if k < 0 then -k else k }

  /** Python's `str` of the float k/10: sign, whole part, point, tenths digit. */
  function TenthsText(k: int): string
  {
    (if k < 0 then "-" else "") + NatToString(Abs(k) / 10) + "." + [DigitChar(Abs(k) % 10)]
  }

  /** `OP.format_budget_amount`: the amount in thousands ("K") below $1M and
      in millions ("M") from $1M on, prefixed with "$", with a trailing ".0"
      removed. What the digits are is stated by FormatShape below. */
  function FormatBudgetAmount(n: int): (r: string)
    requires Representable(n)
    ensures StartsWith(r, "$") && |r| >= 3
    ensures r[|r| - 1] == (if n >= Million then 'M' else 'K')
  {
    var divisor := if n >= Million then Million else Thousand;
    var suffix := if n >= Million then "M" else "K";
    var s := "$" + TenthsText(n / (divisor / 10));
    (if EndsWith(s, ".0") then s[..|s| - 2] else s) + suffix
  }

  /** A non-negative amount is rendered as its whole number of thousands or
      millions, followed by ".d" only when the tenths digit d is not zero:
      whole quotients have no decimal point. */
  lemma FormatShape(n: int)
    requires Representable(n) && n >= 0
    ensures var divisor := if n >= Million then Million else Thousand;
      var tenth := (n % divisor) / (divisor / 10);
      tenth < 10 &&
      FormatBudgetAmount(n) == "$" + NatToString(n / divisor)
        + (if tenth == 0 then "" else "." + [DigitChar(tenth)])
        + (if n >= Million then "M" else "K")
  {
    var divisor := if n >= Million then Million else Thousand;
    var t := if n >= Million then 100000 else 100;
    assert divisor / 10 == t;
    var k := n / t;
    assert k >= 0 && Abs(k) == k;
    DivideTenths(n, divisor);
    var whole, d := k / 10, k % 10;
    assert TenthsText(k) == NatToString(whole) + "." + [DigitChar(d)];
    var s := "$" + TenthsText(k);
    assert s == ("$" + NatToString(whole)) + "." + [DigitChar(d)];
    StripPointZero("$" + NatToString(whole), d);
  }

  lemma DivideTenths(n: nat, divisor: int)
    requires divisor == Thousand || divisor == Million
    requires n % (divisor / 10) == 0
    ensures (n / (divisor / 10)) / 10 == n / divisor
    ensures (n / (divisor / 10)) % 10 == (n % divisor) / (divisor / 10)
  {
    var t := divisor / 10;
    var k := n / t;
    assert n == k * t;
    assert divisor == 10 * t;
    var q := k / 10;
    var d := k % 10;
    assert n == q * divisor + d * t;
    assert 0 <= d * t < divisor;
  }

  /** Only a zero tenths digit leaves the text ending in ".0". */
  lemma StripPointZero(prefix: string, d: nat)
    requires d < 10
    ensures var s := prefix + "." + [DigitChar(d)];
      (EndsWith(s, ".0") <==> d == 0) && (d == 0 ==> s[..|s| - 2] == prefix)
  {
    var s := prefix + "." + [DigitChar(d)];
    assert s[|s| - 2..] == "." + [DigitChar(d)];
    assert DigitValue(DigitChar(d)) == d && DigitValue('0') == 0;
    assert EndsWith(s, ".0") ==> s[|s| - 1] == '0';
  }

  /** Zero is shown in thousands, as "$0K" (never "$0"). */
  lemma FormatZero()
    ensures FormatBudgetAmount(0) == "$0K"
  {
    FormatShape(0);
    assert NatToString(0) == "0";
  }

  /** `OP.format_budgets`: every column amount mapped to its dollar label. */
  function FormatBudgets(cols: seq<int>): (r: map<int, string>)
    requires forall i :: 0 <= i < |cols| ==> Representable(cols[i])
    ensures r.Keys == set i | 0 <= i < |cols| :: cols[i]
    ensures forall n :: n in r ==> Representable(n) && r[n] == FormatBudgetAmount(n)
  {
    map n | n in cols :: FormatBudgetAmount(n)
  }

  /** One row of the barrier file: only the columns the cost totals use. */
  datatype Barrier = Barrier(id: string, region: string, cost: int)

  /** The regions that occur in a barrier list. */
  function RegionsOf(bs: seq<Barrier>): set<string>
  {
    if bs == [] then {} else RegionsOf(bs[..|bs| - 1]) + {bs[|bs| - 1].region}
  }

  /** The summed cost of the barriers of region `r`. */
  function CostIn(bs: seq<Barrier>, r: string): int
  {
    if bs == [] then 0
    else CostIn(bs[..|bs| - 1], r) + (if bs[|bs| - 1].region == r then bs[|bs| - 1].cost else 0)
  }

  /** The summed cost of all barriers. */
  function TotalOf(bs: seq<Barrier>): int
  {
    if bs == [] then 0 else TotalOf(bs[..|bs| - 1]) + bs[|bs| - 1].cost
  }

  /** The sum of `costs[x]` over the names listed. */
  function SumOf(costs: map<string, int>, names: seq<string>): int
    requires forall i :: 0 <= i < |names| ==> names[i] in costs
  {
    if names == [] then 0 else costs[names[0]] + SumOf(costs, names[1..])
  }

  predicate Distinct(names: seq<string>)
  {
    forall i, j :: 0 <= i < j < |names| ==> names[i] != names[j]
  }

  /** The server's published project data, set up once. */
  class Project {
    var regionNames: seq<string>
    var totalCost: map<string, int>

    constructor ()
      ensures regionNames == [] && totalCost == map[]
    {
      regionNames := [];
      totalCost := map[];
    }

    /** The pure aggregation at the end of `setup`: group the barriers by
        region, sum their costs, and keep the region names sorted. */
    method Setup(barriers: seq<Barrier>)
      modifies this
      ensures Sorted(regionNames) && Distinct(regionNames)
      ensures Elements(regionNames) == totalCost.Keys
      ensures totalCost.Keys == RegionsOf(barriers)
      ensures forall r :: r in totalCost ==> totalCost[r] == CostIn(barriers, r)
      ensures SumOf(totalCost, regionNames) == TotalOf(barriers)
    {
      var totals: map<string, int> := map[];
      var keys: seq<string> := [];
      for i := 0 to |barriers|
        invariant totals.Keys == RegionsOf(barriers[..i])
        invariant forall r :: r in totals ==> totals[r] == CostIn(barriers[..i], r)
        invariant Distinct(keys)
        invariant Elements(keys) == totals.Keys
      {
        var b := barriers[i];
        assert barriers[..i + 1][..i] == barriers[..i];
        if b.region !in totals {
          assert Elements(keys + [b.region]) == Elements(keys) + {b.region};
          keys := keys + [b.region];
        }
        totals := totals[b.region := (if b.region in totals then totals[b.region] else 0) + b.cost];
        assert forall r :: r in totals ==> totals[r] == CostIn(barriers[..i + 1], r) by {
          forall r | r in totals ensures totals[r] == CostIn(barriers[..i + 1], r) {
            if r !in RegionsOf(barriers[..i]) {
              NoCostOutside(barriers[..i], r);
            }
          }
        }
      }
      assert barriers[..|barriers|] == barriers;
      totalCost := totals;
      regionNames := SortStrings(keys);
      SortedDistinct(keys, regionNames);
      SumCoversAll(barriers, regionNames);
      SumOfCosts(totalCost, barriers, regionNames);
    }
  }

  /** A region with no barriers costs nothing. */
  lemma {:induction false} NoCostOutside(bs: seq<Barrier>, r: string)
    requires r !in RegionsOf(bs)
    ensures CostIn(bs, r) == 0
  {
    if bs != [] {
      NoCostOutside(bs[..|bs| - 1], r);
    }
  }

  /** Sorting a duplicate-free list keeps it duplicate-free and keeps its names. */
  lemma SortedDistinct(keys: seq<string>, sorted: seq<string>)
    requires Distinct(keys) && multiset(sorted) == multiset(keys)
    ensures Distinct(sorted)
    ensures Elements(sorted) == Elements(keys)
  {
    forall x ensures multiset(keys)[x] <= 1 {
      if x in keys { DistinctCount(keys, x); }
    }
    CountsDistinct(sorted);
    forall x ensures x in Elements(sorted) <==> x in Elements(keys) {
      assert x in sorted <==> x in multiset(sorted);
      assert x in keys <==> x in multiset(keys);
    }
  }

  lemma {:induction false} DistinctCount(keys: seq<string>, x: string)
    requires Distinct(keys) && x in keys
    ensures multiset(keys)[x] == 1
  {
    assert keys == [keys[0]] + keys[1..];
    if keys[0] == x {
      assert x !in keys[1..];
    } else {
      assert Distinct(keys[1..]);
      DistinctCount(keys[1..], x);
    }
  }

  /** A list in which no name occurs twice is duplicate-free. */
  lemma {:induction false} CountsDistinct(s: seq<string>)
    requires forall x :: multiset(s)[x] <= 1
    ensures Distinct(s)
  {
    if s != [] {
      var t := s[1..];
      assert s == [s[0]] + t;
      assert forall x :: multiset(t)[x] <= multiset(s)[x];
      CountsDistinct(t);
      assert multiset(t)[s[0]] == 0;
      forall i, j | 0 <= i < j < |s| ensures s[i] != s[j] {
        if i > 0 { assert s[i] == t[i - 1] && s[j] == t[j - 1]; }
        else { assert s[j] == t[j - 1] && s[j] in t; }
      }
    }
  }

  /** The summed per-region costs, taken over every region once. */
  function SumIn(bs: seq<Barrier>, names: seq<string>): int
  {
    if names == [] then 0 else CostIn(bs, names[0]) + SumIn(bs, names[1..])
  }

  /** Listing every region once, the region costs add up to the total cost. */
  lemma {:induction false} SumCoversAll(bs: seq<Barrier>, names: seq<string>)
    requires Distinct(names)
    requires forall r :: r in RegionsOf(bs) ==> r in names
    ensures SumIn(bs, names) == TotalOf(bs)
  {
    if bs == [] {
      SumInEmpty(names);
    } else {
      var init, b := bs[..|bs| - 1], bs[|bs| - 1];
      assert forall r :: r in RegionsOf(init) ==> r in RegionsOf(bs);
      SumCoversAll(init, names);
      SumInSnoc(init, b, names);
      assert init + [b] == bs;
      assert b.region in RegionsOf(bs);
    }
  }

  lemma {:induction false} SumInEmpty(names: seq<string>)
    ensures SumIn([], names) == 0
  {
    if names != [] { SumInEmpty(names[1..]); }
  }

  /** One more barrier adds its cost to the sum exactly when its region is listed. */
  lemma {:induction false} SumInSnoc(bs: seq<Barrier>, b: Barrier, names: seq<string>)
    requires Distinct(names)
    ensures SumIn(bs + [b], names) == SumIn(bs, names) + (if b.region in names then b.cost else 0)
  {
    assert (bs + [b])[..|bs|] == bs;
    if names != [] {
      assert Distinct(names[1..]);
      SumInSnoc(bs, b, names[1..]);
      assert b.region in names <==> b.region == names[0] || b.region in names[1..];
      assert b.region == names[0] ==> b.region !in names[1..];
    }
  }

  lemma {:induction false} SumOfCosts(costs: map<string, int>, bs: seq<Barrier>, names: seq<string>)
    requires forall i :: 0 <= i < |names| ==> names[i] in costs && costs[names[i]] == CostIn(bs, names[i])
    ensures SumOf(costs, names) == SumIn(bs, names)
  {
    if names != [] { SumOfCosts(costs, bs, names[1..]); }
  }

  /** `DevOP.default_list`: the environment value split at ':' when it is set
      and non-empty, otherwise the empty list. `value` stands for what
      `os.getenv` returns. */
  function DefaultList(value: Option<string>): (r: seq<string>)
    ensures r == [] <==> (value.None? || value.value == "")
    ensures r != [] ==> Join(":", r) == value.value
    ensures forall i :: 0 <= i < |r| ==> ':' !in r[i]
  {
    if value.Some? && value.value != "" then
      SplitPieces(value.value, ':');
      Split(value.value, ':')
    else []
  }
}
