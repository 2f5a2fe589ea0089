/** The budget widgets (src/gui/budgets.py). Each tab reduces what the user
    entered to a budget triple (start, increment, count); the BudgetBox
    forwards the region cost bound to every tab and reads the active one.
    Widget values are plain fields; a FloatSlider's value is an integer here. */
module Budgets {
  import opened Text
  import Op

  /** The (start, increment, count) description of a budget schedule. */
  datatype Triple = Triple(start: int, increment: int, count: int)

  /** The tabs of a BudgetBox, in their order. */
  datatype BudgetTab = BasicTab | AdvancedTab | FixedTab

  /** A preset of the Basic slider: its label and its amount. */
  datatype Level = Level(name: string, amount: nat)

  const Levels: seq<Level> := [
    Level("$0", 0),
    Level("$500K", 500000),
    Level("$1M", 1000000),
    Level("$2.5M", 2500000),
    Level("$5M", 5000000),
    Level("$10M", 10000000),
    Level("$25M", 25000000),
    Level("$50M", 50000000),
    Level("$100M", 100000000)
  ]

  const MinLevels: nat := 3
  const BudgetCount: nat := 10

  /** The slider labels, in preset order. */
  function Labels(): (r: seq<string>)
    ensures |r| == |Levels| && forall i :: 0 <= i < |Levels| ==> r[i] == Levels[i].name
  {
    seq(|Levels|, i requires 0 <= i < |Levels| => Levels[i].name)
  }

  /** The amount behind a slider label (the `map` built from the presets). */
  function AmountOf(name: string): (a: nat)
    requires name in Labels()
    ensures exists i :: 0 <= i < |Levels| && Levels[i] == Level(name, a)
  {
    LookUp(Levels, name)
  }

  function LookUp(levels: seq<Level>, name: string): (a: nat)
    requires exists i :: 0 <= i < |levels| && levels[i].name == name
    ensures exists i :: 0 <= i < |levels| && levels[i] == Level(name, a)
  {
    if levels[0].name == name then levels[0].amount
    else
      assert exists i :: 0 <= i < |levels[1..]| && levels[1..][i].name == name by {
        var i :| 0 <= i < |levels| && levels[i].name == name;
        assert levels[1..][i - 1] == levels[i];
      }
      var a := LookUp(levels[1..], name);
      ghost var i :| 0 <= i < |levels[1..]| && levels[1..][i] == Level(name, a);
      assert levels[i + 1] == Level(name, a);
      a
  }

  /** The index the downward scan of `set_budget_max` stops at, starting
      from preset `i`: the first preset not above `n`, or 0. */
  function ScanDown(n: int, i: nat): (k: nat)
    requires i < |Levels|
    ensures k <= i && (k == 0 || Levels[k].amount <= n)
    ensures forall j :: k < j <= i ==> n < Levels[j].amount
  {
    if i == 0 || n >= Levels[i].amount then i else ScanDown(n, i - 1)
  }

  /** The Basic slider's options once the bound is `n`: a prefix of the
      presets with at least MinLevels + 1 entries, holding beyond those
      exactly the presets not above `n`. */
  function AllowedOptions(n: int): (r: seq<string>)
    ensures MinLevels + 1 <= |r| <= |Levels| && r == Labels()[..|r|]
    ensures forall j :: MinLevels < j < |Levels| ==> (j < |r| <==> Levels[j].amount <= n)
  {
    var i := ScanDown(n, |Levels| - 1);
    var top := if i < MinLevels then MinLevels else i;
    assert forall j, k :: 0 <= j < k < |Levels| ==> Levels[j].amount < Levels[k].amount;
    Labels()[..top + 1]
  }

  /** A bound of 0 still offers $0 .. $2.5M. */
  lemma AllowedOptionsZero()
    ensures AllowedOptions(0) == ["$0", "$500K", "$1M", "$2.5M"]
  {
    var r := AllowedOptions(0);
    assert Levels[4].amount == 5000000;
    assert |r| == 4;
  }

  /** An $11.8M region selection offers presets up to $10M, not $25M. */
  lemma AllowedOptionsCoquille()
    ensures var r := AllowedOptions(11800000);
      r[|r| - 1] == "$10M" && "$25M" !in r
  {
    var r := AllowedOptions(11800000);
    assert Levels[5].amount == 10000000 && Levels[6].amount == 25000000;
    assert |r| == 6;
    assert r == ["$0", "$500K", "$1M", "$2.5M", "$5M", "$10M"];
  }

  /** Every preset amount is a multiple of ten. */
  lemma AmountsMultipleOfTen(name: string)
    requires name in Labels()
    ensures AmountOf(name) % 10 == 0
  {
    var i :| 0 <= i < |Levels| && Levels[i] == Level(name, AmountOf(name));
    assert forall j :: 0 <= j < |Levels| ==> Levels[j].amount % 10 == 0;
  }

  /** The one preset with amount 0 is "$0". */
  lemma ZeroPreset(name: string)
    requires name in Labels()
    ensures AmountOf(name) == 0 <==> name == "$0"
  {
    var i :| 0 <= i < |Levels| && Levels[i] == Level(name, AmountOf(name));
    assert forall j :: 0 <= j < |Levels| ==> (Levels[j].amount == 0 <==> j == 0);
    assert forall j :: 0 <= j < |Levels| ==> (Levels[j].name == "$0" <==> j == 0);
  }

  /** The non-zero presets below $10M format back to their own labels. */
  lemma LowPresetLabels()
    ensures Op.FormatBudgetAmount(500000) == "$500K" && Op.FormatBudgetAmount(1000000) == "$1M"
    ensures Op.FormatBudgetAmount(2500000) == "$2.5M" && Op.FormatBudgetAmount(5000000) == "$5M"
  {
    Op.FormatShape(500000);
    assert NatToString(500) == "500";
    Op.FormatShape(1000000);
    assert NatToString(1) == "1";
    Op.FormatShape(2500000);
    assert NatToString(2) == "2" && DigitChar(5) == '5';
    Op.FormatShape(5000000);
    assert NatToString(5) == "5";
  }

  /** The presets from $10M up format back to their own labels. */
  lemma HighPresetLabels()
    ensures Op.FormatBudgetAmount(10000000) == "$10M" && Op.FormatBudgetAmount(25000000) == "$25M"
    ensures Op.FormatBudgetAmount(50000000) == "$50M" && Op.FormatBudgetAmount(100000000) == "$100M"
  {
    Op.FormatShape(10000000);
    assert NatToString(10) == "10";
    Op.FormatShape(25000000);
    assert NatToString(25) == "25";
    Op.FormatShape(50000000);
    assert NatToString(50) == "50";
    Op.FormatShape(100000000);
    assert NatToString(100) == "100";
  }

  /** The default tab: a slider over the presets. */
  class BasicBudgetBox {
    var options: seq<string>
    var value: string

    /** The slider shows a prefix of the presets and sits on a preset label. */
    ghost predicate Valid()
      reads this
    {
      MinLevels <= |options| <= |Levels| && options == Labels()[..|options|] && value in Labels()
    }

    constructor ()
      ensures Valid() && options == Labels()[..MinLevels] && value == "$0"
    {
      options := Labels()[..MinLevels];
      value := Labels()[0];
    }

    /** `set_budget_max`: scan the presets downward for the first one not
        above `n`, keep at least MinLevels + 1 of them, and offer that prefix.
        The selected label is left as it is. */
    method SetBudgetMax(n: int)
      requires Valid()
      modifies this
      ensures Valid() && options == AllowedOptions(n) && value == old(value)
    {
      var i := |Levels| - 1;
      // the for/break of the source: stop at a preset not above n, or at 0
      while i > 0 && n < Levels[i].amount
        invariant 0 <= i < |Levels|
        invariant ScanDown(n, i) == ScanDown(n, |Levels| - 1)
        decreases i
      {
        i := i - 1;
      }
      i := if i < MinLevels then MinLevels else i;
      options := Labels()[..i + 1];
    }

    /** `values`: the schedule always starts at $0 and has BudgetCount
        levels; its increment makes the top level the selected preset. */
    function Values(): (r: Triple)
      requires Valid()
      reads this
      ensures r.start == 0 && r.count == BudgetCount
      ensures r.increment * r.count == AmountOf(value)
    {
      var x := AmountOf(value);
      AmountsMultipleOfTen(value);
      Triple(0, x / BudgetCount, BudgetCount)
    }

    /** `defined`: the slider is off the "$0" preset, that is, the selected
        amount, and with it the increment, is positive. */
    predicate Defined()
      requires Valid()
      reads this
      ensures Defined() <==> AmountOf(value) > 0
      ensures Defined() <==> Values().increment > 0
    {
      ZeroPreset(value);
      value != "$0"
    }

    /** `set_value`: select the option at Python index `n` (negative indices
        count from the end); an index out of range raises IndexError, which
        is `ok == false` here with nothing changed. */
    method SetValue(n: int) returns (ok: bool)
      requires Valid()
      modifies this
      ensures Valid() && options == old(options)
      ensures ok <==> -|options| <= n < |options|
      ensures ok ==> value == options[if n < 0 then n + |options| else n]
      ensures !ok ==> value == old(value)
    {
      ok := -|options| <= n < |options|;
      if ok {
        value := options[if n < 0 then n + |options| else n];
      }
    }
  }

  /** The exact-amount tab: a text box read by the dollar parser. */
  class FixedBudgetBox {
    var text: string

    constructor ()
      ensures text == "$"
    {
      text := "$";
    }

    /** `set_budget_max`: a fixed budget is not bounded by region cost. */
    method SetBudgetMax(n: int)
      ensures unchanged(this)
    {
    }

    /** `values`: one budget, the parsed amount; increment 0, count 1. */
    function Values(): (r: Triple)
      reads this
      ensures r.increment == 0 && r.count == 1 && r.start >= 0
      ensures r.start == ParseDollarAmount(text)
    {
      Triple(ParseDollarAmount(text), 0, 1)
    }

    /** `defined`: the text parses to a positive amount. */
    predicate Defined()
      reads this
      ensures Defined() <==> Values().start > 0
    {
      ParseDollarAmount(text) > 0
    }

    /** `set_value`: show `n` as "$n"; for n >= 0 the box then reads back n. */
    method SetValue(n: int)
      modifies this
      ensures text == "$" + IntToString(n)
      ensures n >= 0 ==> Values() == Triple(n, 0, 1)
    {
      text := "$" + IntToString(n);
      if n >= 0 {
        ParsePlainAmount(n);
      }
    }

    /** `parse_dollar_amount`: an optional leading "$", then a decimal number
        with a K or M suffix (scaled by 1,000 or 1,000,000 and truncated), a
        comma-grouped number (first group at most 3 characters, every later
        group exactly 3), a plain digit string, or "" for 0. Anything else
        gives 0 instead of an error. */
    static function ParseDollarAmount(s: string): (r: nat)
      ensures IsDigitString(s) ==> r == DigitsValue(s)
      ensures s == "" || s == "$" ==> r == 0
    {
      StartsWithOne(s, '$');
      ParseAmount(if StartsWith(s, "$") then s[1..] else s)
    }
  }

  /** The dollar parser once the optional "$" is dropped. */
  function ParseAmount(t: string): (r: nat)
    ensures IsDigitString(t) ==> r == DigitsValue(t)
    ensures t == "" ==> r == 0
  {
    DigitsUnsuffixed(t);
    EndsWithOne(t, 'K');
    EndsWithOne(t, 'M');
    if EndsWith(t, "K") || EndsWith(t, "M") then
      ScaledDecimal(t[..|t| - 1], if EndsWith(t, "K") then Op.Thousand else Op.Million)
    else if ',' in t then GroupedAmount(Split(t, ','))
    else if t == "" then 0
    else IntOf(t)
  }

  /** The comma branch: the groups must have the thousands shape, and what
      they spell without the commas must be a digit string. */
  function GroupedAmount(parts: seq<string>): nat
    requires |parts| >= 1
  {
    if |parts[0]| <= 3 && (|parts| == 1 || forall i :: 1 <= i < |parts| ==> |parts[i]| == 3) then
      IntOf(Join("", parts))
    else 0
  }

  /** Python's `int` on a digit string; 0 (the caught ValueError) otherwise. */
  function IntOf(s: string): (r: nat)
    ensures IsDigitString(s) ==> r == DigitsValue(s)
    ensures !IsDigitString(s) ==> r == 0
  {
    if IsDigitString(s) then DigitsValue(s) else 0
  }

  function Pow10(k: nat): nat
  {
    if k == 0 then 1 else 10 * Pow10(k - 1)
  }

  function MulNat(a: nat, b: nat): nat
  {
    a * b
  }

  /** `int(float(d) * multiplier)` for an unsigned decimal literal `d`
      ("15", "1.5", "1.", ".5"), computed exactly and truncated; 0 when `d`
      is not such a literal. */
  function ScaledDecimal(d: string, multiplier: nat): nat
  {
    var parts := Split(d, '.');
    if |parts| == 1 then MulNat(IntOf(parts[0]), multiplier)
    else if |parts| == 2 && AllDigits(parts[0]) && AllDigits(parts[1]) && |parts[0]| + |parts[1]| > 0 then
      DecimalTimes(parts[0], parts[1], multiplier)
    else 0
  }

  /** The value of `whole.frac` times `multiplier`, truncated. */
  function DecimalTimes(whole: string, frac: string, multiplier: nat): nat
    requires AllDigits(whole) && AllDigits(frac)
  {
    var scaled := MulNat(DigitsValue(whole), Pow10(|frac|)) + DigitsValue(frac);
    DropDigits(MulNat(scaled, multiplier), |frac|)
  }

  /** `x // 10**k`: the last `k` decimal digits dropped. */
  function DropDigits(x: nat, k: nat): nat
  {
    if k == 0 then x else DropDigits(x / 10, k - 1)
  }

  /** A digit string holds none of the characters the parser dispatches on. */
  lemma DigitsHoldNoMarks(s: string)
    requires AllDigits(s)
    ensures '.' !in s && ',' !in s && '$' !in s && 'K' !in s && 'M' !in s
  {
    assert forall i :: 0 <= i < |s| ==> IsDigit(s[i]);
  }

  /** A digit string ends in neither suffix and holds no comma. */
  lemma DigitsUnsuffixed(t: string)
    ensures IsDigitString(t) ==> t[|t| - 1] != 'K' && t[|t| - 1] != 'M' && ',' !in t
  {
    if IsDigitString(t) {
      DigitsHoldNoMarks(t);
      assert t[|t| - 1] in t;
    }
  }

  /** A leading "$" is dropped once. */
  lemma ParseDollar(t: string)
    ensures FixedBudgetBox.ParseDollarAmount("$" + t) == ParseAmount(t)
  {
    StartsWithOne("$" + t, '$');
    assert ("$" + t)[1..] == t;
  }

  /** Text not starting with "$" goes to the parser unchanged. */
  lemma ParseNoDollar(t: string)
    requires t == [] || t[0] != '$'
    ensures FixedBudgetBox.ParseDollarAmount(t) == ParseAmount(t)
  {
    StartsWithOne(t, '$');
  }

  /** A K or M suffix selects the decimal branch with its multiplier. */
  lemma ParseSuffixed(d: string, c: char)
    requires c == 'K' || c == 'M'
    ensures ParseAmount(d + [c]) == ScaledDecimal(d, if c == 'K' then Op.Thousand else Op.Million)
  {
    var t := d + [c];
    EndsWithOne(t, 'K');
    EndsWithOne(t, 'M');
    assert t[..|t| - 1] == d;
  }

  /** A digit string reads as its value, with or without "$". */
  lemma ParseDigits(t: string)
    requires IsDigitString(t)
    ensures ParseAmount(t) == DigitsValue(t)
    ensures FixedBudgetBox.ParseDollarAmount(t) == DigitsValue(t)
    ensures FixedBudgetBox.ParseDollarAmount("$" + t) == DigitsValue(t)
  {
    DigitsHoldNoMarks(t);
    EndsWithOne(t, 'K');
    EndsWithOne(t, 'M');
    assert t[|t| - 1] in t && t[0] in t;
    ParseDollar(t);
    ParseNoDollar(t);
  }

  /** `set_value` then `values` on the Fixed tab: "$n" parses back to n. */
  lemma ParsePlainAmount(n: nat)
    ensures FixedBudgetBox.ParseDollarAmount("$" + NatToString(n)) == n
  {
    ParseDigits(NatToString(n));
  }

  /** A whole number with a suffix scales exactly. */
  lemma ScaledWhole(w: nat, multiplier: nat)
    ensures ScaledDecimal(NatToString(w), multiplier) == w * multiplier
  {
    DigitsHoldNoMarks(NatToString(w));
    SplitNoSeparator(NatToString(w), '.');
  }

  /** A number with one decimal and a suffix scales to its tenths. */
  lemma ScaledTenths(w: nat, d: nat, multiplier: nat)
    requires d < 10
    ensures ScaledDecimal(NatToString(w) + "." + [DigitChar(d)], multiplier) == ((w * 10 + d) * multiplier) / 10
  {
    var whole := NatToString(w);
    var frac := [DigitChar(d)];
    DigitsHoldNoMarks(whole);
    DigitsHoldNoMarks(frac);
    SplitAround(whole, frac, '.');
    assert whole + "." + frac == whole + ['.'] + frac;
    assert DigitsValue(frac) == d by {
      assert frac[..0] == [];
    }
    assert Pow10(|frac|) == 10;
    assert DropDigits((w * 10 + d) * multiplier, 1) == ((w * 10 + d) * multiplier) / 10;
  }

  /** A "$", a whole number, an optional tenths digit and a K or M suffix
      read back as that many tenths of the unit. */
  lemma ParseLabel(w: nat, tenth: nat, c: char)
    requires tenth < 10 && (c == 'K' || c == 'M')
    ensures var literal := NatToString(w) + (if tenth == 0 then "" else "." + [DigitChar(tenth)]);
      var unit := if c == 'K' then Op.Thousand else Op.Million;
      FixedBudgetBox.ParseDollarAmount("$" + literal + [c]) == ((w * 10 + tenth) * unit) / 10
  {
    var literal := NatToString(w) + (if tenth == 0 then "" else "." + [DigitChar(tenth)]);
    var unit := if c == 'K' then Op.Thousand else Op.Million;
    assert "$" + literal + [c] == "$" + (literal + [c]);
    ParseDollar(literal + [c]);
    ParseSuffixed(literal, c);
    if tenth == 0 {
      assert literal == NatToString(w);
      ScaledWhole(w, unit);
      assert (w * 10 + tenth) * unit == 10 * (w * unit);
    } else {
      ScaledTenths(w, tenth, unit);
      assert literal == NatToString(w) + "." + [DigitChar(tenth)];
    }
  }

  /** Dollar labels read back as their amounts: `parse(format(n)) == n` for
      every representable non-negative amount, with the scaled reading done
      in exact decimals rather than in floating point. */
  lemma ParseFormatRoundTrip(n: int)
    requires Op.Representable(n) && n >= 0
    ensures FixedBudgetBox.ParseDollarAmount(Op.FormatBudgetAmount(n)) == n
  {
    if n >= Op.Million {
      RoundTripMillions(n);
    } else {
      RoundTripThousands(n);
    }
  }

  lemma RoundTripThousands(n: int)
    requires Op.Representable(n) && 0 <= n < Op.Million
    ensures FixedBudgetBox.ParseDollarAmount(Op.FormatBudgetAmount(n)) == n
  {
    Op.FormatShape(n);
    var w, tenth := n / 1000, (n % 1000) / 100;
    ParseLabel(w, tenth, 'K');
    var literal := NatToString(w) + (if tenth == 0 then "" else "." + [DigitChar(tenth)]);
    assert Op.FormatBudgetAmount(n) == "$" + literal + ['K'];
    TenthsOfUnit(n, 1000, w, tenth);
  }

  lemma RoundTripMillions(n: int)
    requires Op.Representable(n) && n >= Op.Million
    ensures FixedBudgetBox.ParseDollarAmount(Op.FormatBudgetAmount(n)) == n
  {
    Op.FormatShape(n);
    var w, tenth := n / 1000000, (n % 1000000) / 100000;
    ParseLabel(w, tenth, 'M');
    var literal := NatToString(w) + (if tenth == 0 then "" else "." + [DigitChar(tenth)]);
    assert Op.FormatBudgetAmount(n) == "$" + literal + ['M'];
    TenthsOfUnit(n, 1000000, w, tenth);
  }

  /** An amount that is a whole number of tenths of the unit is its whole
      units and its tenths digit, put back together. */
  lemma TenthsOfUnit(n: nat, unit: nat, w: nat, tenth: nat)
    requires unit == 1000 || unit == 1000000
    requires n % (unit / 10) == 0
    requires w == n / unit && tenth == (n % unit) / (unit / 10)
    ensures ((w * 10 + tenth) * unit) / 10 == n
  {
    var t := unit / 10;
    var k := n / t;
    assert n == k * t;
    assert w == k / 10 && tenth == k % 10 by {
      assert unit == t * 10;
      assert n == (k / 10) * unit + (k % 10) * t;
    }
    assert (k * unit) / 10 == k * t;
  }

  /** Comma grouping does not change the amount: digit groups joined with
      commas read as the digits joined without them. */
  lemma ParseCommaGroups(groups: seq<string>)
    requires |groups| >= 2 && 1 <= |groups[0]| <= 3
    requires forall i :: 1 <= i < |groups| ==> |groups[i]| == 3
    requires forall i :: 0 <= i < |groups| ==> AllDigits(groups[i])
    ensures IsDigitString(Join("", groups))
    ensures FixedBudgetBox.ParseDollarAmount(Join([','], groups)) == DigitsValue(Join("", groups))
  {
    forall i | 0 <= i < |groups| ensures ',' !in groups[i] {
      DigitsHoldNoMarks(groups[i]);
    }
    SplitJoin(groups, ',');
    JoinDigits(groups);
    JoinLastChar(groups);
    var s := Join([','], groups);
    assert s == groups[0] + [','] + Join([','], groups[1..]);
    assert s[|groups[0]|] == ',' && s[0] == groups[0][0];
    DigitsHoldNoMarks(groups[0]);
    ParseNoDollar(s);
    EndsWithOne(s, 'K');
    EndsWithOne(s, 'M');
    assert ParseAmount(s) == GroupedAmount(groups);
  }

  /** Digit groups joined without a separator form a digit string. */
  lemma {:induction false} JoinDigits(groups: seq<string>)
    requires |groups| >= 1 && |groups[0]| >= 1
    requires forall i :: 0 <= i < |groups| ==> AllDigits(groups[i])
    ensures IsDigitString(Join("", groups))
  {
    if |groups| > 1 {
      JoinAllDigits(groups[1..]);
      assert Join("", groups) == groups[0] + Join("", groups[1..]);
    }
  }

  lemma {:induction false} JoinAllDigits(groups: seq<string>)
    requires forall i :: 0 <= i < |groups| ==> AllDigits(groups[i])
    ensures AllDigits(Join("", groups))
  {
    if |groups| > 1 {
      JoinAllDigits(groups[1..]);
      assert Join("", groups) == groups[0] + Join("", groups[1..]);
    }
  }

  /** Comma-joined digit groups, the first non-empty, end in a digit. */
  lemma {:induction false} JoinLastChar(groups: seq<string>)
    requires |groups| >= 1 && |groups[0]| >= 1
    requires forall i :: 1 <= i < |groups| ==> |groups[i]| == 3
    requires forall i :: 0 <= i < |groups| ==> AllDigits(groups[i])
    ensures var s := Join([','], groups); |s| >= 1 && IsDigit(s[|s| - 1])
  {
    if |groups| > 1 {
      JoinLastChar(groups[1..]);
      assert Join([','], groups) == groups[0] + [','] + Join([','], groups[1..]);
    } else {
      assert IsDigit(groups[0][|groups[0]| - 1]);
    }
  }

  /** "1,500,000" reads as 1,500,000. */
  lemma ParseExampleCommas()
    ensures FixedBudgetBox.ParseDollarAmount("1,500,000") == 1500000
  {
    var groups := ["1", "500", "000"];
    ParseCommaGroups(groups);
    assert Join([','], groups) == "1,500,000";
    assert Join("", groups) == "1500000";
    ValueOfExample();
  }

  lemma ValueOfExample()
    ensures IsDigitString("1500000") && DigitsValue("1500000") == 1500000
  {
    assert NatToString(1500000) == "1500000";
  }

  /** "1500000" reads as 1,500,000. */
  lemma ParseExamplePlain()
    ensures FixedBudgetBox.ParseDollarAmount("1500000") == 1500000
  {
    ValueOfExample();
    ParseDigits("1500000");
  }

  /** "1.5M" reads as 1,500,000. */
  lemma ParseExampleMillions()
    ensures FixedBudgetBox.ParseDollarAmount("1.5M") == 1500000
  {
    ParseNoDollar("1.5M");
    ParseSuffixed("1.5", 'M');
    assert "1.5" + ['M'] == "1.5M";
    ScaledTenths(1, 5, Op.Million);
    assert NatToString(1) + "." + [DigitChar(5)] == "1.5";
  }

  /** Malformed text reads as 0, never as an error. */
  lemma ParseMalformed()
    ensures FixedBudgetBox.ParseDollarAmount("1,50,000") == 0
    ensures FixedBudgetBox.ParseDollarAmount("abc") == 0
    ensures FixedBudgetBox.ParseDollarAmount("") == 0
    ensures FixedBudgetBox.ParseDollarAmount("$") == 0
  {
    var groups := ["1", "50", "000"];
    SplitJoin(groups, ',');
    var bad := Join([','], groups);
    assert bad == "1,50,000";
    ParseNoDollar(bad);
    EndsWithOne(bad, 'K');
    EndsWithOne(bad, 'M');
    assert bad[1] == ',';
    assert GroupedAmount(groups) == 0 by { assert |groups[1]| == 2; }
    ParseNoDollar("abc");
    EndsWithOne("abc", 'K');
    EndsWithOne("abc", 'M');
    assert ',' !in "abc" && !IsDigit("abc"[0]);
    ParseNoDollar("");
    ParseDollar("");
    assert "$" + "" == "$";
  }

  /** The tab that sets the top budget, the increment and the count. */
  class AdvancedBudgetBox {
    var maxValue: int
    var maxStart: int
    var maxEnd: int
    var incValue: int
    var incStart: real
    var incEnd: int
    var countValue: int

    constructor ()
      ensures maxValue == 0 && maxStart == 0 && maxEnd == 1
      ensures incValue == 0 && incStart == 0.0 && incEnd == 1
      ensures countValue == 10
    {
      maxValue, maxStart, maxEnd := 0, 0, 1;
      incValue, incStart, incEnd := 0, 0.0, 1;
      countValue := 10;
    }

    /** `values`: the schedule starts at $0 with the widgets' increment and count. */
    function Values(): (r: Triple)
      reads this
      ensures r.start == 0 && r.increment == incValue && r.count == countValue
    {
      Triple(0, incValue, countValue)
    }

    /** `defined`: the increment is positive. */
    predicate Defined()
      reads this
      ensures Defined() <==> Values().increment > 0
    {
      incValue > 0
    }

    /** `set_budget_max`: only the slider ranges follow the bound `n`; no
        field value changes. */
    method SetBudgetMax(n: int)
      modifies this
      ensures maxEnd == Max(1, n) && maxStart == MaxStep
      ensures incEnd == Max(1, FloorDiv(n, 2)) && incStart == IncFloor(n)
      ensures RangesFor(n)
      ensures maxValue == old(maxValue) && incValue == old(incValue) && countValue == old(countValue)
    {
      maxEnd := Max(1, n);
      maxStart := MaxStep;
      incEnd := Max(1, FloorDiv(n, 2));
      var bound := (n as real) / (CountMax as real);
      incStart := if (IncStep as real) >= bound then IncStep as real else bound;
    }

    /** `max_updated`: a new maximum re-derives the increment as
        maximum // count; a zero count leaves everything as it was. */
    method MaxUpdated()
      modifies this
      ensures maxValue == old(maxValue) && countValue == old(countValue)
      ensures countValue != 0 ==> incValue == FloorDiv(maxValue, countValue)
      ensures countValue == 0 ==> incValue == old(incValue)
      ensures Bounds() == old(Bounds())
    {
      if countValue != 0 {
        incValue := FloorDiv(maxValue, countValue);
      }
    }

    /** `inc_updated`: a new increment re-derives the count as
        maximum // increment clamped to [CountMin, CountMax]; a zero increment
        leaves everything as it was. */
    method IncUpdated()
      modifies this
      ensures maxValue == old(maxValue) && incValue == old(incValue)
      ensures incValue != 0 ==> countValue == Clamp(FloorDiv(maxValue, incValue), CountMin, CountMax)
      ensures incValue != 0 ==> CountMin <= countValue <= CountMax
      ensures incValue == 0 ==> countValue == old(countValue)
      ensures Bounds() == old(Bounds())
    {
      if incValue != 0 {
        var c := Max(CountMin, FloorDiv(maxValue, incValue));
        c := Min(CountMax, c);
        countValue := c;
      }
    }

    /** `count_updated`: a new count re-derives the increment, as a new
        maximum does. */
    method CountUpdated()
      modifies this
      ensures maxValue == old(maxValue) && countValue == old(countValue)
      ensures countValue != 0 ==> incValue == FloorDiv(maxValue, countValue)
      ensures countValue == 0 ==> incValue == old(incValue)
      ensures Bounds() == old(Bounds())
    {
      if countValue != 0 {
        incValue := FloorDiv(maxValue, countValue);
      }
    }

    /** The user moves the maximum slider: the field changes and its one
        watcher fires (no cascade). `set_value` is this edit. */
    method EditMax(v: int)
      modifies this
      ensures maxValue == v && countValue == old(countValue)
      ensures countValue != 0 ==> incValue == FloorDiv(maxValue, countValue)
      ensures countValue == 0 ==> incValue == old(incValue)
      ensures Bounds() == old(Bounds())
    {
      maxValue := v;
      MaxUpdated();
    }

    /** The user moves the increment slider. */
    method EditIncrement(v: int)
      modifies this
      ensures incValue == v && maxValue == old(maxValue)
      ensures v != 0 ==> countValue == Clamp(FloorDiv(maxValue, v), CountMin, CountMax)
      ensures v == 0 ==> countValue == old(countValue)
      ensures Bounds() == old(Bounds())
    {
      incValue := v;
      IncUpdated();
    }

    /** The user types a new number of budgets. */
    method EditCount(v: int)
      modifies this
      ensures countValue == v && maxValue == old(maxValue)
      ensures v != 0 ==> incValue == FloorDiv(maxValue, v)
      ensures v == 0 ==> incValue == old(incValue)
      ensures Bounds() == old(Bounds())
    {
      countValue := v;
      CountUpdated();
    }

    /** `set_value`: assigning the maximum slider fires `max_updated`. */
    method SetValue(n: int)
      modifies this
      ensures maxValue == n && countValue == old(countValue)
      ensures countValue != 0 ==> incValue == FloorDiv(n, countValue)
      ensures countValue == 0 ==> incValue == old(incValue)
      ensures Bounds() == old(Bounds())
    {
      EditMax(n);
    }

    /** The slider ranges, which only `set_budget_max` changes. */
    function Bounds(): (int, int, real, int)
      reads this
    {
      (maxStart, maxEnd, incStart, incEnd)
    }

    /** The slider ranges as `set_budget_max(n)` leaves them. */
    predicate RangesFor(n: int)
      reads this
    {
      maxStart == MaxStep && maxEnd == Max(1, n) && incStart == IncFloor(n) && incEnd == Max(1, FloorDiv(n, 2))
    }
  }

  /** The increment slider's lower bound for a total cost `n`:
      `max(INC_STEP, n / COUNT_MAX)`, with `/` the true division. */
  function IncFloor(n: int): (r: real)
    ensures r >= IncStep as real && r >= (n as real) / (CountMax as real)
    ensures r == IncStep as real || r == (n as real) / (CountMax as real)
  {
    var bound := (n as real) / (CountMax as real);
    if (IncStep as real) >= bound then IncStep as real else bound
  }

  const MaxStep: int := 10000
  const IncStep: int := 1000
  const CountMin: int := 2
  const CountMax: int := 100

  function Max(a: int, b: int): int { if a >= b then a else b }
  function Min(a: int, b: int): int { if a <= b then a else b }

  /** `x` held within [lo, hi], as `min(hi, max(lo, x))`. */
  function Clamp(x: int, lo: int, hi: int): (r: int)
    requires lo <= hi
    ensures lo <= r <= hi
    ensures lo <= x <= hi ==> r == x
  {
    Min(hi, Max(lo, x))
  }

  /** Python's `//`: the quotient rounded toward minus infinity. */
  function FloorDiv(a: int, b: int): (q: int)
    requires b != 0
    ensures b > 0 ==> q * b <= a < q * b + b
    ensures b < 0 ==> q * b >= a > q * b + b
  {
    if b > 0 then a / b else (-a) / (-b)
  }

  /** The budget section: one tab per way of giving a budget. */
  class BudgetBox {
    const basic: BasicBudgetBox
    const advanced: AdvancedBudgetBox
    const fixed: FixedBudgetBox
    var active: BudgetTab

    ghost predicate Valid()
      reads this, basic
    {
      basic.Valid()
    }

    constructor ()
      ensures Valid() && active == BasicTab
      ensures fresh(basic) && fresh(advanced) && fresh(fixed)
    {
      basic := new BasicBudgetBox();
      advanced := new AdvancedBudgetBox();
      fixed := new FixedBudgetBox();
      active := BasicTab;
    }

    /** `set_budget_max`: the new bound goes to every tab, whichever is active. */
    method SetBudgetMax(n: int)
      requires Valid()
      modifies basic, advanced
      ensures Valid() && active == old(active)
      ensures basic.options == AllowedOptions(n) && basic.value == old(basic.value)
      ensures advanced.RangesFor(n)
      ensures advanced.Values() == old(advanced.Values()) && advanced.maxValue == old(advanced.maxValue)
      ensures unchanged(fixed)
    {
      basic.SetBudgetMax(n);
      advanced.SetBudgetMax(n);
      fixed.SetBudgetMax(n);
    }

    /** `values`: the triple of the active tab only. */
    function Values(): (r: Triple)
      requires Valid()
      reads this, basic, advanced, fixed
      ensures active == BasicTab ==> r == basic.Values()
      ensures active == AdvancedTab ==> r == advanced.Values()
      ensures active == FixedTab ==> r == fixed.Values()
    {
      match active
      case BasicTab => basic.Values()
      case AdvancedTab => advanced.Values()
      case FixedTab => fixed.Values()
    }

    /** `defined`: whether the active tab holds a budget. */
    predicate Defined()
      requires Valid()
      reads this, basic, advanced, fixed
      ensures Defined() <==> Values().increment > 0 || (active == FixedTab && Values().start > 0)
    {
      match active
      case BasicTab => basic.Defined()
      case AdvancedTab => advanced.Defined()
      case FixedTab => fixed.Defined()
    }

    /** `set_value`: initialise the active tab only. */
    method SetValue(n: int) returns (ok: bool)
      requires Valid()
      modifies basic, advanced, fixed
      ensures Valid() && active == old(active)
      ensures active != BasicTab ==> ok
      ensures active != BasicTab ==> unchanged(basic)
      ensures active != AdvancedTab ==> unchanged(advanced)
      ensures active != FixedTab ==> unchanged(fixed)
      ensures active == BasicTab ==> (ok <==> -|basic.options| <= n < |basic.options|) && basic.options == old(basic.options)
      ensures active == BasicTab && ok ==> basic.value == basic.options[if n < 0 then n + |basic.options| else n]
      ensures active == BasicTab && !ok ==> basic.value == old(basic.value)
      ensures active == AdvancedTab ==> advanced.maxValue == n && advanced.countValue == old(advanced.countValue)
      ensures active == AdvancedTab && advanced.countValue != 0 ==> advanced.incValue == FloorDiv(n, advanced.countValue)
      ensures active == AdvancedTab && advanced.countValue == 0 ==> advanced.incValue == old(advanced.incValue)
      ensures active == AdvancedTab ==> advanced.Bounds() == old(advanced.Bounds())
      ensures active == FixedTab ==> fixed.text == "$" + IntToString(n)
      ensures active == FixedTab && n >= 0 ==> fixed.Values() == Triple(n, 0, 1)
    {
      match active
      case BasicTab => ok := basic.SetValue(n);
      case AdvancedTab => advanced.SetValue(n); ok := true;
      case FixedTab => fixed.SetValue(n); ok := true;
    }
  }
}
