/** The bar chart of risk contributors (src/components/RiskContributorChart.tsx):
    every contribution becomes one bar whose width is its value as a rounded
    percentage of the largest value, coloured by a three-way rule. */
module ContributorChart {

  /** One labelled weight on the display scale; `L` is the type of the labels. */
  datatype Contribution<L> = Contribution(key: L, value: int, active: bool)

  /** The three bar colours of the theme. */
  datatype Colour = Secondary | Primary | Accent

  /** One rendered bar: its label, its width in percent and its colour. */
  datatype Bar<L> = Bar(key: L, percentage: int, colour: Colour)

  /** The largest value of a non-empty list of contributions. */
  function MaxValue<L>(cs: seq<Contribution<L>>): (m: int)
    requires |cs| > 0
    ensures forall i :: 0 <= i < |cs| ==> cs[i].value <= m
    ensures exists i :: 0 <= i < |cs| && cs[i].value == m
  {
    MaxOfFirst(cs, |cs|)
  }

  /** The largest value among the first `n` contributions. */
  function MaxOfFirst<L>(cs: seq<Contribution<L>>, n: nat): (m: int)
    requires 0 < n <= |cs|
    ensures forall i :: 0 <= i < n ==> cs[i].value <= m
    ensures exists i :: 0 <= i < n && cs[i].value == m
  {
    if n == 1 then cs[0].value
    else
      var rest := MaxOfFirst(cs, n - 1);
      if cs[n - 1].value >= rest then cs[n - 1].value else rest
  }

  /** The value as a percentage of the maximum, rounded to the nearest
      integer with halves rounded up. */
  function Percentage(value: int, max: int): (p: int)
    requires max > 0
    ensures 2 * max * p - max <= 200 * value < 2 * max * p + max
  {
    (200 * value + max) / (2 * max)
  }

  /** Multiplying by a positive number keeps the order. */
  lemma MulLeft(k: int, a: int, b: int)
    requires k > 0 && a <= b
    ensures k * a <= k * b
  {
  }

  /** Multiplying by a positive number keeps a strict order. */
  lemma RealMulLeft(k: real, a: real, b: real)
    requires k > 0.0 && a < b
    ensures k * a < k * b
  {
  }

  /** Converting a product to a real is the product of the conversions. */
  lemma CastMul(a: int, b: int)
    ensures (a * b) as real == a as real * b as real
  {
  }

  /** The rounding is that of the exact quotient: p - 1/2 <= 100 v / max < p + 1/2. */
  lemma PercentageRoundsRatio(value: int, max: int)
    requires max > 0
    ensures var p := Percentage(value, max) as real;
      p - 0.5 <= 100.0 * value as real / max as real < p + 0.5
  {
    var p := Percentage(value, max);
    var m, pr, v := max as real, p as real, value as real;
    var x := 100.0 * v / m;
    var k := 2.0 * m;
    assert k * (pr - 0.5) <= 200.0 * v by {
      CastMul(2 * max, p);
    }
    assert 200.0 * v < k * (pr + 0.5) by {
      CastMul(2 * max, p);
    }
    assert k * x == 200.0 * v;
    if x < pr - 0.5 {
      RealMulLeft(k, x, pr - 0.5);
    }
    if pr + 0.5 <= x {
      if pr + 0.5 < x {
        RealMulLeft(k, pr + 0.5, x);
      }
    }
  }

  /** Values between 0 and the maximum give widths between 0 and 100. */
  lemma PercentageBounds(value: int, max: int)
    requires 0 <= value <= max
    requires max > 0
    ensures 0 <= Percentage(value, max) <= 100
  {
    var p := Percentage(value, max);
    if p < 0 {
      MulLeft(2 * max, p, -1);
    }
    if p > 100 {
      MulLeft(2 * max, 101, p);
    }
  }

  /** The largest value gets a full bar. */
  lemma PercentageOfMax(max: int)
    requires max > 0
    ensures Percentage(max, max) == 100
  {
    assert 200 * max + max == 2 * max * 100 + max;
  }

  /** A larger value never gets a narrower bar. */
  lemma PercentageMonotone(v1: int, v2: int, max: int)
    requires v1 <= v2
    requires max > 0
    ensures Percentage(v1, max) <= Percentage(v2, max)
  {
    var p1, p2 := Percentage(v1, max), Percentage(v2, max);
    if p1 > p2 {
      MulLeft(2 * max, p2 + 1, p1);
    }
  }

  /** Inactive bars are accent; an active bar is secondary in first position
      and primary elsewhere. */
  function BarColour(active: bool, index: nat): Colour {
    if !active then Accent else if index == 0 then Secondary else Primary
  }

  /** The bars for a list of contributions whose first element sits at
      position `index`, scaled against `max`. */
  function BarsFrom<L>(cs: seq<Contribution<L>>, max: int, index: nat): (bars: seq<Bar<L>>)
    requires max > 0
    ensures |bars| == |cs|
    ensures forall i :: 0 <= i < |cs| ==>
      bars[i] == Bar(cs[i].key, Percentage(cs[i].value, max), BarColour(cs[i].active, index + i))
  {
    if cs == [] then []
    else
      [Bar(cs[0].key, Percentage(cs[0].value, max), BarColour(cs[0].active, index))]
      + BarsFrom(cs[1..], max, index + 1)
  }

  /** The bars drawn for a list of contributions, in list order, scaled
      against the largest value of the list. */
  function Bars<L>(cs: seq<Contribution<L>>): (bars: seq<Bar<L>>)
    requires |cs| > 0 ==> MaxValue(cs) > 0
    ensures |bars| == |cs|
    ensures forall i :: 0 <= i < |cs| ==> bars[i].key == cs[i].key
    ensures forall i :: 0 <= i < |cs| ==>
      bars[i].percentage == Percentage(cs[i].value, MaxValue(cs))
    ensures forall i :: 0 <= i < |cs| ==>
      bars[i].colour == (if !cs[i].active then Accent else if i == 0 then Secondary else Primary)
  {
    if cs == [] then [] else BarsFrom(cs, MaxValue(cs), 0)
  }

  /** Every bar of non-negative value is between 0 and 100 wide, and every
      contribution that reaches the maximum gets a full bar. */
  lemma BarsWidths<L>(cs: seq<Contribution<L>>)
    requires |cs| > 0 && MaxValue(cs) > 0
    requires forall i :: 0 <= i < |cs| ==> cs[i].value >= 0
    ensures forall i :: 0 <= i < |cs| ==> 0 <= Bars(cs)[i].percentage <= 100
    ensures forall i :: 0 <= i < |cs| && cs[i].value == MaxValue(cs) ==>
      Bars(cs)[i].percentage == 100
  {
    var max := MaxValue(cs);
    forall i | 0 <= i < |cs|
      ensures 0 <= Bars(cs)[i].percentage <= 100
      ensures cs[i].value == max ==> Bars(cs)[i].percentage == 100
    {
      PercentageBounds(cs[i].value, max);
      if cs[i].value == max {
        PercentageOfMax(max);
      }
    }
  }

  /** Bars keep the order of their values: a contribution with a larger value
      never has a narrower bar. */
  lemma BarsMonotone<L>(cs: seq<Contribution<L>>, i: nat, j: nat)
    requires |cs| > 0 && MaxValue(cs) > 0
    requires i < |cs| && j < |cs| && cs[i].value <= cs[j].value
    ensures Bars(cs)[i].percentage <= Bars(cs)[j].percentage
  {
    PercentageMonotone(cs[i].value, cs[j].value, MaxValue(cs));
  }
}
