/** The evolutionary strategy updater: payoffs from mean delays, the payoff-proportional
    gain, the random mutation and the clamp to [10, 60] seconds. One engine, two
    configurations: the rule of egt_so2.py (K = 2, inverse-delay payoff) and that of
    egt_so3.py (K = 8, exponential-decay payoff). */
module Evolution {
  import opened Common

  const MinGreen: int := 10
  const MaxGreen: int := 60
  const InitialGreen: int := 30

  /** The constants that tell the two update rules apart: the gain factor K, the
      payoff total above which the proportional gain is applied, the mutation rate
      and the deltas a mutation chooses from. */
  datatype Variant = Variant(k: nat, threshold: real, rate: real, deltas: seq<int>)

  predicate WellFormed(v: Variant)
  {
    v.threshold >= 0.0 && v.deltas != []
  }

  /** egt_so2.py: `total_payoff > 0`, `int(2 * ...)`, rate 0.1, `[-2, 0, 2]`. */
  const So2: Variant := Variant(2, 0.0, 0.1, [-2, 0, 2])

  /** egt_so3.py: `total_payoff > 1e-6`, `int(8 * ...)`, rate 0.2, `[-5, 5]`. */
  const So3: Variant := Variant(8, 0.000001, 0.2, [-5, 5])

  /** The random draws for one approach in one generation: the value of
      `random.random()` and the index of the delta `random.choice` returns. */
  datatype Draw = Draw(roll: real, pick: nat)

  predicate DrawsFit(v: Variant, draws: PerApproach<Draw>)
  {
    forall a :: draws.Get(a).pick < |v.deltas|
  }

  predicate InBounds(green: PerApproach<int>)
  {
    forall a :: MinGreen <= green.Get(a) <= MaxGreen
  }

  // ---------------------------------------------------------------------------
  // Payoffs

  const Epsilon: real := 0.000001

  /** egt_so2.py: `1 / (mean_delay + 1e-6)`. */
  function InversePayoff(d: real): real
    requires d + Epsilon != 0.0
  {
    1.0 / (d + Epsilon)
  }

  /** For delays that are not negative the inverse-delay payoff is positive and
      strictly decreasing in the delay. */
  lemma InversePayoffDecreasing(d1: real, d2: real)
    requires 0.0 <= d1 < d2
    ensures 0.0 < InversePayoff(d2) < InversePayoff(d1)
  {
    var x1, x2 := d1 + Epsilon, d2 + Epsilon;
    assert InversePayoff(d1) * x1 == 1.0;
    assert InversePayoff(d2) * x2 == 1.0;
    assert 0.0 < InversePayoff(d2);
    assert InversePayoff(d2) * x1 < InversePayoff(d2) * x2;
    assert InversePayoff(d2) * x1 < InversePayoff(d1) * x1;
  }

  const Tau: real := 10.0

  /** egt_so3.py: `np.exp(-mean / 10)`; the exponential is supplied as `exp`. */
  function ExpDecayPayoff(exp: real -> real, d: real): real
  {
    exp(-d / Tau)
  }

  /** For a positive, strictly increasing exponential the exponential-decay payoff is
      positive and strictly decreasing in the delay. */
  lemma ExpDecayPayoffDecreasing(exp: real -> real, d1: real, d2: real)
    requires forall x :: exp(x) > 0.0
    requires forall x, y :: x < y ==> exp(x) < exp(y)
    requires d1 < d2
    ensures 0.0 < ExpDecayPayoff(exp, d2) < ExpDecayPayoff(exp, d1)
  {
    assert -d2 / Tau < -d1 / Tau;
  }

  /** The payoff function the generation loop uses. */
  datatype PayoffModel = InverseDelay | ExponentialDecay(exp: real -> real)

  /** The payoff comprehension over all approaches; None when it raises
      ZeroDivisionError (a mean delay of exactly -1e-6). */
  function Payoffs(model: PayoffModel, means: PerApproach<real>): (r: Option<PerApproach<real>>)
    ensures model.ExponentialDecay? ==> r.Some?
    ensures model.InverseDelay? ==> (r.None? <==> exists a :: means.Get(a) + Epsilon == 0.0)
  {
    match model
    case ExponentialDecay(exp) =>
      Some(PerApproach(ExpDecayPayoff(exp, means.west), ExpDecayPayoff(exp, means.south),
                       ExpDecayPayoff(exp, means.north), ExpDecayPayoff(exp, means.east)))
    case InverseDelay =>
      if means.west + Epsilon == 0.0 then assert means.Get(West) + Epsilon == 0.0; None
      else if means.south + Epsilon == 0.0 then assert means.Get(South) + Epsilon == 0.0; None
      else if means.north + Epsilon == 0.0 then assert means.Get(North) + Epsilon == 0.0; None
      else if means.east + Epsilon == 0.0 then assert means.Get(East) + Epsilon == 0.0; None
      else
        assert forall a :: means.Get(a) + Epsilon != 0.0;
        Some(PerApproach(InversePayoff(means.west), InversePayoff(means.south),
                         InversePayoff(means.north), InversePayoff(means.east)))
  }

  /** `sum(payoffs.values())` */
  function Total(payoffs: PerApproach<real>): real
  {
    payoffs.west + payoffs.south + payoffs.north + payoffs.east
  }

  /** With mean delays that are not negative the inverse-delay payoffs exist, are all
      positive, and so is their total: egt_so2.py always applies the gain. */
  lemma InversePayoffsPositive(means: PerApproach<real>)
    requires forall a :: means.Get(a) >= 0.0
    ensures Payoffs(InverseDelay, means).Some?
    ensures forall a :: Payoffs(InverseDelay, means).value.Get(a) > 0.0
    ensures Total(Payoffs(InverseDelay, means).value) > So2.threshold
  {
    var p := Payoffs(InverseDelay, means).value;
    forall a ensures p.Get(a) > 0.0 {
      assert means.Get(a) >= 0.0;
      InversePayoffDecreasing(means.Get(a), means.Get(a) + 1.0);
    }
    assert p.Get(West) > 0.0 && p.Get(South) > 0.0 && p.Get(North) > 0.0 && p.Get(East) > 0.0;
  }

  // ---------------------------------------------------------------------------
  // The update rule

  /** The proportional gain: `int(K * (payoff / total))` when the total is above the
      threshold, else nothing. */
  function Adjustment(v: Variant, payoff: real, total: real): int
    requires WellFormed(v)
  {
    if total > v.threshold then Trunc(v.k as real * (payoff / total)) else 0
  }

  /** The mutation: one of the variant's deltas when the roll is below the rate,
      else nothing. */
  function Mutation(v: Variant, d: Draw): (delta: int)
    requires d.pick < |v.deltas|
    ensures d.roll < v.rate ==> delta in v.deltas
    ensures v.rate <= d.roll ==> delta == 0
  {
    if d.roll < v.rate then v.deltas[d.pick] else 0
  }

  /** One approach's new green time: gain, then mutation, then the clamp. */
  function NextValue(v: Variant, green: int, payoff: real, total: real, d: Draw): (g: int)
    requires WellFormed(v) && d.pick < |v.deltas|
    ensures MinGreen <= g <= MaxGreen
  {
    Clamp(MinGreen, MaxGreen, green + Adjustment(v, payoff, total) + Mutation(v, d))
  }

  /** The new strategy of one generation. Every approach's value is computed from its
      own old value, its own draws, and the payoffs and total of the same snapshot. */
  function NextGreen(v: Variant, green: PerApproach<int>, payoffs: PerApproach<real>, draws: PerApproach<Draw>)
    : (r: PerApproach<int>)
    requires WellFormed(v) && DrawsFit(v, draws)
    ensures InBounds(r)
  {
    var total := Total(payoffs);
    assert draws.Get(West).pick < |v.deltas| && draws.Get(South).pick < |v.deltas|;
    assert draws.Get(North).pick < |v.deltas| && draws.Get(East).pick < |v.deltas|;
    var r := PerApproach(NextValue(v, green.west, payoffs.west, total, draws.west),
                         NextValue(v, green.south, payoffs.south, total, draws.south),
                         NextValue(v, green.north, payoffs.north, total, draws.north),
                         NextValue(v, green.east, payoffs.east, total, draws.east));
    assert forall a :: r.Get(a) == NextValue(v, green.Get(a), payoffs.Get(a), total, draws.Get(a));
    r
  }

  /** NextGreen at one approach. */
  lemma NextGreenAt(v: Variant, green: PerApproach<int>, payoffs: PerApproach<real>, draws: PerApproach<Draw>, a: Approach)
    requires WellFormed(v) && DrawsFit(v, draws)
    ensures draws.Get(a).pick < |v.deltas|
    ensures NextGreen(v, green, payoffs, draws).Get(a)
            == NextValue(v, green.Get(a), payoffs.Get(a), Total(payoffs), draws.Get(a))
  {
    match a
    case West =>
    case South =>
    case North =>
    case East =>
  }

  /** The update is simultaneous: an approach's new value does not depend on the other
      approaches' green times or draws, only on the shared payoff snapshot. */
  lemma UpdateUsesOneSnapshot(v: Variant, payoffs: PerApproach<real>,
                              green1: PerApproach<int>, draws1: PerApproach<Draw>,
                              green2: PerApproach<int>, draws2: PerApproach<Draw>, a: Approach)
    requires WellFormed(v) && DrawsFit(v, draws1) && DrawsFit(v, draws2)
    requires green1.Get(a) == green2.Get(a) && draws1.Get(a) == draws2.Get(a)
    ensures NextGreen(v, green1, payoffs, draws1).Get(a) == NextGreen(v, green2, payoffs, draws2).Get(a)
  {
    NextGreenAt(v, green1, payoffs, draws1, a);
    NextGreenAt(v, green2, payoffs, draws2, a);
  }

  /** Each gain lies in [0, K] when no payoff is negative. */
  lemma AdjustmentWithinK(v: Variant, payoffs: PerApproach<real>, a: Approach)
    requires WellFormed(v)
    requires forall b :: payoffs.Get(b) >= 0.0
    ensures 0 <= Adjustment(v, payoffs.Get(a), Total(payoffs)) <= v.k
  {
    var total := Total(payoffs);
    if total > v.threshold {
      var p := payoffs.Get(a);
      assert 0.0 <= p <= total by {
        assert payoffs.Get(West) >= 0.0 && payoffs.Get(South) >= 0.0;
        assert payoffs.Get(North) >= 0.0 && payoffs.Get(East) >= 0.0;
      }
      QuotientBounds(p, total, 0.0, 1.0);
      var ratio := p / total;
      var k := v.k as real;
      assert 0.0 <= k * ratio <= k by {
        assert k * (1.0 - ratio) >= 0.0;
        assert k * ratio >= 0.0;
      }
      var n := Trunc(k * ratio);
      assert n as real <= k;
    }
  }

  /** The gains of one generation add up to at most K when no payoff is negative:
      each is the floor of an approach's share of K, and the shares add up to K. */
  lemma AdjustmentsSumAtMostK(v: Variant, payoffs: PerApproach<real>)
    requires WellFormed(v)
    requires forall b :: payoffs.Get(b) >= 0.0
    ensures var total := Total(payoffs);
            Adjustment(v, payoffs.west, total) + Adjustment(v, payoffs.south, total)
            + Adjustment(v, payoffs.north, total) + Adjustment(v, payoffs.east, total) <= v.k
  {
    var total := Total(payoffs);
    if total > v.threshold {
      assert payoffs.Get(West) >= 0.0 && payoffs.Get(South) >= 0.0;
      assert payoffs.Get(North) >= 0.0 && payoffs.Get(East) >= 0.0;
      GainsAtMostK(v, payoffs.west, payoffs.south, payoffs.north, payoffs.east, total);
    }
  }

  /** The gains of four payoffs that are not negative, over their total, add up to at
      most K. */
  lemma GainsAtMostK(v: Variant, p1: real, p2: real, p3: real, p4: real, total: real)
    requires WellFormed(v) && total > v.threshold && total == p1 + p2 + p3 + p4
    requires p1 >= 0.0 && p2 >= 0.0 && p3 >= 0.0 && p4 >= 0.0
    ensures Adjustment(v, p1, total) + Adjustment(v, p2, total) + Adjustment(v, p3, total)
            + Adjustment(v, p4, total) <= v.k
  {
    var k := v.k as real;
    var x1, x2, x3, x4 := k * (p1 / total), k * (p2 / total), k * (p3 / total), k * (p4 / total);
    assert Adjustment(v, p1, total) as real <= x1 by { GainAtMostShare(v, p1, total); }
    assert Adjustment(v, p2, total) as real <= x2 by { GainAtMostShare(v, p2, total); }
    assert Adjustment(v, p3, total) as real <= x3 by { GainAtMostShare(v, p3, total); }
    assert Adjustment(v, p4, total) as real <= x4 by { GainAtMostShare(v, p4, total); }
    assert x1 + x2 + x3 + x4 == k by {
      SharesAddUp(p1, p2, p3, p4, total);
      ScaledSharesAddUp(k, p1 / total, p2 / total, p3 / total, p4 / total);
    }
    PartsAtMostWhole(Adjustment(v, p1, total), Adjustment(v, p2, total),
                     Adjustment(v, p3, total), Adjustment(v, p4, total), x1, x2, x3, x4, v.k);
  }

  /** Integers each at most their real part, with parts adding up to K, add up to at
      most K. */
  lemma PartsAtMostWhole(g1: int, g2: int, g3: int, g4: int, x1: real, x2: real, x3: real, x4: real, k: int)
    requires g1 as real <= x1 && g2 as real <= x2 && g3 as real <= x3 && g4 as real <= x4
    requires x1 + x2 + x3 + x4 == k as real
    ensures g1 + g2 + g3 + g4 <= k
  {
  }

  /** Shares adding up to one split K into parts adding up to K. */
  lemma ScaledSharesAddUp(k: real, w: real, s: real, n: real, e: real)
    requires w + s + n + e == 1.0
    ensures k * w + k * s + k * n + k * e == k
  {
    assert k * w + k * s + k * n + k * e == k * (w + s + n + e);
  }

  /** A gain is at most the approach's exact share of K. */
  lemma GainAtMostShare(v: Variant, payoff: real, total: real)
    requires WellFormed(v) && total > v.threshold && payoff >= 0.0
    ensures Adjustment(v, payoff, total) as real <= v.k as real * (payoff / total)
  {
    QuotientBounds(payoff, total, 0.0, payoff / total);
    assert v.k as real * (payoff / total) >= 0.0;
  }

  /** The four shares of a total add up to one. */
  lemma SharesAddUp(p1: real, p2: real, p3: real, p4: real, total: real)
    requires total != 0.0 && total == p1 + p2 + p3 + p4
    ensures p1 / total + p2 / total + p3 / total + p4 / total == 1.0
  {
    var w, s, n, e := p1 / total, p2 / total, p3 / total, p4 / total;
    assert w * total == p1 && s * total == p2 && n * total == p3 && e * total == p4;
    calc {
      (w + s + n + e) * total;
      w * total + s * total + n * total + e * total;
      p1 + p2 + p3 + p4;
      1.0 * total;
    }
    assert (w + s + n + e - 1.0) * total == 0.0;
  }

  /** Without a mutation an in-range green time never decreases, since the gain is
      not negative and the clamp cannot pull an in-range value down. */
  lemma NoMutationNeverDecreases(v: Variant, green: PerApproach<int>, payoffs: PerApproach<real>,
                                 draws: PerApproach<Draw>, a: Approach)
    requires WellFormed(v) && DrawsFit(v, draws)
    requires forall b :: payoffs.Get(b) >= 0.0
    requires MinGreen <= green.Get(a) <= MaxGreen
    requires v.rate <= draws.Get(a).roll
    ensures green.Get(a) <= NextGreen(v, green, payoffs, draws).Get(a)
  {
    NextGreenAt(v, green, payoffs, draws, a);
    AdjustmentWithinK(v, payoffs, a);
  }

  /** When the payoff total is at most the threshold no gain is applied: only the
      mutation and the clamp can change a value. */
  lemma BelowThresholdOnlyMutation(v: Variant, green: PerApproach<int>, payoffs: PerApproach<real>,
                                   draws: PerApproach<Draw>, a: Approach)
    requires WellFormed(v) && DrawsFit(v, draws)
    requires Total(payoffs) <= v.threshold
    ensures draws.Get(a).pick < |v.deltas|
    ensures NextGreen(v, green, payoffs, draws).Get(a)
            == Clamp(MinGreen, MaxGreen, green.Get(a) + Mutation(v, draws.Get(a)))
  {
    NextGreenAt(v, green, payoffs, draws, a);
  }

  /** egt_so2.py mutates by -2, 0 or +2; egt_so3.py by exactly -5 or +5, never 0. */
  lemma MutationDeltas(d: Draw)
    ensures d.pick < |So2.deltas| && d.roll < So2.rate ==> Mutation(So2, d) in {-2, 0, 2}
    ensures d.pick < |So3.deltas| && d.roll < So3.rate ==> Mutation(So3, d) in {-5, 5}
    ensures d.pick < |So3.deltas| && d.roll < So3.rate ==> Mutation(So3, d) != 0
  {
  }

  /** egt_so3.py with payoffs 0.5, 0.2, 0.2, 0.1 and no mutation: gains 4, 1, 1, 0, so
      green times of 30 become 34, 31, 31, 30. */
  lemma So3Scenario(draws: PerApproach<Draw>)
    requires DrawsFit(So3, draws)
    requires forall a :: So3.rate <= draws.Get(a).roll
    ensures NextGreen(So3, Uniform(30), PerApproach(0.5, 0.2, 0.2, 0.1), draws)
            == PerApproach(34, 31, 31, 30)
  {
    var p := PerApproach(0.5, 0.2, 0.2, 0.1);
    assert Total(p) == 1.0;
    assert Adjustment(So3, 0.5, 1.0) == 4;
    assert Adjustment(So3, 0.2, 1.0) == 1;
    assert Adjustment(So3, 0.1, 1.0) == 0;
    assert So3.rate <= draws.Get(West).roll && So3.rate <= draws.Get(South).roll;
    assert So3.rate <= draws.Get(North).roll && So3.rate <= draws.Get(East).roll;
  }

  /** egt_so3.py: a green time of 58 that mutates by +5 ends at 60, not 63, whatever
      the (non-negative) payoffs. */
  lemma So3ClampsAt60(payoffs: PerApproach<real>, draws: PerApproach<Draw>, a: Approach)
    requires DrawsFit(So3, draws)
    requires forall b :: payoffs.Get(b) >= 0.0
    requires draws.Get(a) == Draw(0.0, 1)
    ensures NextGreen(So3, Uniform(58), payoffs, draws).Get(a) == 60
  {
    NextGreenAt(So3, Uniform(58), payoffs, draws, a);
    AdjustmentWithinK(So3, payoffs, a);
  }

  // ---------------------------------------------------------------------------
  // The strategy table

  /** The global `strategies` dictionary, updated in place once per generation. */
  class Strategies {
    var green: PerApproach<int>

    ghost predicate Valid()
      reads this
    {
      InBounds(green)
    }

    constructor ()
      ensures green == Uniform(InitialGreen) && Valid()
    {
      green := Uniform(InitialGreen);
    }

    /** The update loop: approaches in order, each updated by the loop body below;
        `total` is taken once, before any value changes. */
    method Evolve(v: Variant, payoffs: PerApproach<real>, draws: PerApproach<Draw>)
      requires WellFormed(v) && DrawsFit(v, draws)
      modifies this
      ensures green == NextGreen(v, old(green), payoffs, draws)
      ensures Valid()
    {
      var total := Total(payoffs);
      ghost var start := green;
      for i := 0 to |Order|
        invariant forall b :: Rank(b) < i ==>
          green.Get(b) == NextValue(v, start.Get(b), payoffs.Get(b), total, draws.Get(b))
        invariant forall b :: i <= Rank(b) ==> green.Get(b) == start.Get(b)
      {
        RankOfOrder(i);
        EvolveApproach(v, Order[i], payoffs.Get(Order[i]), total, draws.Get(Order[i]));
      }
      forall a ensures green.Get(a) == NextGreen(v, start, payoffs, draws).Get(a) {
        NextGreenAt(v, start, payoffs, draws, a);
      }
      PerApproachEquality(green, NextGreen(v, start, payoffs, draws));
    }

    /** The loop body for one approach: gain if the total is above the threshold,
        mutation if the roll is below the rate, then the clamp. */
    method EvolveApproach(v: Variant, a: Approach, payoff: real, total: real, d: Draw)
      requires WellFormed(v) && d.pick < |v.deltas|
      modifies this
      ensures green == old(green).Set(a, NextValue(v, old(green).Get(a), payoff, total, d))
    {
      ghost var g0 := green.Get(a);
      if total > v.threshold {
        var ratio := payoff / total;
        green := green.Set(a, green.Get(a) + Trunc(v.k as real * ratio));
      }
      assert green.Get(a) == g0 + Adjustment(v, payoff, total);
      if d.roll < v.rate {
        green := green.Set(a, green.Get(a) + v.deltas[d.pick]);
      }
      assert green.Get(a) == g0 + Adjustment(v, payoff, total) + Mutation(v, d);
      green := green.Set(a, Clamp(MinGreen, MaxGreen, green.Get(a)));
      assert forall b :: b != a ==> green.Get(b) == old(green).Get(b);
      PerApproachEquality(green, old(green).Set(a, NextValue(v, old(green).Get(a), payoff, total, d)));
    }
  }
}
