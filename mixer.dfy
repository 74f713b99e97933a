/**
 * The colour mixer of the paint-mixing station: four pigment channels, each with a
 * fixed base colour, an amount and an enabled flag, blended into one RGB triple.
 *
 * Channels are indexed in the station's fixed order red, green, blue, yellow, which
 * is also the order in which the mixer visits them. Amounts are exact reals.
 */
module Mixer {

  /** An RGB triple, as the station's tuples hold it. */
  datatype RGB = RGB(r: int, g: int, b: int)

  /** One of the three components of an RGB triple. */
  datatype Component = R | G | B

  /** Component k of colour c. */
  function ComponentOf(c: RGB, k: Component): int
  {
    match k
    case R => c.r
    case G => c.g
    case B => c.b
  }

  /** Number of pigment channels: red, green, blue, yellow. */
  const ChannelCount: nat := 4

  /** Base colour of each channel, in channel order. */
  const Bases: seq<RGB> := [RGB(255, 0, 0), RGB(0, 255, 0), RGB(0, 0, 255), RGB(255, 255, 0)]

  /** The colour returned when the enabled amounts add up to zero. */
  const Neutral: RGB := RGB(150, 150, 150)

  predicate WellSized(amounts: seq<real>, enabled: seq<bool>)
  {
    |amounts| == ChannelCount && |enabled| == ChannelCount
  }

  predicate NonNegative(amounts: seq<real>)
  {
    forall i :: 0 <= i < |amounts| ==> 0.0 <= amounts[i]
  }

  /** Sum of the enabled amounts among the first n channels. */
  function Total(amounts: seq<real>, enabled: seq<bool>, n: nat): real
    requires n <= |amounts| && n <= |enabled|
  {
    if n == 0 then 0.0
    else Total(amounts, enabled, n - 1) + (if enabled[n - 1] then amounts[n - 1] else 0.0)
  }

  /**
   * Component k of the weighted average over the first n channels: each enabled
   * channel adds its base component times its normalised weight amount / total.
   */
  function Weighted(amounts: seq<real>, enabled: seq<bool>, total: real, k: Component, n: nat): real
    requires n <= |amounts| && n <= |enabled| && n <= |Bases|
    requires total != 0.0
  {
    if n == 0 then 0.0
    else
      Weighted(amounts, enabled, total, k, n - 1)
      + (if enabled[n - 1] then ComponentOf(Bases[n - 1], k) as real * (amounts[n - 1] / total) else 0.0)
  }

  /** Python's int() on a number: truncation toward zero. */
  function Trunc(x: real): int
  {
    if 0.0 <= x then x.Floor else -((-x).Floor)
  }

  /** The mixed colour of a channel state. */
  function Mix(amounts: seq<real>, enabled: seq<bool>): RGB
    requires WellSized(amounts, enabled)
  {
    var total := Total(amounts, enabled, ChannelCount);
    if total == 0.0 then Neutral
    else
      RGB(Trunc(Weighted(amounts, enabled, total, R, ChannelCount)),
          Trunc(Weighted(amounts, enabled, total, G, ChannelCount)),
          Trunc(Weighted(amounts, enabled, total, B, ChannelCount)))
  }

  /** Every enabled amount of the first n channels is zero. */
  predicate SilentUpTo(amounts: seq<real>, enabled: seq<bool>, n: nat)
    requires n <= |amounts| && n <= |enabled|
  {
    forall i :: 0 <= i < n && enabled[i] ==> amounts[i] == 0.0
  }

  // ---------------------------------------------------------------------------
  // Zero total

  lemma {:induction false} TotalOfNonNegative(amounts: seq<real>, enabled: seq<bool>, n: nat)
    requires n <= |amounts| && n <= |enabled|
    requires NonNegative(amounts)
    ensures 0.0 <= Total(amounts, enabled, n)
    ensures Total(amounts, enabled, n) == 0.0 <==> SilentUpTo(amounts, enabled, n)
  {
    if n > 0 {
      TotalOfNonNegative(amounts, enabled, n - 1);
    }
  }

  lemma {:induction false} TotalOfSilent(amounts: seq<real>, enabled: seq<bool>, n: nat)
    requires n <= |amounts| && n <= |enabled|
    requires SilentUpTo(amounts, enabled, n)
    ensures Total(amounts, enabled, n) == 0.0
  {
    if n > 0 {
      TotalOfSilent(amounts, enabled, n - 1);
    }
  }

  /** With non-negative amounts, the total is zero exactly when every enabled amount is zero. */
  lemma TotalZeroIff(amounts: seq<real>, enabled: seq<bool>)
    requires WellSized(amounts, enabled) && NonNegative(amounts)
    ensures Total(amounts, enabled, ChannelCount) == 0.0
            <==> forall i :: 0 <= i < ChannelCount && enabled[i] ==> amounts[i] == 0.0
  {
    TotalOfNonNegative(amounts, enabled, ChannelCount);
  }

  /**
   * When no enabled channel holds any amount (in particular when no channel is
   * enabled at all), the mix is the neutral grey.
   */
  lemma SilentMixIsNeutral(amounts: seq<real>, enabled: seq<bool>)
    requires WellSized(amounts, enabled)
    requires forall i :: 0 <= i < ChannelCount && enabled[i] ==> amounts[i] == 0.0
    ensures Mix(amounts, enabled) == Neutral
  {
    TotalOfSilent(amounts, enabled, ChannelCount);
  }

  // ---------------------------------------------------------------------------
  // Channels that do not take part

  lemma {:induction false} DisabledIgnoredUpTo(amounts: seq<real>, enabled: seq<bool>, j: nat, x: real, total: real, k: Component, n: nat)
    requires n <= |amounts| && n <= |enabled| && n <= |Bases| && j < |amounts| && j < |enabled|
    requires !enabled[j] && total != 0.0
    ensures Total(amounts[j := x], enabled, n) == Total(amounts, enabled, n)
    ensures Weighted(amounts[j := x], enabled, total, k, n) == Weighted(amounts, enabled, total, k, n)
  {
    if n > 0 {
      DisabledIgnoredUpTo(amounts, enabled, j, x, total, k, n - 1);
    }
  }

  /** A disabled channel's amount never influences the mix, whatever it is. */
  lemma DisabledChannelIgnored(amounts: seq<real>, enabled: seq<bool>, j: nat, x: real)
    requires WellSized(amounts, enabled) && j < ChannelCount
    requires !enabled[j]
    ensures Mix(amounts[j := x], enabled) == Mix(amounts, enabled)
  {
    var total := Total(amounts, enabled, ChannelCount);
    DisabledIgnoredUpTo(amounts, enabled, j, x, 1.0, R, ChannelCount);
    if total != 0.0 {
      DisabledIgnoredUpTo(amounts, enabled, j, x, total, R, ChannelCount);
      DisabledIgnoredUpTo(amounts, enabled, j, x, total, G, ChannelCount);
      DisabledIgnoredUpTo(amounts, enabled, j, x, total, B, ChannelCount);
    }
  }

  lemma {:induction false} ZeroInertUpTo(amounts: seq<real>, enabled: seq<bool>, j: nat, flag: bool, total: real, k: Component, n: nat)
    requires n <= |amounts| && n <= |enabled| && n <= |Bases| && j < |amounts| && j < |enabled|
    requires amounts[j] == 0.0 && total != 0.0
    ensures Total(amounts, enabled[j := flag], n) == Total(amounts, enabled, n)
    ensures Weighted(amounts, enabled[j := flag], total, k, n) == Weighted(amounts, enabled, total, k, n)
  {
    if n > 0 {
      ZeroInertUpTo(amounts, enabled, j, flag, total, k, n - 1);
    }
  }

  /** A channel whose amount is zero gives the same mix enabled or disabled. */
  lemma ZeroChannelInert(amounts: seq<real>, enabled: seq<bool>, j: nat, flag: bool)
    requires WellSized(amounts, enabled) && j < ChannelCount
    requires amounts[j] == 0.0
    ensures Mix(amounts, enabled[j := flag]) == Mix(amounts, enabled)
  {
    var total := Total(amounts, enabled, ChannelCount);
    ZeroInertUpTo(amounts, enabled, j, flag, 1.0, R, ChannelCount);
    if total != 0.0 {
      ZeroInertUpTo(amounts, enabled, j, flag, total, R, ChannelCount);
      ZeroInertUpTo(amounts, enabled, j, flag, total, G, ChannelCount);
      ZeroInertUpTo(amounts, enabled, j, flag, total, B, ChannelCount);
    }
  }

  // ---------------------------------------------------------------------------
  // Range

  /** Sum of base component times amount over the enabled channels among the first n. */
  function Raw(amounts: seq<real>, enabled: seq<bool>, k: Component, n: nat): real
    requires n <= |amounts| && n <= |enabled| && n <= |Bases|
  {
    if n == 0 then 0.0
    else Raw(amounts, enabled, k, n - 1) + (if enabled[n - 1] then ComponentOf(Bases[n - 1], k) as real * amounts[n - 1] else 0.0)
  }

  lemma {:induction false} WeightedIsRaw(amounts: seq<real>, enabled: seq<bool>, total: real, k: Component, n: nat)
    requires n <= |amounts| && n <= |enabled| && n <= |Bases|
    requires total != 0.0
    ensures Weighted(amounts, enabled, total, k, n) * total == Raw(amounts, enabled, k, n)
  {
    if n > 0 {
      WeightedIsRaw(amounts, enabled, total, k, n - 1);
      if enabled[n - 1] {
        var h, a := ComponentOf(Bases[n - 1], k) as real, amounts[n - 1];
        calc {
          (h * (a / total)) * total;
          h * ((a / total) * total);
          h * a;
        }
      }
    }
  }

  lemma {:induction false} RawBounded(amounts: seq<real>, enabled: seq<bool>, k: Component, n: nat)
    requires n <= |amounts| && n <= |enabled| && n <= |Bases|
    requires NonNegative(amounts)
    ensures 0.0 <= Raw(amounts, enabled, k, n) <= 255.0 * Total(amounts, enabled, n)
  {
    if n > 0 {
      RawBounded(amounts, enabled, k, n - 1);
      var h := ComponentOf(Bases[n - 1], k) as real;
      assert h == 0.0 || h == 255.0;
    }
  }

  lemma ComponentInRange(amounts: seq<real>, enabled: seq<bool>, total: real, k: Component)
    requires WellSized(amounts, enabled) && NonNegative(amounts)
    requires total == Total(amounts, enabled, ChannelCount) && total != 0.0
    ensures 0 <= Trunc(Weighted(amounts, enabled, total, k, ChannelCount)) <= 255
  {
    var w := Weighted(amounts, enabled, total, k, ChannelCount);
    WeightedIsRaw(amounts, enabled, total, k, ChannelCount);
    RawBounded(amounts, enabled, k, ChannelCount);
    TotalOfNonNegative(amounts, enabled, ChannelCount);
    assert 0.0 < total;
    assert w * total == Raw(amounts, enabled, k, ChannelCount);
    assert Raw(amounts, enabled, k, ChannelCount) <= 255.0 * Total(amounts, enabled, ChannelCount);
    ProductBounds(w, total, Raw(amounts, enabled, k, ChannelCount), 255.0);
  }

  /** A positive factor can be cancelled from both sides of a bound. */
  lemma ProductBounds(w: real, t: real, p: real, hi: real)
    requires 0.0 < t && w * t == p && 0.0 <= p <= hi * t
    ensures 0.0 <= w <= hi
  {
  }

  /** With non-negative amounts, every component of the mix lies in [0, 255]. */
  lemma MixInRange(amounts: seq<real>, enabled: seq<bool>)
    requires WellSized(amounts, enabled) && NonNegative(amounts)
    ensures var c := Mix(amounts, enabled);
      0 <= c.r <= 255 && 0 <= c.g <= 255 && 0 <= c.b <= 255
  {
    var total := Total(amounts, enabled, ChannelCount);
    if total != 0.0 {
      ComponentInRange(amounts, enabled, total, R);
      ComponentInRange(amounts, enabled, total, G);
      ComponentInRange(amounts, enabled, total, B);
    }
  }

  // ---------------------------------------------------------------------------
  // Normalised weights

  /** Every enabled amount multiplied by f; disabled amounts as they were. */
  function ScaleEnabled(amounts: seq<real>, enabled: seq<bool>, f: real): (s: seq<real>)
    requires |amounts| == |enabled|
    ensures |s| == |amounts|
  {
    seq(|amounts|, i requires 0 <= i < |amounts| => if enabled[i] then f * amounts[i] else amounts[i])
  }

  lemma CancelFactor(a: real, t: real, f: real)
    requires t != 0.0 && f != 0.0
    ensures (f * a) / (f * t) == a / t
  {
  }

  lemma {:induction false} ScaleTotal(amounts: seq<real>, enabled: seq<bool>, f: real, n: nat)
    requires |amounts| == |enabled| && n <= |amounts|
    ensures Total(ScaleEnabled(amounts, enabled, f), enabled, n) == f * Total(amounts, enabled, n)
  {
    if n > 0 {
      ScaleTotal(amounts, enabled, f, n - 1);
      var t := Total(amounts, enabled, n - 1);
      if enabled[n - 1] {
        var a := amounts[n - 1];
        assert ScaleEnabled(amounts, enabled, f)[n - 1] == f * a;
        assert f * t + f * a == f * (t + a);
      } else {
        assert ScaleEnabled(amounts, enabled, f)[n - 1] == amounts[n - 1];
      }
    }
  }

  lemma {:induction false} ScaleWeighted(amounts: seq<real>, enabled: seq<bool>, f: real, total: real, k: Component, n: nat)
    requires |amounts| == |enabled| && n <= |amounts| && n <= |Bases|
    requires f != 0.0 && total != 0.0
    ensures f * total != 0.0
    ensures Weighted(ScaleEnabled(amounts, enabled, f), enabled, f * total, k, n)
            == Weighted(amounts, enabled, total, k, n)
  {
    if n > 0 {
      ScaleWeighted(amounts, enabled, f, total, k, n - 1);
      if enabled[n - 1] {
        var a := amounts[n - 1];
        assert ScaleEnabled(amounts, enabled, f)[n - 1] == f * a;
        CancelFactor(a, total, f);
      }
    }
  }

  /** Multiplying every enabled amount by the same positive factor leaves the mix unchanged. */
  lemma MixScaleInvariant(amounts: seq<real>, enabled: seq<bool>, f: real)
    requires WellSized(amounts, enabled) && 0.0 < f
    ensures Mix(ScaleEnabled(amounts, enabled, f), enabled) == Mix(amounts, enabled)
  {
    var total := Total(amounts, enabled, ChannelCount);
    ScaleTotal(amounts, enabled, f, ChannelCount);
    if total != 0.0 {
      var scaled := ScaleEnabled(amounts, enabled, f);
      assert Total(scaled, enabled, ChannelCount) == f * total;
      ScaleWeighted(amounts, enabled, f, total, R, ChannelCount);
      ScaleWeighted(amounts, enabled, f, total, G, ChannelCount);
      ScaleWeighted(amounts, enabled, f, total, B, ChannelCount);
    }
  }

  // ---------------------------------------------------------------------------
  // A single contributing channel

  /** The only channel that may add to the sums, channel j, holds a non-zero amount. */
  predicate Sole(amounts: seq<real>, enabled: seq<bool>, j: nat)
  {
    |amounts| == |enabled| && j < |amounts| && enabled[j] && amounts[j] != 0.0
    && forall i :: 0 <= i < |amounts| && i != j && enabled[i] ==> amounts[i] == 0.0
  }

  lemma {:induction false} SoleTotal(amounts: seq<real>, enabled: seq<bool>, j: nat, n: nat)
    requires Sole(amounts, enabled, j) && n <= |amounts|
    ensures Total(amounts, enabled, n) == if j < n then amounts[j] else 0.0
  {
    if n > 0 {
      SoleTotal(amounts, enabled, j, n - 1);
    }
  }

  lemma {:induction false} SoleWeighted(amounts: seq<real>, enabled: seq<bool>, j: nat, k: Component, n: nat)
    requires Sole(amounts, enabled, j) && n <= |amounts| && n <= |Bases|
    ensures Weighted(amounts, enabled, amounts[j], k, n) == if j < n then ComponentOf(Bases[j], k) as real else 0.0
  {
    if n > 0 {
      SoleWeighted(amounts, enabled, j, k, n - 1);
      var a := amounts[j];
      if n - 1 == j {
        assert a / a == 1.0;
      } else if enabled[n - 1] {
        assert amounts[n - 1] / a == 0.0;
      }
    }
  }

  /**
   * When exactly one enabled channel holds a positive amount, the mix is that
   * channel's base colour.
   */
  lemma SoleChannelGivesBase(amounts: seq<real>, enabled: seq<bool>, j: nat)
    requires WellSized(amounts, enabled) && j < ChannelCount
    requires enabled[j] && 0.0 < amounts[j]
    requires forall i :: 0 <= i < ChannelCount && i != j && enabled[i] ==> amounts[i] == 0.0
    ensures Mix(amounts, enabled) == Bases[j]
  {
    assert Sole(amounts, enabled, j);
    SoleTotal(amounts, enabled, j, ChannelCount);
    SoleWeighted(amounts, enabled, j, R, ChannelCount);
    SoleWeighted(amounts, enabled, j, G, ChannelCount);
    SoleWeighted(amounts, enabled, j, B, ChannelCount);
  }

  // ---------------------------------------------------------------------------
  // Worked examples

  /** Red at 0.8 and blue at 0.2, the others off: 0.8 * (255, 0, 0) + 0.2 * (0, 0, 255), truncated. */
  lemma RedBlueExample()
    ensures Mix([0.8, 0.0, 0.2, 0.0], [true, false, true, false]) == RGB(204, 0, 51)
  {
    var a, e := [0.8, 0.0, 0.2, 0.0], [true, false, true, false];
    assert Total(a, e, 4) == 1.0 by {
      assert Total(a, e, 1) == 0.8;
      assert Total(a, e, 3) == 1.0;
    }
    assert Weighted(a, e, 1.0, R, 4) == 204.0 by {
      assert Weighted(a, e, 1.0, R, 1) == 204.0;
      assert Weighted(a, e, 1.0, R, 3) == 204.0;
    }
    assert Weighted(a, e, 1.0, G, 4) == 0.0 by {
      assert Weighted(a, e, 1.0, G, 3) == 0.0;
    }
    assert Weighted(a, e, 1.0, B, 4) == 51.0 by {
      assert Weighted(a, e, 1.0, B, 1) == 0.0;
      assert Weighted(a, e, 1.0, B, 3) == 51.0;
    }
  }

  /** All four channels at 0.25: (127.5, 127.5, 63.75) truncated. */
  lemma EvenExample()
    ensures Mix([0.25, 0.25, 0.25, 0.25], [true, true, true, true]) == RGB(127, 127, 63)
  {
    var a, e := [0.25, 0.25, 0.25, 0.25], [true, true, true, true];
    assert Total(a, e, 4) == 1.0 by {
      assert Total(a, e, 2) == 0.5;
    }
    assert Weighted(a, e, 1.0, R, 4) == 127.5 by {
      assert Weighted(a, e, 1.0, R, 2) == 63.75;
    }
    assert Weighted(a, e, 1.0, G, 4) == 127.5 by {
      assert Weighted(a, e, 1.0, G, 2) == 63.75;
    }
    assert Weighted(a, e, 1.0, B, 4) == 63.75 by {
      assert Weighted(a, e, 1.0, B, 2) == 0.0;
    }
  }
}
