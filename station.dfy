/**
 * The paint-mixing station as the running program holds it: the slider amounts and
 * enabled flags updated in place, the selected channel, the products made so far
 * and the time of the last product.
 */
module Factory {
  import opened Mixer
  import opened Sliders
  import opened Production

  class Station {
    /** Amount of each channel, in channel order red, green, blue, yellow. */
    var values: array<real>
    /** Whether each channel takes part in the mix. */
    var enabled: array<bool>
    /** The channel the keys act on. */
    var selected: nat
    /** The products made so far, each as its colour. */
    var products: seq<RGB>
    /** When the last product was made, in milliseconds. */
    var lastProduction: int

    ghost predicate Valid()
      reads this, values, enabled
    {
      values.Length == ChannelCount && enabled.Length == ChannelCount
      && WellFormed(PanelValue())
    }

    /** The slider state as a value. */
    ghost function PanelValue(): Panel
      reads this, values, enabled
    {
      Panel(values[..], enabled[..], selected)
    }

    /** The production line as a value. */
    ghost function LineValue(): Line
      reads this
    {
      Line(products, lastProduction)
    }

    constructor ()
      ensures Valid() && fresh(values) && fresh(enabled)
      ensures PanelValue() == Initial() && LineValue() == Start
    {
      values := new real[ChannelCount](_ => 0.0);
      enabled := new bool[ChannelCount](_ => false);
      selected := 0;
      products := [];
      lastProduction := 0;
      new;
      assert values[..] == [0.0, 0.0, 0.0, 0.0];
      assert enabled[..] == [false, false, false, false];
    }

    /** The current mixed colour, accumulated channel by channel. */
    method MixColor() returns (c: RGB)
      requires Valid()
      ensures c == Mix(values[..], enabled[..])
      ensures 0 <= c.r <= 255 && 0 <= c.g <= 255 && 0 <= c.b <= 255
    {
      ghost var amounts, flags := values[..], enabled[..];
      var total := 0.0;
      var i := 0;
      while i < ChannelCount
        invariant 0 <= i <= ChannelCount
        invariant total == Total(amounts, flags, i)
      {
        if enabled[i] {
          total := total + values[i];
        }
        i := i + 1;
      }

      if total == 0.0 {
        return Neutral;
      }

      var rSum, gSum, bSum := 0.0, 0.0, 0.0;
      i := 0;
      while i < ChannelCount
        invariant 0 <= i <= ChannelCount
        invariant rSum == Weighted(amounts, flags, total, R, i)
        invariant gSum == Weighted(amounts, flags, total, G, i)
        invariant bSum == Weighted(amounts, flags, total, B, i)
      {
        if enabled[i] {
          var base := Bases[i];
          var weight := values[i] / total;
          rSum := rSum + base.r as real * weight;
          gSum := gSum + base.g as real * weight;
          bSum := bSum + base.b as real * weight;
        }
        i := i + 1;
      }
      c := RGB(Trunc(rSum), Trunc(gSum), Trunc(bSum));
      MixInRange(amounts, flags);
    }

    /** React to one input event. */
    method HandleKey(ev: Event)
      requires Valid()
      modifies this`selected, values, enabled
      ensures Valid()
      ensures PanelValue() == Next(old(PanelValue()), ev)
    {
      if ev.NotKeyDown? {
        return;
      }
      var key := ev.key;

      if key == Right {
        selected := (selected + 1) % ChannelCount;
      } else if key == Left {
        selected := (selected - 1) % ChannelCount;
      }

      var current := selected;

      if key == Up {
        values[current] := values[current] + SliderStep;
        if values[current] > 1.0 {
          values[current] := 1.0;
        }
        enabled[current] := true;
      }

      if key == Down {
        values[current] := values[current] - SliderStep;
        if values[current] < 0.0 {
          values[current] := 0.0;
        }
      }

      if key == Space {
        enabled[current] := !enabled[current];
      }
    }

    /** One pass of the production timer at time now. */
    method Tick(now: int)
      requires Valid()
      modifies this`products, this`lastProduction
      ensures Valid()
      ensures LineValue() == Produce(old(LineValue()), now, Mix(values[..], enabled[..]))
    {
      if now - lastProduction > ProductionInterval {
        var mixed := MixColor();
        products := products + [mixed];
        lastProduction := now;
      }
    }

    /** One cycle of the control loop: every pending event in order, then the timer. */
    method Cycle(events: seq<Event>, now: int)
      requires Valid()
      modifies this`selected, this`products, this`lastProduction, values, enabled
      ensures Valid()
      ensures PanelValue() == NextAll(old(PanelValue()), events)
      ensures LineValue() == Produce(old(LineValue()), now, Mix(values[..], enabled[..]))
    {
      var i := 0;
      while i < |events|
        invariant 0 <= i <= |events|
        invariant Valid()
        invariant PanelValue() == NextAll(old(PanelValue()), events[..i])
        invariant LineValue() == old(LineValue())
      {
        assert events[..i + 1][..i] == events[..i];
        HandleKey(events[i]);
        i := i + 1;
      }
      assert events[..i] == events;
      Tick(now);
    }
  }
}
