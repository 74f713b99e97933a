/**
 * The keyboard control of the pigment sliders: Right and Left move the selection
 * round the four channels, Up and Down change the selected amount by a fixed step
 * within [0, 1], and Space switches the selected channel on or off.
 */
module Sliders {
  import opened Mixer

  /** How much one Up or Down press changes the selected amount. */
  const SliderStep: real := 0.1

  /** The keys the station reacts to; Other stands for every other key. */
  datatype Key = Right | Left | Up | Down | Space | Other

  /** An input event: a key press, or any event that is not a key press. */
  datatype Event = KeyDown(key: Key) | NotKeyDown

  /** The slider state: one amount and one enabled flag per channel, and the selected channel. */
  datatype Panel = Panel(values: seq<real>, enabled: seq<bool>, selected: nat)

  /** The shape every panel has: one entry per channel and a selection among them. */
  predicate Shaped(p: Panel)
  {
    WellSized(p.values, p.enabled) && p.selected < ChannelCount
  }

  /** Every amount lies in [0, 1]. */
  predicate InUnitRange(values: seq<real>)
  {
    forall i :: 0 <= i < |values| ==> 0.0 <= values[i] <= 1.0
  }

  /** The state every reachable panel is in. */
  predicate WellFormed(p: Panel)
  {
    Shaped(p) && InUnitRange(p.values)
  }

  /** The panel the station starts with: every channel off at 0, red selected. */
  function Initial(): (p: Panel)
    ensures WellFormed(p) && p.selected == 0
    ensures forall i :: 0 <= i < ChannelCount ==> p.values[i] == 0.0 && !p.enabled[i]
  {
    Panel([0.0, 0.0, 0.0, 0.0], [false, false, false, false], 0)
  }

  /** The panel after one event. */
  function Next(p: Panel, ev: Event): (q: Panel)
    requires Shaped(p)
    ensures Shaped(q)
    ensures InUnitRange(p.values) ==> InUnitRange(q.values)
    ensures forall i :: 0 <= i < ChannelCount && i != q.selected ==>
              q.values[i] == p.values[i] && q.enabled[i] == p.enabled[i]
    ensures q.selected != p.selected ==> q.values == p.values && q.enabled == p.enabled
  {
    match ev
    case NotKeyDown => p
    case KeyDown(key) =>
      var sel :=
        if key == Right then (p.selected + 1) % ChannelCount
        else if key == Left then (p.selected - 1) % ChannelCount
        else p.selected;
      match key
      case Up =>
        var v := p.values[sel] + SliderStep;
        Panel(p.values[sel := if v > 1.0 then 1.0 else v], p.enabled[sel := true], sel)
      case Down =>
        var v := p.values[sel] - SliderStep;
        Panel(p.values[sel := if v < 0.0 then 0.0 else v], p.enabled, sel)
      case Space =>
        Panel(p.values, p.enabled[sel := !p.enabled[sel]], sel)
      case _ =>
        p.(selected := sel)
  }

  /** The panel after a batch of events, applied in order. */
  function NextAll(p: Panel, events: seq<Event>): (q: Panel)
    requires Shaped(p)
    ensures Shaped(q)
    ensures WellFormed(p) ==> WellFormed(q)
  {
    if events == [] then p
    else Next(NextAll(p, events[..|events| - 1]), events[|events| - 1])
  }

  // ---------------------------------------------------------------------------
  // Properties of single keys

  /** Right and Left move the selection one channel round, and change nothing else. */
  lemma MoveSelection(p: Panel)
    requires Shaped(p)
    ensures Next(p, KeyDown(Right)) == p.(selected := if p.selected == ChannelCount - 1 then 0 else p.selected + 1)
    ensures Next(p, KeyDown(Left)) == p.(selected := if p.selected == 0 then ChannelCount - 1 else p.selected - 1)
  {
  }

  /** Left undoes Right, and Right undoes Left. */
  lemma MovesUndo(p: Panel)
    requires Shaped(p)
    ensures Next(Next(p, KeyDown(Right)), KeyDown(Left)) == p
    ensures Next(Next(p, KeyDown(Left)), KeyDown(Right)) == p
  {
    MoveSelection(p);
    MoveSelection(Next(p, KeyDown(Right)));
    MoveSelection(Next(p, KeyDown(Left)));
  }

  /**
   * Up raises the selected amount by the step, but never above 1, and switches the
   * channel on; Down lowers it by the step, but never below 0, and leaves the flag alone.
   */
  lemma AdjustAmount(p: Panel)
    requires WellFormed(p)
    ensures var q := Next(p, KeyDown(Up));
      q.selected == p.selected && q.enabled[p.selected]
      && q.values[p.selected]
         == (if p.values[p.selected] + SliderStep > 1.0 then 1.0 else p.values[p.selected] + SliderStep)
    ensures var q := Next(p, KeyDown(Down));
      q.selected == p.selected && q.enabled == p.enabled
      && q.values[p.selected]
         == (if p.values[p.selected] - SliderStep < 0.0 then 0.0 else p.values[p.selected] - SliderStep)
  {
  }

  /** Away from the bounds, Down undoes the amount change of Up (the channel stays on). */
  lemma UpThenDown(p: Panel)
    requires WellFormed(p) && p.values[p.selected] <= 1.0 - SliderStep
    ensures Next(Next(p, KeyDown(Up)), KeyDown(Down)) == p.(enabled := p.enabled[p.selected := true])
  {
  }

  /** Space flips only the selected channel's flag, so two presses restore the panel. */
  lemma SpaceTwice(p: Panel)
    requires Shaped(p)
    ensures Next(p, KeyDown(Space)).enabled[p.selected] == !p.enabled[p.selected]
    ensures Next(p, KeyDown(Space)).values == p.values
    ensures Next(Next(p, KeyDown(Space)), KeyDown(Space)) == p
  {
  }

  /** Events that are not key presses, and keys the station does not use, change nothing. */
  lemma IgnoredEvents(p: Panel)
    requires Shaped(p)
    ensures Next(p, NotKeyDown) == p
    ensures Next(p, KeyDown(Other)) == p
  {
  }

  // ---------------------------------------------------------------------------
  // Keys and the mix

  /** Moving the selection never changes the mixed colour. */
  lemma MovesKeepMix(p: Panel, k: Key)
    requires Shaped(p) && (k == Right || k == Left)
    ensures Mix(Next(p, KeyDown(k)).values, Next(p, KeyDown(k)).enabled) == Mix(p.values, p.enabled)
  {
  }

  /** Down on a switched-off channel never changes the mixed colour. */
  lemma DownOnDisabledKeepsMix(p: Panel)
    requires Shaped(p) && !p.enabled[p.selected]
    ensures var q := Next(p, KeyDown(Down)); Mix(q.values, q.enabled) == Mix(p.values, p.enabled)
  {
    var v := p.values[p.selected] - SliderStep;
    DisabledChannelIgnored(p.values, p.enabled, p.selected, if v < 0.0 then 0.0 else v);
  }

  /** Space on a channel whose amount is zero never changes the mixed colour. */
  lemma SpaceOnEmptyKeepsMix(p: Panel)
    requires Shaped(p) && p.values[p.selected] == 0.0
    ensures var q := Next(p, KeyDown(Space)); Mix(q.values, q.enabled) == Mix(p.values, p.enabled)
  {
    ZeroChannelInert(p.values, p.enabled, p.selected, !p.enabled[p.selected]);
  }

  /** In every reachable panel the mixed colour is a valid RGB colour. */
  lemma ReachableMixInRange(events: seq<Event>)
    ensures var q := NextAll(Initial(), events); var c := Mix(q.values, q.enabled);
      0 <= c.r <= 255 && 0 <= c.g <= 255 && 0 <= c.b <= 255
  {
    var q := NextAll(Initial(), events);
    MixInRange(q.values, q.enabled);
  }
}
