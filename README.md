# Paint-mixing station: a Dafny model

This project models the core of an early snapshot of a factory paint-mixing
station simulation. It has three parts:

- **The colour mixer.** There are four pigment channels: red, green, blue and
  yellow. Each channel has a fixed base colour, an amount and an enabled flag.
  The mixer blends them into one RGB triple. If the enabled amounts add up to
  zero, the result is neutral grey (150, 150, 150). Otherwise it is the
  amount-weighted average of the enabled base colours, truncated to integers.
- **The slider keys.** Right and Left move the selected channel round the four
  channels, wrapping modulo 4. Up raises the selected amount by 0.1, never
  above 1, and switches that channel on. Down lowers the amount by 0.1, never
  below 0. Space switches the selected channel on or off. Events that are not
  key presses are ignored.
- **The production timer.** On every pass of the control loop, if strictly
  more than 2000 ms have passed since the last product, the station makes a
  product in the current mixed colour. It then restarts the timer.

The project has four modules, one per file:

- `Mixer` (`mixer.dfy`): the pure specification `Mix` and the lemmas about it.
- `Sliders` (`sliders.dfy`): the pure transition `Next` of the slider state
  for one event, plus its lemmas.
- `Production` (`production.dfy`): the pure timer step `Produce` and runs of
  ticks.
- `Factory` (`station.dfy`): the class `Station`, which holds the state the
  program updates in place.

`Station` keeps the amounts and flags in two arrays, indexed in the fixed
order red, green, blue, yellow. It also keeps the selected index, the product
list and the time of the last product.

- `MixColor` runs the mixer's two accumulating loops and is proved equal to
  `Mix`.
- `HandleKey` updates the arrays in place and is proved to produce the state
  `Next` describes.
- `Tick` is the production step.
- `Cycle` is one pass of the main loop: every pending event in order, then the
  timer.

Inputs and the clock are parameters. An input is an abstract `Event`: `KeyDown`
of `Right`, `Left`, `Up`, `Down`, `Space` or `Other`, or `NotKeyDown`. The
time is the `now: int` in milliseconds given to `Tick`. A product is modelled
by its colour alone.

Amounts are exact reals. Python's `int()` on the weighted sums truncates toward
zero, and `Trunc` models it. Python's `%` on the selected index floors, and
Dafny's `%` is Euclidean. The two agree for the modulus 4 used here, so
`(i - 1) % 4` wraps 0 to 3 in both.

The wider design of this station also describes a lock/pause mode, a quality
check against a reference colour and an append-only event log. None of these
exists in the code modelled here. The production step only carries a comment
saying that logging will come later (PHYS7039SIM1.py:191). This model follows
the code and has none of them. The design also says each mixed component is
"truncated to an integer in [0, 255]". The code has no clamp, only `int()`.
The range is a consequence of the amounts being non-negative, and
`Mixer.MixInRange` proves it under that condition.

## Model

| member | source | states |
|---|---|---|
| `Mixer.TotalZeroIff` | PHYS7039SIM1.py:83-91 | With non-negative amounts, the enabled total is zero exactly when every enabled amount is zero (both directions) |
| `Mixer.SilentMixIsNeutral` | PHYS7039SIM1.py:83-91 | When no enabled channel holds any amount, including when no channel is enabled, the mix is exactly (150, 150, 150) |
| `Mixer.DisabledChannelIgnored` | PHYS7039SIM1.py:85-87 | Changing a disabled channel's amount to any value leaves the mix unchanged; the same accumulation order also excludes it from the weighted sums at lines 98-99 |
| `Mixer.ZeroChannelInert` | PHYS7039SIM1.py:84-104 | A channel whose amount is zero gives the same mix whether enabled or not |
| `Mixer.MixInRange` | PHYS7039SIM1.py:93-107 | With non-negative amounts, every component of the mix is an integer in [0, 255] |
| `Mixer.MixScaleInvariant` | PHYS7039SIM1.py:101 | Multiplying every enabled amount by the same positive factor leaves the mix unchanged, because the weights are normalised |
| `Mixer.SoleChannelGivesBase` | PHYS7039SIM1.py:93-107 | When exactly one enabled channel has a positive amount, the mix is that channel's base colour |
| `Mixer.RedBlueExample` | PHYS7039SIM1.py:76-107 | Red 0.8 and blue 0.2 enabled, the rest off, mixes to (204, 0, 51) |
| `Mixer.EvenExample` | PHYS7039SIM1.py:76-107 | All four channels enabled at 0.25 mix to (127, 127, 63), truncating 127.5 and 63.75 |
| `Sliders.Initial` | PHYS7039SIM1.py:30-43 | The starting panel has every channel off at amount 0 and red selected, and it is well formed |
| `Sliders.Next` | PHYS7039SIM1.py:109-144 | One event keeps the selection in [0, 4) and every amount in [0, 1]. Channels other than the selected one keep their amount and flag. A change of selection changes no amount or flag |
| `Sliders.NextAll` | PHYS7039SIM1.py:172-178 | Applying a batch of events in order keeps a well-formed panel well formed |
| `Sliders.MoveSelection` | PHYS7039SIM1.py:122-125 | Right selects the next channel, wrapping 3 to 0. Left selects the previous one, wrapping 0 to 3. Nothing else changes |
| `Sliders.MovesUndo` | PHYS7039SIM1.py:122-125 | Left undoes Right and Right undoes Left |
| `Sliders.AdjustAmount` | PHYS7039SIM1.py:130-140 | Up sets the selected amount to old + 0.1, or to 1.0 exactly when old + 0.1 exceeds 1.0, and switches the channel on. Down sets it to old - 0.1, or to 0.0 exactly when old - 0.1 is below 0.0, and leaves every flag as it was. The selection is unchanged |
| `Sliders.UpThenDown` | PHYS7039SIM1.py:130-140 | For an amount in [0, 0.9], Down restores the amount Up changed; the channel stays switched on |
| `Sliders.SpaceTwice` | PHYS7039SIM1.py:143-144 | Space flips only the selected flag and no amount, so two Spaces restore the panel |
| `Sliders.IgnoredEvents` | PHYS7039SIM1.py:118-119 | An event that is not a key press, or a key the station does not use, changes nothing |
| `Sliders.MovesKeepMix` | PHYS7039SIM1.py:122-125 | Moving the selection never changes the mixed colour |
| `Sliders.DownOnDisabledKeepsMix` | PHYS7039SIM1.py:137-140 | Down on a switched-off channel never changes the mixed colour |
| `Sliders.SpaceOnEmptyKeepsMix` | PHYS7039SIM1.py:143-144 | Space on a channel whose amount is zero never changes the mixed colour |
| `Sliders.ReachableMixInRange` | PHYS7039SIM1.py:30-43 | In every panel reachable from the start by any events, the mix is a valid RGB colour in [0, 255] |
| `Production.Produce` | PHYS7039SIM1.py:182-189 | A tick appends at most one product to the list and keeps the old products. It appends one exactly when now - lastProduction > 2000, strictly. The new product has the current colour and the timestamp becomes now. Otherwise nothing changes |
| `Production.RunAppendsAtMostOnePerTick` | PHYS7039SIM1.py:168-189 | A series of ticks only appends to the product list, at most one product per tick. Every new product has the colour of one of the ticks |
| `Production.QuietWithinInterval` | PHYS7039SIM1.py:161-163 | Ticks whose times all fall within 2000 ms after the last product make no product |
| `Production.SameInstantOnce` | PHYS7039SIM1.py:183-189 | Two ticks at the same instant make at most one product |
| `Factory.Station.constructor` | PHYS7039SIM1.py:161-162 | The station starts with the initial panel, no products and the timer at 0 |
| `Factory.Station.MixColor` | PHYS7039SIM1.py:76-107 | The two accumulating loops compute exactly `Mix` of the current arrays, and each component is in [0, 255] |
| `Factory.Station.HandleKey` | PHYS7039SIM1.py:109-144 | Updating the arrays and the index in place yields exactly the panel `Next` gives, and the station stays valid |
| `Factory.Station.Tick` | PHYS7039SIM1.py:182-189 | The product list and timestamp become exactly what `Produce` gives for the current mix |
| `Factory.Station.Cycle` | PHYS7039SIM1.py:172-189 | One pass of the main loop applies every event in order, then ticks the timer with the resulting mix |

## Left out

- Window setup, the frame clock, drawing, the preview swatch, the slider text and `Product.draw` (PHYS7039SIM1.py:7-11, 195-228) are presentation only.
- Event polling and the QUIT event that ends the loop (PHYS7039SIM1.py:168-178, 232-233) are I/O. Events reach `Cycle` and `HandleKey` as an abstract `Event` sequence.
- A product's position and rectangle (`random.randint` for its y coordinate) and its wall-clock timestamp (PHYS7039SIM1.py:152-153, 187) are not modelled. A product is its colour.
- The console message for each product (PHYS7039SIM1.py:192) is output only.
- Amounts use exact real arithmetic, not IEEE doubles. In the program ten Up presses give 0.9999999999999999, not 1.0. Three Up presses then three Down presses leave a tiny positive amount, so that channel can still dominate the mix. The model has neither effect.
- The repeated declarations of the base colours and slider dictionaries (PHYS7039SIM1.py:47-66) are the same as the first ones, so they are modelled once. The unused `PRODUCT_COLORS` (PHYS7039SIM1.py:16) is dropped.
- The lock/pause mode, the quality check and the event log are not in this code, so they are not modelled.
