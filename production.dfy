/**
 * The production timer of the station: whenever more than the production interval
 * has passed since the last product, the line emits a product carrying the current
 * mixed colour and restarts the interval.
 */
module Production {
  import opened Mixer

  /** Minimum time between two products, in milliseconds; a product needs strictly more. */
  const ProductionInterval: int := 2000

  /** The production line: the products made so far (each as its colour) and when the last was made. */
  datatype Line = Line(products: seq<RGB>, lastProduction: int)

  /** The line the station starts with: no products, timer at zero. */
  const Start: Line := Line([], 0)

  /** A timer tick at time now, while the mixer shows colour. */
  function Produce(l: Line, now: int, colour: RGB): (m: Line)
    ensures |l.products| <= |m.products| <= |l.products| + 1
    ensures m.products[..|l.products|] == l.products
    ensures |m.products| == |l.products| + 1 <==> now - l.lastProduction > ProductionInterval
    ensures |m.products| == |l.products| + 1 ==> m.products[|l.products|] == colour && m.lastProduction == now
    ensures |m.products| == |l.products| ==> m == l
  {
    if now - l.lastProduction > ProductionInterval then Line(l.products + [colour], now)
    else l
  }

  /** A tick: its time and the colour the mixer showed at that time. */
  datatype Moment = Moment(now: int, colour: RGB)

  /** The line after a series of ticks, in order. */
  function Run(l: Line, moments: seq<Moment>): Line
  {
    if moments == [] then l
    else
      var last := moments[|moments| - 1];
      Produce(Run(l, moments[..|moments| - 1]), last.now, last.colour)
  }

  /**
   * A series of ticks only appends to the products already made, at most one per
   * tick, and every new product carries the colour of one of the ticks.
   */
  lemma {:induction false} RunAppendsAtMostOnePerTick(l: Line, moments: seq<Moment>)
    ensures var m := Run(l, moments);
      |l.products| <= |m.products| <= |l.products| + |moments|
      && m.products[..|l.products|] == l.products
      && forall i :: |l.products| <= i < |m.products| ==>
           exists j :: 0 <= j < |moments| && moments[j].colour == m.products[i]
  {
    if moments != [] {
      var init := moments[..|moments| - 1];
      var last := moments[|moments| - 1];
      RunAppendsAtMostOnePerTick(l, init);
      var mid := Run(l, init);
      var m := Run(l, moments);
      assert m == Produce(mid, last.now, last.colour);
      forall i | |l.products| <= i < |m.products|
        ensures exists j :: 0 <= j < |moments| && moments[j].colour == m.products[i]
      {
        if i < |mid.products| {
          assert m.products[i] == mid.products[i];
          var j :| 0 <= j < |init| && init[j].colour == mid.products[i];
          assert moments[j] == init[j];
        } else {
          assert moments[|moments| - 1].colour == m.products[i];
        }
      }
    }
  }

  /** Ticks that all come within the interval after the last product make nothing. */
  lemma {:induction false} QuietWithinInterval(l: Line, moments: seq<Moment>)
    requires forall j :: 0 <= j < |moments| ==> moments[j].now <= l.lastProduction + ProductionInterval
    ensures Run(l, moments) == l
  {
    if moments != [] {
      QuietWithinInterval(l, moments[..|moments| - 1]);
    }
  }

  /** Two ticks at the same instant make at most one product. */
  lemma SameInstantOnce(l: Line, now: int, c: RGB, c': RGB)
    ensures Produce(Produce(l, now, c), now, c') == Produce(l, now, c)
  {
  }
}
