/** Order-book liquidity inside a price band around the mid price
    (`depth_usd_within_band` in signal_engine.py). */
module Book {

  /** One resting order-book level: its price and the quantity resting there. */
  datatype Level = Level(price: real, qty: real)

  /** Bids are walked from the best (highest) price downwards, asks from the
      best (lowest) price upwards. */
  datatype BookSide = Bids | Asks

  /** Quote-currency notional of one level. */
  function Notional(l: Level): real {
    l.price * l.qty
  }

  /** Reference sum: the notional of every level of `levels`. */
  function SumNotional(levels: seq<Level>): real {
    if |levels| == 0 then 0.0
    else SumNotional(levels[..|levels| - 1]) + Notional(levels[|levels| - 1])
  }

  /** The band edge that a side is checked against: `lo = mid*(1-band)` for
      bids, `hi = mid*(1+band)` for asks. */
  function Bound(side: BookSide, mid: real, bandPct: real): real {
    match side
    case Bids => mid * (1.0 - bandPct)
    case Asks => mid * (1.0 + bandPct)
  }

  /** A level is inside the band unless the loop's `break` test fires on it:
      `p < lo` for bids, `p > hi` for asks. */
  predicate InBand(side: BookSide, price: real, bound: real) {
    match side
    case Bids => !(price < bound)
    case Asks => !(price > bound)
  }

  /** Length of the longest prefix of `levels` whose every level is in the band. */
  function InBandPrefix(levels: seq<Level>, side: BookSide, bound: real): (k: nat)
    ensures k <= |levels|
    ensures forall j :: 0 <= j < k ==> InBand(side, levels[j].price, bound)
    ensures k < |levels| ==> !InBand(side, levels[k].price, bound)
  {
    if |levels| == 0 || !InBand(side, levels[0].price, bound) then 0
    else 1 + InBandPrefix(levels[1..], side, bound)
  }

  /** Extending a prefix by one level adds that level's notional. */
  lemma SumNotionalStep(levels: seq<Level>, i: nat)
    requires i < |levels|
    ensures SumNotional(levels[..i + 1]) == SumNotional(levels[..i]) + Notional(levels[i])
  {
    assert levels[..i + 1][..i] == levels[..i];
  }

  /** The liquidity of one side: the notional of the longest in-band prefix.
      Levels after the first out-of-band level are never counted. */
  function SideUsd(levels: seq<Level>, side: BookSide, bound: real): (usd: real)
    ensures |levels| == 0 ==> usd == 0.0
    ensures (forall j :: 0 <= j < |levels| ==> InBand(side, levels[j].price, bound)) ==>
              usd == SumNotional(levels)
  {
    var k := InBandPrefix(levels, side, bound);
    assert k == |levels| ==> levels[..k] == levels;
    SumNotional(levels[..k])
  }

  /** The in-band prefix is determined by its two defining properties. */
  lemma PrefixDetermined(levels: seq<Level>, side: BookSide, bound: real, k: nat)
    requires k <= |levels|
    requires forall j :: 0 <= j < k ==> InBand(side, levels[j].price, bound)
    requires k < |levels| ==> !InBand(side, levels[k].price, bound)
    ensures InBandPrefix(levels, side, bound) == k
  {
  }

  /** Stop, do not skip: once level `j` is outside the band, nothing from `j`
      on contributes, even a later level that re-enters the band. */
  lemma StopsAtFirstOutOfBand(levels: seq<Level>, side: BookSide, bound: real, j: nat, rest: seq<Level>)
    requires j < |levels|
    requires !InBand(side, levels[j].price, bound)
    ensures InBandPrefix(levels, side, bound) <= j
    ensures SideUsd(levels[..j + 1] + rest, side, bound) == SideUsd(levels[..j], side, bound)
  {
    var longer := levels[..j + 1] + rest;
    assert longer[j] == levels[j];
    var q := InBandPrefix(levels[..j], side, bound);
    PrefixDetermined(longer, side, bound, q);
    assert longer[..q] == levels[..j][..q];
  }

  /** `depth_usd_within_band`: walks each side from its best level, adding
      `price*qty` and breaking at the first level outside the band. */
  method DepthUsdWithinBand(bids: seq<Level>, asks: seq<Level>, mid: real, bandPct: real)
    returns (bidUsd: real, askUsd: real)
    ensures bidUsd == SideUsd(bids, Bids, Bound(Bids, mid, bandPct))
    ensures askUsd == SideUsd(asks, Asks, Bound(Asks, mid, bandPct))
  {
    var lo := mid * (1.0 - bandPct);
    var hi := mid * (1.0 + bandPct);

    bidUsd := 0.0;
    var i := 0;
    while i < |bids|
      invariant i <= |bids|
      invariant forall j :: 0 <= j < i ==> InBand(Bids, bids[j].price, lo)
      invariant bidUsd == SumNotional(bids[..i])
    {
      if bids[i].price < lo {
        break;
      }
      SumNotionalStep(bids, i);
      bidUsd := bidUsd + bids[i].price * bids[i].qty;
      i := i + 1;
    }
    PrefixDetermined(bids, Bids, lo, i);

    askUsd := 0.0;
    var k := 0;
    while k < |asks|
      invariant k <= |asks|
      invariant forall j :: 0 <= j < k ==> InBand(Asks, asks[j].price, hi)
      invariant askUsd == SumNotional(asks[..k])
    {
      if asks[k].price > hi {
        break;
      }
      SumNotionalStep(asks, k);
      askUsd := askUsd + asks[k].price * asks[k].qty;
      k := k + 1;
    }
    PrefixDetermined(asks, Asks, hi, k);
  }

  /** A worked book: mid 100000, band 1% (99000..101000); both bid levels and
      the one ask level lie inside the band. */
  lemma WorkedBook()
    ensures SideUsd([Level(99900.0, 1.0), Level(99800.0, 2.0)], Bids, Bound(Bids, 100000.0, 0.01)) == 299500.0
    ensures SideUsd([Level(100100.0, 1.0)], Asks, Bound(Asks, 100000.0, 0.01)) == 100100.0
  {
    var bids := [Level(99900.0, 1.0), Level(99800.0, 2.0)];
    assert bids[..|bids| - 1] == [Level(99900.0, 1.0)];
    assert [Level(99900.0, 1.0)][..0] == [];
  }
}
