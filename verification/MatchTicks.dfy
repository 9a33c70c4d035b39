/** What one tick and one insert do, said of the shown prices and volumes: which side trades, how
    far the traded volume reaches into the levels, and at what price a new order trades or rests. */
module MatchTicks {
  import opened MatchBook
  import opened MatchInvariant

  // ---- Which side trades -------------------------------------------------------------------

  function Delta(prev: Tick, t: Tick): nat {
    (t.volume - prev.volume) % WORD
  }

  /** The money between two ticks, in the unit of the prices. */
  function Money(prev: Tick, t: Tick): nat {
    (t.turnover - prev.turnover) % WORD * 100000000
  }

  /** Without both sides before the tick, everything traded on the side that was there. */
  lemma EstimateOneSided(prev: Tick, t: Tick, size: nat)
    requires size > 0
    ensures prev.askVolume[0] == 0 && prev.bidVolume[0] == 0 ==> Estimate(prev, t, size) == Fills(0, 0)
    ensures prev.askVolume[0] != 0 && prev.bidVolume[0] == 0 ==> Estimate(prev, t, size) == Fills(0, Delta(prev, t))
    ensures prev.askVolume[0] == 0 && prev.bidVolume[0] != 0 ==> Estimate(prev, t, size) == Fills(Delta(prev, t), 0)
  {
  }

  predicate TwoSided(prev: Tick) {
    prev.askVolume[0] != 0 && prev.bidVolume[0] != 0
  }

  /** The money for everything traded is at least that at the ask price. */
  predicate AtAsk(prev: Tick, t: Tick, size: nat) {
    Money(prev, t) >= t.ask[0] * (Delta(prev, t) * size)
  }

  predicate AtBid(prev: Tick, t: Tick, size: nat) {
    !AtAsk(prev, t, size) && Money(prev, t) <= t.bid[0] * (Delta(prev, t) * size)
  }

  /** Asks at the ask price and bids at the bid price add up to the money, to within the spread of
      half a lot. */
  predicate MakesMoney(f: Fills, size: nat, money: nat, bid: nat, ask: nat) {
    var value := (f.ask * ask + f.bid * bid) * size; -(size * (ask - bid)) < 2 * (value - money) <= size * (ask - bid)
  }

  /** Money at or above the ask for everything: only asks traded. Otherwise at or below the bid: only
      bids. Strictly between, the volume is split so that it makes the money. */
  lemma EstimateTwoSided(prev: Tick, t: Tick, size: nat)
    requires size > 0 && TwoSided(prev) && Delta(prev, t) > 0
    ensures var f, delta := Estimate(prev, t, size), Delta(prev, t);
            if AtAsk(prev, t, size) then f == Fills(0, delta)
            else if AtBid(prev, t, size) then f == Fills(delta, 0)
            else f.ask + f.bid == delta && f.ask >= 0 && f.bid >= 0 && MakesMoney(f, size, Money(prev, t), t.bid[0], t.ask[0])
  {
    var delta, money, base := Delta(prev, t), Money(prev, t), Delta(prev, t) * size;
    var avg := AveragePrice((t.turnover - prev.turnover) % WORD, delta, size);
    var ask, bid := t.ask[0], t.bid[0];
    AverageOf(prev, t, size);
    PriceAgainst(avg, base, money, ask);
    PriceAgainst(avg, base, money, bid);
    hide AveragePrice, AskShare, WORD, MakesMoney;
    if bid * base < money < ask * base {
      SharesMakeMoney(delta, size, money, avg, bid, ask);
      EstimateSplits(prev, t, size);
    }
  }

  lemma AverageOf(prev: Tick, t: Tick, size: nat)
    requires size > 0 && Delta(prev, t) > 0
    ensures Delta(prev, t) * size > 0
    ensures AveragePrice((t.turnover - prev.turnover) % WORD, Delta(prev, t), size) * (Delta(prev, t) * size) as real == Money(prev, t) as real
  {
    hide WORD;
    var base := Delta(prev, t) * size;
    assert base > 0;
    var turnover := (t.turnover - prev.turnover) % WORD;
    assert (turnover * 100000000) as real == turnover as real * 100000000.0;
    Quotient(turnover as real * 100000000.0, base as real);
  }

  lemma Quotient(a: real, b: real)
    requires b > 0.0
    ensures a / b * b == a
  {
  }

  lemma PriceAgainst(avg: real, base: nat, money: nat, price: nat)
    requires base > 0 && avg * base as real == money as real
    ensures avg >= price as real <==> money >= price * base
    ensures avg <= price as real <==> money <= price * base
  {
    var b := base as real;
    assert (price * base) as real == price as real * b;
    assert (avg - price as real) * b == money as real - price as real * b;
  }

  lemma SharesMakeMoney(delta: nat, size: nat, money: nat, avg: real, bid: nat, ask: nat)
    requires size > 0 && delta > 0 && bid < ask && avg * (delta * size) as real == money as real
    requires bid as real < avg < ask as real
    ensures var asks := AskShare(delta, avg, bid as real, ask as real); MakesMoney(Fills(delta - asks, asks), size, money, bid, ask)
  {
    var asks, lot := AskShare(delta, avg, bid as real, ask as real), size * (ask - bid);
    var x := Share(delta, avg, bid as real, ask as real);
    hide Round, Share;
    SharePositive(delta, avg, bid as real, ask as real);
    RoundIsNear(x);
    ShareTimesLot(delta, size, money, avg, bid, ask);
    ValueOf(asks, delta, size, bid, ask);
    LotPositive(size, ask - bid);
    InUnits(x, asks, bid * (delta * size), money, lot);
  }

  lemma InUnits(x: real, n: int, rest: int, money: int, lot: int)
    requires x - 0.5 < n as real <= x + 0.5 && lot > 0
    requires x * lot as real == money as real - rest as real
    ensures -lot < 2 * (n * lot + rest - money) <= lot
  {
    var paid, l := n * lot, lot as real;
    assert paid as real == n as real * l;
    var off := n as real - x;
    assert off * l == (paid + rest - money) as real;
    NearTimes(off, l, (paid + rest - money) as real);
  }

  lemma NearTimes(off: real, lot: real, result: real)
    requires -0.5 < off <= 0.5 && lot > 0.0 && off * lot == result
    ensures -lot < 2.0 * result <= lot
  {
    ProductPositive(off + 0.5, lot);
    if off < 0.5 { ProductPositive(0.5 - off, lot); } else { assert off == 0.5; }
    assert (off + 0.5) * lot == result + 0.5 * lot;
    assert (0.5 - off) * lot == 0.5 * lot - result;
  }

  lemma LotPositive(a: int, b: int)
    requires a > 0 && b > 0
    ensures a * b > 0
  {
  }

  lemma SharePositive(delta: nat, avg: real, bid: real, ask: real)
    requires delta > 0 && bid < avg < ask
    ensures Share(delta, avg, bid, ask) >= 0.0
  {
    var q := Share(delta, avg, bid, ask);
    assert q * (ask - bid) == delta as real * (avg - bid);
    ProductPositive(delta as real, avg - bid);
    assert q < 0.0 ==> q * (ask - bid) < 0.0;
  }

  lemma ValueOf(asks: int, delta: int, size: int, bid: int, ask: int)
    ensures (asks * ask + (delta - asks) * bid) * size == asks * (size * (ask - bid)) + bid * (delta * size)
  {
    assert asks * ask + (delta - asks) * bid == asks * (ask - bid) + delta * bid;
  }

  lemma RoundIsNear(x: real)
    requires x >= 0.0
    ensures x - 0.5 < Round(x) as real <= x + 0.5
  {
  }

  lemma ShareTimesLot(delta: nat, size: nat, money: nat, avg: real, bid: nat, ask: nat)
    requires bid < ask && avg * (delta * size) as real == money as real
    ensures Share(delta, avg, bid as real, ask as real) * (size * (ask - bid)) as real == money as real - (bid * (delta * size)) as real
  {
    var d, s, b, w := delta as real, size as real, bid as real, ask as real - bid as real;
    var x := Share(delta, avg, b, ask as real);
    assert x * w == d * (avg - b) by { Quotient(d * (avg - b), w); }
    assert (size * (ask - bid)) as real == s * w;
    assert (delta * size) as real == d * s;
    assert (bid * (delta * size)) as real == b * (d * s);
    hide Share;
    Regroup(x, w, s, d, avg, b);
  }

  lemma Regroup(x: real, w: real, s: real, d: real, a: real, b: real)
    requires x * w == d * (a - b)
    ensures x * (s * w) == a * (d * s) - b * (d * s)
  {
    assert x * (s * w) == (x * w) * s;
    assert (d * (a - b)) * s == (a - b) * (d * s);
  }

  lemma ProductPositive(a: real, b: real)
    requires a > 0.0 && b > 0.0
    ensures a * b > 0.0
  {
  }

  // ---- One level ---------------------------------------------------------------------------

  /** The key of a level is its price in units of 1e-4, where a price short of a unit by at most
      5e-7 counts as that unit; so keys are ordered as prices are. */
  lemma KeyOfPrice(p: nat, q: nat)
    ensures 10000 * U64Price(p) <= p + 50 < 10000 * (U64Price(p) + 1)
    ensures p <= q ==> U64Price(p) <= U64Price(q)
    ensures q >= p + 10000 ==> U64Price(p) < U64Price(q)
  {
  }

  /** Of the first i orders, how many have a place in the queue that the volume did not reach. */
  function Staying(list: seq<Inner>, filled: int, i: nat): (n: nat)
    requires i <= |list|
    ensures n <= i
  {
    if i == 0 then 0 else Staying(list, filled, i - 1) + if list[i - 1].queue >= filled then 1 else 0
  }

  lemma {:induction false} StayingOfTail(list: seq<Inner>, filled: int, i: nat)
    requires 0 < i <= |list|
    ensures Staying(list, filled, i) == (if list[0].queue >= filled then 1 else 0) + Staying(list[1..], filled, i - 1)
  {
    if i > 1 { StayingOfTail(list, filled, i - 1); }
  }

  /** The orders that the volume did not reach stay, in order, each moved up by the whole volume;
      and nobody else does. */
  lemma {:induction false} StayMovedUp(list: seq<Inner>, filled: int, i: nat)
    requires i < |list|
    ensures |Kept(list, filled)| == Staying(list, filled, |list|)
    ensures list[i].queue >= filled ==>
              Staying(list, filled, i) < |Kept(list, filled)|
              && Kept(list, filled)[Staying(list, filled, i)] == Inner(list[i].orig, list[i].queue - filled)
  {
    var rest := list[1..];
    StayingOfTail(list, filled, |list|);
    if rest != [] { StayMovedUp(rest, filled, if i > 0 then i - 1 else 0); }
    if i > 0 { StayingOfTail(list, filled, i); }
  }

  // ---- How far the volume reaches ------------------------------------------------------------

  /** What is shown at the levels before this one. */
  function ShownBefore(volumes: Volumes, level: nat): int
    requires level <= MAX_LEVEL
  {
    if level == 0 then 0 else ShownBefore(volumes, level - 1) + volumes[level - 1]
  }

  predicate NoneNegative(volumes: Volumes) {
    forall i :: 0 <= i < MAX_LEVEL ==> volumes[i] >= 0
  }

  /** The price is shown at this level, and at no other. */
  predicate ShownAt(prices: Prices, volumes: Volumes, price: nat, level: nat) {
    && level < MAX_LEVEL && volumes[level] != 0 && U64Price(prices[level]) == price
    && forall j :: 0 <= j < MAX_LEVEL && j != level && volumes[j] != 0 ==> U64Price(prices[j]) != price
  }

  predicate NotShown(prices: Prices, volumes: Volumes, price: nat) {
    forall j :: 0 <= j < MAX_LEVEL && volumes[j] != 0 ==> U64Price(prices[j]) != price
  }

  lemma {:induction false} ShownGrows(volumes: Volumes, i: nat, j: nat)
    requires NoneNegative(volumes) && i <= j <= MAX_LEVEL
    ensures ShownBefore(volumes, i) <= ShownBefore(volumes, j)
    decreases j
  {
    if i < j { ShownGrows(volumes, i, j - 1); }
  }

  lemma ScannedLevel(levels: Levels, k: Key, filled: int, l: Key)
    ensures LevelOf(Scanned(levels, k, filled), l) == if l == k then Kept(LevelOf(levels, k), filled) else LevelOf(levels, l)
  {
  }

  lemma {:induction false} ScanPassesBy(levels: Levels, ticker: nat, isBid: bool, prices: Prices, volumes: Volumes,
                                        filled: int, from: nat, k: Key)
    requires from <= MAX_LEVEL
    requires k.ticker != ticker || k.isBid != isBid || forall j :: from <= j < MAX_LEVEL && volumes[j] != 0 ==> U64Price(prices[j]) != k.price
    ensures LevelOf(ScannedFrom(levels, ticker, isBid, prices, volumes, filled, from), k) == LevelOf(levels, k)
    decreases MAX_LEVEL - from
  {
    hide U64Price, Scanned, LevelOf;
    if from < MAX_LEVEL {
      var here := Key(ticker, isBid, U64Price(prices[from]));
      ScannedLevel(levels, here, filled, k);
      if volumes[from] == 0 {
        ScanPassesBy(levels, ticker, isBid, prices, volumes, filled, from + 1, k);
      } else if filled - volumes[from] > 0 {
        ScanPassesBy(Scanned(levels, here, filled), ticker, isBid, prices, volumes, filled - volumes[from], from + 1, k);
      }
    }
  }

  /** The traded volume goes through the levels as they are shown: a level is reached by what the
      levels before it have not used up, and not at all when they have used up everything. */
  lemma {:induction false} ScanReaches(levels: Levels, ticker: nat, isBid: bool, prices: Prices, volumes: Volumes,
                                       filled: int, from: nat, price: nat, level: nat)
    requires NoneNegative(volumes) && ShownAt(prices, volumes, price, level) && from <= level && filled > 0
    ensures var k, left := Key(ticker, isBid, price), filled - (ShownBefore(volumes, level) - ShownBefore(volumes, from));
            LevelOf(ScannedFrom(levels, ticker, isBid, prices, volumes, filled, from), k) ==
              if left > 0 then Kept(LevelOf(levels, k), left) else LevelOf(levels, k)
    decreases level - from
  {
    hide U64Price, Scanned, LevelOf, Kept;
    var k, here := Key(ticker, isBid, price), Key(ticker, isBid, U64Price(prices[from]));
    ScannedLevel(levels, here, filled, k);
    ShownGrows(volumes, from + 1, if from < level then level else level + 1);
    if from == level {
      if filled - volumes[from] > 0 {
        ScanPassesBy(Scanned(levels, here, filled), ticker, isBid, prices, volumes, filled - volumes[from], from + 1, k);
      }
    } else if volumes[from] == 0 {
      ScanReaches(levels, ticker, isBid, prices, volumes, filled, from + 1, price, level);
    } else if filled - volumes[from] > 0 {
      ScanReaches(Scanned(levels, here, filled), ticker, isBid, prices, volumes, filled - volumes[from], from + 1, price, level);
    }
  }

  // ---- A whole tick ------------------------------------------------------------------------

  lemma SweptLevel(levels: Levels, ticker: nat, isBid: bool, bound: int, k: Key)
    ensures LevelOf(Swept(levels, ticker, isBid, bound), k) == if Reached(k, ticker, isBid, bound) then [] else LevelOf(levels, k)
  {
  }

  /** Whether the other side's best shown price has reached a resting price. */
  predicate CrossedBy(t: Tick, k: Key) {
    if k.isBid then t.askVolume[0] > 0 && k.price >= U64Price(t.ask[0]) else t.bidVolume[0] > 0 && k.price <= U64Price(t.bid[0])
  }

  lemma UncrossedLevel(levels: Levels, ticker: nat, t: Tick, k: Key)
    requires k.ticker == ticker
    ensures LevelOf(Uncrossed(levels, ticker, t), k) == if CrossedBy(t, k) then [] else LevelOf(levels, k)
  {
    hide U64Price, Swept, LevelOf;
    SweptLevel(levels, ticker, false, U64Price(t.bid[0]), k);
    var levels' := if t.bidVolume[0] > 0 then Swept(levels, ticker, false, U64Price(t.bid[0])) else levels;
    SweptLevel(levels', ticker, true, U64Price(t.ask[0]), k);
  }

  /** What a level of the traded side is: unless it is already gone, it is reached by what the
      better prices left over. */
  ghost predicate ReachedLevel(prices: Prices, volumes: Volumes, price: nat, filled: int, before: seq<Inner>, after: seq<Inner>) {
    && (NotShown(prices, volumes, price) ==> after == before)
    && forall i :: ShownAt(prices, volumes, price, i) ==>
         var left := filled - ShownBefore(volumes, i); after == if left > 0 then Kept(before, left) else before
  }

  lemma ScannedIsReached(levels: Levels, ticker: nat, isBid: bool, prices: Prices, volumes: Volumes, filled: int, price: nat)
    requires NoneNegative(volumes) && filled > 0
    ensures var k := Key(ticker, isBid, price);
            ReachedLevel(prices, volumes, price, filled, LevelOf(levels, k),
                         LevelOf(ScannedFrom(levels, ticker, isBid, prices, volumes, filled, 0), k))
  {
    hide U64Price, ScannedFrom, Kept, LevelOf;
    var k := Key(ticker, isBid, price);
    if NotShown(prices, volumes, price) { ScanPassesBy(levels, ticker, isBid, prices, volumes, filled, 0, k); }
    forall i | ShownAt(prices, volumes, price, i)
      ensures var left := filled - ShownBefore(volumes, i);
              LevelOf(ScannedFrom(levels, ticker, isBid, prices, volumes, filled, 0), k) ==
                if left > 0 then Kept(LevelOf(levels, k), left) else LevelOf(levels, k)
    {
      ScanReaches(levels, ticker, isBid, prices, volumes, filled, 0, price, i);
    }
  }

  lemma SweptStaysGone(levels: Levels, ticker: nat, isBid: bool, bound: int, prices: Prices, volumes: Volumes, filled: int, k: Key)
    requires Reached(k, ticker, isBid, bound)
    ensures LevelOf(ScannedFrom(Swept(levels, ticker, isBid, bound), ticker, isBid, prices, volumes, filled, 0), k) == []
  {
    hide ScannedFrom;
    ScanOnlyTakesOut(Swept(levels, ticker, isBid, bound), ticker, isBid, prices, volumes, filled, 0);
  }

  lemma BidsFilledLevel(levels: Levels, ticker: nat, t: Tick, filled: int, k: Key)
    requires k.ticker == ticker && NoneNegative(t.bidVolume)
    ensures var before, after := LevelOf(levels, k), LevelOf(BidsFilled(levels, ticker, t, filled), k);
            if !k.isBid || filled <= 0 then after == before
            else if t.bidVolume[0] > 0 && k.price > U64Price(t.bid[0]) then after == []
            else ReachedLevel(t.bid, t.bidVolume, k.price, filled, before, after)
  {
    hide U64Price, ScannedFrom, Swept, LevelOf, ReachedLevel;
    if filled > 0 {
      var bound := U64Price(t.bid[0]) + 1;
      var l0 := if t.bidVolume[0] > 0 then Swept(levels, ticker, true, bound) else levels;
      SweptLevel(levels, ticker, true, bound, k);
      if k.isBid { ScannedIsReached(l0, ticker, true, t.bid, t.bidVolume, filled, k.price); }
      if Reached(k, ticker, true, bound) { SweptStaysGone(levels, ticker, true, bound, t.bid, t.bidVolume, filled, k); }
      if !k.isBid { ScanPassesBy(l0, ticker, true, t.bid, t.bidVolume, filled, 0, k); }
    }
  }

  /** The same for asks; but the level is gone when the price is below the shown bid. */
  lemma AsksFilledLevel(levels: Levels, ticker: nat, t: Tick, filled: int, k: Key)
    requires k.ticker == ticker && NoneNegative(t.askVolume)
    ensures var before, after := LevelOf(levels, k), LevelOf(AsksFilled(levels, ticker, t, filled), k);
            if k.isBid || filled <= 0 then after == before
            else if t.askVolume[0] > 0 && k.price < U64Price(t.bid[0]) then after == []
            else ReachedLevel(t.ask, t.askVolume, k.price, filled, before, after)
  {
    hide U64Price, ScannedFrom, Swept, LevelOf, ReachedLevel;
    if filled > 0 {
      var bound := U64Price(t.bid[0]) - 1;
      var l0 := if t.askVolume[0] > 0 then Swept(levels, ticker, false, bound) else levels;
      SweptLevel(levels, ticker, false, bound, k);
      if !k.isBid { ScannedIsReached(l0, ticker, false, t.ask, t.askVolume, filled, k.price); }
      if Reached(k, ticker, false, bound) { SweptStaysGone(levels, ticker, false, bound, t.ask, t.askVolume, filled, k); }
      if k.isBid { ScanPassesBy(l0, ticker, false, t.ask, t.askVolume, filled, 0, k); }
    }
  }

  /** What the orders at one price are after a tick. Those that a shown price of the other side has
      reached are gone. Of the others, those on a side without traded volume are as they were; with
      such volume, bids above the shown bid (asks below it) are gone, those at a shown price are
      reached by what the better prices left over, and those at other prices are as they were. */
  lemma LevelAfterTick(levels: Levels, prev: Tick, t: Tick, size: nat, k: Key)
    requires size > 0 && NoneNegative(t.bidVolume) && NoneNegative(t.askVolume)
    ensures var fills := Estimate(prev, t, size);
            var before, after := LevelOf(levels, k), LevelOf(TickLevels(levels, k.ticker, prev, t, size), k);
            if CrossedBy(t, k) then after == []
            else if k.isBid then
              if fills.bid <= 0 then after == before
              else if t.bidVolume[0] > 0 && k.price > U64Price(t.bid[0]) then after == []
              else ReachedLevel(t.bid, t.bidVolume, k.price, fills.bid, before, after)
            else
              if fills.ask <= 0 then after == before
              else if t.askVolume[0] > 0 && k.price < U64Price(t.bid[0]) then after == []
              else ReachedLevel(t.ask, t.askVolume, k.price, fills.ask, before, after)
  {
    hide Estimate, U64Price, LevelOf, ReachedLevel, BidsFilled, AsksFilled, Uncrossed, CrossedBy;
    var fills := Estimate(prev, t, size);
    var l1 := BidsFilled(levels, k.ticker, t, fills.bid);
    var l2 := AsksFilled(l1, k.ticker, t, fills.ask);
    BidsFilledLevel(levels, k.ticker, t, fills.bid, k);
    AsksFilledLevel(l1, k.ticker, t, fills.ask, k);
    UncrossedLevel(l2, k.ticker, t, k);
  }

  /** A tick that traded at the ask or above takes out no bid that the ask has not reached, and moves
      none; one that traded at the bid or below, no such ask. */
  lemma TradedAtOneSide(levels: Levels, prev: Tick, t: Tick, size: nat, k: Key)
    requires size > 0 && TwoSided(prev) && Delta(prev, t) > 0 && !CrossedBy(t, k)
    requires if k.isBid then AtAsk(prev, t, size) else AtBid(prev, t, size)
    ensures LevelOf(TickLevels(levels, k.ticker, prev, t, size), k) == LevelOf(levels, k)
  {
    hide Estimate, U64Price, LevelOf, BidsFilled, AsksFilled, Uncrossed, CrossedBy, AtAsk, Money, Delta, WORD;
    EstimateTwoSided(prev, t, size);
    var fills := Estimate(prev, t, size);
    var l1 := BidsFilled(levels, k.ticker, t, fills.bid);
    var l2 := AsksFilled(l1, k.ticker, t, fills.ask);
    OtherSideStays(levels, t, fills.bid, fills.ask, k);
    UncrossedLevel(l2, k.ticker, t, k);
  }

  lemma OtherSideStays(levels: Levels, t: Tick, bidFilled: int, askFilled: int, k: Key)
    requires if k.isBid then bidFilled <= 0 else askFilled <= 0
    ensures LevelOf(AsksFilled(BidsFilled(levels, k.ticker, t, bidFilled), k.ticker, t, askFilled), k) == LevelOf(levels, k)
  {
    hide U64Price, ScannedFrom, Swept, LevelOf;
    if k.isBid && askFilled > 0 {
      SweptLevel(levels, k.ticker, false, U64Price(t.bid[0]) - 1, k);
      var l0 := if t.askVolume[0] > 0 then Swept(levels, k.ticker, false, U64Price(t.bid[0]) - 1) else levels;
      ScanPassesBy(l0, k.ticker, false, t.ask, t.askVolume, askFilled, 0, k);
    } else if !k.isBid && bidFilled > 0 {
      SweptLevel(levels, k.ticker, true, U64Price(t.bid[0]) + 1, k);
      var l0 := if t.bidVolume[0] > 0 then Swept(levels, k.ticker, true, U64Price(t.bid[0]) + 1) else levels;
      ScanPassesBy(l0, k.ticker, true, t.bid, t.bidVolume, bidFilled, 0, k);
    }
  }

  /** The same of all levels of a ticker. */
  ghost predicate OtherSideKept(levels: Levels, prev: Tick, t: Tick, size: nat, ticker: nat, levels': Levels) {
    forall k: Key :: k.ticker == ticker && TwoSided(prev) && !CrossedBy(t, k) && (if k.isBid then AtAsk(prev, t, size) else AtBid(prev, t, size)) ==>
      LevelOf(levels', k) == LevelOf(levels, k)
  }

  lemma SideKept(levels: Levels, prev: Tick, t: Tick, size: nat, ticker: nat)
    requires size > 0 && Delta(prev, t) > 0
    ensures OtherSideKept(levels, prev, t, size, ticker, TickLevels(levels, ticker, prev, t, size))
  {
    hide TickLevels, LevelOf, CrossedBy, AtAsk, AtBid;
    forall k: Key | k.ticker == ticker && TwoSided(prev) && !CrossedBy(t, k) && (if k.isBid then AtAsk(prev, t, size) else AtBid(prev, t, size))
      ensures LevelOf(TickLevels(levels, ticker, prev, t, size), k) == LevelOf(levels, k)
    {
      TradedAtOneSide(levels, prev, t, size, k);
    }
  }

  // ---- Inserting ---------------------------------------------------------------------------

  predicate Near(a: nat, b: nat) {
    -1000 <= a - b <= 1000
  }

  /** The volume ahead of a new order: what is shown at the first level near its price, or nothing. */
  predicate IsQueuePlace(prices: Prices, volumes: Volumes, price: nat, queue: int) {
    if forall j :: 0 <= j < MAX_LEVEL ==> !Near(prices[j], price) then queue == 0
    else exists i :: 0 <= i < MAX_LEVEL && Near(prices[i], price) && queue == volumes[i] && forall j :: 0 <= j < i ==> !Near(prices[j], price)
  }

  lemma {:induction false} QueueIsShown(prices: Prices, volumes: Volumes, price: nat, level: nat)
    requires level <= MAX_LEVEL && forall j :: 0 <= j < level ==> !Near(prices[j], price)
    ensures IsQueuePlace(prices, volumes, price, QueueAt(prices, volumes, price, level))
    decreases MAX_LEVEL - level
  {
    if level < MAX_LEVEL && !IsEqual(prices[level], price) { QueueIsShown(prices, volumes, price, level + 1); }
  }

  function OppositePrice(t: Tick, o: Order): nat {
    if o.direction == Buy then t.ask[0] else t.bid[0]
  }

  function OppositeVolume(t: Tick, o: Order): int {
    if o.direction == Buy then t.askVolume[0] else t.bidVolume[0]
  }

  function OwnPrice(t: Tick, o: Order): nat {
    if o.direction == Buy then t.bid[0] else t.ask[0]
  }

  function OwnVolume(t: Tick, o: Order): int {
    if o.direction == Buy then t.bidVolume[0] else t.askVolume[0]
  }

  predicate WithinLimit(o: Order, price: nat) {
    if o.direction == Buy then price <= o.price else price >= o.price
  }

  predicate Limited(o: Order) {
    o.kind == Limit || o.kind == Fak || o.kind == Fok
  }

  predicate TwoWay(o: Order) {
    o.direction == Buy || o.direction == Sell
  }

  /** An order trades when it arrives exactly if it is a market order with volume shown against it,
      or a limited one whose limit that price keeps. It trades at the price shown against it, in
      full, and nothing rests. */
  lemma InsertTradesIff(e: Engine, o: Order)
    requires TwoWay(o) && o.kind != OtherType
    ensures var t, e' := TickOf(e, o.ticker), Inserted(e, o);
            && |e'.reports| == |e.reports| + 1 && e.reports <= e'.reports
            && var r := e'.reports[|e.reports|];
               && r.order == o
               && (r.Traded? <==>
                     || (o.kind == Market && OppositeVolume(t, o) != 0)
                     || (Limited(o) && OppositeVolume(t, o) > 0 && WithinLimit(o, OppositePrice(t, o))))
               && (r.Traded? ==> r.price == OppositePrice(t, o) && r.volume == o.volume && e'.levels == e.levels && e'.index == e.index)
               && (r.Traded? && o.kind != Market ==> WithinLimit(o, r.price))
  {
    hide U64Price, QueueAt, Rest;
    RestSaysNothing(e, o);
  }

  lemma RestSaysNothing(e: Engine, o: Order)
    ensures forall k, i :: Rest(Placed(e, o), k, i).reports == e.reports
  {
  }

  /** An order that is accepted rests behind the orders at its price: a limit order at its own
      price, behind the volume shown there; a best order at the first price of its own side, behind
      all that is shown there. No other order is changed. */
  lemma InsertRests(e: Engine, o: Order)
    requires TwoWay(o) && o.kind != OtherType && |Inserted(e, o).reports| == |e.reports| + 1
    ensures var t, e' := TickOf(e, o.ticker), Inserted(e, o);
            if e'.reports[|e.reports|].Accepted? then
              && (o.kind == Limit || o.kind == Best)
              && var price := if o.kind == Limit then o.price else OwnPrice(t, o);
                 var k := Key(o.ticker, o.direction == Buy, U64Price(price));
                 && (forall l :: l != k ==> LevelOf(e'.levels, l) == LevelOf(e.levels, l))
                 && |LevelOf(e'.levels, k)| == |LevelOf(e.levels, k)| + 1 && LevelOf(e.levels, k) <= LevelOf(e'.levels, k)
                 && var inner := LevelOf(e'.levels, k)[|LevelOf(e.levels, k)|];
                    && inner.orig == o.(price := price)
                    && if o.kind == Best then OwnVolume(t, o) != 0 && inner.queue == OwnVolume(t, o)
                       else if o.direction == Buy then IsQueuePlace(t.bid, t.bidVolume, price, inner.queue)
                       else IsQueuePlace(t.ask, t.askVolume, price, inner.queue)
            else e'.levels == e.levels
  {
    hide U64Price, QueueAt, IsQueuePlace;
    var t := TickOf(e, o.ticker);
    QueueIsShown(t.bid, t.bidVolume, o.price, 0);
    QueueIsShown(t.ask, t.askVolume, o.price, 0);
  }

  /** Every other order is finished without a trade, and says why. */
  lemma InsertEnds(e: Engine, o: Order)
    requires TwoWay(o) && o.kind != OtherType && |Inserted(e, o).reports| == |e.reports| + 1
    ensures var t, r := TickOf(e, o.ticker), Inserted(e, o).reports[|e.reports|];
            && (r.Rejected? <==> o.kind == Best && OwnVolume(t, o) == 0)
            && (r.Canceled? <==> !r.Traded? && o.kind in {Market, Fak, Fok})
            && (r.Canceled? ==> r.volume == o.volume)
  {
    hide U64Price, QueueAt, Rest;
    RestSaysNothing(e, o);
  }
}
