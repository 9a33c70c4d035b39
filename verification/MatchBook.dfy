/** The backtest match engine, on values: resting orders by ticker, side and price, the index from
    order id to price, and what is reported. Prices are whole multiples of 1e-8. */
module MatchBook {

  const MAX_LEVEL: nat := 5
  const WORD: nat := 0x1_0000_0000_0000_0000

  datatype Direction = Buy | Sell | UnknownDirection
  datatype OrderType = Market | Limit | Best | Fak | Fok | OtherType

  datatype Order = Order(id: nat, ticker: nat, direction: Direction, kind: OrderType, volume: int, price: nat)

  // A resting order, and the volume that was ahead of it when it arrived
  datatype Inner = Inner(orig: Order, queue: int)

  datatype Report =
    | Accepted(order: Order)
    | Rejected(order: Order)
    | Traded(order: Order, volume: int, price: nat)
    | Canceled(order: Order, volume: int)

  type Prices = p: seq<nat> | |p| == MAX_LEVEL witness [0, 0, 0, 0, 0]
  type Volumes = v: seq<int> | |v| == MAX_LEVEL witness [0, 0, 0, 0, 0]

  type Word = n: nat | n < WORD

  datatype Tick = Tick(volume: Word, turnover: Word, ask: Prices, bid: Prices, askVolume: Volumes, bidVolume: Volumes)

  const NO_TICK := Tick(0, 0, [0, 0, 0, 0, 0], [0, 0, 0, 0, 0], [0, 0, 0, 0, 0], [0, 0, 0, 0, 0])

  datatype Key = Key(ticker: nat, isBid: bool, price: nat)

  type Levels = map<Key, seq<Inner>>

  // `placed` records the volume of every order that was inserted, `withdrawn` the ids of resting
  // orders that were canceled; no step reads them.
  datatype Engine = Engine(levels: Levels, index: map<nat, nat>, ticks: map<nat, Tick>, reports: seq<Report>,
                           placed: map<nat, int>, withdrawn: set<nat>)

  function U64Price(p: nat): nat {
    (p + 50) / 10000
  }

  predicate IsEqual(a: nat, b: nat) {
    b - 1000 <= a && a <= b + 1000
  }

  function TickOf(e: Engine, ticker: nat): Tick {
    if ticker in e.ticks then e.ticks[ticker] else NO_TICK
  }

  function Say(e: Engine, r: Report): Engine {
    e.(reports := e.reports + [r])
  }

  // ---- Inserting --------------------------------------------------------------------------

  function LevelOf(levels: Levels, k: Key): seq<Inner> {
    if k in levels then levels[k] else []
  }

  /** emplace_back into the level, and emplace into the index. */
  function Rest(e: Engine, k: Key, o: Inner): Engine {
    e.(levels := e.levels[k := LevelOf(e.levels, k) + [o]],
       index := if o.orig.id in e.index then e.index else e.index[o.orig.id := k.price])
  }

  /** The volume shown at the first level that equals the price. */
  function QueueAt(prices: Prices, volumes: Volumes, price: nat, level: nat): int
    decreases MAX_LEVEL - level
  {
    if level >= MAX_LEVEL then 0
    else if IsEqual(prices[level], price) then volumes[level]
    else QueueAt(prices, volumes, price, level + 1)
  }

  predicate Crosses(t: Tick, o: Order) {
    || (o.direction == Buy && t.askVolume[0] > 0 && o.price >= t.ask[0])
    || (o.direction == Sell && t.bidVolume[0] > 0 && o.price <= t.bid[0])
  }

  function TradeNow(e: Engine, t: Tick, o: Order): Engine {
    Say(e, Traded(o, o.volume, if o.direction == Buy then t.ask[0] else t.bid[0]))
  }

  function RestLimit(e: Engine, t: Tick, o: Order): Engine {
    var isBid := o.direction == Buy;
    var queue := if isBid then QueueAt(t.bid, t.bidVolume, o.price, 0) else QueueAt(t.ask, t.askVolume, o.price, 0);
    Say(Rest(e, Key(o.ticker, isBid, U64Price(o.price)), Inner(o, queue)), Accepted(o))
  }

  function RestBest(e: Engine, t: Tick, o: Order): Engine {
    var isBid := o.direction == Buy;
    var price, queue := if isBid then t.bid[0] else t.ask[0], if isBid then t.bidVolume[0] else t.askVolume[0];
    Say(Rest(e, Key(o.ticker, isBid, U64Price(price)), Inner(o.(price := price), queue)), Accepted(o))
  }

  function Placed(e: Engine, o: Order): Engine {
    e.(placed := e.placed[o.id := o.volume])
  }

  function Inserted(e: Engine, o: Order): Engine {
    var t := TickOf(e, o.ticker);
    var e' := Placed(e, o);
    match o.kind
    case Limit => if Crosses(t, o) then TradeNow(e', t, o) else RestLimit(e', t, o)
    case Best =>
      if (o.direction == Buy && t.bidVolume[0] == 0) || (o.direction == Sell && t.askVolume[0] == 0) then Say(e', Rejected(o))
      else RestBest(e', t, o)
    case Market =>
      if (if o.direction == Buy then t.askVolume[0] else t.bidVolume[0]) == 0 then Say(e', Canceled(o, o.volume))
      else TradeNow(e', t, o)
    case OtherType => e
    case _ => if Crosses(t, o) then TradeNow(e', t, o) else Say(e', Canceled(o, o.volume))
  }

  // ---- Filled volumes of a tick --------------------------------------------------------------

  function Round(x: real): int {
    if x >= 0.0 then (x + 0.5).Floor else 0 - (0.5 - x).Floor
  }

  datatype Fills = Fills(bid: int, ask: int)

  /** How much of the volume between two ticks is taken to have traded on each side. */
  function Estimate(prev: Tick, t: Tick, size: nat): Fills
    requires size > 0
  {
    var delta := (t.volume - prev.volume) % WORD;
    if delta == 0 || (prev.askVolume[0] == 0 && prev.bidVolume[0] == 0) then Fills(0, 0)
    else if prev.bidVolume[0] == 0 then Fills(0, delta)
    else if prev.askVolume[0] == 0 then Fills(delta, 0)
    else
      var turnover := (t.turnover - prev.turnover) % WORD;
      var avg := AveragePrice(turnover, delta, size);
      if avg >= t.ask[0] as real then Fills(0, delta)
      else if avg <= t.bid[0] as real then Fills(delta, 0)
      else
        var asks := AskShare(delta, avg, t.bid[0] as real, t.ask[0] as real);
        Fills(delta - asks, asks)
  }

  function Share(delta: nat, avg: real, bid: real, ask: real): real
    requires bid < ask
  {
    delta as real * (avg - bid) / (ask - bid)
  }

  function AskShare(delta: nat, avg: real, bid: real, ask: real): int
    requires bid < ask
  {
    Round(Share(delta, avg, bid, ask))
  }

  lemma AskShareWithin(delta: nat, avg: real, bid: real, ask: real)
    requires bid < avg < ask
    ensures 0 <= AskShare(delta, avg, bid, ask) <= delta
  {
    hide Round;
    ShareWithin(delta as real, avg - bid, ask - bid);
    RoundWithin(Share(delta, avg, bid, ask), delta);
  }

  lemma RoundWithin(x: real, total: nat)
    requires 0.0 <= x <= total as real
    ensures 0 <= Round(x) <= total
  {
  }

  function AveragePrice(turnover: nat, volume: nat, size: nat): real
    requires volume > 0 && size > 0
  {
    assert (volume * size) > 0;
    turnover as real * 100000000.0 / (volume * size) as real
  }

  /** The estimate splits the traded volume: neither side is negative, and nothing is counted
      twice. The assertions of the source hold. */
  lemma EstimateSplits(prev: Tick, t: Tick, size: nat)
    requires size > 0
    ensures var f := Estimate(prev, t, size);
            f.bid >= 0 && f.ask >= 0 && (f == Fills(0, 0) || f.bid + f.ask == (t.volume - prev.volume) % WORD)
  {
    var delta := (t.volume - prev.volume) % WORD;
    if delta != 0 && prev.bidVolume[0] != 0 && prev.askVolume[0] != 0 {
      var avg := AveragePrice((t.turnover - prev.turnover) % WORD, delta, size);
      hide AveragePrice, AskShare;
      if (t.bid[0] as real) < avg < (t.ask[0] as real) {
        AskShareWithin(delta, avg, t.bid[0] as real, t.ask[0] as real);
      }
    }
  }

  lemma ShareWithin(total: real, part: real, whole: real)
    requires total >= 0.0 && 0.0 < part < whole
    ensures 0.0 <= total * part / whole <= total
  {
    var q := total * part / whole;
    assert q * whole == total * part;
    assert q * whole >= 0.0;
    assert (total - q) * whole == total * (whole - part);
    assert total * (whole - part) >= 0.0;
    assert q < 0.0 ==> q * whole < 0.0;
    assert q > total ==> (total - q) * whole < 0.0;
  }

  // ---- What a tick takes out -------------------------------------------------------------------

  /** A level of one side that a sweep reaches: bids at or above the bound, asks at or below. */
  predicate Reached(k: Key, ticker: nat, isBid: bool, bound: int) {
    k.ticker == ticker && k.isBid == isBid && if isBid then k.price >= bound else k.price <= bound
  }

  function Swept(levels: Levels, ticker: nat, isBid: bool, bound: int): Levels {
    map k | k in levels && !Reached(k, ticker, isBid, bound) :: levels[k]
  }

  /** The orders of a level that stay when so much volume has traded at it, closer to the front. */
  function Kept(list: seq<Inner>, filled: int): seq<Inner> {
    if list == [] then []
    else if list[0].queue < filled then Kept(list[1..], filled)
    else [list[0].(queue := list[0].queue - filled)] + Kept(list[1..], filled)
  }

  function Gone(list: seq<Inner>, filled: int): seq<Inner> {
    if list == [] then []
    else if list[0].queue < filled then [list[0]] + Gone(list[1..], filled)
    else Gone(list[1..], filled)
  }

  function WithLevel(levels: Levels, k: Key, list: seq<Inner>): Levels {
    if list == [] then levels - {k} else levels[k := list]
  }

  function Scanned(levels: Levels, k: Key, filled: int): Levels {
    if k in levels then WithLevel(levels, k, Kept(levels[k], filled)) else levels
  }

  /** The loop over the levels of the tick, from `level` on. */
  function ScannedFrom(levels: Levels, ticker: nat, isBid: bool, prices: Prices, volumes: Volumes, filled: int, level: nat): Levels
    decreases MAX_LEVEL - level
  {
    if level >= MAX_LEVEL then levels
    else if volumes[level] == 0 then ScannedFrom(levels, ticker, isBid, prices, volumes, filled, level + 1)
    else
      var levels' := Scanned(levels, Key(ticker, isBid, U64Price(prices[level])), filled);
      if filled - volumes[level] <= 0 then levels'
      else ScannedFrom(levels', ticker, isBid, prices, volumes, filled - volumes[level], level + 1)
  }

  /** The part of OnNewTick for bids that traded. */
  function BidsFilled(levels: Levels, ticker: nat, t: Tick, filled: int): Levels {
    if filled <= 0 then levels else
    var levels' := if t.bidVolume[0] > 0 then Swept(levels, ticker, true, U64Price(t.bid[0]) + 1) else levels;
    ScannedFrom(levels', ticker, true, t.bid, t.bidVolume, filled, 0)
  }

  /** The part for asks that traded; its first sweep is bounded by the bid of the tick. */
  function AsksFilled(levels: Levels, ticker: nat, t: Tick, filled: int): Levels {
    if filled <= 0 then levels else
    var levels' := if t.askVolume[0] > 0 then Swept(levels, ticker, false, U64Price(t.bid[0]) - 1) else levels;
    ScannedFrom(levels', ticker, false, t.ask, t.askVolume, filled, 0)
  }

  /** Orders that the other side of the tick has reached trade in full. */
  function Uncrossed(levels: Levels, ticker: nat, t: Tick): Levels {
    var levels' := if t.bidVolume[0] > 0 then Swept(levels, ticker, false, U64Price(t.bid[0])) else levels;
    if t.askVolume[0] > 0 then Swept(levels', ticker, true, U64Price(t.ask[0])) else levels'
  }

  function TickLevels(levels: Levels, ticker: nat, prev: Tick, t: Tick, size: nat): Levels
    requires size > 0
  {
    var fills := Estimate(prev, t, size);
    Uncrossed(AsksFilled(BidsFilled(levels, ticker, t, fills.bid), ticker, t, fills.ask), ticker, t)
  }
}
