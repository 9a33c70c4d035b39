/** Positions by strategy and ticker: what is held on each side, and how much of it is promised to
    orders that have not finished. */
module Positions {

  const COMMON_POS_POOL := "common"

  datatype Direction = Buy | Sell | UnknownDirection
  datatype Offset = Open | Close | CloseToday | CloseYesterday | OffsetNone | UnknownOffset

  function Code(offset: Offset): bv8 {
    match offset
    case Open => 1
    case Close => 2
    case CloseToday => 4
    case CloseYesterday => 8
    case OffsetNone => 9
    case UnknownOffset => 10
  }

  function Opposite(direction: Direction): Direction {
    if direction == Buy then Sell else Buy
  }

  predicate IsOpen(offset: Offset) {
    offset == Open
  }

  predicate IsClose(offset: Offset) {
    Code(offset) & (2 | 4 | 8) != 0
  }

  /** The bit test leaves no third kind: whatever is not an opening offset counts as closing. */
  lemma OpenOrClose(offset: Offset)
    ensures IsClose(offset) <==> !IsOpen(offset)
  {
    match offset
    case Open => assert 1 as bv8 & 14 == 0;
    case _ =>
  }

  datatype Detail = Detail(ydHoldings: int, holdings: int, openPending: int, closePending: int, costPrice: real)

  datatype Position = Position(longPos: Detail, shortPos: Detail)

  const FLAT := Detail(0, 0, 0, 0, 0.0)

  type Pool = map<nat, Position>

  function At(pool: Pool, ticker: nat): Position {
    if ticker in pool then pool[ticker] else Position(FLAT, FLAT)
  }

  function Side(pool: Pool, ticker: nat, isLong: bool): Detail {
    if isLong then At(pool, ticker).longPos else At(pool, ticker).shortPos
  }

  function WithSide(pool: Pool, ticker: nat, isLong: bool, detail: Detail): Pool {
    pool[ticker := if isLong then At(pool, ticker).(longPos := detail) else At(pool, ticker).(shortPos := detail)]
  }

  /** The side an order works on: a closing order works on the opposite one. */
  function OnLong(direction: Direction, offset: Offset): bool {
    (if IsClose(offset) then Opposite(direction) else direction) == Buy
  }

  function Pended(d: Detail, offset: Offset, changed: int): Detail {
    if IsClose(offset) then d.(closePending := d.closePending + changed)
    else d.(openPending := d.openPending + changed)
  }

  function UpdatedPending(pool: Pool, ticker: nat, direction: Direction, offset: Offset, changed: int): Pool {
    if changed == 0 then pool else
    var isLong := OnLong(direction, offset);
    WithSide(pool, ticker, isLong, Pended(Side(pool, ticker, isLong), offset, changed))
  }

  function Min(a: int, b: int): int {
    if b < a then b else a
  }

  function Cost(d: Detail, holdings: int, size: int, traded: int, price: int): real
    requires holdings > 0 && size > 0
  {
    (size as real * (holdings - traded) as real * d.costPrice + size as real * traded as real * price as real)
    / (holdings as real * size as real)
  }

  function Filled(d: Detail, offset: Offset, size: int, traded: int, price: int): Detail
    requires size > 0
  {
    var d' :=
      if IsClose(offset) then
        var holdings := d.holdings - traded;
        var yd := if offset == CloseYesterday || offset == Close then d.ydHoldings - Min(d.ydHoldings, traded) else d.ydHoldings;
        d.(closePending := d.closePending - traded, holdings := holdings, ydHoldings := if holdings < yd then holdings else yd)
      else d.(openPending := d.openPending - traded, holdings := d.holdings + traded);
    if d'.holdings == 0 then d'.(costPrice := 0.0)
    else if IsOpen(offset) && d'.holdings > 0 then d'.(costPrice := Cost(d, d'.holdings, size, traded, price))
    else d'
  }

  function UpdatedTraded(pool: Pool, ticker: nat, size: int, direction: Direction, offset: Offset, traded: int, price: int): Pool
    requires traded > 0 ==> size > 0
  {
    if traded <= 0 then pool else
    var isLong := OnLong(direction, offset);
    WithSide(pool, ticker, isLong, Filled(Side(pool, ticker, isLong), offset, size, traded, price))
  }

  predicate CanShift(pool: Pool, ticker: nat, direction: Direction, changed: int) {
    var d := Side(pool, ticker, direction == Buy);
    changed >= 0 || d.holdings - d.closePending + changed >= 0
  }

  function Shifted(pool: Pool, ticker: nat, direction: Direction, changed: int): Pool {
    if changed == 0 || !CanShift(pool, ticker, direction, changed) then pool else
    var d := Side(pool, ticker, direction == Buy);
    WithSide(pool, ticker, direction == Buy, d.(holdings := d.holdings + changed))
  }

  lemma RefusedShift(pool: Pool, ticker: nat, direction: Direction, changed: int)
    ensures !CanShift(pool, ticker, direction, changed) ==> Shifted(pool, ticker, direction, changed) == pool
  {
  }

  /** What the calculator asserts after a change. */
  predicate Asserted(d: Detail) {
    d.holdings >= 0 && d.openPending >= 0 && d.closePending >= 0
  }

  predicate PendingAsserted(d: Detail) {
    d.openPending >= 0 && d.closePending >= 0
  }

  /** The cost price of an opening trade is the average over everything held: money in equals
      holdings times cost. */
  lemma CostIsAverage(d: Detail, size: int, traded: int, price: int)
    requires size > 0 && traded > 0 && d.holdings >= 0
    ensures var d' := Filled(d, Open, size, traded, price);
            d'.costPrice * d'.holdings as real == d.costPrice * d.holdings as real + (price * traded) as real
  {
    OpenOrClose(Open);
    var h, h', s := d.holdings as real, (d.holdings + traded) as real, size as real;
    var money := d.costPrice * h + (price * traded) as real;
    assert traded as real * price as real == (price * traded) as real;
    assert s * h * d.costPrice + s * traded as real * price as real == s * money by {
      assert s * h * d.costPrice == s * (d.costPrice * h);
      assert s * traded as real * price as real == s * (traded as real * price as real);
    }
    QuotientOf(s, money, h');
  }

  lemma QuotientOf(s: real, money: real, h: real)
    requires s > 0.0 && h > 0.0
    ensures h * s != 0.0 && (s * money) / (h * s) * h == money
  {
    assert h * s > 0.0;
    var q := (s * money) / (h * s);
    assert q * (h * s) == s * money;
    assert s * (q * h - money) == 0.0;
  }

  // ---- One order --------------------------------------------------------------------------------

  predicate BuyOrSell(direction: Direction) {
    direction == Buy || direction == Sell
  }

  function Signed(direction: Direction, volume: int): int {
    if direction == Buy then volume else -volume
  }

  function Net(p: Position): int {
    p.longPos.holdings - p.shortPos.holdings
  }

  function Gross(p: Position): int {
    p.longPos.holdings + p.shortPos.holdings
  }

  /** Where a pending change goes: of a buy, to the long side if it opens and to the short side if it
      closes; of a sell, the other way around. */
  predicate PendingMoves(p: Position, p': Position, direction: Direction, offset: Offset, changed: int) {
    && (direction == Buy && offset == Open ==> p' == p.(longPos := p.longPos.(openPending := p.longPos.openPending + changed)))
    && (direction == Buy && offset != Open ==> p' == p.(shortPos := p.shortPos.(closePending := p.shortPos.closePending + changed)))
    && (direction == Sell && offset == Open ==> p' == p.(shortPos := p.shortPos.(openPending := p.shortPos.openPending + changed)))
    && (direction == Sell && offset != Open ==> p' == p.(longPos := p.longPos.(closePending := p.longPos.closePending + changed)))
  }

  /** A trade moves what is held, long less short, by its volume: up for a buy and down for a sell,
      whatever the offset. What is held on both sides together grows by opening and shrinks by
      closing; and what was pending of the order shrinks by as much. */
  predicate TradeMoves(p: Position, p': Position, direction: Direction, offset: Offset, traded: int) {
    && Net(p') == Net(p) + Signed(direction, traded)
    && Gross(p') == Gross(p) + (if offset == Open then traded else -traded)
    && p'.longPos.openPending == p.longPos.openPending - (if direction == Buy && offset == Open then traded else 0)
    && p'.longPos.closePending == p.longPos.closePending - (if direction == Sell && offset != Open then traded else 0)
    && p'.shortPos.openPending == p.shortPos.openPending - (if direction == Sell && offset == Open then traded else 0)
    && p'.shortPos.closePending == p.shortPos.closePending - (if direction == Buy && offset != Open then traded else 0)
    && (if (direction == Buy) == (offset == Open) then p'.shortPos == p.shortPos else p'.longPos == p.longPos)
  }

  predicate OthersSame(pool: Pool, pool': Pool, ticker: nat) {
    forall t :: t in pool.Keys + pool'.Keys && t != ticker ==> At(pool', t) == At(pool, t)
  }

  lemma PendingSides(pool: Pool, ticker: nat, direction: Direction, offset: Offset, changed: int)
    requires BuyOrSell(direction)
    ensures var pool' := UpdatedPending(pool, ticker, direction, offset, changed);
            PendingMoves(At(pool, ticker), At(pool', ticker), direction, offset, changed) && OthersSame(pool, pool', ticker)
  {
    OpenOrClose(offset);
  }

  lemma TradeMovesNet(pool: Pool, ticker: nat, size: int, direction: Direction, offset: Offset, traded: int, price: int)
    requires traded > 0 && size > 0 && BuyOrSell(direction)
    ensures var pool' := UpdatedTraded(pool, ticker, size, direction, offset, traded, price);
            TradeMoves(At(pool, ticker), At(pool', ticker), direction, offset, traded) && OthersSame(pool, pool', ticker)
  {
    OpenOrClose(offset);
    hide Cost;
  }

  /** Closing with no offset of its own, or with that of yesterday, uses up yesterday's holdings
      first; closing today's spares them. Never more than what is held counts as yesterday's, and
      opening leaves yesterday's holdings alone. */
  lemma YesterdayGoesFirst(d: Detail, offset: Offset, size: int, traded: int, price: int)
    requires size > 0 && traded > 0 && 0 <= d.ydHoldings <= d.holdings && (offset != Open ==> traded <= d.holdings)
    ensures var d' := Filled(d, offset, size, traded, price);
            && 0 <= d'.ydHoldings <= d'.holdings
            && (offset == Open ==> d'.ydHoldings == d.ydHoldings)
            && (offset == Close || offset == CloseYesterday ==> d'.ydHoldings == 0 || d.ydHoldings - d'.ydHoldings == traded)
            && (offset == CloseToday ==> d'.ydHoldings == d.ydHoldings || d'.holdings == d'.ydHoldings)
  {
    OpenOrClose(offset);
    hide Cost;
  }

  /** Closing leaves the cost price of what is still held; with nothing held there is none. */
  lemma ClosingKeepsCost(d: Detail, offset: Offset, size: int, traded: int, price: int)
    requires size > 0 && offset != Open
    ensures Filled(d, offset, size, traded, price).costPrice == if d.holdings == traded then 0.0 else d.costPrice
  {
    OpenOrClose(offset);
    hide Cost;
  }

  // ---- PositionCalculator ---------------------------------------------------------------------

  class PositionCalculator {
    var positions: Pool

    constructor (positions: Pool)
      ensures this.positions == positions
    {
      this.positions := positions;
    }

    method UpdatePending(ticker: nat, direction: Direction, offset: Offset, changed: int)
      requires changed != 0 ==>
                 PendingAsserted(Side(UpdatedPending(positions, ticker, direction, offset, changed), ticker, OnLong(direction, offset)))
      modifies this
      ensures positions == UpdatedPending(old(positions), ticker, direction, offset, changed)
      ensures BuyOrSell(direction) ==> PendingMoves(At(old(positions), ticker), At(positions, ticker), direction, offset, changed)
      ensures BuyOrSell(direction) ==> OthersSame(old(positions), positions, ticker)
    {
      if BuyOrSell(direction) { PendingSides(positions, ticker, direction, offset, changed); }
      if changed == 0 { return; }
      var isClose, dir := IsClose(offset), direction;
      if isClose { dir := Opposite(dir); }
      var pos := At(positions, ticker);
      var detail := if dir == Buy then pos.longPos else pos.shortPos;
      if isClose {
        detail := detail.(closePending := detail.closePending + changed);
      } else {
        detail := detail.(openPending := detail.openPending + changed);
      }
      assert detail.openPending >= 0;
      assert detail.closePending >= 0;
      positions := WithSide(positions, ticker, dir == Buy, detail);
    }

    method UpdateTraded(ticker: nat, size: int, direction: Direction, offset: Offset, traded: int, price: int)
      requires traded > 0 ==>
                 size > 0 && Asserted(Side(UpdatedTraded(positions, ticker, size, direction, offset, traded, price), ticker, OnLong(direction, offset)))
      modifies this
      ensures positions == UpdatedTraded(old(positions), ticker, size, direction, offset, traded, price)
      ensures BuyOrSell(direction) && traded > 0 ==> TradeMoves(At(old(positions), ticker), At(positions, ticker), direction, offset, traded)
      ensures BuyOrSell(direction) && traded > 0 ==> OthersSame(old(positions), positions, ticker)
    {
      if BuyOrSell(direction) && traded > 0 { TradeMovesNet(positions, ticker, size, direction, offset, traded, price); }
      if traded <= 0 { return; }
      var isClose, dir := IsClose(offset), direction;
      if isClose { dir := Opposite(dir); }
      var pos := At(positions, ticker);
      var was := if dir == Buy then pos.longPos else pos.shortPos;
      var detail := was;
      if isClose {
        detail := detail.(closePending := detail.closePending - traded, holdings := detail.holdings - traded);
        if offset == CloseYesterday || offset == Close {
          detail := detail.(ydHoldings := detail.ydHoldings - Min(detail.ydHoldings, traded));
        }
        if detail.holdings < detail.ydHoldings { detail := detail.(ydHoldings := detail.holdings); }
      } else {
        detail := detail.(openPending := detail.openPending - traded, holdings := detail.holdings + traded);
      }
      assert detail.holdings >= 0;
      assert detail.openPending >= 0;
      assert detail.closePending >= 0;
      if IsOpen(offset) && detail.holdings > 0 {
        detail := detail.(costPrice := Cost(was, detail.holdings, size, traded, price));
      }
      if detail.holdings == 0 { detail := detail.(costPrice := 0.0); }
      assert detail == Filled(was, offset, size, traded, price);
      positions := WithSide(positions, ticker, dir == Buy, detail);
    }

    method ModifyPosition(ticker: nat, direction: Direction, changed: int) returns (ok: bool)
      modifies this
      ensures ok <==> CanShift(old(positions), ticker, direction, changed)
      ensures positions == Shifted(old(positions), ticker, direction, changed)
    {
      if changed == 0 { return true; }
      var pos := At(positions, ticker);
      var detail := if direction == Buy then pos.longPos else pos.shortPos;
      if changed < 0 && detail.holdings - detail.closePending + changed < 0 { return false; }
      positions := WithSide(positions, ticker, direction == Buy, detail.(holdings := detail.holdings + changed));
      return true;
    }
  }

  // ---- PositionManager ------------------------------------------------------------------------

  type Pools = map<string, Pool>

  /** FindCalculator: an unknown strategy works on the common pool. */
  function PoolOf(pools: Pools, strategy: string): string {
    if strategy in pools then strategy else COMMON_POS_POOL
  }

  predicate CanMove(pools: Pools, src: string, dst: string, ticker: nat, direction: Direction, volume: int) {
    volume >= 0 && src in pools && dst in pools && CanShift(pools[src], ticker, direction, 0 - volume)
  }

  function Moved(pools: Pools, src: string, dst: string, ticker: nat, direction: Direction, volume: int): Pools
    requires CanMove(pools, src, dst, ticker, direction, volume)
  {
    var pools1 := pools[src := Shifted(pools[src], ticker, direction, 0 - volume)];
    pools1[dst := Shifted(pools1[dst], ticker, direction, volume)]
  }

  class PositionManager {
    const calculators: map<string, PositionCalculator>

    ghost predicate Valid()
      reads calculators.Values
    {
      && COMMON_POS_POOL in calculators
      && forall s, t :: s in calculators && t in calculators && s != t ==> calculators[s] != calculators[t]
    }

    ghost function View(): Pools
      reads calculators.Values
    {
      map s | s in calculators :: calculators[s].positions
    }

    constructor (calculators: map<string, PositionCalculator>)
      requires COMMON_POS_POOL in calculators
      requires forall s, t :: s in calculators && t in calculators && s != t ==> calculators[s] != calculators[t]
      ensures Valid() && this.calculators == calculators
    {
      this.calculators := calculators;
    }

    /** GetPosition knows no common pool: an unknown strategy has no position. */
    method GetPosition(strategy: string, ticker: nat) returns (found: bool, position: Position)
      requires Valid()
      ensures found <==> strategy in View() && ticker in View()[strategy]
      ensures found ==> position == View()[strategy][ticker]
    {
      found, position := false, Position(FLAT, FLAT);
      if strategy in calculators && ticker in calculators[strategy].positions {
        found, position := true, calculators[strategy].positions[ticker];
      }
    }

    method UpdatePending(strategy: string, ticker: nat, direction: Direction, offset: Offset, changed: int)
      requires Valid()
      requires var pool := View()[PoolOf(View(), strategy)];
               changed != 0 ==>
                 PendingAsserted(Side(UpdatedPending(pool, ticker, direction, offset, changed), ticker, OnLong(direction, offset)))
      modifies calculators.Values
      ensures Valid()
      ensures var pools, s := old(View()), old(PoolOf(View(), strategy));
              View() == pools[s := UpdatedPending(pools[s], ticker, direction, offset, changed)]
    {
      var s := if strategy in calculators then strategy else COMMON_POS_POOL;
      calculators[s].UpdatePending(ticker, direction, offset, changed);
    }

    method UpdateTraded(strategy: string, ticker: nat, size: int, direction: Direction, offset: Offset, traded: int, price: int)
      requires Valid()
      requires var pool := View()[PoolOf(View(), strategy)];
               traded > 0 ==>
                 size > 0 && Asserted(Side(UpdatedTraded(pool, ticker, size, direction, offset, traded, price), ticker, OnLong(direction, offset)))
      modifies calculators.Values
      ensures Valid()
      ensures var pools, s := old(View()), old(PoolOf(View(), strategy));
              View() == pools[s := UpdatedTraded(pools[s], ticker, size, direction, offset, traded, price)]
    {
      var s := if strategy in calculators then strategy else COMMON_POS_POOL;
      calculators[s].UpdateTraded(ticker, size, direction, offset, traded, price);
    }

    method MovePosition(src: string, dst: string, ticker: nat, direction: Direction, volume: int) returns (ok: bool)
      requires Valid()
      modifies calculators.Values
      ensures Valid()
      ensures ok <==> CanMove(old(View()), src, dst, ticker, direction, volume)
      ensures View() == if ok then Moved(old(View()), src, dst, ticker, direction, volume) else old(View())
    {
      hide Shifted, CanShift;
      if volume < 0 { return false; }
      if src !in calculators || dst !in calculators { return false; }
      RefusedShift(calculators[src].positions, ticker, direction, -volume);
      ok := calculators[src].ModifyPosition(ticker, direction, -volume);
      if !ok { return false; }
      var moved := calculators[dst].ModifyPosition(ticker, direction, volume);
    }
  }
}
