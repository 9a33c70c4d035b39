/** The ledger always equals the sum of what the live orders still have to do. */
module DeskInvariant {
  import opened Positions
  import opened OrderDesk

  // ---- Sums over finite sets ----------------------------------------------------------------

  ghost function Sum<K(!new)>(keys: set<K>, f: K -> int): int {
    if keys == {} then 0 else
    var k :| k in keys;
    f(k) + Sum(keys - {k}, f)
  }

  lemma {:induction false} SumRemove<K(!new)>(keys: set<K>, f: K -> int, x: K)
    requires x in keys
    ensures Sum(keys, f) == f(x) + Sum(keys - {x}, f)
    decreases |keys|
  {
    var k :| k in keys && Sum(keys, f) == f(k) + Sum(keys - {k}, f);
    if x != k {
      SumRemove(keys - {k}, f, x);
      SumRemove(keys - {x}, f, k);
      assert keys - {k} - {x} == keys - {x} - {k};
    }
  }

  lemma {:induction false} SumSame<K(!new)>(keys: set<K>, f: K -> int, g: K -> int)
    requires forall k :: k in keys ==> f(k) == g(k)
    ensures Sum(keys, f) == Sum(keys, g)
    decreases |keys|
  {
    if keys != {} {
      var k :| k in keys;
      SumRemove(keys, f, k);
      SumRemove(keys, g, k);
      SumSame(keys - {k}, f, g);
    }
  }

  lemma SumAtLeast<K(!new)>(keys: set<K>, f: K -> int, x: K)
    requires (forall k :: k in keys ==> f(k) >= 0) && x in keys
    ensures Sum(keys, f) >= f(x) >= 0
    decreases |keys|
  {
    SumRemove(keys, f, x);
    SumNotNegative(keys - {x}, f);
  }

  lemma {:induction false} SumNotNegative<K(!new)>(keys: set<K>, f: K -> int)
    requires forall k :: k in keys ==> f(k) >= 0
    ensures Sum(keys, f) >= 0
    decreases |keys|
  {
    if keys != {} {
      var k :| k in keys;
      SumRemove(keys, f, k);
      SumNotNegative(keys - {k}, f);
    }
  }

  /** Two sums that differ in the share of x only, which counts as zero where x is no key. */
  lemma SumChanges<K(!new)>(keys: set<K>, keys': set<K>, f: K -> int, g: K -> int, x: K)
    requires keys - {x} == keys' - {x} && forall k :: k in keys && k != x ==> f(k) == g(k)
    requires (x !in keys ==> f(x) == 0) && (x !in keys' ==> g(x) == 0)
    ensures Sum(keys', g) - g(x) == Sum(keys, f) - f(x)
  {
    if x in keys { SumRemove(keys, f, x); } else { assert keys - {x} == keys; }
    if x in keys' { SumRemove(keys', g, x); } else { assert keys' - {x} == keys'; }
    SumSame(keys - {x}, f, g);
  }

  // ---- What is booked, and what is due ---------------------------------------------------------

  // One pending counter of the ledger
  datatype Counter = Counter(pool: string, ticker: nat, isLong: bool, isClose: bool)

  function CounterOf(pools: Pools, o: Order): Counter {
    Counter(PoolOf(pools, o.strategy), o.req.contract.ticker, OnLong(o.req.direction, o.req.offset), IsClose(o.req.offset))
  }

  function Booked(pools: Pools, c: Counter): int {
    if c.pool !in pools then 0 else
    var d := Side(pools[c.pool], c.ticker, c.isLong);
    if c.isClose then d.closePending else d.openPending
  }

  function Share(orders: map<nat, Order>, pools: Pools, c: Counter, id: nat): int {
    if id in orders && CounterOf(pools, orders[id]) == c then Remaining(orders[id]) else 0
  }

  /** Volume minus traded minus canceled, over the live orders of a counter. */
  ghost function Due(orders: map<nat, Order>, pools: Pools, c: Counter): int {
    Sum(orders.Keys, id => Share(orders, pools, c, id))
  }

  function FrozenShare(orders: map<nat, Order>, id: nat): int {
    if id in orders then Frozen(orders[id].req, Remaining(orders[id])) else 0
  }

  /** The same, priced and margined, over the live opening orders. */
  ghost function FrozenDue(orders: map<nat, Order>): int {
    Sum(orders.Keys, id => FrozenShare(orders, id))
  }

  predicate OrderOk(d: Desk, id: nat)
    requires id in d.orders
  {
    var o := d.orders[id];
    o.id == id < d.nextId && Remaining(o) > 0 && o.traded >= 0 && o.canceled >= 0 && o.req.contract.size > 0
  }

  predicate Covered(pools: Pools, s: string, ticker: nat, isLong: bool)
    requires s in pools
  {
    var d := Side(pools[s], ticker, isLong); d.closePending <= d.holdings
  }

  ghost predicate PendingsOk(d: Desk) {
    forall c: Counter :: c.pool in d.pools ==> Booked(d.pools, c) == Due(d.orders, d.pools, c)
  }

  ghost predicate HoldingsOk(pools: Pools) {
    forall s, ticker, isLong :: s in pools ==> Covered(pools, s, ticker, isLong)
  }

  ghost predicate LedgerOk(d: Desk) {
    && COMMON_POS_POOL in d.pools
    && (forall id :: id in d.orders ==> OrderOk(d, id))
    && PendingsOk(d)
    && HoldingsOk(d.pools)
    && d.account.frozen == FrozenDue(d.orders)
  }

  /** A desk without orders and pendings, whatever the strategies hold. */
  ghost predicate Init(d: Desk) {
    && COMMON_POS_POOL in d.pools && d.orders == map[] && d.account.frozen == 0 && d.sent == map[]
    && forall s, ticker, isLong :: s in d.pools ==>
         var x := Side(d.pools[s], ticker, isLong); x.openPending == 0 && x.closePending == 0 && x.holdings >= 0
  }

  lemma InitLedgerOk(d: Desk)
    requires Init(d)
    ensures LedgerOk(d)
  {
  }

  // ---- One counter at a time ---------------------------------------------------------------------

  predicate SameExcept(orders: map<nat, Order>, orders': map<nat, Order>, id: nat) {
    && (forall k :: k in orders && k != id ==> k in orders' && orders'[k] == orders[k])
    && forall k :: k in orders' && k != id ==> k in orders
  }

  lemma DueChanges(orders: map<nat, Order>, orders': map<nat, Order>, pools: Pools, id: nat, c: Counter)
    requires SameExcept(orders, orders', id)
    ensures Due(orders', pools, c) == Due(orders, pools, c) + Share(orders', pools, c, id) - Share(orders, pools, c, id)
  {
    assert orders.Keys - {id} == orders'.Keys - {id};
    SumChanges(orders.Keys, orders'.Keys, k => Share(orders, pools, c, k), k => Share(orders', pools, c, k), id);
  }

  lemma FrozenChanges(orders: map<nat, Order>, orders': map<nat, Order>, id: nat)
    requires SameExcept(orders, orders', id)
    ensures FrozenDue(orders') == FrozenDue(orders) + FrozenShare(orders', id) - FrozenShare(orders, id)
  {
    assert orders.Keys - {id} == orders'.Keys - {id};
    SumChanges(orders.Keys, orders'.Keys, k => FrozenShare(orders, k), k => FrozenShare(orders', k), id);
  }

  lemma DueSamePools(orders: map<nat, Order>, pools: Pools, pools': Pools, c: Counter)
    requires pools.Keys == pools'.Keys
    ensures Due(orders, pools', c) == Due(orders, pools, c)
  {
    forall id | id in orders
      ensures Share(orders, pools', c, id) == Share(orders, pools, c, id)
    {
      assert CounterOf(pools', orders[id]) == CounterOf(pools, orders[id]);
    }
    SumSame(orders.Keys, id => Share(orders, pools, c, id), id => Share(orders, pools', c, id));
  }

  lemma FrozenSplits(req: Request, a: int, b: int)
    ensures Frozen(req, a - b) == Frozen(req, a) - Frozen(req, b)
    ensures Frozen(req, 0 - b) == 0 - Frozen(req, b)
  {
    var unit := UnitMargin(req, req.price);
    hide UnitMargin;
    assert (a - b) * unit == a * unit - b * unit;
    assert (0 - b) * unit == 0 - b * unit;
  }

  /** A side of a pool after one side was set. */
  lemma SideOfSet(pool: Pool, ticker: nat, isLong: bool, detail: Detail, t: nat, l: bool)
    ensures Side(WithSide(pool, ticker, isLong, detail), t, l) ==
              if t == ticker && l == isLong then detail else Side(pool, t, l)
  {
  }

  lemma PendingBooks(pools: Pools, o: Order, changed: int, c: Counter)
    requires PoolOf(pools, o.strategy) in pools && c.pool in pools
    ensures var s, req := PoolOf(pools, o.strategy), o.req;
            var pools' := pools[s := UpdatedPending(pools[s], req.contract.ticker, req.direction, req.offset, changed)];
            && Booked(pools', c) == Booked(pools, c) + (if c == CounterOf(pools, o) then changed else 0)
            && Side(pools'[c.pool], c.ticker, c.isLong).holdings == Side(pools[c.pool], c.ticker, c.isLong).holdings
  {
    hide IsClose, OnLong, PoolOf, Side, WithSide;
    var s, req := PoolOf(pools, o.strategy), o.req;
    var l := OnLong(req.direction, req.offset);
    SideOfSet(pools[s], req.contract.ticker, l, Pended(Side(pools[s], req.contract.ticker, l), req.offset, changed), c.ticker, c.isLong);
  }

  lemma TradedBooks(pools: Pools, o: Order, traded: int, price: int, c: Counter)
    requires PoolOf(pools, o.strategy) in pools && c.pool in pools && o.req.contract.size > 0 && traded > 0
    ensures var s, req := PoolOf(pools, o.strategy), o.req;
            var pools' := pools[s := UpdatedTraded(pools[s], req.contract.ticker, req.contract.size, req.direction, req.offset, traded, price)];
            var mine := CounterOf(pools, o);
            && Booked(pools', c) == Booked(pools, c) - (if c == mine then traded else 0)
            && Side(pools'[c.pool], c.ticker, c.isLong).holdings == Side(pools[c.pool], c.ticker, c.isLong).holdings
                 + (if c.pool == s && c.ticker == mine.ticker && c.isLong == mine.isLong then if mine.isClose then 0 - traded else traded else 0)
  {
    hide IsClose, OnLong, PoolOf, Side, WithSide, Filled;
    var s, req := PoolOf(pools, o.strategy), o.req;
    var l := OnLong(req.direction, req.offset);
    var d := Side(pools[s], req.contract.ticker, l);
    FilledCounts(d, req.offset, req.contract.size, traded, price);
    SideOfSet(pools[s], req.contract.ticker, l, Filled(d, req.offset, req.contract.size, traded, price), c.ticker, c.isLong);
  }

  lemma FilledCounts(d: Detail, offset: Offset, size: int, traded: int, price: int)
    requires size > 0
    ensures var d' := Filled(d, offset, size, traded, price);
            && d'.closePending == d.closePending - (if IsClose(offset) then traded else 0)
            && d'.openPending == d.openPending - (if IsClose(offset) then 0 else traded)
            && d'.holdings == d.holdings + (if IsClose(offset) then 0 - traded else traded)
  {
    hide IsClose, Cost;
  }

  lemma LiveShare(d: Desk, id: nat)
    requires LedgerOk(d) && id in d.orders && CounterOf(d.pools, d.orders[id]).pool in d.pools
    ensures Booked(d.pools, CounterOf(d.pools, d.orders[id])) >= Remaining(d.orders[id]) > 0
  {
    var c := CounterOf(d.pools, d.orders[id]);
    hide CounterOf, Frozen, Remaining;
    forall k | k in d.orders
      ensures Share(d.orders, d.pools, c, k) >= 0
    {
      assert OrderOk(d, k);
      RemainingPositive(d, k);
    }
    SumAtLeast(d.orders.Keys, k => Share(d.orders, d.pools, c, k), id);
    RemainingPositive(d, id);
  }

  lemma RemainingPositive(d: Desk, id: nat)
    requires id in d.orders && OrderOk(d, id)
    ensures Remaining(d.orders[id]) > 0
  {
  }

  lemma BookedNotNegative(d: Desk, c: Counter)
    requires LedgerOk(d) && c.pool in d.pools
    ensures Booked(d.pools, c) >= 0
  {
    hide CounterOf;
    forall k | k in d.orders
      ensures Share(d.orders, d.pools, c, k) >= 0
    {
      assert OrderOk(d, k);
    }
    SumNotNegative(d.orders.Keys, k => Share(d.orders, d.pools, c, k));
  }
}
