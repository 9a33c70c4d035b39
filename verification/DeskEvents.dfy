/** Every event keeps the ledger equal to the live orders, the assertions of the position
    calculator never fire, and closing orders never promise more than is held. */
module DeskEvents {
  import opened Positions
  import opened OrderDesk
  import opened DeskInvariant

  /** The order with this id, the counters and the funds change by the same amounts. */
  lemma Rebooked(d: Desk, d': Desk, id: nat)
    requires LedgerOk(d) && d'.pools.Keys == d.pools.Keys && SameExcept(d.orders, d'.orders, id) && d'.nextId >= d.nextId
    requires id in d'.orders ==> OrderOk(d', id)
    requires forall c: Counter :: c.pool in d.pools ==>
               Booked(d'.pools, c) == Booked(d.pools, c) + Share(d'.orders, d.pools, c, id) - Share(d.orders, d.pools, c, id)
    requires d'.account.frozen == d.account.frozen + FrozenShare(d'.orders, id) - FrozenShare(d.orders, id)
    requires HoldingsOk(d'.pools)
    ensures LedgerOk(d')
  {
    hide Due, FrozenDue, Booked, Share, Covered, FrozenShare;
    FrozenChanges(d.orders, d'.orders, id);
    forall c: Counter | c.pool in d'.pools
      ensures Booked(d'.pools, c) == Due(d'.orders, d'.pools, c)
    {
      DueChanges(d.orders, d'.orders, d.pools, id, c);
      DueSamePools(d'.orders, d.pools, d'.pools, c);
    }
    forall k | k in d'.orders
      ensures OrderOk(d', k)
    {
      if k != id { assert OrderOk(d, k); }
    }
  }

  // ---- Pending changes ---------------------------------------------------------------------

  lemma PendingHoldings(pools: Pools, o: Order, changed: int)
    requires PoolOf(pools, o.strategy) in pools && HoldingsOk(pools)
    requires IsClose(o.req.offset) && changed > 0 ==> changed <= Free(pools, o.strategy, o.req)
    ensures var s, req := PoolOf(pools, o.strategy), o.req;
            HoldingsOk(pools[s := UpdatedPending(pools[s], req.contract.ticker, req.direction, req.offset, changed)])
  {
    var s, req := PoolOf(pools, o.strategy), o.req;
    var pools' := pools[s := UpdatedPending(pools[s], req.contract.ticker, req.direction, req.offset, changed)];
    hide UpdatedPending, IsClose, OnLong, Side;
    forall x, ticker, isLong | x in pools'
      ensures Covered(pools', x, ticker, isLong)
    {
      assert Covered(pools, x, ticker, isLong);
      PendingBooks(pools, o, changed, Counter(x, ticker, isLong, true));
    }
  }

  /** One pending change of an order's counter, with the matching change of the order itself. */
  lemma PendingKeeps(d: Desk, d': Desk, o: Order, changed: int)
    requires LedgerOk(d) && SameExcept(d.orders, d'.orders, o.id) && d'.nextId >= d.nextId
    requires o.id in d'.orders ==> OrderOk(d', o.id) && d'.orders[o.id].req == o.req && d'.orders[o.id].strategy == o.strategy
    requires o.id in d.orders ==> d.orders[o.id].req == o.req && d.orders[o.id].strategy == o.strategy
    requires changed == (if o.id in d'.orders then Remaining(d'.orders[o.id]) else 0) - (if o.id in d.orders then Remaining(d.orders[o.id]) else 0)
    requires d'.pools == BookPending(d, o, changed).pools && d'.account == Freeze(d.account, o.req, changed)
    requires IsClose(o.req.offset) && changed > 0 ==> changed <= Free(d.pools, o.strategy, o.req)
    ensures LedgerOk(d')
  {
    PendingHoldings(d.pools, o, changed);
    FrozenSplits(o.req, if o.id in d'.orders then Remaining(d'.orders[o.id]) else 0, if o.id in d.orders then Remaining(d.orders[o.id]) else 0);
    hide LedgerOk, UpdatedPending, Remaining, HoldingsOk, OrderOk, IsClose, OnLong, PoolOf, Free, Booked;
    PoolExists(d, o);
    forall c: Counter | c.pool in d.pools
      ensures Booked(d'.pools, c) == Booked(d.pools, c) + Share(d'.orders, d.pools, c, o.id) - Share(d.orders, d.pools, c, o.id)
    {
      PendingBooks(d.pools, o, changed, c);
    }
    NothingFrozen(o.req);
    Rebooked(d, d', o.id);
  }

  lemma PoolExists(d: Desk, o: Order)
    requires LedgerOk(d)
    ensures PoolOf(d.pools, o.strategy) in d.pools
  {
  }

  lemma NothingFrozen(req: Request)
    ensures Frozen(req, 0) == 0
  {
  }

  lemma IdsAreUsed(d: Desk)
    requires LedgerOk(d)
    ensures forall id :: id in d.orders ==> id < d.nextId
  {
    forall id | id in d.orders
      ensures id < d.nextId
    {
      assert OrderOk(d, id);
    }
  }

  /** The checks are enough: an order with volume that goes through them, to a gateway that takes
      it, is proper, whatever is held. */
  lemma CheckedIsProper(d: Desk, strategy: string, req: Request)
    requires req.volume > 0 && req.contract.size > 0
    ensures Proper(d, SendOrder(strategy, req, false, true))
  {
    hide Side, FundCheck;
  }

  lemma SendKeeps(d: Desk, strategy: string, req: Request, withoutCheck: bool, taken: bool)
    requires LedgerOk(d) && Proper(d, SendOrder(strategy, req, withoutCheck, taken))
    ensures LedgerOk(AfterSend(d, strategy, req, withoutCheck, taken))
  {
    hide Frozen, UpdatedPending, Free, Available, Side, Due, FrozenDue, Booked, Covered;
    var d', o := AfterSend(d, strategy, req, withoutCheck, taken), NewOrder(d, strategy, req);
    IdsAreUsed(d);
    if SendError(d, strategy, req, withoutCheck) == NoError {
      PendingKeeps(d, d', o, req.volume);
    } else {
      SameLedger(d, d');
    }
  }

  /** Only responses and the id counter change. */
  lemma SameLedger(d: Desk, d': Desk)
    requires LedgerOk(d) && d'.orders == d.orders && d'.pools == d.pools && d'.account == d.account && d'.nextId >= d.nextId
    ensures LedgerOk(d')
  {
    hide Due, FrozenDue, Booked, Covered;
    forall id | id in d'.orders
      ensures OrderOk(d', id)
    {
      assert OrderOk(d, id);
    }
  }

  lemma AcceptedKeeps(d: Desk, id: nat)
    requires LedgerOk(d)
    ensures LedgerOk(AfterAccepted(d, id))
  {
    hide Due, FrozenDue, Booked, Covered;
    if id in d.orders {
      assert OrderOk(d, id);
      Rebooked(d, AfterAccepted(d, id), id);
    }
  }

  lemma RejectedKeeps(d: Desk, id: nat)
    requires LedgerOk(d) && Proper(d, OnRejected(id))
    ensures LedgerOk(AfterRejected(d, id))
  {
    hide Frozen, UpdatedPending, Free, Available, Side, Due, FrozenDue, Booked, Covered;
    if id in d.orders {
      assert OrderOk(d, id);
      PendingKeeps(d, AfterRejected(d, id), d.orders[id], 0 - d.orders[id].req.volume);
    }
  }

  lemma CanceledKeeps(d: Desk, id: nat, canceled: int)
    requires LedgerOk(d) && Proper(d, OnCanceled(id, canceled))
    ensures LedgerOk(AfterCanceled(d, id, canceled))
  {
    hide Frozen, UpdatedPending, Free, Available, Side, Due, FrozenDue, Booked, Covered;
    if id in d.orders {
      assert OrderOk(d, id);
      PendingKeeps(d, AfterCanceled(d, id, canceled), d.orders[id], 0 - canceled);
    }
  }

  // ---- Trades --------------------------------------------------------------------------------

  lemma TradedHoldings(d: Desk, id: nat, volume: int, price: int)
    requires LedgerOk(d) && id in d.orders && 0 < volume <= Remaining(d.orders[id])
    ensures HoldingsOk(BookTraded(d, d.orders[id], volume, price).pools)
  {
    var o := d.orders[id];
    assert OrderOk(d, id);
    PoolExists(d, o);
    LiveShare(d, id);
    var pools' := BookTraded(d, o, volume, price).pools;
    hide UpdatedTraded, IsClose, OnLong, PoolOf, Side, Due, FrozenDue;
    forall x, ticker, isLong | x in pools'
      ensures Covered(pools', x, ticker, isLong)
    {
      assert Covered(d.pools, x, ticker, isLong);
      TradedBooks(d.pools, o, volume, price, Counter(x, ticker, isLong, true));
    }
  }

  lemma TradedKeeps(d: Desk, id: nat, volume: int, price: int)
    requires LedgerOk(d) && Proper(d, OnTraded(id, volume, price))
    ensures LedgerOk(AfterTraded(d, id, volume, price))
  {
    if id in d.orders {
      AcceptedKeeps(d, id);
      TradeOfAccepted(AfterAccepted(d, id), id, volume, price);
      AcceptTwice(d, id);
    }
  }

  lemma AcceptTwice(d: Desk, id: nat)
    ensures AfterAccepted(AfterAccepted(d, id), id) == AfterAccepted(d, id)
    ensures forall volume, price :: AfterTraded(AfterAccepted(d, id), id, volume, price) == AfterTraded(d, id, volume, price)
  {
  }

  lemma TradeOfAccepted(d: Desk, id: nat, volume: int, price: int)
    requires LedgerOk(d) && id in d.orders && d.orders[id].accepted && 0 <= volume <= Remaining(d.orders[id])
    ensures LedgerOk(AfterTraded(d, id, volume, price))
  {
    assert OrderOk(d, id);
    if volume == 0 {
      NothingTraded(d, id, price);
    } else {
      SomeTraded(d, id, volume, price);
    }
  }

  lemma NothingTraded(d: Desk, id: nat, price: int)
    requires LedgerOk(d) && id in d.orders && d.orders[id].accepted && OrderOk(d, id)
    ensures LedgerOk(AfterTraded(d, id, 0, price))
  {
    var o, d' := d.orders[id], AfterTraded(d, id, 0, price);
    NothingFrozen(o.req);
    FillFreezes(d.account, o.req, 0, price);
    hide Frozen, FillFunds, Covered, Booked, Due, FrozenDue;
    assert d'.orders == d.orders;
    assert BookTraded(d, o, 0, price).pools == d.pools;
    Rebooked(d, d', id);
  }

  lemma SomeTraded(d: Desk, id: nat, volume: int, price: int)
    requires LedgerOk(d) && id in d.orders && d.orders[id].accepted && OrderOk(d, id) && 0 < volume <= Remaining(d.orders[id])
    ensures LedgerOk(AfterTraded(d, id, volume, price))
  {
    TradedHoldings(d, id, volume, price);
    var o, d' := d.orders[id], AfterTraded(d, id, volume, price);
    PoolExists(d, o);
    FrozenSplits(o.req, Remaining(o), volume);
    NothingFrozen(o.req);
    hide LedgerOk, UpdatedTraded, HoldingsOk, IsClose, OnLong, PoolOf, Booked, Frozen;
    forall c: Counter | c.pool in d.pools
      ensures Booked(d'.pools, c) == Booked(d.pools, c) + Share(d'.orders, d.pools, c, id) - Share(d.orders, d.pools, c, id)
    {
      TradedBooks(d.pools, o, volume, price, c);
    }
    FillFreezes(d.account, o.req, volume, price);
    Rebooked(d, d', id);
  }

  lemma FillFreezes(a: Account, req: Request, volume: int, price: int)
    ensures FillFunds(a, req, volume, price).frozen == a.frozen - Frozen(req, volume)
  {
  }

  // ---- Moves -----------------------------------------------------------------------------------

  lemma ShiftBooks(pools: Pools, s: string, ticker: nat, direction: Direction, changed: int, c: Counter)
    requires s in pools && c.pool in pools && CanShift(pools[s], ticker, direction, changed)
    ensures var pools' := pools[s := Shifted(pools[s], ticker, direction, changed)];
            && Booked(pools', c) == Booked(pools, c)
            && Side(pools'[c.pool], c.ticker, c.isLong).holdings == Side(pools[c.pool], c.ticker, c.isLong).holdings
                 + if c.pool == s && c.ticker == ticker && c.isLong == (direction == Buy) then changed else 0
  {
    hide Side, WithSide;
    var d := Side(pools[s], ticker, direction == Buy);
    SideOfSet(pools[s], ticker, direction == Buy, d.(holdings := d.holdings + changed), c.ticker, c.isLong);
  }

  lemma ShiftHoldings(pools: Pools, s: string, ticker: nat, direction: Direction, changed: int)
    requires s in pools && HoldingsOk(pools) && CanShift(pools[s], ticker, direction, changed)
    ensures HoldingsOk(pools[s := Shifted(pools[s], ticker, direction, changed)])
  {
    var pools' := pools[s := Shifted(pools[s], ticker, direction, changed)];
    hide Side, Shifted;
    forall x, t, isLong | x in pools'
      ensures Covered(pools', x, t, isLong)
    {
      assert Covered(pools, x, t, isLong);
      ShiftBooks(pools, s, ticker, direction, changed, Counter(x, t, isLong, true));
    }
  }

  lemma MoveKeeps(d: Desk, src: string, dst: string, ticker: nat, direction: Direction, volume: int)
    requires LedgerOk(d)
    ensures LedgerOk(AfterMove(d, src, dst, ticker, direction, volume))
  {
    if CanMove(d.pools, src, dst, ticker, direction, volume) {
      hide Side, Shifted, Due, FrozenDue, Covered, Booked;
      var d' := AfterMove(d, src, dst, ticker, direction, volume);
      var pools1 := d.pools[src := Shifted(d.pools[src], ticker, direction, 0 - volume)];
      ShiftHoldings(d.pools, src, ticker, direction, 0 - volume);
      ShiftHoldings(pools1, dst, ticker, direction, volume);
      forall c: Counter | c.pool in d'.pools
        ensures Booked(d'.pools, c) == Due(d'.orders, d'.pools, c)
      {
        ShiftBooks(d.pools, src, ticker, direction, 0 - volume, c);
        ShiftBooks(pools1, dst, ticker, direction, volume, c);
        DueSamePools(d.orders, d.pools, d'.pools, c);
      }
      forall id | id in d'.orders
        ensures OrderOk(d', id)
      {
        assert OrderOk(d, id);
      }
    }
  }

  /** Everything held by all strategies together, on one side of one ticker. */
  ghost function TotalHoldings(pools: Pools, ticker: nat, isLong: bool): int {
    Sum(pools.Keys, s => HoldingsOf(pools, ticker, isLong, s))
  }

  function HoldingsOf(pools: Pools, ticker: nat, isLong: bool, s: string): int {
    if s in pools then Side(pools[s], ticker, isLong).holdings else 0
  }

  lemma ShiftTotal(pools: Pools, s: string, ticker: nat, direction: Direction, changed: int, t: nat, isLong: bool)
    requires s in pools && CanShift(pools[s], ticker, direction, changed)
    ensures TotalHoldings(pools[s := Shifted(pools[s], ticker, direction, changed)], t, isLong) ==
              TotalHoldings(pools, t, isLong) + if t == ticker && isLong == (direction == Buy) then changed else 0
  {
    var pools' := pools[s := Shifted(pools[s], ticker, direction, changed)];
    ShiftBooks(pools, s, ticker, direction, changed, Counter(s, t, isLong, true));
    hide Side, Shifted;
    assert pools'.Keys == pools.Keys;
    SumChanges(pools.Keys, pools'.Keys, x => HoldingsOf(pools, t, isLong, x), x => HoldingsOf(pools', t, isLong, x), s);
  }

  /** A move between strategies conserves total holdings, whatever it is asked to move. */
  lemma MoveConserves(d: Desk, src: string, dst: string, ticker: nat, direction: Direction, volume: int, t: nat, isLong: bool)
    ensures TotalHoldings(AfterMove(d, src, dst, ticker, direction, volume).pools, t, isLong) == TotalHoldings(d.pools, t, isLong)
  {
    hide TotalHoldings, Shifted;
    if CanMove(d.pools, src, dst, ticker, direction, volume) {
      var pools1 := d.pools[src := Shifted(d.pools[src], ticker, direction, 0 - volume)];
      ShiftTotal(d.pools, src, ticker, direction, 0 - volume, t, isLong);
      ShiftTotal(pools1, dst, ticker, direction, volume, t, isLong);
    }
  }

  // ---- Every event, every run ------------------------------------------------------------------

  lemma EventKeeps(d: Desk, e: Event)
    requires LedgerOk(d) && Proper(d, e)
    ensures LedgerOk(Apply(d, e))
  {
    hide LedgerOk, AfterSend, AfterAccepted, AfterRejected, AfterTraded, AfterCanceled, AfterMove;
    match e
    case SendOrder(strategy, req, withoutCheck, taken) => SendKeeps(d, strategy, req, withoutCheck, taken);
    case OnAccepted(id) => AcceptedKeeps(d, id);
    case OnRejected(id) => RejectedKeeps(d, id);
    case OnTraded(id, volume, price) => TradedKeeps(d, id, volume, price);
    case OnCanceled(id, canceled) => CanceledKeeps(d, id, canceled);
    case MovePosition(src, dst, ticker, direction, moved) => MoveKeeps(d, src, dst, ticker, direction, moved);
  }

  /** In a sound ledger all counters satisfy what the calculator asserts. */
  lemma AllAsserted(d: Desk, s: string, ticker: nat, isLong: bool)
    requires LedgerOk(d) && s in d.pools
    ensures Asserted(Side(d.pools[s], ticker, isLong))
    ensures Side(d.pools[s], ticker, isLong).closePending <= Side(d.pools[s], ticker, isLong).holdings
  {
    BookedNotNegative(d, Counter(s, ticker, isLong, true));
    BookedNotNegative(d, Counter(s, ticker, isLong, false));
    assert Covered(d.pools, s, ticker, isLong);
  }

  /** So a booking that leads to a sound ledger passes the calculator's assertions. */
  lemma SoundPending(d: Desk, d': Desk, o: Order, changed: int)
    requires LedgerOk(d) && LedgerOk(d') && d'.pools == BookPending(d, o, changed).pools
    ensures PoolOf(d.pools, o.strategy) in d.pools
    ensures var req := o.req;
            PendingAsserted(Side(UpdatedPending(d.pools[PoolOf(d.pools, o.strategy)], req.contract.ticker, req.direction, req.offset, changed),
                                 req.contract.ticker, OnLong(req.direction, req.offset)))
  {
    PoolExists(d, o);
    AllAsserted(d', PoolOf(d.pools, o.strategy), o.req.contract.ticker, OnLong(o.req.direction, o.req.offset));
  }

  lemma SoundTraded(d: Desk, d': Desk, o: Order, volume: int, price: int)
    requires LedgerOk(d) && LedgerOk(d') && o.req.contract.size > 0 && d'.pools == BookTraded(d, o, volume, price).pools
    ensures PoolOf(d.pools, o.strategy) in d.pools
    ensures var req := o.req;
            Asserted(Side(UpdatedTraded(d.pools[PoolOf(d.pools, o.strategy)], req.contract.ticker, req.contract.size, req.direction,
                                        req.offset, volume, price),
                          req.contract.ticker, OnLong(req.direction, req.offset)))
  {
    PoolExists(d, o);
    AllAsserted(d', PoolOf(d.pools, o.strategy), o.req.contract.ticker, OnLong(o.req.direction, o.req.offset));
  }
}
