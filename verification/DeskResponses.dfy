/** What strategies are told about their orders, and the exact conditions under which a report
    keeps the ledger right. */
module DeskResponses {
  import opened Positions
  import opened OrderDesk
  import opened DeskInvariant
  import opened DeskEvents

  // ---- Responses ---------------------------------------------------------------------------

  function SumTraded(rs: seq<Response>): int {
    if rs == [] then 0 else SumTraded(rs[..|rs| - 1]) + rs[|rs| - 1].thisTraded
  }

  /** Each response reports as traded the sum of all trades reported so far, its own included. */
  predicate TotalsOk(rs: seq<Response>) {
    forall i :: 0 <= i < |rs| ==> rs[i].traded == SumTraded(rs[..i + 1])
  }

  predicate Running(rs: seq<Response>, traded: int) {
    TotalsOk(rs) && SumTraded(rs) == traded && forall i :: 0 <= i < |rs| ==> !rs[i].completed
  }

  /** Exactly one response is marked completed, the last one. */
  predicate Finished(rs: seq<Response>) {
    rs != [] && TotalsOk(rs) && forall i :: 0 <= i < |rs| ==> (rs[i].completed <==> i == |rs| - 1)
  }

  /** An order is live exactly while its completed response has not been sent. */
  predicate ToldRight(d: Desk, id: nat) {
    if id in d.orders then Running(Sent(d, id), d.orders[id].traded) else Finished(Sent(d, id))
  }

  predicate ResponsesOk(d: Desk) {
    && (forall id :: id in d.sent ==> id < d.nextId)
    && forall id: nat :: id < d.nextId ==> ToldRight(d, id)
  }

  lemma OneMore(rs: seq<Response>, traded: int, r: Response)
    requires Running(rs, traded) && r.traded == traded + r.thisTraded
    ensures if r.completed then Finished(rs + [r]) else Running(rs + [r], r.traded)
  {
    var more := rs + [r];
    assert more[..|rs|] == rs;
    forall i | 0 <= i < |more|
      ensures more[i].traded == SumTraded(more[..i + 1])
    {
      if i < |rs| {
        assert more[..i + 1] == rs[..i + 1];
      } else {
        assert more[..i + 1] == more;
      }
    }
  }

  /** Responses about one order only; the others are told nothing. */
  ghost predicate OthersUntold(d: Desk, d': Desk, id: nat) {
    && (forall k :: k in d'.sent ==> k in d.sent || k == id)
    && forall k: nat :: k != id ==> Sent(d', k) == Sent(d, k)
  }

  lemma OneTold(d: Desk, d': Desk, id: nat)
    requires ResponsesOk(d) && SameExcept(d.orders, d'.orders, id) && OthersUntold(d, d', id)
    requires d'.nextId == d.nextId || (id == d.nextId && d'.nextId == d.nextId + 1)
    requires id < d'.nextId && ToldRight(d', id)
    ensures ResponsesOk(d')
  {
    hide Running, Finished, Sent;
    forall k: nat | k < d'.nextId
      ensures ToldRight(d', k)
    {
      if k != id {
        assert ToldRight(d, k);
        assert Sent(d', k) == Sent(d, k);
      }
    }
  }

  lemma SendTells(d: Desk, strategy: string, req: Request, withoutCheck: bool, taken: bool)
    requires LedgerOk(d) && ResponsesOk(d)
    ensures ResponsesOk(AfterSend(d, strategy, req, withoutCheck, taken))
  {
    hide LedgerOk, Running, Finished, Freeze, Check, UpdatedPending;
    FreshId(d);
    NothingTold(Response(0, 0, true, SendError(d, strategy, req, withoutCheck)));
    NothingTold(Response(0, 0, true, SendFailed));
    OneTold(d, AfterSend(d, strategy, req, withoutCheck, taken), d.nextId);
  }

  lemma FreshId(d: Desk)
    requires LedgerOk(d) && ResponsesOk(d)
    ensures d.nextId !in d.orders && d.nextId !in d.sent
  {
    hide Due, FrozenDue, Booked, Covered, ToldRight;
    IdsAreUsed(d);
  }

  lemma NothingTold(r: Response)
    requires r.completed && r.traded == r.thisTraded == 0
    ensures Running([], 0) && Finished([r]) && Finished([] + [r])
  {
    OneMore([], 0, r);
    assert [] + [r] == [r];
  }

  lemma LiveOrder(d: Desk, id: nat)
    requires LedgerOk(d) && ResponsesOk(d) && id in d.orders
    ensures d.orders[id].id == id < d.nextId && Remaining(d.orders[id]) > 0
    ensures Running(Sent(d, id), d.orders[id].traded)
  {
    hide Due, FrozenDue, Booked, Covered, Running;
    assert OrderOk(d, id);
    assert ToldRight(d, id);
  }

  lemma AcceptedTells(d: Desk, id: nat)
    requires LedgerOk(d) && ResponsesOk(d)
    ensures ResponsesOk(AfterAccepted(d, id))
  {
    hide LedgerOk, Running, Finished;
    if id in d.orders && !d.orders[id].accepted {
      LiveOrder(d, id);
      OneMore(Sent(d, id), d.orders[id].traded, Response(d.orders[id].traded, 0, false, NoError));
      OneTold(d, AfterAccepted(d, id), id);
    }
  }

  lemma RejectedTells(d: Desk, id: nat)
    requires LedgerOk(d) && ResponsesOk(d)
    ensures ResponsesOk(AfterRejected(d, id))
  {
    hide LedgerOk, Running, Finished, Freeze, UpdatedPending;
    if id in d.orders {
      LiveOrder(d, id);
      OneMore(Sent(d, id), d.orders[id].traded, Response(d.orders[id].traded, 0, true, Rejected));
      OneTold(d, AfterRejected(d, id), id);
    }
  }

  lemma TradedTells(d: Desk, id: nat, volume: int, price: int)
    requires LedgerOk(d) && ResponsesOk(d)
    ensures ResponsesOk(AfterTraded(d, id, volume, price))
  {
    hide LedgerOk, Running, Finished, FillFunds, UpdatedTraded, AfterAccepted;
    if id in d.orders {
      AcceptedTells(d, id);
      AcceptedKeeps(d, id);
      var d1 := AfterAccepted(d, id);
      StillLive(d, id);
      LiveOrder(d1, id);
      var o := d1.orders[id].(traded := d1.orders[id].traded + volume);
      OneMore(Sent(d1, id), d1.orders[id].traded, Response(o.traded, volume, Remaining(o) == 0, NoError));
      OneTold(d1, AfterTraded(d, id, volume, price), id);
    }
  }

  lemma StillLive(d: Desk, id: nat)
    requires LedgerOk(d) && id in d.orders
    ensures id in AfterAccepted(d, id).orders && id < AfterAccepted(d, id).nextId
  {
    IdsAreUsed(d);
    hide LedgerOk;
  }

  lemma CanceledTells(d: Desk, id: nat, canceled: int)
    requires LedgerOk(d) && ResponsesOk(d)
    ensures ResponsesOk(AfterCanceled(d, id, canceled))
  {
    hide LedgerOk, Running, Finished, Freeze, UpdatedPending;
    if id in d.orders {
      LiveOrder(d, id);
      var o := d.orders[id].(canceled := canceled);
      OneMore(Sent(d, id), o.traded, Response(o.traded, 0, Remaining(o) == 0, NoError));
      OneTold(d, AfterCanceled(d, id, canceled), id);
    }
  }

  lemma MoveTells(d: Desk, d': Desk)
    requires ResponsesOk(d) && d' == d.(pools := d'.pools)
    ensures ResponsesOk(d')
  {
    hide Running, Finished;
    forall id: nat | id < d'.nextId
      ensures ToldRight(d', id)
    {
      assert ToldRight(d, id);
    }
  }

  lemma EventTells(d: Desk, e: Event)
    requires LedgerOk(d) && ResponsesOk(d)
    ensures ResponsesOk(Apply(d, e))
  {
    hide LedgerOk, ResponsesOk, AfterSend, AfterAccepted, AfterRejected, AfterTraded, AfterCanceled, Moved;
    match e
    case SendOrder(strategy, req, withoutCheck, taken) => SendTells(d, strategy, req, withoutCheck, taken);
    case OnAccepted(id) => AcceptedTells(d, id);
    case OnRejected(id) => RejectedTells(d, id);
    case OnTraded(id, volume, price) => TradedTells(d, id, volume, price);
    case OnCanceled(id, canceled) => CanceledTells(d, id, canceled);
    case MovePosition(src, dst, ticker, direction, moved) => MoveTells(d, AfterMove(d, src, dst, ticker, direction, moved));
  }

  // ---- Runs ----------------------------------------------------------------------------------

  ghost predicate IsRun(desks: seq<Desk>, events: seq<Event>) {
    && |desks| == |events| + 1
    && forall i :: 0 <= i < |events| ==> Proper(desks[i], events[i]) && desks[i + 1] == Apply(desks[i], events[i])
  }

  /** In every state that proper events can reach from a desk without orders, the ledger equals
      the live orders and every order's responses are right. */
  lemma {:induction false} EveryRunIsBooked(desks: seq<Desk>, events: seq<Event>)
    requires IsRun(desks, events) && Init(desks[0]) && desks[0].nextId == 0
    ensures LedgerOk(desks[|events|]) && ResponsesOk(desks[|events|])
  {
    hide LedgerOk, ResponsesOk, Apply, Proper, Init;
    var n := |events| - 1;
    if n < 0 {
      InitLedgerOk(desks[0]);
      InitResponsesOk(desks[0]);
    } else {
      EveryRunIsBooked(desks[..n + 1], events[..n]);
      assert desks[..n + 1][n] == desks[n];
      EventKeeps(desks[n], events[n]);
      EventTells(desks[n], events[n]);
    }
  }

  lemma InitResponsesOk(d: Desk)
    requires Init(d) && d.nextId == 0
    ensures ResponsesOk(d)
  {
  }

  // ---- Exact conditions ------------------------------------------------------------------------

  /** What breaks the ledger is a counter that no longer equals its orders. */
  lemma WrongCounter(d: Desk, d': Desk, id: nat, c: Counter)
    requires LedgerOk(d) && d'.pools.Keys == d.pools.Keys && SameExcept(d.orders, d'.orders, id) && c.pool in d.pools
    requires Booked(d'.pools, c) - Booked(d.pools, c) != Share(d'.orders, d.pools, c, id) - Share(d.orders, d.pools, c, id)
    ensures !LedgerOk(d')
  {
    hide Due, FrozenDue, Booked, Share, Covered;
    DueChanges(d.orders, d'.orders, d.pools, id, c);
    DueSamePools(d'.orders, d.pools, d'.pools, c);
    assert Booked(d.pools, c) == Due(d.orders, d.pools, c);
  }

  /** A rejection releases the whole volume: right exactly for orders that were not touched. */
  lemma RejectKeepsIff(d: Desk, id: nat)
    requires LedgerOk(d) && id in d.orders
    ensures LedgerOk(AfterRejected(d, id)) <==> d.orders[id].traded == 0 && d.orders[id].canceled == 0
  {
    var o, d' := d.orders[id], AfterRejected(d, id);
    assert OrderOk(d, id);
    if o.traded == 0 && o.canceled == 0 {
      RejectedKeeps(d, id);
    } else {
      PoolExists(d, o);
      PendingBooks(d.pools, o, 0 - o.req.volume, CounterOf(d.pools, o));
      hide LedgerOk, UpdatedPending, Booked, Freeze;
      WrongCounter(d, d', id, CounterOf(d.pools, o));
    }
  }

  lemma BadOrder(d: Desk, id: nat)
    requires id in d.orders && !OrderOk(d, id)
    ensures !LedgerOk(d)
  {
    hide Due, FrozenDue, Booked, Covered, OrderOk;
  }

  /** A cancel report sets the canceled volume but releases it as if it were new: right exactly
      for the first one, of at most what remains. */
  lemma CancelKeepsIff(d: Desk, id: nat, canceled: int)
    requires LedgerOk(d) && id in d.orders
    ensures LedgerOk(AfterCanceled(d, id, canceled)) <==> d.orders[id].canceled == 0 && 0 <= canceled <= Remaining(d.orders[id])
  {
    var o, d' := d.orders[id], AfterCanceled(d, id, canceled);
    assert OrderOk(d, id);
    if o.canceled == 0 && 0 <= canceled <= Remaining(o) {
      CanceledKeeps(d, id, canceled);
    } else if 0 <= canceled <= o.req.volume - o.traded {
      PoolExists(d, o);
      PendingBooks(d.pools, o, 0 - canceled, CounterOf(d.pools, o));
      hide LedgerOk, UpdatedPending, Booked, Freeze;
      WrongCounter(d, d', id, CounterOf(d.pools, o));
    } else {
      hide LedgerOk, UpdatedPending, Freeze;
      BadOrder(d', id);
    }
  }

  /** A trade report with a negative volume changes the order but not the positions; one beyond
      what remains leaves an order that never ends. */
  lemma TradeKeepsIff(d: Desk, id: nat, volume: int, price: int)
    requires LedgerOk(d) && id in d.orders
    ensures LedgerOk(AfterTraded(d, id, volume, price)) <==> 0 <= volume <= Remaining(d.orders[id])
  {
    var o, d' := d.orders[id], AfterTraded(d, id, volume, price);
    assert OrderOk(d, id);
    if 0 <= volume <= Remaining(o) {
      TradedKeeps(d, id, volume, price);
    } else if volume < 0 {
      PoolExists(d, o);
      hide LedgerOk, Booked, FillFunds;
      assert d'.pools == d.pools;
      WrongCounter(d, d', id, CounterOf(d.pools, o));
    } else {
      hide LedgerOk, UpdatedTraded, FillFunds;
      BadOrder(d', id);
    }
  }

  /** Sending is booked right exactly when the order is stopped by a check, or has volume, is
      taken by the gateway and closes no more than there is to close. An order without volume is
      booked right only if the gateway refuses it. */
  lemma SendKeepsIff(d: Desk, strategy: string, req: Request, withoutCheck: bool, taken: bool)
    requires LedgerOk(d) && req.contract.size > 0
    ensures LedgerOk(AfterSend(d, strategy, req, withoutCheck, taken)) <==>
              || SendError(d, strategy, req, withoutCheck) != NoError
              || (if taken then req.volume > 0 && CanClose(d.pools, strategy, req) else req.volume == 0)
  {
    var d', o := AfterSend(d, strategy, req, withoutCheck, taken), NewOrder(d, strategy, req);
    IdsAreUsed(d);
    if SendError(d, strategy, req, withoutCheck) != NoError {
      SameLedgerAfter(d, d');
    } else if !taken {
      FailedSend(d, strategy, req, withoutCheck);
    } else if req.volume <= 0 {
      hide LedgerOk, UpdatedPending, Freeze, Check;
      BadOrder(d', o.id);
    } else if CanClose(d.pools, strategy, req) {
      SendKeeps(d, strategy, req, withoutCheck, taken);
    } else {
      PoolExists(d, o);
      var c := CounterOf(d.pools, o);
      PendingBooks(d.pools, o, req.volume, c);
      hide LedgerOk, UpdatedPending, Freeze, Check, OnLong;
      NotCovered(d', c.pool, c.ticker, c.isLong);
    }
  }

  lemma SameLedgerAfter(d: Desk, d': Desk)
    requires LedgerOk(d) && d'.orders == d.orders && d'.pools == d.pools && d'.account == d.account && d'.nextId >= d.nextId
    ensures LedgerOk(d')
  {
    hide LedgerOk;
    SameLedger(d, d');
  }

  lemma NotCovered(d: Desk, s: string, ticker: nat, isLong: bool)
    requires s in d.pools && !Covered(d.pools, s, ticker, isLong)
    ensures !LedgerOk(d)
  {
    hide Due, FrozenDue, Booked, Covered, OrderOk;
  }

  /** A failed send releases what was never booked. */
  lemma FailedSend(d: Desk, strategy: string, req: Request, withoutCheck: bool)
    requires LedgerOk(d) && SendError(d, strategy, req, withoutCheck) == NoError
    ensures LedgerOk(AfterSend(d, strategy, req, withoutCheck, false)) <==> req.volume == 0
  {
    var d', o := AfterSend(d, strategy, req, withoutCheck, false), NewOrder(d, strategy, req);
    IdsAreUsed(d);
    PoolExists(d, o);
    if req.volume == 0 {
      NothingFrozen(req);
      hide LedgerOk, Check, Frozen;
      SameLedger(d, d');
    } else {
      PendingBooks(d.pools, o, 0 - req.volume, CounterOf(d.pools, o));
      hide LedgerOk, UpdatedPending, Booked, Freeze, Check;
      WrongCounter(d, d', o.id, CounterOf(d.pools, o));
    }
  }

  /** An order without volume is reported completed when it is accepted, and stays. */
  lemma EmptyOrderStays(d: Desk, strategy: string, req: Request, withoutCheck: bool)
    requires req.volume == 0 && SendError(d, strategy, req, withoutCheck) == NoError
    ensures var d', id := AfterAccepted(AfterSend(d, strategy, req, withoutCheck, true), d.nextId), d.nextId;
            id in d'.orders && Sent(d', id) != [] && Sent(d', id)[|Sent(d', id)| - 1].completed
  {
    hide Check, Freeze;
  }

  // ---- Reports that break the ledger ------------------------------------------------------------

  const EMPTY_DESK := Desk(map[], map[COMMON_POS_POOL := map[]], Account(100, 0, 0), map[], 0)

  const TWO_LOTS := Request(Contract(1, 1, 1, 1), Buy, Open, 2, 10)

  function OneOrder(): Desk {
    AfterSend(EMPTY_DESK, COMMON_POS_POOL, TWO_LOTS, false, true)
  }

  lemma OneOrderIsBooked()
    ensures LedgerOk(OneOrder())
    ensures OneOrder().orders == map[0 := Order(0, COMMON_POS_POOL, TWO_LOTS, false, 0, 0)]
  {
    OpenOrClose(Open);
    assert Init(EMPTY_DESK);
    InitLedgerOk(EMPTY_DESK);
    SendKeeps(EMPTY_DESK, COMMON_POS_POOL, TWO_LOTS, false, true);
  }

  /** A rejection after half of the order traded. */
  lemma RejectAfterTradeBreaks()
    ensures var d := AfterTraded(OneOrder(), 0, 1, 10);
            LedgerOk(d) && !LedgerOk(AfterRejected(d, 0))
  {
    hide LedgerOk, OneOrder;
    OneOrderIsBooked();
    TradeKeepsIff(OneOrder(), 0, 1, 10);
    RejectKeepsIff(AfterTraded(OneOrder(), 0, 1, 10), 0);
  }

  /** The same cancel report twice. */
  lemma SecondCancelBreaks()
    ensures var d := AfterCanceled(OneOrder(), 0, 1);
            LedgerOk(d) && !LedgerOk(AfterCanceled(d, 0, 1))
  {
    hide LedgerOk, OneOrder, AfterCanceled;
    OneOrderIsBooked();
    PartCanceled(OneOrder(), 0, 1);
    CancelKeepsIff(OneOrder(), 0, 1);
    CancelKeepsIff(AfterCanceled(OneOrder(), 0, 1), 0, 1);
  }

  lemma PartCanceled(d: Desk, id: nat, canceled: int)
    requires id in d.orders && d.orders[id].traded + canceled < d.orders[id].req.volume
    ensures id in AfterCanceled(d, id, canceled).orders
    ensures AfterCanceled(d, id, canceled).orders[id] == d.orders[id].(canceled := canceled)
  {
    hide UpdatedPending, Freeze;
  }

  /** A trade report beyond the volume. */
  lemma TradeBeyondBreaks()
    ensures LedgerOk(OneOrder()) && !LedgerOk(AfterTraded(OneOrder(), 0, 3, 10))
  {
    hide LedgerOk, OneOrder;
    OneOrderIsBooked();
    TradeKeepsIff(OneOrder(), 0, 3, 10);
  }

  /** A send that fails. */
  lemma FailedSendBreaks()
    ensures LedgerOk(EMPTY_DESK) && !LedgerOk(AfterSend(EMPTY_DESK, COMMON_POS_POOL, TWO_LOTS, false, false))
  {
    InitLedgerOk(EMPTY_DESK);
    hide LedgerOk;
    FailedSend(EMPTY_DESK, COMMON_POS_POOL, TWO_LOTS, false);
  }
}
