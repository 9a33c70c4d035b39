/** The order management system in its object: each command and each gateway report changes the
    order map, the positions, the funds and the responses exactly as the desk says, wherever the
    assertions of the position calculator hold; and in a sound ledger they do. */
module Oms {
  import opened Positions
  import opened OrderDesk
  import opened DeskInvariant
  import opened DeskEvents

  // ---- What the position calculator asserts on the way ------------------------------------------

  predicate PendingSound(d: Desk, o: Order, changed: int) {
    PoolOf(d.pools, o.strategy) in d.pools &&
    var req := o.req;
    changed != 0 ==>
      PendingAsserted(Side(UpdatedPending(d.pools[PoolOf(d.pools, o.strategy)], req.contract.ticker, req.direction, req.offset, changed),
                           req.contract.ticker, OnLong(req.direction, req.offset)))
  }

  predicate TradedSound(d: Desk, o: Order, volume: int, price: int) {
    PoolOf(d.pools, o.strategy) in d.pools &&
    var req := o.req;
    volume > 0 ==>
      req.contract.size > 0 &&
      Asserted(Side(UpdatedTraded(d.pools[PoolOf(d.pools, o.strategy)], req.contract.ticker, req.contract.size, req.direction,
                                  req.offset, volume, price),
                    req.contract.ticker, OnLong(req.direction, req.offset)))
  }

  function HookedTrade(d: Desk, o: Order, volume: int, price: int): Desk {
    BookTraded(d, o, volume, price).(account := FillFunds(d.account, o.req, volume, price))
  }

  /** The assertions of the calculator hold for what an event changes. */
  predicate Asserts(d: Desk, e: Event) {
    match e
    case SendOrder(strategy, req, withoutCheck, taken) =>
      SendError(d, strategy, req, withoutCheck) == NoError ==>
        PendingSound(d, NewOrder(d, strategy, req), if taken then req.volume else 0 - req.volume)
    case OnRejected(id) => id in d.orders ==> PendingSound(d, d.orders[id], 0 - d.orders[id].req.volume)
    case OnTraded(id, volume, price) => id in d.orders ==> TradedSound(d, d.orders[id], volume, price)
    case OnCanceled(id, canceled) => id in d.orders ==> PendingSound(d, d.orders[id], 0 - canceled)
    case _ => true
  }

  /** In a sound ledger no proper event makes an assertion fail, and the ledger stays sound. */
  lemma ProperAsserts(d: Desk, e: Event)
    requires LedgerOk(d) && Proper(d, e)
    ensures Asserts(d, e) && LedgerOk(Apply(d, e))
  {
    EventKeeps(d, e);
    match e
    case SendOrder(strategy, req, withoutCheck, taken) =>
      if SendError(d, strategy, req, withoutCheck) == NoError {
        hide LedgerOk, SendError, Freeze, UpdatedPending, Side, PendingAsserted;
        SoundPending(d, Apply(d, e), NewOrder(d, strategy, req), req.volume);
      }
    case OnRejected(id) =>
      if id in d.orders {
        hide LedgerOk, Freeze, UpdatedPending, Side, PendingAsserted;
        SoundPending(d, Apply(d, e), d.orders[id], 0 - d.orders[id].req.volume);
      }
    case OnTraded(id, volume, price) => if id in d.orders { TradedIsSound(d, id, volume, price); }
    case OnCanceled(id, canceled) =>
      if id in d.orders {
        hide LedgerOk, Freeze, UpdatedPending, Side, PendingAsserted;
        SoundPending(d, Apply(d, e), d.orders[id].(canceled := canceled), 0 - canceled);
      }
    case _ =>
  }

  lemma TradedIsSound(d: Desk, id: nat, volume: int, price: int)
    requires LedgerOk(d) && id in d.orders && LedgerOk(AfterTraded(d, id, volume, price))
    ensures TradedSound(d, d.orders[id], volume, price)
  {
    assert OrderOk(d, id);
    hide LedgerOk, FillFunds, UpdatedTraded, Side, Asserted;
    SoundTraded(d, AfterTraded(d, id, volume, price), d.orders[id], volume, price);
  }

  // ---- Each event in the steps its method takes ------------------------------------------------

  lemma SendPlan(d: Desk, strategy: string, req: Request, withoutCheck: bool, taken: bool)
    requires Asserts(d, Event.SendOrder(strategy, req, withoutCheck, taken))
    ensures var o, d1 := NewOrder(d, strategy, req), d.(nextId := d.nextId + 1);
            var error := SendError(d, strategy, req, withoutCheck);
            if error != NoError then AfterSend(d, strategy, req, withoutCheck, taken) == Respond(d1, o, 0, error)
            else if !taken then
              && PendingSound(d1, o, 0 - req.volume)
              && AfterSend(d, strategy, req, withoutCheck, taken) == Respond(Hooked(d1, o, 0 - req.volume), o, 0, SendFailed)
            else
              && PendingSound(d1.(orders := d1.orders[o.id := o]), o, req.volume)
              && AfterSend(d, strategy, req, withoutCheck, taken) == Hooked(d1.(orders := d1.orders[o.id := o]), o, req.volume)
  {
    hide SendError, Freeze, UpdatedPending, Side, PendingAsserted;
  }

  lemma AcceptedPlan(d: Desk, id: nat)
    ensures if id !in d.orders || d.orders[id].accepted then AfterAccepted(d, id) == d
            else var o := d.orders[id].(accepted := true);
                 AfterAccepted(d, id) == Respond(d.(orders := d.orders[id := o]), o, 0, NoError)
  {
  }

  lemma RejectedPlan(d: Desk, id: nat)
    requires Asserts(d, OnRejected(id))
    ensures if id !in d.orders then AfterRejected(d, id) == d
            else var o := d.orders[id];
                 && PendingSound(d, o, 0 - o.req.volume)
                 && AfterRejected(d, id) == Respond(Hooked(d, o, 0 - o.req.volume), o, 0, Rejected).(orders := d.orders - {id})
                 && Respond(Hooked(d, o, 0 - o.req.volume), o, 0, Rejected).orders == d.orders
  {
    hide Freeze, UpdatedPending, Side, PendingAsserted;
  }

  lemma TradedPlan(d: Desk, id: nat, volume: int, price: int)
    requires Asserts(d, OnTraded(id, volume, price))
    ensures id in AfterAccepted(d, id).orders <==> id in d.orders
    ensures if id !in d.orders then AfterTraded(d, id, volume, price) == d == AfterAccepted(d, id)
            else var d1 := AfterAccepted(d, id);
                 var o := d1.orders[id].(traded := d1.orders[id].traded + volume);
                 var d2 := d1.(orders := d1.orders[id := o]);
                 && TradedSound(d2, o, volume, price)
                 && AfterTraded(d, id, volume, price) == Settle(Respond(HookedTrade(d2, o, volume, price), o, volume, NoError), o)
  {
    hide FillFunds, UpdatedTraded, Side, Asserted;
  }

  lemma CanceledPlan(d: Desk, id: nat, canceled: int)
    requires Asserts(d, OnCanceled(id, canceled))
    ensures if id !in d.orders then AfterCanceled(d, id, canceled) == d
            else var o := d.orders[id].(canceled := canceled);
                 var d1 := d.(orders := d.orders[id := o]);
                 && PendingSound(d1, o, 0 - canceled)
                 && AfterCanceled(d, id, canceled) == Settle(Respond(Hooked(d1, o, 0 - canceled), o, 0, NoError), o)
  {
    hide Freeze, UpdatedPending, Side, PendingAsserted;
  }

  // ---- The object -----------------------------------------------------------------------------

  class OrderManagementSystem {
    const posManager: PositionManager
    var orderMap: map<nat, Order>
    var account: Account
    var sent: map<nat, seq<Response>>
    var nextId: nat

    ghost function View(): Desk
      reads this, posManager.calculators.Values
    {
      Desk(orderMap, posManager.View(), account, sent, nextId)
    }

    ghost predicate Valid()
      reads this, posManager.calculators.Values
    {
      posManager.Valid()
    }

    constructor (posManager: PositionManager, account: Account)
      requires posManager.Valid()
      ensures Valid() && this.posManager == posManager && View() == Desk(map[], posManager.View(), account, map[], 0)
    {
      this.posManager, this.account := posManager, account;
      orderMap, sent, nextId := map[], map[], 0;
    }

    method SendRspToStrategy(order: Order, thisTraded: int, error: ErrorCode)
      requires posManager.Valid()
      modifies this`sent
      ensures posManager.Valid() && View() == Respond(old(View()), order, thisTraded, error)
    {
      var completed := order.canceled + order.traded == order.req.volume || error != NoError;
      var before := if order.id in sent then sent[order.id] else [];
      sent := sent[order.id := before + [Response(order.traded, thisTraded, completed, error)]];
    }

    /** The hooks of FundRisk and PositionRisk around a pending change. */
    method ChangePending(order: Order, changed: int)
      requires posManager.Valid() && PendingSound(View(), order, changed)
      modifies this`account, posManager.calculators.Values
      ensures posManager.Valid()
      ensures View() == Hooked(old(View()), order, changed)
    {
      account := Freeze(account, order.req, changed);
      posManager.UpdatePending(order.strategy, order.req.contract.ticker, order.req.direction, order.req.offset, changed);
    }

    /** The same hooks around a trade. */
    method ChangeTraded(order: Order, volume: int, price: int)
      requires posManager.Valid() && TradedSound(View(), order, volume, price)
      modifies this`account, posManager.calculators.Values
      ensures posManager.Valid()
      ensures View() == HookedTrade(old(View()), order, volume, price)
    {
      var req := order.req;
      account := FillFunds(account, req, volume, price);
      posManager.UpdateTraded(order.strategy, req.contract.ticker, req.contract.size, req.direction, req.offset, volume, price);
    }

    /** Erases an order of which nothing remains. */
    method SettleOrder(order: Order)
      requires posManager.Valid()
      modifies this`orderMap
      ensures posManager.Valid() && View() == Settle(old(View()), order)
    {
      if order.traded + order.canceled == order.req.volume { orderMap := orderMap - {order.id}; }
    }

    /** The checks of FundRisk and PositionRisk. */
    method CheckOrder(strategy: string, req: Request) returns (error: ErrorCode)
      requires posManager.Valid()
      ensures error == Check(View(), strategy, req)
    {
      if req.direction != UnknownDirection && !IsClose(req.offset) {
        var estimated := req.volume * UnitMargin(req, req.price);
        if account.cash * 11 < estimated * 10 { return FundNotEnough; }
      }
      if IsClose(req.offset) {
        var available := 0;
        var found, position := posManager.GetPosition(strategy, req.contract.ticker);
        if found {
          var detail := if req.direction == Buy then position.shortPos else position.longPos;
          available := detail.holdings - detail.closePending;
        }
        if available < req.volume { return PositionNotEnough; }
      }
      return NoError;
    }

    /** SendOrder; `taken` is the answer of the gateway. */
    method SendOrder(strategy: string, req: Request, withoutCheck: bool, taken: bool) returns (sentOut: bool)
      requires Valid() && Asserts(View(), Event.SendOrder(strategy, req, withoutCheck, taken))
      modifies this, posManager.calculators.Values
      ensures Valid() && View() == AfterSend(old(View()), strategy, req, withoutCheck, taken)
      ensures sentOut <==> SendError(old(View()), strategy, req, withoutCheck) == NoError && taken
    {
      hide Asserts, SendError, Check, Freeze, FillFunds, BookPending, BookTraded, Settle, Respond, AfterSend, AfterAccepted, AfterRejected, AfterTraded,
        AfterCanceled, UpdatedPending, UpdatedTraded, PositionManager.View, PositionManager.Valid, PendingSound, TradedSound, Hooked, HookedTrade;
      ghost var d := View();
      SendPlan(d, strategy, req, withoutCheck, taken);
      var order := Order(nextId, strategy, req, false, 0, 0);
      var error := NoError;
      if !withoutCheck { error := CheckOrder(strategy, req); }
      ErrorOfSend(d, strategy, req, withoutCheck);
      nextId := nextId + 1;
      if error != NoError {
        SendRspToStrategy(order, 0, error);
        return false;
      }
      if !taken {
        ChangePending(order, 0 - req.volume);
        SendRspToStrategy(order, 0, SendFailed);
        return false;
      }
      orderMap := orderMap[order.id := order];
      ChangePending(order, req.volume);
      return true;
    }

    lemma ErrorOfSend(d: Desk, strategy: string, req: Request, withoutCheck: bool)
      ensures SendError(d, strategy, req, withoutCheck) == if withoutCheck then NoError else Check(d, strategy, req)
    {
    }

    method OnOrderAccepted(id: nat)
      requires Valid()
      modifies this, posManager.calculators.Values
      ensures Valid() && View() == AfterAccepted(old(View()), id)
    {
      hide Asserts, SendError, Check, Freeze, FillFunds, BookPending, BookTraded, Settle, Respond, AfterSend, AfterAccepted, AfterRejected, AfterTraded,
        AfterCanceled, UpdatedPending, UpdatedTraded, PositionManager.View, PositionManager.Valid, PendingSound, TradedSound, Hooked, HookedTrade;
      AcceptedPlan(View(), id);
      if id !in orderMap || orderMap[id].accepted { return; }
      var order := orderMap[id].(accepted := true);
      orderMap := orderMap[id := order];
      SendRspToStrategy(order, 0, NoError);
    }

    method OnOrderRejected(id: nat)
      requires Valid() && Asserts(View(), OnRejected(id))
      modifies this, posManager.calculators.Values
      ensures Valid() && View() == AfterRejected(old(View()), id)
    {
      hide Asserts, SendError, Check, Freeze, FillFunds, BookPending, BookTraded, Settle, Respond, AfterSend, AfterAccepted, AfterRejected, AfterTraded,
        AfterCanceled, UpdatedPending, UpdatedTraded, PositionManager.View, PositionManager.Valid, PendingSound, TradedSound, Hooked, HookedTrade;
      ghost var d := View();
      RejectedPlan(d, id);
      if id !in orderMap { return; }
      var order := orderMap[id];
      ChangePending(order, 0 - order.req.volume);
      SendRspToStrategy(order, 0, Rejected);
      orderMap := orderMap - {id};
    }

    method OnOrderTraded(id: nat, volume: int, price: int)
      requires Valid() && Asserts(View(), OnTraded(id, volume, price))
      modifies this, posManager.calculators.Values
      ensures Valid() && View() == AfterTraded(old(View()), id, volume, price)
    {
      hide Asserts, SendError, Check, Freeze, FillFunds, BookPending, BookTraded, Settle, Respond, AfterSend, AfterAccepted, AfterRejected, AfterTraded,
        AfterCanceled, UpdatedPending, UpdatedTraded, PositionManager.View, PositionManager.Valid, PendingSound, TradedSound, Hooked, HookedTrade;
      ghost var d := View();
      TradedPlan(d, id, volume, price);
      OnOrderAccepted(id);
      if id !in orderMap { return; }
      var order := orderMap[id].(traded := orderMap[id].traded + volume);
      orderMap := orderMap[id := order];
      ChangeTraded(order, volume, price);
      SendRspToStrategy(order, volume, NoError);
      SettleOrder(order);
    }

    method OnOrderCanceled(id: nat, canceled: int)
      requires Valid() && Asserts(View(), OnCanceled(id, canceled))
      modifies this, posManager.calculators.Values
      ensures Valid() && View() == AfterCanceled(old(View()), id, canceled)
    {
      hide Asserts, SendError, Check, Freeze, FillFunds, BookPending, BookTraded, Settle, Respond, AfterSend, AfterAccepted, AfterRejected, AfterTraded,
        AfterCanceled, UpdatedPending, UpdatedTraded, PositionManager.View, PositionManager.Valid, PendingSound, TradedSound, Hooked, HookedTrade;
      ghost var d := View();
      CanceledPlan(d, id, canceled);
      if id !in orderMap { return; }
      var order := orderMap[id].(canceled := canceled);
      orderMap := orderMap[id := order];
      ChangePending(order, 0 - canceled);
      SendRspToStrategy(order, 0, NoError);
      SettleOrder(order);
    }

    /** A proper command or report, on a sound ledger: no assertion fails and the ledger stays sound. */
    method Handle(e: Event)
      requires Valid() && LedgerOk(View()) && Proper(View(), e)
      modifies this, posManager.calculators.Values
      ensures Valid() && LedgerOk(View()) && View() == Apply(old(View()), e)
    {
      hide LedgerOk, Proper, Asserts, AfterSend, AfterAccepted, AfterRejected, AfterTraded, AfterCanceled, Moved, CanMove;
      ProperAsserts(View(), e);
      match e {
        case SendOrder(strategy, req, withoutCheck, taken) => var sentOut := SendOrder(strategy, req, withoutCheck, taken);
        case OnAccepted(id) => OnOrderAccepted(id);
        case OnRejected(id) => OnOrderRejected(id);
        case OnTraded(id, volume, price) => OnOrderTraded(id, volume, price);
        case OnCanceled(id, canceled) => OnOrderCanceled(id, canceled);
        case MovePosition(src, dst, ticker, direction, moved) =>
          var ok := posManager.MovePosition(src, dst, ticker, direction, moved);
      }
    }
  }
}
