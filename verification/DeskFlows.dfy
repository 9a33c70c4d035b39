/** What orders and trades do to what is held, promised and paid, said of the long and the short
    side themselves; and over whole runs, what was traded is what is held and what was told. */
module DeskFlows {
  import opened Positions
  import opened OrderDesk
  import opened DeskInvariant
  import opened DeskEvents
  import opened DeskResponses

  // ---- Moves -------------------------------------------------------------------------------

  /** A move takes longs from longs and shorts from shorts. */
  lemma MoveSides(pools: Pools, src: string, dst: string, ticker: nat, direction: Direction, volume: int)
    requires CanMove(pools, src, dst, ticker, direction, volume) && BuyOrSell(direction) && src != dst
    ensures var pools' := Moved(pools, src, dst, ticker, direction, volume);
            var a, a', b, b' := At(pools[src], ticker), At(pools'[src], ticker), At(pools[dst], ticker), At(pools'[dst], ticker);
            && Net(a') == Net(a) - Signed(direction, volume) && Gross(a') == Gross(a) - volume
            && Net(b') == Net(b) + Signed(direction, volume) && Gross(b') == Gross(b) + volume
            && a'.longPos.closePending == a.longPos.closePending && a'.shortPos.closePending == a.shortPos.closePending
            && a'.longPos.holdings - a'.longPos.closePending >= (if direction == Buy && volume > 0 then 0 else a.longPos.holdings - a.longPos.closePending)
            && a'.shortPos.holdings - a'.shortPos.closePending >= (if direction == Sell && volume > 0 then 0 else a.shortPos.holdings - a.shortPos.closePending)
            && forall s :: s in pools && s != src && s != dst ==> pools'[s] == pools[s]
  {
  }

  // ---- The checks --------------------------------------------------------------------------

  /** A closing order passes the position check exactly when the other side holds, unpromised, what
      it is to close; a strategy without a pool of its own holds nothing. */
  lemma CheckClosesWhatIsFree(pools: Pools, strategy: string, req: Request)
    requires BuyOrSell(req.direction)
    ensures PositionCheck(pools, strategy, req) == NoError <==>
              || req.offset == Open
              || (strategy !in pools && req.volume <= 0)
              || (strategy in pools
                  && var p := At(pools[strategy], req.contract.ticker);
                     if req.direction == Buy then req.volume <= p.shortPos.holdings - p.shortPos.closePending
                     else req.volume <= p.longPos.holdings - p.longPos.closePending)
  {
    OpenOrClose(req.offset);
  }

  /** The money an opening order needs at a price, in the rates of its contract. */
  function Needs(req: Request, volume: int, price: int): int {
    if req.direction == Buy then price * volume * req.contract.size * req.contract.longMarginRate
    else price * volume * req.contract.size * req.contract.shortMarginRate
  }

  lemma MarginIsNeed(req: Request, volume: int, price: int)
    ensures volume * UnitMargin(req, price) == Needs(req, volume, price)
  {
    var s, r := req.contract.size, Rate(req);
    hide Rate;
    Regroup(volume, s, price, r);
    RateIs(req);
  }

  lemma RateIs(req: Request)
    ensures Rate(req) == if req.direction == Buy then req.contract.longMarginRate else req.contract.shortMarginRate
  {
  }

  lemma Regroup(v: int, s: int, p: int, r: int)
    ensures v * (s * p * r) == p * v * s * r
  {
    assert v * (s * p * r) == (v * (s * p)) * r;
    assert v * (s * p) == p * v * s;
  }

  /** An opening buy or sell passes the fund check exactly when it needs at most eleven tenths of
      the cash; a closing order always. */
  lemma CheckNeedsCash(a: Account, req: Request)
    requires BuyOrSell(req.direction)
    ensures FundCheck(a, req) <==> req.offset != Open || 10 * Needs(req, req.volume, req.price) <= 11 * a.cash
  {
    OpenOrClose(req.offset);
    MarginIsNeed(req, req.volume, req.price);
  }

  /** A checked order that is sent takes what it needs out of the cash if it opens, and leaves at
      least minus a tenth of it; a closing order takes nothing. */
  lemma SentIsAffordable(d: Desk, strategy: string, req: Request)
    requires BuyOrSell(req.direction) && SendError(d, strategy, req, false) == NoError
    ensures var a, a' := d.account, AfterSend(d, strategy, req, false, true).account;
            && a'.cash + a'.frozen == a.cash + a.frozen && a'.margin == a.margin
            && a.cash - a'.cash == (if req.offset == Open then Needs(req, req.volume, req.price) else 0)
            && (req.offset == Open ==> 10 * a'.cash >= -a.cash)
  {
    OpenOrClose(req.offset);
    MarginIsNeed(req, req.volume, req.price);
    CheckNeedsCash(d.account, req);
    hide UnitMargin, Needs, UpdatedPending;
  }

  /** A trade that opens turns what was frozen for it, at the price of the order, into margin at the
      price of the trade; the cash pays the difference. One that closes gives its margin back. */
  lemma TradePays(a: Account, req: Request, volume: int, price: int)
    ensures var a' := FillFunds(a, req, volume, price);
            var asked, paid := Needs(req, volume, req.price), Needs(req, volume, price);
            if req.offset == Open then a' == Account(a.cash + asked - paid, a.frozen - asked, a.margin + paid)
            else a'.cash == a.cash + paid && a'.frozen == a.frozen && a'.margin >= 0 && (a'.margin == a.margin - paid || (a'.margin == 0 && paid > a.margin))
  {
    OpenOrClose(req.offset);
    MarginIsNeed(req, volume, price);
    MarginIsNeed(req, volume, req.price);
    hide UnitMargin, Needs;
  }

  // ---- What is held is what was traded -------------------------------------------------------

  /** Everything held by all strategies together, long less short. */
  ghost function TotalNet(pools: Pools, ticker: nat): int {
    TotalHoldings(pools, ticker, true) - TotalHoldings(pools, ticker, false)
  }

  lemma OnePoolChanges(pools: Pools, pools': Pools, s: string, ticker: nat, isLong: bool, changed: int)
    requires s in pools && pools'.Keys == pools.Keys && forall x :: x in pools && x != s ==> pools'[x] == pools[x]
    requires HoldingsOf(pools', ticker, isLong, s) == HoldingsOf(pools, ticker, isLong, s) + changed
    ensures TotalHoldings(pools', ticker, isLong) == TotalHoldings(pools, ticker, isLong) + changed
  {
    hide Side;
    SumChanges(pools.Keys, pools'.Keys, x => HoldingsOf(pools, ticker, isLong, x), x => HoldingsOf(pools', ticker, isLong, x), s);
  }

  lemma PendingHoldsNothing(d: Desk, o: Order, changed: int, ticker: nat)
    ensures TotalNet(BookPending(d, o, changed).pools, ticker) == TotalNet(d.pools, ticker)
  {
    var s := PoolOf(d.pools, o.strategy);
    if s in d.pools {
      hide TotalHoldings, Booked, UpdatedPending, Side, PoolOf;
      PendingBooks(d.pools, o, changed, Counter(s, ticker, true, true));
      PendingBooks(d.pools, o, changed, Counter(s, ticker, false, true));
      OnePoolChanges(d.pools, BookPending(d, o, changed).pools, s, ticker, true, 0);
      OnePoolChanges(d.pools, BookPending(d, o, changed).pools, s, ticker, false, 0);
    }
  }

  /** Buys move what is held up, and all others down, however they are booked. */
  lemma TradedNet(pool: Pool, ticker: nat, size: int, direction: Direction, offset: Offset, traded: int, price: int, t: nat)
    requires traded >= 0 && size > 0
    ensures Net(At(UpdatedTraded(pool, ticker, size, direction, offset, traded, price), t)) ==
              Net(At(pool, t)) + if t == ticker then Signed(direction, traded) else 0
  {
    if traded > 0 {
      FilledCounts(Side(pool, ticker, OnLong(direction, offset)), offset, size, traded, price);
      hide Filled, IsClose;
    }
  }

  lemma TradeHolds(d: Desk, o: Order, traded: int, price: int, ticker: nat)
    requires PoolOf(d.pools, o.strategy) in d.pools && o.req.contract.size > 0 && traded >= 0
    ensures TotalNet(BookTraded(d, o, traded, price).pools, ticker) ==
              TotalNet(d.pools, ticker) + if ticker == o.req.contract.ticker then Signed(o.req.direction, traded) else 0
  {
    var s, req := PoolOf(d.pools, o.strategy), o.req;
    var pool' := UpdatedTraded(d.pools[s], req.contract.ticker, req.contract.size, req.direction, req.offset, traded, price);
    var pools' := d.pools[s := pool'];
    TradedNet(d.pools[s], req.contract.ticker, req.contract.size, req.direction, req.offset, traded, price, ticker);
    hide TotalHoldings, UpdatedTraded, PoolOf;
    var before, after := At(d.pools[s], ticker), At(pool', ticker);
    OnePoolChanges(d.pools, pools', s, ticker, true, after.longPos.holdings - before.longPos.holdings);
    OnePoolChanges(d.pools, pools', s, ticker, false, after.shortPos.holdings - before.shortPos.holdings);
  }

  /** What an event trades of one ticker: a report about a live order, with its sign. */
  function TradedBy(d: Desk, e: Event, ticker: nat): int {
    if e.OnTraded? && e.id in d.orders && d.orders[e.id].req.contract.ticker == ticker then
      Signed(d.orders[e.id].req.direction, e.volume)
    else 0
  }

  lemma EventHolds(d: Desk, e: Event, ticker: nat)
    requires LedgerOk(d) && Proper(d, e)
    ensures TotalNet(Apply(d, e).pools, ticker) == TotalNet(d.pools, ticker) + TradedBy(d, e, ticker)
  {
    hide LedgerOk, TotalNet, Freeze, FillFunds, Check, Moved, BookTraded, BookPending, CanClose;
    match e
    case SendOrder(strategy, req, _, _) =>
      PendingHoldsNothing(d.(nextId := d.nextId + 1), NewOrder(d, strategy, req), -req.volume, ticker);
      var o := NewOrder(d, strategy, req);
      PendingHoldsNothing(d.(nextId := d.nextId + 1, orders := d.orders[o.id := o]), o, req.volume, ticker);
    case OnAccepted(_) =>
    case OnRejected(id) =>
      if id in d.orders { PendingHoldsNothing(d, d.orders[id], -d.orders[id].req.volume, ticker); }
    case OnTraded(id, volume, price) =>
      if id in d.orders { TradeHoldsAfter(d, id, volume, price, ticker); }
    case OnCanceled(id, canceled) =>
      if id in d.orders {
        var o := d.orders[id].(canceled := canceled);
        PendingHoldsNothing(d.(orders := d.orders[id := o]), o, -canceled, ticker);
      }
    case MovePosition(src, dst, t, direction, moved) =>
      MoveHolds(d, src, dst, t, direction, moved, ticker);
  }

  lemma MoveHolds(d: Desk, src: string, dst: string, t: nat, direction: Direction, moved: int, ticker: nat)
    ensures TotalNet(AfterMove(d, src, dst, t, direction, moved).pools, ticker) == TotalNet(d.pools, ticker)
  {
    hide TotalHoldings, AfterMove;
    MoveConserves(d, src, dst, t, direction, moved, ticker, true);
    MoveConserves(d, src, dst, t, direction, moved, ticker, false);
  }

  lemma TradeHoldsAfter(d: Desk, id: nat, volume: int, price: int, ticker: nat)
    requires LedgerOk(d) && id in d.orders && volume >= 0
    ensures TotalNet(AfterTraded(d, id, volume, price).pools, ticker) ==
              TotalNet(d.pools, ticker) + TradedBy(d, OnTraded(id, volume, price), ticker)
  {
    assert OrderOk(d, id);
    PoolExists(d, d.orders[id]);
    hide LedgerOk, TotalNet, FillFunds, BookTraded;
    var d1 := AfterAccepted(d, id);
    var o := d1.orders[id].(traded := d1.orders[id].traded + volume);
    var d2 := d1.(orders := d1.orders[id := o], account := FillFunds(d1.account, o.req, volume, price));
    TradeHolds(d2, o, volume, price, ticker);
  }

  ghost function NetTraded(desks: seq<Desk>, events: seq<Event>, ticker: nat): int
    requires IsRun(desks, events)
  {
    var n := |events|;
    if n == 0 then 0 else NetTraded(desks[..n], events[..n - 1], ticker) + TradedBy(desks[n - 1], events[n - 1], ticker)
  }

  /** Over every run: what is held of a ticker, long less short, by all strategies together, is what
      was held at the start plus everything bought and less everything sold. */
  lemma {:induction false} HeldIsTraded(desks: seq<Desk>, events: seq<Event>, ticker: nat)
    requires IsRun(desks, events) && Init(desks[0]) && desks[0].nextId == 0
    ensures TotalNet(desks[|events|].pools, ticker) == TotalNet(desks[0].pools, ticker) + NetTraded(desks, events, ticker)
  {
    hide LedgerOk, ResponsesOk, Apply, Proper, Init, TotalNet, TradedBy;
    var n := |events|;
    if n > 0 {
      HeldIsTraded(desks[..n], events[..n - 1], ticker);
      EveryRunIsBooked(desks[..n], events[..n - 1]);
      assert desks[..n][n - 1] == desks[n - 1];
      EventHolds(desks[n - 1], events[n - 1], ticker);
    }
  }

  // ---- Where the money is --------------------------------------------------------------------

  /** What a trade of a live order pays in, at its price: out of the desk to open, back to close. */
  function PaidBy(d: Desk, e: Event): int {
    if e.OnTraded? && e.id in d.orders then
      var req := d.orders[e.id].req; if req.offset == Open then -Needs(req, e.volume, e.price) else Needs(req, e.volume, e.price)
    else 0
  }

  lemma EventPays(d: Desk, e: Event)
    ensures var a, a' := d.account, Apply(d, e).account; a'.cash + a'.frozen == a.cash + a.frozen + PaidBy(d, e)
  {
    if e.OnTraded? && e.id in d.orders { TradePays(d.account, d.orders[e.id].req, e.volume, e.price); }
    hide FillFunds, Check, Moved, UpdatedTraded, UpdatedPending, CanMove, Needs, Sent, Frozen;
  }

  ghost function Paid(desks: seq<Desk>, events: seq<Event>): int
    requires IsRun(desks, events)
  {
    var n := |events|;
    if n == 0 then 0 else Paid(desks[..n], events[..n - 1]) + PaidBy(desks[n - 1], events[n - 1])
  }

  /** Over every run: the cash, with what is frozen, is what it was at the start, less what opening
      trades cost and with what closing trades gave back. */
  lemma {:induction false} CashIsWhatWasPaid(desks: seq<Desk>, events: seq<Event>)
    requires IsRun(desks, events)
    ensures var a, a' := desks[0].account, desks[|events|].account; a'.cash + a'.frozen == a.cash + a.frozen + Paid(desks, events)
  {
    hide Apply, Proper, PaidBy;
    var n := |events|;
    if n > 0 {
      CashIsWhatWasPaid(desks[..n], events[..n - 1]);
      EventPays(desks[n - 1], events[n - 1]);
    }
  }

  // ---- What was told is what was traded ------------------------------------------------------

  function TradedOf(d: Desk, e: Event, id: nat): int {
    if e.OnTraded? && e.id == id && id in d.orders then e.volume else 0
  }

  lemma SumOfOneMore(rs: seq<Response>, r: Response)
    ensures SumTraded(rs + [r]) == SumTraded(rs) + r.thisTraded
  {
    assert (rs + [r])[..|rs|] == rs;
  }

  lemma RespondTells(d: Desk, o: Order, thisTraded: int, error: ErrorCode, id: nat)
    ensures SumTraded(Sent(Respond(d, o, thisTraded, error), id)) == SumTraded(Sent(d, id)) + if o.id == id then thisTraded else 0
  {
    SumOfOneMore(Sent(d, o.id), Response(o.traded, thisTraded, Remaining(o) == 0 || error != NoError, error));
  }

  lemma SendTellsNothing(d: Desk, strategy: string, req: Request, withoutCheck: bool, taken: bool, id: nat)
    ensures SumTraded(Sent(AfterSend(d, strategy, req, withoutCheck, taken), id)) == SumTraded(Sent(d, id))
  {
    hide Freeze, Check, UpdatedPending, SumTraded, Sent, Respond;
    var o, d1 := NewOrder(d, strategy, req), d.(nextId := d.nextId + 1);
    SentSame(d, d1, id);
    SentSame(d, Hooked(d1, o, 0 - req.volume), id);
    if SendError(d, strategy, req, withoutCheck) != NoError {
      RespondTells(d1, o, 0, SendError(d, strategy, req, withoutCheck), id);
    } else if !taken {
      RespondTells(Hooked(d1, o, 0 - req.volume), o, 0, SendFailed, id);
    } else {
      SentSame(d, Hooked(d1.(orders := d1.orders[o.id := o]), o, req.volume), id);
    }
  }

  lemma TradeTells(d: Desk, x: nat, volume: int, price: int, id: nat)
    requires x in d.orders && d.orders[x].id == x
    ensures SumTraded(Sent(AfterTraded(d, x, volume, price), id)) == SumTraded(Sent(d, id)) + if x == id then volume else 0
  {
    hide FillFunds, UpdatedTraded, SumTraded, Sent, Respond, AfterAccepted;
    AcceptedTellsNothing(d, x, id);
    var d1 := AfterAccepted(d, x);
    var o := d1.orders[x].(traded := d1.orders[x].traded + volume);
    var d2 := BookTraded(d1.(orders := d1.orders[x := o], account := FillFunds(d1.account, o.req, volume, price)), o, volume, price);
    SentSame(d1, d2, id);
    RespondTells(d2, o, volume, NoError, id);
    SentSame(Respond(d2, o, volume, NoError), AfterTraded(d, x, volume, price), id);
  }

  lemma EndTellsNothing(d: Desk, d1: Desk, o: Order, error: ErrorCode, d': Desk, id: nat)
    requires d1.sent == d.sent && d'.sent == Respond(d1, o, 0, error).sent
    ensures SumTraded(Sent(d', id)) == SumTraded(Sent(d, id))
  {
    SentSame(d, d1, id);
    RespondTells(d1, o, 0, error, id);
    SentSame(Respond(d1, o, 0, error), d', id);
    hide Respond, Sent, SumTraded;
  }

  lemma EventTellsTraded(d: Desk, e: Event, id: nat)
    requires LedgerOk(d)
    ensures SumTraded(Sent(Apply(d, e), id)) == SumTraded(Sent(d, id)) + TradedOf(d, e, id)
  {
    if (e.OnAccepted? || e.OnTraded?) && e.id in d.orders { assert OrderOk(d, e.id); }
    hide LedgerOk, Freeze, AfterSend, AfterTraded, AfterAccepted, Moved, UpdatedPending, SumTraded, Sent, Respond, CanMove;
    match e
    case SendOrder(strategy, req, withoutCheck, taken) => SendTellsNothing(d, strategy, req, withoutCheck, taken, id);
    case OnAccepted(x) => AcceptedTellsNothing(d, x, id);
    case OnRejected(x) =>
      if x in d.orders {
        var o := d.orders[x];
        EndTellsNothing(d, Hooked(d, o, 0 - o.req.volume), o, Rejected, Apply(d, e), id);
      }
    case OnTraded(x, volume, price) =>
      if x in d.orders { TradeTells(d, x, volume, price, id); } else { NotLive(d, x, volume, price); }
    case OnCanceled(x, canceled) =>
      if x in d.orders {
        var o := d.orders[x].(canceled := canceled);
        EndTellsNothing(d, Hooked(d.(orders := d.orders[x := o]), o, 0 - canceled), o, NoError, Apply(d, e), id);
      }
    case MovePosition(_, _, _, _, _) => SentSame(d, Apply(d, e), id);
  }

  lemma NotLive(d: Desk, x: nat, volume: int, price: int)
    requires x !in d.orders
    ensures AfterTraded(d, x, volume, price) == d
  {
  }

  lemma AcceptedTellsNothing(d: Desk, x: nat, id: nat)
    requires x in d.orders ==> d.orders[x].id == x
    ensures SumTraded(Sent(AfterAccepted(d, x), id)) == SumTraded(Sent(d, id))
    ensures x in d.orders ==> x in AfterAccepted(d, x).orders && AfterAccepted(d, x).orders[x].id == x
  {
    if x in d.orders && !d.orders[x].accepted {
      var o := d.orders[x].(accepted := true);
      RespondTells(d.(orders := d.orders[x := o]), o, 0, NoError, id);
    }
    hide SumTraded;
  }

  lemma SentSame(d: Desk, d': Desk, id: nat)
    requires d'.sent == d.sent
    ensures Sent(d', id) == Sent(d, id)
  {
  }

  /** Over every run: the trades that were reported of an order while it was live add up to what its
      strategy was told, and, while it is live, to what the order says. */
  lemma {:induction false} ToldIsTraded(desks: seq<Desk>, events: seq<Event>, id: nat)
    requires IsRun(desks, events) && Init(desks[0]) && desks[0].nextId == 0
    ensures SumTraded(Sent(desks[|events|], id)) == VolumeTraded(desks, events, id)
    ensures id in desks[|events|].orders ==> desks[|events|].orders[id].traded == VolumeTraded(desks, events, id)
  {
    hide LedgerOk, ResponsesOk, Apply, Proper, TradedOf;
    var n := |events|;
    EveryRunIsBooked(desks, events);
    if n > 0 {
      hide Init, Sent;
      ToldIsTraded(desks[..n], events[..n - 1], id);
      EveryRunIsBooked(desks[..n], events[..n - 1]);
      assert desks[..n][n - 1] == desks[n - 1];
      EventTellsTraded(desks[n - 1], events[n - 1], id);
    }
    if id in desks[n].orders { LiveOrder(desks[n], id); }
  }

  ghost function VolumeTraded(desks: seq<Desk>, events: seq<Event>, id: nat): int
    requires IsRun(desks, events)
  {
    var n := |events|;
    if n == 0 then 0 else VolumeTraded(desks[..n], events[..n - 1], id) + TradedOf(desks[n - 1], events[n - 1], id)
  }

  predicate LastError(d: Desk, id: nat, error: ErrorCode) {
    Sent(d, id) != [] && Sent(d, id)[|Sent(d, id)| - 1].error == error
  }

  lemma LastOfRespond(d: Desk, o: Order, thisTraded: int, error: ErrorCode, d': Desk)
    requires d'.sent == Respond(d, o, thisTraded, error).sent
    ensures LastError(d', o.id, error)
  {
  }

  /** An order stopped by a check hears which one, funds before positions; one that the gateway does
      not take, that sending failed; and one that is sent hears nothing yet. */
  lemma SendToldWhy(d: Desk, strategy: string, req: Request, taken: bool)
    ensures var d', id := AfterSend(d, strategy, req, false, taken), d.nextId;
            if !FundCheck(d.account, req) then LastError(d', id, FundNotEnough)
            else if PositionCheck(d.pools, strategy, req) != NoError then LastError(d', id, PositionNotEnough)
            else if !taken then LastError(d', id, SendFailed)
            else d'.sent == d.sent && id in d'.orders
  {
    var o, error, d1 := NewOrder(d, strategy, req), SendError(d, strategy, req, false), d.(nextId := d.nextId + 1);
    LastOfRespond(d1, o, 0, error, Respond(d1, o, 0, error));
    var d2 := Hooked(d1, o, 0 - req.volume);
    LastOfRespond(d2, o, 0, SendFailed, Respond(d2, o, 0, SendFailed));
    hide FundCheck, Hooked, Respond, Available, IsClose, LastError;
  }

  /** A live order that is rejected hears that, and is gone. */
  lemma RejectToldWhy(d: Desk, id: nat)
    requires id in d.orders && d.orders[id].id == id
    ensures LastError(AfterRejected(d, id), id, Rejected) && id !in AfterRejected(d, id).orders
  {
    var o := d.orders[id];
    LastOfRespond(Hooked(d, o, 0 - o.req.volume), o, 0, Rejected, AfterRejected(d, id));
    hide Hooked, Respond, LastError;
  }

  /** No report of a trade or a cancel is an error. */
  lemma ReportToldWhy(d: Desk, id: nat, volume: int, price: int)
    requires id in d.orders && d.orders[id].id == id
    ensures LastError(AfterCanceled(d, id, volume), id, NoError)
    ensures LastError(AfterTraded(d, id, volume, price), id, NoError)
  {
    AcceptedTellsNothing(d, id, id);
    hide AfterAccepted, Hooked, FillFunds, BookTraded, Respond, LastError;
    var o, d1 := d.orders[id].(canceled := volume), AfterAccepted(d, id);
    LastOfRespond(Hooked(d.(orders := d.orders[id := o]), o, 0 - volume), o, 0, NoError, AfterCanceled(d, id, volume));
    var t := d1.orders[id].(traded := d1.orders[id].traded + volume);
    var d2 := BookTraded(d1.(orders := d1.orders[id := t], account := FillFunds(d1.account, t.req, volume, price)), t, volume, price);
    LastOfRespond(d2, t, volume, NoError, AfterTraded(d, id, volume, price));
  }

  // ---- Orders stay as they were sent ----------------------------------------------------------

  predicate Sends(d: Desk, e: Event, o: Order) {
    e.SendOrder? && d.nextId == o.id && e.req == o.req && e.strategy == o.strategy
  }

  predicate SameOrder(o: Order, o': Order) {
    o.id == o'.id && o.req == o'.req && o.strategy == o'.strategy
  }

  lemma TradedStays(d: Desk, x: nat, volume: int, price: int, id: nat)
    requires (x in d.orders ==> d.orders[x].id == x) && id in AfterTraded(d, x, volume, price).orders
    ensures id in d.orders && SameOrder(d.orders[id], AfterTraded(d, x, volume, price).orders[id])
  {
    hide FillFunds, UpdatedTraded, Sent, IsClose;
  }

  lemma SentOrStays(d: Desk, strategy: string, req: Request, withoutCheck: bool, taken: bool, id: nat)
    requires id in AfterSend(d, strategy, req, withoutCheck, taken).orders
    ensures var o := AfterSend(d, strategy, req, withoutCheck, taken).orders[id];
            Sends(d, SendOrder(strategy, req, withoutCheck, taken), o) || (id in d.orders && d.orders[id] == o)
  {
    hide Freeze, Check, UpdatedPending, Sent;
  }

  lemma OrderBefore(d: Desk, e: Event, id: nat)
    requires LedgerOk(d) && id in Apply(d, e).orders
    ensures var o := Apply(d, e).orders[id];
            Sends(d, e, o) || (id in d.orders && SameOrder(d.orders[id], o))
  {
    if (e.OnAccepted? || e.OnRejected? || e.OnTraded? || e.OnCanceled?) && e.id in d.orders { assert OrderOk(d, e.id); }
    hide LedgerOk, AfterTraded, AfterSend, Freeze, Moved, UpdatedPending, CanMove, Sent;
    if e.OnTraded? {
      TradedStays(d, e.id, e.volume, e.price, id);
    } else if e.SendOrder? {
      SentOrStays(d, e.strategy, e.req, e.withoutCheck, e.taken, id);
    }
  }

  /** Over every run: a live order is what some send asked for, word by word. */
  lemma {:induction false} OrderIsAsSent(desks: seq<Desk>, events: seq<Event>, id: nat)
    requires IsRun(desks, events) && Init(desks[0]) && desks[0].nextId == 0 && id in desks[|events|].orders
    ensures exists i :: 0 <= i < |events| && Sends(desks[i], events[i], desks[|events|].orders[id])
  {
    var n := |events|;
    if n > 0 {
      hide LedgerOk, ResponsesOk, Apply, Proper, Init, Sends;
      EveryRunIsBooked(desks[..n], events[..n - 1]);
      assert desks[..n][n - 1] == desks[n - 1];
      var d, e := desks[n - 1], events[n - 1];
      OrderBefore(d, e, id);
      if !Sends(d, e, desks[n].orders[id]) {
        OrderIsAsSent(desks[..n], events[..n - 1], id);
        var i :| 0 <= i < n - 1 && Sends(desks[..n][i], events[..n - 1][i], d.orders[id]);
        SendsSame(desks[i], events[i], d.orders[id], desks[n].orders[id]);
      }
    }
  }

  lemma SendsSame(d: Desk, e: Event, o: Order, o': Order)
    requires Sends(d, e, o) && SameOrder(o, o')
    ensures Sends(d, e, o')
  {
  }
}
