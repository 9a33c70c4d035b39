/** The order desk: live orders, the positions and funds they are booked against, and the
    responses strategies have received. Money is counted in integer price ticks. */
module OrderDesk {
  import opened Positions

  datatype Contract = Contract(ticker: nat, size: int, longMarginRate: int, shortMarginRate: int)

  datatype Request = Request(contract: Contract, direction: Direction, offset: Offset, volume: int, price: int)

  datatype Order = Order(id: nat, strategy: string, req: Request, accepted: bool, traded: int, canceled: int)

  datatype ErrorCode = NoError | FundNotEnough | PositionNotEnough | Rejected | SendFailed

  datatype Response = Response(traded: int, thisTraded: int, completed: bool, error: ErrorCode)

  datatype Account = Account(cash: int, frozen: int, margin: int)

  datatype Desk = Desk(
    orders: map<nat, Order>,
    pools: Pools,
    account: Account,
    sent: map<nat, seq<Response>>,
    nextId: nat
  )

  // ---- Funds ------------------------------------------------------------------------------

  function Rate(req: Request): int {
    if req.direction == Buy then req.contract.longMarginRate else req.contract.shortMarginRate
  }

  /** The margin of one unit of volume at a price. */
  function UnitMargin(req: Request, price: int): int {
    req.contract.size * price * Rate(req)
  }

  function Frozen(req: Request, volume: int): int {
    if IsOpen(req.offset) then volume * UnitMargin(req, req.price) else 0
  }

  /** FundRisk::OnOrderSent with the order's volume; OnOrderCanceled with minus the canceled one. */
  function Freeze(a: Account, req: Request, volume: int): Account {
    a.(cash := a.cash - Frozen(req, volume), frozen := a.frozen + Frozen(req, volume))
  }

  function FillFunds(a: Account, req: Request, volume: int, price: int): Account {
    var margin := volume * UnitMargin(req, price);
    if IsOpen(req.offset) then
      var released := Frozen(req, volume);
      Account(a.cash + released - margin, a.frozen - released, a.margin + margin)
    else
      Account(a.cash + margin, a.frozen, if a.margin - margin < 0 then 0 else a.margin - margin)
  }

  function Wealth(a: Account): int {
    a.cash + a.frozen + a.margin
  }

  /** Freezing, releasing and trading move money between cash, frozen and margin, and lose none,
      unless a close releases more margin than there is. */
  lemma FundsMoveOnlyIff(a: Account, req: Request, volume: int, price: int)
    ensures Wealth(Freeze(a, req, volume)) == Wealth(a)
    ensures Wealth(FillFunds(a, req, volume, price)) == Wealth(a) <==>
              IsOpen(req.offset) || a.margin >= volume * UnitMargin(req, price)
  {
  }

  predicate FundCheck(a: Account, req: Request) {
    req.direction == UnknownDirection || IsClose(req.offset) || a.cash * 11 >= req.volume * UnitMargin(req, req.price) * 10
  }

  // ---- The checks -------------------------------------------------------------------------

  function Available(pools: Pools, strategy: string, req: Request): int {
    if strategy !in pools then 0 else
    var d := Side(pools[strategy], req.contract.ticker, req.direction != Buy);
    d.holdings - d.closePending
  }

  function PositionCheck(pools: Pools, strategy: string, req: Request): ErrorCode {
    if IsClose(req.offset) && Available(pools, strategy, req) < req.volume then PositionNotEnough else NoError
  }

  function Check(d: Desk, strategy: string, req: Request): ErrorCode {
    if !FundCheck(d.account, req) then FundNotEnough else PositionCheck(d.pools, strategy, req)
  }

  /** An emergency order may go around the checks. */
  function SendError(d: Desk, strategy: string, req: Request, withoutCheck: bool): ErrorCode {
    if withoutCheck then NoError else Check(d, strategy, req)
  }

  /** What is held on the side of an order and not promised yet, in the pool it is booked in. */
  function Free(pools: Pools, strategy: string, req: Request): int {
    if PoolOf(pools, strategy) !in pools then 0 else
    var d := Side(pools[PoolOf(pools, strategy)], req.contract.ticker, OnLong(req.direction, req.offset));
    d.holdings - d.closePending
  }

  predicate CanClose(pools: Pools, strategy: string, req: Request) {
    IsClose(req.offset) ==> req.volume <= Free(pools, strategy, req)
  }

  // ---- Responses --------------------------------------------------------------------------

  function Remaining(o: Order): int {
    o.req.volume - o.traded - o.canceled
  }

  function Respond(d: Desk, o: Order, thisTraded: int, error: ErrorCode): Desk {
    var rsp := Response(o.traded, thisTraded, Remaining(o) == 0 || error != NoError, error);
    d.(sent := d.sent[o.id := Sent(d, o.id) + [rsp]])
  }

  function Sent(d: Desk, id: nat): seq<Response> {
    if id in d.sent then d.sent[id] else []
  }

  // ---- Booking ----------------------------------------------------------------------------

  function BookPending(d: Desk, o: Order, changed: int): Desk {
    var s := PoolOf(d.pools, o.strategy);
    if s !in d.pools then d else
    d.(pools := d.pools[s := UpdatedPending(d.pools[s], o.req.contract.ticker, o.req.direction, o.req.offset, changed)])
  }

  function BookTraded(d: Desk, o: Order, traded: int, price: int): Desk {
    var s := PoolOf(d.pools, o.strategy);
    if s !in d.pools || o.req.contract.size <= 0 then d else
    d.(pools := d.pools[s := UpdatedTraded(d.pools[s], o.req.contract.ticker, o.req.contract.size,
                                           o.req.direction, o.req.offset, traded, price)])
  }

  function NewOrder(d: Desk, strategy: string, req: Request): Order {
    Order(d.nextId, strategy, req, false, 0, 0)
  }

  /** The pending hooks of FundRisk and PositionRisk. */
  function Hooked(d: Desk, o: Order, changed: int): Desk {
    BookPending(d, o, changed).(account := Freeze(d.account, o.req, changed))
  }

  /** SendOrder; `taken` is the answer of the gateway. An order it does not take is booked as
      rejected, although it was not booked as sent. */
  function AfterSend(d: Desk, strategy: string, req: Request, withoutCheck: bool, taken: bool): Desk {
    var o, error := NewOrder(d, strategy, req), SendError(d, strategy, req, withoutCheck);
    var d1 := d.(nextId := d.nextId + 1);
    if error != NoError then Respond(d1, o, 0, error)
    else if !taken then Respond(Hooked(d1, o, 0 - req.volume), o, 0, SendFailed)
    else
    Hooked(d1.(orders := d1.orders[o.id := o]), o, req.volume)
  }

  function AfterAccepted(d: Desk, id: nat): Desk {
    if id !in d.orders || d.orders[id].accepted then d else
    var o := d.orders[id].(accepted := true);
    Respond(d.(orders := d.orders[id := o]), o, 0, NoError)
  }

  function AfterRejected(d: Desk, id: nat): Desk {
    if id !in d.orders then d else
    var o := d.orders[id];
    Respond(Hooked(d, o, 0 - o.req.volume), o, 0, Rejected).(orders := d.orders - {id})
  }

  /** Erases the order when nothing of it remains. */
  function Settle(d: Desk, o: Order): Desk {
    if Remaining(o) == 0 then d.(orders := d.orders - {o.id}) else d
  }

  function AfterTraded(d: Desk, id: nat, volume: int, price: int): Desk {
    if id !in d.orders then d else
    var d1 := AfterAccepted(d, id);
    var o := d1.orders[id].(traded := d1.orders[id].traded + volume);
    var d2 := d1.(orders := d1.orders[id := o], account := FillFunds(d1.account, o.req, volume, price));
    Settle(Respond(BookTraded(d2, o, volume, price), o, volume, NoError), o)
  }

  function AfterCanceled(d: Desk, id: nat, canceled: int): Desk {
    if id !in d.orders then d else
    var o := d.orders[id].(canceled := canceled);
    Settle(Respond(Hooked(d.(orders := d.orders[id := o]), o, 0 - canceled), o, 0, NoError), o)
  }

  function AfterMove(d: Desk, src: string, dst: string, ticker: nat, direction: Direction, volume: int): Desk {
    if CanMove(d.pools, src, dst, ticker, direction, volume) then
      d.(pools := Moved(d.pools, src, dst, ticker, direction, volume))
    else d
  }

  datatype Event =
    | SendOrder(strategy: string, req: Request, withoutCheck: bool, taken: bool)
    | OnAccepted(id: nat)
    | OnRejected(id: nat)
    | OnTraded(id: nat, volume: int, price: int)
    | OnCanceled(id: nat, canceled: int)
    | MovePosition(src: string, dst: string, ticker: nat, direction: Direction, moved: int)

  function Apply(d: Desk, e: Event): Desk {
    match e
    case SendOrder(strategy, req, withoutCheck, taken) => AfterSend(d, strategy, req, withoutCheck, taken)
    case OnAccepted(id) => AfterAccepted(d, id)
    case OnRejected(id) => AfterRejected(d, id)
    case OnTraded(id, volume, price) => AfterTraded(d, id, volume, price)
    case OnCanceled(id, canceled) => AfterCanceled(d, id, canceled)
    case MovePosition(src, dst, ticker, direction, moved) => AfterMove(d, src, dst, ticker, direction, moved)
  }

  /** What the gateway and the strategies keep to: orders have volume; an order that goes around
      the checks does not close more than there is; the gateway takes every order it is given; only
      untraded orders are rejected; an order is canceled at most once; nothing beyond the volume is reported. Reports
      about orders that are not live are ignored whatever they say. */
  predicate Proper(d: Desk, e: Event) {
    match e
    case SendOrder(strategy, req, withoutCheck, taken) =>
      && req.volume > 0 && req.contract.size > 0
      && (SendError(d, strategy, req, withoutCheck) == NoError ==> taken && CanClose(d.pools, strategy, req))
    case OnAccepted(_) => true
    case OnRejected(id) => id in d.orders ==> d.orders[id].traded == 0 && d.orders[id].canceled == 0
    case OnTraded(id, volume, _) => id in d.orders ==> 0 <= volume <= Remaining(d.orders[id])
    case OnCanceled(id, canceled) =>
      id in d.orders ==> d.orders[id].canceled == 0 && 0 <= canceled <= Remaining(d.orders[id])
    case MovePosition(_, _, _, _, _) => true
  }
}
