/** The order book: live orders by id, and for each side the price levels that group them. */
module OrderBook {
  import opened Wrappers

  // A price is its decimal form, the key of the level maps
  datatype Order = Order(id: nat, isBuy: bool, volume: int, price: nat)

  datatype Level = Level(orders: seq<Order>, total: int)

  datatype Book = Book(orders: map<nat, Order>, buy: map<nat, Level>, sell: map<nat, Level>)

  // ---- A price level ------------------------------------------------------------------------

  function Sum(orders: seq<Order>): int {
    if orders == [] then 0 else orders[0].volume + Sum(orders[1..])
  }

  /** The place of an id in a level, or the end of its list. */
  function IndexOf(orders: seq<Order>, id: nat): (i: nat)
    ensures i <= |orders| && (i < |orders| ==> orders[i].id == id)
    ensures forall k :: 0 <= k < i ==> orders[k].id != id
  {
    if orders == [] || orders[0].id == id then 0 else 1 + IndexOf(orders[1..], id)
  }

  function WithOrder(level: Level, order: Order): Level {
    Level(level.orders + [order], level.total + order.volume)
  }

  function WithModified(level: Level, order: Order): Level {
    var i := IndexOf(level.orders, order.id);
    if i == |level.orders| then level
    else Level(level.orders[i := order], level.total + (order.volume - level.orders[i].volume))
  }

  /** The volume taken off is the argument's, not the stored order's. */
  function WithoutOrder(level: Level, order: Order): Level {
    var i := IndexOf(level.orders, order.id);
    if i == |level.orders| then level
    else Level(level.orders[..i] + level.orders[i + 1..], level.total - order.volume)
  }

  /** PriceLevel::ModifyOrder */
  method ModifyInLevel(level: Level, order: Order) returns (level': Level)
    ensures level' == WithModified(level, order)
  {
    var i := 0;
    while i < |level.orders|
      invariant i <= |level.orders| && forall k :: 0 <= k < i ==> level.orders[k].id != order.id
    {
      if level.orders[i].id == order.id {
        return Level(level.orders[i := order], level.total + (order.volume - level.orders[i].volume));
      }
      i := i + 1;
    }
    return level;
  }

  /** PriceLevel::RemoveOrder */
  method RemoveFromLevel(level: Level, order: Order) returns (level': Level)
    ensures level' == WithoutOrder(level, order)
  {
    var i := 0;
    while i < |level.orders|
      invariant i <= |level.orders| && forall k :: 0 <= k < i ==> level.orders[k].id != order.id
    {
      if level.orders[i].id == order.id {
        return Level(level.orders[..i] + level.orders[i + 1..], level.total - order.volume);
      }
      i := i + 1;
    }
    return level;
  }

  // ---- The book, on values ------------------------------------------------------------------

  function LevelsOf(b: Book, isBuy: bool): map<nat, Level> {
    if isBuy then b.buy else b.sell
  }

  function WithLevels(b: Book, isBuy: bool, levels: map<nat, Level>): Book {
    if isBuy then b.(buy := levels) else b.(sell := levels)
  }

  /** FindOrCreateLevel, then AddOrder. */
  function Filed(levels: map<nat, Level>, order: Order): map<nat, Level> {
    levels[order.price := WithOrder(if order.price in levels then levels[order.price] else Level([], 0), order)]
  }

  /** RemoveOrder in its level, which goes away when its total is zero. */
  function Unfiled(levels: map<nat, Level>, order: Order): map<nat, Level>
    requires order.price in levels
  {
    var level := WithoutOrder(levels[order.price], order);
    if level.total == 0 then levels - {order.price} else levels[order.price := level]
  }

  function Emplaced(orders: map<nat, Order>, order: Order): map<nat, Order> {
    if order.id in orders then orders else orders[order.id := order]
  }

  function Added(b: Book, order: Order): Book {
    var b' := WithLevels(b, order.isBuy, Filed(LevelsOf(b, order.isBuy), order));
    b'.(orders := Emplaced(b.orders, order))
  }

  /** FndLevel of the order, or of the stored order with its id, is not null. */
  predicate CanModify(b: Book, order: Order) {
    var held := if order.id in b.orders then b.orders[order.id] else order;
    held.price in LevelsOf(b, held.isBuy)
  }

  function Modified(b: Book, order: Order): Book
    requires CanModify(b, order)
  {
    if order.id !in b.orders then Added(b, order) else
    var held := b.orders[order.id];
    var levels := LevelsOf(b, held.isBuy);
    var b' :=
      if held.price != order.price then
        var b1 := WithLevels(b, held.isBuy, Unfiled(levels, held));
        WithLevels(b1, order.isBuy, Filed(LevelsOf(b1, order.isBuy), order))
      else WithLevels(b, held.isBuy, levels[held.price := WithModified(levels[held.price], order)]);
    b'.(orders := b.orders[order.id := order])
  }

  predicate CanRemove(b: Book, order: Order) {
    order.id in b.orders ==> order.price in LevelsOf(b, order.isBuy)
  }

  function Removed(b: Book, order: Order): Book
    requires CanRemove(b, order)
  {
    if order.id !in b.orders then b
    else WithLevels(b, order.isBuy, Unfiled(LevelsOf(b, order.isBuy), order)).(orders := b.orders - {order.id})
  }

  // ---- The book as an object -------------------------------------------------------------------

  class OrderBook {
    var orderMap: map<nat, Order>
    var buyLevels: map<nat, Level>
    var sellLevels: map<nat, Level>

    function View(): Book
      reads this
    {
      Book(orderMap, buyLevels, sellLevels)
    }

    constructor ()
      ensures View() == Book(map[], map[], map[])
    {
      orderMap, buyLevels, sellLevels := map[], map[], map[];
    }

    function FndLevel(price: nat, isBuy: bool): Option<Level>
      reads this
    {
      var levels := if isBuy then buyLevels else sellLevels;
      if price in levels then Some(levels[price]) else None
    }

    method SetLevel(price: nat, isBuy: bool, level: Level)
      modifies this`buyLevels, this`sellLevels
      ensures View() == WithLevels(old(View()), isBuy, old(LevelsOf(View(), isBuy))[price := level])
    {
      if isBuy { buyLevels := buyLevels[price := level]; } else { sellLevels := sellLevels[price := level]; }
    }

    method EraseLevel(price: nat, isBuy: bool)
      modifies this`buyLevels, this`sellLevels
      ensures View() == WithLevels(old(View()), isBuy, old(LevelsOf(View(), isBuy)) - {price})
    {
      if isBuy { buyLevels := buyLevels - {price}; } else { sellLevels := sellLevels - {price}; }
    }

    method AddOrder(order: Order)
      modifies this
      ensures View() == Added(old(View()), order)
    {
      var found := FndLevel(order.price, order.isBuy);
      var level := if found.Some? then found.value else Level([], 0);
      SetLevel(order.price, order.isBuy, Level(level.orders + [order], level.total + order.volume));
      if order.id !in orderMap { orderMap := orderMap[order.id := order]; }
    }

    /** level->RemoveOrder, and the erasure of a level whose total has become zero. */
    method TakeOut(order: Order)
      requires FndLevel(order.price, order.isBuy).Some?
      modifies this`buyLevels, this`sellLevels
      ensures View() == WithLevels(old(View()), order.isBuy, Unfiled(old(LevelsOf(View(), order.isBuy)), order))
    {
      var level := RemoveFromLevel(FndLevel(order.price, order.isBuy).value, order);
      if level.total == 0 {
        EraseLevel(order.price, order.isBuy);
      } else {
        SetLevel(order.price, order.isBuy, level);
      }
    }

    method ModifyOrder(order: Order)
      requires CanModify(View(), order)
      modifies this
      ensures View() == Modified(old(View()), order)
    {
      if order.id !in orderMap {
        var level := FndLevel(order.price, order.isBuy).value;
        SetLevel(order.price, order.isBuy, Level(level.orders + [order], level.total + order.volume));
        orderMap := orderMap[order.id := order];
      } else {
        var held := orderMap[order.id];
        var heldLevel := FndLevel(held.price, held.isBuy).value;
        if held.price != order.price {
          TakeOut(held);
          var found := FndLevel(order.price, order.isBuy);
          var level := if found.Some? then found.value else Level([], 0);
          SetLevel(order.price, order.isBuy, Level(level.orders + [order], level.total + order.volume));
        } else {
          var level := ModifyInLevel(heldLevel, order);
          SetLevel(held.price, held.isBuy, level);
        }
        orderMap := orderMap[order.id := order];
      }
    }

    method RemoveOrder(order: Order)
      requires CanRemove(View(), order)
      modifies this
      ensures View() == Removed(old(View()), order)
    {
      if order.id !in orderMap { return; }
      orderMap := orderMap - {order.id};
      TakeOut(order);
    }
  }
}
