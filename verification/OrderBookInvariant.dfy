/** The level maps are the live orders grouped by side and price: which changes keep it so. */
module OrderBookInvariant {
  import opened OrderBook

  predicate Live(orders: map<nat, Order>, isBuy: bool, price: nat, o: Order) {
    o.id in orders && orders[o.id] == o && o.isBuy == isBuy && o.price == price
  }

  predicate Distinct(orders: seq<Order>) {
    forall i, j :: 0 <= i < j < |orders| ==> orders[i].id != orders[j].id
  }

  /** A level lists exactly the live orders of its side and price, once each, and their total. */
  ghost predicate LevelOk(orders: map<nat, Order>, isBuy: bool, price: nat, level: Level) {
    && level.orders != []
    && level.total == Sum(level.orders)
    && Distinct(level.orders)
    && forall o :: o in level.orders <==> Live(orders, isBuy, price, o)
  }

  ghost predicate SideOk(orders: map<nat, Order>, isBuy: bool, levels: map<nat, Level>) {
    && (forall p :: p in levels ==> LevelOk(orders, isBuy, p, levels[p]))
    && forall id :: id in orders && orders[id].isBuy == isBuy ==> orders[id].price in levels
  }

  predicate Keyed(orders: map<nat, Order>) {
    forall id :: id in orders ==> orders[id].id == id && orders[id].volume > 0
  }

  ghost predicate BookOk(b: Book) {
    Keyed(b.orders) && SideOk(b.orders, true, b.buy) && SideOk(b.orders, false, b.sell)
  }

  lemma EmptyBookOk()
    ensures BookOk(Book(map[], map[], map[]))
  {
  }

  // ---- Sums and lists -----------------------------------------------------------------------

  lemma {:induction false} SumOfBoth(a: seq<Order>, b: seq<Order>)
    ensures Sum(a + b) == Sum(a) + Sum(b)
  {
    if a == [] {
      assert a + b == b;
    } else {
      assert (a + b)[1..] == a[1..] + b;
      SumOfBoth(a[1..], b);
    }
  }

  lemma SumAt(orders: seq<Order>, i: nat)
    requires i < |orders|
    ensures Sum(orders) == Sum(orders[..i] + orders[i + 1..]) + orders[i].volume
  {
    var front, rest := orders[..i], orders[i..];
    assert orders == front + rest;
    assert rest[0] == orders[i] && rest[1..] == orders[i + 1..];
    SumOfBoth(front, rest);
    SumOfBoth(front, orders[i + 1..]);
  }

  lemma {:induction false} SumPositive(orders: seq<Order>)
    requires forall o :: o in orders ==> o.volume > 0
    ensures Sum(orders) >= 0 && (orders != [] ==> Sum(orders) > 0)
  {
    if orders != [] { SumPositive(orders[1..]); }
  }

  /** Every level total is positive, so no empty level is kept. */
  lemma TotalPositive(b: Book, isBuy: bool, price: nat)
    requires BookOk(b) && price in LevelsOf(b, isBuy)
    ensures LevelsOf(b, isBuy)[price].total > 0
  {
    var level := LevelsOf(b, isBuy)[price];
    assert LevelOk(b.orders, isBuy, price, level);
    forall o | o in level.orders
      ensures o.volume > 0
    {
      assert Live(b.orders, isBuy, price, o);
    }
    SumPositive(level.orders);
  }

  lemma PlaceOf(orders: seq<Order>, o: Order)
    requires Distinct(orders) && o in orders
    ensures IndexOf(orders, o.id) < |orders| && orders[IndexOf(orders, o.id)] == o
  {
    var i :| 0 <= i < |orders| && orders[i] == o;
    var x := IndexOf(orders, o.id);
    assert x <= i && orders[x].id == orders[i].id;
  }

  // ---- Adding --------------------------------------------------------------------------------

  lemma LevelGains(orders: map<nat, Order>, level: Level, order: Order)
    requires order.id !in orders
    requires LevelOk(orders, order.isBuy, order.price, level) || (level == Level([], 0) && forall o :: !Live(orders, order.isBuy, order.price, o))
    ensures LevelOk(orders[order.id := order], order.isBuy, order.price, WithOrder(level, order))
  {
    var level', orders' := WithOrder(level, order), orders[order.id := order];
    SumOfBoth(level.orders, [order]);
    assert Sum([order]) == order.volume;
    forall o
      ensures o in level'.orders <==> Live(orders', order.isBuy, order.price, o)
    {
      assert o in level.orders <==> Live(orders, order.isBuy, order.price, o);
    }
    forall i, j | 0 <= i < j < |level'.orders|
      ensures level'.orders[i].id != level'.orders[j].id
    {
      assert level.orders[i] in level.orders;
      assert Live(orders, order.isBuy, order.price, level.orders[i]);
    }
  }

  lemma LevelUntouched(orders: map<nat, Order>, orders': map<nat, Order>, isBuy: bool, price: nat, level: Level, id: nat)
    requires LevelOk(orders, isBuy, price, level)
    requires forall x :: x != id ==> (x in orders <==> x in orders') && (x in orders ==> orders'[x] == orders[x])
    requires id in orders ==> orders[id].isBuy != isBuy || orders[id].price != price
    requires id in orders' ==> orders'[id].isBuy != isBuy || orders'[id].price != price
    ensures LevelOk(orders', isBuy, price, level)
  {
    forall o
      ensures Live(orders', isBuy, price, o) <==> Live(orders, isBuy, price, o)
    {
      if o.id != id {}
    }
  }

  lemma SideUntouched(orders: map<nat, Order>, orders': map<nat, Order>, isBuy: bool, levels: map<nat, Level>, id: nat)
    requires SideOk(orders, isBuy, levels)
    requires forall x :: x != id ==> (x in orders <==> x in orders') && (x in orders ==> orders'[x] == orders[x])
    requires (id in orders ==> orders[id].isBuy != isBuy) && (id in orders' ==> orders'[id].isBuy != isBuy)
    ensures SideOk(orders', isBuy, levels)
  {
    hide LevelOk;
    forall p | p in levels
      ensures LevelOk(orders', isBuy, p, levels[p])
    {
      LevelUntouched(orders, orders', isBuy, p, levels[p], id);
    }
  }

  lemma NobodyThere(orders: map<nat, Order>, isBuy: bool, levels: map<nat, Level>, price: nat)
    requires SideOk(orders, isBuy, levels) && price !in levels
    ensures forall o :: !Live(orders, isBuy, price, o)
  {
  }

  lemma AddedKeeps(b: Book, order: Order)
    requires BookOk(b) && order.id !in b.orders && order.volume > 0
    ensures BookOk(Added(b, order))
  {
    hide LevelOk;
    var orders', side, p := b.orders[order.id := order], order.isBuy, order.price;
    var levels := LevelsOf(b, side);
    SideUntouched(b.orders, orders', !side, LevelsOf(b, !side), order.id);
    if p !in levels { NobodyThere(b.orders, side, levels, p); }
    LevelGains(b.orders, if p in levels then levels[p] else Level([], 0), order);
    forall x | x in Filed(levels, order)
      ensures LevelOk(orders', side, x, Filed(levels, order)[x])
    {
      if x != p { LevelUntouched(b.orders, orders', side, x, levels[x], order.id); }
    }
    assert SideOk(orders', side, Filed(levels, order));
  }

  /** A book stays a grouping exactly when the added order is new and has volume. */
  lemma AddKeepsIff(b: Book, order: Order)
    requires BookOk(b)
    ensures BookOk(Added(b, order)) <==> order.id !in b.orders && order.volume > 0
  {
    if order.id !in b.orders && order.volume > 0 {
      AddedKeeps(b, order);
    } else if order.id in b.orders {
      DuplicateBreaks(b, order);
    } else {
      assert Added(b, order).orders[order.id].volume <= 0;
    }
  }

  lemma DuplicateBreaks(b: Book, order: Order)
    requires BookOk(b) && order.id in b.orders
    ensures !BookOk(Added(b, order))
  {
    var levels, b', p := LevelsOf(b, order.isBuy), Added(b, order), order.price;
    var level' := LevelsOf(b', order.isBuy)[p];
    var last := |level'.orders| - 1;
    assert level'.orders[last] == order;
    if b.orders[order.id] == order {
      assert p in levels && LevelOk(b.orders, order.isBuy, p, levels[p]);
      assert Live(b.orders, order.isBuy, p, order);
      var i :| 0 <= i < last && levels[p].orders[i] == order;
      assert level'.orders[i].id == level'.orders[last].id;
    } else {
      assert !Live(b'.orders, order.isBuy, p, order);
    }
  }

  // ---- Removing ------------------------------------------------------------------------------

  lemma LevelLoses(orders: map<nat, Order>, level: Level, order: Order)
    requires Live(orders, order.isBuy, order.price, order) && LevelOk(orders, order.isBuy, order.price, level)
    ensures var level', orders' := WithoutOrder(level, order), orders - {order.id};
            && level'.total == Sum(level'.orders) && Distinct(level'.orders)
            && forall o :: o in level'.orders <==> Live(orders', order.isBuy, order.price, o)
  {
    PlaceOf(level.orders, order);
    var i := IndexOf(level.orders, order.id);
    SumAt(level.orders, i);
    hide Sum, IndexOf;
    var rest, orders' := level.orders[..i] + level.orders[i + 1..], orders - {order.id};
    forall o
      ensures o in rest <==> Live(orders', order.isBuy, order.price, o)
    {
      LostOne(level.orders, i, o);
      assert o in level.orders <==> Live(orders, order.isBuy, order.price, o);
    }
    forall x, y | 0 <= x < y < |rest|
      ensures rest[x].id != rest[y].id
    {
      assert rest[x] == level.orders[if x < i then x else x + 1];
      assert rest[y] == level.orders[if y < i then y else y + 1];
    }
  }

  lemma LostOne(orders: seq<Order>, i: nat, o: Order)
    requires Distinct(orders) && i < |orders|
    ensures o in orders[..i] + orders[i + 1..] <==> o in orders && o.id != orders[i].id
  {
    var rest := orders[..i] + orders[i + 1..];
    if o in orders && o.id != orders[i].id {
      var k :| 0 <= k < |orders| && orders[k] == o;
      assert rest[if k < i then k else k - 1] == o;
    }
    if o in rest {
      var k :| 0 <= k < |rest| && rest[k] == o;
      assert orders[if k < i then k else k + 1] == o;
    }
  }

  lemma RemovedKeeps(b: Book, order: Order)
    requires BookOk(b) && order.id in b.orders && b.orders[order.id] == order
    ensures CanRemove(b, order) && BookOk(Removed(b, order))
  {
    var orders', side, p := b.orders - {order.id}, order.isBuy, order.price;
    var levels := LevelsOf(b, side);
    assert p in levels && LevelOk(b.orders, side, p, levels[p]);
    LevelLoses(b.orders, levels[p], order);
    var level := WithoutOrder(levels[p], order);
    assert forall o :: o in level.orders ==> o.volume > 0;
    SumPositive(level.orders);
    hide WithoutOrder, Sum;
    SideUntouched(b.orders, orders', !side, LevelsOf(b, !side), order.id);
    UnfiledOk(b.orders, side, levels, order);
  }

  lemma UnfiledOk(orders: map<nat, Order>, isBuy: bool, levels: map<nat, Level>, order: Order)
    requires Keyed(orders) && SideOk(orders, isBuy, levels) && order.price in levels && isBuy == order.isBuy
    requires order.id in orders && orders[order.id] == order
    requires var level := WithoutOrder(levels[order.price], order);
             (level.total == 0 <==> level.orders == []) && (level.orders != [] ==> LevelOk(orders - {order.id}, isBuy, order.price, level))
             && forall o :: o in level.orders <==> Live(orders - {order.id}, isBuy, order.price, o)
    ensures SideOk(orders - {order.id}, isBuy, Unfiled(levels, order))
  {
    hide LevelOk, WithoutOrder;
    var orders', levels' := orders - {order.id}, Unfiled(levels, order);
    forall x | x in levels'
      ensures LevelOk(orders', isBuy, x, levels'[x])
    {
      if x != order.price { LevelUntouched(orders, orders', isBuy, x, levels[x], order.id); }
    }
    forall id | id in orders' && orders'[id].isBuy == isBuy
      ensures orders'[id].price in levels'
    {
      if orders'[id].price == order.price {
        StillThere(orders, orders', isBuy, levels, order, id);
      }
    }
  }

  lemma StillThere(orders: map<nat, Order>, orders': map<nat, Order>, isBuy: bool, levels: map<nat, Level>, order: Order, id: nat)
    requires orders' == orders - {order.id} && order.price in levels && Keyed(orders)
    requires var level := WithoutOrder(levels[order.price], order);
             (level.total == 0 <==> level.orders == []) && forall o :: o in level.orders <==> Live(orders', isBuy, order.price, o)
    requires id in orders' && orders'[id].isBuy == isBuy && orders'[id].price == order.price
    ensures order.price in Unfiled(levels, order)
  {
    hide WithoutOrder;
    var level := WithoutOrder(levels[order.price], order);
    assert Live(orders', isBuy, order.price, orders'[id]);
    assert orders'[id] in level.orders;
  }

  /** An order that does not match the stored one leaves the levels or a total behind. */
  lemma RemovedBreaks(b: Book, order: Order)
    requires BookOk(b) && order.id in b.orders && b.orders[order.id] != order && CanRemove(b, order)
    ensures !BookOk(Removed(b, order))
  {
    var held, b' := b.orders[order.id], Removed(b, order);
    var levels, levels' := LevelsOf(b, held.isBuy), LevelsOf(b', held.isBuy);
    assert held.price in levels && LevelOk(b.orders, held.isBuy, held.price, levels[held.price]);
    var level := levels[held.price];
    assert Live(b.orders, held.isBuy, held.price, held);
    PlaceOf(level.orders, held);
    var i := IndexOf(level.orders, held.id);
    SumAt(level.orders, i);
    TotalPositive(b, order.isBuy, order.price);
    if held.isBuy == order.isBuy && held.price == order.price {
      WrongVolumeBreaks(b, order, level, i);
    } else {
      WrongPlace(b, order);
      assert levels'[held.price] == level;
      assert !Live(b'.orders, held.isBuy, held.price, held);
    }
  }

  lemma WrongPlace(b: Book, order: Order)
    requires BookOk(b) && order.id in b.orders && CanRemove(b, order)
    requires b.orders[order.id].isBuy != order.isBuy || b.orders[order.id].price != order.price
    ensures LevelsOf(Removed(b, order), order.isBuy) == LevelsOf(b, order.isBuy)
  {
    var level := LevelsOf(b, order.isBuy)[order.price];
    assert LevelOk(b.orders, order.isBuy, order.price, level);
    var i := IndexOf(level.orders, order.id);
    assert i < |level.orders| ==> level.orders[i] in level.orders;
    assert i < |level.orders| ==> Live(b.orders, order.isBuy, order.price, level.orders[i]);
    TotalPositive(b, order.isBuy, order.price);
  }

  lemma WrongVolumeBreaks(b: Book, order: Order, level: Level, i: nat)
    requires Keyed(b.orders) && order.id in b.orders && order.price in LevelsOf(b, order.isBuy)
    requires b.orders[order.id] == Order(order.id, order.isBuy, b.orders[order.id].volume, order.price) != order
    requires level == LevelsOf(b, order.isBuy)[order.price] && LevelOk(b.orders, order.isBuy, order.price, level)
    requires i == IndexOf(level.orders, order.id) && i < |level.orders| && level.orders[i] == b.orders[order.id]
    requires Sum(level.orders) == Sum(level.orders[..i] + level.orders[i + 1..]) + level.orders[i].volume
    ensures !BookOk(Removed(b, order))
  {
    var b' := Removed(b, order);
    var rest := level.orders[..i] + level.orders[i + 1..];
    var levels' := LevelsOf(b', order.isBuy);
    assert WithoutOrder(level, order) == Level(rest, level.total - order.volume);
    if rest == [] {
      assert Sum(rest) == 0;
      assert order.price in levels';
    }
    if order.price in levels' {
      assert !LevelOk(b'.orders, order.isBuy, order.price, levels'[order.price]);
    } else {
      var o := rest[0];
      assert o == level.orders[if i > 0 then 0 else 1];
      assert o in level.orders && o.id != order.id;
      assert Live(b'.orders, order.isBuy, order.price, o);
      assert o.id in b'.orders;
    }
  }

  /** Removing keeps the grouping exactly when the order is unknown or is the stored order. */
  lemma RemoveKeepsIff(b: Book, order: Order)
    requires BookOk(b) && CanRemove(b, order)
    ensures BookOk(Removed(b, order)) <==> order.id in b.orders ==> b.orders[order.id] == order
  {
    hide BookOk, Removed;
    if order.id !in b.orders {
      UnknownIsIgnored(b, order);
    } else if b.orders[order.id] == order {
      RemovedKeeps(b, order);
    } else {
      RemovedBreaks(b, order);
    }
  }

  lemma UnknownIsIgnored(b: Book, order: Order)
    requires order.id !in b.orders
    ensures Removed(b, order) == b
  {
  }

  // ---- Modifying -----------------------------------------------------------------------------

  /** A price change is a removal of the stored order and an addition of the new one. */
  lemma MoveIsRemoveThenAdd(b: Book, order: Order)
    requires order.id in b.orders && CanModify(b, order) && b.orders[order.id].price != order.price
    requires b.orders[order.id].id == order.id
    ensures CanRemove(b, b.orders[order.id])
    ensures Modified(b, order) == Added(Removed(b, b.orders[order.id]), order)
  {
    assert (b.orders - {order.id})[order.id := order] == b.orders[order.id := order];
  }

  lemma LevelChanges(orders: map<nat, Order>, level: Level, order: Order)
    requires order.id in orders && LevelOk(orders, order.isBuy, order.price, level)
    requires var held := orders[order.id]; held.id == order.id && held.isBuy == order.isBuy && held.price == order.price
    ensures LevelOk(orders[order.id := order], order.isBuy, order.price, WithModified(level, order))
  {
    var held, orders' := orders[order.id], orders[order.id := order];
    assert Live(orders, order.isBuy, order.price, held);
    PlaceOf(level.orders, held);
    var i := IndexOf(level.orders, order.id);
    SumAt(level.orders, i);
    var changed := level.orders[i := order];
    SumAt(changed, i);
    assert changed[..i] + changed[i + 1..] == level.orders[..i] + level.orders[i + 1..];
    hide Sum, IndexOf;
    forall o
      ensures o in changed <==> Live(orders', order.isBuy, order.price, o)
    {
      LostOne(level.orders, i, o);
      LostOne(changed, i, o);
      assert o in level.orders <==> Live(orders, order.isBuy, order.price, o);
      assert changed[i] == order;
    }
  }

  lemma ModifiedKeeps(b: Book, order: Order)
    requires BookOk(b) && order.id in b.orders && order.volume > 0
    requires b.orders[order.id].price != order.price || b.orders[order.id].isBuy == order.isBuy
    ensures CanModify(b, order) && BookOk(Modified(b, order))
  {
    var held := b.orders[order.id];
    if held.price != order.price {
      RemovedKeeps(b, held);
      MoveIsRemoveThenAdd(b, order);
      AddedKeeps(Removed(b, held), order);
    } else {
      hide LevelOk;
      var orders', levels := b.orders[order.id := order], LevelsOf(b, order.isBuy);
      LevelChanges(b.orders, levels[order.price], order);
      SideUntouched(b.orders, orders', !order.isBuy, LevelsOf(b, !order.isBuy), order.id);
      forall p | p in levels && p != order.price
        ensures LevelOk(orders', order.isBuy, p, levels[p])
      {
        LevelUntouched(b.orders, orders', order.isBuy, p, levels[p], order.id);
      }
      assert SideOk(orders', order.isBuy, levels[order.price := WithModified(levels[order.price], order)]);
    }
  }

  /** Modifying keeps the grouping exactly when the new order has volume and does not change side
      at the same price; an unknown id is added to a level that is already there. */
  lemma ModifyKeepsIff(b: Book, order: Order)
    requires BookOk(b) && CanModify(b, order)
    ensures BookOk(Modified(b, order)) <==>
              order.volume > 0 &&
              (order.id in b.orders ==> b.orders[order.id].price != order.price || b.orders[order.id].isBuy == order.isBuy)
  {
    if order.id !in b.orders {
      AddKeepsIff(b, order);
    } else if order.volume <= 0 {
      assert Modified(b, order).orders[order.id] == order;
    } else if b.orders[order.id].price != order.price || b.orders[order.id].isBuy == order.isBuy {
      ModifiedKeeps(b, order);
    } else {
      SideChangeBreaks(b, order);
    }
  }

  lemma SideChangeBreaks(b: Book, order: Order)
    requires BookOk(b) && CanModify(b, order) && order.id in b.orders
    requires b.orders[order.id].price == order.price && b.orders[order.id].isBuy != order.isBuy
    ensures !BookOk(Modified(b, order))
  {
    var held, b' := b.orders[order.id], Modified(b, order);
    var level := LevelsOf(b, held.isBuy)[held.price];
    assert LevelOk(b.orders, held.isBuy, held.price, level);
    assert Live(b.orders, held.isBuy, held.price, held);
    PlaceOf(level.orders, held);
    var level' := LevelsOf(b', held.isBuy)[held.price];
    assert level'.orders[IndexOf(level.orders, held.id)] == order;
    assert order in level'.orders && !Live(b'.orders, held.isBuy, held.price, order);
  }

  // ---- Changes that break the grouping ---------------------------------------------------------

  const EMPTY_BOOK := Book(map[], map[], map[])
  const BID := Order(1, true, 5, 100)

  lemma OneBid()
    ensures BookOk(Added(EMPTY_BOOK, BID)) && Added(EMPTY_BOOK, BID).orders == map[1 := BID] && 100 in Added(EMPTY_BOOK, BID).buy
  {
    EmptyBookOk();
    AddKeepsIff(EMPTY_BOOK, BID);
  }

  /** The same order again. */
  lemma AddTwiceBreaks()
    ensures !BookOk(Added(Added(EMPTY_BOOK, BID), BID))
  {
    hide BookOk, Added;
    OneBid();
    AddKeepsIff(Added(EMPTY_BOOK, BID), BID);
  }

  /** A remove that names another volume. */
  lemma RemoveOtherVolumeBreaks()
    ensures var b, o := Added(EMPTY_BOOK, BID), Order(1, true, 3, 100);
            BookOk(b) && CanRemove(b, o) && !BookOk(Removed(b, o))
  {
    hide BookOk, Added;
    OneBid();
    RemoveKeepsIff(Added(EMPTY_BOOK, BID), Order(1, true, 3, 100));
  }

  /** A modify that turns a bid into an ask at its price. */
  lemma ModifySideBreaks()
    ensures var b, o := Added(EMPTY_BOOK, BID), Order(1, false, 5, 100);
            BookOk(b) && CanModify(b, o) && !BookOk(Modified(b, o))
  {
    hide BookOk, Added;
    OneBid();
    ModifyKeepsIff(Added(EMPTY_BOOK, BID), Order(1, false, 5, 100));
  }

  // ---- Runs, and the best price ---------------------------------------------------------------

  datatype Change = Add(o: Order) | Modify(o: Order) | Remove(o: Order)

  /** The changes the book is meant for. */
  predicate Expected(b: Book, c: Change) {
    match c
    case Add(o) => o.id !in b.orders && o.volume > 0
    case Modify(o) => o.id in b.orders && b.orders[o.id].isBuy == o.isBuy && o.volume > 0
    case Remove(o) => o.id in b.orders && b.orders[o.id] == o
  }

  predicate IsStep(b: Book, c: Change, b': Book) {
    Expected(b, c) &&
    match c
    case Add(o) => b' == Added(b, o)
    case Modify(o) => CanModify(b, o) && b' == Modified(b, o)
    case Remove(o) => CanRemove(b, o) && b' == Removed(b, o)
  }

  predicate IsRun(books: seq<Book>, changes: seq<Change>) {
    && |books| == |changes| + 1
    && forall i :: 0 <= i < |changes| ==> IsStep(books[i], changes[i], books[i + 1])
  }

  lemma StepKeepsGrouping(b: Book, c: Change, b': Book)
    requires BookOk(b) && IsStep(b, c, b')
    ensures BookOk(b')
  {
    hide BookOk, Added, Modified, Removed;
    match c
    case Add(o) => AddedKeeps(b, o);
    case Modify(o) => ModifiedKeeps(b, o);
    case Remove(o) => RemovedKeeps(b, o);
  }

  lemma {:induction false} RunKeepsGrouping(books: seq<Book>, changes: seq<Change>)
    requires IsRun(books, changes) && BookOk(books[0])
    ensures BookOk(books[|changes|])
  {
    hide BookOk, IsStep;
    var n := |changes| - 1;
    if n >= 0 {
      RunKeepsGrouping(books[..n + 1], changes[..n]);
      assert books[..n + 1][n] == books[n];
      StepKeepsGrouping(books[n], changes[n], books[n + 1]);
    }
  }

  /** The first key of the level map: the greatest for buys, the least for sells. */
  predicate First(levels: map<nat, Level>, isBuy: bool, price: nat) {
    price in levels && forall p :: p in levels ==> if isBuy then p <= price else price <= p
  }

  /** The first level is the best price of any live order of the side. */
  lemma FirstLevelIsBest(b: Book, isBuy: bool, price: nat)
    requires BookOk(b) && First(LevelsOf(b, isBuy), isBuy, price)
    ensures exists id :: id in b.orders && b.orders[id].isBuy == isBuy && b.orders[id].price == price
    ensures forall id :: id in b.orders && b.orders[id].isBuy == isBuy ==>
              if isBuy then b.orders[id].price <= price else price <= b.orders[id].price
  {
    var level := LevelsOf(b, isBuy)[price];
    assert LevelOk(b.orders, isBuy, price, level);
    var o := level.orders[0];
    assert Live(b.orders, isBuy, price, o);
    assert o.id in b.orders;
  }

  // ---- Turns in a level ------------------------------------------------------------------------

  /** The orders of a list are in the order in which they joined. */
  predicate ByArrival(orders: seq<Order>, joined: map<nat, nat>) {
    && (forall i :: 0 <= i < |orders| ==> orders[i].id in joined)
    && forall i, j :: 0 <= i < j < |orders| ==> joined[orders[i].id] < joined[orders[j].id]
  }

  predicate InTurn(b: Book, joined: map<nat, nat>) {
    && (forall p :: p in b.buy ==> ByArrival(b.buy[p].orders, joined))
    && forall p :: p in b.sell ==> ByArrival(b.sell[p].orders, joined)
  }

  lemma JoinsLast(level: Level, order: Order, joined: map<nat, nat>, now: nat)
    requires ByArrival(level.orders, joined) && (forall id :: id in joined ==> joined[id] < now)
    requires forall i :: 0 <= i < |level.orders| ==> level.orders[i].id != order.id
    ensures ByArrival(WithOrder(level, order).orders, joined[order.id := now])
  {
  }

  lemma IdsOfLevel(b: Book, isBuy: bool, p: nat, id: nat)
    requires BookOk(b) && p in LevelsOf(b, isBuy) && id !in b.orders
    ensures forall i :: 0 <= i < |LevelsOf(b, isBuy)[p].orders| ==> LevelsOf(b, isBuy)[p].orders[i].id != id
  {
    var level := LevelsOf(b, isBuy)[p];
    assert LevelOk(b.orders, isBuy, p, level);
    forall i | 0 <= i < |level.orders|
      ensures level.orders[i].id != id
    {
      assert level.orders[i] in level.orders;
      assert Live(b.orders, isBuy, p, level.orders[i]);
    }
  }

  lemma AddedInTurn(b: Book, order: Order, joined: map<nat, nat>, now: nat)
    requires BookOk(b) && order.id !in b.orders && InTurn(b, joined) && (forall id :: id in joined ==> joined[id] < now)
    ensures InTurn(Added(b, order), joined[order.id := now])
  {
    var joined' := joined[order.id := now];
    hide BookOk, WithOrder;
    forall isBuy, p | p in LevelsOf(b, isBuy)
      ensures ByArrival(LevelsOf(b, isBuy)[p].orders, joined')
      ensures ByArrival(WithOrder(LevelsOf(b, isBuy)[p], order).orders, joined')
    {
      IdsOfLevel(b, isBuy, p, order.id);
      JoinsLast(LevelsOf(b, isBuy)[p], order, joined, now);
    }
    JoinsLast(Level([], 0), order, joined, now);
    forall p | p in b.buy
      ensures ByArrival(b.buy[p].orders, joined')
    {
      assert b.buy == LevelsOf(b, true);
    }
    forall p | p in b.sell
      ensures ByArrival(b.sell[p].orders, joined')
    {
      assert b.sell == LevelsOf(b, false);
    }
    assert order.isBuy && order.price in b.buy ==> ByArrival(WithOrder(LevelsOf(b, true)[order.price], order).orders, joined');
    assert !order.isBuy && order.price in b.sell ==> ByArrival(WithOrder(LevelsOf(b, false)[order.price], order).orders, joined');
  }

  lemma LeavesInTurn(level: Level, order: Order, joined: map<nat, nat>)
    requires ByArrival(level.orders, joined)
    ensures ByArrival(WithoutOrder(level, order).orders, joined)
  {
    var i := IndexOf(level.orders, order.id);
    if i < |level.orders| {
      var rest := level.orders[..i] + level.orders[i + 1..];
      assert forall x :: 0 <= x < |rest| ==> rest[x] == level.orders[if x < i then x else x + 1];
    }
  }

  lemma RemovedInTurn(b: Book, order: Order, joined: map<nat, nat>)
    requires InTurn(b, joined) && CanRemove(b, order)
    ensures InTurn(Removed(b, order), joined)
  {
    if order.id in b.orders { LeavesInTurn(LevelsOf(b, order.isBuy)[order.price], order, joined); }
    hide WithoutOrder, ByArrival;
  }

  lemma ReplacedInTurn(level: Level, order: Order, joined: map<nat, nat>)
    requires ByArrival(level.orders, joined)
    ensures ByArrival(WithModified(level, order).orders, joined)
  {
  }

  lemma ModifiedInTurn(b: Book, order: Order, joined: map<nat, nat>, now: nat)
    requires BookOk(b) && Expected(b, Modify(order)) && CanModify(b, order)
    requires InTurn(b, joined) && (forall id :: id in joined ==> joined[id] < now)
    ensures InTurn(Modified(b, order), if b.orders[order.id].price == order.price then joined else joined[order.id := now])
  {
    var held := b.orders[order.id];
    if held.price == order.price {
      ReplacedInTurn(LevelsOf(b, held.isBuy)[held.price], order, joined);
      hide WithModified, ByArrival, BookOk;
    } else {
      RemovedKeeps(b, held);
      MoveIsRemoveThenAdd(b, order);
      hide Added, BookOk, InTurn;
      RemovedInTurn(b, held, joined);
      AddedInTurn(Removed(b, held), order, joined, now);
    }
  }

  /** When each order joined the level it is in: a change of its price makes it join again, any
      other change does not. */
  ghost function Joined(books: seq<Book>, changes: seq<Change>): (joined: map<nat, nat>)
    requires IsRun(books, changes)
    ensures forall id :: id in joined ==> joined[id] < |changes|
  {
    var n := |changes|;
    if n == 0 then map[] else
    var joined := Joined(books[..n], changes[..n - 1]);
    assert IsStep(books[n - 1], changes[n - 1], books[n]);
    match changes[n - 1]
    case Add(o) => joined[o.id := n - 1]
    case Modify(o) => if books[n - 1].orders[o.id].price == o.price then joined else joined[o.id := n - 1]
    case Remove(_) => joined
  }

  /** Over every run of expected changes: the orders of a level stand in the order in which they
      came to its price. */
  lemma {:induction false} LevelsKeepTurn(books: seq<Book>, changes: seq<Change>)
    requires IsRun(books, changes) && books[0] == Book(map[], map[], map[])
    ensures InTurn(books[|changes|], Joined(books, changes))
  {
    hide BookOk, InTurn, Added, Modified, Removed;
    var n := |changes|;
    if n == 0 {
      EmptyInTurn();
    } else {
      LevelsKeepTurn(books[..n], changes[..n - 1]);
      EmptyBookOk();
      RunKeepsGrouping(books[..n], changes[..n - 1]);
      var b, joined := books[n - 1], Joined(books[..n], changes[..n - 1]);
      assert books[..n][n - 1] == b && IsStep(b, changes[n - 1], books[n]);
      match changes[n - 1]
      case Add(o) => AddedInTurn(b, o, joined, n - 1);
      case Modify(o) => ModifiedInTurn(b, o, joined, n - 1);
      case Remove(o) => RemovedInTurn(b, o, joined);
    }
  }

  lemma EmptyInTurn()
    ensures InTurn(Book(map[], map[], map[]), map[])
  {
  }
}
