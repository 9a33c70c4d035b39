/** AdvancedMatchEngine in its object: the loops over levels and order lists, each proved to do
    what MatchBook says, and to keep MatchInvariant. */
module MatchEngine {
  import opened MatchBook
  import opened MatchInvariant
  import opened MatchTicks

  /** Only trades in full of orders that leave are reported, and nothing else about the desk changes. */
  ghost predicate Followed(e: Engine, e': Engine) {
    && e'.placed == e.placed && e'.withdrawn == e.withdrawn && e'.ticks == e.ticks
    && e.reports <= e'.reports
    && forall i :: |e.reports| <= i < |e'.reports| ==> FullTrade(e'.reports[i])
  }

  predicate FullTrade(r: Report) {
    r.Traded? && r.volume == r.order.volume && r.price == r.order.price
  }

  lemma FollowedTwice(a: Engine, b: Engine, c: Engine)
    requires Followed(a, b) && Followed(b, c)
    ensures Followed(a, c)
  {
  }

  lemma LeaveFollows(e: Engine, k: Key, gone: seq<Inner>, kept: seq<Inner>)
    ensures Followed(e, LeaveLevel(e, k, gone, kept))
  {
  }

  /** The part of a list that a loop has gone through. */
  lemma OneFurther(list: seq<Inner>, i: nat)
    requires i < |list|
    ensures Ids(list[..i + 1]) == Ids(list[..i]) + {list[i].orig.id}
    ensures Trades(list[..i + 1]) == Trades(list[..i]) + [TradeOf(list[i])]
  {
    assert list[..i + 1] == list[..i] + [list[i]];
    IdsOfLast(list[..i], list[i]);
  }

  lemma WholeList(list: seq<Inner>)
    ensures list[..|list|] == list && Divided(list, list, []) == Distinct(list)
  {
    NoIds();
  }

  /** Kept and Gone, one order further. */
  lemma {:induction false} SplitFurther(list: seq<Inner>, i: nat, filled: int)
    requires i < |list|
    ensures var o := list[i];
            if o.queue < filled then
              Gone(list[..i + 1], filled) == Gone(list[..i], filled) + [o] && Kept(list[..i + 1], filled) == Kept(list[..i], filled)
            else
              && Gone(list[..i + 1], filled) == Gone(list[..i], filled)
              && Kept(list[..i + 1], filled) == Kept(list[..i], filled) + [o.(queue := o.queue - filled)]
  {
    if i == 0 {
      assert list[..1][1..] == [] && list[..0] == [];
    } else {
      SplitFurther(list[1..], i - 1, filled);
      assert list[..i + 1][1..] == list[1..][..i] && list[..i][1..] == list[1..][..i - 1];
    }
  }

  lemma GoneGrows(front: seq<Inner>, o: Inner)
    ensures Ids(front + [o]) == Ids(front) + {o.orig.id} && Trades(front + [o]) == Trades(front) + [TradeOf(o)]
  {
    IdsOfLast(front, o);
  }

  class AdvancedMatchEngine {
    var levels: Levels
    var index: map<nat, nat>
    var ticks: map<nat, Tick>
    var reports: seq<Report>
    ghost var placed: map<nat, int>
    ghost var withdrawn: set<nat>

    ghost function View(): Engine
      reads this
    {
      Engine(levels, index, ticks, reports, placed, withdrawn)
    }

    constructor ()
      ensures EngineOk(View()) && View() == EMPTY_ENGINE
    {
      levels, index, ticks, reports := map[], map[], map[], [];
      placed, withdrawn := map[], {};
      new;
      EmptyEngineOk();
    }

    /** begin() of one side: the highest bid or the lowest ask. */
    method BestLevel(ticker: nat, isBid: bool) returns (found: bool, best: Key)
      ensures found ==> best in levels && best.ticker == ticker && best.isBid == isBid
      ensures forall k :: k in levels && k.ticker == ticker && k.isBid == isBid ==>
                found && if isBid then k.price <= best.price else best.price <= k.price
    {
      found, best := false, Key(ticker, isBid, 0);
      var keys := levels.Keys;
      while keys != {}
        invariant keys <= levels.Keys
        invariant found ==> best in levels && best.ticker == ticker && best.isBid == isBid
        invariant forall k :: k in levels && k !in keys && k.ticker == ticker && k.isBid == isBid ==>
                    found && if isBid then k.price <= best.price else best.price <= k.price
        decreases |keys|
      {
        var k :| k in keys;
        keys := keys - {k};
        if k.ticker == ticker && k.isBid == isBid && (!found || (if isBid then best.price < k.price else k.price < best.price)) {
          found, best := true, k;
        }
      }
    }

    /** Every order of a level trades in full, and the level goes away. */
    method TradeLevel(k: Key)
      requires EngineOk(View()) && k in levels
      modifies this`levels, this`index, this`reports
      ensures EngineOk(View()) && Followed(old(View()), View())
      ensures levels == old(levels) - {k}
    {
      hide Ids, Trades, EngineOk, Followed;
      ghost var e := View();
      var list := levels[k];
      TradePlan(e, k);
      for i := 0 to |list|
        invariant levels == e.levels && index == e.index - Ids(list[..i]) && reports == e.reports + Trades(list[..i])
      {
        OneFurther(list, i);
        reports := reports + [Traded(list[i].orig, list[i].orig.volume, list[i].orig.price)];
        index := index - {list[i].orig.id};
      }
      levels := levels - {k};
    }

    lemma TradePlan(e: Engine, k: Key)
      requires EngineOk(e) && k in e.levels
      ensures EngineOk(LeaveLevel(e, k, e.levels[k], [])) && Followed(e, LeaveLevel(e, k, e.levels[k], []))
      ensures var list := e.levels[k]; list[..|list|] == list && Ids(list[..0]) == {} && Trades(list[..0]) == []
    {
      hide EngineOk, Followed, LeaveLevel;
      LevelIsDistinct(e, k);
      WholeList(e.levels[k]);
      LeaveKeeps(e, k, e.levels[k], []);
      LeaveFollows(e, k, e.levels[k], []);
    }

    lemma LevelIsDistinct(e: Engine, k: Key)
      requires EngineOk(e) && k in e.levels
      ensures Distinct(e.levels[k]) && AllRecorded(e.placed, e.levels[k])
    {
      hide Recorded, InFull, Ids, Finals;
    }

    /** while the best level of the side is reached, trade it. */
    method Sweep(ticker: nat, isBid: bool, bound: int)
      requires EngineOk(View())
      modifies this`levels, this`index, this`reports
      ensures EngineOk(View()) && Followed(old(View()), View())
      ensures levels == Swept(old(levels), ticker, isBid, bound)
    {
      hide EngineOk, Followed;
      FollowsItself(View());
      while true
        invariant EngineOk(View()) && Followed(old(View()), View())
        invariant levels.Keys <= old(levels).Keys
        invariant forall k :: k in levels ==> levels[k] == old(levels)[k]
        invariant forall k :: k in old(levels) && !Reached(k, ticker, isBid, bound) ==> k in levels
        decreases |levels.Keys|
      {
        ghost var e := View();
        var found, best := BestLevel(ticker, isBid);
        if !found || !Reached(best, ticker, isBid, bound) { break; }
        TradeLevel(best);
        FollowedTwice(old(View()), e, View());
        assert levels.Keys == e.levels.Keys - {best};
      }
    }

    lemma FollowsItself(e: Engine)
      ensures Followed(e, e)
    {
    }

    /** The loop over the orders of one level with so much volume filled. */
    method ScanLevel(k: Key, filled: int)
      requires EngineOk(View()) && k in levels
      modifies this`levels, this`index, this`reports
      ensures EngineOk(View()) && Followed(old(View()), View())
      ensures levels == Scanned(old(levels), k, filled)
    {
      hide Ids, Trades, EngineOk, Followed, Gone, Kept;
      ghost var e := View();
      var list := levels[k];
      ScanPlan(e, k, filled);
      NothingSplit(list[..0], filled);
      var kept := [];
      for i := 0 to |list|
        invariant levels == e.levels && kept == Kept(list[..i], filled)
        invariant index == e.index - Ids(Gone(list[..i], filled)) && reports == e.reports + Trades(Gone(list[..i], filled))
      {
        var o := list[i];
        SplitFurther(list, i, filled);
        GoneGrows(Gone(list[..i], filled), o);
        if o.queue < filled {
          reports := reports + [Traded(o.orig, o.orig.volume, o.orig.price)];
          index := index - {o.orig.id};
        } else {
          kept := kept + [o.(queue := o.queue - filled)];
        }
      }
      if kept == [] {
        levels := levels - {k};
      } else {
        levels := levels[k := kept];
      }
    }

    lemma ScanPlan(e: Engine, k: Key, filled: int)
      requires EngineOk(e) && k in e.levels
      ensures var list := e.levels[k]; var e' := LeaveLevel(e, k, Gone(list, filled), Kept(list, filled));
              EngineOk(e') && Followed(e, e') && list[..|list|] == list
    {
      hide EngineOk, Followed, LeaveLevel, Gone, Kept;
      var list := e.levels[k];
      LevelIsDistinct(e, k);
      KeptOrGone(list, filled);
      KeptOrGoneRecorded(e.placed, list, filled);
      LeaveKeeps(e, k, Gone(list, filled), Kept(list, filled));
      LeaveFollows(e, k, Gone(list, filled), Kept(list, filled));
      WholeList(list);
    }

    lemma NothingSplit(list: seq<Inner>, filled: int)
      requires list == []
      ensures Kept(list, filled) == [] && Ids(Gone(list, filled)) == {} && Trades(Gone(list, filled)) == []
    {
    }

    /** The loop over the levels of the tick. */
    method ScanLevels(ticker: nat, isBid: bool, prices: Prices, volumes: Volumes, fill: int)
      requires EngineOk(View())
      modifies this`levels, this`index, this`reports
      ensures EngineOk(View()) && Followed(old(View()), View())
      ensures levels == ScannedFrom(old(levels), ticker, isBid, prices, volumes, fill, 0)
    {
      hide EngineOk, Followed, Scanned, U64Price;
      FollowsItself(View());
      var filled, level := fill, 0;
      while level < MAX_LEVEL
        invariant level <= MAX_LEVEL && EngineOk(View()) && Followed(old(View()), View())
        invariant ScannedFrom(old(levels), ticker, isBid, prices, volumes, fill, 0) ==
                    ScannedFrom(levels, ticker, isBid, prices, volumes, filled, level)
      {
        if volumes[level] != 0 {
          var k := Key(ticker, isBid, U64Price(prices[level]));
          ghost var e := View();
          NoLevelNoScan(levels, k, filled);
          if k in levels {
            ScanLevel(k, filled);
            FollowedTwice(old(View()), e, View());
          }
          filled := filled - volumes[level];
          if filled <= 0 { break; }
        }
        level := level + 1;
      }
    }

    lemma NoLevelNoScan(levels: Levels, k: Key, filled: int)
      ensures k !in levels ==> Scanned(levels, k, filled) == levels
    {
    }

    method FillBids(ticker: nat, t: Tick, filled: int)
      requires EngineOk(View())
      modifies this`levels, this`index, this`reports
      ensures EngineOk(View()) && Followed(old(View()), View())
      ensures levels == BidsFilled(old(levels), ticker, t, filled)
    {
      hide EngineOk, Followed, Swept, ScannedFrom, U64Price;
      FollowsItself(View());
      if filled > 0 {
        if t.bidVolume[0] > 0 { Sweep(ticker, true, U64Price(t.bid[0]) + 1); }
        ghost var e := View();
        ScanLevels(ticker, true, t.bid, t.bidVolume, filled);
        FollowedTwice(old(View()), e, View());
      }
    }

    method FillAsks(ticker: nat, t: Tick, filled: int)
      requires EngineOk(View())
      modifies this`levels, this`index, this`reports
      ensures EngineOk(View()) && Followed(old(View()), View())
      ensures levels == AsksFilled(old(levels), ticker, t, filled)
    {
      hide EngineOk, Followed, Swept, ScannedFrom, U64Price;
      FollowsItself(View());
      if filled > 0 {
        if t.askVolume[0] > 0 { Sweep(ticker, false, U64Price(t.bid[0]) - 1); }
        ghost var e := View();
        ScanLevels(ticker, false, t.ask, t.askVolume, filled);
        FollowedTwice(old(View()), e, View());
      }
    }

    method Uncross(ticker: nat, t: Tick)
      requires EngineOk(View())
      modifies this`levels, this`index, this`reports
      ensures EngineOk(View()) && Followed(old(View()), View())
      ensures levels == Uncrossed(old(levels), ticker, t)
    {
      hide EngineOk, Followed, Swept, U64Price;
      FollowsItself(View());
      if t.bidVolume[0] > 0 { Sweep(ticker, false, U64Price(t.bid[0])); }
      ghost var e := View();
      if t.askVolume[0] > 0 {
        Sweep(ticker, true, U64Price(t.ask[0]));
        FollowedTwice(old(View()), e, View());
      }
    }

    /** OnNewTick; `size` is the contract's size. */
    method OnNewTick(ticker: nat, t: Tick, size: nat)
      requires EngineOk(View()) && size > 0
      modifies this
      ensures EngineOk(View()) && Followed(old(View()).(ticks := ticks), View())
      ensures ticks == old(ticks)[ticker := t]
      ensures if ticker !in old(ticks) || t.volume == old(ticks)[ticker].volume then levels == old(levels)
              else levels == TickLevels(old(levels), ticker, old(ticks)[ticker], t, size) && NotCrossed(levels, ticker, t)
      ensures ticker in old(ticks) && t.volume != old(ticks)[ticker].volume ==>
                OtherSideKept(old(levels), old(ticks)[ticker], t, size, ticker, levels)
    {
      hide EngineOk, Followed, NotCrossed, Uncrossed, AsksFilled, BidsFilled, Estimate, OtherSideKept;
      ghost var e := View();
      FollowsItself(e);
      if ticker in ticks {
        SameVolume(t.volume, ticks[ticker].volume);
        if (t.volume - ticks[ticker].volume) % WORD != 0 {
          var fills := Estimate(ticks[ticker], t, size);
          FillBids(ticker, t, fills.bid);
          ghost var e1 := View();
          FillAsks(ticker, t, fills.ask);
          FollowedTwice(e, e1, View());
          ghost var e2 := View();
          Uncross(ticker, t);
          FollowedTwice(e, e2, View());
          UncrossedIsNotCrossed(e2.levels, ticker, t);
          SideKept(e.levels, e.ticks[ticker], t, size, ticker);
        }
      }
      TickIsNoted(e, View(), ticker, t);
      ticks := ticks[ticker := t];
    }

    lemma SameVolume(a: Word, b: Word)
      ensures (a - b) % WORD == 0 <==> a == b
    {
    }

    lemma TickIsNoted(e: Engine, e': Engine, ticker: nat, t: Tick)
      requires EngineOk(e') && Followed(e, e')
      ensures var noted := e'.(ticks := e'.ticks[ticker := t]);
              EngineOk(noted) && Followed(e.(ticks := noted.ticks), noted) && e'.ticks == e.ticks
    {
    }

    // ---- Orders ------------------------------------------------------------------------------

    /** InsertOrder; ids are distinct. */
    method InsertOrder(o: Order) returns (ok: bool)
      requires EngineOk(View()) && o.id !in placed
      modifies this
      ensures EngineOk(View()) && View() == Inserted(old(View()), o)
      ensures ok <==> o.kind != OtherType
    {
      hide EngineOk, RestLimit, RestBest, Crosses;
      InsertKeeps(View(), o);
      placed := placed[o.id := o.volume];
      var t := if o.ticker in ticks then ticks[o.ticker] else NO_TICK;
      var ask, bid, isBuy := t.ask[0], t.bid[0], o.direction == Buy;
      match o.kind {
        case Limit =>
          if Crosses(t, o) {
            reports := reports + [Traded(o, o.volume, if isBuy then ask else bid)];
          } else {
            AddLimit(t, o);
          }
        case Best =>
          if (o.direction == Buy && t.bidVolume[0] == 0) || (o.direction == Sell && t.askVolume[0] == 0) {
            reports := reports + [Rejected(o)];
          } else {
            AddBest(t, o);
          }
        case Market =>
          var volume := if isBuy then t.askVolume[0] else t.bidVolume[0];
          if volume == 0 {
            reports := reports + [Canceled(o, o.volume)];
          } else {
            reports := reports + [Traded(o, o.volume, if isBuy then ask else bid)];
          }
        case OtherType =>
          placed := old(placed);
          return false;
        case _ =>
          if Crosses(t, o) {
            reports := reports + [Traded(o, o.volume, if isBuy then ask else bid)];
          } else {
            reports := reports + [Canceled(o, o.volume)];
          }
      }
      return true;
    }

    /** A limit order that crosses nothing. */
    method AddLimit(t: Tick, o: Order)
      modifies this`levels, this`index, this`reports
      ensures View() == RestLimit(old(View()), t, o)
    {
      hide U64Price, QueueAt, Rest;
      var queue;
      if o.direction == Buy { queue := FindQueue(t.bid, t.bidVolume, o.price); } else { queue := FindQueue(t.ask, t.askVolume, o.price); }
      Append(Key(o.ticker, o.direction == Buy, U64Price(o.price)), Inner(o, queue));
      reports := reports + [Accepted(o)];
    }

    /** A best order, at the first price of its own side. */
    method AddBest(t: Tick, o: Order)
      modifies this`levels, this`index, this`reports
      ensures View() == RestBest(old(View()), t, o)
    {
      hide U64Price, Rest;
      if o.direction == Buy {
        Append(Key(o.ticker, true, U64Price(t.bid[0])), Inner(o.(price := t.bid[0]), t.bidVolume[0]));
      } else {
        Append(Key(o.ticker, false, U64Price(t.ask[0])), Inner(o.(price := t.ask[0]), t.askVolume[0]));
      }
      reports := reports + [Accepted(o)];
    }

    method FindQueue(prices: Prices, volumes: Volumes, price: nat) returns (queue: int)
      ensures queue == QueueAt(prices, volumes, price, 0)
    {
      var level := 0;
      while level < MAX_LEVEL
        invariant level <= MAX_LEVEL && QueueAt(prices, volumes, price, 0) == QueueAt(prices, volumes, price, level)
      {
        if IsEqual(prices[level], price) { return volumes[level]; }
        level := level + 1;
      }
      return 0;
    }

    method Append(k: Key, o: Inner)
      modifies this`levels, this`index
      ensures View() == Rest(old(View()), k, o)
    {
      levels := levels[k := (if k in levels then levels[k] else []) + [o]];
      if o.orig.id !in index { index := index[o.orig.id := k.price]; }
    }

    /** CancelOrder, watched for so many turns of its loop: Spins when it has not left the loop by
        then. It never does, since a turn changes nothing. */
    method CancelOrder(id: nat, ticker: nat, turns: nat) returns (outcome: Outcome)
      requires EngineOk(View()) && turns > 0
      modifies this
      ensures outcome == CancelOutcome(old(View()), id, ticker)
      ensures match outcome
              case Unknown => View() == old(View())
              case Done => EngineOk(View()) && View() == CancelFirst(old(View()), old(CancelKey(View(), id, ticker)))
              case _ => View() == old(View()).(index := old(index) - {id})
    {
      hide EngineOk, CancelOutcome, CancelKey, CancelFirst;
      ghost var e := View();
      CancelPlan(e, id, ticker);
      if id !in index { return Unknown; }
      var price := index[id];
      index := index - {id};
      var bids := Key(ticker, true, price);
      var k := if bids in levels then bids else Key(ticker, false, price);
      if k !in levels { return Aborts; }
      var list, turn := levels[k], 0;
      while turn < turns
        invariant turn <= turns && View() == e.(index := e.index - {id}) && (turn > 0 ==> list[0].orig.id != id)
      {
        var o := list[0];
        if o.orig.id == id {
          reports := reports + [Canceled(o.orig, o.orig.volume)];
          if |list| == 1 {
            levels := levels - {k};
          } else {
            levels := levels[k := list[1..]];
          }
          withdrawn := withdrawn + {id};
          return Done;
        }
        turn := turn + 1;
      }
      return Spins;
    }

    /** The branches of CancelOrder. */
    lemma CancelPlan(e: Engine, id: nat, ticker: nat)
      requires EngineOk(e)
      ensures id !in e.index ==> CancelOutcome(e, id, ticker) == Unknown
      ensures id in e.index ==>
                var bids, k := Key(ticker, true, e.index[id]), CancelKey(e, id, ticker);
                && k == (if bids in e.levels then bids else Key(ticker, false, e.index[id]))
                && if k !in e.levels then CancelOutcome(e, id, ticker) == Aborts
                   else
                     var list := e.levels[k];
                     && list != []
                     && if list[0].orig.id != id then CancelOutcome(e, id, ticker) == Spins
                        else
                          && CancelOutcome(e, id, ticker) == Done && EngineOk(CancelFirst(e, k))
                          && CancelFirst(e, k) == e.(levels := if |list| == 1 then e.levels - {k} else e.levels[k := list[1..]],
                                                     index := e.index - {id},
                                                     reports := e.reports + [Canceled(list[0].orig, list[0].orig.volume)],
                                                     withdrawn := e.withdrawn + {id})
    {
      if id in e.index {
        var k := CancelKey(e, id, ticker);
        if k in e.levels {
          CancelKeeps(e, k);
          hide EngineOk;
        }
      }
    }

    /** Whether a cancel comes to an end. */
    method CancelEnds(id: nat, ticker: nat) returns (ends: bool)
      ensures ends <==> CancelOutcome(View(), id, ticker) == Unknown || CancelOutcome(View(), id, ticker) == Done
    {
      if id !in index { return true; }
      var bids := Key(ticker, true, index[id]);
      var k := if bids in levels then bids else Key(ticker, false, index[id]);
      return k in levels && levels[k] != [] && levels[k][0].orig.id == id;
    }
  }

  // ---- Whole backtests -------------------------------------------------------------------------

  datatype Event = Insert(o: Order) | NewTick(ticker: nat, t: Tick) | Cancel(id: nat, ticker: nat)

  predicate Places(e: Event, o: Order) {
    e.Insert? && e.o.kind != OtherType && e.o == o
  }

  predicate Cancels(e: Event, id: nat) {
    e.Cancel? && e.id == id
  }

  predicate DistinctOrders(events: seq<Event>) {
    forall i, j :: 0 <= i < j < |events| && events[i].Insert? && events[j].Insert? ==> events[i].o.id != events[j].o.id
  }

  predicate IsAccepted(r: Report, id: nat) {
    r.Accepted? && r.order.id == id
  }

  predicate EndsWith(r: Report, id: nat, volume: int, canceled: bool) {
    r.order.id == id && if canceled then r == Canceled(r.order, volume) else r.Traded? && r.volume == volume
  }

  /** The final report of an order that rested is a trade of its whole volume, or the cancel of its
      whole volume when it was canceled. */
  ghost predicate EndedRight(e: Engine, id: nat, volume: int) {
    forall i, j :: 0 <= i < |e.reports| && 0 <= j < |e.reports| ==>
      IsAccepted(e.reports[i], id) && IsFinal(e.reports[j], id) ==> EndsWith(e.reports[j], id, volume, id in e.withdrawn)
  }

  lemma PlacedEndsRight(e: Engine, id: nat)
    requires EngineOk(e) && id in e.placed
    ensures Finals(e.reports, id) == if id in e.index then 0 else 1
    ensures EndedRight(e, id, e.placed[id])
  {
    hide Finals, LevelsOk, IndexOk;
    forall i, j | 0 <= i < |e.reports| && 0 <= j < |e.reports| && IsAccepted(e.reports[i], id) && IsFinal(e.reports[j], id)
      ensures EndsWith(e.reports[j], id, e.placed[id], id in e.withdrawn)
    {
      assert InFull(e.placed, e.reports[j]);
    }
  }

  /** Any run of inserts, ticks and cancels, up to the first cancel that does not end. Every order
      placed is reported finished exactly once, unless it still rests; if it rested, then by a trade
      in full, unless it was canceled. */
  method Replay(events: seq<Event>, size: nat) returns (engine: AdvancedMatchEngine, done: nat)
    requires DistinctOrders(events) && size > 0
    ensures EngineOk(engine.View()) && done <= |events|
    ensures done < |events| ==>
              events[done].Cancel? && CancelOutcome(engine.View(), events[done].id, events[done].ticker) in {Spins, Aborts}
    ensures forall i, o :: 0 <= i < done && Places(events[i], o) ==>
              && Finals(engine.reports, o.id) == (if o.id in engine.index then 0 else 1)
              && EndedRight(engine.View(), o.id, o.volume)
    ensures forall id :: id in engine.withdrawn ==> exists i :: 0 <= i < done && Cancels(events[i], id)
  {
    engine := new AdvancedMatchEngine();
    hide Finals, LevelsOk, IndexOk, VolumesOk, RestedOk, CountsOk, Inserted, TickLevels, NotCrossed, OtherSideKept, EndedRight, CancelOutcome, CancelFirst;
    done := |events|;
    for n := 0 to |events|
      invariant EngineOk(engine.View()) && fresh(engine) && done == |events|
      invariant forall id :: id in engine.placed ==> exists i, o :: 0 <= i < n && Places(events[i], o) && o.id == id
      invariant forall i, o :: 0 <= i < n && Places(events[i], o) ==> o.id in engine.placed && engine.placed[o.id] == o.volume
      invariant forall id :: id in engine.withdrawn ==> exists i :: 0 <= i < n && Cancels(events[i], id)
    {
      match events[n] {
        case Insert(o) =>
          PlacedByInsert(engine.View(), o);
          var ok := engine.InsertOrder(o);
        case NewTick(ticker, t) => engine.OnNewTick(ticker, t, size);
        case Cancel(id, ticker) =>
          var ends := engine.CancelEnds(id, ticker);
          if !ends { done := n; break; }
          if CancelOutcome(engine.View(), id, ticker) == Done { WithdrawnByCancel(engine.View(), id, ticker); }
          var outcome := engine.CancelOrder(id, ticker, 1);
      }
    }
    forall i, o | 0 <= i < done && Places(events[i], o)
      ensures Finals(engine.reports, o.id) == (if o.id in engine.index then 0 else 1) && EndedRight(engine.View(), o.id, o.volume)
    {
      PlacedEndsRight(engine.View(), o.id);
    }
  }

  lemma PlacedByInsert(e: Engine, o: Order)
    ensures Inserted(e, o).placed == if o.kind == OtherType then e.placed else e.placed[o.id := o.volume]
    ensures Inserted(e, o).withdrawn == e.withdrawn
  {
  }

  lemma WithdrawnByCancel(e: Engine, id: nat, ticker: nat)
    requires CancelOutcome(e, id, ticker) == Done
    ensures var e' := CancelFirst(e, CancelKey(e, id, ticker));
            e'.placed == e.placed && e'.withdrawn == e.withdrawn + {id}
  {
  }
}
