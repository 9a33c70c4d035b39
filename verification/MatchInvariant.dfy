/** What every insert and every tick keeps: the index holds exactly the resting orders, no level is
    empty, and an order is reported finished exactly once, when it is not resting (any more). */
module MatchInvariant {
  import opened MatchBook

  function Ids(list: seq<Inner>): set<nat> {
    set i | 0 <= i < |list| :: list[i].orig.id
  }

  predicate Distinct(list: seq<Inner>) {
    forall i, j :: 0 <= i < j < |list| ==> list[i].orig.id != list[j].orig.id
  }

  ghost predicate LevelsOk(levels: Levels) {
    && (forall k :: k in levels ==> levels[k] != [] && Distinct(levels[k]))
    && forall k, l :: k in levels && l in levels && k != l ==> Ids(levels[k]) !! Ids(levels[l])
  }

  /** The index holds the ids of the resting orders, each with the price of its level. */
  ghost predicate IndexOk(levels: Levels, index: map<nat, nat>) {
    && (forall k, id :: k in levels && id in Ids(levels[k]) ==> id in index && index[id] == k.price)
    && forall id :: id in index ==> exists k :: k in levels && id in Ids(levels[k])
  }

  predicate IsFinal(r: Report, id: nat) {
    !r.Accepted? && r.order.id == id
  }

  /** How often an order was reported traded, canceled or rejected. */
  function Finals(reports: seq<Report>, id: nat): nat {
    if reports == [] then 0
    else Finals(reports[..|reports| - 1], id) + if IsFinal(reports[|reports| - 1], id) then 1 else 0
  }

  ghost predicate CountsOk(e: Engine) {
    && e.index.Keys <= e.placed.Keys
    && forall id :: Finals(e.reports, id) == if id in e.placed && id !in e.index then 1 else 0
  }

  predicate Recorded(placed: map<nat, int>, o: Order) {
    o.id in placed && placed[o.id] == o.volume
  }

  predicate AllRecorded(placed: map<nat, int>, list: seq<Inner>) {
    forall i :: 0 <= i < |list| ==> Recorded(placed, list[i].orig)
  }

  /** A trade or a cancel is always reported with the full volume of the order as it was placed. */
  predicate InFull(placed: map<nat, int>, r: Report) {
    Recorded(placed, r.order) && (r.Traded? || r.Canceled? ==> r.volume == r.order.volume)
  }

  ghost predicate VolumesOk(e: Engine) {
    && (forall k :: k in e.levels ==> AllRecorded(e.placed, e.levels[k]))
    && forall i :: 0 <= i < |e.reports| ==> InFull(e.placed, e.reports[i])
  }

  /** An order that rested has traded when it leaves, unless it was canceled. */
  predicate EndsAs(r: Report, withdrawn: set<nat>) {
    if r.order.id in withdrawn then r.Canceled? else r.Traded?
  }

  ghost predicate RestedOk(e: Engine) {
    && e.withdrawn <= e.placed.Keys && e.withdrawn !! e.index.Keys
    && forall i, j :: 0 <= i < |e.reports| && 0 <= j < |e.reports| ==>
         e.reports[i].Accepted? && IsFinal(e.reports[j], e.reports[i].order.id) ==> EndsAs(e.reports[j], e.withdrawn)
  }

  ghost predicate EngineOk(e: Engine) {
    LevelsOk(e.levels) && IndexOk(e.levels, e.index) && CountsOk(e) && VolumesOk(e) && RestedOk(e)
  }

  const EMPTY_ENGINE := Engine(map[], map[], map[], [], map[], {})

  lemma EmptyEngineOk()
    ensures EngineOk(EMPTY_ENGINE)
  {
  }

  lemma {:induction false} NoFinals(reports: seq<Report>, id: nat, j: nat)
    requires Finals(reports, id) == 0 && j < |reports|
    ensures !IsFinal(reports[j], id)
    decreases |reports|
  {
    var n := |reports| - 1;
    if j < n { NoFinals(reports[..n], id, j); }
  }

  lemma FinalsOfOneMore(reports: seq<Report>, r: Report, id: nat)
    ensures Finals(reports + [r], id) == Finals(reports, id) + if IsFinal(r, id) then 1 else 0
  {
    assert (reports + [r])[..|reports|] == reports;
  }

  // ---- Orders that leave one level ---------------------------------------------------------

  function TradeOf(o: Inner): Report {
    Traded(o.orig, o.orig.volume, o.orig.price)
  }

  function Trades(list: seq<Inner>): seq<Report> {
    seq(|list|, i requires 0 <= i < |list| => TradeOf(list[i]))
  }

  /** `gone` trade in full and leave level k to `kept`. */
  function LeaveLevel(e: Engine, k: Key, gone: seq<Inner>, kept: seq<Inner>): Engine {
    e.(levels := WithLevel(e.levels, k, kept), index := e.index - Ids(gone), reports := e.reports + Trades(gone))
  }

  predicate Divided(list: seq<Inner>, gone: seq<Inner>, kept: seq<Inner>) {
    Distinct(gone) && Distinct(kept) && Ids(gone) !! Ids(kept) && Ids(gone) + Ids(kept) == Ids(list)
  }

  lemma {:induction false} KeptOrGone(list: seq<Inner>, filled: int)
    requires Distinct(list)
    ensures Divided(list, Gone(list, filled), Kept(list, filled))
  {
    if list != [] {
      var head, rest := list[0], list[1..];
      KeptOrGone(rest, filled);
      IdsOfHead(head, rest);
      assert list == [head] + rest;
      var gone, kept := Gone(rest, filled), Kept(rest, filled);
      if head.queue < filled {
        IdsOfHead(head, gone);
        DistinctWithHead(head, gone);
      } else {
        var head' := head.(queue := head.queue - filled);
        IdsOfHead(head', kept);
        DistinctWithHead(head', kept);
      }
    }
  }

  lemma IdsOfHead(head: Inner, rest: seq<Inner>)
    ensures Ids([head] + rest) == {head.orig.id} + Ids(rest)
    ensures Distinct([head] + rest) ==> head.orig.id !in Ids(rest)
  {
    var list := [head] + rest;
    forall id
      ensures id in Ids(list) <==> id == head.orig.id || id in Ids(rest)
    {
      if id in Ids(rest) {
        var i :| 0 <= i < |rest| && rest[i].orig.id == id;
        assert list[i + 1].orig.id == id;
      }
      assert list[0] == head;
    }
    forall i | 0 <= i < |rest|
      ensures Distinct(list) ==> rest[i].orig.id != head.orig.id
    {
      assert list[i + 1] == rest[i] && list[0] == head;
    }
  }

  lemma DistinctWithHead(head: Inner, rest: seq<Inner>)
    requires Distinct(rest) && head.orig.id !in Ids(rest)
    ensures Distinct([head] + rest)
  {
  }

  lemma {:induction false} FinalsOfTrades(reports: seq<Report>, gone: seq<Inner>, id: nat)
    requires Distinct(gone)
    ensures Finals(reports + Trades(gone), id) == Finals(reports, id) + if id in Ids(gone) then 1 else 0
    decreases |gone|
  {
    if gone == [] {
      assert reports + Trades(gone) == reports;
    } else {
      var n := |gone| - 1;
      var front, last := gone[..n], gone[n];
      FinalsOfTrades(reports, front, id);
      assert reports + Trades(gone) == (reports + Trades(front)) + [TradeOf(last)];
      FinalsOfOneMore(reports + Trades(front), TradeOf(last), id);
      IdsOfLast(front, last);
      assert gone == front + [last];
    }
  }

  lemma IdsOfLast(front: seq<Inner>, last: Inner)
    ensures Ids(front + [last]) == Ids(front) + {last.orig.id}
    ensures Distinct(front + [last]) ==> last.orig.id !in Ids(front)
  {
    var list := front + [last];
    forall id
      ensures id in Ids(list) <==> id in Ids(front) || id == last.orig.id
    {
      if id in Ids(front) {
        var i :| 0 <= i < |front| && front[i].orig.id == id;
        assert list[i].orig.id == id;
      }
      assert list[|front|] == last;
    }
    forall i | 0 <= i < |front|
      ensures Distinct(list) ==> front[i].orig.id != last.orig.id
    {
      assert list[i] == front[i] && list[|front|] == last;
    }
  }

  lemma {:induction false} KeptOrGoneRecorded(placed: map<nat, int>, list: seq<Inner>, filled: int)
    requires AllRecorded(placed, list)
    ensures AllRecorded(placed, Gone(list, filled)) && AllRecorded(placed, Kept(list, filled))
  {
    if list != [] { KeptOrGoneRecorded(placed, list[1..], filled); }
  }

  lemma LeaveKeeps(e: Engine, k: Key, gone: seq<Inner>, kept: seq<Inner>)
    requires EngineOk(e) && k in e.levels && Divided(e.levels[k], gone, kept)
    requires AllRecorded(e.placed, gone) && AllRecorded(e.placed, kept)
    ensures EngineOk(LeaveLevel(e, k, gone, kept))
  {
    hide Ids, Finals, Distinct, Trades, VolumesOk, RestedOk, AllRecorded;
    LeaveKeepsLevels(e, k, gone, kept);
    LeaveKeepsIndex(e, k, gone, kept);
    LeaveKeepsCounts(e, k, gone, kept);
    LeaveKeepsVolumes(e, k, gone, kept);
    LeaveKeepsRested(e, k, gone, kept);
  }

  lemma LeaveKeepsLevels(e: Engine, k: Key, gone: seq<Inner>, kept: seq<Inner>)
    requires LevelsOk(e.levels) && k in e.levels && Divided(e.levels[k], gone, kept)
    ensures LevelsOk(WithLevel(e.levels, k, kept))
  {
    hide Ids, Distinct;
  }

  lemma LeaveKeepsIndex(e: Engine, k: Key, gone: seq<Inner>, kept: seq<Inner>)
    requires LevelsOk(e.levels) && IndexOk(e.levels, e.index) && k in e.levels && Divided(e.levels[k], gone, kept)
    ensures IndexOk(WithLevel(e.levels, k, kept), e.index - Ids(gone))
  {
    NoIds();
    hide Ids, Distinct;
    var levels, index := WithLevel(e.levels, k, kept), e.index - Ids(gone);
    forall id | id in index
      ensures exists l :: l in levels && id in Ids(levels[l])
    {
      var l :| l in e.levels && id in Ids(e.levels[l]);
      assert l in levels && id in Ids(levels[l]);
    }
  }

  lemma NoIds()
    ensures Ids([]) == {}
  {
  }

  lemma LeaveKeepsCounts(e: Engine, k: Key, gone: seq<Inner>, kept: seq<Inner>)
    requires EngineOk(e) && k in e.levels && Divided(e.levels[k], gone, kept)
    ensures CountsOk(LeaveLevel(e, k, gone, kept))
  {
    hide Ids, Finals, Distinct, Trades, VolumesOk, RestedOk;
    var e' := LeaveLevel(e, k, gone, kept);
    forall id
      ensures Finals(e'.reports, id) == if id in e'.placed && id !in e'.index then 1 else 0
    {
      FinalsOfTrades(e.reports, gone, id);
      if id in Ids(gone) { assert id in Ids(e.levels[k]); }
    }
  }

  lemma LeaveKeepsVolumes(e: Engine, k: Key, gone: seq<Inner>, kept: seq<Inner>)
    requires VolumesOk(e) && AllRecorded(e.placed, gone) && AllRecorded(e.placed, kept)
    ensures VolumesOk(LeaveLevel(e, k, gone, kept))
  {
    hide Ids;
  }

  /** Whoever leaves a level trades, and was not canceled before. */
  lemma LeaveKeepsRested(e: Engine, k: Key, gone: seq<Inner>, kept: seq<Inner>)
    requires EngineOk(e) && k in e.levels && Divided(e.levels[k], gone, kept)
    ensures RestedOk(LeaveLevel(e, k, gone, kept))
  {
    hide Finals, Distinct, LevelsOk, CountsOk, VolumesOk;
    forall i | 0 <= i < |gone|
      ensures gone[i].orig.id !in e.withdrawn
    {
      assert gone[i].orig.id in Ids(gone);
    }
    hide Ids;
    assert forall j :: 0 <= j < |Trades(gone)| ==> EndsAs(Trades(gone)[j], e.withdrawn);
  }

  // ---- Inserting -----------------------------------------------------------------------------

  lemma FinishKeeps(e: Engine, o: Order, r: Report)
    requires EngineOk(e) && o.id !in e.placed && IsFinal(r, o.id) && InFull(Placed(e, o).placed, r)
    ensures EngineOk(Say(Placed(e, o), r))
  {
    hide Ids, Finals, Distinct, LevelsOk, IndexOk;
    forall id
      ensures Finals(e.reports + [r], id) == if id in Placed(e, o).placed && id !in e.index then 1 else 0
    {
      FinalsOfOneMore(e.reports, r, id);
    }
    assert forall i :: 0 <= i < |e.reports| ==> InFull(e.placed, e.reports[i]);
  }

  lemma RestKeeps(e: Engine, k: Key, o: Inner, placing: Order, r: Report)
    requires EngineOk(e) && placing.id !in e.placed && o.orig.id == placing.id && o.orig.volume == placing.volume && r == Accepted(placing)
    ensures EngineOk(Say(Rest(Placed(e, placing), k, o), r))
  {
    IdsOfLast(LevelOf(e.levels, k), o);
    NoIds();
    RestDistinct(e, k, o);
    RestKeepsLevels(e, k, o);
    RestKeepsIndex(e, k, o);
    RestKeepsVolumes(e, k, o, placing);
    RestKeepsRested(e, k, o, placing);
    hide Ids, Distinct, Finals, LevelsOk, IndexOk, VolumesOk, RestedOk;
    var e' := Say(Rest(Placed(e, placing), k, o), r);
    forall id
      ensures Finals(e'.reports, id) == if id in e'.placed && id !in e'.index then 1 else 0
    {
      FinalsOfOneMore(e.reports, r, id);
    }
  }

  lemma RestKeepsVolumes(e: Engine, k: Key, o: Inner, placing: Order)
    requires VolumesOk(e) && placing.id !in e.placed && o.orig.id == placing.id && o.orig.volume == placing.volume
    ensures VolumesOk(Say(Rest(Placed(e, placing), k, o), Accepted(placing)))
  {
    assert forall i :: 0 <= i < |e.reports| ==> InFull(e.placed, e.reports[i]);
    var e' := Say(Rest(Placed(e, placing), k, o), Accepted(placing));
    forall l | l in e'.levels
      ensures AllRecorded(e'.placed, e'.levels[l])
    {
      if l in e.levels { assert AllRecorded(e.placed, e.levels[l]); }
    }
  }

  lemma RestKeepsRested(e: Engine, k: Key, o: Inner, placing: Order)
    requires VolumesOk(e) && RestedOk(e) && placing.id !in e.placed && o.orig.id == placing.id
    ensures RestedOk(Say(Rest(Placed(e, placing), k, o), Accepted(placing)))
  {
    assert forall i :: 0 <= i < |e.reports| ==> InFull(e.placed, e.reports[i]);
    hide AllRecorded, LevelOf;
  }

  lemma RestKeepsLevels(e: Engine, k: Key, o: Inner)
    requires LevelsOk(e.levels) && Distinct(LevelOf(e.levels, k) + [o])
    requires Ids(LevelOf(e.levels, k) + [o]) == Ids(LevelOf(e.levels, k)) + {o.orig.id}
    requires forall l :: l in e.levels ==> o.orig.id !in Ids(e.levels[l])
    ensures LevelsOk(Rest(e, k, o).levels)
  {
    NoIds();
    hide Ids, Distinct;
  }

  lemma RestKeepsIndex(e: Engine, k: Key, o: Inner)
    requires IndexOk(e.levels, e.index) && o.orig.id !in e.index
    requires Ids(LevelOf(e.levels, k) + [o]) == Ids(LevelOf(e.levels, k)) + {o.orig.id}
    ensures IndexOk(Rest(e, k, o).levels, Rest(e, k, o).index)
  {
    NoIds();
    hide Ids, Distinct;
    var levels, index := Rest(e, k, o).levels, Rest(e, k, o).index;
    forall id | id in index
      ensures exists l :: l in levels && id in Ids(levels[l])
    {
      if id == o.orig.id {
        assert k in levels && id in Ids(levels[k]);
      } else {
        var l :| l in e.levels && id in Ids(e.levels[l]);
        assert l in levels && id in Ids(levels[l]);
      }
    }
  }

  lemma RestDistinct(e: Engine, k: Key, o: Inner)
    requires EngineOk(e) && o.orig.id !in e.placed
    ensures Distinct(LevelOf(e.levels, k) + [o])
    ensures forall l :: l in e.levels ==> o.orig.id !in Ids(e.levels[l])
  {
    var list := LevelOf(e.levels, k);
    if k !in e.levels { assert Ids(list) == {}; }
    forall i | 0 <= i < |list|
      ensures list[i].orig.id != o.orig.id
    {
      assert list[i].orig.id in Ids(list);
    }
  }

  /** Every new order is either finished at once, or rests and is in the index. */
  lemma InsertKeeps(e: Engine, o: Order)
    requires EngineOk(e) && o.id !in e.placed
    ensures EngineOk(Inserted(e, o))
    ensures o.kind != OtherType ==> o.id in Inserted(e, o).placed
  {
    hide EngineOk;
    var t := TickOf(e, o.ticker);
    var traded := Traded(o, o.volume, if o.direction == Buy then t.ask[0] else t.bid[0]);
    match o.kind
    case Limit => if Crosses(t, o) { FinishKeeps(e, o, traded); } else { RestLimitKeeps(e, t, o); }
    case Best =>
      if (o.direction == Buy && t.bidVolume[0] == 0) || (o.direction == Sell && t.askVolume[0] == 0) {
        FinishKeeps(e, o, Rejected(o));
      } else {
        RestBestKeeps(e, t, o);
      }
    case Market =>
      if (if o.direction == Buy then t.askVolume[0] else t.bidVolume[0]) == 0 {
        FinishKeeps(e, o, Canceled(o, o.volume));
      } else {
        FinishKeeps(e, o, traded);
      }
    case OtherType =>
    case _ => if Crosses(t, o) { FinishKeeps(e, o, traded); } else { FinishKeeps(e, o, Canceled(o, o.volume)); }
  }

  lemma RestLimitKeeps(e: Engine, t: Tick, o: Order)
    requires EngineOk(e) && o.id !in e.placed
    ensures EngineOk(RestLimit(Placed(e, o), t, o)) && o.id in RestLimit(Placed(e, o), t, o).index
  {
    hide EngineOk;
    var isBid := o.direction == Buy;
    var queue := if isBid then QueueAt(t.bid, t.bidVolume, o.price, 0) else QueueAt(t.ask, t.askVolume, o.price, 0);
    RestKeeps(e, Key(o.ticker, isBid, U64Price(o.price)), Inner(o, queue), o, Accepted(o));
  }

  lemma RestBestKeeps(e: Engine, t: Tick, o: Order)
    requires EngineOk(e) && o.id !in e.placed
    ensures EngineOk(RestBest(Placed(e, o), t, o)) && o.id in RestBest(Placed(e, o), t, o).index
  {
    hide EngineOk;
    var isBid := o.direction == Buy;
    var price, queue := if isBid then t.bid[0] else t.ask[0], if isBid then t.bidVolume[0] else t.askVolume[0];
    RestKeeps(e, Key(o.ticker, isBid, U64Price(price)), Inner(o.(price := price), queue), o, Accepted(o));
  }

  // ---- No crossed orders after a tick ----------------------------------------------------------

  /** No resting ask at or below a shown bid, no resting bid at or above a shown ask. */
  ghost predicate NotCrossed(levels: Levels, ticker: nat, t: Tick) {
    forall k :: k in levels && k.ticker == ticker ==>
      if k.isBid then t.askVolume[0] > 0 ==> k.price < U64Price(t.ask[0])
      else t.bidVolume[0] > 0 ==> k.price > U64Price(t.bid[0])
  }

  /** Whatever the estimate of the filled volumes says, nothing crossed is left. */
  lemma UncrossedIsNotCrossed(levels: Levels, ticker: nat, t: Tick)
    ensures NotCrossed(Uncrossed(levels, ticker, t), ticker, t)
  {
    hide U64Price;
  }

  lemma {:induction false} ScanOnlyTakesOut(levels: Levels, ticker: nat, isBid: bool, prices: Prices, volumes: Volumes, filled: int, level: nat)
    ensures ScannedFrom(levels, ticker, isBid, prices, volumes, filled, level).Keys <= levels.Keys
    ensures forall k :: k in levels && (k.ticker != ticker || k.isBid != isBid) ==>
              k in ScannedFrom(levels, ticker, isBid, prices, volumes, filled, level)
              && ScannedFrom(levels, ticker, isBid, prices, volumes, filled, level)[k] == levels[k]
    decreases MAX_LEVEL - level
  {
    hide U64Price, Scanned;
    if level < MAX_LEVEL {
      if volumes[level] == 0 {
        ScanOnlyTakesOut(levels, ticker, isBid, prices, volumes, filled, level + 1);
      } else {
        var k := Key(ticker, isBid, U64Price(prices[level]));
        OneScanTakesOut(levels, k, filled);
        if filled - volumes[level] > 0 {
          ScanOnlyTakesOut(Scanned(levels, k, filled), ticker, isBid, prices, volumes, filled - volumes[level], level + 1);
        }
      }
    }
  }

  lemma OneScanTakesOut(levels: Levels, k: Key, filled: int)
    ensures Scanned(levels, k, filled).Keys <= levels.Keys
    ensures forall l :: l in levels && l != k ==> l in Scanned(levels, k, filled) && Scanned(levels, k, filled)[l] == levels[l]
  {
    hide Kept;
  }

  /** A tick leaves the books of other tickers alone. */
  lemma TickTouchesOneTicker(levels: Levels, ticker: nat, prev: Tick, t: Tick, size: nat, k: Key)
    requires size > 0 && k.ticker != ticker
    ensures var after := TickLevels(levels, ticker, prev, t, size);
            (k in after <==> k in levels) && (k in levels ==> after[k] == levels[k])
  {
    hide Estimate, U64Price, ScannedFrom;
    var fills := Estimate(prev, t, size);
    var l0 := if fills.bid > 0 && t.bidVolume[0] > 0 then Swept(levels, ticker, true, U64Price(t.bid[0]) + 1) else levels;
    ScanOnlyTakesOut(l0, ticker, true, t.bid, t.bidVolume, fills.bid, 0);
    var l1 := BidsFilled(levels, ticker, t, fills.bid);
    var l2 := if fills.ask > 0 && t.askVolume[0] > 0 then Swept(l1, ticker, false, U64Price(t.bid[0]) - 1) else l1;
    ScanOnlyTakesOut(l2, ticker, false, t.ask, t.askVolume, fills.ask, 0);
  }

  /** An order further back in the queue never trades before one ahead of it: queue places of one
      level trade in order. */
  lemma FrontTradesFirst(list: seq<Inner>, filled: int, i: nat, j: nat)
    requires Distinct(list) && i < j < |list| && list[i].queue <= list[j].queue
    ensures list[j].orig.id in Ids(Gone(list, filled)) ==> list[i].orig.id in Ids(Gone(list, filled))
  {
    GoneIffReached(list, filled, i);
    GoneIffReached(list, filled, j);
  }

  lemma {:induction false} GoneIffReached(list: seq<Inner>, filled: int, i: nat)
    requires Distinct(list) && i < |list|
    ensures list[i].orig.id in Ids(Gone(list, filled)) <==> list[i].queue < filled
  {
    var head, rest := list[0], list[1..];
    assert list == [head] + rest;
    IdsOfHead(head, rest);
    IdsOfHead(head, Gone(rest, filled));
    KeptOrGone(rest, filled);
    if i > 0 {
      GoneIffReached(rest, filled, i - 1);
      assert rest[i - 1] == list[i];
    }
  }

  // ---- Canceling -------------------------------------------------------------------------------

  datatype Outcome = Unknown | Done | Spins | Aborts

  /** The level CancelOrder looks at: the bids at the price, if there are any. */
  function CancelKey(e: Engine, id: nat, ticker: nat): Key
    requires id in e.index
  {
    var bids := Key(ticker, true, e.index[id]);
    if bids in e.levels then bids else Key(ticker, false, e.index[id])
  }

  /** Its scan does not move past the first order of that level. */
  function CancelOutcome(e: Engine, id: nat, ticker: nat): Outcome {
    if id !in e.index then Unknown
    else
      var k := CancelKey(e, id, ticker);
      if k !in e.levels || e.levels[k] == [] then Aborts
      else if e.levels[k][0].orig.id == id then Done
      else Spins
  }

  function CancelFirst(e: Engine, k: Key): Engine
    requires k in e.levels && e.levels[k] != []
  {
    var o := e.levels[k][0];
    e.(levels := WithLevel(e.levels, k, e.levels[k][1..]), index := e.index - {o.orig.id},
       reports := e.reports + [Canceled(o.orig, o.orig.volume)], withdrawn := e.withdrawn + {o.orig.id})
  }

  /** Canceling ends exactly for an order at the head of its level that no bid level at the same
      price hides. */
  lemma CancelEndsIff(e: Engine, id: nat, k: Key)
    requires EngineOk(e) && k in e.levels && id in Ids(e.levels[k])
    ensures CancelOutcome(e, id, k.ticker) == Done <==>
              e.levels[k][0].orig.id == id && (k.isBid || Key(k.ticker, true, k.price) !in e.levels)
    ensures CancelOutcome(e, id, k.ticker) == Done ==> CancelKey(e, id, k.ticker) == k
  {
    var l := CancelKey(e, id, k.ticker);
    if l in e.levels && e.levels[l] != [] && e.levels[l][0].orig.id == id {
      assert id in Ids(e.levels[l]);
    }
  }

  lemma CancelKeeps(e: Engine, k: Key)
    requires EngineOk(e) && k in e.levels
    ensures e.levels[k] != [] && EngineOk(CancelFirst(e, k))
  {
    var list := e.levels[k];
    var o, kept := list[0], list[1..];
    assert list == [o] + kept;
    IdsOfHead(o, kept);
    assert Divided(list, [o], kept) by {
      assert Ids([o]) == {o.orig.id} by { IdsOfHead(o, []); NoIds(); assert [o] + [] == [o]; }
    }
    LeaveKeepsLevels(e, k, [o], kept);
    LeaveKeepsIndex(e, k, [o], kept);
    IdsOfHead(o, []);
    NoIds();
    assert [o] + [] == [o];
    CancelKeepsCounts(e, k, o);
    CancelKeepsVolumes(e, k, o);
    CancelKeepsRested(e, k, o);
  }

  lemma CancelKeepsCounts(e: Engine, k: Key, o: Inner)
    requires EngineOk(e) && k in e.levels && e.levels[k] != [] && e.levels[k][0] == o
    ensures CountsOk(CancelFirst(e, k))
  {
    assert o.orig.id in Ids(e.levels[k]);
    hide Ids, Finals, Distinct, LevelsOk, VolumesOk, RestedOk;
    var e' := CancelFirst(e, k);
    forall id
      ensures Finals(e'.reports, id) == if id in e'.placed && id !in e'.index then 1 else 0
    {
      FinalsOfOneMore(e.reports, Canceled(o.orig, o.orig.volume), id);
    }
  }

  lemma CancelKeepsVolumes(e: Engine, k: Key, o: Inner)
    requires VolumesOk(e) && k in e.levels && e.levels[k] != [] && e.levels[k][0] == o
    ensures VolumesOk(CancelFirst(e, k))
  {
    var kept := e.levels[k][1..];
    assert AllRecorded(e.placed, e.levels[k]);
    assert forall i :: 0 <= i < |kept| ==> kept[i] == e.levels[k][i + 1];
    assert AllRecorded(e.placed, kept);
  }

  lemma CancelKeepsRested(e: Engine, k: Key, o: Inner)
    requires EngineOk(e) && k in e.levels && e.levels[k] != [] && e.levels[k][0] == o
    ensures RestedOk(CancelFirst(e, k))
  {
    assert o.orig.id in Ids(e.levels[k]);
    hide Ids, Distinct, LevelsOk, VolumesOk, WithLevel;
    forall j | 0 <= j < |e.reports|
      ensures !IsFinal(e.reports[j], o.orig.id)
    {
      NoFinals(e.reports, o.orig.id, j);
    }
    hide Finals, IndexOk;
  }

  // ---- Cancels that do not end -------------------------------------------------------------------

  const FIRST_BID := Order(1, 1, Buy, Limit, 1, 1000000)
  const SECOND_BID := Order(2, 1, Buy, Limit, 1, 1000000)
  const HIDDEN_ASK := Order(2, 1, Sell, Limit, 1, 1000000)

  lemma {:induction false} EmptyQueue(price: nat, level: nat)
    ensures QueueAt(NO_TICK.bid, NO_TICK.bidVolume, price, level) == 0
    ensures QueueAt(NO_TICK.ask, NO_TICK.askVolume, price, level) == 0
    decreases MAX_LEVEL - level
  {
    if level < MAX_LEVEL { EmptyQueue(price, level + 1); }
  }

  /** Before the first tick every limit order rests. */
  lemma RestsWithoutTick(e: Engine, o: Order)
    requires e.ticks == map[] && o.kind == Limit
    ensures Inserted(e, o) == Say(Rest(Placed(e, o), Key(o.ticker, o.direction == Buy, U64Price(o.price)), Inner(o, 0)), Accepted(o))
  {
    EmptyQueue(o.price, 0);
    hide QueueAt, U64Price, Rest;
  }

  lemma OneBidRests()
    ensures var e := Inserted(EMPTY_ENGINE, FIRST_BID);
            e.levels == map[Key(1, true, 100) := [Inner(FIRST_BID, 0)]] && e.index == map[1 := 100] && e.ticks == map[]
  {
    RestsWithoutTick(EMPTY_ENGINE, FIRST_BID);
    hide Inserted;
    assert [] + [Inner(FIRST_BID, 0)] == [Inner(FIRST_BID, 0)];
  }

  /** Of two bids at one price, the second cannot be canceled. */
  lemma SecondCancelSpins()
    ensures CancelOutcome(Inserted(Inserted(EMPTY_ENGINE, FIRST_BID), SECOND_BID), 2, 1) == Spins
  {
    OneBidRests();
    RestsWithoutTick(Inserted(EMPTY_ENGINE, FIRST_BID), SECOND_BID);
    hide Inserted;
    SpinsBehind(Inserted(Inserted(EMPTY_ENGINE, FIRST_BID), SECOND_BID), 2);
  }

  /** Nor can an ask at the price of a resting bid, although it is the first of its level. */
  lemma HiddenCancelSpins()
    ensures CancelOutcome(Inserted(Inserted(EMPTY_ENGINE, FIRST_BID), HIDDEN_ASK), 2, 1) == Spins
  {
    OneBidRests();
    RestsWithoutTick(Inserted(EMPTY_ENGINE, FIRST_BID), HIDDEN_ASK);
    hide Inserted;
    SpinsBehind(Inserted(Inserted(EMPTY_ENGINE, FIRST_BID), HIDDEN_ASK), 2);
  }

  lemma SpinsBehind(e: Engine, id: nat)
    requires id in e.index && Key(1, true, e.index[id]) in e.levels && e.levels[Key(1, true, e.index[id])] != []
    requires e.levels[Key(1, true, e.index[id])][0].orig.id != id
    ensures CancelOutcome(e, id, 1) == Spins
  {
  }
}
