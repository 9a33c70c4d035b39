module RingSolo {
  /** One process alone: every other process has stopped, possibly in the middle of a push or a
      pop. The helping branches then let it finish within four rounds of its loop, so a crash
      between the slot exchange and the move of head or tail never blocks the ring. */

  import opened LFRing
  import opened RingRefinement

  // ---- Running one process of the step machine by itself --------------------------------

  function SoloRun(r: Ring, l: Local, n: nat): (Ring, Local)
    requires |r.nodes| > 0
    decreases n
  {
    if n == 0 then (r, l) else
    var (r', l') := Step(r, l);
    SoloRun(r', l', n - 1)
  }

  predicate Finished(l: Local) {
    l.PushDone? || l.PopDone?
  }

  /** Rounds of the retry loop a lone process still needs when it starts a round: a slot that
      is taken although its end did not move has to be seen until the back-off gives up. */
  function Rounds(lagging: bool, seen: Word, busy: nat, expired: Word): nat
    requires busy < MAX_BUSYLOOP_COUNT
  {
    if !lagging then 1 else if expired == seen then 1 + MAX_BUSYLOOP_COUNT - busy else 2 + MAX_BUSYLOOP_COUNT
  }

  function PushRounds(r: Ring, busy: nat, expired: Word): nat
    requires |r.nodes| > 0 && busy < MAX_BUSYLOOP_COUNT
  {
    Rounds(Pushed(r) > r.head, Slot(r, r.head), busy, expired)
  }

  function PopRounds(r: Ring, busy: nat, expired: Word): nat
    requires |r.nodes| > 0 && busy < MAX_BUSYLOOP_COUNT
  {
    Rounds(Popped(r) > r.tail && r.tail < r.head, Slot(r, r.tail), busy, expired)
  }

  /** Shared accesses a lone process still needs: at most three a round for a push and four
      for a pop. */
  ghost function Accesses(r: Ring, l: Local): nat
    requires RingOk(r) && LocalOk(r, l)
  {
    match l
    case PushHead(_, busy, expired) => 3 * PushRounds(r, busy, expired) + 1
    case PushNode(_, h, busy, expired) =>
      1 + (match Step(r, l).1
           case PushCas(_, _) => 2
           case PushHelp(_, _) => 1 + 3 * PushRounds(CasHead(r, h), 0, ZERO) + 1
           case PushHead(_, busy', expired') => 3 * PushRounds(r, busy', expired') + 1
           case _ => 0)
    case PushCas(_, h) => if Slot(r, h) == Word(h, INVALID) then 2 else 2 + 3 * PushRounds(r, 0, ZERO)
    case PushHelp(_, h) => 2 + 3 * PushRounds(CasHead(r, h), 0, ZERO)
    case PushAdvance(_, _) => 1
    case PopTail(busy, expired) => 4 * PopRounds(r, busy, expired) + 1
    case PopHead(t, busy, expired) =>
      if t == r.head then 1 else 1 + NodeAccesses(r, t, busy, expired)
    case PopNode(t, busy, expired) => NodeAccesses(r, t, busy, expired)
    case PopCas(t, w) => if Slot(r, t) == w then 2 else 2 + 4 * PopRounds(r, 0, ZERO)
    case PopHelp(t) => 2 + 4 * PopRounds(CasTail(r, t), 0, ZERO)
    case PopAdvance(_, _) => 1
    case _ => 0
  }

  ghost function NodeAccesses(r: Ring, t: nat, busy: nat, expired: Word): nat
    requires RingOk(r) && busy < MAX_BUSYLOOP_COUNT
  {
    1 + (match Step(r, PopNode(t, busy, expired)).1
         case PopCas(_, _) => 2
         case PopHelp(_) => 2 + 4 * PopRounds(CasTail(r, t), 0, ZERO)
         case PopTail(busy', expired') => if busy' < MAX_BUSYLOOP_COUNT then 4 * PopRounds(r, busy', expired') + 1 else 0
         case _ => 0)
  }

  /** The room a push needs: its own id is not in the ring yet. */
  ghost predicate Room(r: Ring, l: Local)
    requires RingOk(r)
  {
    PreFill(l) ==> Pushed(r) < Popped(r) + |r.nodes|
  }

  /** Each access of a lone process brings it closer to its return. */
  lemma SoloProgress(r: Ring, l: Local)
    requires RingOk(r) && LocalOk(r, l) && Room(r, l) && Busy(l)
    ensures MoveIsSound(r, l) && Room(Step(r, l).0, Step(r, l).1)
    ensures Accesses(Step(r, l).0, Step(r, l).1) < Accesses(r, l)
    ensures Finished(Step(r, l).1) || Busy(Step(r, l).1)
  {
    MoveLocal(r, l);
    if PreFill(l) || l.PushAdvance? {
      SoloPushProgress(r, l);
    } else {
      SoloPopProgress(r, l);
    }
  }

  lemma SoloPushProgress(r: Ring, l: Local)
    requires RingOk(r) && LocalOk(r, l) && Room(r, l) && MoveIsSound(r, l)
    requires PreFill(l) || l.PushAdvance?
    ensures Accesses(Step(r, l).0, Step(r, l).1) < Accesses(r, l)
  {
    hide Index, Contents;
    if l.PushHead? {
      if Pushed(r) == r.head {
        assert Slot(r, r.head) == Word(r.head, INVALID);
      } else {
        AdvanceHead(r, r.head);
      }
    }
  }

  lemma SoloPopProgress(r: Ring, l: Local)
    requires RingOk(r) && LocalOk(r, l) && MoveIsSound(r, l) && Busy(l)
    requires !PreFill(l) && !l.PushAdvance?
    ensures Accesses(Step(r, l).0, Step(r, l).1) < Accesses(r, l)
  {
    hide Index, Contents;
    if l.PopTail? {
      if Popped(r) == r.tail {
        assert r.tail < r.head ==> Slot(r, r.tail).id != INVALID;
      } else {
        AdvanceTail(r, r.tail);
      }
    }
  }

  /** Wherever the others stopped, at most 15 accesses finish a push and 20 a pop. */
  lemma SoloBound(r: Ring, l: Local)
    requires RingOk(r) && LocalOk(r, l)
    ensures Accesses(r, l) <= if PreFill(l) || l.PushAdvance? then 15 else 20
  {
    hide Index, Contents;
  }

  // ---- Rounds of the loop ---------------------------------------------------------------

  predicate StartsRound(l: Local) {
    l.PushHead? || l.PopTail?
  }

  /** Rounds a lone process still has to start. */
  ghost function RoundsLeft(r: Ring, l: Local): nat
    requires RingOk(r) && LocalOk(r, l)
  {
    match l
    case PushHead(_, busy, expired) => PushRounds(r, busy, expired)
    case PushNode(_, h, _, _) =>
      (match Step(r, l).1
       case PushHelp(_, _) => PushRounds(CasHead(r, h), 0, ZERO)
       case PushHead(_, busy, expired) => PushRounds(r, busy, expired)
       case _ => 0)
    case PushCas(_, h) => if Slot(r, h) == Word(h, INVALID) then 0 else PushRounds(r, 0, ZERO)
    case PushHelp(_, h) => PushRounds(CasHead(r, h), 0, ZERO)
    case PopTail(busy, expired) => PopRounds(r, busy, expired)
    case PopHead(t, busy, expired) => if t == r.head then 0 else RoundsAfterNode(r, t, busy, expired)
    case PopNode(t, busy, expired) => RoundsAfterNode(r, t, busy, expired)
    case PopCas(t, w) => if Slot(r, t) == w then 0 else PopRounds(r, 0, ZERO)
    case PopHelp(t) => PopRounds(CasTail(r, t), 0, ZERO)
    case _ => 0
  }

  ghost function RoundsAfterNode(r: Ring, t: nat, busy: nat, expired: Word): nat
    requires RingOk(r) && busy < MAX_BUSYLOOP_COUNT
  {
    match Step(r, PopNode(t, busy, expired)).1
    case PopHelp(_) => PopRounds(CasTail(r, t), 0, ZERO)
    case PopTail(busy', expired') => if busy' < MAX_BUSYLOOP_COUNT then PopRounds(r, busy', expired') else 0
    case _ => 0
  }

  lemma RoundProgress(r: Ring, l: Local)
    requires RingOk(r) && LocalOk(r, l) && Room(r, l) && Busy(l)
    ensures MoveIsSound(r, l) && Room(Step(r, l).0, Step(r, l).1)
    ensures RoundsLeft(Step(r, l).0, Step(r, l).1) + (if StartsRound(l) then 1 else 0) <= RoundsLeft(r, l)
  {
    SoloProgress(r, l);
    hide RoundsLeft, RingOk, LocalOk, MoveIsSound, Index, Room;
    if PreFill(l) || l.PushAdvance? {
      PushRoundProgress(r, l);
    } else {
      PopRoundProgress(r, l);
    }
  }

  lemma PushRoundProgress(r: Ring, l: Local)
    requires RingOk(r) && LocalOk(r, l) && Room(r, l) && MoveIsSound(r, l) && (PreFill(l) || l.PushAdvance?)
    ensures RoundsLeft(Step(r, l).0, Step(r, l).1) + (if StartsRound(l) then 1 else 0) <= RoundsLeft(r, l)
  {
    hide Index, Contents;
    if l.PushHead? {
      if Pushed(r) == r.head {
        assert Slot(r, r.head) == Word(r.head, INVALID);
      } else {
        AdvanceHead(r, r.head);
      }
    }
  }

  lemma PopRoundProgress(r: Ring, l: Local)
    requires RingOk(r) && LocalOk(r, l) && MoveIsSound(r, l) && Busy(l) && !PreFill(l) && !l.PushAdvance?
    ensures RoundsLeft(Step(r, l).0, Step(r, l).1) + (if StartsRound(l) then 1 else 0) <= RoundsLeft(r, l)
  {
    hide Index, Contents;
    if l.PopTail? {
      if Popped(r) == r.tail {
        assert r.tail < r.head ==> Slot(r, r.tail).id != INVALID;
      } else {
        AdvanceTail(r, r.tail);
      }
    }
  }

  function RoundsStarted(r: Ring, l: Local, n: nat): nat
    requires |r.nodes| > 0
    decreases n
  {
    if n == 0 then 0 else
    var (r', l') := Step(r, l);
    (if StartsRound(l) then 1 else 0) + RoundsStarted(r', l', n - 1)
  }

  /** A lone process starts at most four rounds of its loop, wherever the others stopped. */
  lemma {:induction false} FourRounds(r: Ring, l: Local, n: nat)
    requires RingOk(r) && LocalOk(r, l) && Room(r, l)
    ensures RoundsStarted(r, l, n) <= RoundsLeft(r, l) <= 4
    decreases n
  {
    hide Index, Contents, RoundsLeft, Step, RingOk, LocalOk, Room;
    RoundsBound(r, l);
    if n > 0 {
      if Busy(l) {
        RoundProgress(r, l);
        SoundMove(r, l);
        FourRounds(Step(r, l).0, Step(r, l).1, n - 1);
      } else {
        NoRoundAfterwards(r, l, n);
      }
    }
  }

  lemma SoundMove(r: Ring, l: Local)
    requires RingOk(r) && MoveIsSound(r, l)
    ensures RingOk(Step(r, l).0) && LocalOk(Step(r, l).0, Step(r, l).1)
  {
    hide Index, Step, RingOk, LocalOk;
  }

  lemma RoundsBound(r: Ring, l: Local)
    requires RingOk(r) && LocalOk(r, l)
    ensures |r.nodes| > 0 && RoundsLeft(r, l) <= 4
  {
    hide Index;
  }

  lemma {:induction false} NoRoundAfterwards(r: Ring, l: Local, n: nat)
    requires |r.nodes| > 0 && !Busy(l)
    ensures RoundsStarted(r, l, n) == 0
    decreases n
  {
    if n > 0 { NoRoundAfterwards(r, l, n - 1); }
  }

  // ---- What the lone process achieves ---------------------------------------------------

  /** Every id in the ring, visible or not: from the pop end to the last filled slot. */
  ghost function Stored(r: Ring): seq<nat>
    requires RingOk(r)
  {
    seq(Pushed(r) - Popped(r), i requires 0 <= i < Pushed(r) - Popped(r) => Slot(r, Popped(r) + i).id)
  }

  ghost predicate PushAchieved(r: Ring, id: nat, r': Ring, l': Local)
    requires RingOk(r)
  {
    && l' == PushDone(id)
    && RingOk(r') && Popped(r') == Popped(r)
    && r'.head == Pushed(r') == Pushed(r) + 1
    && Stored(r') == Stored(r) + [id]
  }

  ghost predicate PopAchieved(r: Ring, r': Ring, l': Local)
    requires RingOk(r)
  {
    && l'.PopDone?
    && RingOk(r') && r'.head == r.head && Pushed(r') == Pushed(r)
    && (l'.id == INVALID <==> Contents(r) == [])
    && (Contents(r) == [] ==> Contents(r') == [])
    && (Contents(r) != [] ==> Contents(r) == [l'.id] + Contents(r'))
  }

  lemma StoredAfterMove(r: Ring, l: Local)
    requires RingOk(r) && LocalOk(r, l) && Room(r, l) && (PreFill(l) || l.PushAdvance?) && MoveIsSound(r, l)
    ensures var (r', l') := Step(r, l);
            Stored(r') == if l.PushCas? && l'.PushAdvance? then Stored(r) + [l.id] else Stored(r)
  {
    hide Index, Contents, Stored, RingOk, LocalOk, MoveIsSound;
    if l.PushCas? && Slot(r, l.h) == Word(l.h, INVALID) {
      StoredAfterFill(r, l);
    } else if l.PushHelp? || l.PushAdvance? {
      StoredAfterAdvance(r, l);
    }
  }

  lemma StoredAfterFill(r: Ring, l: Local)
    requires RingOk(r) && LocalOk(r, l) && Room(r, l) && l.PushCas? && Slot(r, l.h) == Word(l.h, INVALID)
    ensures RingOk(Step(r, l).0) && Stored(Step(r, l).0) == Stored(r) + [l.id]
  {
    hide Index, Contents;
    FillSlot(r, l.h, l.id);
    var r' := Step(r, l).0;
    forall k | Popped(r) <= k < Pushed(r)
      ensures Slot(r', k) == Slot(r, k)
    {
      SetSlotFrame(r, l.h, Word(l.h, l.id), k);
    }
  }

  lemma StoredAfterAdvance(r: Ring, l: Local)
    requires RingOk(r) && (l.PushHelp? || l.PushAdvance?) && LocalOk(r, l)
    ensures RingOk(Step(r, l).0) && Stored(Step(r, l).0) == Stored(r)
  {
    hide Index, Contents;
    AdvanceHead(r, l.h);
    var r' := Step(r, l).0;
    assert forall k :: Slot(r', k) == Slot(r, k);
  }

  lemma SoloPushMove(r: Ring, l: Local)
    requires RingOk(r) && LocalOk(r, l) && Room(r, l) && PreFill(l)
    ensures MoveIsSound(r, l) && Accesses(Step(r, l).0, Step(r, l).1) < Accesses(r, l)
    ensures var (r', l') := Step(r, l);
            && Room(r', l') && Popped(r') == Popped(r)
            && (l'.PushAdvance? || PreFill(l')) && l'.id == l.id
            && (l'.PushAdvance? ==> Accesses(r, l) > 1 && l'.h == r'.head && Pushed(r') == Pushed(r) + 1 && Stored(r') == Stored(r) + [l.id])
            && (PreFill(l') ==> Pushed(r') == Pushed(r) && Stored(r') == Stored(r))
  {
    hide Index, Contents;
    SoloProgress(r, l);
    assert Step(r, l).1.PushAdvance? ==> Accesses(r, l) > 1;
    hide Accesses;
    StoredAfterMove(r, l);
    if l.PushCas? && Slot(r, l.h) == Word(l.h, INVALID) { FillSlot(r, l.h, l.id); }
  }

  /** From any reachable point of a push, n accesses of the process alone complete it: its
      id ends up behind everything stored, and the whole ring is visible. */
  lemma {:induction false} SoloPush(r: Ring, l: Local, n: nat)
    requires RingOk(r) && LocalOk(r, l) && Room(r, l) && PreFill(l) && Accesses(r, l) <= n
    ensures PushAchieved(r, l.id, SoloRun(r, l, n).0, SoloRun(r, l, n).1)
    decreases n
  {
    hide Index, Slot, Accesses, Step;
    SoloPushMove(r, l);
    var (r', l') := Step(r, l);
    if l'.PushAdvance? {
      SoloPublish(r', l', n - 1);
    } else {
      SoloPush(r', l', n - 1);
    }
  }

  lemma SoloPublish(r: Ring, l: Local, n: nat)
    requires RingOk(r) && LocalOk(r, l) && l.PushAdvance? && l.h == r.head && n > 0
    ensures var (r', l') := SoloRun(r, l, n);
            && l' == PushDone(l.id) && RingOk(r') && r'.head == Pushed(r') == Pushed(r)
            && Popped(r') == Popped(r) && Stored(r') == Stored(r)
  {
    hide Index, Contents;
    MoveLocal(r, l);
    StoredAfterMove(r, l);
    var (r', l') := Step(r, l);
    FinishedStays(r', l', n - 1);
  }

  lemma {:induction false} FinishedStays(r: Ring, l: Local, n: nat)
    requires |r.nodes| > 0 && Finished(l)
    ensures SoloRun(r, l, n) == (r, l)
  {
    if n > 0 { FinishedStays(r, l, n - 1); }
  }

  predicate Seeking(l: Local) {
    l.PopTail? || l.PopHead? || l.PopNode? || l.PopCas? || l.PopHelp?
  }

  lemma SoloPopMove(r: Ring, l: Local)
    requires RingOk(r) && LocalOk(r, l) && Seeking(l)
    ensures MoveIsSound(r, l) && Accesses(Step(r, l).0, Step(r, l).1) < Accesses(r, l)
    ensures var (r', l') := Step(r, l);
            && r'.head == r.head && Pushed(r') == Pushed(r)
            && match l'
               case PopAdvance(_, id) => Accesses(r, l) > 1 && Contents(r) == [id] + Contents(r')
               case PopDone(id) => id == INVALID && Contents(r) == [] && r' == r
               case _ => Seeking(l') && Contents(r') == Contents(r)
  {
    hide Index, Contents, MoveIsSound;
    SoloProgress(r, l);
    assert Step(r, l).1.PopAdvance? ==> Accesses(r, l) > 1;
    hide Accesses, RingOk, LocalOk;
    SoloPopEffect(r, l);
  }

  lemma SoloPopEffect(r: Ring, l: Local)
    requires RingOk(r) && LocalOk(r, l) && Seeking(l)
    ensures var (r', l') := Step(r, l);
            && RingOk(r') && r'.head == r.head && Pushed(r') == Pushed(r)
            && match l'
               case PopAdvance(_, id) => Contents(r) == [id] + Contents(r')
               case PopDone(id) => id == INVALID && Contents(r) == [] && r' == r
               case _ => Seeking(l') && Contents(r') == Contents(r)
  {
    hide Index;
    if l.PopCas? {
      if Slot(r, l.t) == l.word { EmptySlot(r, l.t, l.word); }
    } else if l.PopHelp? {
      AdvanceTail(r, l.t);
    }
  }

  /** From any reachable point of a pop before its slot exchange, n accesses of the process
      alone complete it: it takes the oldest visible id, or learns that there is none. */
  lemma {:induction false} SoloPop(r: Ring, l: Local, n: nat)
    requires RingOk(r) && LocalOk(r, l) && Seeking(l) && Accesses(r, l) <= n
    ensures PopAchieved(r, SoloRun(r, l, n).0, SoloRun(r, l, n).1)
    decreases n
  {
    hide Index, Contents, Slot, Accesses, Step;
    SoloPopMove(r, l);
    var (r', l') := Step(r, l);
    if l'.PopAdvance? {
      SoloRelease(r', l', n - 1);
    } else if l'.PopDone? {
      FinishedStays(r', l', n - 1);
    } else {
      SoloPop(r', l', n - 1);
    }
  }

  lemma SoloRelease(r: Ring, l: Local, n: nat)
    requires RingOk(r) && LocalOk(r, l) && l.PopAdvance? && n > 0
    ensures var (r', l') := SoloRun(r, l, n);
            l' == PopDone(l.id) && RingOk(r') && Pushed(r') == Pushed(r) && r'.head == r.head && Contents(r') == Contents(r)
  {
    hide Index;
    AdvanceTail(r, l.t);
    var (r', l') := Step(r, l);
    FinishedStays(r', l', n - 1);
  }

  /** The ring and the process when the process, left alone, returns from its call. */
  ghost function SoloReturn(r: Ring, l: Local): (Ring, Local)
    requires RingOk(r) && LocalOk(r, l)
  {
    SoloRun(r, l, Accesses(r, l))
  }

  /** No crash blocks anyone: in every reachable state, with every other process stopped where
      it is, each process that has called push or pop returns within four rounds of its loop and
      20 of its own accesses, having done what the call promises. */
  lemma NobodyBlocks(s: Sys, p: nat)
    requires Inv(s) && p in s.procs && Busy(s.procs[p])
    ensures Accesses(s.ring, s.procs[p]) <= 20
    ensures RoundsStarted(s.ring, s.procs[p], Accesses(s.ring, s.procs[p])) <= 4
    ensures var l := s.procs[p]; var (r', l') := SoloReturn(s.ring, l);
            && Finished(l')
            && (PreFill(l) ==> PushAchieved(s.ring, l.id, r', l'))
            && (Seeking(l) ==> PopAchieved(s.ring, r', l'))
  {
    hide Index, Contents;
    var r, l := s.ring, s.procs[p];
    SoloBound(r, l);
    if PreFill(l) { PushersRoom(s, p); }
    FourRounds(r, l, Accesses(r, l));
    if PreFill(l) {
      SoloPush(r, l, Accesses(r, l));
    } else if Seeking(l) {
      SoloPop(r, l, Accesses(r, l));
    } else {
      FinishedStays(Step(r, l).0, Step(r, l).1, 0);
    }
  }
}
