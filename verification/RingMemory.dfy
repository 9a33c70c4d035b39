/** The ring in its memory, run by one process while the others stand still: LFRing_init,
    LFRing_push and LFRing_pop in the form the source gives them, each proved to be the
    process-by-process machine of module LFRing run to its return. */
module LFRingMemory {
  import opened LFRing
  import opened RingRefinement
  import opened RingSolo

  class RingMemory {
    var headSeq: nat
    var tailSeq: nat
    const nodes: array<Word>

    ghost function View(): Ring
      reads this, nodes
    {
      Ring(headSeq, tailSeq, nodes[..])
    }

    constructor (count: nat, initHead: nat)
      requires initHead <= count
      ensures View() == InitRing(count, initHead) && fresh(nodes)
    {
      headSeq, tailSeq := initHead, 0;
      nodes := new Word[count](_ => ZERO);
      new;
      var i := 0;
      while i < initHead
        invariant i <= initHead <= nodes.Length == count && headSeq == initHead && tailSeq == 0
        invariant forall k :: 0 <= k < i ==> nodes[k] == Word(k, k)
      {
        nodes[i] := Word(i, i);
        i := i + 1;
      }
      while i < count
        invariant initHead <= i <= count == nodes.Length && headSeq == initHead && tailSeq == 0
        invariant forall k :: 0 <= k < i ==> nodes[k] == Word(k, if k < initHead then k else INVALID)
      {
        nodes[i] := Word(i, INVALID);
        i := i + 1;
      }
      assert nodes[..] == InitRing(count, initHead).nodes;
    }

    /** LFRing_push without interference. At most four rounds, wherever the others stopped. */
    method Push(id: nat) returns (curHead: nat, rounds: nat)
      requires RingOk(View()) && id != INVALID && Pushed(View()) < Popped(View()) + nodes.Length
      modifies this`headSeq, nodes
      ensures SoloReturn(old(View()), PushHead(id, 0, ZERO)) == (View(), PushDone(id))
      ensures PushAchieved(old(View()), id, View(), PushDone(id))
      ensures curHead == old(Pushed(View())) && rounds <= 4
    {
      hide Index, PushGoing, RingOk, Pushed, Popped, SoloRun, PushAchieved, SoloReturn, LocalOk, Step, Contents, Accesses, MoveIsSound;
      ghost var last, h := PushStarts(View(), id);
      var busy, expired := 0, ZERO;
      rounds := 0;
      while true
        invariant PushGoing(last, h, View(), id, busy, expired, rounds)
        invariant rounds <= 4
        decreases 4 - rounds
      {
        ghost var r := View();
        PushRound(last, h, r, id, busy, expired, rounds);
        rounds := rounds + 1;
        curHead := headSeq;
        var curNode := nodes[Index(curHead, nodes.Length)];
        if curNode == Word(curHead, INVALID) {
          nodes[Index(curHead, nodes.Length)] := Word(curHead, id);
          assert nodes[..] == SetSlot(r, h, Word(h, id)).nodes;
          break;
        }
        if expired == curNode {
          busy := busy + 1;
          if busy >= MAX_BUSYLOOP_COUNT {
            headSeq := curHead + 1;
            expired, busy := ZERO, 0;
          }
        } else {
          expired, busy := curNode, 0;
        }
      }
      headSeq := curHead + 1;
    }

    /** LFRing_pop without interference. At most four rounds, wherever the others stopped. */
    method Pop() returns (id: nat, curTail: nat, rounds: nat)
      requires RingOk(View())
      modifies this`tailSeq, nodes
      ensures SoloReturn(old(View()), PopTail(0, ZERO)) == (View(), PopDone(id))
      ensures PopAchieved(old(View()), View(), PopDone(id))
      ensures id != INVALID ==> curTail == old(Popped(View()))
      ensures rounds <= 4
    {
      hide Index, PopGoing, RingOk, Pushed, Popped, SoloRun, PopAchieved, SoloReturn, LocalOk, Step, Contents, Accesses, MoveIsSound;
      ghost var last, t := PopStarts(View());
      var busy, expired := 0, ZERO;
      rounds := 0;
      while true
        invariant PopGoing(last, t, View(), busy, expired, rounds)
        invariant rounds <= 4
        decreases 4 - rounds
      {
        ghost var r := View();
        PopRound(last, t, r, busy, expired, rounds);
        rounds := rounds + 1;
        curTail := tailSeq;
        var curHead := headSeq;
        if curTail == curHead {
          return INVALID, curTail, rounds;
        }
        // The retry of the source for a tail beyond head: see RingRefinement.TailNeverOvertakes
        if curTail > curHead {
          assert false;
        }
        var curNode := nodes[Index(curTail, nodes.Length)];
        if curTail == curNode.stamp && curNode.id != INVALID {
          nodes[Index(curTail, nodes.Length)] := Word(curTail + nodes.Length, INVALID);
          assert nodes[..] == SetSlot(r, t, Word(t + nodes.Length, INVALID)).nodes;
          id := curNode.id;
          break;
        }
        if expired == curNode {
          busy := busy + 1;
          if busy >= MAX_BUSYLOOP_COUNT {
            tailSeq := curTail + 1;
            expired, busy := ZERO, 0;
          }
        } else {
          expired, busy := curNode, 0;
        }
      }
      tailSeq := curTail + 1;
    }
  }

  // ---- The loops of the methods, round by round -----------------------------------------

  /** A lone process at l will return with `last`, the ring and itself as they are then. */
  ghost predicate Heading(last: (Ring, Local), r: Ring, l: Local, fuel: nat) {
    RingOk(r) && LocalOk(r, l) && Room(r, l) && Accesses(r, l) <= fuel && SoloRun(r, l, fuel) == last
  }

  lemma HeadingStep(last: (Ring, Local), r: Ring, l: Local, fuel: nat)
    requires Heading(last, r, l, fuel) && Busy(l)
    ensures fuel >= 1 && Heading(last, Step(r, l).0, Step(r, l).1, fuel - 1)
    ensures MoveIsSound(r, l)
  {
    hide Index, Contents;
    SoloProgress(r, l);
  }

  lemma HeadingEnd(last: (Ring, Local), r: Ring, l: Local, fuel: nat)
    requires Heading(last, r, l, fuel) && Finished(l)
    ensures last == (r, l)
  {
    FinishedStays(r, l, fuel);
  }

  /** A lone push is at the top of its loop with the ring at r; the slot it will fill is h. */
  ghost predicate PushGoing(last: (Ring, Local), h: nat, r: Ring, id: nat, busy: nat, expired: Word, rounds: nat) {
    && RingOk(r) && Pushed(r) == h && busy < MAX_BUSYLOOP_COUNT
    && rounds + PushRounds(r, busy, expired) <= 4
    && exists fuel: nat :: Heading(last, r, PushHead(id, busy, expired), fuel)
  }

  lemma PushStarts(r: Ring, id: nat) returns (last: (Ring, Local), h: nat)
    requires RingOk(r) && id != INVALID && Pushed(r) < Popped(r) + |r.nodes|
    ensures LocalOk(r, PushHead(id, 0, ZERO)) && last == SoloReturn(r, PushHead(id, 0, ZERO)) && h == Pushed(r)
    ensures PushGoing(last, h, r, id, 0, ZERO, 0) && PushAchieved(r, id, last.0, last.1)
  {
    hide Index, Contents;
    var n := Accesses(r, PushHead(id, 0, ZERO));
    last, h := SoloReturn(r, PushHead(id, 0, ZERO)), Pushed(r);
    SoloPush(r, PushHead(id, 0, ZERO), n);
    assert Heading(last, r, PushHead(id, 0, ZERO), n);
  }

  /** One round of a lone push, from its load of head to the next one or to its return. */
  lemma PushRound(last: (Ring, Local), h: nat, r: Ring, id: nat, busy: nat, expired: Word, rounds: nat)
    requires PushGoing(last, h, r, id, busy, expired, rounds)
    ensures rounds < 4 && |r.nodes| > 0
    ensures var w := Slot(r, r.head);
            if w == Word(r.head, INVALID) then
              r.head == h && last == (SetSlot(r, h, Word(h, id)).(head := h + 1), PushDone(id))
            else if expired == w then
              if busy + 1 >= MAX_BUSYLOOP_COUNT then PushGoing(last, h, r.(head := r.head + 1), id, 0, ZERO, rounds + 1)
              else PushGoing(last, h, r, id, busy + 1, expired, rounds + 1)
            else PushGoing(last, h, r, id, 0, w, rounds + 1)
  {
    hide Index, Contents, Heading, RingOk, LocalOk, Accesses, Pushed, Popped, MoveIsSound, PushRounds, PopRounds, Slot, SoloRun, SoloReturn;
    var fuel: nat :| Heading(last, r, PushHead(id, busy, expired), fuel);
    PushRoundsDecrease(last, r, id, busy, expired, fuel);
    HeadingStep(last, r, PushHead(id, busy, expired), fuel);
    var l := PushNode(id, r.head, busy, expired);
    HeadingStep(last, r, l, fuel - 1);
    var next := Step(r, l).1;
    if next.PushCas? {
      var (r1, l1) := Step(r, next);
      HeadingStep(last, r, next, fuel - 2);
      HeadingStep(last, r1, l1, fuel - 3);
      HeadingEnd(last, Step(r1, l1).0, Step(r1, l1).1, fuel - 4);
    } else if next.PushHelp? {
      HeadingStep(last, r, next, fuel - 2);
    }
  }

  lemma PushRoundsDecrease(last: (Ring, Local), r: Ring, id: nat, busy: nat, expired: Word, fuel: nat)
    requires busy < MAX_BUSYLOOP_COUNT && Heading(last, r, PushHead(id, busy, expired), fuel)
    ensures |r.nodes| > 0
    ensures var w := Slot(r, r.head);
            var rounds := PushRounds(r, busy, expired);
            rounds >= 1 &&
            if w == Word(r.head, INVALID) then Pushed(r) == r.head
            else if expired == w then
              if busy + 1 >= MAX_BUSYLOOP_COUNT then
                var r' := r.(head := r.head + 1);
                RingOk(r') && Pushed(r') == Pushed(r) && PushRounds(r', 0, ZERO) < rounds
              else PushRounds(r, busy + 1, expired) < rounds
            else PushRounds(r, 0, w) < rounds
  {
    hide Index, Contents, Accesses;
    if Pushed(r) == r.head {
      assert Slot(r, r.head) == Word(r.head, INVALID);
    } else {
      AdvanceHead(r, r.head);
    }
  }

  /** A lone pop is at the top of its loop with the ring at r; the slot it would take is t. */
  ghost predicate PopGoing(last: (Ring, Local), t: nat, r: Ring, busy: nat, expired: Word, rounds: nat) {
    && RingOk(r) && Popped(r) == t && busy < MAX_BUSYLOOP_COUNT
    && rounds + PopRounds(r, busy, expired) <= 4
    && exists fuel: nat :: Heading(last, r, PopTail(busy, expired), fuel)
  }

  lemma PopStarts(r: Ring) returns (last: (Ring, Local), t: nat)
    requires RingOk(r)
    ensures LocalOk(r, PopTail(0, ZERO)) && last == SoloReturn(r, PopTail(0, ZERO)) && t == Popped(r)
    ensures PopGoing(last, t, r, 0, ZERO, 0) && PopAchieved(r, last.0, last.1)
  {
    hide Index, Contents;
    var n := Accesses(r, PopTail(0, ZERO));
    last, t := SoloReturn(r, PopTail(0, ZERO)), Popped(r);
    SoloPop(r, PopTail(0, ZERO), n);
    assert Heading(last, r, PopTail(0, ZERO), n);
  }

  /** One round of a lone pop. */
  lemma PopRound(last: (Ring, Local), t: nat, r: Ring, busy: nat, expired: Word, rounds: nat)
    requires PopGoing(last, t, r, busy, expired, rounds)
    ensures rounds < 4 && |r.nodes| > 0 && r.tail <= r.head
    ensures var w := Slot(r, r.tail);
            if r.tail == r.head then last == (r, PopDone(INVALID))
            else if r.tail == w.stamp && w.id != INVALID then
              r.tail == t && last == (SetSlot(r, t, Word(t + |r.nodes|, INVALID)).(tail := t + 1), PopDone(w.id))
            else if expired == w then
              if busy + 1 >= MAX_BUSYLOOP_COUNT then PopGoing(last, t, r.(tail := r.tail + 1), 0, ZERO, rounds + 1)
              else PopGoing(last, t, r, busy + 1, expired, rounds + 1)
            else PopGoing(last, t, r, 0, w, rounds + 1)
  {
    hide Index, Contents, Heading, RingOk, LocalOk, Accesses, Pushed, Popped, MoveIsSound, PushRounds, PopRounds, Slot, SoloRun, SoloReturn;
    var fuel: nat :| Heading(last, r, PopTail(busy, expired), fuel);
    PopRoundsDecrease(last, r, busy, expired, fuel);
    HeadingStep(last, r, PopTail(busy, expired), fuel);
    HeadingStep(last, r, PopHead(r.tail, busy, expired), fuel - 1);
    if r.tail == r.head {
      HeadingEnd(last, r, PopDone(INVALID), fuel - 2);
    } else {
      var l := PopNode(r.tail, busy, expired);
      HeadingStep(last, r, l, fuel - 2);
      var next := Step(r, l).1;
      if next.PopCas? {
        var (r1, l1) := Step(r, next);
        HeadingStep(last, r, next, fuel - 3);
        HeadingStep(last, r1, l1, fuel - 4);
        HeadingEnd(last, Step(r1, l1).0, Step(r1, l1).1, fuel - 5);
      } else if next.PopHelp? {
        HeadingStep(last, r, next, fuel - 3);
      }
    }
  }

  lemma PopRoundsDecrease(last: (Ring, Local), r: Ring, busy: nat, expired: Word, fuel: nat)
    requires busy < MAX_BUSYLOOP_COUNT && Heading(last, r, PopTail(busy, expired), fuel)
    ensures |r.nodes| > 0 && r.tail <= r.head && PopRounds(r, busy, expired) >= 1
    ensures var w := Slot(r, r.tail);
            var rounds := PopRounds(r, busy, expired);
            if r.tail == r.head then true
            else if r.tail == w.stamp && w.id != INVALID then r.tail == Popped(r)
            else if expired == w then
              if busy + 1 >= MAX_BUSYLOOP_COUNT then
                var r' := r.(tail := r.tail + 1);
                RingOk(r') && Popped(r') == Popped(r) && PopRounds(r', 0, ZERO) < rounds
              else PopRounds(r, busy + 1, expired) < rounds
            else PopRounds(r, 0, w) < rounds
  {
    hide Index, Contents, Accesses;
    if Popped(r) == r.tail {
      assert r.tail < r.head ==> Slot(r, r.tail).id != INVALID;
    } else {
      AdvanceTail(r, r.tail);
    }
  }
}
