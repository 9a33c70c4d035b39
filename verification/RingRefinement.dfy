module RingRefinement {
  /** The ring is a linearizable FIFO queue: every step of every process is at most one atomic
      step of the queue machine below, for any number of processes and any interleaving.
      A push takes effect when head passes its sequence number, a pop at its slot exchange, and
      an empty answer at the load of head that finds tail. */

  import opened LFRing

  // ---- The specification: one queue, one atomic effect per call ------------------------

  datatype Op = Ready | Pushing(id: nat) | Queued | Popping | Got(id: nat)

  datatype Fifo = Fifo(queue: seq<nat>, ops: map<nat, Op>)

  datatype Effect =
    | Stutter
    | BeginPush(p: nat, id: nat)
    | BeginPop(p: nat)
    | Enqueue(p: nat)
    | Dequeue(p: nat)
    | AnswerEmpty(p: nat)
    | End(p: nat)

  ghost predicate FifoStep(f: Fifo, e: Effect, f': Fifo) {
    match e
    case Stutter => f' == f
    case BeginPush(p, id) => p in f.ops && f.ops[p] == Ready && f' == f.(ops := f.ops[p := Pushing(id)])
    case BeginPop(p) => p in f.ops && f.ops[p] == Ready && f' == f.(ops := f.ops[p := Popping])
    case Enqueue(p) =>
      p in f.ops && f.ops[p].Pushing? && f' == Fifo(f.queue + [f.ops[p].id], f.ops[p := Queued])
    case Dequeue(p) =>
      p in f.ops && f.ops[p] == Popping && |f.queue| > 0 && f' == Fifo(f.queue[1..], f.ops[p := Got(f.queue[0])])
    case AnswerEmpty(p) =>
      p in f.ops && f.ops[p] == Popping && f.queue == [] && f' == f.(ops := f.ops[p := Got(INVALID)])
    case End(p) => p in f.ops && (f.ops[p] == Queued || f.ops[p].Got?) && f' == f.(ops := f.ops[p := Ready])
  }

  // ---- What the queue user sees of a ring state ----------------------------------------

  function OpOf(r: Ring, l: Local): Op {
    match l
    case Idle => Ready
    case PushHead(id, _, _) => Pushing(id)
    case PushNode(id, _, _, _) => Pushing(id)
    case PushCas(id, _) => Pushing(id)
    case PushHelp(id, _) => Pushing(id)
    case PushAdvance(id, h) => if h < r.head then Queued else Pushing(id)
    case PushDone(_) => Queued
    case PopTail(_, _) => Popping
    case PopHead(_, _, _) => Popping
    case PopNode(_, _, _) => Popping
    case PopCas(_, _) => Popping
    case PopHelp(_) => Popping
    case PopAdvance(_, id) => Got(id)
    case PopDone(id) => Got(id)
  }

  ghost function View(s: Sys): Fifo
    requires RingOk(s.ring)
  {
    Fifo(Contents(s.ring), map p | p in s.procs :: OpOf(s.ring, s.procs[p]))
  }

  /** The queue effect of an action: the same helped push is credited to the process that
      filled the slot, whoever moves head. */
  ghost function EffectOf(s: Sys, a: Action): Effect
    requires Inv(s) && Enabled(s, a)
  {
    match a
    case CallPush(p, id) => BeginPush(p, id)
    case CallPop(p) => BeginPop(p)
    case Return(p) => End(p)
    case Move(p) =>
      match s.procs[p]
      case PushHelp(_, h) => if h == s.ring.head then Enqueue(Filler(s)) else Stutter
      case PushAdvance(_, h) => if h == s.ring.head then Enqueue(Filler(s)) else Stutter
      case PopHead(t, _, _) => if t == s.ring.head then AnswerEmpty(p) else Stutter
      case PopCas(t, w) => if Slot(s.ring, t) == w then Dequeue(p) else Stutter
      case _ => Stutter
  }

  ghost function Filler(s: Sys): (p: nat)
    requires Inv(s) && Pushed(s.ring) == s.ring.head + 1
    ensures AtHead(s, p)
  {
    var p :| AtHead(s, p); p
  }

  // ---- One step of one process ---------------------------------------------------------

  /** What one shared access does to the ring and leaves the moving process to rely on. */
  ghost predicate MoveIsSound(r: Ring, l: Local)
    requires RingOk(r)
  {
    var (r', l') := Step(r, l);
    && RingOk(r') && Later(r, r') && LocalOk(r', l')
    && Popped(r') == Popped(r) + (if l.PopCas? && l'.PopAdvance? then 1 else 0)
    && Pushed(r') == Pushed(r) + (if l.PushCas? && l'.PushAdvance? then 1 else 0)
  }

  lemma PushMoveLocal(r: Ring, l: Local)
    requires RingOk(r) && LocalOk(r, l)
    requires PreFill(l) || l.PushAdvance?
    requires PreFill(l) ==> Pushed(r) < Popped(r) + |r.nodes|
    ensures MoveIsSound(r, l)
  {
    hide Index, Contents;
    if l.PushCas? {
      PushFillLocal(r, l);
    } else if l.PushHelp? || l.PushAdvance? {
      PushHeadLocal(r, l);
    } else if l.PushNode? {
      assert l.h == r.head == Pushed(r) ==> Slot(r, l.h) == Word(l.h, INVALID);
    }
  }

  lemma PushFillLocal(r: Ring, l: Local)
    requires RingOk(r) && LocalOk(r, l) && l.PushCas? && Pushed(r) < Popped(r) + |r.nodes|
    ensures MoveIsSound(r, l)
  {
    hide Index, Contents;
    if Slot(r, l.h) == Word(l.h, INVALID) { FillSlot(r, l.h, l.id); }
  }

  lemma PushHeadLocal(r: Ring, l: Local)
    requires RingOk(r) && LocalOk(r, l) && (l.PushHelp? || l.PushAdvance?)
    ensures MoveIsSound(r, l)
  {
    hide Index, Contents;
    AdvanceHead(r, l.h);
  }

  lemma PopMoveLocal(r: Ring, l: Local)
    requires RingOk(r) && LocalOk(r, l)
    requires !PreFill(l) && !l.PushAdvance?
    ensures MoveIsSound(r, l)
  {
    hide Index;
    if l.PopCas? {
      PopTakeLocal(r, l);
    } else if l.PopHelp? || l.PopAdvance? {
      PopTailLocal(r, l);
    } else if l.PopNode? {
      var t := l.t;
      assert Popped(r) <= t ==> Slot(r, t).stamp == t && Slot(r, t).id != INVALID;
    }
  }

  lemma PopTakeLocal(r: Ring, l: Local)
    requires RingOk(r) && LocalOk(r, l) && l.PopCas?
    ensures MoveIsSound(r, l)
  {
    hide Index, Contents;
    if Slot(r, l.t) == l.word { EmptySlot(r, l.t, l.word); }
  }

  lemma PopTailLocal(r: Ring, l: Local)
    requires RingOk(r) && LocalOk(r, l) && (l.PopHelp? || l.PopAdvance?)
    ensures MoveIsSound(r, l)
  {
    hide Index, Contents;
    AdvanceTail(r, l.t);
  }

  lemma MoveLocal(r: Ring, l: Local)
    requires RingOk(r) && LocalOk(r, l)
    requires PreFill(l) ==> Pushed(r) < Popped(r) + |r.nodes|
    ensures MoveIsSound(r, l)
  {
    hide Index;
    if PreFill(l) || l.PushAdvance? { PushMoveLocal(r, l); } else { PopMoveLocal(r, l); }
  }

  lemma PushersRoom(s: Sys, p: nat)
    requires Inv(s) && p in s.procs && PreFill(s.procs[p])
    ensures Pushed(s.ring) < Popped(s.ring) + |s.ring.nodes|
  {
    hide Index;
    assert p in Pushers(s.procs);
    assert |Pushers(s.procs)| >= 1 by {
      assert Pushers(s.procs) == (Pushers(s.procs) - {p}) + {p};
    }
  }

  lemma PushersChange(procs: map<nat, Local>, p: nat, l: Local)
    requires p in procs
    ensures var before := if PreFill(procs[p]) then 1 else 0;
            var after := if PreFill(l) then 1 else 0;
            |Pushers(procs[p := l])| == |Pushers(procs)| - before + after
  {
    hide Index;
    var others := Pushers(procs) - {p};
    assert Pushers(procs) == if PreFill(procs[p]) then others + {p} else others;
    assert Pushers(procs[p := l]) == if PreFill(l) then others + {p} else others;
  }

  /** Whatever one process does next, the invariant survives. */
  lemma MoveKeepsInv(s: Sys, p: nat)
    requires Inv(s) && Enabled(s, Move(p))
    ensures Inv(Apply(s, Move(p)))
  {
    hide Index;
    var r, l := s.ring, s.procs[p];
    var (r', l') := Step(r, l);
    var s' := Apply(s, Move(p));
    if PreFill(l) { PushersRoom(s, p); }
    MoveLocal(r, l);
    PushersChange(s.procs, p, l');
    forall q | q in s'.procs
      ensures LocalOk(r', s'.procs[q])
    {
      if q != p { LocalStable(r, r', s.procs[q]); }
    }
    MoveKeepsOwner(s, p);
  }

  lemma MoveKeepsOwner(s: Sys, p: nat)
    requires Inv(s) && Enabled(s, Move(p))
    ensures RingOk(Apply(s, Move(p)).ring) && OwnerOk(Apply(s, Move(p)))
  {
    hide Index;
    var r, l := s.ring, s.procs[p];
    var (r', l') := Step(r, l);
    var s' := Apply(s, Move(p));
    if PreFill(l) { PushersRoom(s, p); }
    MoveLocal(r, l);
    if l.PushCas? && l'.PushAdvance? {
      FillSlot(r, l.h, l.id);
      assert AtHead(s', p);
      assert forall q :: q in s.procs && s.procs[q].PushAdvance? ==> LocalOk(r, s.procs[q]);
      assert forall q :: AtHead(s', q) ==> q == p;
    } else if r'.head == r.head {
      assert forall q :: q != p ==> (AtHead(s', q) <==> AtHead(s, q));
      assert AtHead(s', p) <==> AtHead(s, p);
      if Pushed(r') == r'.head + 1 {
        var q :| AtHead(s, q);
        assert AtHead(s', q);
      }
    } else {
      assert forall q :: q in s.procs && s.procs[q].PushAdvance? ==> LocalOk(r, s.procs[q]);
      assert forall q :: !AtHead(s', q);
    }
  }

  /** Every reachable state of every system satisfies the invariant. */
  lemma InitKeepsInv(s: Sys, count: nat, initHead: nat)
    requires Init(s, count, initHead)
    ensures Inv(s)
    ensures Contents(s.ring) == seq(initHead, i => i)
  {
    var r := s.ring;
    forall k | 0 <= k < count
      ensures Slot(r, k) == Word(k, if k < initHead then k else INVALID)
    {
    }
    assert Slot(r, count) == Slot(r, 0);
    assert Popped(r) == 0;
    assert Pushed(r) == initHead;
    assert Pushers(s.procs) == {};
  }

  lemma StepKeepsInv(s: Sys, a: Action)
    requires Inv(s) && Enabled(s, a)
    ensures Inv(Apply(s, a))
  {
    hide Index;
    if a.Move? {
      MoveKeepsInv(s, a.p);
    } else {
      var s' := Apply(s, a);
      PushersChange(s.procs, a.p, s'.procs[a.p]);
      assert forall q :: AtHead(s', q) <==> AtHead(s, q);
    }
  }

  /** The retry of a pop that reads a tail beyond head is never taken. */
  lemma TailNeverOvertakes(s: Sys, p: nat)
    requires Inv(s) && p in s.procs && s.procs[p].PopHead?
    ensures s.procs[p].t <= s.ring.tail <= Popped(s.ring) <= s.ring.head
  {
    assert LocalOk(s.ring, s.procs[p]);
  }

  // ---- Refinement ----------------------------------------------------------------------

  /** Every action of the ring system is one effect, or none, of the FIFO machine. */
  lemma StepRefines(s: Sys, a: Action)
    requires Inv(s) && Enabled(s, a)
    ensures Inv(Apply(s, a))
    ensures FifoStep(View(s), EffectOf(s, a), View(Apply(s, a)))
  {
    hide Index, Step, RingOk, LocalOk, Contents, Slot;
    StepKeepsInv(s, a);
    if a.Move? {
      MoveRefines(s, a.p);
    }
  }

  lemma ViewOfMove(s: Sys, p: nat, r': Ring, l': Local)
    requires RingOk(s.ring) && RingOk(r') && r'.head == s.ring.head && p in s.procs
    ensures View(Sys(r', s.procs[p := l'])) == Fifo(Contents(r'), View(s).ops[p := OpOf(r', l')])
  {
    hide Index;
    assert forall l :: OpOf(r', l) == OpOf(s.ring, l);
  }

  lemma MoveRefines(s: Sys, p: nat)
    requires Inv(s) && Enabled(s, Move(p))
    ensures RingOk(Apply(s, Move(p)).ring)
    ensures FifoStep(View(s), EffectOf(s, Move(p)), View(Apply(s, Move(p))))
  {
    hide Index;
    var r, l := s.ring, s.procs[p];
    if PreFill(l) { PushersRoom(s, p); }
    MoveLocal(r, l);
    if l.PushHelp? || l.PushAdvance? {
      HeadMoveRefines(s, p);
    } else if l.PopCas? {
      TakeRefines(s, p);
    } else if l.PopHead? {
      var (r', l') := Step(r, l);
      ViewOfMove(s, p, r', l');
      assert l.t == r.head ==> Contents(r) == [];
    } else {
      QuietMoveRefines(s, p);
    }
  }

  lemma QuietMoveRefines(s: Sys, p: nat)
    requires RingOk(s.ring) && p in s.procs && LocalOk(s.ring, s.procs[p]) && MoveIsSound(s.ring, s.procs[p])
    requires PreFill(s.procs[p]) ==> Pushed(s.ring) < Popped(s.ring) + |s.ring.nodes|
    requires var l := s.procs[p]; !l.PushHelp? && !l.PushAdvance? && !l.PopCas? && !l.PopHead?
    ensures var (r', l') := Step(s.ring, s.procs[p]);
            View(Sys(r', s.procs[p := l'])) == View(s)
  {
    hide Index, Contents;
    var r, l := s.ring, s.procs[p];
    var (r', l') := Step(r, l);
    assert Contents(r') == Contents(r) by {
      if l.PushCas? {
        if Slot(r, l.h) == Word(l.h, INVALID) { FillSlot(r, l.h, l.id); }
      } else if l.PopHelp? || l.PopAdvance? {
        AdvanceTail(r, l.t);
      }
    }
    ViewOfMove(s, p, r', l');
  }

  lemma TakeRefines(s: Sys, p: nat)
    requires RingOk(s.ring) && p in s.procs && LocalOk(s.ring, s.procs[p]) && MoveIsSound(s.ring, s.procs[p])
    requires s.procs[p].PopCas?
    ensures var (r', l') := Step(s.ring, s.procs[p]);
            FifoStep(View(s), if Slot(s.ring, s.procs[p].t) == s.procs[p].word then Dequeue(p) else Stutter,
                     View(Sys(r', s.procs[p := l'])))
  {
    hide Index, Contents;
    var r, l := s.ring, s.procs[p];
    var (r', l') := Step(r, l);
    ViewOfMove(s, p, r', l');
    if Slot(r, l.t) == l.word {
      EmptySlot(r, l.t, l.word);
      DequeueFront(View(s), p, l.word.id, Contents(r'));
    } else {
      assert View(Sys(r', s.procs[p := l'])).ops == View(s).ops;
    }
  }

  lemma DequeueFront(f: Fifo, p: nat, id: nat, rest: seq<nat>)
    requires p in f.ops && f.ops[p] == Popping && f.queue == [id] + rest
    ensures FifoStep(f, Dequeue(p), Fifo(rest, f.ops[p := Got(id)]))
  {
    assert f.queue[0] == id && f.queue[1..] == rest;
  }

  lemma HeadMoveRefines(s: Sys, p: nat)
    requires Inv(s) && Enabled(s, Move(p)) && MoveIsSound(s.ring, s.procs[p])
    requires s.procs[p].PushHelp? || s.procs[p].PushAdvance?
    ensures FifoStep(View(s), EffectOf(s, Move(p)), View(Apply(s, Move(p))))
  {
    hide Index, Contents;
    var r, h := s.ring, s.procs[p].h;
    AdvanceHead(r, h);
    if h == r.head {
      HeadPassesFiller(s, p);
    } else {
      var (r', l') := Step(r, s.procs[p]);
      ViewOfMove(s, p, r', l');
    }
  }

  lemma HeadPassesFiller(s: Sys, p: nat)
    requires Inv(s) && Enabled(s, Move(p)) && MoveIsSound(s.ring, s.procs[p])
    requires s.procs[p].PushHelp? || s.procs[p].PushAdvance?
    requires s.procs[p].h == s.ring.head && Pushed(s.ring) == s.ring.head + 1
    ensures View(Apply(s, Move(p))).ops == View(s).ops[Filler(s) := Queued]
    ensures View(s).ops[Filler(s)] == Pushing(Slot(s.ring, s.ring.head).id)
  {
    hide Index, Contents, RingOk, OwnerOk;
    var s', f := Apply(s, Move(p)), Filler(s);
    assert LocalOk(s.ring, s.procs[f]);
    forall q | q in s.procs
      ensures View(s').ops[q] == if q == f then Queued else View(s).ops[q]
    {
      assert LocalOk(s.ring, s.procs[q]);
      assert q != f ==> !AtHead(s, q) by { OneFiller(s, q, f); }
      PassedOp(s.ring, s.procs[q]);
    }
    FillersId(s, f);
  }

  lemma OneFiller(s: Sys, q: nat, f: nat)
    requires Inv(s) && AtHead(s, f)
    ensures AtHead(s, q) ==> q == f
  {
    hide Index, Contents, RingOk, LocalOk;
  }

  lemma FillersId(s: Sys, f: nat)
    requires Inv(s) && AtHead(s, f) && Pushed(s.ring) == s.ring.head + 1
    ensures OpOf(s.ring, s.procs[f]) == Pushing(Slot(s.ring, s.ring.head).id)
  {
    hide Index, Contents, RingOk, OwnerOk, Pushed;
    assert LocalOk(s.ring, s.procs[f]);
  }

  /** When head moves, only the push that filled its slot is done. */
  lemma PassedOp(r: Ring, l: Local)
    requires RingOk(r) && LocalOk(r, l)
    ensures var r', done := CasHead(r, r.head), l.PushAdvance? && l.h == r.head;
            && OpOf(r', l) == (if done then Queued else OpOf(r, l))
            && ((l.PushHelp? || l.PushAdvance?) && l.h == r.head ==> OpOf(r', Step(r, l).1) == if done then Queued else OpOf(r, l))
  {
    hide Index, Contents, RingOk;
  }

  // ---- Whole runs ----------------------------------------------------------------------

  ghost predicate IsRun(states: seq<Sys>, actions: seq<Action>) {
    && |states| == |actions| + 1
    && forall i :: 0 <= i < |actions| ==> Enabled(states[i], actions[i]) && states[i + 1] == Apply(states[i], actions[i])
  }

  ghost predicate IsFifoRun(views: seq<Fifo>, effects: seq<Effect>) {
    && |views| == |effects| + 1
    && forall i :: 0 <= i < |effects| ==> FifoStep(views[i], effects[i], views[i + 1])
  }

  /** Any run of any number of processes, seen through View, is a run of the FIFO queue. */
  lemma RunIsFifoRun(states: seq<Sys>, actions: seq<Action>, count: nat, initHead: nat)
    requires IsRun(states, actions) && Init(states[0], count, initHead)
    ensures forall i :: 0 <= i < |states| ==> Inv(states[i])
    ensures IsFifoRun(seq(|states|, i requires 0 <= i < |states| && Inv(states[i]) => View(states[i])),
                      seq(|actions|, i requires 0 <= i < |actions| && Inv(states[i]) && Enabled(states[i], actions[i]) =>
                        EffectOf(states[i], actions[i])))
  {
    hide Index;
    InitKeepsInv(states[0], count, initHead);
    RunKeepsInv(states, actions);
    forall i | 0 <= i < |actions|
      ensures FifoStep(View(states[i]), EffectOf(states[i], actions[i]), View(states[i + 1]))
    {
      StepRefines(states[i], actions[i]);
    }
  }

  lemma {:induction false} RunKeepsInv(states: seq<Sys>, actions: seq<Action>)
    requires IsRun(states, actions) && Inv(states[0])
    ensures forall i :: 0 <= i < |states| ==> Inv(states[i])
  {
    hide Index;
    if |actions| > 0 {
      var n := |actions| - 1;
      RunKeepsInv(states[..n + 1], actions[..n]);
      assert Inv(states[..n + 1][n]);
      StepKeepsInv(states[n], actions[n]);
      forall i | 0 <= i < |states|
        ensures Inv(states[i])
      {
        if i <= n { assert states[..n + 1][i] == states[i]; }
      }
    }
  }
}
