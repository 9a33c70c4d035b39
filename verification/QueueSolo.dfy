/** One process of LFQueue alone: wherever all others stopped, a push, a confirmation, and a pop while
    a message can be seen, return within a bounded number of accesses. */
module QueueSolo {
  import opened LFRing
  import opened RingRefinement
  import opened RingSolo
  import opened LFQueue
  import opened QueueInvariant
  import opened QueueSteps
  import opened QueueRefinement

  /** The accesses of process p by itself, at most n of them. */
  function Alone(q: Queue, p: nat, n: nat): Queue
    decreases n
  {
    if n == 0 || !Shape(q) || p !in q.procs || !Movable(q, q.procs[p]) then q else Alone(Moved(q, p), p, n - 1)
  }

  predicate EmptyHanded(proc: Proc) {
    proc.PopPause? || (proc.PopNodeRing? && TakenId(proc.l) == INVALID)
  }

  /** Inside a call that has something to do: LFQueue_pop waits while no message can be seen. */
  ghost predicate Going(q: Queue, p: nat)
    requires p in q.procs
  {
    QueueSteps.InCall(q.procs[p]) && (EmptyHanded(q.procs[p]) ==> Visible(q.node) != [])
  }

  // ---- Accesses that are left --------------------------------------------------------------

  ghost function RingLeft(r: Ring, l: Local): nat {
    if RingOk(r) && LocalOk(r, l) then Accesses(r, l) else 0
  }

  /** Size, payload, and 16 accesses to publish. */
  function WriteLeft(req: Request): nat {
    1 + if req.Whole? then |req.buf| + 17 else 0
  }

  function ReadLeft(q: Queue): nat {
    q.dataSize + 18
  }

  ghost function CallLeft(q: Queue, proc: Proc): int {
    match proc
    case PushPause(req) => 43 + WriteLeft(req)
    case PushResc(req, l) => RingLeft(q.resc, l) + 22 + WriteLeft(req)
    case PushSteal(req, l) => RingLeft(q.node, l) + 1 + WriteLeft(req)
    case PushSize(req, _) => WriteLeft(req)
    case PushCopy(buf, _, i) => |buf| - i + 17
    case Publishing(_, l) => RingLeft(q.node, l) + 1
    case PopPause(_) => 22 + ReadLeft(q)
    case PopNodeRing(_, l, _) => if l == PopDone(INVALID) then 23 + ReadLeft(q) else RingLeft(q.node, l) + 1 + ReadLeft(q)
    case PopSize(_, _, _) => ReadLeft(q)
    case PopCopy(_, size, buf, _) => size - |buf| + 17
    case GivingBack(_, l) => RingLeft(q.resc, l) + 1
    case _ => 0
  }

  lemma RingLeftBound(r: Ring, l: Local)
    ensures RingLeft(r, l) <= if PreFill(l) || l.PushAdvance? then 15 else 20
    ensures !Busy(l) ==> RingLeft(r, l) == 0
  {
    if RingOk(r) && LocalOk(r, l) { SoloBound(r, l); }
    hide Index, RingOk;
  }

  lemma CallLeftBound(q: Queue, proc: Proc)
    requires Shape(q) && ProcOk(q, proc)
    ensures 0 <= CallLeft(q, proc) <= q.dataSize + 61
  {
    match proc
    case PushResc(_, l) => RingLeftBound(q.resc, l);
    case PushSteal(_, l) => RingLeftBound(q.node, l);
    case Publishing(_, l) => RingLeftBound(q.node, l);
    case PopNodeRing(_, l, _) => RingLeftBound(q.node, l);
    case GivingBack(_, l) => RingLeftBound(q.resc, l);
    case _ =>
    hide RingLeft, OnPop, OnPush;
  }

  // ---- One access ----------------------------------------------------------------------------

  lemma RescProgress(q: Queue, p: nat)
    requires QueueInv(q) && p in q.procs && Busy(OnResc(q.procs[p]))
    ensures |q.resc.nodes| > 0
    ensures var l := OnResc(q.procs[p]); RingLeft(Step(q.resc, l).0, Step(q.resc, l).1) < RingLeft(q.resc, l)
  {
    hide Index, Step, RingOk, LocalOk, Conserved, ProcOk, OnResc, Accesses, Shape;
    BothRings(q);
    SysProgress(RescSys(q), p);
  }

  lemma NodeProgress(q: Queue, p: nat)
    requires QueueInv(q) && p in q.procs && Busy(OnNode(q.procs[p]))
    ensures |q.node.nodes| > 0
    ensures var l := OnNode(q.procs[p]); RingLeft(Step(q.node, l).0, Step(q.node, l).1) < RingLeft(q.node, l)
  {
    hide Index, Step, RingOk, LocalOk, Conserved, ProcOk, OnNode, Accesses, Shape;
    BothRings(q);
    SysProgress(NodeSys(q), p);
  }

  lemma SysProgress(s: Sys, p: nat)
    requires LFRing.Inv(s) && p in s.procs && Busy(s.procs[p])
    ensures |s.ring.nodes| > 0
    ensures var l := s.procs[p]; RingLeft(Step(s.ring, l).0, Step(s.ring, l).1) < RingLeft(s.ring, l)
  {
    hide Index, Accesses, Contents;
    if PreFill(s.procs[p]) { PushersRoom(s, p); }
    SoloProgress(s.ring, s.procs[p]);
  }

  /** A lone pop that can see a message goes on until it has one. */
  lemma SeekerProgress(q: Queue, p: nat)
    requires QueueInv(q) && p in q.procs && q.procs[p].PopNodeRing? && Busy(q.procs[p].l) && Going(q, p)
    ensures |q.node.nodes| > 0
    ensures var (r', l') := Step(q.node, q.procs[p].l);
            l' != PopDone(INVALID) && (TakenId(l') == INVALID ==> Visible(r') != [])
  {
    hide Index, Step, RingOk, LocalOk, Conserved, ProcOk, Contents, Shape, LFRing.Inv;
    NodeLocal(q, p);
    PopperSeeks(q, p);
    SeekerMoves(q.node, q.procs[p].l);
  }

  lemma PopperSeeks(q: Queue, p: nat)
    requires QueueInv(q) && p in q.procs && q.procs[p].PopNodeRing? && Busy(q.procs[p].l)
    ensures Seeking(q.procs[p].l) || q.procs[p].l.PopAdvance?
  {
    hide LFRing.Inv, Conserved;
    assert ProcOk(q, q.procs[p]);
  }

  lemma SeekerMoves(r: Ring, l: Local)
    requires RingOk(r) && LocalOk(r, l) && (Seeking(l) || l.PopAdvance?)
    requires TakenId(l) == INVALID ==> Visible(r) != []
    ensures var (r', l') := Step(r, l);
            l' != PopDone(INVALID) && (TakenId(l') == INVALID ==> Visible(r') != [])
  {
    hide Index, RingOk, Contents, Accesses;
    if Seeking(l) {
      SoloPopMove(r, l);
      var (r', l') := Step(r, l);
      if l'.PopAdvance? { TakesAnId(r, l); }
      SoundStep(r, l);
    } else {
      AdvancesWithId(r, l);
    }
  }

  lemma SoundStep(r: Ring, l: Local)
    requires RingOk(r) && MoveIsSound(r, l)
    ensures RingOk(Step(r, l).0)
  {
    hide Index, Step, RingOk, LocalOk;
  }

  lemma TakesAnId(r: Ring, l: Local)
    requires RingOk(r) && LocalOk(r, l) && Seeking(l) && Step(r, l).1.PopAdvance?
    ensures Step(r, l).1.id != INVALID
  {
    hide Index, RingOk;
  }

  lemma AdvancesWithId(r: Ring, l: Local)
    requires RingOk(r) && LocalOk(r, l) && l.PopAdvance?
    ensures Step(r, l).1 == PopDone(l.id) && l.id != INVALID
  {
    hide Index, RingOk;
  }

  /** Each access of a lone process brings its call closer to its end. */
  lemma CallProgress(q: Queue, p: nat)
    requires QueueInv(q) && p in q.procs && Going(q, p)
    ensures Shape(q) && Movable(q, q.procs[p])
    ensures var q' := Moved(q, p);
            && QueueInv(q') && p in q'.procs && q'.dataSize == q.dataSize
            && CallLeft(q', q'.procs[p]) < CallLeft(q, q.procs[p])
            && (QueueSteps.InCall(q'.procs[p]) ==> Going(q', p))
  {
    CallsAreMovable(q, p);
    SlotsExist(q);
    ActionKeepsInv(q, LFQueue.Move(p));
    hide Index, QueueInv, Shape, Movable, Going, CallLeft, Moved;
    if Busy(OnResc(q.procs[p])) {
      RescCallProgress(q, p);
    } else if Busy(OnNode(q.procs[p])) {
      NodeCallProgress(q, p);
    } else {
      OnwardCallProgress(q, p);
    }
  }

  lemma RescCallProgress(q: Queue, p: nat)
    requires QueueInv(q) && Shape(q) && p in q.procs && Movable(q, q.procs[p]) && Busy(OnResc(q.procs[p]))
    ensures var q' := Moved(q, p);
            && p in q'.procs && q'.dataSize == q.dataSize
            && CallLeft(q', q'.procs[p]) < CallLeft(q, q.procs[p])
            && (QueueSteps.InCall(q'.procs[p]) ==> Going(q', p))
  {
    RescProgress(q, p);
    RescMoves(q, p);
    hide Index, Step, QueueInv, Shape, Movable, Moved, RingLeft, Visible, RingOk;
  }

  lemma NodeCallProgress(q: Queue, p: nat)
    requires QueueInv(q) && Shape(q) && p in q.procs && Movable(q, q.procs[p]) && Busy(OnNode(q.procs[p])) && Going(q, p)
    requires !Busy(OnResc(q.procs[p]))
    ensures var q' := Moved(q, p);
            && p in q'.procs && q'.dataSize == q.dataSize
            && CallLeft(q', q'.procs[p]) < CallLeft(q, q.procs[p])
            && (QueueSteps.InCall(q'.procs[p]) ==> Going(q', p))
  {
    hide Index, Step, QueueInv, Shape, RingLeft, Visible, RingOk, AfterNodeAccess, EmptyHanded, CallLeft, Moved;
    NodeProgress(q, p);
    NodeMoves(q, p);
    if q.procs[p].PopNodeRing? { SeekerProgress(q, p); }
    AccessCloser(q, q.procs[p], Step(q.node, q.procs[p].l).0, Step(q.node, q.procs[p].l).1);
    SameCallLeft(q.(node := Step(q.node, q.procs[p].l).0), Moved(q, p), Moved(q, p).procs[p]);
  }

  lemma NodeMoves(q: Queue, p: nat)
    requires Shape(q) && p in q.procs && Movable(q, q.procs[p]) && Busy(OnNode(q.procs[p])) && !Busy(OnResc(q.procs[p]))
    ensures q.procs[p].PushSteal? || q.procs[p].Publishing? || q.procs[p].PopNodeRing?
    ensures var (r', l') := Step(q.node, q.procs[p].l);
            Moved(q, p) == With(q.(node := r'), p, AfterNodeAccess(q, q.procs[p], l'))
  {
    hide Step, Shape, AfterNodeAccess;
  }

  lemma AccessCloser(q: Queue, proc: Proc, r': Ring, l': Local)
    requires Shape(q) && (proc.PushSteal? || proc.Publishing? || proc.PopNodeRing?) && Busy(proc.l)
    requires RingLeft(r', l') < RingLeft(q.node, proc.l) && (proc.PopNodeRing? ==> l' != PopDone(INVALID))
    ensures CallLeft(q.(node := r'), AfterNodeAccess(q, proc, l')) < CallLeft(q, proc)
    ensures QueueSteps.InCall(AfterNodeAccess(q, proc, l'))
    ensures EmptyHanded(AfterNodeAccess(q, proc, l')) <==> proc.PopNodeRing? && TakenId(l') == INVALID
  {
    hide RingLeft, Shape, Content;
  }

  lemma OnwardCallProgress(q: Queue, p: nat)
    requires QueueInv(q) && Shape(q) && p in q.procs && Movable(q, q.procs[p]) && Going(q, p)
    requires !Busy(OnResc(q.procs[p])) && !Busy(OnNode(q.procs[p]))
    ensures var q' := Moved(q, p);
            && p in q'.procs && q'.dataSize == q.dataSize
            && CallLeft(q', q'.procs[p]) < CallLeft(q, q.procs[p])
            && (QueueSteps.InCall(q'.procs[p]) ==> Going(q', p))
  {
    ProcIsOk(q, p);
    NodeSlots(q);
    var proc, q' := q.procs[p], Moved(q, p);
    hide Index, QueueInv, Shape, Moved, CallLeft, ProcOk, Movable, EmptyHanded, QueueSteps.InCall, WritesNode, Visible, Onward;
    LocalMoves(q, p);
    if WritesNode(proc) {
      WriteCloser(q, proc);
      SameCallLeft(q, q', AfterWrite(proc));
    } else {
      OnwardCloser(q, proc);
      SameCallLeft(q, q', Onward(q, proc));
    }
  }

  lemma NodeSlots(q: Queue)
    requires QueueInv(q)
    ensures |q.node.nodes| > 0 && |q.resc.nodes| > 0
  {
    hide LFRing.Inv, Conserved, ProcOk;
  }

  /** An access outside both rings leaves them alone. */
  lemma LocalMoves(q: Queue, p: nat)
    requires Shape(q) && p in q.procs && Movable(q, q.procs[p]) && !Busy(OnResc(q.procs[p])) && !Busy(OnNode(q.procs[p]))
    ensures var q', proc := Moved(q, p), q.procs[p];
            && q'.resc == q.resc && q'.node == q.node && q'.dataSize == q.dataSize && p in q'.procs
            && q'.procs[p] == if WritesNode(proc) then AfterWrite(proc) else Onward(q, proc)
  {
    hide Shape, Onward, WrittenNode, AfterWrite, Movable, WritesNode;
  }

  lemma SameCallLeft(q: Queue, q': Queue, proc: Proc)
    requires q'.resc == q.resc && q'.node == q.node && q'.dataSize == q.dataSize
    ensures CallLeft(q', proc) == CallLeft(q, proc)
  {
    hide RingLeft;
  }

  lemma WriteCloser(q: Queue, proc: Proc)
    requires Shape(q) && Movable(q, proc) && WritesNode(proc)
    ensures CallLeft(q, AfterWrite(proc)) < CallLeft(q, proc)
    ensures !EmptyHanded(AfterWrite(proc))
  {
    hide RingLeft;
  }

  lemma OnwardCloser(q: Queue, proc: Proc)
    requires Shape(q) && Movable(q, proc) && ProcOk(q, proc) && QueueSteps.InCall(proc)
    requires !Busy(OnResc(proc)) && !Busy(OnNode(proc)) && !WritesNode(proc)
    ensures CallLeft(q, Onward(q, proc)) < CallLeft(q, proc)
    ensures QueueSteps.InCall(Onward(q, proc)) && EmptyHanded(Onward(q, proc)) ==> EmptyHanded(proc)
  {
    hide Index, RingLeft, Content, Carries;
    RingLeftBound(q.resc, StartPop);
    RingLeftBound(q.node, StartPop);
    if proc.PushCopy? {
      RingLeftBound(q.node, StartPush(proc.id));
    } else if proc.PopCopy? {
      RingLeftBound(q.resc, StartPush(proc.id));
    }
  }

  lemma ProcIsOk(q: Queue, p: nat)
    requires QueueInv(q) && p in q.procs
    ensures Shape(q) && ProcOk(q, q.procs[p])
  {
    hide LFRing.Inv, Conserved, ProcOk, Shape;
  }

  /** No crash blocks anyone: with all other processes stopped wherever they are, a push, an
      overwriting push, a confirmation, and a pop that can see a message end within a number of
      their own accesses that depends only on the size of a node. */
  lemma CallsEnd(q: Queue, p: nat) returns (n: nat)
    requires QueueInv(q) && p in q.procs && Going(q, p)
    ensures n <= q.dataSize + 61
    ensures p in Alone(q, p, n).procs && QueueInv(Alone(q, p, n)) && !QueueSteps.InCall(Alone(q, p, n).procs[p])
  {
    ProcIsOk(q, p);
    CallLeftBound(q, q.procs[p]);
    n := CallsEndWithin(q, p);
  }

  lemma {:induction false} CallsEndWithin(q: Queue, p: nat) returns (n: nat)
    requires QueueInv(q) && p in q.procs && Going(q, p)
    ensures n <= CallLeft(q, q.procs[p])
    ensures p in Alone(q, p, n).procs && QueueInv(Alone(q, p, n)) && !QueueSteps.InCall(Alone(q, p, n).procs[p])
    decreases CallLeft(q, q.procs[p])
  {
    hide QueueInv, Going, CallLeft, Moved, Shape, Movable, QueueSteps.InCall;
    Closer(q, p);
    var q' := Moved(q, p);
    if QueueSteps.InCall(q'.procs[p]) {
      var k := CallsEndWithin(q', p);
      n := k + 1;
    } else {
      n := 1;
      assert Alone(q', p, 0) == q';
    }
  }

  lemma Closer(q: Queue, p: nat)
    requires QueueInv(q) && p in q.procs && Going(q, p)
    ensures Shape(q) && Movable(q, q.procs[p])
    ensures var q' := Moved(q, p);
            && QueueInv(q') && p in q'.procs && 0 <= CallLeft(q', q'.procs[p]) < CallLeft(q, q.procs[p])
            && (QueueSteps.InCall(q'.procs[p]) ==> Going(q', p))
  {
    hide QueueInv, Going, CallLeft, Moved, Shape, Movable, QueueSteps.InCall, ProcOk;
    CallProgress(q, p);
    var q' := Moved(q, p);
    ProcIsOk(q', p);
    CallLeftBound(q', q'.procs[p]);
  }
}
