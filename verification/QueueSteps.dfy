/** Every action of the queue keeps QueueInv.

    An access inside a ring call moves at most one id, between a ring and the hands of the process
    that makes the access; a store to a node is a store to a node that its process holds; every
    other action only moves a process along in its calls. Each of the three kinds is one lemma
    below, and every action is an instance of one of them.
 */
module QueueSteps {
  import opened LFRing
  import opened RingRefinement
  import opened RingSolo
  import opened LFQueue
  import opened QueueInvariant

  // ---- What a ring access does to the ids -----------------------------------------------

  function HandId(l: Local): nat {
    if PreFill(l) || l.PopAdvance? || l.PopDone? then l.id else INVALID
  }

  function InHand(l: Local): multiset<nat> {
    Single(HandId(l))
  }

  lemma TakeFromStored(r: Ring, t: nat, w: Word)
    requires RingOk(r) && t <= r.tail && t < r.head
    requires Slot(r, t) == w && w.stamp == t && w.id != INVALID
    ensures var r' := SetSlot(r, t, Word(t + |r.nodes|, INVALID));
            RingOk(r') && Stored(r) == [w.id] + Stored(r')
  {
    hide Index, Contents;
    EmptySlot(r, t, w);
    var w' := Word(t + |r.nodes|, INVALID);
    var r' := SetSlot(r, t, w');
    forall k | t < k < Pushed(r)
      ensures Slot(r', k) == Slot(r, k)
    {
      SetSlotFrame(r, t, w', k);
    }
  }

  lemma SameStored(r: Ring, r': Ring)
    requires RingOk(r) && RingOk(r') && r'.nodes == r.nodes && Popped(r') == Popped(r) && Pushed(r') == Pushed(r)
    ensures Stored(r') == Stored(r)
  {
    assert forall k :: Slot(r', k) == Slot(r, k);
  }

  /** An access of a ring moves at most one id between the ring and the process. */
  ghost predicate Conserves(r: Ring, l: Local, r': Ring, l': Local)
    requires RingOk(r) && RingOk(r')
  {
    multiset(Stored(r')) + InHand(l') == multiset(Stored(r)) + InHand(l)
  }

  lemma RingStepConserves(r: Ring, l: Local)
    requires RingOk(r) && LocalOk(r, l) && Room(r, l) && Busy(l)
    ensures MoveIsSound(r, l) && Conserves(r, l, Step(r, l).0, Step(r, l).1)
  {
    MoveLocal(r, l);
    if l.PopCas? {
      PopStepConserves(r, l);
    } else if l.PushCas? {
      PushStepConserves(r, l);
    } else {
      OtherStepConserves(r, l);
    }
  }

  lemma PushStepConserves(r: Ring, l: Local)
    requires RingOk(r) && LocalOk(r, l) && Room(r, l) && MoveIsSound(r, l) && l.PushCas?
    ensures Conserves(r, l, Step(r, l).0, Step(r, l).1)
  {
    hide Index, Contents;
    StoredAfterMove(r, l);
    hide Stored, RingOk;
  }

  lemma PopStepConserves(r: Ring, l: Local)
    requires RingOk(r) && LocalOk(r, l) && MoveIsSound(r, l) && l.PopCas?
    ensures Conserves(r, l, Step(r, l).0, Step(r, l).1)
  {
    hide Index, Contents, Stored, Later;
    if Slot(r, l.t) == l.word {
      var r' := SetSlot(r, l.t, Word(l.t + |r.nodes|, INVALID));
      assert Step(r, l) == (r', PopAdvance(l.t, l.word.id));
      TakeFromStored(r, l.t, l.word);
      TakenIsConserved(Stored(r), l.word.id, Stored(r'));
    }
  }

  lemma TakenIsConserved(before: seq<nat>, id: nat, after: seq<nat>)
    requires before == [id] + after
    ensures multiset(before) == multiset(after) + multiset{id}
  {
  }

  lemma OtherStepConserves(r: Ring, l: Local)
    requires RingOk(r) && MoveIsSound(r, l) && Busy(l) && !l.PopCas? && !l.PushCas?
    ensures Conserves(r, l, Step(r, l).0, Step(r, l).1)
  {
    hide Index, Contents, Stored;
    OtherStepInHand(r, l);
    SameStored(r, Step(r, l).0);
    hide Step, HandId;
  }

  lemma OtherStepInHand(r: Ring, l: Local)
    requires |r.nodes| > 0 && Busy(l) && !l.PopCas? && !l.PushCas?
    ensures HandId(Step(r, l).1) == HandId(l)
    ensures Step(r, l).0.nodes == r.nodes
  {
  }

  // ---- The two ring systems inside the queue --------------------------------------------

  lemma Project(q: Queue, p: nat, proc: Proc)
    requires p in q.procs
    ensures RescSys(With(q, p, proc)) == Sys(q.resc, RescSys(q).procs[p := OnResc(proc)])
    ensures NodeSys(With(q, p, proc)) == Sys(q.node, NodeSys(q).procs[p := OnNode(proc)])
  {
  }

  /** Returning from a ring call, starting another one, or both. */
  lemma SwapLocal(s: Sys, p: nat, l: Local)
    requires LFRing.Inv(s) && p in s.procs && !Busy(s.procs[p])
    requires l == Idle || l == StartPop || (l.PushHead? && l == StartPush(l.id) && l.id != INVALID && InFlight(s) < |s.ring.nodes|)
    ensures LFRing.Inv(Sys(s.ring, s.procs[p := l]))
  {
    hide Index, Step, Contents, RingOk, LocalOk, OwnerOk;
    var s1 := if s.procs[p] == Idle then s else LFRing.Apply(s, LFRing.Return(p));
    if s.procs[p] != Idle {
      StepKeepsInv(s, LFRing.Return(p));
      PushersChange(s.procs, p, Idle);
    } else {
      assert s.procs[p := Idle] == s.procs;
    }
    assert s1.procs[p := l] == s.procs[p := l];
    if l == StartPop {
      StepKeepsInv(s1, LFRing.CallPop(p));
    } else if l != Idle {
      StepKeepsInv(s1, LFRing.CallPush(p, l.id));
    } else {
      assert s1.procs[p := Idle] == s1.procs;
    }
  }

  // ---- One process moves, the others keep what they know ---------------------------------

  lemma Balance(a: multiset<nat>, h: multiset<nat>, a': multiset<nat>, h': multiset<nat>,
                held: multiset<nat>, held': multiset<nat>)
    requires a' + h' == a + h && held' + h == held + h'
    ensures a' + held' == a + held
  {
    forall x: nat
      ensures (a' + held')[x] == (a + held)[x]
    {
      assert (a' + h')[x] == (a + h)[x] && (held' + h)[x] == (held + h')[x];
    }
  }

  lemma AddSame(a: multiset<nat>, h: multiset<nat>, a': multiset<nat>, h': multiset<nat>, b: multiset<nat>)
    requires a' + h' == a + h
    ensures a' + b + h' == a + b + h && b + a' + h' == b + a + h
  {
    assert a' + b + h' == (a' + h') + b && a + b + h == (a + h) + b;
    assert b + a' + h' == b + (a' + h') && b + a + h == b + (a + h);
  }

  lemma LaterSelf(r: Ring)
    requires RingOk(r)
    ensures Later(r, r)
  {
  }

  ghost function InRings(q: Queue): multiset<nat>
    requires RingOk(q.resc) && RingOk(q.node)
  {
    multiset(Stored(q.resc)) + multiset(Stored(q.node))
  }

  /** The invariant after process p has become `proc`, with the ids accounted for. */
  lemma InvAfter(q: Queue, q': Queue, p: nat, proc: Proc)
    requires QueueInv(q) && p in q.procs && q'.procs == q.procs[p := proc]
    requires Shape(q') && |q'.nodes| == |q.nodes|
    requires LFRing.Inv(RescSys(q')) && LFRing.Inv(NodeSys(q'))
    requires InRings(q') + Holds(proc) == InRings(q) + Holds(q.procs[p])
    requires ProcOk(q', proc) && forall x :: x in q.procs && x != p ==> ProcOk(q', q.procs[x])
    ensures QueueInv(q')
  {
    hide Index, Stored, ProcOk, Holds, Held, RingOk, LocalOk, OwnerOk, InFlight;
    BothRings(q');
    HeldChange(q.procs, p, proc);
    Balance(InRings(q), Holds(q.procs[p]), InRings(q'), Holds(proc), Held(q.procs), Held(q'.procs));
  }

  /** A process that has published leaves the slot of its message behind head. */
  lemma HeadMovesPast(q: Queue, q': Queue, proc: Proc)
    requires Shape(q) && Shape(q') && q'.nodes == q.nodes && q'.dataSize == q.dataSize && q'.overwrite == q.overwrite
    requires RingOk(q.node) && RingOk(q'.node) && Later(q.node, q'.node)
    requires LocalOk(q.node, OnNode(proc)) && ProcOk(q, proc)
    ensures ProcOk(q', proc)
  {
  }

  /** One access of the ring of free nodes: process p becomes `proc`. */
  lemma RescAccessKeepsInv(q: Queue, p: nat, proc: Proc)
    requires QueueInv(q) && p in q.procs && Busy(OnResc(q.procs[p])) && OnNode(q.procs[p]) == OnNode(proc)
    requires OnResc(proc) == Step(q.resc, OnResc(q.procs[p])).1
    requires Holds(q.procs[p]) == InHand(OnResc(q.procs[p])) && Holds(proc) == InHand(OnResc(proc))
    requires ProcOk(q, proc)
    ensures QueueInv(With(q.(resc := Step(q.resc, OnResc(q.procs[p])).0), p, proc))
  {
    hide Index, Step, LocalOk, Contents, Stored, OwnerOk, Pushed, Popped, RingOk, InFlight, Holds, InHand, OnNode, OnResc;
    BothRings(q);
    var s, l := RescSys(q), OnResc(q.procs[p]);
    var r := Step(q.resc, l).0;
    var q' := With(q.(resc := r), p, proc);
    Project(q.(resc := r), p, proc);
    assert NodeSys(q') == NodeSys(q) by { assert NodeSys(q).procs[p := OnNode(proc)] == NodeSys(q).procs; }
    assert RescSys(q') == LFRing.Apply(s, LFRing.Move(p));
    StepKeepsInv(s, LFRing.Move(p));
    AccessFacts(s, p);
    LaterSelf(q.node);
    OthersKeep(q, q', p);
    AddSame(multiset(Stored(q.resc)), Holds(q.procs[p]), multiset(Stored(r)), Holds(proc), multiset(Stored(q.node)));
    InvAfter(q, q', p, proc);
  }

  /** A change of the free ring alone leaves every process what it knows. */
  lemma OthersKeep(q: Queue, q': Queue, p: nat)
    requires QueueInv(q) && Shape(q') && q'.nodes == q.nodes && q'.dataSize == q.dataSize && q'.overwrite == q.overwrite
    requires RingOk(q'.node) && Later(q.node, q'.node)
    ensures forall x :: x in q.procs && x != p ==> ProcOk(q', q.procs[x])
  {
    hide Index, Contents, Stored, RingOk, Later, LocalOk, ProcOk, Held;
    BothRings(q);
    forall x | x in q.procs && x != p
      ensures ProcOk(q', q.procs[x])
    {
      assert LocalOk(q.node, NodeSys(q).procs[x]);
      HeadMovesPast(q, q', q.procs[x]);
    }
  }

  /** One access of the ring of queued nodes: process p becomes `proc`. */
  lemma NodeAccessKeepsInv(q: Queue, p: nat, r: Ring, proc: Proc)
    requires QueueInv(q) && p in q.procs && Busy(OnNode(q.procs[p])) && OnResc(q.procs[p]) == OnResc(proc)
    requires Step(q.node, OnNode(q.procs[p])) == (r, OnNode(proc))
    requires Holds(q.procs[p]) == InHand(OnNode(q.procs[p])) && Holds(proc) == InHand(OnNode(proc))
    requires Shape(q.(node := r)) && ProcOk(q.(node := r), proc)
    ensures QueueInv(With(q.(node := r), p, proc))
  {
    hide Index, Step, LocalOk, Contents, Stored, OwnerOk, Pushed, Popped, RingOk, InFlight, Holds, InHand, OnNode, OnResc;
    BothRings(q);
    var s, l := NodeSys(q), OnNode(q.procs[p]);
    var q' := With(q.(node := r), p, proc);
    Project(q.(node := r), p, proc);
    assert RescSys(q') == RescSys(q) by { assert RescSys(q).procs[p := OnResc(proc)] == RescSys(q).procs; }
    assert NodeSys(q') == LFRing.Apply(s, LFRing.Move(p));
    StepKeepsInv(s, LFRing.Move(p));
    AccessFacts(s, p);
    OthersKeep(q, q', p);
    AddSame(multiset(Stored(q.node)), Holds(q.procs[p]), multiset(Stored(r)), Holds(proc), multiset(Stored(q.resc)));
    InvAfter(q, q', p, proc);
  }

  /** A process leaves a ring call, enters one, or touches its own data; the rings stay. */
  lemma LocalChangeKeepsInv(q: Queue, p: nat, proc: Proc)
    requires QueueInv(q) && p in q.procs
    requires Swappable(OnResc(q.procs[p]), OnResc(proc)) && Swappable(OnNode(q.procs[p]), OnNode(proc))
    requires Holds(proc) == Holds(q.procs[p])
    requires OnResc(proc).PushHead? || OnNode(proc).PushHead? ==> |Holds(q.procs[p])| == 1
    requires ProcOk(q, proc)
    ensures QueueInv(With(q, p, proc))
  {
    hide Index, Step, LocalOk, Contents, Stored, OwnerOk, Later, Pushed, Popped, RingOk, InFlight, Holds, OnNode, OnResc;
    BothRings(q);
    var q' := With(q, p, proc);
    Project(q, p, proc);
    if OnResc(proc).PushHead? || OnNode(proc).PushHead? { RoomForHeld(q, p); }
    SwapOrKeep(RescSys(q), p, OnResc(proc));
    SwapOrKeep(NodeSys(q), p, OnNode(proc));
    LaterSelf(q.node);
    OthersKeep(q, q', p);
    InvAfter(q, q', p, proc);
  }

  predicate Swappable(l: Local, l': Local) {
    !Busy(l) && (l' == l || l' == Idle || l' == StartPop || (l'.PushHead? && l' == StartPush(l'.id) && l'.id != INVALID))
  }

  lemma SwapOrKeep(s: Sys, p: nat, l: Local)
    requires LFRing.Inv(s) && p in s.procs && Swappable(s.procs[p], l)
    requires l.PushHead? ==> InFlight(s) < |s.ring.nodes|
    ensures LFRing.Inv(Sys(s.ring, s.procs[p := l]))
  {
    hide Index, Step, Contents, RingOk, LocalOk, OwnerOk;
    if s.procs[p] == l {
      assert s.procs[p := l] == s.procs;
    } else {
      SwapLocal(s, p, l);
    }
  }

  /** A process writes the node it holds: no message and no other process notices. */
  lemma WriteKeepsInv(q: Queue, p: nat, proc: Proc, id: nat, n: Node)
    requires QueueInv(q) && p in q.procs && Holds(q.procs[p]) == multiset{id} == Holds(proc)
    requires OnResc(proc) == OnResc(q.procs[p]) && OnNode(proc) == OnNode(q.procs[p])
    requires id < |q.nodes| && |n.data| == q.dataSize && n.size <= q.dataSize
    requires ProcOk(q.(nodes := q.nodes[id := n]), proc)
    ensures QueueInv(With(q.(nodes := q.nodes[id := n]), p, proc))
  {
    hide Index, Step, LocalOk, Contents, Stored, OwnerOk, Later, Pushed, Popped, RingOk, InFlight, OnNode, OnResc;
    BothRings(q);
    var q0 := q.(nodes := q.nodes[id := n]);
    var q' := With(q0, p, proc);
    Project(q0, p, proc);
    assert RescSys(q).procs[p := OnResc(proc)] == RescSys(q).procs;
    assert NodeSys(q).procs[p := OnNode(proc)] == NodeSys(q).procs;
    assert RescSys(q') == RescSys(q) && NodeSys(q') == NodeSys(q);
    forall x | x in q.procs && x != p
      ensures ProcOk(q', q.procs[x])
    {
      WriteUnnoticed(q, p, id, n, x);
    }
    InvAfter(q, q', p, proc);
  }

  lemma WriteUnnoticed(q: Queue, p: nat, id: nat, n: Node, x: nat)
    requires QueueInv(q) && p in q.procs && Holds(q.procs[p]) == multiset{id}
    requires id < |q.nodes| && |n.data| == q.dataSize && n.size <= q.dataSize
    requires x in q.procs && x != p
    ensures ProcOk(q.(nodes := q.nodes[id := n]), q.procs[x])
  {
    OnePlace(q, p, id);
    if PublishingAtHead(q, q.procs[x]) { FillerIsStored(q, x); }
    OtherNodes(q, id, n, q.procs[x]);
  }

  predicate PublishingAtHead(q: Queue, proc: Proc) {
    proc.Publishing? && proc.l.PushAdvance? && proc.l.h == q.node.head
  }

  lemma FillerIsStored(q: Queue, x: nat)
    requires QueueInv(q) && x in q.procs && PublishingAtHead(q, q.procs[x])
    ensures q.procs[x].l.id in Stored(q.node) && q.procs[x].l.id == Slot(q.node, q.node.head).id
    ensures Pushed(q.node) == q.node.head + 1
  {
    hide Index, Contents, OwnerOk, InFlight, Conserved, ProcOk, Shape;
    BothRings(q);
    var r, l := q.node, q.procs[x].l;
    assert NodeSys(q).procs[x] == l;
    assert LocalOk(r, l);
    assert Stored(r)[l.h - Popped(r)] == l.id;
  }

  lemma OtherNodes(q: Queue, id: nat, n: Node, proc: Proc)
    requires Shape(q) && ProcOk(q, proc) && id < |q.nodes| && |n.data| == q.dataSize && n.size <= q.dataSize
    requires id !in Holds(proc) && (PublishingAtHead(q, proc) ==> proc.l.id != id)
    ensures ProcOk(q.(nodes := q.nodes[id := n]), proc)
  {
  }

  /** What an access by a process of a ring system does to that process and the ids. */
  lemma AccessFacts(s: Sys, p: nat)
    requires LFRing.Inv(s) && p in s.procs && Busy(s.procs[p])
    ensures var l := s.procs[p]; var (r', l') := Step(s.ring, l);
            MoveIsSound(s.ring, l) && Conserves(s.ring, l, r', l')
    ensures var l := s.procs[p]; var l' := Step(s.ring, l).1;
            (OnPop(l) ==> OnPop(l')) && (OnPush(l) ==> OnPush(l') && l'.id == l.id)
  {
    hide Index, Contents, Stored;
    if PreFill(s.procs[p]) { PushersRoom(s, p); }
    RingStepConserves(s.ring, s.procs[p]);
  }

  // ---- Every action ---------------------------------------------------------------------

  predicate InCall(proc: Proc) {
    !proc.Ready? && !proc.Filling? && !proc.Reading? && !proc.Returned?
  }

  /** A process inside a call can always take its next step: no access leaves the node array. */
  lemma CallsAreMovable(q: Queue, p: nat)
    requires QueueInv(q) && p in q.procs
    ensures InCall(q.procs[p]) ==> Movable(q, q.procs[p])
    ensures q.procs[p].Filling? ==> q.procs[p].id < |q.nodes|
    ensures forall id :: id in Holds(q.procs[p]) ==> id < |q.nodes|
  {
    hide Index, LFRing.Inv, Conserved;
    forall id | id in Holds(q.procs[p])
      ensures id < |q.nodes|
    {
      OnePlace(q, p, id);
    }
    var proc := q.procs[p];
    assert ProcOk(q, proc);
    if proc.PushSize? || proc.PushCopy? || proc.Filling? || proc.PopSize? || proc.PopCopy? {
      assert proc.id in Holds(proc);
    } else if proc.PopNodeRing? && proc.l.PopDone? && proc.l.id != INVALID {
      assert proc.l.id in Holds(proc);
    }
  }

  lemma InitKeepsInv(q: Queue, count: nat)
    requires LFQueue.Init(q, count)
    ensures QueueInv(q)
  {
    hide Index, Step, Later;
    RingRefinement.InitKeepsInv(RescSys(q), count, count);
    RingRefinement.InitKeepsInv(NodeSys(q), count, 0);
    NobodyHolds(q.procs, q.procs.Keys);
    InitStored(count, count);
    InitStored(count, 0);
    CountingUp(count);
    assert seq(0, i => i) == [];
  }

  lemma InitStored(count: nat, initHead: nat)
    requires 0 < count <= INVALID && initHead <= count && RingOk(InitRing(count, initHead))
    ensures Stored(InitRing(count, initHead)) == seq(initHead, i => i)
  {
    var r := InitRing(count, initHead);
    forall k | 0 <= k < count
      ensures Slot(r, k) == Word(k, if k < initHead then k else INVALID)
    {
    }
    assert Slot(r, count) == Slot(r, 0);
    assert Popped(r) == 0 && Pushed(r) == initHead;
  }

  lemma {:induction false} CountingUp(n: nat)
    ensures multiset(seq(n, i => i)) == AllIds(n)
  {
    if n > 0 {
      CountingUp(n - 1);
      assert seq(n, i => i) == seq(n - 1, i => i) + [n - 1];
    }
  }

  /** The invariant holds in every reachable state of the queue. */
  lemma ActionKeepsInv(q: Queue, a: LFQueue.Action)
    requires QueueInv(q) && LFQueue.Enabled(q, a)
    ensures QueueInv(LFQueue.Apply(q, a))
  {
    hide Index, Step, QueueInv, Moved;
    match a
    case SetPause(on) => PauseKeepsInv(q, on);
    case CallPush(p, req) =>
      OutsideKeepsInv(q, p, if SizeOf(req) > q.dataSize then Returned(Code(-1)) else PushPause(req));
    case CallPop(p, inPlace) => OutsideKeepsInv(q, p, PopPause(inPlace));
    case Return(p) => OutsideKeepsInv(q, p, Proc.Ready);
    case ConfirmPop(p) => ConfirmPopKeepsInv(q, p);
    case ConfirmPush(p) => ConfirmPushKeepsInv(q, p);
    case UserWrite(p, i, b) => UserWriteKeepsInv(q, p, i, b);
    case Move(p) => MoveKeepsInv(q, p);
  }

  lemma OutsideKeepsInv(q: Queue, p: nat, proc: Proc)
    requires QueueInv(q) && p in q.procs && (q.procs[p].Ready? || q.procs[p].Returned?)
    requires proc.Ready? || proc == Returned(Code(-1)) || proc.PopPause? || (proc.PushPause? && SizeOf(proc.req) <= q.dataSize)
    ensures QueueInv(With(q, p, proc))
  {
    hide QueueInv, Shape, ProcOk, Holds, OnResc, OnNode, Swappable, With;
    OutsideIsOk(q, proc);
    OutsideSwaps(q.procs[p], proc);
    LocalChangeKeepsInv(q, p, proc);
  }

  /** Outside its calls a process is in no ring and holds nothing. */
  lemma OutsideSwaps(before: Proc, proc: Proc)
    requires (before.Ready? || before.Returned?) && (proc.Ready? || proc.Returned? || proc.PopPause? || proc.PushPause?)
    ensures Holds(proc) == Holds(before)
    ensures Swappable(OnResc(before), OnResc(proc)) && Swappable(OnNode(before), OnNode(proc))
    ensures OnResc(proc) == Idle && OnNode(proc) == Idle
  {
  }

  lemma OutsideIsOk(q: Queue, proc: Proc)
    requires QueueInv(q)
    requires proc.Ready? || proc == Returned(Code(-1)) || proc.PopPause? || (proc.PushPause? && SizeOf(proc.req) <= q.dataSize)
    ensures Shape(q) && ProcOk(q, proc)
  {
    hide RingsOk, RingOk, Conserved, Shape;
  }

  lemma UserWriteKeepsInv(q: Queue, p: nat, i: nat, b: Byte)
    requires QueueInv(q) && p in q.procs && q.procs[p].Filling? && q.procs[p].id < |q.nodes| && i < q.dataSize
    ensures QueueInv(LFQueue.Apply(q, LFQueue.UserWrite(p, i, b)))
  {
    hide Index, Step, LFRing.Inv, Conserved;
    var id := q.procs[p].id;
    assert ProcOk(q, q.procs[p]);
    WriteKeepsInv(q, p, q.procs[p].(draft := q.procs[p].draft[i := b]), id, q.nodes[id].(data := q.nodes[id].data[i := b]));
  }

  lemma PauseKeepsInv(q: Queue, on: bool)
    requires QueueInv(q)
    ensures QueueInv(q.(pause := on))
  {
    hide Index, Step, LFRing.Inv, Stored, ProcOk;
    BothRings(q);
    BothRings(q.(pause := on));
    var q' := q.(pause := on);
    assert RescSys(q') == RescSys(q) && NodeSys(q') == NodeSys(q);
    forall p | p in q.procs
      ensures ProcOk(q', q.procs[p])
    {
      SameNodesSameProc(q, q', q.procs[p]);
    }
  }

  lemma SameNodesSameProc(q: Queue, q': Queue, proc: Proc)
    requires Shape(q) && Shape(q') && ProcOk(q, proc)
    requires q'.nodes == q.nodes && q'.dataSize == q.dataSize && q'.overwrite == q.overwrite && q'.node == q.node
    ensures ProcOk(q', proc)
  {
  }

  lemma ConfirmPushKeepsInv(q: Queue, p: nat)
    requires QueueInv(q) && p in q.procs && q.procs[p].Filling? && q.procs[p].id < |q.nodes|
    ensures QueueInv(With(q, p, Publishing(Content(q.nodes[q.procs[p].id]), StartPush(q.procs[p].id))))
  {
    hide Index, Step, LFRing.Inv, Conserved;
    LocalChangeKeepsInv(q, p, Publishing(Content(q.nodes[q.procs[p].id]), StartPush(q.procs[p].id)));
  }

  lemma ConfirmPopKeepsInv(q: Queue, p: nat)
    requires QueueInv(q) && p in q.procs && q.procs[p].Reading?
    ensures QueueInv(With(q, p, GivingBack(Confirmed, StartPush(q.procs[p].id))))
  {
    hide Index, Step, LFRing.Inv, Conserved;
    assert ProcOk(q, q.procs[p]);
    LocalChangeKeepsInv(q, p, GivingBack(Confirmed, StartPush(q.procs[p].id)));
  }

  lemma MoveKeepsInv(q: Queue, p: nat)
    requires QueueInv(q) && p in q.procs && Movable(q, q.procs[p])
    ensures QueueInv(Moved(q, p))
  {
    hide Index, Step, LFRing.Inv, Conserved, Moved, ProcOk, Holds;
    if Busy(OnResc(q.procs[p])) {
      RescMoveKeepsInv(q, p);
    } else if Busy(OnNode(q.procs[p])) {
      NodeMoveKeepsInv(q, p);
    } else if WritesNode(q.procs[p]) {
      WriteMoveKeepsInv(q, p);
    } else {
      OnwardKeepsInv(q, p);
    }
  }

  lemma RescMoveKeepsInv(q: Queue, p: nat)
    requires QueueInv(q) && p in q.procs && Movable(q, q.procs[p]) && Busy(OnResc(q.procs[p]))
    ensures QueueInv(Moved(q, p))
  {
    hide Index, Step, LFRing.Inv, Conserved, InHand, OnPop, OnPush, Movable;
    RescLocal(q, p);
    var proc := q.procs[p];
    assert ProcOk(q, proc);
    var proc' := WithLocal(proc, Step(q.resc, proc.l).1);
    HoldsOnResc(proc);
    HoldsOnResc(proc');
    RescAccessKeepsInv(q, p, proc');
  }

  lemma HoldsOnResc(proc: Proc)
    requires (proc.PushResc? && OnPop(proc.l)) || (proc.GivingBack? && OnPush(proc.l))
    ensures Holds(proc) == InHand(OnResc(proc))
  {
  }

  lemma RescLocal(q: Queue, p: nat)
    requires QueueInv(q) && p in q.procs && Busy(OnResc(q.procs[p]))
    ensures var l := OnResc(q.procs[p]); var l' := Step(q.resc, l).1;
            (OnPop(l) ==> OnPop(l')) && (OnPush(l) ==> OnPush(l') && l'.id == l.id)
  {
    hide Index, Step, Conserved, ProcOk, OnResc, OnPop, OnPush, LFRing.Inv;
    BothRings(q);
    assert RescSys(q).procs[p] == OnResc(q.procs[p]);
    AccessFacts(RescSys(q), p);
  }

  lemma NodeLocal(q: Queue, p: nat)
    requires QueueInv(q) && p in q.procs && Busy(OnNode(q.procs[p]))
    ensures RingOk(q.node) && LocalOk(q.node, OnNode(q.procs[p])) && MoveIsSound(q.node, OnNode(q.procs[p]))
    ensures var l := OnNode(q.procs[p]); var l' := Step(q.node, l).1;
            (OnPop(l) ==> OnPop(l')) && (OnPush(l) ==> OnPush(l') && l'.id == l.id)
  {
    hide Index, Step, Conserved, ProcOk, OnNode, OnPop, OnPush, RingOk, LocalOk;
    BothRings(q);
    assert NodeSys(q).procs[p] == OnNode(q.procs[p]);
    AccessFacts(NodeSys(q), p);
  }

  lemma HoldsOnNode(proc: Proc)
    requires (proc.PushSteal? && OnPop(proc.l)) || (proc.Publishing? && OnPush(proc.l)) || (proc.PopNodeRing? && OnPop(proc.l))
    ensures Holds(proc) == InHand(OnNode(proc))
  {
  }

  lemma NodeMoveKeepsInv(q: Queue, p: nat)
    requires QueueInv(q) && p in q.procs && Movable(q, q.procs[p]) && Busy(OnNode(q.procs[p]))
    ensures QueueInv(Moved(q, p))
  {
    hide Index, Step, LFRing.Inv, Conserved, RingOk, LocalOk, InHand, OnPop, OnPush, Movable, Holds;
    NodeLocal(q, p);
    var proc := q.procs[p];
    assert ProcOk(q, proc);
    var (r, l') := Step(q.node, proc.l);
    var proc' := AfterNodeAccess(q, proc, l');
    HoldsOnNode(proc);
    HoldsOnNode(proc');
    NodeMoveProcOk(q, p, r, l');
    NodeAccessKeepsInv(q, p, r, proc');
  }

  /** The process knows its message: the one it carries, or the one it has just taken. */
  lemma NodeMoveProcOk(q: Queue, p: nat, r: Ring, l: Local)
    requires QueueInv(q) && p in q.procs && Busy(OnNode(q.procs[p]))
    requires Shape(q.(node := r)) && (r, l) == Step(q.node, q.procs[p].l)
    ensures ProcOk(q.(node := r), AfterNodeAccess(q, q.procs[p], l))
  {
    hide Index, LFRing.Inv, Conserved, RingOk, LocalOk, Contents, Stored, Pushed, Popped;
    assert ProcOk(q, q.procs[p]);
    NodeLocal(q, p);
    if q.procs[p].l.PopCas? && l.PopAdvance? {
      TakenIsQueued(q, p);
    }
  }

  lemma TakenIsQueued(q: Queue, p: nat)
    requires QueueInv(q) && p in q.procs && OnNode(q.procs[p]).PopCas?
    requires RingOk(q.node) && LocalOk(q.node, OnNode(q.procs[p]))
    requires var l := OnNode(q.procs[p]); Slot(q.node, l.t) == l.word
    ensures OnNode(q.procs[p]).word.id < |q.nodes|
  {
    hide Index, LFRing.Inv, Conserved, Stored, Contents;
    var l := OnNode(q.procs[p]);
    TakeFromStored(q.node, l.t, l.word);
    assert Stored(q.node)[0] == l.word.id;
    QueuedPlace(q, l.word.id);
  }

  lemma WriteMoveKeepsInv(q: Queue, p: nat)
    requires QueueInv(q) && p in q.procs && Movable(q, q.procs[p])
    requires !Busy(OnResc(q.procs[p])) && !Busy(OnNode(q.procs[p])) && WritesNode(q.procs[p])
    ensures QueueInv(Moved(q, p))
  {
    hide Index, Step, LFRing.Inv, Conserved;
    var proc := q.procs[p];
    assert ProcOk(q, proc);
    WriteKeepsInv(q, p, AfterWrite(proc), proc.id, WrittenNode(q, proc));
  }

  ghost predicate Quiet(q: Queue, proc: Proc) {
    && Shape(q) && Movable(q, proc) && ProcOk(q, proc)
    && !Busy(OnResc(proc)) && !Busy(OnNode(proc)) && !WritesNode(proc)
    && forall id :: id in Holds(proc) ==> id < |q.nodes|
  }

  lemma OnwardProcOk(q: Queue, proc: Proc)
    requires Quiet(q, proc)
    ensures ProcOk(q, Onward(q, proc))
  {
  }

  lemma OnwardHolds(q: Queue, proc: Proc)
    requires Quiet(q, proc)
    ensures HeldId(Onward(q, proc)) == HeldId(proc)
  {
  }

  lemma OnwardSwaps(q: Queue, proc: Proc)
    requires Quiet(q, proc)
    ensures Swappable(OnResc(proc), OnResc(Onward(q, proc))) && Swappable(OnNode(proc), OnNode(Onward(q, proc)))
    ensures OnResc(Onward(q, proc)).PushHead? || OnNode(Onward(q, proc)).PushHead? ==> |Holds(proc)| == 1
  {
    if proc.PopCopy? || proc.PushCopy? { assert proc.id in Holds(proc); }
  }

  lemma OnwardKeepsInv(q: Queue, p: nat)
    requires QueueInv(q) && p in q.procs && Movable(q, q.procs[p])
    requires !Busy(OnResc(q.procs[p])) && !Busy(OnNode(q.procs[p])) && !WritesNode(q.procs[p])
    ensures QueueInv(Moved(q, p))
  {
    hide Index, Step, LFRing.Inv, Conserved, Onward, OnResc, OnNode, HeldId, ProcOk, Movable, Swappable;
    CallsAreMovable(q, p);
    OnwardProcOk(q, q.procs[p]);
    OnwardHolds(q, q.procs[p]);
    OnwardSwaps(q, q.procs[p]);
    LocalChangeKeepsInv(q, p, Onward(q, q.procs[p]));
  }
}
