module QueueInvariant {
  /** In every reachable state of the queue each node id is in exactly one place: stored in the
      ring of free nodes, stored in the ring of queued nodes, or held by one process. So no two
      processes ever own the same node, and neither ring is asked to hold more than it can. */

  import opened LFRing
  import opened RingRefinement
  import opened RingSolo
  import opened LFQueue

  // ---- Counting ids ---------------------------------------------------------------------

  ghost function AllIds(n: nat): multiset<nat> {
    if n == 0 then multiset{} else AllIds(n - 1) + multiset{n - 1}
  }

  lemma {:induction false} AllIdsCount(n: nat, id: nat)
    ensures AllIds(n)[id] == if id < n then 1 else 0
  {
    if n > 0 { AllIdsCount(n - 1, id); }
  }

  lemma {:induction false} AllIdsSize(n: nat)
    ensures |AllIds(n)| == n
  {
    if n > 0 { AllIdsSize(n - 1); }
  }

  /** All the ids held by the processes in `keys`, one entry for each holder. */
  ghost function HeldBy(keys: set<nat>, procs: map<nat, Proc>): multiset<nat>
    requires keys <= procs.Keys
  {
    if keys == {} then multiset{} else
    var p :| p in keys;
    Holds(procs[p]) + HeldBy(keys - {p}, procs)
  }

  lemma {:induction false} HeldByOne(keys: set<nat>, procs: map<nat, Proc>, p: nat)
    requires keys <= procs.Keys && p in keys
    ensures HeldBy(keys, procs) == Holds(procs[p]) + HeldBy(keys - {p}, procs)
    decreases |keys|
  {
    var q :| q in keys && HeldBy(keys, procs) == Holds(procs[q]) + HeldBy(keys - {q}, procs);
    if p != q {
      HeldByOne(keys - {q}, procs, p);
      HeldByOne(keys - {p}, procs, q);
      assert keys - {q} - {p} == keys - {p} - {q};
    }
  }

  lemma {:induction false} HeldByOthers(keys: set<nat>, procs: map<nat, Proc>, p: nat, proc: Proc)
    requires keys <= procs.Keys && p in procs && p !in keys
    ensures HeldBy(keys, procs[p := proc]) == HeldBy(keys, procs)
    decreases |keys|
  {
    if keys != {} {
      var q :| q in keys;
      HeldByOne(keys, procs, q);
      HeldByOne(keys, procs[p := proc], q);
      HeldByOthers(keys - {q}, procs, p, proc);
    }
  }

  ghost function Held(procs: map<nat, Proc>): multiset<nat> {
    HeldBy(procs.Keys, procs)
  }

  lemma HeldChange(procs: map<nat, Proc>, p: nat, proc: Proc)
    requires p in procs
    ensures Held(procs[p := proc]) + Holds(procs[p]) == Held(procs) + Holds(proc)
    ensures Holds(procs[p]) <= Held(procs)
  {
    HeldByOne(procs.Keys, procs, p);
    assert procs[p := proc].Keys == procs.Keys;
    HeldByOne(procs.Keys, procs[p := proc], p);
    HeldByOthers(procs.Keys - {p}, procs, p, proc);
  }

  lemma {:induction false} HeldAtLeast(keys: set<nat>, procs: map<nat, Proc>, holders: set<nat>)
    requires keys <= procs.Keys && holders <= keys
    requires forall p :: p in holders ==> |Holds(procs[p])| >= 1
    ensures |HeldBy(keys, procs)| >= |holders|
    decreases |keys|
  {
    if holders != {} {
      var p :| p in holders;
      HeldByOne(keys, procs, p);
      HeldAtLeast(keys - {p}, procs, holders - {p});
    }
  }

  lemma NobodyHolds(procs: map<nat, Proc>, keys: set<nat>)
    requires keys <= procs.Keys && forall p :: p in keys ==> Holds(procs[p]) == multiset{}
    ensures HeldBy(keys, procs) == multiset{}
    decreases |keys|
  {
    if keys != {} {
      var p :| p in keys;
      HeldByOne(keys, procs, p);
      NobodyHolds(procs, keys - {p});
    }
  }

  // ---- The invariant --------------------------------------------------------------------

  ghost predicate Conserved(q: Queue)
    requires RingOk(q.resc) && RingOk(q.node)
  {
    multiset(Stored(q.resc)) + multiset(Stored(q.node)) + Held(q.procs) == AllIds(|q.nodes|)
  }

  predicate OnPop(l: Local) {
    Seeking(l) || l.PopAdvance? || l.PopDone?
  }

  predicate OnPush(l: Local) {
    (PreFill(l) && l.id != INVALID) || l.PushAdvance? || l.PushDone?
  }

  ghost predicate Carries(q: Queue, id: nat, msg: seq<Byte>)
    requires Shape(q)
  {
    id < |q.nodes| && Content(q.nodes[id]) == msg
  }

  /** What a process has made of the node it works on, and of the message it carries. */
  ghost predicate ProcOk(q: Queue, proc: Proc)
    requires Shape(q)
  {
    match proc
    case PushPause(req) => SizeOf(req) <= q.dataSize
    case PushResc(req, l) => SizeOf(req) <= q.dataSize && OnPop(l)
    case PushSteal(req, l) => SizeOf(req) <= q.dataSize && OnPop(l) && q.overwrite
    case PushSize(req, id) => SizeOf(req) <= q.dataSize && id != INVALID
    case Filling(id, size, draft) =>
      && id < |q.nodes| && q.nodes[id].size == size
      && forall i :: i in draft ==> i < q.dataSize && q.nodes[id].data[i] == draft[i]
    case PushCopy(buf, id, i) =>
      && id < |q.nodes| && i <= |buf| <= q.dataSize
      && q.nodes[id].size == |buf| && q.nodes[id].data[..i] == buf[..i]
    case Publishing(msg, l) =>
      OnPush(l) && (PreFill(l) || (l.PushAdvance? && l.h == q.node.head) ==> Carries(q, l.id, msg))
    case PopNodeRing(_, l, msg) => OnPop(l) && (TakenId(l) != INVALID ==> Carries(q, l.id, msg))
    case PopSize(_, id, msg) => Carries(q, id, msg)
    case PopCopy(id, size, buf, msg) => Carries(q, id, msg) && size == |msg| && |buf| <= size && buf == msg[..|buf|]
    case Reading(id, size, msg) => Carries(q, id, msg) && size == |msg|
    case GivingBack(rsp, l) => OnPush(l) && (rsp.Message? ==> rsp.size == |rsp.buf|)
    case Returned(rsp) => rsp.Message? ==> rsp.size == |rsp.buf|
    case _ => true
  }

  function RingSys(q: Queue, onNode: bool): Sys {
    if onNode then NodeSys(q) else RescSys(q)
  }

  ghost predicate RingsOk(q: Queue) {
    forall onNode: bool :: LFRing.Inv(RingSys(q, onNode))
  }

  ghost predicate QueueInv(q: Queue) {
    && Shape(q)
    && RingsOk(q)
    && RingOk(q.resc) && RingOk(q.node) && Conserved(q)
    && forall p :: p in q.procs ==> ProcOk(q, q.procs[p])
  }

  /** Both rings keep the invariant of a ring of its own. */
  lemma BothRings(q: Queue)
    ensures RingsOk(q) <==> LFRing.Inv(RescSys(q)) && LFRing.Inv(NodeSys(q))
  {
    hide LFRing.Inv;
    assert RingSys(q, true) == NodeSys(q) && RingSys(q, false) == RescSys(q);
  }

  // ---- Consequences: one place for each id ----------------------------------------------

  /** A held id is a real node, is in neither ring, and is held by nobody else. */
  lemma OnePlace(q: Queue, p: nat, id: nat)
    requires QueueInv(q) && p in q.procs && id in Holds(q.procs[p])
    ensures id < |q.nodes| && id !in Stored(q.resc) && id !in Stored(q.node)
    ensures forall p' :: p' in q.procs && p' != p ==> id !in Holds(q.procs[p'])
  {
    AllIdsCount(|q.nodes|, id);
    HeldByOne(q.procs.Keys, q.procs, p);
    var a, b, c := multiset(Stored(q.resc)), multiset(Stored(q.node)), Held(q.procs);
    assert (a + b + c)[id] == a[id] + b[id] + c[id];
    forall p' | p' in q.procs && p' != p
      ensures id !in Holds(q.procs[p'])
    {
      HeldByOne(q.procs.Keys - {p}, q.procs, p');
    }
  }

  /** An id in the ring of queued nodes is a real node, is not free, and is held by nobody. */
  lemma QueuedPlace(q: Queue, id: nat)
    requires QueueInv(q) && id in Stored(q.node)
    ensures id < |q.nodes| && id !in Stored(q.resc)
    ensures forall p :: p in q.procs ==> id !in Holds(q.procs[p])
    ensures multiset(Stored(q.node))[id] == 1
  {
    AllIdsCount(|q.nodes|, id);
    var a, b, c := multiset(Stored(q.resc)), multiset(Stored(q.node)), Held(q.procs);
    assert (a + b + c)[id] == a[id] + b[id] + c[id];
    forall p | p in q.procs
      ensures id !in Holds(q.procs[p])
    {
      HeldByOne(q.procs.Keys, q.procs, p);
    }
  }

  /** No id is ever lost: it is stored in a ring or in the hands of a process. */
  lemma SomePlace(q: Queue, id: nat)
    requires QueueInv(q) && id < |q.nodes|
    ensures id in Stored(q.resc) || id in Stored(q.node) || exists p :: p in q.procs && id in Holds(q.procs[p])
  {
    AllIdsCount(|q.nodes|, id);
    var a, b, c := multiset(Stored(q.resc)), multiset(Stored(q.node)), Held(q.procs);
    assert (a + b + c)[id] == a[id] + b[id] + c[id];
    if id in c { HeldHolder(q.procs, q.procs.Keys, id); }
  }

  lemma {:induction false} HeldHolder(procs: map<nat, Proc>, keys: set<nat>, id: nat)
    requires keys <= procs.Keys && id in HeldBy(keys, procs)
    ensures exists p :: p in keys && id in Holds(procs[p])
    decreases |keys|
  {
    var p :| p in keys;
    HeldByOne(keys, procs, p);
    if id !in Holds(procs[p]) { HeldHolder(procs, keys - {p}, id); }
  }

  lemma BringerHolds(q: Queue, proc: Proc)
    requires Shape(q) && ProcOk(q, proc)
    ensures PreFill(OnNode(proc)) || PreFill(OnResc(proc)) ==> |Holds(proc)| == 1
  {
  }

  /** Neither ring is over-filled: a process that brings an id to a ring finds room in it. */
  lemma RoomForHeld(q: Queue, p: nat)
    requires QueueInv(q) && p in q.procs && |Holds(q.procs[p])| >= 1
    ensures !PreFill(OnNode(q.procs[p])) ==> InFlight(NodeSys(q)) < |q.nodes|
    ensures !PreFill(OnResc(q.procs[p])) ==> InFlight(RescSys(q)) < |q.nodes|
  {
    var onNode := set x | x in q.procs && PreFill(OnNode(q.procs[x]));
    var onResc := set x | x in q.procs && PreFill(OnResc(q.procs[x]));
    assert Pushers(NodeSys(q).procs) == onNode;
    assert Pushers(RescSys(q).procs) == onResc;
    forall x | x in onNode || x in onResc
      ensures |Holds(q.procs[x])| == 1
    {
      BringerHolds(q, q.procs[x]);
    }
    if p !in onNode { RoomFor(q, p, onNode); }
    if p !in onResc { RoomFor(q, p, onResc); }
  }

  lemma RoomFor(q: Queue, p: nat, bringers: set<nat>)
    requires RingOk(q.resc) && RingOk(q.node) && Conserved(q)
    requires p in q.procs && |Holds(q.procs[p])| >= 1 && p !in bringers && bringers <= q.procs.Keys
    requires forall x :: x in bringers ==> |Holds(q.procs[x])| >= 1
    ensures |Stored(q.resc)| + |bringers| < |q.nodes|
    ensures |Stored(q.node)| + |bringers| < |q.nodes|
  {
    hide Holds;
    AllIdsSize(|q.nodes|);
    var a, b, c := multiset(Stored(q.resc)), multiset(Stored(q.node)), Held(q.procs);
    assert |a + b + c| == |a| + |b| + |c|;
    HeldAtLeast(q.procs.Keys, q.procs, bringers + {p});
  }
}
