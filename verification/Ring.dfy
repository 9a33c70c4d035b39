module LFRing {
  /** The lock-free ring of the shared-memory queue, as a machine with one step per shared
      read or compare-and-swap. Any number of processes take steps in any order, and a process
      that never takes another step is a process that crashed.

      The ring holds ids only. A word pairs an id with the sequence number it is stored under.
   */

  const INVALID: nat := 0xffff_ffff
  const MAX_BUSYLOOP_COUNT: nat := 2

  datatype Word = Word(stamp: nat, id: nat)

  // The all-zero word: the initial value of `expired_node`
  const ZERO: Word := Word(0, 0)

  datatype Ring = Ring(head: nat, tail: nat, nodes: seq<Word>)

  // Where one process is inside LFRing_push or LFRing_pop: the name of a constructor says
  // which shared location the process touches next.
  datatype Local =
    | Idle
    | PushHead(id: nat, busy: nat, expired: Word)
    | PushNode(id: nat, h: nat, busy: nat, expired: Word)
    | PushCas(id: nat, h: nat)
    | PushHelp(id: nat, h: nat)
    | PushAdvance(id: nat, h: nat)
    | PushDone(id: nat)
    | PopTail(busy: nat, expired: Word)
    | PopHead(t: nat, busy: nat, expired: Word)
    | PopNode(t: nat, busy: nat, expired: Word)
    | PopCas(t: nat, word: Word)
    | PopHelp(t: nat)
    | PopAdvance(t: nat, id: nat)
    | PopDone(id: nat)

  /** Inside a push or a pop. */
  predicate Busy(l: Local) {
    !l.Idle? && !l.PushDone? && !l.PopDone?
  }

  /** The slot of sequence number k in a ring of n slots; the source masks k with n - 1. */
  function Index(k: nat, n: nat): (i: nat)
    requires n > 0
    ensures i < n
  {
    if k < n then k else Index(k - n, n)
  }

  function Slot(r: Ring, k: nat): Word
    requires |r.nodes| > 0
  {
    r.nodes[Index(k, |r.nodes|)]
  }

  function SetSlot(r: Ring, k: nat, w: Word): Ring
    requires |r.nodes| > 0
  {
    r.(nodes := r.nodes[Index(k, |r.nodes|) := w])
  }

  function CasHead(r: Ring, h: nat): Ring {
    if r.head == h then r.(head := h + 1) else r
  }

  function CasTail(r: Ring, t: nat): Ring {
    if r.tail == t then r.(tail := t + 1) else r
  }

  /** LFRing_init: ids 0 .. initHead-1 are queued, the other slots are free. */
  function InitRing(count: nat, initHead: nat): Ring
    requires initHead <= count
  {
    Ring(initHead, 0, seq(count, i requires 0 <= i < count => Word(i, if i < initHead then i else INVALID)))
  }

  /** One shared access of a process that is inside a push or a pop. */
  function Step(r: Ring, l: Local): (Ring, Local)
    requires |r.nodes| > 0
  {
    match l
    case PushHead(id, busy, expired) => (r, PushNode(id, r.head, busy, expired))
    case PushNode(id, h, busy, expired) =>
      var w := Slot(r, h);
      if w == Word(h, INVALID) then (r, PushCas(id, h))
      else if expired == w then
        if busy + 1 >= MAX_BUSYLOOP_COUNT then (r, PushHelp(id, h)) else (r, PushHead(id, busy + 1, expired))
      else (r, PushHead(id, 0, w))
    case PushCas(id, h) =>
      if Slot(r, h) == Word(h, INVALID) then (SetSlot(r, h, Word(h, id)), PushAdvance(id, h))
      else (r, PushHead(id, 0, ZERO))
    case PushHelp(id, h) => (CasHead(r, h), PushHead(id, 0, ZERO))
    case PushAdvance(id, h) => (CasHead(r, h), PushDone(id))
    case PopTail(busy, expired) => (r, PopHead(r.tail, busy, expired))
    case PopHead(t, busy, expired) =>
      if t == r.head then (r, PopDone(INVALID))
      else if t > r.head then (r, PopTail(busy, expired))
      else (r, PopNode(t, busy, expired))
    case PopNode(t, busy, expired) =>
      var w := Slot(r, t);
      if w.stamp == t && w.id != INVALID then (r, PopCas(t, w))
      else if expired == w then
        if busy + 1 >= MAX_BUSYLOOP_COUNT then (r, PopHelp(t)) else (r, PopTail(busy + 1, expired))
      else (r, PopTail(0, w))
    case PopCas(t, word) =>
      if Slot(r, t) == word then (SetSlot(r, t, Word(t + |r.nodes|, INVALID)), PopAdvance(t, word.id))
      else (r, PopTail(0, ZERO))
    case PopHelp(t) => (CasTail(r, t), PopTail(0, ZERO))
    case PopAdvance(t, id) => (CasTail(r, t), PopDone(id))
    case _ => (r, l)
  }

  // ---- The two ends that matter -------------------------------------------------------

  /** The first sequence number whose slot is not filled: head, or head + 1 when the slot at
      head is filled and head has not moved yet. */
  function Pushed(r: Ring): nat
    requires |r.nodes| > 0
  {
    if Slot(r, r.head).stamp == r.head && Slot(r, r.head).id != INVALID then r.head + 1 else r.head
  }

  /** The first sequence number that is not popped: tail, or tail + 1 when the slot at tail
      is emptied and tail has not moved yet. */
  function Popped(r: Ring): nat
    requires |r.nodes| > 0
  {
    if Slot(r, r.tail).stamp == r.tail then r.tail else r.tail + 1
  }

  ghost predicate RingOk(r: Ring) {
    && |r.nodes| > 0
    && Popped(r) <= r.head
    && Pushed(r) <= Popped(r) + |r.nodes|
    && (forall k :: Popped(r) <= k < Pushed(r) ==> Slot(r, k).stamp == k && Slot(r, k).id != INVALID)
    && (forall k :: Pushed(r) <= k < Popped(r) + |r.nodes| ==> Slot(r, k) == Word(k, INVALID))
  }

  /** What a queue user sees: the ids from the pop end up to head. */
  ghost function Contents(r: Ring): seq<nat>
    requires RingOk(r)
  {
    seq(r.head - Popped(r), i requires 0 <= i < r.head - Popped(r) => Slot(r, Popped(r) + i).id)
  }

  // ---- Systems of processes -----------------------------------------------------------

  datatype Sys = Sys(ring: Ring, procs: map<nat, Local>)

  predicate PreFill(l: Local) {
    l.PushHead? || l.PushNode? || l.PushCas? || l.PushHelp?
  }

  function Pushers(procs: map<nat, Local>): set<nat> {
    set p | p in procs && PreFill(procs[p])
  }

  /** The ids inside the ring together with the ids on their way into it. */
  function InFlight(s: Sys): int
    requires |s.ring.nodes| > 0
  {
    Pushed(s.ring) - Popped(s.ring) + |Pushers(s.procs)|
  }

  ghost predicate Init(s: Sys, count: nat, initHead: nat) {
    && 0 < count <= INVALID
    && initHead <= count
    && s.ring == InitRing(count, initHead)
    && forall p :: p in s.procs ==> s.procs[p] == Idle
  }

  datatype Action =
    | CallPush(p: nat, id: nat)
    | CallPop(p: nat)
    | Move(p: nat)
    | Return(p: nat)

  ghost predicate Enabled(s: Sys, a: Action) {
    && |s.ring.nodes| > 0
    && a.p in s.procs
    && match a
       case CallPush(p, id) => s.procs[p] == Idle && id != INVALID && InFlight(s) < |s.ring.nodes|
       case CallPop(p) => s.procs[p] == Idle
       case Move(p) => Busy(s.procs[p])
       case Return(p) => s.procs[p].PushDone? || s.procs[p].PopDone?
  }

  ghost function Apply(s: Sys, a: Action): Sys
    requires Enabled(s, a)
  {
    match a
    case CallPush(p, id) => s.(procs := s.procs[p := PushHead(id, 0, ZERO)])
    case CallPop(p) => s.(procs := s.procs[p := PopTail(0, ZERO)])
    case Move(p) => var (r, l) := Step(s.ring, s.procs[p]); Sys(r, s.procs[p := l])
    case Return(p) => s.(procs := s.procs[p := Idle])
  }

  // ---- Invariant ----------------------------------------------------------------------

  /** What a process may rely on at each program point, whatever the others have done since. */
  ghost predicate LocalOk(r: Ring, l: Local)
    requires RingOk(r)
  {
    match l
    case PushHead(id, busy, _) => id != INVALID && busy < MAX_BUSYLOOP_COUNT
    case PushNode(id, h, busy, _) => id != INVALID && busy < MAX_BUSYLOOP_COUNT && h <= r.head
    case PushCas(id, h) => id != INVALID && h <= r.head
    case PushHelp(id, h) => id != INVALID && h < Pushed(r)
    case PushAdvance(id, h) => id != INVALID && h < Pushed(r) && (h == r.head ==> Slot(r, h) == Word(h, id))
    case PopTail(busy, _) => busy < MAX_BUSYLOOP_COUNT
    case PopHead(t, busy, _) => busy < MAX_BUSYLOOP_COUNT && t <= r.tail
    case PopNode(t, busy, _) => busy < MAX_BUSYLOOP_COUNT && t <= r.tail && t < r.head
    case PopCas(t, word) => t <= r.tail && t < r.head && word.stamp == t && word.id != INVALID
    case PopHelp(t) => t < Popped(r)
    case PopAdvance(t, id) => t < Popped(r) && id != INVALID
    case _ => true
  }

  // A slot that is filled while head lags has exactly one process that filled it.
  ghost predicate OwnerOk(s: Sys)
    requires RingOk(s.ring)
  {
    && (Pushed(s.ring) == s.ring.head + 1 ==> exists p :: AtHead(s, p))
    && (forall p, q :: AtHead(s, p) && AtHead(s, q) ==> p == q)
  }

  /** Process p filled the slot at head and head has not passed it. */
  ghost predicate AtHead(s: Sys, p: nat) {
    p in s.procs && s.procs[p].PushAdvance? && s.procs[p].h == s.ring.head
  }

  ghost predicate Inv(s: Sys) {
    && RingOk(s.ring)
    && (forall p :: p in s.procs ==> LocalOk(s.ring, s.procs[p]))
    && OwnerOk(s)
    && InFlight(s) <= |s.ring.nodes|
  }

  // ---- Facts about slots --------------------------------------------------------------

  lemma RemainderIsUnique(n: nat, a: int, x: nat, b: int, y: nat)
    requires x < n && y < n && n * a + x == n * b + y
    ensures x == y
  {
    var d := a - b;
    assert n * d == n * a - n * b;
    assert d >= 1 ==> n * d >= n;
    assert d <= -1 ==> n * d <= 0 - n;
  }

  lemma RemainderWraps(k: nat, n: nat)
    requires n > 0 && k >= n
    ensures (k - n) % n == k % n
  {
    var q, p := (k - n) / n, k / n;
    var x, y := (k - n) % n, k % n;
    assert k - n == n * q + x && k == n * p + y;
    assert n * (q + 1) == n * q + n;
    RemainderIsUnique(n, q + 1, x, p, y);
  }

  lemma {:induction false} IndexIsModulo(k: nat, n: nat)
    requires n > 0
    ensures Index(k, n) == k % n
  {
    if k >= n {
      IndexIsModulo(k - n, n);
      RemainderWraps(k, n);
    }
  }

  lemma {:induction false} SameSlotMeansFarApart(j: nat, k: nat, n: nat)
    requires n > 0 && j < k && Index(j, n) == Index(k, n)
    ensures k >= j + n
  {
    if j >= n { SameSlotMeansFarApart(j - n, k - n, n); }
  }

  /** Inside one window of n sequence numbers, writing slot k changes slot k only. */
  lemma SetSlotFrame(r: Ring, k: nat, w: Word, j: nat)
    requires |r.nodes| > 0 && j < k + |r.nodes| && k < j + |r.nodes|
    ensures Slot(SetSlot(r, k, w), j) == if j == k then w else Slot(r, j)
  {
    var n := |r.nodes|;
    if j != k && Index(j, n) == Index(k, n) {
      if j < k { SameSlotMeansFarApart(j, k, n); } else { SameSlotMeansFarApart(k, j, n); }
    }
  }

  lemma SlotWraps(r: Ring, k: nat)
    requires |r.nodes| > 0
    ensures Slot(r, k + |r.nodes|) == Slot(r, k)
  {
  }

  /** A slot never shows a sequence number that was popped before: the number in it belongs
      to the current window. */
  lemma {:induction false} PoppedSlotIsStale(r: Ring, t: nat)
    requires RingOk(r) && t < Popped(r)
    ensures Slot(r, t).stamp > t
    decreases Popped(r) - t
  {
    var k := t + |r.nodes|;
    if k < Popped(r) {
      PoppedSlotIsStale(r, k);
    } else {
      assert Slot(r, k).stamp == k;
    }
  }

  // ---- The four changes a step can make to the ring -----------------------------------

  ghost predicate Later(r: Ring, r': Ring)
    requires RingOk(r) && RingOk(r')
  {
    && |r'.nodes| == |r.nodes|
    && r.head <= r'.head && r.tail <= r'.tail
    && Pushed(r) <= Pushed(r') && Popped(r) <= Popped(r')
    && (r'.head < Pushed(r) ==> r'.head == r.head && Slot(r', r.head) == Slot(r, r.head))
  }

  /** Nothing another process has learned is ever undone. */
  lemma LocalStable(r: Ring, r': Ring, l: Local)
    requires RingOk(r) && RingOk(r') && Later(r, r') && LocalOk(r, l)
    ensures LocalOk(r', l)
  {
    hide Index;
  }

  lemma FillSlot(r: Ring, h: nat, id: nat)
    requires RingOk(r) && h <= r.head && id != INVALID
    requires Slot(r, h) == Word(h, INVALID)
    requires Pushed(r) < Popped(r) + |r.nodes|
    ensures h == r.head == Pushed(r)
    ensures var r' := SetSlot(r, h, Word(h, id));
            && RingOk(r') && Later(r, r')
            && Pushed(r') == h + 1 && Popped(r') == Popped(r)
            && Slot(r', h) == Word(h, id)
            && Contents(r') == Contents(r)
  {
    hide Index;
    if h < Popped(r) { PoppedSlotIsStale(r, h); }
    var r' := SetSlot(r, h, Word(h, id));
    forall k | Popped(r) <= k < Popped(r) + |r.nodes|
      ensures Slot(r', k) == if k == h then Word(h, id) else Slot(r, k)
    {
      SetSlotFrame(r, h, Word(h, id), k);
    }
    SetSlotFrame(r, h, Word(h, id), r.head);
    if r.tail < Popped(r) {
      SlotWraps(r, r.tail);
      SlotWraps(r', r.tail);
      if h == r.tail + |r.nodes| {
        assert Slot(r', r.tail).stamp == h;
      } else {
        SetSlotFrame(r, h, Word(h, id), r.tail + |r.nodes|);
      }
    } else {
      SetSlotFrame(r, h, Word(h, id), r.tail);
    }
    assert Popped(r') == Popped(r);
  }

  lemma EmptySlot(r: Ring, t: nat, w: Word)
    requires RingOk(r) && t <= r.tail && t < r.head
    requires Slot(r, t) == w && w.stamp == t && w.id != INVALID
    ensures t == r.tail == Popped(r)
    ensures var r' := SetSlot(r, t, Word(t + |r.nodes|, INVALID));
            && RingOk(r') && Later(r, r')
            && Popped(r') == t + 1 && Pushed(r') == Pushed(r)
            && Contents(r) == [w.id] + Contents(r')
  {
    hide Index;
    if t < Popped(r) { PoppedSlotIsStale(r, t); }
    var w' := Word(t + |r.nodes|, INVALID);
    var r' := SetSlot(r, t, w');
    forall k | Popped(r) <= k < Popped(r) + |r.nodes|
      ensures Slot(r', k) == if k == t then w' else Slot(r, k)
    {
      SetSlotFrame(r, t, w', k);
    }
    SlotWraps(r', t);
    if r.head == t + |r.nodes| {
      SlotWraps(r, t);
    } else {
      SetSlotFrame(r, t, w', r.head);
    }
    assert Popped(r') == t + 1;
    assert Pushed(r') == Pushed(r);
  }

  lemma AdvanceHead(r: Ring, h: nat)
    requires RingOk(r) && h < Pushed(r)
    ensures var r' := CasHead(r, h);
            && RingOk(r') && Later(r, r')
            && Pushed(r') == Pushed(r) && Popped(r') == Popped(r)
            && h < r'.head
            && Contents(r') == if h == r.head then Contents(r) + [Slot(r, h).id] else Contents(r)
  {
    hide Index;
    var r' := CasHead(r, h);
    if h == r.head {
      if Pushed(r) == Popped(r) + |r.nodes| {
        SlotWraps(r, Popped(r));
        assert Slot(r, h + 1).stamp == Popped(r);
      } else {
        assert Slot(r, h + 1) == Word(h + 1, INVALID);
      }
      assert Slot(r', h + 1) == Slot(r, h + 1);
      assert forall k :: Slot(r', k) == Slot(r, k);
    }
  }

  lemma AdvanceTail(r: Ring, t: nat)
    requires RingOk(r) && t < Popped(r)
    ensures var r' := CasTail(r, t);
            && RingOk(r') && Later(r, r')
            && Pushed(r') == Pushed(r) && Popped(r') == Popped(r)
            && Contents(r') == Contents(r)
  {
    hide Index;
    var r' := CasTail(r, t);
    if t == r.tail {
      assert Slot(r, t + 1).stamp == t + 1;
      assert Slot(r', t + 1) == Slot(r, t + 1);
      assert Popped(r') == t + 1;
      assert forall k :: Slot(r', k) == Slot(r, k);
    }
  }

  /** Helping at head is safe exactly when the slot at head is filled; a push into a full ring
      would help head past an id that nobody pushed. */
  lemma HelpIsSafeIffFilled(r: Ring)
    requires RingOk(r)
    ensures RingOk(CasHead(r, r.head)) <==> Pushed(r) == r.head + 1
  {
    hide Index, Contents;
    if Pushed(r) == r.head + 1 {
      AdvanceHead(r, r.head);
    } else {
      var r' := CasHead(r, r.head);
      assert Popped(r') == Popped(r);
      assert Slot(r', r.head) == Slot(r, r.head);
      assert Popped(r') <= r.head < r'.head <= Pushed(r');
    }
  }
}
