module QueueRefinement {
  /** What the users of LFQueue see: one FIFO queue of messages. Every step of every process is
      at most one atomic event of the mailbox below, so messages arrive intact, in the order in
      which they were published, each taken once; and only the overwrite mode ever discards a
      message, always the oldest one. */

  import opened LFRing
  import opened RingRefinement
  import opened RingSolo
  import opened LFQueue
  import opened QueueInvariant
  import opened QueueSteps

  // ---- The specification ----------------------------------------------------------------

  type Payload = seq<Byte>

  // What a call asks for
  datatype Ask = PutMessage(msg: Payload) | PutInPlace(size: nat) | GetMessage(inPlace: bool)

  // What a caller is about; `full` says that a sender has seen no free node, `draft` what it has
  // written in place
  datatype Status =
    | Outside
    | Asking(ask: Ask)
    | Preparing(size: nat, draft: map<nat, Byte>, full: bool)
    | Sending(msg: Payload, full: bool)
    | Sent
    | Receiving(inPlace: bool)
    | Delivered(msg: Payload, inPlace: bool)
    | Refused(code: int)
    | Released

  // `free` is how many free nodes can be seen, `nodeSize` how long a message can be
  datatype Mailbox = Mailbox(queue: seq<Payload>, free: nat, nodeSize: nat, overwrite: bool, paused: bool, calls: map<nat, Status>)

  datatype Event =
    | Silent
    | Pause(on: bool)
    | Reserve(p: nat)
    | Restore(p: nat)
    | FindFull(p: nat)
    | Begin(p: nat, ask: Ask)
    | Enter(p: nat)
    | FindNone(p: nat)
    | Fill(p: nat, i: nat, b: Byte)
    | Commit(p: nat, msg: Payload)
    | Publish(p: nat)
    | Take(p: nat)
    | Discard(p: nat)
    | Refuse(p: nat, code: int)
    | Release(p: nat)
    | Finish(p: nat)

  predicate Asks(status: Status) {
    status.Sending? || status.Preparing?
  }

  function WithFull(status: Status, full: bool): Status
    requires Asks(status)
  {
    if status.Sending? then Sending(status.msg, full) else Preparing(status.size, status.draft, full)
  }

  predicate TooLarge(ask: Ask, nodeSize: nat) {
    match ask
    case PutMessage(msg) => |msg| > nodeSize
    case PutInPlace(size) => size > nodeSize
    case GetMessage(_) => false
  }

  function Entered(ask: Ask): Status {
    match ask
    case PutMessage(msg) => Sending(msg, false)
    case PutInPlace(size) => Preparing(size, map[], false)
    case GetMessage(inPlace) => Receiving(inPlace)
  }

  /** A sender is refused only while the mailbox is paused, or when it sees no free node, or in
      overwrite mode when after that it sees no message to discard either. */
  predicate MayRefuse(m: Mailbox, before: Status, code: int) {
    if code == -3 then m.paused && before.Asking?
    else
      && Asks(before)
      && if m.overwrite then code == -1 && before.full && m.queue == [] else code == -2 && m.free == 0
  }

  /** What a sender commits has the size it asked for, and every byte it wrote. */
  predicate IsDraft(msg: Payload, size: nat, draft: map<nat, Byte>) {
    |msg| == size && forall i :: i in draft && i < size ==> msg[i] == draft[i]
  }

  ghost predicate MailStep(m: Mailbox, e: Event, m': Mailbox) {
    if e == Silent then m' == m else
    if e.Pause? then m' == m.(paused := e.on) else
    && e.p in m.calls
    && var before := m.calls[e.p];
       match e
       case Begin(p, ask) =>
         before == Outside && m' == m.(calls := m.calls[p := if TooLarge(ask, m.nodeSize) then Refused(-1) else Asking(ask)])
       case Enter(p) => before.Asking? && !m.paused && m' == m.(calls := m.calls[p := Entered(before.ask)])
       case FindNone(p) =>
         before.Receiving? && m.queue == [] && m' == m.(calls := m.calls[p := Asking(GetMessage(before.inPlace))])
       case Reserve(p) => Asks(before) && !before.full && m.free > 0 && m' == m.(free := m.free - 1)
       case FindFull(p) =>
         && Asks(before) && !before.full && m.overwrite && m.free == 0
         && m' == m.(calls := m.calls[p := WithFull(before, true)])
       case Restore(p) => m' == m.(free := m.free + 1)
       case Fill(p, i, b) =>
         && before.Preparing? && !before.full && i < m.nodeSize
         && m' == m.(calls := m.calls[p := before.(draft := before.draft[i := b])])
       case Commit(p, msg) =>
         && before.Preparing? && !before.full && IsDraft(msg, before.size, before.draft)
         && m' == m.(calls := m.calls[p := Sending(msg, false)])
       case Publish(p) =>
         before.Sending? && !before.full && m' == m.(queue := m.queue + [before.msg], calls := m.calls[p := Sent])
       case Take(p) =>
         && before.Receiving? && m.queue != []
         && m' == m.(queue := m.queue[1..], calls := m.calls[p := Delivered(m.queue[0], before.inPlace)])
       case Discard(p) =>
         && m.overwrite && Asks(before) && before.full && m.queue != []
         && m' == m.(queue := m.queue[1..], calls := m.calls[p := WithFull(before, false)])
       case Refuse(p, code) => MayRefuse(m, before, code) && m' == m.(calls := m.calls[p := Refused(code)])
       case Release(p) => before.Delivered? && before.inPlace && m' == m.(calls := m.calls[p := Released])
       case Finish(p) =>
         && (before.Sent? || (before.Delivered? && !before.inPlace) || before.Refused? || before.Released?)
         && m' == m.(calls := m.calls[p := Outside])
       case _ => false
  }

  // ---- What a state of the queue shows --------------------------------------------------

  function ResponseStatus(rsp: Response): Status {
    match rsp
    case Code(code) => if code == 0 then Sent else Refused(code)
    case Message(buf, _) => Delivered(buf, false)
    case Confirmed => Released
  }

  function AskOf(req: Request): Ask {
    if req.Whole? then PutMessage(req.buf) else PutInPlace(req.size)
  }

  function RequestStatus(req: Request, full: bool): Status {
    if req.Whole? then Sending(req.buf, full) else Preparing(req.size, map[], full)
  }

  function StatusOf(head: nat, overwrite: bool, proc: Proc): Status {
    match proc
    case Ready => Outside
    case PushPause(req) => Asking(AskOf(req))
    case PushResc(req, l) => if l == PopDone(INVALID) && !overwrite then Refused(-2) else RequestStatus(req, l == PopDone(INVALID))
    case PushSteal(req, l) => if l == PopDone(INVALID) then Refused(-1) else RequestStatus(req, TakenId(l) == INVALID)
    case PushSize(req, _) => RequestStatus(req, false)
    case PushCopy(buf, _, _) => Sending(buf, false)
    case Filling(_, size, draft) => Preparing(size, draft, false)
    case Publishing(msg, l) => if l.PushDone? || (l.PushAdvance? && l.h < head) then Sent else Sending(msg, false)
    case PopPause(inPlace) => Asking(GetMessage(inPlace))
    case PopNodeRing(inPlace, l, msg) =>
      if TakenId(l) != INVALID then Delivered(msg, inPlace) else if l == PopDone(INVALID) then Asking(GetMessage(inPlace)) else Receiving(inPlace)
    case PopSize(inPlace, _, msg) => Delivered(msg, inPlace)
    case PopCopy(_, _, _, msg) => Delivered(msg, false)
    case Reading(_, _, msg) => Delivered(msg, true)
    case GivingBack(rsp, _) => ResponseStatus(rsp)
    case Returned(rsp) => ResponseStatus(rsp)
  }

  function MessageAt(nodes: seq<Node>, id: nat): Payload {
    if id < |nodes| && nodes[id].size <= |nodes[id].data| then Content(nodes[id]) else []
  }

  ghost function MessagesOf(nodes: seq<Node>, ids: seq<nat>): seq<Payload> {
    seq(|ids|, i requires 0 <= i < |ids| => MessageAt(nodes, ids[i]))
  }

  ghost function Visible(r: Ring): seq<nat> {
    if RingOk(r) then Contents(r) else []
  }

  ghost function CallsOf(q: Queue): map<nat, Status> {
    map p | p in q.procs :: StatusOf(q.node.head, q.overwrite, q.procs[p])
  }

  ghost function Show(q: Queue): Mailbox {
    Mailbox(MessagesOf(q.nodes, Visible(q.node)), |Visible(q.resc)|, q.dataSize, q.overwrite, q.pause, CallsOf(q))
  }

  ghost function EventOf(q: Queue, a: LFQueue.Action): Event
    requires LFQueue.Enabled(q, a)
  {
    match a
    case SetPause(on) => Pause(on)
    case UserWrite(p, i, b) => Fill(p, i, b)
    case CallPush(p, req) => Begin(p, AskOf(req))
    case CallPop(p, inPlace) => Begin(p, GetMessage(inPlace))
    case ConfirmPush(p) => Commit(p, MessageAt(q.nodes, q.procs[p].id))
    case ConfirmPop(p) => Release(p)
    case Return(p) => Finish(p)
    case Move(p) => MoveEvent(q, p)
  }

  ghost function MoveEvent(q: Queue, p: nat): Event
    requires |q.node.nodes| > 0 && |q.resc.nodes| > 0 && p in q.procs
  {
    if Busy(OnResc(q.procs[p])) then RescEvent(q, p)
    else if Busy(OnNode(q.procs[p])) then NodeEvent(q, p)
    else OnwardEvent(q, p)
  }

  /** A publication helped along by another process is credited to the one that filled the slot. */
  ghost function NodeEvent(q: Queue, p: nat): Event
    requires |q.node.nodes| > 0 && p in q.procs
  {
    var proc, l := q.procs[p], OnNode(q.procs[p]);
    if Publishes(q.node, l) then Publish(Publisher(q))
    else if Takes(q.node, l) then if proc.PushSteal? then Discard(p) else Take(p)
    else if FindsNone(q.node, l) then if proc.PushSteal? then Refuse(p, -1) else FindNone(p)
    else Silent
  }

  ghost function RescEvent(q: Queue, p: nat): Event
    requires |q.resc.nodes| > 0 && p in q.procs
  {
    var l := OnResc(q.procs[p]);
    if Publishes(q.resc, l) then Restore(p)
    else if Takes(q.resc, l) then Reserve(p)
    else if FindsNone(q.resc, l) then if q.overwrite then FindFull(p) else Refuse(p, -2)
    else Silent
  }

  predicate Publishes(r: Ring, l: Local) {
    (l.PushHelp? || l.PushAdvance?) && l.h == r.head
  }

  predicate Takes(r: Ring, l: Local)
    requires |r.nodes| > 0
  {
    l.PopCas? && Slot(r, l.t) == l.word
  }

  /** The load of head that finds nothing to pop. */
  predicate FindsNone(r: Ring, l: Local) {
    l.PopHead? && l.t == r.head
  }

  ghost function Publisher(q: Queue): nat {
    if exists p :: AtHead(NodeSys(q), p) then var p: nat :| AtHead(NodeSys(q), p); p else 0
  }

  function OnwardEvent(q: Queue, p: nat): Event
    requires p in q.procs
  {
    match q.procs[p]
    case PushPause(_) => if q.pause then Refuse(p, -3) else Enter(p)
    case PopPause(_) => if q.pause then Refuse(p, -3) else Enter(p)
    case _ => Silent
  }

  // ---- Steps that leave the ring of queued nodes alone ------------------------------------

  lemma CallsAfter(q: Queue, q': Queue, p: nat, proc: Proc)
    requires p in q.procs && q'.procs == q.procs[p := proc] && q'.node.head == q.node.head && q'.overwrite == q.overwrite
    ensures CallsOf(q') == CallsOf(q)[p := StatusOf(q.node.head, q.overwrite, proc)]
  {
  }

  lemma CallsKept(q: Queue, q': Queue, p: nat, proc: Proc)
    requires p in q.procs && q'.procs == q.procs[p := proc] && q'.node.head == q.node.head && q'.overwrite == q.overwrite
    requires StatusOf(q.node.head, q.overwrite, proc) == StatusOf(q.node.head, q.overwrite, q.procs[p])
    ensures CallsOf(q') == CallsOf(q)
  {
    CallsAfter(q, q', p, proc);
  }

  lemma VisibleIsStored(q: Queue, id: nat)
    requires RingOk(q.node) && id in Contents(q.node)
    ensures id in Stored(q.node)
  {
    var i :| 0 <= i < |Contents(q.node)| && Contents(q.node)[i] == id;
    assert Stored(q.node)[i] == id;
  }

  /** A node that a process holds is not part of any visible message. */
  lemma WriteKeepsMessages(q: Queue, p: nat, id: nat, n: Node)
    requires QueueInv(q) && p in q.procs && id in Holds(q.procs[p]) && id < |q.nodes|
    ensures MessagesOf(q.nodes[id := n], Visible(q.node)) == MessagesOf(q.nodes, Visible(q.node))
  {
    hide Index, Contents, Stored, RingOk, Holds, MessageAt, LFRing.Inv, Conserved, ProcOk, Shape;
    OnePlace(q, p, id);
    var ids := Visible(q.node);
    forall i | 0 <= i < |ids|
      ensures ids[i] != id
    {
      assert ids == Contents(q.node) by { NodeRingOk(q); }
      NodeRingOk(q);
      VisibleIsStored(q, ids[i]);
    }
    OtherMessages(q.nodes, ids, id, n);
  }

  lemma NodeRingOk(q: Queue)
    requires QueueInv(q)
    ensures RingOk(q.node) && Visible(q.node) == Contents(q.node)
  {
    hide Index, Contents, RingOk, Conserved, ProcOk, Shape;
  }

  lemma OtherMessages(nodes: seq<Node>, ids: seq<nat>, id: nat, n: Node)
    requires id < |nodes| && forall i :: 0 <= i < |ids| ==> ids[i] != id
    ensures MessagesOf(nodes[id := n], ids) == MessagesOf(nodes, ids)
  {
    forall i | 0 <= i < |ids|
      ensures MessageAt(nodes[id := n], ids[i]) == MessageAt(nodes, ids[i])
    {
    }
  }

  lemma WriteRefines(q: Queue, p: nat)
    requires QueueInv(q) && p in q.procs && Movable(q, q.procs[p])
    requires !Busy(OnResc(q.procs[p])) && !Busy(OnNode(q.procs[p])) && WritesNode(q.procs[p])
    ensures Show(Moved(q, p)) == Show(q)
  {
    hide Index, Contents, Stored, RingOk, LFRing.Inv, Conserved, MessagesOf, Visible, CallsOf, WrittenNode;
    var proc, q' := q.procs[p], Moved(q, p);
    assert ProcOk(q, proc);
    assert proc.id in Holds(proc);
    WriteKeepsMessages(q, p, proc.id, WrittenNode(q, proc));
    CallsKept(q, q', p, AfterWrite(proc));
  }

  lemma OnwardRefines(q: Queue, p: nat)
    requires QueueInv(q) && p in q.procs && Movable(q, q.procs[p])
    requires !Busy(OnResc(q.procs[p])) && !Busy(OnNode(q.procs[p])) && !WritesNode(q.procs[p])
    ensures MailStep(Show(q), OnwardEvent(q, p), Show(Moved(q, p)))
  {
    hide Index, Contents, Stored, RingOk, LFRing.Inv, Conserved, Holds, Onward, ProcOk, Movable, MessagesOf, Visible;
    var proc, q' := q.procs[p], Moved(q, p);
    OnwardStatus(q, p);
    CallsAfter(q, q', p, Onward(q, proc));
    if OnwardEvent(q, p) == Silent { CallsKept(q, q', p, Onward(q, proc)); }
  }

  lemma OnwardStatus(q: Queue, p: nat)
    requires Shape(q) && p in q.procs && Movable(q, q.procs[p]) && ProcOk(q, q.procs[p])
    requires !Busy(OnResc(q.procs[p])) && !Busy(OnNode(q.procs[p])) && !WritesNode(q.procs[p])
    ensures var before := StatusOf(q.node.head, q.overwrite, q.procs[p]); var after := StatusOf(q.node.head, q.overwrite, Onward(q, q.procs[p]));
            match OnwardEvent(q, p)
            case Silent => after == before
            case Refuse(x, code) => x == p && after == Refused(code) && code == -3 && q.pause && before.Asking?
            case Enter(x) => x == p && !q.pause && before.Asking? && after == Entered(before.ask)
            case _ => false
  {
  }

  // ---- Steps in the ring of free nodes -------------------------------------------------------

  lemma RescRefines(q: Queue, p: nat)
    requires QueueInv(q) && p in q.procs && Movable(q, q.procs[p]) && Busy(OnResc(q.procs[p]))
    ensures |q.resc.nodes| > 0 && MailStep(Show(q), RescEvent(q, p), Show(Moved(q, p)))
  {
    hide Index, Step, RingOk, LFRing.Inv, Conserved, LocalOk, Holds, Movable, ProcOk, Contents, MessagesOf, CallsOf, MoveIsSound, Publishes, Takes,
      FindsNone, MailStep, Show, StatusOf;
    var proc, q' := q.procs[p], Moved(q, p);
    RescSlots(q, p);
    RescLocal(q, p);
    RescMoves(q, p);
    VisibleAfter(q.resc, proc.l);
    RescStatus(q, proc);
    OneKind(q.resc, proc.l);
    CallsAfter(q, q', p, WithLocal(proc, Step(q.resc, proc.l).1));
    CallsShown(q, p);
    RescShown(q, q', p);
  }

  lemma RescSlots(q: Queue, p: nat)
    requires QueueInv(q) && p in q.procs && Busy(OnResc(q.procs[p]))
    ensures Shape(q) && |q.resc.nodes| > 0 && RingOk(q.resc) && RingOk(q.node) && ProcOk(q, q.procs[p])
    ensures LocalOk(q.resc, OnResc(q.procs[p])) && MoveIsSound(q.resc, OnResc(q.procs[p]))
  {
    hide Index, Step, Conserved, ProcOk, OnResc, RingOk, LocalOk;
    BothRings(q);
    assert RescSys(q).procs[p] == OnResc(q.procs[p]);
    AccessFacts(RescSys(q), p);
  }

  lemma RescMoves(q: Queue, p: nat)
    requires Shape(q) && p in q.procs && Movable(q, q.procs[p]) && Busy(OnResc(q.procs[p]))
    ensures q.procs[p].PushResc? || q.procs[p].GivingBack?
    ensures q.procs[p].l == OnResc(q.procs[p])
    ensures Moved(q, p) == With(q.(resc := Step(q.resc, q.procs[p].l).0), p, WithLocal(q.procs[p], Step(q.resc, q.procs[p].l).1))
  {
    hide Step, Shape;
  }

  /** How an access changes what can be seen of a ring. */
  lemma VisibleAfter(r: Ring, l: Local)
    requires RingOk(r) && LocalOk(r, l) && MoveIsSound(r, l) && Busy(l)
    ensures var seen, seen' := Visible(r), Visible(Step(r, l).0);
            if Publishes(r, l) then |seen'| == |seen| + 1
            else if Takes(r, l) then |seen| == |seen'| + 1
            else seen' == seen && (FindsNone(r, l) ==> seen == [])
  {
    hide Index, RingOk, Contents;
    if Publishes(r, l) {
      PublishContents(r, l);
    } else if Takes(r, l) {
      TakeContents(r, l);
    } else {
      QuietContents(r, l);
      if FindsNone(r, l) { NoneVisible(r, l); }
    }
  }

  lemma OneKind(r: Ring, l: Local)
    requires |r.nodes| > 0
    ensures FindsNone(r, l) ==> !Publishes(r, l) && !Takes(r, l)
  {
  }

  lemma NoneVisible(r: Ring, l: Local)
    requires RingOk(r) && LocalOk(r, l) && FindsNone(r, l)
    ensures Contents(r) == []
  {
    hide Index;
  }

  function AfterNone(before: Status, overwrite: bool): Status {
    if !overwrite then Refused(-2) else if Asks(before) then WithFull(before, true) else before
  }

  lemma RescStatus(q: Queue, proc: Proc)
    requires |q.resc.nodes| > 0 && Shape(q) && ProcOk(q, proc) && (proc.PushResc? || proc.GivingBack?) && Busy(proc.l)
    requires RingOk(q.resc) && LocalOk(q.resc, proc.l)
    ensures var before := StatusOf(q.node.head, q.overwrite, proc);
            var after := StatusOf(q.node.head, q.overwrite, WithLocal(proc, Step(q.resc, proc.l).1));
            && (Takes(q.resc, proc.l) || FindsNone(q.resc, proc.l) ==> Asks(before) && !before.full)
            && after == if FindsNone(q.resc, proc.l) then AfterNone(before, q.overwrite) else before
  {
    hide Index, Shape, RingOk;
  }

  lemma RescShown(q: Queue, q': Queue, p: nat)
    requires |q.resc.nodes| > 0 && p in q.procs && p in CallsOf(q) && CallsOf(q)[p] == StatusOf(q.node.head, q.overwrite, q.procs[p])
    requires q'.nodes == q.nodes && q'.node == q.node && q'.dataSize == q.dataSize && q'.overwrite == q.overwrite && q'.pause == q.pause
    requires var l := OnResc(q.procs[p]); var seen, seen' := Visible(q.resc), Visible(q'.resc);
             if Publishes(q.resc, l) then |seen'| == |seen| + 1
             else if Takes(q.resc, l) then |seen| == |seen'| + 1
             else seen' == seen && (FindsNone(q.resc, l) ==> seen == [])
    requires var l, before := OnResc(q.procs[p]), CallsOf(q)[p];
             && (Takes(q.resc, l) || FindsNone(q.resc, l) ==> Asks(before) && !before.full)
             && (FindsNone(q.resc, l) ==> !Publishes(q.resc, l) && !Takes(q.resc, l))
             && CallsOf(q') == CallsOf(q)[p := if FindsNone(q.resc, l) then AfterNone(before, q.overwrite) else before]
    ensures MailStep(Show(q), RescEvent(q, p), Show(q'))
  {
    hide Index, RingOk, Contents, StatusOf, MessagesOf, Visible, CallsOf, Publishes, Takes, FindsNone, OnResc;
  }

  // ---- Steps in the ring of queued nodes ---------------------------------------------------

  lemma NodeRefines(q: Queue, p: nat)
    requires QueueInv(q) && p in q.procs && Movable(q, q.procs[p]) && Busy(OnNode(q.procs[p]))
    ensures MailStep(Show(q), NodeEvent(q, p), Show(Moved(q, p)))
  {
    hide Index, QueueInv, Shape, Movable, Moved, Show, Publishes, Takes, FindsNone, MailStep, Publisher;
    SlotsExist(q);
    var l := OnNode(q.procs[p]);
    if Publishes(q.node, l) {
      PublishRefines(q, p);
    } else if Takes(q.node, l) {
      TakeRefines(q, p);
    } else {
      QuietRefines(q, p);
    }
  }

  lemma SlotsExist(q: Queue)
    requires QueueInv(q)
    ensures Shape(q) && |q.node.nodes| > 0
  {
    hide LFRing.Inv, Conserved, ProcOk;
  }

  lemma QuietRefines(q: Queue, p: nat)
    requires QueueInv(q) && p in q.procs && Movable(q, q.procs[p]) && Busy(OnNode(q.procs[p]))
    requires |q.node.nodes| > 0 && !Publishes(q.node, OnNode(q.procs[p])) && !Takes(q.node, OnNode(q.procs[p]))
    ensures MailStep(Show(q), NodeEvent(q, p), Show(Moved(q, p)))
  {
    hide Index, Step, RingOk, LFRing.Inv, Conserved, LocalOk, ProcOk, Contents, MessagesOf, StatusOf, AfterNodeAccess, MoveIsSound, Publishes, Takes,
      FindsNone, MailStep, CallsOf;
    var proc, q' := q.procs[p], Moved(q, p);
    NodeLocal(q, p);
    QuietContents(q.node, proc.l);
    if FindsNone(q.node, proc.l) { NoneVisible(q.node, proc.l); }
    assert ProcOk(q, proc);
    QuietStatus(q, proc);
    CallsAfter(q, q', p, AfterNodeAccess(q, proc, Step(q.node, proc.l).1));
    CallsShown(q, p);
    QuietShown(q, q', p);
  }

  /** Who finds the ring of queued nodes empty, and what becomes of it. */
  predicate NoneFor(proc: Proc, overwrite: bool, before: Status) {
    if proc.PushSteal? then overwrite && Asks(before) && before.full else before.Receiving?
  }

  function NoneStatus(proc: Proc, before: Status): Status {
    if proc.PushSteal? then Refused(-1) else if before.Receiving? then Asking(GetMessage(before.inPlace)) else before
  }

  lemma QuietShown(q: Queue, q': Queue, p: nat)
    requires |q.node.nodes| > 0 && p in q.procs && p in CallsOf(q) && CallsOf(q)[p] == StatusOf(q.node.head, q.overwrite, q.procs[p])
    requires q'.nodes == q.nodes && q'.resc == q.resc && q'.dataSize == q.dataSize && q'.overwrite == q.overwrite && q'.pause == q.pause
    requires Visible(q'.node) == Visible(q.node)
    requires !Publishes(q.node, OnNode(q.procs[p])) && !Takes(q.node, OnNode(q.procs[p]))
    requires var l, before := OnNode(q.procs[p]), CallsOf(q)[p];
             && (FindsNone(q.node, l) ==> Visible(q.node) == [] && NoneFor(q.procs[p], q.overwrite, before))
             && CallsOf(q') == CallsOf(q)[p := if FindsNone(q.node, l) then NoneStatus(q.procs[p], before) else before]
    ensures MailStep(Show(q), NodeEvent(q, p), Show(q'))
  {
    hide Index, RingOk, Contents, StatusOf, Visible, CallsOf, Publishes, Takes, FindsNone, OnNode;
  }

  lemma QuietContents(r: Ring, l: Local)
    requires RingOk(r) && LocalOk(r, l) && MoveIsSound(r, l) && Busy(l)
    requires !Publishes(r, l) && !Takes(r, l)
    ensures var r' := Step(r, l).0; RingOk(r') && Contents(r') == Contents(r) && r'.head == r.head
  {
    hide Index, Stored;
    var r' := Step(r, l).0;
    if l.PushCas? && Slot(r, l.h) == Word(l.h, INVALID) {
      FillSlot(r, l.h, l.id);
    } else if l.PopHelp? || l.PopAdvance? {
      AdvanceTail(r, l.t);
    }
  }

  lemma QuietStatus(q: Queue, proc: Proc)
    requires Shape(q) && ProcOk(q, proc) && Busy(OnNode(proc)) && RingOk(q.node) && LocalOk(q.node, OnNode(proc))
    requires !Publishes(q.node, OnNode(proc)) && !Takes(q.node, OnNode(proc))
    ensures var before := StatusOf(q.node.head, q.overwrite, proc);
            var after := StatusOf(q.node.head, q.overwrite, AfterNodeAccess(q, proc, Step(q.node, proc.l).1));
            && (FindsNone(q.node, proc.l) ==> NoneFor(proc, q.overwrite, before))
            && after == if FindsNone(q.node, proc.l) then NoneStatus(proc, before) else before
  {
    hide Index, Stored, Contents, Shape;
    if proc.Publishing? && proc.l.PushAdvance? { AdvancedIsBehind(q.node, proc.l); }
    if proc.Publishing? && proc.l.PushCas? && Slot(q.node, proc.l.h) == Word(proc.l.h, INVALID) { FreeSlotIsAtHead(q.node, proc.l); }
  }

  lemma AdvancedIsBehind(r: Ring, l: Local)
    requires RingOk(r) && LocalOk(r, l) && l.PushAdvance? && l.h != r.head
    ensures l.h < r.head
  {
    hide Index, RingOk;
  }

  lemma FreeSlotIsAtHead(r: Ring, l: Local)
    requires RingOk(r) && LocalOk(r, l) && l.PushCas? && Slot(r, l.h) == Word(l.h, INVALID)
    ensures l.h == r.head
  {
    hide Index;
    if l.h < Popped(r) { PoppedSlotIsStale(r, l.h); }
  }

  lemma TakeRefines(q: Queue, p: nat)
    requires QueueInv(q) && p in q.procs && Movable(q, q.procs[p]) && Busy(OnNode(q.procs[p]))
    requires |q.node.nodes| > 0 && Takes(q.node, OnNode(q.procs[p]))
    ensures MailStep(Show(q), if q.procs[p].PushSteal? then Discard(p) else Take(p), Show(Moved(q, p)))
  {
    hide Index, RingOk, LFRing.Inv, Conserved, LocalOk, ProcOk, Contents, Show, MoveIsSound, MailStep, Pushed, Popped;
    var proc, q' := q.procs[p], Moved(q, p);
    NodeLocal(q, p);
    TakeContents(q.node, proc.l);
    TakenIsQueued(q, p);
    assert ProcOk(q, proc);
    TakeStatus(q, proc);
    assert q'.procs == q.procs[p := AfterNodeAccess(q, proc, PopAdvance(proc.l.t, proc.l.word.id))];
    TakeShown(q, q', p, proc.l.word.id);
  }

  lemma TakeContents(r: Ring, l: Local)
    requires RingOk(r) && LocalOk(r, l) && Takes(r, l)
    ensures var r' := Step(r, l).0;
            RingOk(r') && Contents(r) == [l.word.id] + Contents(r') && r'.head == r.head
  {
    hide Index, RingOk, Contents;
    EmptySlot(r, l.t, l.word);
  }

  lemma TakeStatus(q: Queue, proc: Proc)
    requires Shape(q) && ProcOk(q, proc) && OnNode(proc).PopCas? && proc.l.word.id < |q.nodes| <= INVALID
    ensures var before := StatusOf(q.node.head, q.overwrite, proc);
            var after := StatusOf(q.node.head, q.overwrite, AfterNodeAccess(q, proc, PopAdvance(proc.l.t, proc.l.word.id)));
            if proc.PushSteal? then q.overwrite && Asks(before) && before.full && after == WithFull(before, false)
            else before.Receiving? && after == Delivered(MessageAt(q.nodes, proc.l.word.id), before.inPlace)
  {
  }

  /** The oldest message leaves the mailbox: to the process that took it, or thrown away. */
  lemma TakeShown(q: Queue, q': Queue, p: nat, id: nat)
    requires RingOk(q.node) && RingOk(q'.node) && Contents(q.node) == [id] + Contents(q'.node)
    requires q'.nodes == q.nodes && q'.resc == q.resc && q'.dataSize == q.dataSize && q'.overwrite == q.overwrite && q'.pause == q.pause && q'.node.head == q.node.head
    requires p in q.procs && p in q'.procs && q'.procs == q.procs[p := q'.procs[p]]
    requires var before := StatusOf(q.node.head, q.overwrite, q.procs[p]); var after := StatusOf(q.node.head, q.overwrite, q'.procs[p]);
             if q.procs[p].PushSteal? then q.overwrite && Asks(before) && before.full && after == WithFull(before, false)
             else before.Receiving? && after == Delivered(MessageAt(q.nodes, id), before.inPlace)
    ensures MailStep(Show(q), if q.procs[p].PushSteal? then Discard(p) else Take(p), Show(q'))
  {
    hide Index, RingOk, Contents, StatusOf, MessagesOf, MessageAt, CallsOf;
    FirstMessage(q.nodes, id, Contents(q'.node));
    CallsShown(q, p);
    CallsAfter(q, q', p, q'.procs[p]);
  }

  lemma CallsShown(q: Queue, p: nat)
    requires p in q.procs
    ensures p in CallsOf(q) && CallsOf(q)[p] == StatusOf(q.node.head, q.overwrite, q.procs[p])
  {
  }

  lemma FirstMessage(nodes: seq<Node>, id: nat, rest: seq<nat>)
    ensures MessagesOf(nodes, [id] + rest) == [MessageAt(nodes, id)] + MessagesOf(nodes, rest)
    ensures MessagesOf(nodes, [id] + rest)[1..] == MessagesOf(nodes, rest)
  {
  }

  lemma LastMessage(nodes: seq<Node>, ids: seq<nat>, id: nat)
    ensures MessagesOf(nodes, ids + [id]) == MessagesOf(nodes, ids) + [MessageAt(nodes, id)]
  {
  }

  lemma PublishRefines(q: Queue, p: nat)
    requires QueueInv(q) && p in q.procs && Movable(q, q.procs[p]) && Busy(OnNode(q.procs[p]))
    requires |q.node.nodes| > 0 && Publishes(q.node, OnNode(q.procs[p]))
    ensures MailStep(Show(q), Publish(Publisher(q)), Show(Moved(q, p)))
  {
    hide Index, QueueInv, Movable, RingOk, LocalOk, Contents, Show, MoveIsSound, MailStep, CallsOf, AtHead, Publisher, PublishingAtHead, Publishes;
    SlotsExist(q);
    var q' := Moved(q, p);
    NodeLocal(q, p);
    PublishContents(q.node, q.procs[p].l);
    SomebodyPublishes(q);
    FillerPublishes(q, Publisher(q));
    PublishCalls(q, p, Publisher(q));
    PublishNode(q, p);
    PublishShown(q, q', Publisher(q), Slot(q.node, q.node.head).id);
  }

  lemma PublishNode(q: Queue, p: nat)
    requires Shape(q) && p in q.procs && Movable(q, q.procs[p]) && Busy(OnNode(q.procs[p]))
    ensures Moved(q, p).node == Step(q.node, q.procs[p].l).0
    ensures Moved(q, p).nodes == q.nodes && Moved(q, p).resc == q.resc
    ensures Moved(q, p).dataSize == q.dataSize && Moved(q, p).overwrite == q.overwrite && Moved(q, p).pause == q.pause
  {
    hide Step, Shape;
  }

  lemma PublishContents(r: Ring, l: Local)
    requires RingOk(r) && LocalOk(r, l) && Publishes(r, l)
    ensures Pushed(r) == r.head + 1
    ensures var r' := Step(r, l).0;
            RingOk(r') && Contents(r') == Contents(r) + [Slot(r, r.head).id]
  {
    hide Index, RingOk, Contents;
    AdvanceHead(r, l.h);
  }

  lemma SomebodyPublishes(q: Queue)
    requires QueueInv(q) && RingOk(q.node) && Pushed(q.node) == q.node.head + 1
    ensures AtHead(NodeSys(q), Publisher(q))
  {
    hide Index, RingOk, LocalOk, Pushed, Conserved, ProcOk, Shape, AtHead;
    BothRings(q);
    assert OwnerOk(NodeSys(q));
    assert NodeSys(q).ring == q.node;
  }

  lemma FillerPublishes(q: Queue, f: nat)
    requires QueueInv(q) && |q.node.nodes| > 0 && AtHead(NodeSys(q), f)
    ensures f in q.procs && PublishingAtHead(q, q.procs[f])
    ensures StatusOf(q.node.head, q.overwrite, q.procs[f]) == Sending(MessageAt(q.nodes, Slot(q.node, q.node.head).id), false)
  {
    hide Index, LFRing.Inv, Conserved;
    var proc := q.procs[f];
    assert NodeSys(q).procs[f] == OnNode(proc);
    assert ProcOk(q, proc);
    FillerIsStored(q, f);
  }

  lemma PublishShown(q: Queue, q': Queue, f: nat, id: nat)
    requires RingOk(q.node) && RingOk(q'.node) && Contents(q'.node) == Contents(q.node) + [id]
    requires q'.nodes == q.nodes && q'.resc == q.resc && q'.dataSize == q.dataSize && q'.overwrite == q.overwrite && q'.pause == q.pause && f in q.procs
    requires StatusOf(q.node.head, q.overwrite, q.procs[f]) == Sending(MessageAt(q.nodes, id), false)
    requires CallsOf(q') == CallsOf(q)[f := Sent]
    ensures MailStep(Show(q), Publish(f), Show(q'))
  {
    hide Index, RingOk, Contents, StatusOf, MessagesOf, MessageAt, CallsOf;
    LastMessage(q.nodes, Contents(q.node), id);
    CallsShown(q, f);
  }

  /** When head passes the slot, the process that filled it has sent its message; nobody else
      changes. */
  lemma PublishCalls(q: Queue, p: nat, f: nat)
    requires QueueInv(q) && Shape(q) && p in q.procs && Movable(q, q.procs[p]) && Busy(OnNode(q.procs[p]))
    requires Publishes(q.node, OnNode(q.procs[p]))
    requires f in q.procs && PublishingAtHead(q, q.procs[f]) && AtHead(NodeSys(q), f)
    ensures CallsOf(Moved(q, p)) == CallsOf(q)[f := Sent]
  {
    hide Index, QueueInv, Shape, StatusOf, Publishes, AtHead, PublishingAtHead, Movable, Step;
    var q' := Moved(q, p);
    forall x | x in q.procs
      ensures CallsOf(q')[x] == if x == f then Sent else CallsOf(q)[x]
    {
      if PublishingAtHead(q, q.procs[x]) { OnlyOnePublishes(q, x, f); }
      PublishStatus(q, p, x);
    }
    assert CallsOf(q').Keys == CallsOf(q).Keys;
  }

  lemma OnlyOnePublishes(q: Queue, x: nat, f: nat)
    requires QueueInv(q) && x in q.procs && PublishingAtHead(q, q.procs[x]) && AtHead(NodeSys(q), f)
    ensures x == f
  {
    hide Index, RingOk, LocalOk, Conserved, ProcOk, Shape;
    BothRings(q);
    assert NodeSys(q).procs[x] == OnNode(q.procs[x]);
    assert AtHead(NodeSys(q), x);
  }

  lemma PublishStatus(q: Queue, p: nat, x: nat)
    requires QueueInv(q) && Shape(q) && p in q.procs && Movable(q, q.procs[p]) && Busy(OnNode(q.procs[p]))
    requires Publishes(q.node, OnNode(q.procs[p])) && x in q.procs
    ensures var after := StatusOf(Moved(q, p).node.head, Moved(q, p).overwrite, Moved(q, p).procs[x]);
            after == if PublishingAtHead(q, q.procs[x]) then Sent else StatusOf(q.node.head, q.overwrite, q.procs[x])
  {
    hide Index, Shape, LFRing.Inv, Conserved;
    assert ProcOk(q, q.procs[x]);
  }

  // ---- Every action ------------------------------------------------------------------------

  /** Every action of the queue is one event of the mailbox, or none. */
  lemma ActionRefines(q: Queue, a: LFQueue.Action)
    requires QueueInv(q) && LFQueue.Enabled(q, a)
    ensures QueueInv(LFQueue.Apply(q, a))
    ensures MailStep(Show(q), EventOf(q, a), Show(LFQueue.Apply(q, a)))
  {
    hide Index, QueueInv, Shape, Movable, Moved, MailStep, Show;
    ActionKeepsInv(q, a);
    match a
    case Move(p) => MoveRefines(q, p);
    case UserWrite(p, i, b) => UserWriteRefines(q, p, i, b);
    case SetPause(on) => PauseRefines(q, on);
    case Return(p) => ReturnRefines(q, p);
    case _ => CallRefines(q, a);
  }

  lemma MoveRefines(q: Queue, p: nat)
    requires QueueInv(q) && Shape(q) && p in q.procs && Movable(q, q.procs[p])
    ensures MailStep(Show(q), MoveEvent(q, p), Show(Moved(q, p)))
  {
    hide Index, QueueInv, Shape, Movable, Moved, Show, NodeEvent, RescEvent, MailStep, WritesNode;
    if Busy(OnResc(q.procs[p])) {
      RescRefines(q, p);
    } else if Busy(OnNode(q.procs[p])) {
      NodeRefines(q, p);
    } else if WritesNode(q.procs[p]) {
      WriteRefines(q, p);
      NoEvent(Show(q));
      assert OnwardEvent(q, p) == Silent by { WritesAreSilent(q, p); }
    } else {
      OnwardRefines(q, p);
    }
  }

  lemma WritesAreSilent(q: Queue, p: nat)
    requires p in q.procs && WritesNode(q.procs[p])
    ensures OnwardEvent(q, p) == Silent
  {
  }

  lemma NoEvent(m: Mailbox)
    ensures MailStep(m, Silent, m)
  {
  }

  lemma PauseRefines(q: Queue, on: bool)
    requires Shape(q)
    ensures MailStep(Show(q), Pause(on), Show(LFQueue.Apply(q, SetPause(on))))
  {
    hide Shape, StatusOf, MessagesOf, Visible;
    assert CallsOf(q.(pause := on)) == CallsOf(q);
  }

  lemma UserWriteRefines(q: Queue, p: nat, i: nat, b: Byte)
    requires QueueInv(q) && LFQueue.Enabled(q, UserWrite(p, i, b))
    ensures MailStep(Show(q), Fill(p, i, b), Show(LFQueue.Apply(q, UserWrite(p, i, b))))
  {
    hide Index, LFRing.Inv, Conserved, MessagesOf, Visible, CallsOf;
    var q', id := LFQueue.Apply(q, UserWrite(p, i, b)), q.procs[p].id;
    assert ProcOk(q, q.procs[p]);
    assert id in Holds(q.procs[p]);
    WriteKeepsMessages(q, p, id, q'.nodes[id]);
    CallsAfter(q, q', p, q'.procs[p]);
    CallsShown(q, p);
  }

  /** A step that only moves one process along in its calls. */
  lemma CallShown(q: Queue, q': Queue, p: nat, proc: Proc, e: Event)
    requires q' == With(q, p, proc) && p in q.procs && e != Silent && !e.Pause? && e.p == p
    requires var before, after := StatusOf(q.node.head, q.overwrite, q.procs[p]), StatusOf(q.node.head, q.overwrite, proc);
             match e
             case Begin(_, ask) => before == Outside && after == if TooLarge(ask, q.dataSize) then Refused(-1) else Asking(ask)
             case Commit(_, msg) =>
               before.Preparing? && !before.full && IsDraft(msg, before.size, before.draft) && after == Sending(msg, false)
             case Release(_) => before.Delivered? && before.inPlace && after == Released
             case Finish(_) =>
               (before.Sent? || (before.Delivered? && !before.inPlace) || before.Refused? || before.Released?) && after == Outside
             case _ => false
    ensures MailStep(Show(q), e, Show(q'))
  {
    hide StatusOf, MessagesOf, Visible, CallsOf;
    CallsAfter(q, q', p, proc);
    CallsShown(q, p);
  }

  lemma CallRefines(q: Queue, a: LFQueue.Action)
    requires QueueInv(q) && LFQueue.Enabled(q, a) && (a.CallPush? || a.CallPop? || a.ConfirmPush? || a.ConfirmPop?)
    ensures MailStep(Show(q), EventOf(q, a), Show(LFQueue.Apply(q, a)))
  {
    hide Index, LFRing.Inv, Conserved, Show, MailStep;
    var q' := LFQueue.Apply(q, a);
    assert ProcOk(q, q.procs[a.p]);
    CallShown(q, q', a.p, q'.procs[a.p], EventOf(q, a));
  }

  lemma ReturnRefines(q: Queue, p: nat)
    requires LFQueue.Enabled(q, LFQueue.Return(p))
    ensures MailStep(Show(q), Finish(p), Show(LFQueue.Apply(q, LFQueue.Return(p))))
  {
    hide Show, MailStep;
    CallShown(q, LFQueue.Apply(q, LFQueue.Return(p)), p, Proc.Ready, Finish(p));
  }

  /** While a receiver works on a node in place, the node holds exactly its message; a receiver
      with its own buffer gets the size of what was copied. */
  lemma ReceiverSeesMessage(q: Queue, p: nat)
    requires QueueInv(q) && p in q.procs
    ensures q.procs[p].Reading? ==>
              && q.procs[p].id < |q.nodes| && q.procs[p].size == |MessageAt(q.nodes, q.procs[p].id)|
              && CallsOf(q)[p] == Delivered(MessageAt(q.nodes, q.procs[p].id), true)
    ensures q.procs[p].Returned? && q.procs[p].rsp.Message? ==>
              q.procs[p].rsp.size == |q.procs[p].rsp.buf| && CallsOf(q)[p] == Delivered(q.procs[p].rsp.buf, false)
  {
    hide LFRing.Inv, Conserved;
    assert ProcOk(q, q.procs[p]);
  }

  // ---- Whole runs ----------------------------------------------------------------------------

  ghost predicate IsRun(states: seq<Queue>, actions: seq<LFQueue.Action>) {
    && |states| == |actions| + 1
    && forall i :: 0 <= i < |actions| ==>
         LFQueue.Enabled(states[i], actions[i]) && states[i + 1] == LFQueue.Apply(states[i], actions[i])
  }

  ghost predicate IsMailRun(boxes: seq<Mailbox>, events: seq<Event>) {
    && |boxes| == |events| + 1
    && forall i :: 0 <= i < |events| ==> MailStep(boxes[i], events[i], boxes[i + 1])
  }

  // The messages an event publishes, removes, and hands to a receiver
  ghost function Entering(m: Mailbox, e: Event): seq<Payload> {
    if e.Publish? && e.p in m.calls && m.calls[e.p].Sending? then [m.calls[e.p].msg] else []
  }

  ghost function Leaving(m: Mailbox, e: Event): seq<Payload> {
    if (e.Take? || e.Discard?) && m.queue != [] then [m.queue[0]] else []
  }

  ghost function Handed(m: Mailbox, e: Event): seq<Payload> {
    if e.Take? then Leaving(m, e) else []
  }

  ghost function AllEntering(boxes: seq<Mailbox>, events: seq<Event>): seq<Payload>
    requires |boxes| == |events| + 1
  {
    var n := |events|;
    if n == 0 then [] else AllEntering(boxes[..n], events[..n - 1]) + Entering(boxes[n - 1], events[n - 1])
  }

  ghost function AllLeaving(boxes: seq<Mailbox>, events: seq<Event>): seq<Payload>
    requires |boxes| == |events| + 1
  {
    var n := |events|;
    if n == 0 then [] else AllLeaving(boxes[..n], events[..n - 1]) + Leaving(boxes[n - 1], events[n - 1])
  }

  ghost function AllHanded(boxes: seq<Mailbox>, events: seq<Event>): seq<Payload>
    requires |boxes| == |events| + 1
  {
    var n := |events|;
    if n == 0 then [] else AllHanded(boxes[..n], events[..n - 1]) + Handed(boxes[n - 1], events[n - 1])
  }

  lemma FlowOfStep(m: Mailbox, e: Event, m': Mailbox)
    requires MailStep(m, e, m')
    ensures m.queue + Entering(m, e) == Leaving(m, e) + m'.queue
    ensures m'.overwrite == m.overwrite && (!m.overwrite ==> Handed(m, e) == Leaving(m, e))
  {
  }

  /** First in, first out: what was published is what was removed, in order, followed by what is
      still queued; and without overwrite mode everything removed was handed to a receiver. */
  lemma {:induction false} MailRunIsFifo(boxes: seq<Mailbox>, events: seq<Event>)
    requires IsMailRun(boxes, events) && boxes[0].queue == []
    ensures AllEntering(boxes, events) == AllLeaving(boxes, events) + boxes[|events|].queue
    ensures boxes[|events|].overwrite == boxes[0].overwrite
    ensures !boxes[0].overwrite ==> AllHanded(boxes, events) == AllLeaving(boxes, events)
  {
    hide MailStep, Entering, Leaving, Handed;
    var n := |events|;
    if n > 0 {
      var m, e := boxes[n - 1], events[n - 1];
      MailRunIsFifo(boxes[..n], events[..n - 1]);
      FlowOfStep(m, e, boxes[n]);
      var left := AllLeaving(boxes[..n], events[..n - 1]);
      assert (left + m.queue) + Entering(m, e) == left + (m.queue + Entering(m, e));
      assert (left + Leaving(m, e)) + boxes[n].queue == left + (Leaving(m, e) + boxes[n].queue);
    }
  }

  lemma {:induction false} RunKeepsQueueInv(states: seq<Queue>, actions: seq<LFQueue.Action>)
    requires IsRun(states, actions) && QueueInv(states[0])
    ensures forall i :: 0 <= i < |states| ==> QueueInv(states[i])
  {
    hide QueueInv, LFQueue.Enabled, LFQueue.Apply;
    var n := |actions|;
    if n > 0 {
      RunKeepsQueueInv(states[..n], actions[..n - 1]);
      assert states[..n][n - 1] == states[n - 1];
      ActionKeepsInv(states[n - 1], actions[n - 1]);
      forall i | 0 <= i < |states|
        ensures QueueInv(states[i])
      {
        if i < n { assert states[..n][i] == states[i]; }
      }
    }
  }

  lemma InitShowsEmpty(q: Queue, count: nat)
    requires LFQueue.Init(q, count)
    ensures Show(q).queue == []
  {
    QueueSteps.InitKeepsInv(q, count);
    assert Popped(q.node) == 0;
  }

  /** Every run of the queue from LFQueue_create is a run of the mailbox, whatever the
      interleaving: no message is changed, reordered, repeated, or lost without overwrite mode. */
  lemma RunIsMailRun(states: seq<Queue>, actions: seq<LFQueue.Action>, count: nat,
                     boxes: seq<Mailbox>, events: seq<Event>)
    requires IsRun(states, actions) && LFQueue.Init(states[0], count)
    requires |boxes| == |states| && forall i :: 0 <= i < |states| ==> boxes[i] == Show(states[i])
    requires |events| == |actions| && forall i :: 0 <= i < |actions| ==> events[i] == EventOf(states[i], actions[i])
    ensures IsMailRun(boxes, events)
    ensures AllEntering(boxes, events) == AllLeaving(boxes, events) + boxes[|events|].queue
    ensures !states[0].overwrite ==> AllHanded(boxes, events) == AllLeaving(boxes, events)
  {
    hide QueueInv, LFQueue.Enabled, LFQueue.Apply, EventOf, MailStep, LFQueue.Init, MessagesOf, CallsOf;
    QueueSteps.InitKeepsInv(states[0], count);
    RunKeepsQueueInv(states, actions);
    forall i | 0 <= i < |events|
      ensures MailStep(boxes[i], events[i], boxes[i + 1])
    {
      ActionRefines(states[i], actions[i]);
    }
    InitShowsEmpty(states[0], count);
    MailRunIsFifo(boxes, events);
  }

  // ---- Messages written in place ---------------------------------------------------------------

  /** Process p asked for so much room, and has not begun another call. */
  predicate AskedFor(m: Mailbox, p: nat, size: nat) {
    && p in m.calls && !m.calls[p].Receiving?
    && (m.calls[p].Asking? ==> m.calls[p].ask == PutInPlace(size))
    && (m.calls[p].Preparing? ==> m.calls[p].size == size)
  }

  /** Process p wrote x at place i, and nothing there since. */
  predicate HasWritten(m: Mailbox, p: nat, i: nat, x: Byte) {
    && p in m.calls && !m.calls[p].Receiving? && !m.calls[p].Asking?
    && (m.calls[p].Preparing? ==> i in m.calls[p].draft && m.calls[p].draft[i] == x)
  }

  predicate Begins(e: Event, p: nat) {
    e.Begin? && e.p == p
  }

  predicate Fills(e: Event, p: nat, i: nat) {
    e.Fill? && e.p == p && e.i == i
  }

  lemma AskedForStays(m: Mailbox, e: Event, m': Mailbox, p: nat, size: nat)
    requires MailStep(m, e, m') && AskedFor(m, p, size) && !Begins(e, p)
    ensures AskedFor(m', p, size)
  {
  }

  lemma HasWrittenStays(m: Mailbox, e: Event, m': Mailbox, p: nat, i: nat, x: Byte)
    requires MailStep(m, e, m') && HasWritten(m, p, i, x) && !Begins(e, p) && !Fills(e, p, i)
    ensures HasWritten(m', p, i, x)
  {
  }

  lemma {:induction false} AskedForSince(boxes: seq<Mailbox>, events: seq<Event>, b: nat, n: nat, p: nat, size: nat)
    requires IsMailRun(boxes, events) && b < n <= |events| && events[b] == Begin(p, PutInPlace(size))
    requires forall k :: b < k < n ==> !Begins(events[k], p)
    ensures AskedFor(boxes[n], p, size)
    decreases n
  {
    assert MailStep(boxes[n - 1], events[n - 1], boxes[n]);
    if n > b + 1 {
      hide MailStep;
      AskedForSince(boxes, events, b, n - 1, p, size);
      AskedForStays(boxes[n - 1], events[n - 1], boxes[n], p, size);
    }
  }

  lemma {:induction false} HasWrittenSince(boxes: seq<Mailbox>, events: seq<Event>, w: nat, n: nat, p: nat, i: nat, x: Byte)
    requires IsMailRun(boxes, events) && w < n <= |events| && events[w] == Fill(p, i, x)
    requires forall k :: w < k < n ==> !Begins(events[k], p) && !Fills(events[k], p, i)
    ensures HasWritten(boxes[n], p, i, x)
    decreases n
  {
    assert MailStep(boxes[n - 1], events[n - 1], boxes[n]);
    if n > w + 1 {
      hide MailStep;
      HasWrittenSince(boxes, events, w, n - 1, p, i, x);
      HasWrittenStays(boxes[n - 1], events[n - 1], boxes[n], p, i, x);
    }
  }

  predicate NewCall(a: LFQueue.Action, p: nat) {
    (a.CallPush? || a.CallPop?) && a.p == p
  }

  predicate WritesAt(a: LFQueue.Action, p: nat, i: nat) {
    a.UserWrite? && a.p == p && a.i == i
  }

  ghost function BoxesOf(states: seq<Queue>): (boxes: seq<Mailbox>)
    ensures |boxes| == |states| && forall k :: 0 <= k < |states| ==> boxes[k] == Show(states[k])
  {
    seq(|states|, k requires 0 <= k < |states| => Show(states[k]))
  }

  ghost function EventsOf(states: seq<Queue>, actions: seq<LFQueue.Action>): (events: seq<Event>)
    requires IsRun(states, actions)
    ensures |events| == |actions| && forall k :: 0 <= k < |actions| ==> events[k] == EventOf(states[k], actions[k])
  {
    seq(|actions|, k requires 0 <= k < |actions| => assert LFQueue.Enabled(states[k], actions[k]); EventOf(states[k], actions[k]))
  }

  /** The same on the mailbox: what is committed was asked for and written by this process. */
  lemma CommitIsDraft(boxes: seq<Mailbox>, events: seq<Event>, b: nat, c: nat, p: nat, size: nat)
    requires IsMailRun(boxes, events)
    requires b < c < |events| && events[b] == Begin(p, PutInPlace(size)) && events[c].Commit? && events[c].p == p
    requires forall k :: b < k < c ==> !Begins(events[k], p)
    ensures p in boxes[c + 1].calls && boxes[c + 1].calls[p] == Sending(events[c].msg, false)
    ensures |events[c].msg| == size
    ensures forall w, i: nat, x :: b < w < c && events[w] == Fill(p, i, x) && i < size ==>
              (forall k :: w < k < c ==> !Fills(events[k], p, i)) ==> events[c].msg[i] == x
  {
    AskedForSince(boxes, events, b, c, p, size);
    assert MailStep(boxes[c], events[c], boxes[c + 1]);
    hide IsMailRun, MailStep;
    forall w, i: nat, x | b < w < c && events[w] == Fill(p, i, x) && i < size
      ensures (forall k :: w < k < c ==> !Fills(events[k], p, i)) ==> events[c].msg[i] == x
    {
      if forall k :: w < k < c ==> !Fills(events[k], p, i) { HasWrittenSince(boxes, events, w, c, p, i, x); }
    }
  }

  /** A message confirmed after LFQueue_get_push_ptr has the size that was asked for, and at each
      place the last byte its process wrote there. */
  lemma CommittedAsWritten(states: seq<Queue>, actions: seq<LFQueue.Action>, count: nat, b: nat, c: nat, p: nat, size: nat)
    requires IsRun(states, actions) && LFQueue.Init(states[0], count)
    requires b < c < |actions| && actions[b] == LFQueue.CallPush(p, InPlace(size)) && actions[c] == ConfirmPush(p)
    requires forall k :: b < k < c ==> !NewCall(actions[k], p)
    ensures p in Show(states[c + 1]).calls && Show(states[c + 1]).calls[p].Sending?
    ensures var msg := Show(states[c + 1]).calls[p].msg;
            && |msg| == size
            && forall w, i: nat, x :: b < w < c && actions[w] == UserWrite(p, i, x) && i < size ==>
                 (forall k :: w < k < c ==> !WritesAt(actions[k], p, i)) ==> msg[i] == x
  {
    var boxes, events := BoxesOf(states), EventsOf(states, actions);
    RunIsMailRun(states, actions, count, boxes, events);
    assert forall k :: b <= k <= c ==> LFQueue.Enabled(states[k], actions[k]);
    hide *;
    forall k | b <= k <= c
      ensures Begins(events[k], p) <==> NewCall(actions[k], p)
      ensures forall i :: Fills(events[k], p, i) <==> WritesAt(actions[k], p, i)
      ensures forall size :: actions[k] == LFQueue.CallPush(p, InPlace(size)) ==> events[k] == Begin(p, PutInPlace(size))
      ensures forall i: nat, x :: actions[k] == UserWrite(p, i, x) ==> events[k] == Fill(p, i, x)
      ensures actions[k] == ConfirmPush(p) ==> events[k].Commit? && events[k].p == p
    {
      EventKinds(states[k], actions[k], p);
    }
    CommitIsDraft(boxes, events, b, c, p, size);
  }

  lemma EventKinds(q: Queue, a: LFQueue.Action, p: nat)
    requires LFQueue.Enabled(q, a)
    ensures Begins(EventOf(q, a), p) <==> NewCall(a, p)
    ensures forall i :: Fills(EventOf(q, a), p, i) <==> WritesAt(a, p, i)
    ensures forall size :: a == LFQueue.CallPush(p, InPlace(size)) ==> EventOf(q, a) == Begin(p, PutInPlace(size))
    ensures forall i: nat, x :: a == UserWrite(p, i, x) ==> EventOf(q, a) == Fill(p, i, x)
    ensures a == ConfirmPush(p) ==> EventOf(q, a).Commit? && EventOf(q, a).p == p
  {
    hide Publishes, Takes, FindsNone, Publisher;
  }
}
