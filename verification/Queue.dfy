module LFQueue {
  /** LFQueue: a bounded queue of messages in shared memory, made of an array of nodes and two
      lock-free rings of node ids, one for the free nodes and one for the queued ones.

      The machine below has one step per shared access: a header flag, one access inside
      LFRing_push or LFRing_pop, the size of a node, or one byte of its payload. */

  import opened LFRing

  type Byte = b: int | 0 <= b < 256

  // LFNode: `size` bytes of `data` are the message
  datatype Node = Node(size: nat, data: seq<Byte>)

  // LFQueue_push hands over a buffer; LFQueue_get_push_ptr asks for a node to fill in place
  datatype Request = Whole(buf: seq<Byte>) | InPlace(size: nat)

  datatype Response = Code(code: int) | Message(buf: seq<Byte>, size: nat) | Confirmed

  // Where a process is inside the calls of the queue. `msg` records the message a process
  // publishes or has taken, `size` and `draft` what it asked for and has written in place; no step
  // reads them.
  datatype Proc =
    | Ready
    | PushPause(req: Request)
    | PushResc(req: Request, l: Local)
    | PushSteal(req: Request, l: Local)
    | PushSize(req: Request, id: nat)
    | PushCopy(buf: seq<Byte>, id: nat, i: nat)
    | Filling(id: nat, size: nat, draft: map<nat, Byte>)
    | Publishing(msg: seq<Byte>, l: Local)
    | PopPause(inPlace: bool)
    | PopNodeRing(inPlace: bool, l: Local, msg: seq<Byte>)
    | PopSize(inPlace: bool, id: nat, msg: seq<Byte>)
    | PopCopy(id: nat, size: nat, buf: seq<Byte>, msg: seq<Byte>)
    | Reading(id: nat, size: nat, msg: seq<Byte>)
    | GivingBack(rsp: Response, l: Local)
    | Returned(rsp: Response)

  datatype Queue = Queue(
    resc: Ring,
    node: Ring,
    nodes: seq<Node>,
    dataSize: nat,
    overwrite: bool,
    pause: bool,
    procs: map<nat, Proc>
  )

  datatype Action =
    | CallPush(p: nat, req: Request)
    | UserWrite(p: nat, i: nat, b: Byte)
    | ConfirmPush(p: nat)
    | CallPop(p: nat, inPlace: bool)
    | ConfirmPop(p: nat)
    | Move(p: nat)
    | Return(p: nat)
    | SetPause(on: bool)

  const StartPop: Local := PopTail(0, ZERO)

  function StartPush(id: nat): Local {
    PushHead(id, 0, ZERO)
  }

  predicate Shape(q: Queue) {
    && 0 < |q.nodes| == |q.resc.nodes| == |q.node.nodes| <= INVALID
    && (forall i :: 0 <= i < |q.nodes| ==> |q.nodes[i].data| == q.dataSize)
    && (forall i :: 0 <= i < |q.nodes| ==> q.nodes[i].size <= q.dataSize)
  }

  function Content(n: Node): seq<Byte>
    requires n.size <= |n.data|
  {
    n.data[..n.size]
  }

  function With(q: Queue, p: nat, proc: Proc): Queue {
    q.(procs := q.procs[p := proc])
  }

  /** LFQueue_create for `count` nodes, with processes that have not called anything yet. */
  ghost predicate Init(q: Queue, count: nat) {
    && 0 < count <= INVALID
    && q.resc == InitRing(count, count)
    && q.node == InitRing(count, 0)
    && |q.nodes| == count
    && (forall i :: 0 <= i < count ==> q.nodes[i] == Node(0, seq(q.dataSize, _ => 0)))
    && !q.pause
    && forall p :: p in q.procs ==> q.procs[p] == Ready
  }

  // The id a process has popped from a ring and not pushed into one since, or INVALID
  function HeldId(proc: Proc): nat {
    match proc
    case PushResc(_, l) => TakenId(l)
    case PushSteal(_, l) => TakenId(l)
    case PushSize(_, id) => id
    case PushCopy(_, id, _) => id
    case Filling(id, _, _) => id
    case Publishing(_, l) => BroughtId(l)
    case PopNodeRing(_, l, _) => TakenId(l)
    case PopSize(_, id, _) => id
    case PopCopy(id, _, _, _) => id
    case Reading(id, _, _) => id
    case GivingBack(_, l) => BroughtId(l)
    case _ => INVALID
  }

  function TakenId(l: Local): nat {
    if l.PopAdvance? || l.PopDone? then l.id else INVALID
  }

  function BroughtId(l: Local): nat {
    if PreFill(l) then l.id else INVALID
  }

  function Single(id: nat): multiset<nat> {
    if id == INVALID then multiset{} else multiset{id}
  }

  function Holds(proc: Proc): multiset<nat> {
    Single(HeldId(proc))
  }

  // ---- Which processes are inside which ring --------------------------------------------

  function OnResc(proc: Proc): Local {
    match proc
    case PushResc(_, l) => l
    case GivingBack(_, l) => l
    case _ => Idle
  }

  function OnNode(proc: Proc): Local {
    match proc
    case PushSteal(_, l) => l
    case Publishing(_, l) => l
    case PopNodeRing(_, l, _) => l
    case _ => Idle
  }

  function RescSys(q: Queue): Sys {
    Sys(q.resc, map p | p in q.procs :: OnResc(q.procs[p]))
  }

  function NodeSys(q: Queue): Sys {
    Sys(q.node, map p | p in q.procs :: OnNode(q.procs[p]))
  }

  // ---- Steps ----------------------------------------------------------------------------

  predicate Enabled(q: Queue, a: Action) {
    Shape(q) &&
    match a
    case SetPause(_) => true
    case CallPush(p, _) => p in q.procs && q.procs[p] == Ready
    case CallPop(p, _) => p in q.procs && q.procs[p] == Ready
    case UserWrite(p, i, _) => p in q.procs && q.procs[p].Filling? && q.procs[p].id < |q.nodes| && i < q.dataSize
    case ConfirmPush(p) => p in q.procs && q.procs[p].Filling? && q.procs[p].id < |q.nodes|
    case ConfirmPop(p) => p in q.procs && q.procs[p].Reading?
    case Return(p) => p in q.procs && q.procs[p].Returned?
    case Move(p) => p in q.procs && Movable(q, q.procs[p])
  }

  predicate Movable(q: Queue, proc: Proc) {
    match proc
    case Ready => false
    case Filling(_, _, _) => false
    case Reading(_, _, _) => false
    case Returned(_) => false
    case PushSize(req, id) => id < |q.nodes| && SizeOf(req) <= q.dataSize
    case PushCopy(buf, id, i) => id < |q.nodes| && i <= |buf| <= q.dataSize
    case PopSize(_, id, _) => id < |q.nodes|
    case PopCopy(id, size, buf, _) => id < |q.nodes| && |buf| <= size <= q.dataSize
    case PopNodeRing(_, l, _) => Busy(l) || (l.PopDone? && (l.id == INVALID || l.id < |q.nodes|))
    case PushResc(_, l) => Busy(l) || l.PopDone?
    case PushSteal(_, l) => Busy(l) || l.PopDone?
    case Publishing(_, l) => Busy(l) || l.PushDone?
    case GivingBack(_, l) => Busy(l) || l.PushDone?
    case _ => true
  }

  function SizeOf(req: Request): nat {
    if req.Whole? then |req.buf| else req.size
  }

  function Apply(q: Queue, a: Action): (q': Queue)
    requires Enabled(q, a)
  {
    match a
    case SetPause(on) => q.(pause := on)
    case CallPush(p, req) =>
      With(q, p, if SizeOf(req) > q.dataSize then Returned(Code(-1)) else PushPause(req))
    case UserWrite(p, i, b) =>
      var id, proc := q.procs[p].id, q.procs[p].(draft := q.procs[p].draft[i := b]);
      With(q.(nodes := q.nodes[id := q.nodes[id].(data := q.nodes[id].data[i := b])]), p, proc)
    case ConfirmPush(p) =>
      var id := q.procs[p].id;
      With(q, p, Publishing(Content(q.nodes[id]), StartPush(id)))
    case CallPop(p, inPlace) => With(q, p, PopPause(inPlace))
    case ConfirmPop(p) => With(q, p, GivingBack(Confirmed, StartPush(q.procs[p].id)))
    case Return(p) => With(q, p, Ready)
    case Move(p) => Moved(q, p)
  }

  /** The next shared access of process p. */
  function Moved(q: Queue, p: nat): Queue
    requires Shape(q) && p in q.procs && Movable(q, q.procs[p])
  {
    var proc := q.procs[p];
    if Busy(OnResc(proc)) then
      var (r, l) := Step(q.resc, proc.l);
      With(q.(resc := r), p, WithLocal(proc, l))
    else if Busy(OnNode(proc)) then
      var (r, l) := Step(q.node, proc.l);
      With(q.(node := r), p, AfterNodeAccess(q, proc, l))
    else if WritesNode(proc) then
      With(q.(nodes := q.nodes[proc.id := WrittenNode(q, proc)]), p, AfterWrite(proc))
    else With(q, p, Onward(q, proc))
  }

  function WithLocal(proc: Proc, l: Local): Proc {
    match proc
    case PushResc(req, _) => PushResc(req, l)
    case PushSteal(req, _) => PushSteal(req, l)
    case Publishing(msg, _) => Publishing(msg, l)
    case PopNodeRing(inPlace, _, msg) => PopNodeRing(inPlace, l, msg)
    case GivingBack(rsp, _) => GivingBack(rsp, l)
    case _ => proc
  }

  function AfterNodeAccess(q: Queue, proc: Proc, l: Local): Proc
    requires Shape(q)
  {
    if proc.PopNodeRing? && proc.l.PopCas? && l.PopAdvance? && l.id < |q.nodes| then
      PopNodeRing(proc.inPlace, l, Content(q.nodes[l.id]))
    else WithLocal(proc, l)
  }

  // The two stores to a node: its size, and one byte of its payload
  predicate WritesNode(proc: Proc) {
    proc.PushSize? || (proc.PushCopy? && proc.i < |proc.buf|)
  }

  function WrittenNode(q: Queue, proc: Proc): Node
    requires Shape(q) && Movable(q, proc) && WritesNode(proc)
  {
    var n := q.nodes[proc.id];
    if proc.PushSize? then n.(size := SizeOf(proc.req)) else n.(data := n.data[proc.i := proc.buf[proc.i]])
  }

  function AfterWrite(proc: Proc): Proc
    requires WritesNode(proc)
  {
    match proc
    case PushSize(req, id) => if req.Whole? then PushCopy(req.buf, id, 0) else Filling(id, req.size, map[])
    case PushCopy(buf, id, i) => PushCopy(buf, id, i + 1)
  }

  /** A read of a flag or of a node, or the way out of a finished ring call. */
  function Onward(q: Queue, proc: Proc): Proc
    requires Shape(q) && Movable(q, proc) && !Busy(OnResc(proc)) && !Busy(OnNode(proc)) && !WritesNode(proc)
  {
    match proc
    case PushPause(req) => if q.pause then Returned(Code(-3)) else PushResc(req, StartPop)
    case PushResc(req, l) =>
      if l.id != INVALID then PushSize(req, l.id)
      else if q.overwrite then PushSteal(req, StartPop)
      else Returned(Code(-2))
    case PushSteal(req, l) => if l.id == INVALID then Returned(Code(-1)) else PushSize(req, l.id)
    case PushCopy(buf, id, _) => Publishing(buf, StartPush(id))
    case Publishing(_, _) => Returned(Code(0))
    case PopPause(inPlace) => if q.pause then Returned(Code(-3)) else PopNodeRing(inPlace, StartPop, [])
    case PopNodeRing(inPlace, l, msg) => if l.id == INVALID then PopPause(inPlace) else PopSize(inPlace, l.id, msg)
    case PopSize(inPlace, id, msg) =>
      var size := q.nodes[id].size;
      if inPlace then Reading(id, size, msg) else PopCopy(id, size, [], msg)
    case PopCopy(id, size, buf, msg) =>
      if |buf| < size then PopCopy(id, size, buf + [q.nodes[id].data[|buf|]], msg)
      else GivingBack(Message(buf, q.nodes[id].size), StartPush(id))
    case GivingBack(rsp, _) => Returned(rsp)
    case _ => proc
  }
}
