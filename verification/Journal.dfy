/** The yijinjing journal: one writer appends frames to a chain of mapped pages while any number
    of readers follow it. One step is one access to a page, so readers see every half-written
    state, and the writer may crash between any two accesses and start again. */
module Journal {

  const PAGE_SIZE: nat := 134217728
  const HEADROOM: nat := 2097152
  const PAGE_HEADER: nat := 137
  const FRAME_HEADER: nat := 20
  const VERSION := 2

  // Frame status
  const RAW := 0
  const WRITTEN := 1
  const PAGE_END := 2

  // Offsets in the packed frame header
  const STATUS: nat := 0
  const NANO: nat := 1
  const LENGTH: nat := 9
  const MSG_TYPE: nat := 17
  const LAST_FLAG: nat := 19

  // A fresh file is all zeros. A field of a header is one cell at the field's first byte.
  type Memory = map<nat, int>

  datatype Frame = Frame(nano: int, msgType: int, lastFlag: int, data: seq<int>)

  // `stamped` records that startNano was stored; no step reads it.
  datatype Page = Page(
    inited: bool, startNano: int, stamped: bool, closeNano: int, pageNum: nat, frameNum: nat, lastPos: nat, version: int, mem: Memory)

  const BLANK := Page(false, 0, false, 0, 0, 0, 0, 0, map[])

  // What the writer was asked for when it looks for room
  datatype Call = Opening | Writing(f: Frame) | Placing(nano: int)

  datatype Store = Store(at: nat, value: int)

  datatype Writer =
    | Down
    | Ready
    | Locating(call: Call)
    | Making(call: Call, stage: nat)
    | Closing(call: Call, stage: nat)
    | Stamping(nano: int)
    | Placed(nano: int)
    | Storing(todo: seq<Store>, f: Frame)
    | Clearing(f: Frame)
    | Publishing(f: Frame)
    | Passing

  const TIME_FROM_FIRST := 0
  const TIME_TO_LAST := -1

  datatype Phase = Seeking | Top | Loading | Checking | Taking

  // What a seek asked for, and the page it found. `stamped` records whether the page's start stamp
  // was stored when its header was read, if it was chosen for that; no step reads it.
  datatype Seek = Seek(time: int, page: nat, stamped: bool)

  // A reader that seeks lists the pages, scans their headers down from number `left`, and opens one.
  // `from` frames were skipped by its seek; `seen` are the frames handed on.
  datatype Reader =
    | Off
    | Expired
    | Failed
    | Lost(seen: seq<Frame>)
    | Scanning(time: int, left: nat)
    | Found(seek: Seek)
    | On(page: nat, idx: nat, pos: nat, seek: Seek, from: nat, seen: seq<Frame>, phase: Phase)

  // Page number k is pages[k - 1]. `log` records the published frames; no step reads it.
  datatype State = State(
    clock: int,
    pages: seq<Page>,
    writer: Writer,
    cur: nat, pos: nat, frameNum: nat,
    readers: map<nat, Reader>,
    log: seq<seq<Frame>>
  )

  datatype Action =
    | Tick(now: int)
    | Start
    | Crash
    | WriteFrame(msgType: int, lastFlag: int, data: seq<int>)
    | LocateFrame
    | UserStore(i: nat, b: int)
    | PassFrame(length: nat, msgType: int, lastFlag: int)
    | WriterMove
    | SeekTime(r: nat, time: int)
    | ReaderMove(r: nat)

  function Get(m: Memory, at: nat): int {
    if at in m then m[at] else 0
  }

  function Cells(m: Memory, at: nat, n: nat): (cells: seq<int>)
    ensures |cells| == n
  {
    seq(n, i requires 0 <= i < n => Get(m, at + i))
  }

  function LengthAt(m: Memory, pos: nat): nat {
    if Get(m, pos + LENGTH) >= FRAME_HEADER then Get(m, pos + LENGTH) else 0
  }

  function FrameAt(m: Memory, pos: nat): Frame {
    var n := LengthAt(m, pos);
    Frame(Get(m, pos + NANO), Get(m, pos + MSG_TYPE), Get(m, pos + LAST_FLAG),
          if n >= FRAME_HEADER then Cells(m, pos + FRAME_HEADER, n - FRAME_HEADER) else [])
  }

  function Length(f: Frame): nat {
    FRAME_HEADER + |f.data|
  }

  function DataStores(at: nat, data: seq<int>): seq<Store>
    decreases |data|
  {
    if data == [] then [] else [Store(at, data[0])] + DataStores(at + 1, data[1..])
  }

  // JournalWriter::write_frame, up to setStatusWritten
  function FrameStores(pos: nat, f: Frame): seq<Store> {
    [Store(pos + MSG_TYPE, f.msgType), Store(pos + LAST_FLAG, f.lastFlag)]
    + DataStores(pos + FRAME_HEADER, f.data)
    + [Store(pos + LENGTH, Length(f)), Store(pos + NANO, f.nano)]
  }

  // JournalWriter::passFrame, up to setStatusWritten: stamp and data are already in place
  function HeaderStores(pos: nat, f: Frame): seq<Store> {
    [Store(pos + MSG_TYPE, f.msgType), Store(pos + LAST_FLAG, f.lastFlag), Store(pos + LENGTH, Length(f))]
  }

  function Put(s: State, p: nat, at: nat, value: int): State
    requires p < |s.pages|
  {
    s.(pages := s.pages[p := s.pages[p].(mem := s.pages[p].mem[at := value])])
  }

  // ---- The writer -----------------------------------------------------------------------

  predicate Writable(s: State) {
    && s.cur < |s.pages|
    && Get(s.pages[s.cur].mem, s.pos + STATUS) == RAW
    && s.pos + HEADROOM < PAGE_SIZE
  }

  /** JournalWriter::init: the last page from its first frame, or a first page. */
  function Started(s: State): State {
    if s.pages == [] then
      s.(pages := [BLANK], log := [[]], cur := 0, pos := PAGE_HEADER, frameNum := 0, writer := Making(Opening, 0))
    else
      var last := |s.pages| - 1;
      s.(cur := last, pos := PAGE_HEADER, frameNum := 0,
         writer := if s.pages[last].inited then Locating(Opening) else Making(Opening, 0))
  }

  function Located(s: State, call: Call): State {
    match call
    case Opening => s.(writer := Ready)
    case Writing(f) => s.(writer := Storing(FrameStores(s.pos, f), f))
    case Placing(nano) => s.(writer := Stamping(nano))
  }

  /** One turn of passWrittenFrame, or the decision of locateWritableFrame; a full page asks
      for the file of the next page before anything is done to this one. */
  function Locate(s: State, call: Call): State
    requires s.cur < |s.pages|
  {
    var m := s.pages[s.cur].mem;
    if Get(m, s.pos + STATUS) == WRITTEN then
      s.(pos := s.pos + LengthAt(m, s.pos), frameNum := s.frameNum + 1)
    else if Writable(s) then Located(s, call)
    else s.(pages := s.pages + [BLANK], log := s.log + [[]], writer := Making(call, 0))
  }

  /** Page::load by the writer: one header field after the other, the status before the version. */
  function MakePage(s: State, call: Call, stage: nat): State
    requires |s.pages| > 0
  {
    var last := |s.pages| - 1;
    var page := s.pages[last];
    var page' := match stage
      case 0 => page.(startNano := s.clock, stamped := true)
      case 1 => page.(closeNano := -1)
      case 2 => page.(pageNum := last + 1)
      case 3 => page.(inited := true)
      case _ => page.(version := VERSION);
    s.(pages := s.pages[last := page'],
       writer := if stage < 4 then Making(call, stage + 1) else if s.cur == last then Locating(call) else Closing(call, 0))
  }

  /** Page::finishPage, after which the writer moves to the new page. */
  function ClosePage(s: State, call: Call, stage: nat): State
    requires s.cur < |s.pages|
  {
    var page := s.pages[s.cur];
    match stage
    case 0 => s.(pages := s.pages[s.cur := page.(closeNano := s.clock)], writer := Closing(call, 1))
    case 1 => s.(pages := s.pages[s.cur := page.(frameNum := s.frameNum)], writer := Closing(call, 2))
    case 2 => s.(pages := s.pages[s.cur := page.(lastPos := s.pos)], writer := Closing(call, 3))
    case _ => Put(s, s.cur, s.pos + STATUS, PAGE_END)
              .(cur := s.cur + 1, pos := PAGE_HEADER, frameNum := 0, writer := Locating(call))
  }

  function MoveWriter(s: State): State
    requires s.cur < |s.pages| == |s.log|
  {
    match s.writer
    case Locating(call) => Locate(s, call)
    case Making(call, stage) => MakePage(s, call, stage)
    case Closing(call, stage) => ClosePage(s, call, stage)
    case Stamping(nano) => Put(s, s.cur, s.pos + NANO, nano).(writer := Placed(nano))
    case Storing(todo, f) =>
      if todo == [] then s.(writer := Clearing(f))
      else Put(s, s.cur, todo[0].at, todo[0].value).(writer := Storing(todo[1..], f))
    case Clearing(f) => Put(s, s.cur, s.pos + LengthAt(s.pages[s.cur].mem, s.pos) + STATUS, RAW).(writer := Publishing(f))
    case Publishing(f) =>
      Put(s, s.cur, s.pos + STATUS, WRITTEN)
      .(log := s.log[s.cur := s.log[s.cur] + [f]], writer := Passing)
    case Passing =>
      s.(pos := s.pos + LengthAt(s.pages[s.cur].mem, s.pos), frameNum := s.frameNum + 1, writer := Ready)
    case _ => s
  }

  // ---- The readers ----------------------------------------------------------------------

  datatype Loaded = Null | Mismatch | Usable

  /** Page::load by a reader: nothing while the file is missing or its header is not ready. The
      only version ever stored is VERSION, so reading it after the status makes no difference. */
  function LoadPage(s: State, p: nat): Loaded {
    if p >= |s.pages| || !s.pages[p].inited then Null
    else if s.pages[p].version > 0 && s.pages[p].version != VERSION then Mismatch
    else Usable
  }

  /** PageUtil::GetPageNumWithTime, as an index: the last page started before the time. */
  function PageWithTime(pages: seq<Page>, time: int): nat {
    if pages == [] then 0
    else if pages[|pages| - 1].startNano < time then |pages| - 1
    else PageWithTime(pages[..|pages| - 1], time)
  }

  /** How many published frames come before page p. */
  function Before(log: seq<seq<Frame>>, p: nat): nat {
    if p == 0 || p > |log| then 0 else Before(log, p - 1) + |log[p - 1]|
  }

  /** Journal::seekTime of a reader: the listing of the page files, which fixes their number. */
  function Sought(s: State, time: int): Reader {
    if time == TIME_FROM_FIRST || s.pages == [] then Found(Seek(time, 0, true))
    else if time == TIME_TO_LAST then Found(Seek(time, |s.pages| - 1, false))
    else Scanning(time, |s.pages|)
  }

  /** GetPageNumWithTime reads one page header; without a page started before the time it is the
      first page. */
  function ScanHeader(s: State, time: int, left: nat): Reader {
    if left == 0 || left > |s.pages| then Found(Seek(time, 0, true)) else
    var p := left - 1;
    if s.pages[p].startNano < time then Found(Seek(time, p, p == 0 || s.pages[p].stamped))
    else if p == 0 then Found(Seek(time, 0, true))
    else Scanning(time, p)
  }

  /** The page found is loaded, by now with whatever the writer has made of it. */
  function Open(s: State, seek: Seek): Reader {
    match LoadPage(s, seek.page)
    case Null => Expired
    case Mismatch => Failed
    case Usable =>
      On(seek.page, 0, PAGE_HEADER, seek, Before(s.log, seek.page), [], if seek.time == TIME_FROM_FIRST then Top else Seeking)
  }

  /** One read of a page by a reader: the rest of seekTime with passWrittenFrame or passToTime, then
      getNextFrame. */
  function MoveReader(s: State, r: Reader): Reader {
    match r
    case Scanning(time, left) => ScanHeader(s, time, left)
    case Found(seek) => Open(s, seek)
    case Lost(seen) =>
      (match LoadPage(s, 0)
       case Null => r
       case Mismatch => Failed
       case Usable => On(0, 0, PAGE_HEADER, Seek(TIME_FROM_FIRST, 0, true), 0, seen, Checking))
    case On(page, idx, pos, seek, from, seen, phase) =>
      if page >= |s.pages| then Failed else
      var m := s.pages[page].mem;
      (match phase
       case Seeking =>
         if Get(m, pos + STATUS) == WRITTEN && (seek.time == TIME_TO_LAST || Get(m, pos + NANO) < seek.time) then
           On(page, idx + 1, pos + LengthAt(m, pos), seek, from + 1, seen, Seeking)
         else r.(phase := Top)
       case Top => r.(phase := if Get(m, pos + STATUS) == PAGE_END then Loading else Checking)
       case Loading =>
         (match LoadPage(s, page + 1)
          case Null => Lost(seen)
          case Mismatch => Failed
          case Usable => On(page + 1, 0, PAGE_HEADER, seek, from, seen, Checking))
       case Checking => r.(phase := if Get(m, pos + STATUS) == WRITTEN then Taking else Top)
       case Taking => On(page, idx + 1, pos + LengthAt(m, pos), seek, from, seen + [FrameAt(m, pos)], Top))
    case _ => r
  }

  // ---- Runs -----------------------------------------------------------------------------

  ghost predicate Init(s: State) {
    s.pages == [] && s.log == [] && s.writer == Down && forall r :: r in s.readers ==> s.readers[r] == Off
  }

  predicate Enabled(s: State, a: Action) {
    match a
    case Tick(now) => s.clock <= now
    case Start => s.writer.Down?
    case Crash => !s.writer.Down?
    case WriteFrame(_, _, data) => s.writer.Ready? && FRAME_HEADER + |data| <= HEADROOM
    case LocateFrame => s.writer.Ready?
    case UserStore(i, _) => s.writer.Placed? && FRAME_HEADER + i < HEADROOM && s.cur < |s.pages|
    case PassFrame(length, _, _) => s.writer.Placed? && FRAME_HEADER + length <= HEADROOM && s.cur < |s.pages|
    case WriterMove => s.cur < |s.pages| == |s.log|
    case SeekTime(r, _) => r in s.readers
    case ReaderMove(r) => r in s.readers
  }

  function Apply(s: State, a: Action): State
    requires Enabled(s, a)
  {
    match a
    case Tick(now) => s.(clock := now)
    case Start => Started(s)
    case Crash => s.(writer := Down)
    case WriteFrame(msgType, lastFlag, data) =>
      s.(writer := Locating(Writing(Frame(s.clock, msgType, lastFlag, data))))
    case LocateFrame => s.(writer := Locating(Placing(s.clock)))
    case UserStore(i, b) => Put(s, s.cur, s.pos + FRAME_HEADER + i, b)
    case PassFrame(length, msgType, lastFlag) =>
      var f := Frame(s.writer.nano, msgType, lastFlag, Cells(s.pages[s.cur].mem, s.pos + FRAME_HEADER, length));
      s.(writer := Storing(HeaderStores(s.pos, f), f))
    case WriterMove => MoveWriter(s)
    case SeekTime(r, time) => s.(readers := s.readers[r := Sought(s, time)])
    case ReaderMove(r) => s.(readers := s.readers[r := MoveReader(s, s.readers[r])])
  }
}
