/** What every access by the writer and the readers keeps: pages are chains of complete frames,
    a page is ended only when its successor can be loaded, stamps never go back, and every reader
    has seen a gapless piece of what was published. */
module JournalInvariant {
  import opened Journal
  import opened JournalPages

  /** Everything published, in order. */
  ghost function All(log: seq<seq<Frame>>): seq<Frame> {
    if log == [] then [] else All(log[..|log| - 1]) + log[|log| - 1]
  }

  ghost predicate PageOk(s: State, p: nat)
    requires p < |s.pages| == |s.log|
  {
    var page, frames := s.pages[p], s.log[p];
    && (page.version == 0 || page.version == VERSION)
    && Chained(page.mem, frames)
    && End(frames) + STATUS < PAGE_SIZE
    && (Get(page.mem, End(frames) + STATUS) == PAGE_END ==> frames != [] && LoadPage(s, p + 1) == Usable)
    && (if page.inited then page.stamped else frames == [] && page.mem == map[])
  }

  // ---- Stamps ---------------------------------------------------------------------------

  ghost predicate Sorted(frames: seq<Frame>) {
    forall i, j :: 0 <= i < j < |frames| ==> frames[i].nano <= frames[j].nano
  }

  ghost predicate UpTo(frames: seq<Frame>, nano: int) {
    forall i :: 0 <= i < |frames| ==> frames[i].nano <= nano
  }

  /** Page p was started after every frame of the pages before it was stamped. */
  ghost predicate StartedAfter(s: State, p: nat)
    requires p < |s.pages| == |s.log|
  {
    UpTo(All(s.log[..p]), s.pages[p].startNano)
  }

  ghost predicate StampsOk(s: State)
    requires |s.pages| == |s.log|
  {
    && Sorted(All(s.log))
    && UpTo(All(s.log), s.clock)
    && forall p :: 0 <= p < |s.pages| && s.pages[p].stamped ==> StartedAfter(s, p)
  }

  ghost predicate Fresh(s: State, nano: int) {
    nano <= s.clock && UpTo(All(s.log), nano)
  }

  // ---- The writer -----------------------------------------------------------------------

  ghost predicate CallOk(s: State, call: Call) {
    match call
    case Opening => true
    case Writing(f) => Fresh(s, f.nano) && Length(f) <= HEADROOM
    case Placing(nano) => Fresh(s, nano)
  }

  predicate OnLastPage(s: State) {
    s.cur + 1 == |s.pages| == |s.log| && s.pages[s.cur].inited
  }

  /** The writer is where the next frame goes. */
  predicate AtEnd(s: State) {
    OnLastPage(s) && s.frameNum == |s.log[s.cur]| && s.pos == End(s.log[s.cur])
  }

  ghost predicate WriterOk(s: State)
    requires |s.pages| == |s.log|
  {
    match s.writer
    case Down => true
    case Ready => AtEnd(s)
    case Locating(call) =>
      OnLastPage(s) && s.frameNum <= |s.log[s.cur]| && s.pos == PosOf(s.log[s.cur], s.frameNum) && CallOk(s, call)
    case Making(call, stage) => stage <= 4 && MakingOk(s, stage) && CallOk(s, call)
    case Closing(call, stage) =>
      && stage <= 3 && s.cur + 2 == |s.pages| && s.pages[s.cur].inited && LoadPage(s, s.cur + 1) == Usable && s.log[s.cur + 1] == []
      && s.log[s.cur] != [] && s.pos == End(s.log[s.cur]) && CallOk(s, call)
    case Stamping(nano) => AtEnd(s) && s.pos + HEADROOM < PAGE_SIZE && Fresh(s, nano)
    case Placed(nano) =>
      AtEnd(s) && s.pos + HEADROOM < PAGE_SIZE && Fresh(s, nano) && Get(s.pages[s.cur].mem, s.pos + NANO) == nano
    case Storing(todo, f) => FrameOk(s, f) && Completes(s.pages[s.cur].mem, s.pos, todo, f)
    case Clearing(f) => FrameOk(s, f) && Filled(s.pages[s.cur].mem, s.pos, f)
    case Publishing(f) =>
      && FrameOk(s, f) && Filled(s.pages[s.cur].mem, s.pos, f)
      && Get(s.pages[s.cur].mem, s.pos + Length(f) + STATUS) == RAW
    case Passing =>
      OnLastPage(s) && s.frameNum + 1 == |s.log[s.cur]| && s.pos == PosOf(s.log[s.cur], s.frameNum)
  }

  ghost predicate FrameOk(s: State, f: Frame) {
    AtEnd(s) && s.pos + HEADROOM < PAGE_SIZE && Fresh(s, f.nano) && Length(f) <= HEADROOM
  }

  ghost predicate MakingOk(s: State, stage: nat)
    requires |s.pages| == |s.log|
  {
    && |s.pages| > 0
    && var last := |s.pages| - 1;
       && s.log[last] == [] && s.pages[last].mem == map[]
       && (s.pages[last].inited <==> stage >= 4)
       && (stage >= 1 ==> s.pages[last].stamped && StartedAfter(s, last))
       && if s.cur == last then s.pos == PAGE_HEADER && s.frameNum == 0
          else s.cur + 1 == last && s.pages[s.cur].inited && s.log[s.cur] != [] && s.pos == End(s.log[s.cur])
  }

  // ---- The readers ----------------------------------------------------------------------

  ghost predicate StampedBefore(frames: seq<Frame>, time: int) {
    forall i :: 0 <= i < |frames| ==> frames[i].nano < time
  }

  /** A page found by its start stamp has only older frames before it. */
  ghost predicate FoundOk(s: State, seek: Seek)
    requires |s.pages| == |s.log|
  {
    && (seek.page == 0 || seek.page < |s.pages|)
    && (seek.time == TIME_FROM_FIRST ==> seek.page == 0)
    && (seek.time != TIME_TO_LAST && seek.stamped ==> StampedBefore(All(s.log[..seek.page]), seek.time))
  }

  /** Inside the page it found, a seek passes only older frames. */
  ghost predicate PassedOk(s: State, seek: Seek, from: nat)
    requires |s.pages| == |s.log| && (seek.page == 0 || seek.page < |s.pages|) && from <= |All(s.log)|
  {
    && |All(s.log[..seek.page])| <= from
    && (seek.time == TIME_FROM_FIRST ==> from == 0)
    && (seek.time != TIME_TO_LAST ==> forall i :: |All(s.log[..seek.page])| <= i < from ==> All(s.log)[i].nano < seek.time)
  }

  ghost predicate ReaderOk(s: State, r: Reader)
    requires |s.pages| == |s.log|
  {
    match r
    case Off => true
    case Expired => true
    case Failed => false
    case Lost(_) => false
    case Scanning(time, left) => 0 < left <= |s.pages| && time != TIME_FROM_FIRST && time != TIME_TO_LAST
    case Found(seek) => FoundOk(s, seek)
    case On(page, idx, pos, seek, from, seen, phase) =>
      && page < |s.pages| && s.pages[page].inited
      && idx <= |s.log[page]| && pos == PosOf(s.log[page], idx)
      && from + |seen| == |All(s.log[..page])| + idx <= |All(s.log)|
      && seen == All(s.log)[from..from + |seen|]
      && FoundOk(s, seek) && PassedOk(s, seek, from)
      && (phase.Seeking? ==> seen == [] && seek.time != TIME_FROM_FIRST)
      && (phase.Loading? ==> idx == |s.log[page]| && LoadPage(s, page + 1) == Usable)
      && (phase.Taking? ==> idx < |s.log[page]|)
  }

  ghost predicate JournalInv(s: State) {
    && |s.pages| == |s.log|
    && (forall p :: 0 <= p < |s.pages| ==> PageOk(s, p))
    && StampsOk(s)
    && WriterOk(s)
    && forall r :: r in s.readers ==> ReaderOk(s, s.readers[r])
  }

  // ---- How the log grows ----------------------------------------------------------------

  lemma {:induction false} AllSplits(log: seq<seq<Frame>>, p: nat)
    requires p < |log|
    ensures All(log[..p + 1]) == All(log[..p]) + log[p]
    ensures All(log[..p + 1]) <= All(log)
    decreases |log|
  {
    var last := |log| - 1;
    assert log[..p + 1][..p] == log[..p];
    if p < last {
      AllSplits(log[..last], p);
      assert log[..last][..p] == log[..p] && log[..last][..p + 1] == log[..p + 1];
    } else {
      assert log[..p + 1] == log;
    }
  }

  lemma {:induction false} BeforeCounts(log: seq<seq<Frame>>, p: nat)
    requires p <= |log|
    ensures Before(log, p) == |All(log[..p])|
  {
    if p > 0 {
      BeforeCounts(log, p - 1);
      AllSplits(log, p - 1);
    }
  }

  /** Frame idx of page p is the next frame after the pages before it. */
  lemma FrameOfAll(log: seq<seq<Frame>>, p: nat, idx: nat)
    requires p < |log| && idx <= |log[p]|
    ensures |All(log[..p])| + idx <= |All(log)|
    ensures idx < |log[p]| ==> |All(log[..p])| + idx < |All(log)| && All(log)[|All(log[..p])| + idx] == log[p][idx]
  {
    AllSplits(log, p);
  }

  lemma AllAppends(log: seq<seq<Frame>>, f: Frame)
    requires |log| > 0
    ensures var last := |log| - 1; All(log[last := log[last] + [f]]) == All(log) + [f]
    ensures var last := |log| - 1; log[last := log[last] + [f]][..last] == log[..last]
  {
    var last := |log| - 1;
    var log' := log[last := log[last] + [f]];
    assert log'[..last] == log[..last];
    assert All(log') == All(log'[..last]) + (log[last] + [f]);
  }

  ghost predicate Grown(s: State, s': State)
    requires |s.pages| == |s.log| && |s'.pages| == |s'.log|
  {
    && |s.pages| <= |s'.pages|
    && All(s.log) <= All(s'.log)
    && forall p :: 0 <= p < |s.pages| ==>
         && s.log[p] <= s'.log[p] && All(s'.log[..p]) == All(s.log[..p])
         && (s.pages[p].inited ==> s'.pages[p].inited)
         && (LoadPage(s, p) == Usable ==> LoadPage(s', p) == Usable)
  }

  /** Readers never lose what they rely on. */
  lemma ReaderStable(s: State, s': State, r: Reader)
    requires |s.pages| == |s.log| && |s'.pages| == |s'.log|
    requires Grown(s, s') && ReaderOk(s, r)
    requires r.On? && r.phase.Loading? ==> s'.log[r.page] == s.log[r.page]
    ensures ReaderOk(s', r)
  {
    hide All, PosOf;
    if r.On? {
      PosOfPrefix(s.log[r.page], s'.log[r.page], r.idx);
    }
  }
}
