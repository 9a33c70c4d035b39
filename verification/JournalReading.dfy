/** The journal's promise to its readers, over every run: a reader has seen exactly the frames
    published after the point it sought to, complete, in order, without gap or repeat, and it
    never falls back to the first page at a page turn. */
module JournalReading {
  import opened Journal
  import opened JournalPages
  import opened JournalInvariant
  import opened JournalSteps

  // ---- Actions of the writer's process ---------------------------------------------------

  lemma WriterMoveKeeps(s: State)
    requires JournalInv(s) && s.cur < |s.pages|
    ensures JournalInv(MoveWriter(s))
  {
    hide JournalInv, MoveWriter;
    match s.writer
    case Locating(_) => LocateKeeps(s);
    case Making(_, _) => MakeKeeps(s);
    case Closing(_, _) => CloseKeeps(s);
    case Publishing(_) => PublishKeeps(s);
    case Passing => PassKeeps(s);
    case Stamping(_) => StoreKeeps(s);
    case Storing(_, _) => StoreKeeps(s);
    case Clearing(_) => StoreKeeps(s);
    case _ => IdleWriter(s);
  }

  lemma IdleWriter(s: State)
    requires JournalInv(s) && s.cur < |s.pages| && (s.writer.Down? || s.writer.Ready? || s.writer.Placed?)
    ensures MoveWriter(s) == s
  {
  }

  lemma TickKeeps(s: State, now: int)
    requires JournalInv(s) && s.clock <= now
    ensures JournalInv(s.(clock := now))
  {
    hide All, Chained, PosOf, Completes, Filled, ReaderOk;
    var s' := s.(clock := now);
    forall p | 0 <= p < |s.pages|
      ensures PageOk(s', p) && (s.pages[p].stamped ==> StartedAfter(s', p))
    {
      assert PageOk(s, p);
    }
    SameLogReaders(s, s');
    TickStamps(s, s');
  }

  lemma TickStamps(s: State, s': State)
    requires JournalInv(s) && s' == s.(clock := s'.clock) && s.clock <= s'.clock
    ensures UpTo(All(s'.log), s'.clock) && WriterOk(s')
  {
    hide All, Chained, PosOf, Completes, Filled, ReaderOk, PageOk;
    assert forall p :: 0 <= p < |s.pages| ==> (StartedAfter(s', p) <==> StartedAfter(s, p));
  }

  lemma StartKeeps(s: State)
    requires JournalInv(s) && s.writer.Down?
    ensures JournalInv(Started(s))
  {
    hide All, Chained, ReaderOk;
    var s' := Started(s);
    if s.pages == [] {
      EmptyChain([]);
      NothingPublished();
      forall r | r in s'.readers
        ensures ReaderOk(s', s'.readers[r])
      {
        NoReaderYet(s, s', s.readers[r]);
      }
    } else {
      var last := |s.pages| - 1;
      assert PageOk(s, last);
      EmptyChain([]);
      CursorKeeps(s, s');
    }
  }

  lemma NothingPublished()
    ensures All([]) == [] && All([[]]) == []
  {
    var none: seq<seq<Frame>> := [];
    AllEmptyPage(none);
    assert none + [[]] == [[]];
  }

  lemma NoReaderYet(s: State, s': State, r: Reader)
    requires |s.pages| == |s.log| == 0 && ReaderOk(s, r) && |s'.pages| == |s'.log|
    ensures ReaderOk(s', r)
  {
  }

  /** The stamp is taken when the frame is asked for, before room is found for it. */
  lemma CallKeeps(s: State, call: Call)
    requires JournalInv(s) && s.writer.Ready?
    requires match call case Opening => false case Writing(f) => f.nano == s.clock && Length(f) <= HEADROOM
                        case Placing(nano) => nano == s.clock
    ensures JournalInv(s.(writer := Locating(call)))
  {
    hide All, PageOk, ReaderOk, PosOf;
    CursorKeeps(s, s.(writer := Locating(call)));
  }

  lemma UserStoreKeeps(s: State, i: nat, b: int)
    requires JournalInv(s) && Enabled(s, UserStore(i, b))
    ensures JournalInv(Apply(s, UserStore(i, b)))
  {
    hide All, PageOk, ReaderOk, PosOf, StampsOk;
    var s' := Apply(s, UserStore(i, b));
    FreshSame(s, s', s.writer.nano);
    PutKeeps(s, s.pos + FRAME_HEADER + i, b, s');
  }

  lemma PassFrameKeeps(s: State, length: nat, msgType: int, lastFlag: int)
    requires JournalInv(s) && Enabled(s, PassFrame(length, msgType, lastFlag))
    ensures JournalInv(Apply(s, PassFrame(length, msgType, lastFlag)))
  {
    hide All, PageOk, ReaderOk, PosOf, StampsOk, Completes, HeaderStores;
    var s' := Apply(s, PassFrame(length, msgType, lastFlag));
    PassCompletes(s.pages[s.cur].mem, s.pos, s'.writer.f);
    FreshSame(s, s', s.writer.nano);
    CursorKeeps(s, s');
  }

  // ---- Actions of a reader ---------------------------------------------------------------

  lemma ReaderKeeps(s: State, r: nat, reader: Reader)
    requires JournalInv(s) && ReaderOk(s, reader)
    ensures JournalInv(s.(readers := s.readers[r := reader]))
  {
    hide All, Chained, PosOf, Completes, Filled;
    var s' := s.(readers := s.readers[r := reader]);
    forall p | 0 <= p < |s.pages|
      ensures PageOk(s', p) && (s.pages[p].stamped ==> StartedAfter(s', p))
    {
      assert PageOk(s, p);
    }
    TickStamps(s, s.(clock := s.clock));
    ReaderWriter(s, s');
    forall x | x in s'.readers
      ensures ReaderOk(s', s'.readers[x])
    {
      ReaderStable(s, s', s'.readers[x]);
    }
  }

  lemma ReaderWriter(s: State, s': State)
    requires JournalInv(s) && s' == s.(readers := s'.readers)
    ensures WriterOk(s')
  {
    hide All, Chained, PosOf, Completes, Filled, ReaderOk, PageOk;
    assert forall p :: 0 <= p < |s.pages| ==> (StartedAfter(s', p) <==> StartedAfter(s, p));
  }

  /** The page found by time: everything before it was stamped before the time. */
  lemma {:induction false} PageWithTimeFound(pages: seq<Page>, time: int)
    requires pages != []
    ensures PageWithTime(pages, time) < |pages|
    ensures PageWithTime(pages, time) > 0 ==> pages[PageWithTime(pages, time)].startNano < time
    ensures forall p :: PageWithTime(pages, time) < p < |pages| ==> pages[p].startNano >= time
    decreases |pages|
  {
    var n := |pages| - 1;
    if pages[n].startNano >= time {
      if n == 0 {
        assert pages[..n] == [];
      } else {
        PageWithTimeFound(pages[..n], time);
        forall p | PageWithTime(pages, time) < p < |pages|
          ensures pages[p].startNano >= time
        {
          if p < n { assert pages[p] == pages[..n][p]; }
        }
      }
    }
  }

  lemma NothingBefore(s: State, seek: Seek)
    requires |s.pages| == |s.log| && seek.page == 0
    ensures FoundOk(s, seek)
  {
    assert s.log[..0] == [];
  }

  /** The listing of the pages. */
  lemma SoughtKeeps(s: State, time: int)
    requires JournalInv(s)
    ensures ReaderOk(s, Sought(s, time))
  {
    hide All, ReaderOk, WriterOk, StampsOk, PageOk;
    NothingBefore(s, Seek(time, 0, true));
    SoughtOk(s, time);
  }

  lemma SoughtOk(s: State, time: int)
    requires |s.pages| == |s.log| && FoundOk(s, Seek(time, 0, true))
    ensures ReaderOk(s, Sought(s, time))
  {
    hide All;
  }

  /** One header: a page whose start stamp was stored, and is older, has only older frames before it. */
  lemma ScanKeeps(s: State, r: Reader)
    requires JournalInv(s) && r.Scanning? && ReaderOk(s, r)
    ensures ReaderOk(s, ScanHeader(s, r.time, r.left))
  {
    hide All, PageOk, WriterOk, Sorted;
    NothingBefore(s, Seek(r.time, 0, true));
    var p := r.left - 1;
    if p > 0 && s.pages[p].stamped && s.pages[p].startNano < r.time {
      assert StartedAfter(s, p);
    }
  }

  lemma OpenKeeps(s: State, r: Reader)
    requires JournalInv(s) && r.Found? && ReaderOk(s, r)
    ensures ReaderOk(s, Open(s, r.seek))
  {
    hide All, PosOf, WriterOk, StampsOk, Before, Chained;
    var p := r.seek.page;
    if p < |s.pages| {
      assert PageOk(s, p);
      if s.pages[p].inited { FirstOfPage(s, r.seek); }
    }
  }

  /** A reader that has just opened a page. */
  lemma FirstOfPage(s: State, seek: Seek)
    requires |s.pages| == |s.log| && FoundOk(s, seek) && seek.page < |s.pages| && s.pages[seek.page].inited
    ensures ReaderOk(s, On(seek.page, 0, PAGE_HEADER, seek, Before(s.log, seek.page), [], if seek.time == TIME_FROM_FIRST then Top else Seeking))
  {
    hide All, FoundOk;
    var p := seek.page;
    BeforeCounts(s.log, p);
    FrameOfAll(s.log, p, 0);
    assert All(s.log)[Before(s.log, p)..Before(s.log, p)] == [];
    assert p == 0 ==> Before(s.log, p) == 0;
    assert seek.time == TIME_FROM_FIRST ==> p == 0 by { FromFirst(s, seek); }
  }

  lemma FromFirst(s: State, seek: Seek)
    requires |s.pages| == |s.log| && FoundOk(s, seek)
    ensures seek.time == TIME_FROM_FIRST ==> seek.page == 0
  {
  }

  lemma ReaderMoveKeeps(s: State, r: Reader)
    requires JournalInv(s) && ReaderOk(s, r)
    ensures ReaderOk(s, MoveReader(s, r))
  {
    if r.Scanning? {
      hide JournalInv, ReaderOk, ScanHeader;
      ScanKeeps(s, r);
    } else if r.Found? {
      hide JournalInv, ReaderOk, Open;
      OpenKeeps(s, r);
    } else if r.On? {
      OnPage(s, r);
      hide ReaderOk, MoveReader, PageOk, StampsOk, WriterOk;
      match r.phase
      case Seeking => SeekMove(s, r);
      case Top => LookMove(s, r);
      case Loading => LoadMove(s, r);
      case Checking => LookMove(s, r);
      case Taking => TakeMove(s, r);
    }
  }

  lemma OnPage(s: State, r: Reader)
    requires |s.pages| == |s.log| && ReaderOk(s, r) && r.On?
    ensures r.page < |s.pages| && r.idx <= |s.log[r.page]| && r.pos == PosOf(s.log[r.page], r.idx)
    ensures r.phase.Taking? ==> r.idx < |s.log[r.page]|
    ensures r.phase.Loading? ==> LoadPage(s, r.page + 1) == Usable
  {
    hide All, PosOf;
  }

  lemma LookMove(s: State, r: Reader)
    requires |s.pages| == |s.log| && ReaderOk(s, r) && r.On? && (r.phase.Top? || r.phase.Checking?) && PageOk(s, r.page)
    ensures ReaderOk(s, MoveReader(s, r))
  {
    hide All, PosOf, PageOk, FrameAt;
    EndPosition(s, r.page, r.idx, r.pos);
  }

  lemma SeekMove(s: State, r: Reader)
    requires |s.pages| == |s.log| && ReaderOk(s, r) && r.On? && r.phase.Seeking? && PageOk(s, r.page)
    ensures ReaderOk(s, MoveReader(s, r))
  {
    hide All, PosOf, PageOk, FrameAt;
    EndPosition(s, r.page, r.idx, r.pos);
    var nano := Get(s.pages[r.page].mem, r.pos + NANO);
    if r.idx < |s.log[r.page]| {
      NextPosition(s, r.page, r.idx, r.pos);
      if r.seek.time == TIME_TO_LAST || nano < r.seek.time { SeekOk(s, r); }
    }
  }

  lemma TakeMove(s: State, r: Reader)
    requires |s.pages| == |s.log| && ReaderOk(s, r) && r.On? && r.phase.Taking? && PageOk(s, r.page)
    ensures ReaderOk(s, MoveReader(s, r))
  {
    TakeOk(s, r);
    OnPage(s, r);
    hide All, PosOf, PageOk, FrameAt, ReaderOk, MoveReader, Get, LengthAt, Length;
    NextPosition(s, r.page, r.idx, r.pos);
    TakeResult(s, r, s.log[r.page][r.idx], PosOf(s.log[r.page], r.idx + 1));
  }

  lemma TakeResult(s: State, r: Reader, f: Frame, next: nat)
    requires r.On? && r.phase.Taking? && r.page < |s.pages|
    requires FrameAt(s.pages[r.page].mem, r.pos) == f && r.pos + LengthAt(s.pages[r.page].mem, r.pos) == next
    ensures MoveReader(s, r) == On(r.page, r.idx + 1, next, r.seek, r.from, r.seen + [f], Top)
  {
    hide FrameAt, LengthAt;
  }

  lemma LoadMove(s: State, r: Reader)
    requires |s.pages| == |s.log| && ReaderOk(s, r) && r.On? && r.phase.Loading?
    ensures ReaderOk(s, MoveReader(s, r))
  {
    LoadOk(s, r);
    hide All, PosOf;
  }

  lemma TakeOk(s: State, r: Reader)
    requires |s.pages| == |s.log| && ReaderOk(s, r) && r.On? && r.phase.Taking?
    ensures ReaderOk(s, On(r.page, r.idx + 1, PosOf(s.log[r.page], r.idx + 1), r.seek, r.from,
                           r.seen + [s.log[r.page][r.idx]], Top))
  {
    hide All, PosOf;
    FrameOfAll(s.log, r.page, r.idx);
    FrameOfAll(s.log, r.page, r.idx + 1);
    var all, at := All(s.log), r.from + |r.seen|;
    assert all[r.from..at + 1] == all[r.from..at] + [all[at]];
  }

  lemma SeekOk(s: State, r: Reader)
    requires |s.pages| == |s.log| && ReaderOk(s, r) && r.On? && r.phase.Seeking? && r.idx < |s.log[r.page]|
    requires r.seek.time == TIME_TO_LAST || s.log[r.page][r.idx].nano < r.seek.time
    ensures ReaderOk(s, On(r.page, r.idx + 1, PosOf(s.log[r.page], r.idx + 1), r.seek, r.from + 1, [], Seeking))
  {
    hide All, PosOf;
    FrameOfAll(s.log, r.page, r.idx);
    FrameOfAll(s.log, r.page, r.idx + 1);
  }

  lemma LoadOk(s: State, r: Reader)
    requires |s.pages| == |s.log| && ReaderOk(s, r) && r.On? && r.phase.Loading?
    ensures ReaderOk(s, On(r.page + 1, 0, PAGE_HEADER, r.seek, r.from, r.seen, Checking))
  {
    hide All;
    AllSplits(s.log, r.page);
    FrameOfAll(s.log, r.page + 1, 0);
  }

  // ---- Every action, every run -------------------------------------------------------------

  lemma InitKeeps(s: State)
    requires Init(s)
    ensures JournalInv(s)
  {
    assert All(s.log) == [];
  }

  lemma ActionKeeps(s: State, a: Action)
    requires JournalInv(s) && Enabled(s, a)
    ensures JournalInv(Apply(s, a))
  {
    hide All, PageOk, ReaderOk, WriterOk, StampsOk, MoveWriter, MoveReader, Sought, Started;
    match a
    case Tick(now) => TickKeeps(s, now);
    case Start => StartKeeps(s);
    case Crash => CrashKeeps(s);
    case WriteFrame(msgType, lastFlag, data) => CallKeeps(s, Writing(Frame(s.clock, msgType, lastFlag, data)));
    case LocateFrame => CallKeeps(s, Placing(s.clock));
    case UserStore(i, b) => UserStoreKeeps(s, i, b);
    case PassFrame(length, msgType, lastFlag) => PassFrameKeeps(s, length, msgType, lastFlag);
    case WriterMove => WriterMoveKeeps(s);
    case SeekTime(r, time) =>
      SoughtKeeps(s, time);
      ReaderKeeps(s, r, Sought(s, time));
    case ReaderMove(r) =>
      ReaderMoveKeeps(s, s.readers[r]);
      ReaderKeeps(s, r, MoveReader(s, s.readers[r]));
  }

  lemma CrashKeeps(s: State)
    requires JournalInv(s)
    ensures JournalInv(s.(writer := Down))
  {
    hide All, PageOk, ReaderOk, PosOf;
    CursorKeeps(s, s.(writer := Down));
  }

  ghost predicate IsRun(states: seq<State>, actions: seq<Action>) {
    && |states| == |actions| + 1
    && forall i :: 0 <= i < |actions| ==> Enabled(states[i], actions[i]) && states[i + 1] == Apply(states[i], actions[i])
  }

  lemma {:induction false} RunKeeps(states: seq<State>, actions: seq<Action>)
    requires IsRun(states, actions) && JournalInv(states[0])
    ensures forall i :: 0 <= i < |states| ==> JournalInv(states[i])
  {
    hide JournalInv, Enabled, Apply;
    var n := |actions|;
    if n > 0 {
      RunKeeps(states[..n], actions[..n - 1]);
      assert states[..n][n - 1] == states[n - 1];
      ActionKeeps(states[n - 1], actions[n - 1]);
      forall i | 0 <= i < |states|
        ensures JournalInv(states[i])
      {
        if i < n { assert states[..n][i] == states[i]; }
      }
    }
  }
}
