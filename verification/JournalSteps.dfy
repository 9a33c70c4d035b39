/** Every access of the writer keeps JournalInv.

    A store past the published frames changes nothing a reader relies on; publishing extends one
    chain by one frame; a page turn adds an empty page before it ends the old one.
 */
module JournalSteps {
  import opened Journal
  import opened JournalPages
  import opened JournalInvariant

  // ---- Steps that leave the log alone ----------------------------------------------------

  /** The log and the usable pages are as before. */
  ghost predicate SameLog(s: State, s': State) {
    && s'.log == s.log && |s'.pages| == |s.pages|
    && s'.readers == s.readers
    && forall p :: 0 <= p < |s.pages| ==>
         && (s.pages[p].inited ==> s'.pages[p].inited)
         && (LoadPage(s, p) == Usable ==> LoadPage(s', p) == Usable)
  }

  lemma SameLogReaders(s: State, s': State)
    requires JournalInv(s) && SameLog(s, s')
    ensures forall r :: r in s'.readers ==> ReaderOk(s', s'.readers[r])
  {
    hide All, ReaderOk, PageOk, StampsOk, WriterOk, PosOf;
    forall r | r in s'.readers
      ensures ReaderOk(s', s'.readers[r])
    {
      ReaderStable(s, s', s.readers[r]);
    }
  }

  /** A header field, a cursor or a program counter of the writer changes. */
  lemma QuietKeeps(s: State, s': State)
    requires JournalInv(s) && SameLog(s, s') && s'.clock == s.clock && WriterOk(s')
    requires forall p :: 0 <= p < |s.pages| ==>
               s'.pages[p].mem == s.pages[p].mem && (s'.pages[p].version == s.pages[p].version || s'.pages[p].version == VERSION)
               && (s.pages[p].stamped ==> s'.pages[p].stamped) && (s'.pages[p].inited ==> s.pages[p].inited || s'.pages[p].stamped)
    requires forall p :: 0 <= p < |s.pages| && s'.pages[p].stamped ==> StartedAfter(s', p)
    ensures JournalInv(s')
  {
    hide All, Chained, PosOf, WriterOk, ReaderOk, StartedAfter;
    SameLogReaders(s, s');
    forall p | 0 <= p < |s.pages|
      ensures PageOk(s', p)
    {
      assert PageOk(s, p);
    }
  }

  /** Only the writer's cursor and program counter change. */
  lemma CursorKeeps(s: State, s': State)
    requires JournalInv(s)
    requires s' == s.(cur := s'.cur, pos := s'.pos, frameNum := s'.frameNum, writer := s'.writer)
    requires WriterOk(s')
    ensures JournalInv(s')
  {
    hide All, PageOk, PosOf, WriterOk, ReaderOk;
    forall p | 0 <= p < |s.pages| && s'.pages[p].stamped
      ensures StartedAfter(s', p)
    {
      assert StartedAfter(s, p);
    }
    QuietKeeps(s, s');
  }

  /** A store past the published frames of the last page. */
  lemma PutKeeps(s: State, at: nat, value: int, s': State)
    requires JournalInv(s) && AtEnd(s) && at > s.pos
    requires s' == Put(s, s.cur, at, value).(writer := s'.writer) && WriterOk(s')
    ensures JournalInv(s')
  {
    PutKeepsPages(s, s.cur, at, value, s'.writer);
    hide All, PageOk, PosOf, WriterOk, ReaderOk;
    SameLogReaders(s, s');
    PutKeepsStamps(s, s');
  }

  lemma PutKeepsPages(s: State, c: nat, at: nat, value: int, w: Writer)
    requires |s.pages| == |s.log| && c < |s.pages| && forall p :: 0 <= p < |s.pages| ==> PageOk(s, p)
    requires s.pages[c].inited && at >= End(s.log[c])
    requires at == End(s.log[c]) + STATUS ==> value == PAGE_END && s.log[c] != [] && LoadPage(s, c + 1) == Usable
    ensures var s' := Put(s, c, at, value).(writer := w);
            forall p :: 0 <= p < |s'.pages| ==> PageOk(s', p)
  {
    hide Chained, PosOf;
    var s' := Put(s, c, at, value).(writer := w);
    assert PageOk(s, c);
    PutBeyond(s.pages[c].mem, s.log[c], at, value);
    forall p | 0 <= p < |s'.pages|
      ensures PageOk(s', p)
    {
      assert PageOk(s, p);
      assert LoadPage(s', p + 1) == LoadPage(s, p + 1);
    }
  }

  lemma PutKeepsStamps(s: State, s': State)
    requires |s.pages| == |s.log| && StampsOk(s)
    requires s'.log == s.log && s'.clock == s.clock && |s'.pages| == |s.pages|
    requires forall p :: 0 <= p < |s.pages| ==>
               s'.pages[p].startNano == s.pages[p].startNano && s'.pages[p].stamped == s.pages[p].stamped
    ensures StampsOk(s')
  {
    hide All;
    forall p | 0 <= p < |s'.pages| && s'.pages[p].stamped
      ensures StartedAfter(s', p)
    {
      assert StartedAfter(s, p);
    }
  }

  // ---- The writer's stores ---------------------------------------------------------------

  lemma StoreKeeps(s: State)
    requires JournalInv(s) && (s.writer.Storing? || s.writer.Stamping? || s.writer.Clearing?)
    ensures JournalInv(MoveWriter(s))
  {
    hide JournalInv, MoveWriter;
    match s.writer
    case Stamping(_) => StampKeeps(s);
    case Storing(_, _) => StoringKeeps(s);
    case Clearing(_) => ClearKeeps(s);
  }

  lemma StampKeeps(s: State)
    requires JournalInv(s) && s.writer.Stamping?
    ensures JournalInv(MoveWriter(s))
  {
    hide All, PageOk, PosOf, ReaderOk, StampsOk, Fresh;
    FreshSame(s, MoveWriter(s), s.writer.nano);
    PutKeeps(s, s.pos + NANO, s.writer.nano, MoveWriter(s));
  }

  lemma StoringKeeps(s: State)
    requires JournalInv(s) && s.writer.Storing?
    ensures JournalInv(MoveWriter(s))
  {
    hide All, PageOk, PosOf, ReaderOk, StampsOk, Filled, Fresh;
    var s', todo := MoveWriter(s), s.writer.todo;
    FreshSame(s, s', s.writer.f.nano);
    if todo == [] {
      CursorKeeps(s, s');
    } else {
      assert forall i :: 0 <= i < |todo[1..]| ==> todo[1..][i] == todo[i + 1];
      PutKeeps(s, todo[0].at, todo[0].value, s');
    }
  }

  lemma ClearKeeps(s: State)
    requires JournalInv(s) && s.writer.Clearing?
    ensures JournalInv(MoveWriter(s))
  {
    hide All, PageOk, PosOf, ReaderOk, StampsOk, Filled, Fresh;
    var s', m, f := MoveWriter(s), s.pages[s.cur].mem, s.writer.f;
    FreshSame(s, s', f.nano);
    FrameLength(m, s.pos, f);
    FilledFrame(m, s'.pages[s.cur].mem, s.pos, f);
    PutKeeps(s, s.pos + Length(f) + STATUS, RAW, s');
  }

  lemma FrameLength(m: Memory, pos: nat, f: Frame)
    requires Filled(m, pos, f)
    ensures LengthAt(m, pos) == Length(f)
  {
  }

  lemma FreshSame(s: State, s': State, nano: int)
    requires Fresh(s, nano) && s'.log == s.log && s'.clock == s.clock
    ensures Fresh(s', nano)
  {
    hide All;
  }

  // ---- Publishing ------------------------------------------------------------------------

  lemma PublishKeeps(s: State)
    requires JournalInv(s) && s.writer.Publishing?
    ensures JournalInv(MoveWriter(s))
  {
    hide All, PosOf, ReaderOk, PageOk, StampsOk;
    var s' := MoveWriter(s);
    AllAppends(s.log, s.writer.f);
    PublishKeepsPages(s);
    PublishKeepsStamps(s);
    PublishGrows(s);
    forall r | r in s'.readers
      ensures ReaderOk(s', s'.readers[r])
    {
      LoadingIsNotLast(s, s.readers[r]);
      ReaderStable(s, s', s.readers[r]);
    }
    PosOfPrefix(s.log[s.cur], s'.log[s.cur], s.frameNum);
  }

  lemma LoadingIsNotLast(s: State, r: Reader)
    requires |s.pages| == |s.log| && ReaderOk(s, r) && AtEnd(s)
    ensures r.On? && r.phase.Loading? ==> r.page < s.cur
  {
    hide All, PosOf;
  }

  lemma PublishGrows(s: State)
    requires s.cur < |s.pages| == |s.log| && WriterOk(s) && s.writer.Publishing?
    ensures Grown(s, MoveWriter(s))
  {
    hide All, PosOf, Filled;
    var s', f := MoveWriter(s), s.writer.f;
    AllAppends(s.log, f);
    forall p | 0 <= p < |s.pages|
      ensures s'.log[..p] == s.log[..p] && s.log[p] <= s'.log[p]
    {
    }
  }

  lemma PublishKeepsPages(s: State)
    requires s.cur < |s.pages| == |s.log| && WriterOk(s) && s.writer.Publishing? && forall p :: 0 <= p < |s.pages| ==> PageOk(s, p)
    ensures var s' := MoveWriter(s); |s'.pages| == |s'.log| && forall p :: 0 <= p < |s'.pages| ==> PageOk(s', p)
  {
    hide Chained, PosOf, Filled, Fresh;
    var s' := MoveWriter(s);
    assert PageOk(s, s.cur);
    PublishExtends(s.pages[s.cur].mem, s.log[s.cur], s.writer.f);
    forall p | 0 <= p < |s'.pages|
      ensures PageOk(s', p)
    {
      assert PageOk(s, p);
      assert LoadPage(s', p + 1) == LoadPage(s, p + 1);
    }
  }

  lemma PublishKeepsStamps(s: State)
    requires s.cur < |s.pages| == |s.log| && WriterOk(s) && s.writer.Publishing? && StampsOk(s)
    ensures StampsOk(MoveWriter(s))
  {
    hide All, PosOf, Filled;
    var s', f := MoveWriter(s), s.writer.f;
    AllAppends(s.log, f);
    forall p | 0 <= p < |s'.pages| && s'.pages[p].stamped
      ensures StartedAfter(s', p)
    {
      assert StartedAfter(s, p);
      assert s'.log[..p] == s.log[..p];
    }
  }

  lemma PassKeeps(s: State)
    requires JournalInv(s) && s.writer.Passing?
    ensures JournalInv(MoveWriter(s))
  {
    hide All, ReaderOk, StampsOk, FrameAt, PosOf, PageOk;
    var s' := MoveWriter(s);
    NextPosition(s, s.cur, s.frameNum, s.pos);
    CursorKeeps(s, s');
  }

  /** Frame::next from a published frame leads to the next one, or to the end. */
  lemma NextPosition(s: State, p: nat, idx: nat, pos: nat)
    requires p < |s.pages| == |s.log| && PageOk(s, p) && idx < |s.log[p]| && pos == PosOf(s.log[p], idx)
    ensures var m := s.pages[p].mem;
            && Get(m, pos + STATUS) == WRITTEN && FrameAt(m, pos) == s.log[p][idx]
            && Get(m, pos + NANO) == s.log[p][idx].nano
            && pos + LengthAt(m, pos) == PosOf(s.log[p], idx + 1)
  {
    hide PosOf;
    var frames := s.log[p];
    FrameLength(s.pages[p].mem, pos, frames[idx]);
    StepPosition(frames, idx);
  }

  lemma StepPosition(frames: seq<Frame>, idx: nat)
    requires idx < |frames|
    ensures PosOf(frames, idx + 1) == PosOf(frames, idx) + Length(frames[idx])
  {
  }

  /** A status that is not WRITTEN is found at the end of the chain only. */
  lemma EndPosition(s: State, p: nat, idx: nat, pos: nat)
    requires p < |s.pages| == |s.log| && PageOk(s, p) && idx <= |s.log[p]| && pos == PosOf(s.log[p], idx)
    ensures Get(s.pages[p].mem, pos + STATUS) == WRITTEN <==> idx < |s.log[p]|
    ensures idx == |s.log[p]| ==> Get(s.pages[p].mem, pos + STATUS) == RAW || Get(s.pages[p].mem, pos + STATUS) == PAGE_END
    ensures Get(s.pages[p].mem, pos + STATUS) == PAGE_END ==> idx == |s.log[p]| && LoadPage(s, p + 1) == Usable
  {
    hide PosOf, Filled;
    if idx < |s.log[p]| { NextPosition(s, p, idx, pos); }
  }

  // ---- Page turns ------------------------------------------------------------------------

  lemma LocateKeeps(s: State)
    requires JournalInv(s) && s.writer.Locating?
    ensures JournalInv(MoveWriter(s))
  {
    hide All, PosOf, ReaderOk, StampsOk, PageOk, Completes, Fresh, FrameStores;
    var s', m, call := MoveWriter(s), s.pages[s.cur].mem, s.writer.call;
    EndPosition(s, s.cur, s.frameNum, s.pos);
    if Get(m, s.pos + STATUS) == WRITTEN {
      NextPosition(s, s.cur, s.frameNum, s.pos);
      LocateCallOk(s, s', call);
      CursorKeeps(s, s');
    } else if Writable(s) {
      if call.Writing? { WriteCompletes(m, s.pos, call.f); }
      LocateCallOk(s, s', call);
      CursorKeeps(s, s');
    } else {
      assert s.pos > PAGE_HEADER;
      EmptyChain([]);
      NewPageKeeps(s, s');
    }
  }

  lemma LocateCallOk(s: State, s': State, call: Call)
    requires CallOk(s, call) && s'.log == s.log && s'.clock == s.clock
    ensures CallOk(s', call)
  {
    hide All;
  }

  lemma NewPageKeeps(s: State, s': State)
    requires JournalInv(s) && s.writer.Locating? && AtEnd(s) && s.log[s.cur] != []
    requires s' == s.(pages := s.pages + [BLANK], log := s.log + [[]], writer := Making(s.writer.call, 0))
    ensures JournalInv(s')
  {
    hide All, PosOf, ReaderOk, Chained;
    assert All(s'.log) == All(s.log) by { AllEmptyPage(s.log); }
    forall p | 0 <= p <= |s.pages|
      ensures s'.log[..p] == s.log[..p]
    {
    }
    EmptyChain(s'.log[|s.pages|]);
    forall p | 0 <= p < |s'.pages|
      ensures PageOk(s', p)
      ensures s'.pages[p].stamped ==> StartedAfter(s', p)
    {
      if p < |s.pages| { assert PageOk(s, p); }
    }
    forall r | r in s'.readers
      ensures ReaderOk(s', s'.readers[r])
    {
      LoadingIsNotLast(s, s.readers[r]);
      ReaderStable(s, s', s.readers[r]);
    }
  }

  lemma AllEmptyPage(log: seq<seq<Frame>>)
    ensures All(log + [[]]) == All(log)
  {
    assert (log + [[]])[..|log|] == log;
  }

  lemma MakeKeeps(s: State)
    requires JournalInv(s) && s.writer.Making?
    ensures JournalInv(MoveWriter(s))
  {
    hide All, ReaderOk, Chained, PosOf, Fresh;
    var s', last := MoveWriter(s), |s.pages| - 1;
    MakeStarted(s);
    LocateCallOk(s, s', s.writer.call);
    assert PageOk(s, last);
    EmptyChain(s.log[last]);
    QuietKeeps(s, s');
  }

  lemma MakeStarted(s: State)
    requires JournalInv(s) && s.writer.Making?
    ensures var s' := MoveWriter(s);
            && (forall p :: 0 <= p < |s.pages| && s'.pages[p].stamped ==> StartedAfter(s', p))
            && StartedAfter(s', |s.pages| - 1)
  {
    hide All, ReaderOk, Chained, PosOf, PageOk, Fresh;
    var s', last := MoveWriter(s), |s.pages| - 1;
    AllSplits(s.log, last);
    UpToPrefix(All(s.log[..last]), All(s.log), s.clock);
    forall p | 0 <= p < last && s'.pages[p].stamped
      ensures StartedAfter(s', p)
    {
      assert StartedAfter(s, p);
    }
  }

  lemma UpToPrefix(a: seq<Frame>, b: seq<Frame>, nano: int)
    requires a <= b && UpTo(b, nano)
    ensures UpTo(a, nano)
  {
    forall i | 0 <= i < |a|
      ensures a[i].nano <= nano
    {
      assert a[i] == b[i];
    }
  }

  lemma CloseKeeps(s: State)
    requires JournalInv(s) && s.writer.Closing?
    ensures JournalInv(MoveWriter(s))
  {
    hide All, ReaderOk, Chained, PosOf, Fresh, StartedAfter;
    var s' := MoveWriter(s);
    assert PageOk(s, s.cur);
    LocateCallOk(s, s', s.writer.call);
    if s.writer.stage < 3 {
      CloseStarted(s);
      QuietKeeps(s, s');
    } else {
      PutKeepsPages(s, s.cur, s.pos + STATUS, PAGE_END, s.writer);
      EmptyChain(s.log[s.cur + 1]);
      EndPageKeeps(s, s');
    }
  }

  lemma CloseStarted(s: State)
    requires JournalInv(s) && s.writer.Closing? && s.writer.stage < 3
    ensures var s' := MoveWriter(s); forall p :: 0 <= p < |s.pages| && s'.pages[p].stamped ==> StartedAfter(s', p)
  {
    hide All, ReaderOk, Chained, PosOf, PageOk, Fresh;
    var s' := MoveWriter(s);
    forall p | 0 <= p < |s.pages| && s'.pages[p].stamped
      ensures StartedAfter(s', p)
    {
      assert StartedAfter(s, p);
    }
  }

  lemma EndPageKeeps(s: State, s': State)
    requires JournalInv(s) && s.cur + 1 < |s.pages| && LoadPage(s, s.cur + 1) == Usable
    requires var put := Put(s, s.cur, s.pos + STATUS, PAGE_END);
             && s' == put.(cur := s'.cur, pos := s'.pos, frameNum := s'.frameNum, writer := s'.writer)
             && forall p :: 0 <= p < |s.pages| ==> PageOk(put.(writer := s.writer), p)
    requires WriterOk(s')
    ensures JournalInv(s')
  {
    hide All, ReaderOk, Chained, PosOf, StartedAfter, WriterOk;
    var put := Put(s, s.cur, s.pos + STATUS, PAGE_END).(writer := s.writer);
    SameLogReaders(s, s');
    PutKeepsStamps(s, s');
    forall p | 0 <= p < |s'.pages|
      ensures PageOk(s', p)
    {
      assert PageOk(put, p);
    }
  }
}
