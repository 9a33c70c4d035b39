/** What the users of a journal are promised, over every run. */
module JournalTheorems {
  import opened Journal
  import opened JournalPages
  import opened JournalInvariant
  import opened JournalSteps
  import opened JournalReading
  import opened Wrappers

  // ---- Safety ------------------------------------------------------------------------------

  /** A seek skipped only frames stamped before the time it asked for. */
  ghost predicate SkippedRight(s: State, r: Reader)
    requires r.On? && r.from <= |All(s.log)|
  {
    forall i :: 0 <= i < r.from ==> All(s.log)[i].nano < r.seek.time
  }

  /** The last frame published before page p is stamped before the time. */
  ghost predicate LastIsBefore(s: State, p: nat, time: int)
    requires p <= |s.log|
  {
    var before := All(s.log[..p]);
    before == [] || before[|before| - 1].nano < time
  }

  /** A reader has seen a gapless piece of what was published. One that started from the first page
      has seen a prefix. One that sought to a time skipped only frames stamped before it, exactly
      when the start stamp of the page it found was stored before it read the header, or nothing
      later was published before that page anyway. None of them lost its page. */
  ghost predicate SeesThePiece(s: State, r: Reader) {
    && !r.Lost? && !r.Failed?
    && (r.On? ==>
          var all := All(s.log);
          && r.from + |r.seen| <= |all| && r.seek.page <= |s.log|
          && all[r.from..r.from + |r.seen|] == r.seen
          && (r.seek.time == TIME_FROM_FIRST ==> r.seen <= all)
          && (r.seek.time != TIME_TO_LAST ==>
                (SkippedRight(s, r) <==> r.seek.stamped || LastIsBefore(s, r.seek.page, r.seek.time))))
  }

  lemma ReaderSeesThePiece(s: State, r: Reader)
    requires |s.pages| == |s.log| && Sorted(All(s.log)) && ReaderOk(s, r)
    ensures SeesThePiece(s, r)
  {
    if r.On? && r.seek.time != TIME_TO_LAST { SkippedIff(s, r); }
    hide All, PosOf, SkippedRight, LastIsBefore, Sorted;
  }

  lemma SkippedIff(s: State, r: Reader)
    requires |s.pages| == |s.log| && Sorted(All(s.log)) && ReaderOk(s, r) && r.On? && r.seek.time != TIME_TO_LAST
    ensures r.from <= |All(s.log)| && r.seek.page <= |s.log|
    ensures SkippedRight(s, r) <==> LastIsBefore(s, r.seek.page, r.seek.time)
    ensures r.seek.stamped ==> LastIsBefore(s, r.seek.page, r.seek.time)
  {
    hide All, PosOf;
    var all, before := All(s.log), All(s.log[..r.seek.page]);
    PrefixOfAll(s.log, r.seek.page);
    assert forall i :: 0 <= i < |before| ==> before[i] == all[i];
  }

  lemma PrefixOfAll(log: seq<seq<Frame>>, p: nat)
    requires p <= |log|
    ensures All(log[..p]) <= All(log)
  {
    if p < |log| {
      AllSplits(log, p);
    } else {
      assert log[..p] == log;
    }
  }

  /** Every interleaving of the writer's accesses with those of any readers, with crashes and
      restarts of the writer and any number of page turns. */
  lemma EveryReaderSeesThePiece(states: seq<State>, actions: seq<Action>, i: nat, r: nat)
    requires IsRun(states, actions) && Init(states[0])
    requires i < |states| && r in states[i].readers
    ensures SeesThePiece(states[i], states[i].readers[r])
  {
    hide Enabled, Apply, SeesThePiece, Init, PageOk, ReaderOk, WriterOk, StampsOk;
    InitKeeps(states[0]);
    RunKeeps(states, actions);
    JournalIsSorted(states, actions, i);
    ReaderSeesThePiece(states[i], states[i].readers[r]);
  }

  /** Stamps never go back along the journal, across pages and restarts. */
  lemma JournalIsSorted(states: seq<State>, actions: seq<Action>, i: nat)
    requires IsRun(states, actions) && Init(states[0]) && i < |states|
    ensures Sorted(All(states[i].log))
  {
    hide Enabled, Apply, Init, PageOk, ReaderOk, WriterOk, All;
    InitKeeps(states[0]);
    RunKeeps(states, actions);
    assert JournalInv(states[i]);
  }

  // ---- Published frames never change -------------------------------------------------------

  ghost predicate LogGrows(log: seq<seq<Frame>>, log': seq<seq<Frame>>) {
    |log| <= |log'| && forall p :: 0 <= p < |log| ==> log[p] <= log'[p]
  }

  lemma ActionGrows(s: State, a: Action)
    requires JournalInv(s) && Enabled(s, a)
    ensures LogGrows(s.log, Apply(s, a).log)
  {
    hide PageOk, ReaderOk, WriterOk, StampsOk;
  }

  lemma {:induction false} RunGrows(states: seq<State>, actions: seq<Action>, i: nat, j: nat)
    requires IsRun(states, actions) && Init(states[0]) && i <= j < |states|
    ensures LogGrows(states[i].log, states[j].log)
    decreases j - i
  {
    hide Enabled, Apply, Init, JournalInv;
    InitKeeps(states[0]);
    RunKeeps(states, actions);
    if i < j {
      RunGrows(states, actions, i, j - 1);
      ActionGrows(states[j - 1], actions[j - 1]);
    }
  }

  /** Once a frame is published, a reader finds the same complete frame at its place for ever,
      so it may look at the fields of a frame at any time after it was handed the address. */
  lemma PublishedFramesStay(states: seq<State>, actions: seq<Action>, i: nat, j: nat, p: nat, idx: nat)
    requires IsRun(states, actions) && Init(states[0]) && i <= j < |states|
    requires p < |states[i].pages| == |states[i].log| && idx < |states[i].log[p]|
    ensures p < |states[j].pages| == |states[j].log|
    ensures var pos, m := PosOf(states[i].log[p], idx), states[j].pages[p].mem;
            Get(m, pos + STATUS) == WRITTEN && FrameAt(m, pos) == states[i].log[p][idx]
  {
    hide Enabled, Apply, Init, PageOk, ReaderOk, WriterOk, StampsOk, PosOf;
    InitKeeps(states[0]);
    RunKeeps(states, actions);
    RunGrows(states, actions, i, j);
    assert JournalInv(states[j]);
    var s', frames := states[j], states[i].log[p];
    PosOfPrefix(frames, s'.log[p], idx);
    NextPosition(s', p, idx, PosOf(s'.log[p], idx));
  }

  // ---- The writer stays inside the page ----------------------------------------------------

  /** Where the writer's next access falls in the current page, if it is a store. */
  function NextStore(s: State): Option<nat>
    requires s.cur < |s.pages|
  {
    match s.writer
    case Stamping(_) => Some(s.pos + NANO)
    case Storing(todo, _) => if todo == [] then None else Some(todo[0].at)
    case Clearing(_) => Some(s.pos + LengthAt(s.pages[s.cur].mem, s.pos) + STATUS)
    case Publishing(_) => Some(s.pos + STATUS)
    case Closing(_, stage) => if stage == 3 then Some(s.pos + STATUS) else None
    case _ => None
  }

  lemma WriterStaysInPage(s: State)
    requires JournalInv(s) && s.cur < |s.pages|
    ensures NextStore(s).Some? ==> PAGE_HEADER <= NextStore(s).value < PAGE_SIZE
  {
    hide All, PosOf, ReaderOk, StampsOk;
    assert PageOk(s, s.cur);
    if s.writer.Clearing? { FrameLength(s.pages[s.cur].mem, s.pos, s.writer.f); }
  }

  // ---- Liveness of a reader ----------------------------------------------------------------

  predicate Ended(s: State, p: nat)
    requires p < |s.pages| == |s.log|
  {
    Get(s.pages[p].mem, End(s.log[p]) + STATUS) == PAGE_END
  }

  function Alone(s: State, r: Reader, n: nat): Reader
    decreases n
  {
    if n == 0 then r else Alone(s, MoveReader(s, r), n - 1)
  }

  ghost function FramesLeft(s: State, r: Reader): int
    requires r.On?
  {
    |All(s.log)| - r.from - |r.seen|
  }

  /** Accesses a reader still needs, at most: three for a frame and three for a page turn. */
  ghost function Distance(s: State, r: Reader): int
    requires r.On? && r.page < |s.pages| == |s.log|
  {
    3 * FramesLeft(s, r) + 3 * (|s.pages| - 1 - r.page)
    + match r.phase
      case Checking => if r.idx < |s.log[r.page]| then -1 else 1
      case Taking => -2
      case Loading => -1
      case _ => 0
  }

  ghost predicate CanFollow(s: State, r: Reader) {
    && |s.pages| == |s.log| && ReaderOk(s, r) && r.On? && !r.phase.Seeking?
    && forall p :: r.page <= p < |s.pages| - 1 ==> Ended(s, p)
  }

  lemma ReaderProgress(s: State, r: Reader)
    requires JournalInv(s) && CanFollow(s, r) && FramesLeft(s, r) > 0
    ensures var r' := MoveReader(s, r);
            CanFollow(s, r') && r'.from == r.from && 0 <= Distance(s, r') < Distance(s, r)
  {
    hide ReaderOk, All, MoveReader, Distance, PageOk, StampsOk, WriterOk, PosOf, FrameAt, FramesLeft;
    OnPage(s, r);
    ReaderMoveKeeps(s, r);
    LastPageIsEnd(s, r);
    assert PageOk(s, r.page);
    EndPosition(s, r.page, r.idx, r.pos);
    ProgressOfMove(s, r);
  }

  lemma LastPageIsEnd(s: State, r: Reader)
    requires |s.pages| == |s.log| && ReaderOk(s, r) && r.On? && FramesLeft(s, r) > 0
    ensures r.idx == |s.log[r.page]| ==> r.page + 1 < |s.pages|
    ensures r.idx < |s.log[r.page]| ==> |s.pages| > 0
  {
    AllSplits(s.log, r.page);
    assert r.page + 1 == |s.log| ==> s.log[..r.page + 1] == s.log;
    hide All, PosOf;
  }

  lemma ProgressOfMove(s: State, r: Reader)
    requires |s.pages| == |s.log| && CanFollow(s, r) && FramesLeft(s, r) > 0 && r.page < |s.pages|
    requires ReaderOk(s, MoveReader(s, r))
    requires r.idx <= |s.log[r.page]| && r.pos == PosOf(s.log[r.page], r.idx) && (r.phase.Taking? ==> r.idx < |s.log[r.page]|)
    requires r.phase.Loading? ==> LoadPage(s, r.page + 1) == Usable
    requires r.idx == |s.log[r.page]| ==> r.page + 1 < |s.pages|
    requires Get(s.pages[r.page].mem, r.pos + STATUS) == WRITTEN <==> r.idx < |s.log[r.page]|
    ensures var r' := MoveReader(s, r);
            CanFollow(s, r') && r'.from == r.from && 0 <= Distance(s, r') < Distance(s, r)
  {
    hide All, PosOf, ReaderOk, FrameAt;
    assert r.idx == |s.log[r.page]| ==> Ended(s, r.page);
    var r' := MoveReader(s, r);
    SeenWithinAll(s, r');
  }

  lemma SeenWithinAll(s: State, r: Reader)
    requires |s.pages| == |s.log| && ReaderOk(s, r) && r.On?
    ensures FramesLeft(s, r) >= 0 && r.page < |s.pages|
    ensures r.phase.Taking? || r.phase.Checking? ==> r.idx < |s.log[r.page]| ==> FramesLeft(s, r) > 0
    ensures FramesLeft(s, r) == 0 ==> r.seen == All(s.log)[r.from..]
  {
    FrameOfAll(s.log, r.page, r.idx);
    hide All, PosOf;
  }

  /** A reader whose pages were all ended catches up with the writer by its own moves alone. */
  lemma {:induction false} ReaderCatchesUp(s: State, r: Reader) returns (n: nat)
    requires JournalInv(s) && CanFollow(s, r) && Distance(s, r) >= 0
    ensures n <= Distance(s, r)
    ensures Alone(s, r, n).On? && Alone(s, r, n).from == r.from && Alone(s, r, n).seen == All(s.log)[r.from..]
    decreases Distance(s, r)
  {
    SeenWithinAll(s, r);
    hide All, PosOf, JournalInv, CanFollow, MoveReader, Distance, ReaderOk;
    if FramesLeft(s, r) == 0 {
      n := 0;
    } else {
      ReaderProgress(s, r);
      var k := ReaderCatchesUp(s, MoveReader(s, r));
      n := k + 1;
    }
  }

  /** The scan of a seek, while the writer stores nothing, finds the page that PageWithTime says. */
  lemma {:induction false} ScanFinds(s: State, time: int, left: nat) returns (k: nat, stamped: bool)
    requires 0 < left <= |s.pages|
    ensures k <= left && Alone(s, Scanning(time, left), k) == Found(Seek(time, PageWithTime(s.pages[..left], time), stamped))
  {
    assert s.pages[..left][..left - 1] == s.pages[..left - 1];
    var r := ScanHeader(s, time, left);
    if r.Found? {
      assert left == 1 ==> s.pages[..left - 1] == [];
      k, stamped := 1, r.seek.stamped;
      assert Alone(s, r, 0) == r;
    } else {
      var k';
      k', stamped := ScanFinds(s, time, left - 1);
      k := k' + 1;
    }
  }

  // ---- Where a seek ends -------------------------------------------------------------------

  /** The place inside its page where a seek ends: at the first frame not stamped before its time,
      or at the end of what is published in the page. */
  ghost predicate RightPlace(frames: seq<Frame>, time: int, idx: nat) {
    && idx <= |frames|
    && if time == TIME_FROM_FIRST then idx == 0
       else if time == TIME_TO_LAST then idx == |frames|
       else StampedBefore(frames[..idx], time) && (idx < |frames| ==> frames[idx].nano >= time)
  }

  /** One access of a seek inside a page: it passes a frame only as the time allows, and stops only
      at the end or at a frame that is not older. */
  lemma SeekStep(s: State, r: Reader)
    requires JournalInv(s) && ReaderOk(s, r) && r.On? && r.phase.Seeking?
    ensures r.page < |s.log| && r.idx <= |s.log[r.page]|
    ensures var frames := s.log[r.page];
            var passes := r.idx < |frames| && (r.seek.time == TIME_TO_LAST || frames[r.idx].nano < r.seek.time);
            MoveReader(s, r) == if passes then On(r.page, r.idx + 1, PosOf(frames, r.idx + 1), r.seek, r.from + 1, r.seen, Seeking)
                                else r.(phase := Top)
  {
    OnPage(s, r);
    assert PageOk(s, r.page);
    EndPosition(s, r.page, r.idx, r.pos);
    if r.idx < |s.log[r.page]| { NextPosition(s, r.page, r.idx, r.pos); }
    hide JournalInv, PageOk, ReaderOk, PosOf, FrameAt, Get, LengthAt;
  }

  lemma {:induction false} SeekInPage(s: State, r: Reader) returns (n: nat)
    requires JournalInv(s) && ReaderOk(s, r) && r.On? && r.phase.Seeking? && r.seek.time != TIME_FROM_FIRST
    requires r.page < |s.log| && r.idx <= |s.log[r.page]|
    requires r.seek.time != TIME_TO_LAST ==> StampedBefore(s.log[r.page][..r.idx], r.seek.time)
    ensures n <= |s.log[r.page]| - r.idx + 1
    ensures var r' := Alone(s, r, n);
            && r'.On? && r'.phase.Top? && r'.page == r.page && r'.seek == r.seek && r'.seen == r.seen
            && RightPlace(s.log[r.page], r.seek.time, r'.idx) && ReaderOk(s, r')
    decreases if r.On? && r.page < |s.log| && r.idx <= |s.log[r.page]| then |s.log[r.page]| - r.idx else 0
  {
    hide JournalInv, ReaderOk, MoveReader, PosOf;
    SeekStep(s, r);
    ReaderMoveKeeps(s, r);
    var r' := MoveReader(s, r);
    assert Alone(s, r', 0) == r';
    n := 1;
    if r'.phase.Seeking? {
      assert s.log[r.page][..r.idx + 1] == s.log[r.page][..r.idx] + [s.log[r.page][r.idx]];
      var k := SeekInPage(s, r');
      n := k + 1;
    }
  }

  lemma {:induction false} AloneAdds(s: State, r: Reader, a: nat, b: nat)
    ensures Alone(s, r, a + b) == Alone(s, Alone(s, r, a), b)
    decreases a
  {
    hide MoveReader;
    if a > 0 { AloneAdds(s, MoveReader(s, r), a - 1, b); }
  }

  /** The page that a seek is for. */
  function PageSought(s: State, time: int): nat {
    if time == TIME_FROM_FIRST || s.pages == [] then 0
    else if time == TIME_TO_LAST then |s.pages| - 1
    else PageWithTime(s.pages, time)
  }

  lemma FindsPageSought(s: State, time: int) returns (n: nat, stamped: bool)
    requires s.pages != []
    ensures n <= |s.pages| && Alone(s, Sought(s, time), n) == Found(Seek(time, PageSought(s, time), stamped))
  {
    if time == TIME_FROM_FIRST || time == TIME_TO_LAST {
      n, stamped := 0, time == TIME_FROM_FIRST;
    } else {
      n, stamped := ScanFinds(s, time, |s.pages|);
      assert s.pages[..|s.pages|] == s.pages;
    }
  }

  lemma {:induction false} AloneKeeps(s: State, r: Reader, n: nat)
    requires JournalInv(s) && ReaderOk(s, r)
    ensures ReaderOk(s, Alone(s, r, n))
    decreases n
  {
    hide JournalInv, ReaderOk, MoveReader;
    if n > 0 {
      ReaderMoveKeeps(s, r);
      AloneKeeps(s, MoveReader(s, r), n - 1);
    }
  }

  /** Journal::seekTime while the writer stores nothing, from its listing to its end: it opens the
      page it is for, if that page has a header, and ends at the right place in it. */
  lemma SeekEndsRight(s: State, time: int) returns (n: nat)
    requires JournalInv(s) && PageSought(s, time) < |s.pages| && LoadPage(s, PageSought(s, time)) == Usable
    ensures PageSought(s, time) < |s.log| && n <= |s.pages| + |s.log[PageSought(s, time)]| + 2
    ensures var r := Alone(s, Sought(s, time), n);
            && r.On? && r.phase.Top? && r.page == PageSought(s, time) && r.seen == [] && r.seek.time == time
            && RightPlace(s.log[r.page], time, r.idx) && ReaderOk(s, r)
  {
    hide JournalInv, ReaderOk, MoveReader, PosOf, Sought, PageSought, LoadPage;
    var p := PageSought(s, time);
    assert |s.log| == |s.pages| by { LogPerPage(s); }
    var k, stamped := FindsPageSought(s, time);
    var found := Found(Seek(time, p, stamped));
    SoughtKeeps(s, time);
    AloneKeeps(s, Sought(s, time), k);
    var atPage := MoveReader(s, found);
    OpensPage(s, found.seek);
    ReaderMoveKeeps(s, found);
    AloneAdds(s, Sought(s, time), k, 1);
    assert Alone(s, found, 1) == Alone(s, atPage, 0) == atPage;
    n := k + 1;
    if time != TIME_FROM_FIRST {
      var m := SeekInPage(s, atPage);
      AloneAdds(s, Sought(s, time), k + 1, m);
      n := k + 1 + m;
    }
  }

  lemma LogPerPage(s: State)
    requires JournalInv(s)
    ensures |s.log| == |s.pages|
  {
    hide PageOk, ReaderOk, WriterOk, StampsOk;
  }

  lemma OpensPage(s: State, seek: Seek)
    requires LoadPage(s, seek.page) == Usable
    ensures var r := MoveReader(s, Found(seek));
            r.On? && r.page == seek.page && r.idx == 0 && r.seek == seek && r.seen == []
            && r.phase == if seek.time == TIME_FROM_FIRST then Top else Seeking
  {
    hide Before, LoadPage;
  }

  /** So, in an undisturbed seek to a time, exactly the frames stamped before it are skipped when
      the page holds one that is not; and otherwise none that is not. */
  lemma SeekSplits(s: State, time: int) returns (n: nat)
    requires JournalInv(s) && PageSought(s, time) < |s.pages| && LoadPage(s, PageSought(s, time)) == Usable
    requires time != TIME_FROM_FIRST && time != TIME_TO_LAST
    ensures var r := Alone(s, Sought(s, time), n);
            && r.On? && r.phase.Top? && r.from <= |All(s.log)|
            && (forall i :: 0 <= i < r.from ==> All(s.log)[i].nano < time)
            && (r.page < |s.log| && r.idx < |s.log[r.page]| ==> forall i :: r.from <= i < |All(s.log)| ==> All(s.log)[i].nano >= time)
  {
    hide JournalInv, MoveReader, PosOf, Sought, LoadPage, Alone, All, PageWithTime;
    n := SeekEndsRight(s, time);
    var r := Alone(s, Sought(s, time), n);
    BeforePageSought(s, time);
    AtPlace(s, r);
    var before, frames := All(s.log[..r.page]), s.log[r.page];
    forall i | 0 <= i < r.from
      ensures All(s.log)[i].nano < time
    {
      if i < |before| { assert before[i].nano < time; } else { assert frames[..r.idx][i - |before|].nano < time; }
    }
    assert Sorted(All(s.log)) by { AllSorted(s); }
  }

  lemma AllSorted(s: State)
    requires JournalInv(s)
    ensures Sorted(All(s.log))
  {
    hide PageOk, ReaderOk, WriterOk, All;
  }

  /** Before the page found, everything is stamped before the time: its start stamp was taken later. */
  lemma BeforePageSought(s: State, time: int)
    requires JournalInv(s) && PageSought(s, time) < |s.pages| && LoadPage(s, PageSought(s, time)) == Usable
    requires time != TIME_FROM_FIRST && time != TIME_TO_LAST
    ensures |s.log| == |s.pages| && StampedBefore(All(s.log[..PageSought(s, time)]), time)
  {
    var p := PageSought(s, time);
    PageWithTimeFound(s.pages, time);
    assert PageOk(s, p);
    assert p == 0 ==> s.log[..p] == [];
    hide ReaderOk, WriterOk, PageWithTime;
    if p > 0 { assert StartedAfter(s, p); }
  }

  lemma AtPlace(s: State, r: Reader)
    requires |s.pages| == |s.log| && ReaderOk(s, r) && r.On? && r.seen == []
    ensures r.page < |s.log| && r.idx <= |s.log[r.page]| && r.from == |All(s.log[..r.page])| + r.idx <= |All(s.log)|
    ensures forall i :: 0 <= i < |All(s.log[..r.page])| ==> All(s.log)[i] == All(s.log[..r.page])[i]
    ensures forall i :: 0 <= i < |s.log[r.page]| ==>
              |All(s.log[..r.page])| + i < |All(s.log)| && All(s.log)[|All(s.log[..r.page])| + i] == s.log[r.page][i]
  {
    PrefixOfAll(s.log, r.page);
    FrameOfAll(s.log, r.page, r.idx);
    forall i | 0 <= i < |s.log[r.page]|
      ensures |All(s.log[..r.page])| + i < |All(s.log)| && All(s.log)[|All(s.log[..r.page])| + i] == s.log[r.page][i]
    {
      FrameOfAll(s.log, r.page, i);
    }
    hide All, PosOf;
  }

  /** Over every run: a seek leaves its page search only at the end of what is published there at
      that moment, or at a frame that is not older than its time; and passes no other frame. */
  lemma SeekLeavesRight(states: seq<State>, actions: seq<Action>, i: nat, r: nat)
    requires IsRun(states, actions) && Init(states[0]) && i < |actions| && actions[i] == ReaderMove(r)
    requires r in states[i].readers && states[i].readers[r].On? && states[i].readers[r].phase.Seeking?
    ensures r in states[i + 1].readers && states[i + 1].readers[r].On?
    ensures var before, after := states[i].readers[r], states[i + 1].readers[r];
            && before.page == after.page < |states[i].log| && before.seek == after.seek && before.idx <= |states[i].log[before.page]|
            && var frames, time := states[i].log[before.page], before.seek.time;
               if after.phase.Seeking? then
                 after.idx == before.idx + 1 && before.idx < |frames| && (time == TIME_TO_LAST || frames[before.idx].nano < time)
               else
                 && after.phase.Top? && after.idx == before.idx
                 && (before.idx == |frames| || (time != TIME_TO_LAST && frames[before.idx].nano >= time))
  {
    hide JournalInv, Init, PosOf, MoveReader;
    InitKeeps(states[0]);
    RunKeeps(states, actions);
    assert Enabled(states[i], actions[i]) && states[i + 1] == Apply(states[i], actions[i]);
    var reader := states[i].readers[r];
    assert ReaderOk(states[i], reader) by { ReaderOfInv(states[i], r); }
    SeekStep(states[i], reader);
  }

  lemma ReaderOfInv(s: State, r: nat)
    requires JournalInv(s) && r in s.readers
    ensures |s.pages| == |s.log| && ReaderOk(s, s.readers[r])
  {
    hide PageOk, ReaderOk, WriterOk, StampsOk;
  }
}
