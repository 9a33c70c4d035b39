/** Page turns that a crash of the writer cuts short: exactly when a page is left behind without
    being ended, what that does to readers, and that it happens. */
module JournalTurns {
  import opened Journal
  import opened JournalPages
  import opened JournalInvariant
  import opened JournalSteps
  import opened JournalReading
  import opened JournalTheorems

  // ---- Which step ends a page ----------------------------------------------------------------

  /** The last store of closing a page. */
  predicate EndsPage(s: State, a: Action, p: nat) {
    a.WriterMove? && s.writer.Closing? && s.writer.stage == 3 && p == s.cur
  }

  lemma EmptyPageIsOpen(s: State, p: nat)
    requires JournalInv(s) && p < |s.pages|
    ensures p + 1 == |s.pages| ==> !Ended(s, p)
    ensures Ended(s, p) ==> LoadPage(s, p + 1) == Usable
  {
    hide ReaderOk, StampsOk, WriterOk, PosOf;
    assert PageOk(s, p);
  }

  lemma OtherPageSame(s: State, p: nat)
    requires JournalInv(s) && p < |s.pages| && s.cur < |s.pages| && p != s.cur
    ensures var s' := MoveWriter(s);
            p < |s'.pages| == |s'.log| && s'.pages[p].mem == s.pages[p].mem && s'.log[p] == s.log[p]
  {
    hide ReaderOk, StampsOk, PosOf, Filled, Fresh, All, PageOk, WriterOk;
  }

  lemma CurPageMoves(s: State)
    requires JournalInv(s) && s.cur < |s.pages|
    ensures var s' := MoveWriter(s);
            s.cur < |s'.pages| == |s'.log| && (Ended(s', s.cur) <==> Ended(s, s.cur) || EndsPage(s, WriterMove, s.cur))
  {
    EmptyPageIsOpen(s, s.cur);
    if s.writer.Publishing? {
      hide JournalInv, MoveWriter, Ended;
      PublishedEnd(s);
    } else if s.writer.Storing? || s.writer.Clearing? || s.writer.Stamping? {
      hide JournalInv, MoveWriter, PosOf;
      StorePastEnd(s);
    } else {
      hide ReaderOk, StampsOk, PosOf, Fresh, All, PageOk;
    }
  }

  lemma StorePastEnd(s: State)
    requires JournalInv(s) && (s.writer.Storing? || s.writer.Clearing? || s.writer.Stamping?)
    ensures var s' := MoveWriter(s);
            && s.cur < |s'.pages| == |s'.log| && s.cur < |s.pages| == |s.log| && s'.log == s.log
            && Get(s'.pages[s.cur].mem, End(s.log[s.cur]) + STATUS) == Get(s.pages[s.cur].mem, End(s.log[s.cur]) + STATUS)
  {
    hide ReaderOk, StampsOk, PosOf, Fresh, All, PageOk, Filled;
    if s.writer.Clearing? { FrameLength(s.pages[s.cur].mem, s.pos, s.writer.f); }
  }

  lemma PublishedEnd(s: State)
    requires JournalInv(s) && s.writer.Publishing?
    ensures s.cur < |s.pages| && s.cur < |MoveWriter(s).pages| == |MoveWriter(s).log|
    ensures !Ended(MoveWriter(s), s.cur)
  {
    hide ReaderOk, StampsOk, PosOf, Fresh, All, PageOk, Filled;
    var frames, f := s.log[s.cur], s.writer.f;
    StepPosition(frames + [f], |frames|);
    PosOfPrefix(frames, frames + [f], |frames|);
  }

  /** A page is ended by the last store of closing it, and by no other action, for ever. */
  lemma EndedByClosing(s: State, a: Action, p: nat)
    requires JournalInv(s) && Enabled(s, a) && p < |s.pages|
    ensures var s' := Apply(s, a);
            p < |s'.pages| == |s'.log| && (Ended(s', p) <==> Ended(s, p) || EndsPage(s, a, p))
  {
    if a.WriterMove? {
      hide JournalInv, Apply, MoveWriter, Ended;
      MoveIsWriterMove(s);
      if p == s.cur { CurPageMoves(s); } else { OtherPageSame(s, p); SameEnd(s, MoveWriter(s), p); }
    } else {
      hide ReaderOk, StampsOk, PosOf, Fresh, All, PageOk, MoveReader, Sought, Cells, HeaderStores;
    }
  }

  lemma MoveIsWriterMove(s: State)
    requires Enabled(s, WriterMove)
    ensures Apply(s, WriterMove) == MoveWriter(s)
  {
    hide MoveWriter;
  }

  lemma SameEnd(s: State, s': State, p: nat)
    requires p < |s.pages| == |s.log| && p < |s'.pages| == |s'.log|
    requires s'.pages[p].mem == s.pages[p].mem && s'.log[p] == s.log[p]
    ensures Ended(s', p) <==> Ended(s, p)
  {
    hide PosOf;
  }

  // ---- What holds between any two accesses ------------------------------------------------------

  /** The writer is on its way from its page to a page it has made. */
  predicate AtTurn(s: State) {
    s.cur + 1 < |s.pages| == |s.log| && (s.writer.Making? || s.writer.Closing?)
  }

  /** While a page is being left it is not ended yet. */
  predicate TurnOpen(s: State) {
    AtTurn(s) ==> !Ended(s, s.cur)
  }

  /** A reader asks for the next page only where its page is ended. */
  ghost predicate LoadsAfterEnd(s: State, r: Reader)
    requires |s.pages| == |s.log|
  {
    r.On? && r.phase.Loading? ==> r.page < |s.pages| && Ended(s, r.page)
  }

  /** Every page but the newest has its header. */
  predicate MadeBefore(s: State) {
    forall p :: 0 <= p < |s.pages| - 1 ==> s.pages[p].inited
  }

  ghost predicate TurnInv(s: State) {
    && JournalInv(s) && TurnOpen(s) && MadeBefore(s)
    && forall r :: r in s.readers ==> LoadsAfterEnd(s, s.readers[r])
  }

  /** A page more only when there was none, or after the writer filled the last one. */
  predicate Grows(s: State, s': State) {
    || |s'.pages| == |s.pages|
    || (|s'.pages| == |s.pages| + 1 && (s.pages == [] || (!s.writer.Down? && s.cur + 1 == |s.pages| && s'.cur == s.cur && s.pages[s.cur].inited)))
  }

  /** Where the writer is after an action. */
  lemma CurAfter(s: State, a: Action)
    requires JournalInv(s) && Enabled(s, a)
    ensures var s' := Apply(s, a);
            && |s'.pages| == |s'.log| && Grows(s, s')
            && (s'.writer.Down? <==> a.Crash? || (s.writer.Down? && !a.Start?))
            && (a.Start? ==> s'.cur + 1 == |s'.pages|)
            && (!s'.writer.Down? && !a.Start? ==> s'.cur == if EndsPage(s, a, s.cur) then s.cur + 1 else s.cur)
            && (s'.writer.Down? ==> s'.pages == s.pages)
            && (!s.writer.Down? ==> |s.pages| <= s.cur + 2 && (AtTurn(s) || s.cur + 1 == |s.pages|))
            && (AtTurn(s') ==> !EndsPage(s, a, s.cur) && (AtTurn(s) || s.cur + 1 == |s.pages|) && !a.Crash? && !a.Start?)
  {
    if a.WriterMove? {
      hide JournalInv, Apply, MoveWriter;
      MoveIsWriterMove(s);
      CurAfterMove(s);
    } else {
      hide ReaderOk, StampsOk, PosOf, Fresh, All, PageOk, MoveReader, Sought, Cells, HeaderStores, Filled, Completes;
    }
  }

  lemma CurAfterMove(s: State)
    requires JournalInv(s) && s.cur < |s.pages|
    ensures var s' := MoveWriter(s);
            && |s'.pages| == |s'.log| && Grows(s, s')
            && (s'.writer.Down? <==> s.writer.Down?) && (s'.writer.Down? ==> s'.pages == s.pages)
            && s'.cur == (if EndsPage(s, WriterMove, s.cur) then s.cur + 1 else s.cur)
            && (!s.writer.Down? ==> |s.pages| <= s.cur + 2 && (AtTurn(s) || s.cur + 1 == |s.pages|))
            && (AtTurn(s') ==> !EndsPage(s, WriterMove, s.cur) && (AtTurn(s) || s.cur + 1 == |s.pages|))
  {
    WriterIsLast(s);
    if s.writer.Locating? || s.writer.Making? || s.writer.Closing? {
      hide ReaderOk, StampsOk, PosOf, Fresh, All, PageOk, Filled, Completes, FrameStores;
    } else {
      hide JournalInv, MoveWriter;
      StoreStays(s);
    }
  }

  /** Outside page turns the writer stays where it is. */
  lemma StoreStays(s: State)
    requires s.cur < |s.pages| == |s.log| && !s.writer.Locating? && !s.writer.Making? && !s.writer.Closing?
    ensures var s' := MoveWriter(s);
            && s'.cur == s.cur && |s'.pages| == |s.pages| && |s'.log| == |s.log|
            && (s'.writer.Down? <==> s.writer.Down?) && (s'.writer.Down? ==> s'.pages == s.pages)
            && !s'.writer.Making? && !s'.writer.Closing?
  {
    hide LengthAt, Get;
  }

  lemma TurnStaysOpen(s: State, a: Action)
    requires JournalInv(s) && TurnOpen(s) && Enabled(s, a)
    ensures TurnOpen(Apply(s, a))
  {
    CurAfter(s, a);
    hide JournalInv, Ended, Apply, Enabled;
    if AtTurn(Apply(s, a)) && s.cur < |s.pages| {
      EmptyPageIsOpen(s, s.cur);
      EndedByClosing(s, a, s.cur);
    }
  }

  lemma WriterIsLast(s: State)
    requires JournalInv(s)
    ensures |s.pages| == |s.log| && (!s.writer.Down? ==> s.cur < |s.pages| <= s.cur + 2 && (AtTurn(s) || s.cur + 1 == |s.pages|))
  {
    hide ReaderOk, StampsOk, PosOf, Fresh, All, PageOk, Filled, Completes;
  }

  lemma HeadersStay(s: State, a: Action, p: nat)
    requires JournalInv(s) && MadeBefore(s) && Enabled(s, a) && p < |s.pages| && s.pages[p].inited
    ensures p < |Apply(s, a).pages| && Apply(s, a).pages[p].inited
  {
    hide ReaderOk, StampsOk, WriterOk, PosOf, Fresh, All, PageOk, MoveReader, Sought, Cells, HeaderStores, Filled, Completes, FrameStores;
  }

  lemma MadeBeforeStays(s: State, a: Action)
    requires JournalInv(s) && MadeBefore(s) && Enabled(s, a)
    ensures MadeBefore(Apply(s, a))
  {
    CurAfter(s, a);
    hide JournalInv, Apply, Enabled;
    forall p | 0 <= p < |Apply(s, a).pages| - 1
      ensures Apply(s, a).pages[p].inited
    {
      HeadersStay(s, a, p);
    }
  }

  lemma LoadsAfterMove(s: State, r: Reader)
    requires |s.pages| == |s.log| && (forall p :: 0 <= p < |s.pages| ==> PageOk(s, p)) && ReaderOk(s, r) && LoadsAfterEnd(s, r)
    ensures LoadsAfterEnd(s, MoveReader(s, r))
  {
    if r.On? && r.phase.Top? {
      OnPage(s, r);
      EndPosition(s, r.page, r.idx, r.pos);
      hide ReaderOk, PosOf, PageOk;
    } else {
      hide ReaderOk, PosOf, PageOk, Ended, FrameAt;
    }
  }

  lemma LoadsStay(s: State, a: Action, r: nat)
    requires TurnInv(s) && Enabled(s, a) && r in Apply(s, a).readers
    ensures |Apply(s, a).pages| == |Apply(s, a).log| && LoadsAfterEnd(Apply(s, a), Apply(s, a).readers[r])
  {
    CurAfter(s, a);
    ReadersAfter(s, a, r);
    hide JournalInv, Ended, Apply, Enabled, MoveReader, Sought;
    var reader := Apply(s, a).readers[r];
    if a.ReaderMove? && a.r == r {
      ReaderParts(s, r);
      LoadsAfterMove(s, s.readers[r]);
    } else if a.SeekTime? && a.r == r {
      assert !(reader.On? && reader.phase.Loading?) by { SoughtNotLoading(s, a.time); }
    }
    if reader.On? && reader.phase.Loading? { EndedByClosing(s, a, reader.page); }
  }

  lemma SoughtNotLoading(s: State, time: int)
    ensures !(Sought(s, time).On? && Sought(s, time).phase.Loading?)
  {
  }

  lemma ReaderParts(s: State, r: nat)
    requires JournalInv(s) && r in s.readers
    ensures |s.pages| == |s.log| && (forall p :: 0 <= p < |s.pages| ==> PageOk(s, p)) && ReaderOk(s, s.readers[r])
  {
    hide PageOk, ReaderOk, WriterOk, StampsOk;
  }

  /** An action of a reader is the only one that changes it. */
  lemma ReadersAfter(s: State, a: Action, r: nat)
    requires Enabled(s, a)
    ensures r in Apply(s, a).readers <==> r in s.readers
    ensures r in s.readers ==>
              Apply(s, a).readers[r] ==
                if a.ReaderMove? && a.r == r then MoveReader(s, s.readers[r])
                else if a.SeekTime? && a.r == r then Sought(s, a.time) else s.readers[r]
  {
    hide MoveReader, Sought, Cells, HeaderStores, FrameStores, Get, LengthAt;
  }

  lemma ActionKeepsTurns(s: State, a: Action)
    requires TurnInv(s) && Enabled(s, a)
    ensures TurnInv(Apply(s, a))
  {
    ActionKeeps(s, a);
    TurnStaysOpen(s, a);
    MadeBeforeStays(s, a);
    hide JournalInv, Ended, Apply, Enabled, LoadsAfterEnd, TurnOpen, MadeBefore;
    forall r | r in Apply(s, a).readers
      ensures LoadsAfterEnd(Apply(s, a), Apply(s, a).readers[r])
    {
      LoadsStay(s, a, r);
    }
  }

  lemma {:induction false} RunKeepsTurns(states: seq<State>, actions: seq<Action>, i: nat)
    requires IsRun(states, actions) && Init(states[0]) && i < |states|
    ensures TurnInv(states[i])
  {
    if i == 0 {
      InitKeeps(states[0]);
    } else {
      hide TurnInv, Apply, Enabled, Init;
      RunKeepsTurns(states, actions, i - 1);
      ActionKeepsTurns(states[i - 1], actions[i - 1]);
    }
  }

  // ---- Abandoned pages ------------------------------------------------------------------------------

  /** The writer left page p, or died on the way out of it, without marking it ended. */
  predicate Abandoned(s: State, p: nat) {
    && p + 1 < |s.pages| == |s.log|
    && (s.writer.Down? || p < s.cur)
    && !Ended(s, p)
  }

  predicate CrashedAtTurn(s: State, a: Action, p: nat) {
    a.Crash? && AtTurn(s) && p == s.cur
  }

  /** One action abandons a page exactly when it is a crash of the writer at a page turn; and an
      abandoned page stays abandoned. */
  lemma AbandonedByCrash(s: State, a: Action, p: nat)
    requires TurnInv(s) && Enabled(s, a)
    ensures Abandoned(Apply(s, a), p) <==> Abandoned(s, p) || CrashedAtTurn(s, a, p)
  {
    CurAfter(s, a);
    WriterIsLast(s);
    if p < |s.pages| {
      EndedByClosing(s, a, p);
    }
    hide JournalInv, Ended, Apply, Enabled, MadeBefore;
  }

  /** Over whole runs: a page is abandoned exactly when some crash hit the turn away from it. The
      order of creating and closing pages protects readers from the crash, but not from the
      restart after it, which goes on in the new page and never ends the old one. */
  lemma {:induction false} AbandonedIffCrashedAtTurn(states: seq<State>, actions: seq<Action>, i: nat, p: nat)
    requires IsRun(states, actions) && Init(states[0]) && i < |states|
    ensures Abandoned(states[i], p) <==> exists j :: 0 <= j < i && CrashedAtTurn(states[j], actions[j], p)
  {
    hide TurnInv, Apply, Enabled, CrashedAtTurn;
    if i == 0 {
      hide Ended;
    } else {
      hide Abandoned, Init;
      AbandonedIffCrashedAtTurn(states, actions, i - 1, p);
      RunKeepsTurns(states, actions, i - 1);
      AbandonedByCrash(states[i - 1], actions[i - 1], p);
    }
  }

  // ---- Which readers can follow -----------------------------------------------------------------------

  /** A reader can follow everything published exactly when no page from its own on is abandoned
      or just being left. */
  lemma CanFollowIff(s: State, r: Reader)
    requires TurnInv(s) && ReaderOk(s, r) && r.On? && !r.phase.Seeking?
    ensures CanFollow(s, r) <==> forall p: nat :: r.page <= p ==> !Abandoned(s, p) && !(AtTurn(s) && p == s.cur)
  {
    WriterIsLast(s);
    OnPage(s, r);
    hide JournalInv, ReaderOk, Ended, MadeBefore;
    forall p: nat | r.page <= p < |s.pages| - 1
      ensures Ended(s, p) <==> !Abandoned(s, p) && !(AtTurn(s) && p == s.cur)
    {
    }
    if CanFollow(s, r) {
      forall p: nat | r.page <= p
        ensures !Abandoned(s, p) && !(AtTurn(s) && p == s.cur)
      {
        if p < |s.pages| - 1 { assert Ended(s, p); }
      }
    } else {
      var p: nat :| r.page <= p < |s.pages| - 1 && !Ended(s, p);
      assert Abandoned(s, p) || (AtTurn(s) && p == s.cur);
    }
  }

  /** Over whole runs, page turns aside: exactly the readers past every page the writer crashed
      out of can follow. */
  lemma ReadersFollowIff(states: seq<State>, actions: seq<Action>, i: nat, r: nat)
    requires IsRun(states, actions) && Init(states[0]) && i < |states| && r in states[i].readers
    requires states[i].readers[r].On? && !states[i].readers[r].phase.Seeking? && !AtTurn(states[i])
    ensures CanFollow(states[i], states[i].readers[r]) <==>
              forall j, p: nat :: 0 <= j < i && states[i].readers[r].page <= p ==> !CrashedAtTurn(states[j], actions[j], p)
  {
    hide TurnInv, Apply, Enabled, CanFollow, Init, Abandoned, AtTurn, CrashedAtTurn;
    RunKeepsTurns(states, actions, i);
    var reader := states[i].readers[r];
    assert ReaderOk(states[i], reader) by { ReaderOfTurn(states[i], r); }
    CanFollowIff(states[i], reader);
    forall p: nat
      ensures Abandoned(states[i], p) <==> exists j :: 0 <= j < i && CrashedAtTurn(states[j], actions[j], p)
    {
      AbandonedIffCrashedAtTurn(states, actions, i, p);
    }
    if CanFollow(states[i], reader) {
      forall j, p: nat | 0 <= j < i && reader.page <= p
        ensures !CrashedAtTurn(states[j], actions[j], p)
      {
        assert !Abandoned(states[i], p);
      }
    } else {
      var p: nat :| reader.page <= p && Abandoned(states[i], p);
      var j :| 0 <= j < i && CrashedAtTurn(states[j], actions[j], p);
    }
  }

  lemma ReaderOfTurn(s: State, r: nat)
    requires TurnInv(s) && r in s.readers
    ensures |s.pages| == |s.log| && ReaderOk(s, s.readers[r])
  {
    hide PageOk, ReaderOk, WriterOk, StampsOk, LoadsAfterEnd;
  }

  /** In a run without a crash every reader can follow, page turns aside. */
  lemma SteadyReadersFollow(states: seq<State>, actions: seq<Action>, i: nat, r: nat)
    requires IsRun(states, actions) && Init(states[0]) && i < |states| && r in states[i].readers
    requires states[i].readers[r].On? && !states[i].readers[r].phase.Seeking? && !AtTurn(states[i])
    requires forall j :: 0 <= j < i ==> !actions[j].Crash?
    ensures CanFollow(states[i], states[i].readers[r])
  {
    hide Apply, Enabled, CanFollow, Init, AtTurn;
    ReadersFollowIff(states, actions, i, r);
  }

  // ---- Readers behind an abandoned page -----------------------------------------------------------------

  lemma {:induction false} AllMonotone(log: seq<seq<Frame>>, p: nat, q: nat)
    requires p <= q <= |log|
    ensures |All(log[..p])| <= |All(log[..q])|
    decreases q - p
  {
    if p < q {
      AllMonotone(log, p, q - 1);
      AllSplits(log, q - 1);
    }
  }

  lemma SeenUpTo(s: State, r: Reader, p: nat)
    requires |s.pages| == |s.log| && ReaderOk(s, r) && r.On? && r.page <= p < |s.pages|
    ensures r.from + |r.seen| <= |All(s.log[..p + 1])|
  {
    AllSplits(s.log, r.page);
    AllMonotone(s.log, r.page + 1, p + 1);
    hide All, PosOf;
  }

  lemma LogBehindStays(s: State, a: Action, p: nat)
    requires JournalInv(s) && Enabled(s, a) && p + 1 < |s.pages| && (s.writer.Down? || p < s.cur)
    ensures p + 1 < |Apply(s, a).log| && Apply(s, a).log[..p + 1] == s.log[..p + 1]
  {
    hide ReaderOk, StampsOk, PosOf, Fresh, All, PageOk, MoveReader, Sought, Cells, HeaderStores, Filled, Completes, FrameStores;
  }

  /** Page p is abandoned with this log up to it, and reader r has not got past it. */
  ghost predicate Held(s: State, r: nat, p: nat, log: seq<seq<Frame>>) {
    && Abandoned(s, p) && s.log[..p + 1] == log
    && r in s.readers && s.readers[r].On? && s.readers[r].page <= p
  }

  lemma HeldByAction(s: State, a: Action, r: nat, p: nat, log: seq<seq<Frame>>)
    requires TurnInv(s) && Enabled(s, a) && Held(s, r, p, log) && !(a.SeekTime? && a.r == r)
    ensures Held(Apply(s, a), r, p, log)
  {
    AbandonedByCrash(s, a, p);
    LogBehindStays(s, a, p);
    ReadersAfter(s, a, r);
    if a.ReaderMove? && a.r == r {
      ReaderParts(s, r);
      ReaderMoveKeeps(s, s.readers[r]);
      hide JournalInv, Ended, Apply, Enabled, MoveReader, MadeBefore, TurnOpen, ReaderOk;
      MoveWithinPage(s, s.readers[r]);
    }
  }

  lemma MoveWithinPage(s: State, r: Reader)
    requires |s.pages| == |s.log| && ReaderOk(s, r) && ReaderOk(s, MoveReader(s, r)) && LoadsAfterEnd(s, r) && r.On?
    ensures MoveReader(s, r).On?
    ensures MoveReader(s, r).page == if r.phase.Loading? then r.page + 1 else r.page
    ensures r.phase.Loading? ==> Ended(s, r.page)
  {
    OnPage(s, r);
    hide PosOf, FrameAt, Ended, All;
  }

  /** From the moment a page is abandoned, a reader at or before it sees nothing published after
      that page, whatever the writer goes on to write, until it seeks again. */
  lemma HeldBack(states: seq<State>, actions: seq<Action>, i: nat, j: nat, r: nat, p: nat)
    requires IsRun(states, actions) && Init(states[0]) && i <= j < |states| && Abandoned(states[i], p)
    requires r in states[i].readers && states[i].readers[r].On? && states[i].readers[r].page <= p
    requires forall k :: i <= k < j ==> !(actions[k].SeekTime? && actions[k].r == r)
    ensures Held(states[j], r, p, states[i].log[..p + 1])
    ensures states[j].readers[r].from + |states[j].readers[r].seen| <= |All(states[i].log[..p + 1])|
    decreases j - i
  {
    hide Apply, Enabled, Init, Ended, TurnInv, All, Held;
    HeldInRun(states, actions, i, j, r, p);
    RunKeepsTurns(states, actions, j);
    HeldSees(states[j], r, p, states[i].log[..p + 1]);
  }

  lemma {:induction false} HeldInRun(states: seq<State>, actions: seq<Action>, i: nat, j: nat, r: nat, p: nat)
    requires IsRun(states, actions) && Init(states[0]) && i <= j < |states| && Abandoned(states[i], p)
    requires r in states[i].readers && states[i].readers[r].On? && states[i].readers[r].page <= p
    requires forall k :: i <= k < j ==> !(actions[k].SeekTime? && actions[k].r == r)
    ensures Held(states[j], r, p, states[i].log[..p + 1])
    decreases j - i
  {
    hide Apply, Enabled, Init, Ended, TurnInv;
    if i < j {
      hide Held, Abandoned;
      HeldInRun(states, actions, i, j - 1, r, p);
      RunKeepsTurns(states, actions, j - 1);
      HeldByAction(states[j - 1], actions[j - 1], r, p, states[i].log[..p + 1]);
    }
  }

  lemma HeldSees(s: State, r: nat, p: nat, log: seq<seq<Frame>>)
    requires TurnInv(s) && Held(s, r, p, log)
    ensures r in s.readers && s.readers[r].On? && s.readers[r].from + |s.readers[r].seen| <= |All(log)|
  {
    hide TurnInv, Ended, All;
    ReaderOfTurn(s, r);
    SeenUpTo(s, s.readers[r], p);
  }

  // ---- Seeking during a page turn -------------------------------------------------------------------------

  /** A seek expires the journal for its reader exactly when there is still no page when it opens
      one, or the one it opens is the newest and has no header yet. */
  lemma SeekExpiresIff(s: State, r: Reader)
    requires TurnInv(s) && r.Found? && ReaderOk(s, r)
    ensures MoveReader(s, r).Expired? <==>
              s.pages == [] || (r.seek.page + 1 == |s.pages| && !s.pages[r.seek.page].inited)
    ensures s.pages != [] && !s.pages[|s.pages| - 1].inited ==> s.writer.Making? || s.writer.Down?
  {
    if s.pages != [] {
      if !s.pages[|s.pages| - 1].inited { HeaderIsMade(s); }
      PageVersion(s, r.seek.page);
    }
    hide JournalInv, TurnOpen, StampedBefore;
  }

  lemma PageVersion(s: State, p: nat)
    requires JournalInv(s) && p < |s.pages|
    ensures s.pages[p].version == 0 || s.pages[p].version == VERSION
  {
    hide ReaderOk, StampsOk, WriterOk;
    assert PageOk(s, p);
  }

  lemma HeaderIsMade(s: State)
    requires JournalInv(s) && s.pages != [] && !s.pages[|s.pages| - 1].inited
    ensures s.writer.Making? || s.writer.Down?
  {
    hide ReaderOk, StampsOk, PageOk, Filled, Completes, PosOf, Fresh;
  }

  /** An expired reader stays expired until it seeks again. */
  lemma {:induction false} ExpiredStays(states: seq<State>, actions: seq<Action>, i: nat, j: nat, r: nat)
    requires IsRun(states, actions) && i <= j < |states|
    requires r in states[i].readers && states[i].readers[r].Expired?
    requires forall k :: i <= k < j ==> !(actions[k].SeekTime? && actions[k].r == r)
    ensures r in states[j].readers && states[j].readers[r].Expired?
    decreases j - i
  {
    hide Apply, Enabled;
    if i < j {
      ExpiredStays(states, actions, i, j - 1, r);
      ReadersAfter(states[j - 1], actions[j - 1], r);
    }
  }

  // ---- Where a reader's page comes from -------------------------------------------------------------------

  predicate HasStamp(s: State, p: nat) {
    p < |s.pages| && s.pages[p].stamped
  }

  /** The writer stores the start stamp of page p. */
  predicate Stamps(s: State, a: Action, p: nat) {
    a.WriterMove? && s.writer.Making? && s.writer.stage == 0 && p + 1 == |s.pages|
  }

  lemma StampedByMaking(s: State, a: Action, p: nat)
    requires Enabled(s, a)
    ensures HasStamp(Apply(s, a), p) <==> HasStamp(s, p) || Stamps(s, a, p)
  {
    if a.WriterMove? {
      hide Apply, MoveWriter, HasStamp;
      MoveIsWriterMove(s);
      StampedByMove(s, p);
    } else {
      hide MoveReader, Sought, Cells, HeaderStores;
    }
  }

  lemma StampedByMove(s: State, p: nat)
    requires s.cur < |s.pages| == |s.log|
    ensures HasStamp(MoveWriter(s), p) <==> HasStamp(s, p) || (s.writer.Making? && s.writer.stage == 0 && p + 1 == |s.pages|)
  {
    hide Get, LengthAt, FrameStores;
    if s.writer.Closing? {
      hide Put;
      PutKeepsStamp(s, s.cur, s.pos + STATUS, PAGE_END, p);
    }
  }

  lemma PutKeepsStamp(s: State, c: nat, at: nat, value: int, p: nat)
    requires c < |s.pages|
    ensures HasStamp(Put(s, c, at, value), p) <==> HasStamp(s, p)
  {
  }

  /** Over whole runs: what `stamped` records of a page. */
  lemma {:induction false} StampedIffStored(states: seq<State>, actions: seq<Action>, i: nat, p: nat)
    requires IsRun(states, actions) && Init(states[0]) && i < |states|
    ensures HasStamp(states[i], p) <==> exists j :: 0 <= j < i && Stamps(states[j], actions[j], p)
  {
    hide Apply, Enabled, Stamps, Init, HasStamp;
    if i == 0 {
      NoStampYet(states[0], p);
    } else {
      StampedIffStored(states, actions, i - 1, p);
      StampedByMaking(states[i - 1], actions[i - 1], p);
    }
  }

  lemma NoStampYet(s: State, p: nat)
    requires Init(s)
    ensures !HasStamp(s, p)
  {
  }

  /** The reader r reads the header that decides its seek. */
  predicate ReadsHeader(s: State, a: Action, r: nat, seek: Seek) {
    && a == ReaderMove(r) && r in s.readers && s.readers[r] == Scanning(seek.time, seek.page + 1)
    && seek.page < |s.pages| && s.pages[seek.page].startNano < seek.time && seek.stamped == s.pages[seek.page].stamped
  }

  /** A seek to a time, after it has found a page other than the first. */
  predicate FoundByTime(r: Reader) {
    (r.Found? || r.On?) && r.seek.page > 0 && r.seek.time != TIME_FROM_FIRST && r.seek.time != TIME_TO_LAST
  }

  lemma FoundNow(s: State, r: Reader)
    requires FoundByTime(MoveReader(s, r))
    ensures r.Scanning? ==>
              var seek := MoveReader(s, r).seek;
              && r == Scanning(seek.time, seek.page + 1)
              && seek.page < |s.pages| && s.pages[seek.page].startNano < seek.time && seek.stamped == s.pages[seek.page].stamped
    ensures !r.Scanning? ==> FoundByTime(r) && r.seek == MoveReader(s, r).seek
  {
    hide FrameAt, LengthAt, Get, Before;
  }

  lemma SoughtIsFirst(s: State, time: int)
    ensures !FoundByTime(Sought(s, time))
  {
  }

  /** Over whole runs: what `stamped` records of a seek is what it saw when it read the header of
      its page. */
  lemma {:induction false} FoundByHeader(states: seq<State>, actions: seq<Action>, i: nat, r: nat)
    requires IsRun(states, actions) && Init(states[0]) && i < |states|
    requires r in states[i].readers && FoundByTime(states[i].readers[r])
    ensures exists j :: 0 <= j < i && ReadsHeader(states[j], actions[j], r, states[i].readers[r].seek)
  {
    if i > 0 {
      hide Apply, Enabled, Init, FoundByTime, MoveReader, Sought;
      var s, a := states[i - 1], actions[i - 1];
      ReadersAfter(s, a, r);
      if a.ReaderMove? && a.r == r {
        FoundNow(s, s.readers[r]);
        if s.readers[r].Scanning? {
          assert ReadsHeader(s, a, r, states[i].readers[r].seek);
        } else {
          FoundByHeader(states, actions, i - 1, r);
        }
      } else if a.SeekTime? && a.r == r {
        SoughtIsFirst(s, a.time);
      } else {
        FoundByHeader(states, actions, i - 1, r);
      }
    }
  }

  /** The exact promise of a seek, in terms of the run alone: it skipped only frames stamped before
      its time, if and only if the start stamp of its page had been stored when it read the header,
      or nothing later was published before that page. */
  lemma SeekSkipsRightIff(states: seq<State>, actions: seq<Action>, i: nat, r: nat)
    requires IsRun(states, actions) && Init(states[0]) && i < |states|
    requires r in states[i].readers && states[i].readers[r].On? && FoundByTime(states[i].readers[r])
    ensures var reader := states[i].readers[r];
            && reader.from <= |All(states[i].log)| && reader.seek.page <= |states[i].log|
            && (SkippedRight(states[i], reader) <==>
                  || (exists k, j :: 0 <= k < j < i && Stamps(states[k], actions[k], reader.seek.page)
                                     && ReadsHeader(states[j], actions[j], r, reader.seek))
                  || LastIsBefore(states[i], reader.seek.page, reader.seek.time))
  {
    hide Apply, Enabled, Init, All, SkippedRight, LastIsBefore, Stamps, TurnInv;
    EveryReaderSeesThePiece(states, actions, i, r);
    FoundByHeader(states, actions, i, r);
    var reader := states[i].readers[r];
    if k, j :| 0 <= k < j < i && Stamps(states[k], actions[k], reader.seek.page) && ReadsHeader(states[j], actions[j], r, reader.seek) {
      StampedIffStored(states, actions, j, reader.seek.page);
    }
    if reader.seek.stamped {
      var j :| 0 <= j < i && ReadsHeader(states[j], actions[j], r, reader.seek);
      StampedIffStored(states, actions, j, reader.seek.page);
    }
  }

  // ---- What the header of an ended page says ---------------------------------------------------------------

  /** Page p has its number; and once it is ended, the number of its frames, where they end, and a
      closing stamp that no frame of it is later than. */
  ghost predicate HeaderOk(s: State, p: nat)
    requires p < |s.pages| == |s.log|
  {
    && (s.pages[p].inited ==> s.pages[p].pageNum == p + 1)
    && (Ended(s, p) ==>
          s.pages[p].frameNum == |s.log[p]| && s.pages[p].lastPos == End(s.log[p]) && UpTo(s.log[p], s.pages[p].closeNano))
  }

  /** What the stores of a turn have done so far. */
  ghost predicate TurnStores(s: State)
    requires |s.pages| == |s.log|
  {
    && (AtTurn(s) ==> s.frameNum == |s.log[s.cur]|)
    && match s.writer
       case Making(_, stage) => stage >= 3 && |s.pages| > 0 ==> s.pages[|s.pages| - 1].pageNum == |s.pages|
       case Closing(_, stage) =>
         s.cur < |s.pages| ==>
           && (stage >= 1 ==> UpTo(s.log[s.cur], s.pages[s.cur].closeNano))
           && (stage >= 2 ==> s.pages[s.cur].frameNum == |s.log[s.cur]|)
           && (stage >= 3 ==> s.pages[s.cur].lastPos == End(s.log[s.cur]))
       case _ => true
  }

  ghost predicate HeadersOk(s: State) {
    |s.pages| == |s.log| && TurnStores(s) && forall p :: 0 <= p < |s.pages| ==> HeaderOk(s, p)
  }

  lemma PageUpTo(s: State, p: nat)
    requires JournalInv(s) && p < |s.pages|
    ensures UpTo(s.log[p], s.clock)
  {
    forall i | 0 <= i < |s.log[p]|
      ensures s.log[p][i].nano <= s.clock
    {
      FrameOfAll(s.log, p, i);
    }
    hide All, PageOk, ReaderOk, WriterOk;
  }

  lemma StatusAtPlace(s: State)
    requires JournalInv(s) && s.writer.Locating?
    ensures s.cur < |s.pages| && (Get(s.pages[s.cur].mem, s.pos + STATUS) == WRITTEN <==> s.frameNum < |s.log[s.cur]|)
    ensures s.frameNum <= |s.log[s.cur]|
  {
    assert PageOk(s, s.cur);
    EndPosition(s, s.cur, s.frameNum, s.pos);
    hide All, PageOk, ReaderOk, StampsOk, PosOf, Fresh;
  }

  lemma StageOfMaking(s: State)
    requires JournalInv(s) && s.writer.Making?
    ensures |s.pages| > 0 && s.writer.stage <= 4 && (s.pages[|s.pages| - 1].inited <==> s.writer.stage >= 4)
    ensures s.cur + 1 == |s.pages| ==> s.log[s.cur] == [] && s.frameNum == 0
  {
    hide ReaderOk, StampsOk, PosOf, Fresh, All, PageOk;
  }

  lemma StageOfClosing(s: State)
    requires JournalInv(s) && s.writer.Closing?
    ensures s.cur + 2 == |s.pages| && s.writer.stage <= 3 && s.pos == End(s.log[s.cur])
  {
    hide ReaderOk, StampsOk, PosOf, Fresh, All, PageOk;
  }

  lemma TurnLocated(s: State, call: Call)
    requires s.cur < |s.pages| == |s.log| && s.frameNum <= |s.log[s.cur]|
    requires Get(s.pages[s.cur].mem, s.pos + STATUS) == WRITTEN <==> s.frameNum < |s.log[s.cur]|
    requires s.writer == Locating(call)
    ensures |Locate(s, call).pages| == |Locate(s, call).log| && TurnStores(Locate(s, call))
  {
    hide Get, LengthAt, FrameStores, UpTo, PosOf;
  }

  lemma TurnMade(s: State, call: Call, stage: nat)
    requires 0 < |s.pages| == |s.log| && stage <= 4 && s.writer == Making(call, stage) && TurnStores(s)
    requires s.cur < |s.pages| <= s.cur + 2
    ensures |MakePage(s, call, stage).log| == |MakePage(s, call, stage).pages| && TurnStores(MakePage(s, call, stage))
  {
    hide UpTo, PosOf;
  }

  lemma TurnClosed(s: State, call: Call, stage: nat)
    requires s.cur < |s.pages| == |s.log| && stage <= 3 && s.writer == Closing(call, stage) && TurnStores(s)
    requires s.cur + 2 == |s.pages| && UpTo(s.log[s.cur], s.clock) && s.pos == End(s.log[s.cur])
    ensures |ClosePage(s, call, stage).log| == |ClosePage(s, call, stage).pages| && TurnStores(ClosePage(s, call, stage))
  {
    hide UpTo, PosOf;
  }

  lemma TurnStoresMoved(s: State)
    requires TurnInv(s) && HeadersOk(s) && s.cur < |s.pages| && (s.writer.Making? || s.writer.Closing? || s.writer.Locating?)
    ensures |MoveWriter(s).pages| == |MoveWriter(s).log| && TurnStores(MoveWriter(s))
  {
    hide JournalInv, UpTo, LoadsAfterEnd, MadeBefore, HeaderOk, Ended, Locate, MakePage, ClosePage, TurnStores;
    WriterIsLast(s);
    if s.writer.Locating? {
      StatusAtPlace(s);
      TurnLocated(s, s.writer.call);
    } else if s.writer.Making? {
      StageOfMaking(s);
      TurnMade(s, s.writer.call, s.writer.stage);
    } else {
      StageOfClosing(s);
      PageUpTo(s, s.cur);
      TurnClosed(s, s.writer.call, s.writer.stage);
    }
  }

  lemma TurnStoresStored(s: State)
    requires TurnInv(s) && HeadersOk(s) && s.cur < |s.pages| && !s.writer.Making? && !s.writer.Closing? && !s.writer.Locating?
    ensures |MoveWriter(s).pages| == |MoveWriter(s).log| && TurnStores(MoveWriter(s))
  {
    hide JournalInv, LoadsAfterEnd, MadeBefore, HeaderOk, Ended, UpTo, PosOf, LengthAt, Get;
  }

  lemma TurnStoresCalled(s: State, a: Action)
    requires TurnInv(s) && HeadersOk(s) && Enabled(s, a) && !a.WriterMove?
    ensures |Apply(s, a).pages| == |Apply(s, a).log| && TurnStores(Apply(s, a))
  {
    hide JournalInv, LoadsAfterEnd, MadeBefore, HeaderOk, Ended, UpTo, PosOf, MoveReader, Sought, HeaderStores, Cells, FrameStores, Get;
  }

  lemma TurnStoresKept(s: State, a: Action)
    requires TurnInv(s) && HeadersOk(s) && Enabled(s, a)
    ensures |Apply(s, a).pages| == |Apply(s, a).log| && TurnStores(Apply(s, a))
  {
    if a.WriterMove? {
      MoveIsWriterMove(s);
      if s.writer.Making? || s.writer.Closing? || s.writer.Locating? { TurnStoresMoved(s); } else { TurnStoresStored(s); }
      hide TurnInv, HeadersOk, TurnStores, MoveWriter, Apply;
    } else {
      hide TurnInv, HeadersOk, TurnStores, Apply;
      TurnStoresCalled(s, a);
    }
  }

  /** The header fields of a page, as far as a page turn stores them. */
  predicate SameHeader(page: Page, page': Page) {
    page'.frameNum == page.frameNum && page'.lastPos == page.lastPos && page'.closeNano == page.closeNano
  }

  lemma EndedPageStaysMoved(s: State, p: nat)
    requires TurnInv(s) && s.cur < |s.pages| && p < |s.pages| && Ended(s, p)
    ensures var s' := MoveWriter(s); p < |s'.pages| == |s'.log| && s'.log[p] == s.log[p] && SameHeader(s.pages[p], s'.pages[p])
  {
    EmptyPageIsOpen(s, p);
    WriterIsLast(s);
    hide JournalInv, LoadsAfterEnd, MadeBefore, Ended, PosOf, LengthAt, Get, FrameStores;
  }

  lemma EndedPageStays(s: State, a: Action, p: nat)
    requires TurnInv(s) && Enabled(s, a) && p < |s.pages| && Ended(s, p)
    ensures var s' := Apply(s, a); p < |s'.pages| == |s'.log| && s'.log[p] == s.log[p] && SameHeader(s.pages[p], s'.pages[p])
  {
    if a.WriterMove? {
      MoveIsWriterMove(s);
      EndedPageStaysMoved(s, p);
      hide TurnInv, Ended, MoveWriter, Apply;
    } else {
      hide JournalInv, LoadsAfterEnd, MadeBefore, Ended, PosOf, MoveReader, Sought, HeaderStores, Cells, Get;
    }
  }

  lemma EndingPage(s: State, a: Action, p: nat)
    requires TurnInv(s) && Enabled(s, a) && p < |s.pages| && EndsPage(s, a, p)
    ensures var s' := Apply(s, a); p < |s'.pages| == |s'.log| && s'.log[p] == s.log[p] && SameHeader(s.pages[p], s'.pages[p])
  {
    hide JournalInv, LoadsAfterEnd, MadeBefore, Ended, Get;
  }

  lemma SamePage(s: State, p: nat)
    requires s.cur < |s.pages| == |s.log| && !s.writer.Making? && p < |s.pages|
    ensures p < |MoveWriter(s).pages| && MoveWriter(s).pages[p].inited == s.pages[p].inited && MoveWriter(s).pages[p].pageNum == s.pages[p].pageNum
    ensures |MoveWriter(s).pages| <= |s.pages| + 1 && (|MoveWriter(s).pages| > |s.pages| ==> MoveWriter(s).pages[|s.pages|] == BLANK)
  {
    hide Get, LengthAt, FrameStores, Writable, MakePage;
  }

  lemma NumberMade(s: State, p: nat)
    requires |s.pages| > 0 && s.writer.Making? && p < |s.pages|
    requires s.writer.stage <= 4 && (s.pages[|s.pages| - 1].inited <==> s.writer.stage >= 4)
    requires s.writer.stage >= 3 ==> s.pages[|s.pages| - 1].pageNum == |s.pages|
    requires s.pages[p].inited ==> s.pages[p].pageNum == p + 1
    ensures var s' := MakePage(s, s.writer.call, s.writer.stage); |s'.pages| == |s.pages| && (s'.pages[p].inited ==> s'.pages[p].pageNum == p + 1)
  {
  }

  lemma NumberKeptMoved(s: State, p: nat)
    requires TurnInv(s) && HeadersOk(s) && s.cur < |s.pages| && p < |MoveWriter(s).pages|
    ensures MoveWriter(s).pages[p].inited ==> MoveWriter(s).pages[p].pageNum == p + 1
  {
    assert p < |s.pages| ==> HeaderOk(s, p);
    assert |s.pages| == |s.log|;
    hide JournalInv, LoadsAfterEnd, MadeBefore, Ended, PosOf, UpTo, MakePage, Locate, ClosePage;
    if s.writer.Making? {
      StageOfMaking(s);
      assert MoveWriter(s) == MakePage(s, s.writer.call, s.writer.stage);
      assert |MakePage(s, s.writer.call, s.writer.stage).pages| == |s.pages| by { MakeKeepsLength(s); }
      NumberMade(s, p);
    } else {
      hide MoveWriter;
      SamePage(s, if p < |s.pages| then p else 0);
    }
  }

  lemma MakeKeepsLength(s: State)
    requires |s.pages| > 0 && s.writer.Making?
    ensures |MakePage(s, s.writer.call, s.writer.stage).pages| == |s.pages|
  {
  }

  lemma NumberKept(s: State, a: Action, p: nat)
    requires TurnInv(s) && HeadersOk(s) && Enabled(s, a) && p < |Apply(s, a).pages|
    ensures Apply(s, a).pages[p].inited ==> Apply(s, a).pages[p].pageNum == p + 1
  {
    if a.WriterMove? {
      MoveIsWriterMove(s);
      NumberKeptMoved(s, p);
      hide TurnInv, HeadersOk, MoveWriter, Apply;
    } else {
      assert p < |s.pages| ==> HeaderOk(s, p);
      hide JournalInv, LoadsAfterEnd, MadeBefore, Ended, PosOf, MoveReader, Sought, HeaderStores, Cells, Get, TurnStores, UpTo;
    }
  }

  lemma HeaderKept(s: State, a: Action, p: nat)
    requires TurnInv(s) && HeadersOk(s) && Enabled(s, a) && p < |Apply(s, a).pages| == |Apply(s, a).log|
    ensures HeaderOk(Apply(s, a), p)
  {
    var s' := Apply(s, a);
    NumberKept(s, a, p);
    CurAfter(s, a);
    ActionKeepsTurns(s, a);
    hide JournalInv, LoadsAfterEnd, MadeBefore, Ended, PosOf, Apply, Enabled;
    if p < |s.pages| {
      EndedByClosing(s, a, p);
      if Ended(s, p) { EndedPageStays(s, a, p); assert HeaderOk(s, p); }
      if EndsPage(s, a, p) { EndingPage(s, a, p); }
    } else {
      EmptyPageIsOpen(s', p);
    }
  }

  /** Page::finishPage and Page::load over every run, with any crashes: a page that was ended says
      how many frames it has and where they end. */
  lemma {:induction false} HeadersOfRun(states: seq<State>, actions: seq<Action>, i: nat)
    requires IsRun(states, actions) && Init(states[0]) && i < |states|
    ensures |states[i].pages| == |states[i].log| && forall p :: 0 <= p < |states[i].pages| ==> HeaderOk(states[i], p)
    ensures HeadersOk(states[i])
  {
    if i == 0 {
      hide Apply, Enabled;
    } else {
      hide TurnInv, Apply, Enabled, Init, HeaderOk, TurnStores;
      HeadersOfRun(states, actions, i - 1);
      RunKeepsTurns(states, actions, i - 1);
      TurnStoresKept(states[i - 1], actions[i - 1]);
      forall p | 0 <= p < |states[i].pages|
        ensures HeaderOk(states[i], p)
      {
        HeaderKept(states[i - 1], actions[i - 1], p);
      }
    }
  }

  // ---- It happens ------------------------------------------------------------------------------------------

  /** A writer that fills the first page with frames, and is not yet at the turn. */
  predicate Filling(s: State) {
    && |s.pages| == |s.log| == 1 && s.cur == 0
    && match s.writer
       case Ready => true
       case Locating(call) => !call.Placing?
       case Making(call, _) => !call.Placing?
       case Storing(_, _) => true
       case Clearing(_) => true
       case Publishing(_) => true
       case Passing => true
       case _ => false
  }

  /** What it does next. */
  function NextAction(s: State): Action {
    if s.writer.Ready? then WriteFrame(0, 0, []) else WriterMove
  }

  function Rank(w: Writer): nat {
    match w
    case Making(_, stage) => if stage <= 4 then 20 - stage else 0
    case Passing => 9
    case Locating(call) => if call.Opening? then 10 else 7
    case Ready => 8
    case Storing(_, _) => 6
    case Clearing(_) => 5
    case _ => 4
  }

  function Todo(w: Writer): nat {
    if w.Storing? then |w.todo| else 0
  }

  /** Each step stores, publishes or passes something, until the page is full. */
  lemma FillingMoves(s: State)
    requires JournalInv(s) && Filling(s)
    ensures Enabled(s, NextAction(s)) && End(s.log[0]) < PAGE_SIZE && s.frameNum <= |s.log[0]|
    ensures var s' := Apply(s, NextAction(s));
            || AtTurn(s')
            || (Filling(s')
                && (End(s'.log[0]) > End(s.log[0])
                    || (s'.log == s.log
                        && (Rank(s'.writer) < Rank(s.writer)
                            || (Rank(s'.writer) == Rank(s.writer)
                                && (s'.frameNum > s.frameNum || (s'.frameNum == s.frameNum && Todo(s'.writer) < Todo(s.writer))))))))
  {
    hide ReaderOk, StampsOk, Fresh, All, PosOf, Filled, Completes, FrameStores;
    assert PageOk(s, 0);
    if s.writer.Publishing? { ChainStep(s.log[0], s.writer.f); }
  }

  lemma OneMoreAction(states: seq<State>, actions: seq<Action>, a: Action)
    requires IsRun(states, actions) && Enabled(states[|actions|], a)
    ensures IsRun(states + [Apply(states[|actions|], a)], actions + [a])
  {
    hide Enabled, Apply;
  }

  /** All frames, published or on their way, are stamped `now`. */
  ghost predicate AllAt(s: State, now: int) {
    && s.clock == now
    && (forall p, i :: 0 <= p < |s.log| && 0 <= i < |s.log[p]| ==> s.log[p][i].nano == now)
    && match s.writer
       case Locating(call) => CallAt(call, now)
       case Making(call, _) => CallAt(call, now)
       case Storing(_, f) => f.nano == now
       case Clearing(f) => f.nano == now
       case Publishing(f) => f.nano == now
       case _ => true
  }

  predicate CallAt(call: Call, now: int) {
    call.Writing? ==> call.f.nano == now
  }

  /** The file of the second page has just been made. */
  predicate TurnBegins(s: State) {
    && |s.pages| == |s.log| == 2 && s.cur == 0 && s.pages[1] == BLANK && s.log[0] != []
    && s.writer.Making? && s.writer.stage == 0
  }

  lemma FillingStays(s: State, now: int)
    requires JournalInv(s) && Filling(s) && AllAt(s, now) && Enabled(s, NextAction(s))
    ensures var s' := Apply(s, NextAction(s));
            AllAt(s', now) && s'.readers == s.readers && (AtTurn(s') ==> TurnBegins(s'))
  {
    hide ReaderOk, StampsOk, Fresh, All, PosOf, Filled, Completes, FrameStores, LengthAt, Get;
    assert PageOk(s, 0);
    if s.writer.Locating? && !Writable(s) { FullPageHasFrames(s); }
  }

  lemma FullPageHasFrames(s: State)
    requires JournalInv(s) && s.writer.Locating? && !Writable(s)
    ensures Get(s.pages[s.cur].mem, s.pos + STATUS) != WRITTEN ==> s.log[s.cur] != []
  {
    hide ReaderOk, StampsOk, Fresh, All;
    assert PageOk(s, s.cur);
  }

  lemma {:induction false} FillPage(states: seq<State>, actions: seq<Action>, now: int)
    returns (states': seq<State>, actions': seq<Action>)
    requires IsRun(states, actions) && Init(states[0]) && Filling(states[|actions|]) && AllAt(states[|actions|], now)
    ensures IsRun(states', actions') && states'[0] == states[0]
    ensures TurnBegins(states'[|actions'|]) && AllAt(states'[|actions'|], now)
    ensures states'[|actions'|].readers == states[|actions|].readers
    decreases PAGE_SIZE - End(states[|actions|].log[0]), Rank(states[|actions|].writer),
              |states[|actions|].log[0]| - states[|actions|].frameNum, Todo(states[|actions|].writer)
  {
    hide JournalInv, Init, Enabled, Apply, End, Rank, Todo, Filling, AtTurn, AllAt, TurnBegins;
    var s := states[|actions|];
    InitKeeps(states[0]);
    RunKeeps(states, actions);
    assert JournalInv(s);
    FillingMoves(s);
    FillingStays(s, now);
    OneMoreAction(states, actions, NextAction(s));
    var s' := Apply(s, NextAction(s));
    states', actions' := states + [s'], actions + [NextAction(s)];
    if !AtTurn(s') {
      ActionKeeps(s, NextAction(s));
      FillingMoves(s');
      states', actions' := FillPage(states', actions', now);
    }
  }

  /** A run in which the writer has just begun its first page turn. */
  lemma FirstTurn(now: int, readers: map<nat, Reader>) returns (states: seq<State>, actions: seq<Action>)
    requires forall r :: r in readers ==> readers[r] == Off
    ensures IsRun(states, actions) && Init(states[0])
    ensures TurnBegins(states[|actions|]) && AllAt(states[|actions|], now) && states[|actions|].readers == readers
  {
    var start := State(now, [], Down, 0, 0, 0, readers, []);
    assert Init(start);
    states, actions := FillPage([start, Started(start)], [Start], now);
  }

  /** A run that ends with page 0 abandoned: the writer fills it and crashes at its turn. */
  lemma AbandonedHappens() returns (states: seq<State>, actions: seq<Action>)
    ensures IsRun(states, actions) && Init(states[0])
    ensures Abandoned(states[|actions|], 0)
  {
    states, actions := FirstTurn(0, map[]);
    var s := states[|actions|];
    OneMoreAction(states, actions, Crash);
    states, actions := states + [Apply(s, Crash)], actions + [Crash];
    hide Init, Enabled, Apply, AtTurn, Abandoned;
    assert CrashedAtTurn(states[|actions| - 1], actions[|actions| - 1], 0);
    AbandonedIffCrashedAtTurn(states, actions, |actions|, 0);
  }

  lemma OneStep(states: seq<State>, actions: seq<Action>, a: Action, s': State)
    returns (states': seq<State>, actions': seq<Action>)
    requires IsRun(states, actions) && Enabled(states[|actions|], a) && s' == Apply(states[|actions|], a)
    ensures IsRun(states', actions') && states'[0] == states[0] && states'[|actions'|] == s'
  {
    hide Enabled, Apply;
    OneMoreAction(states, actions, a);
    states', actions' := states + [s'], actions + [a];
  }

  /** The second page, after so many stores into its header. */
  function HeaderAfter(page: Page, clock: int, stage: nat): Page {
    if stage == 0 then page else
    var page1 := page.(startNano := clock, stamped := true);
    match stage
    case 1 => page1
    case 2 => page1.(closeNano := -1)
    case 3 => page1.(closeNano := -1, pageNum := 2)
    case _ => page1.(closeNano := -1, pageNum := 2, inited := true)
  }

  /** The turn after a reader has looked, and the writer has stored `stage` header fields. */
  function InTurn(s: State, r: Reader, stage: nat): State
    requires TurnBegins(s)
  {
    s.(pages := [s.pages[0], HeaderAfter(s.pages[1], s.clock, stage)], writer := Making(s.writer.call, stage), readers := map[0 := r])
  }

  lemma HeaderStore(s: State, r: Reader, stage: nat)
    requires TurnBegins(s) && stage < 4
    ensures Enabled(InTurn(s, r, stage), WriterMove)
    ensures Apply(InTurn(s, r, stage), WriterMove) == InTurn(s, r, stage + 1)
  {
    var s1 := InTurn(s, r, stage);
    assert s1.pages[1 := HeaderAfter(s.pages[1], s.clock, stage + 1)] == InTurn(s, r, stage + 1).pages;
  }

  /** The reader's part: it lists both pages, finds a zero start stamp in the header of the new one,
      and opens that page when it has its header. */
  lemma ReaderOfTurnMoves(s: State, t: int)
    requires TurnBegins(s) && 0 in s.readers && s.readers.Keys == {0} && t > 0
    ensures Enabled(s, SeekTime(0, t)) && Apply(s, SeekTime(0, t)) == InTurn(s, Scanning(t, 2), 0)
    ensures var s1 := InTurn(s, Scanning(t, 2), 0);
            Enabled(s1, ReaderMove(0)) && Apply(s1, ReaderMove(0)) == InTurn(s, Found(Seek(t, 1, false)), 0)
    ensures var s2 := InTurn(s, Found(Seek(t, 1, false)), 4);
            var atPage := On(1, 0, PAGE_HEADER, Seek(t, 1, false), Before(s.log, 1), [], Seeking);
            Enabled(s2, ReaderMove(0)) && Apply(s2, ReaderMove(0)) == InTurn(s, atPage, 4)
  {
    assert s.pages == [s.pages[0], s.pages[1]];
    assert s.readers[0 := Scanning(t, 2)] == map[0 := Scanning(t, 2)];
    hide Before;
    var s2 := InTurn(s, Found(Seek(t, 1, false)), 4);
    assert LoadPage(s2, 1) == Usable && s2.log == s.log;
  }

  /** A run in which a seek skips frames that are not older than its time: it reads the header of
      the page the writer is making before the start stamp is stored, and opens it afterwards. */
  lemma SeekSkipsTooMuch(t: int) returns (states: seq<State>, actions: seq<Action>)
    requires t > 0
    ensures IsRun(states, actions) && Init(states[0])
    ensures var s := states[|actions|];
            && 0 in s.readers && s.readers[0].On? && s.readers[0].seek.time == t
            && s.readers[0].from <= |All(s.log)| && !SkippedRight(s, s.readers[0])
  {
    states, actions := FirstTurn(t, map[0 := Off]);
    hide Enabled, Apply, Init, TurnBegins, All, AllAt;
    var s, found := states[|actions|], Found(Seek(t, 1, false));
    ReaderOfTurnMoves(s, t);
    states, actions := OneStep(states, actions, SeekTime(0, t), InTurn(s, Scanning(t, 2), 0));
    states, actions := OneStep(states, actions, ReaderMove(0), InTurn(s, found, 0));
    var stage: nat := 0;
    while stage < 4
      invariant stage <= 4 && IsRun(states, actions) && Init(states[0]) && states[|actions|] == InTurn(s, found, stage)
    {
      HeaderStore(s, found, stage);
      states, actions := OneStep(states, actions, WriterMove, InTurn(s, found, stage + 1));
      stage := stage + 1;
    }
    var atPage := On(1, 0, PAGE_HEADER, Seek(t, 1, false), Before(s.log, 1), [], Seeking);
    states, actions := OneStep(states, actions, ReaderMove(0), InTurn(s, atPage, 4));
    FirstIsSkipped(s, t);
  }

  lemma FirstIsSkipped(s: State, t: int)
    requires TurnBegins(s) && AllAt(s, t)
    ensures 0 < Before(s.log, 1) <= |All(s.log)| && All(s.log)[0].nano == t
  {
    BeforeCounts(s.log, 1);
    AllSplits(s.log, 0);
    assert s.log[..0] == [];
  }
}
