/** What the writer's callers are promised: the frames published are those asked for, in the order
    of the calls, without those that a crash cut off; and a call left alone comes to its end. */
module JournalCalls {
  import opened Journal
  import opened JournalPages
  import opened JournalInvariant
  import opened JournalSteps
  import opened JournalReading

  // ---- What was asked for ------------------------------------------------------------------

  // A frame asked for and not published yet. `stores` are the bytes written in place so far.
  datatype Job =
    | NoJob
    | Write(f: Frame)
    | Place(nano: int, stores: map<nat, int>)
    | Pass(nano: int, stores: map<nat, int>, length: nat, msgType: int, lastFlag: int)

  ghost predicate FrameAppears(s: State, a: Action)
    requires Enabled(s, a)
  {
    |All(Apply(s, a).log)| > |All(s.log)|
  }

  ghost function JobAfter(s: State, job: Job, a: Action): Job
    requires Enabled(s, a)
  {
    if FrameAppears(s, a) then NoJob else
    match a
    case Crash => NoJob
    case WriteFrame(msgType, lastFlag, data) => Write(Frame(s.clock, msgType, lastFlag, data))
    case LocateFrame => Place(s.clock, map[])
    case UserStore(i, b) => if job.Place? then Place(job.nano, job.stores[i := b]) else job
    case PassFrame(length, msgType, lastFlag) =>
      if job.Place? then Pass(job.nano, job.stores, length, msgType, lastFlag) else job
    case _ => job
  }

  /** The frame that a call asked for. */
  predicate Fulfils(f: Frame, job: Job) {
    match job
    case Write(asked) => f == asked
    case Pass(nano, stores, length, msgType, lastFlag) =>
      && f.nano == nano && f.msgType == msgType && f.lastFlag == lastFlag && |f.data| == length
      && forall i :: i in stores && i < length ==> f.data[i] == stores[i]
    case _ => false
  }

  ghost function JobOf(states: seq<State>, actions: seq<Action>, n: nat): Job
    requires IsRun(states, actions) && n < |states|
  {
    if n == 0 then NoJob else JobAfter(states[n - 1], JobOf(states, actions, n - 1), actions[n - 1])
  }

  /** What was asked for, of the frames published so far. */
  ghost function JobsDone(states: seq<State>, actions: seq<Action>, n: nat): seq<Job>
    requires IsRun(states, actions) && n < |states|
  {
    if n == 0 then [] else
    JobsDone(states, actions, n - 1)
    + if FrameAppears(states[n - 1], actions[n - 1]) then [JobOf(states, actions, n - 1)] else []
  }

  // ---- The writer works on what was asked for ----------------------------------------------

  predicate CallIs(call: Call, job: Job) {
    match call
    case Opening => job.NoJob?
    case Writing(f) => job == Write(f)
    case Placing(nano) => job == Place(nano, map[])
  }

  predicate JobOk(s: State, job: Job) {
    match s.writer
    case Down => job.NoJob?
    case Ready => job.NoJob?
    case Locating(call) => CallIs(call, job)
    case Making(call, _) => CallIs(call, job)
    case Closing(call, _) => CallIs(call, job)
    case Stamping(nano) => job == Place(nano, map[])
    case Placed(nano) =>
      && job.Place? && job.nano == nano && s.cur < |s.pages|
      && forall i :: i in job.stores ==> Get(s.pages[s.cur].mem, s.pos + FRAME_HEADER + i) == job.stores[i]
    case Storing(_, f) => Fulfils(f, job)
    case Clearing(f) => Fulfils(f, job)
    case Publishing(f) => Fulfils(f, job)
    case Passing => job.NoJob?
  }

  lemma AllAfterMove(s: State)
    requires JournalInv(s) && s.cur < |s.pages|
    ensures All(MoveWriter(s).log) == All(s.log) + if s.writer.Publishing? then [s.writer.f] else []
  {
    if s.writer.Publishing? { AllAppends(s.log, s.writer.f); } else { AllEmptyPage(s.log); }
    assert s.writer.Publishing? ==> s.cur + 1 == |s.log|;
    hide JournalInv, All, MakePage, ClosePage, LengthAt, Get, FrameStores;
    if s.writer.Closing? { CloseKeepsLog(s, s.writer.call, s.writer.stage); }
    if s.writer.Making? && |s.pages| > 0 { MakeKeepsLog(s, s.writer.call, s.writer.stage); }
  }

  lemma CloseKeepsLog(s: State, call: Call, stage: nat)
    requires s.cur < |s.pages|
    ensures ClosePage(s, call, stage).log == s.log
  {
  }

  lemma MakeKeepsLog(s: State, call: Call, stage: nat)
    requires |s.pages| > 0
    ensures MakePage(s, call, stage).log == s.log
  {
  }

  /** The journal grows by the frame of the writer's status store, and by nothing else. */
  lemma AllAfter(s: State, a: Action)
    requires JournalInv(s) && Enabled(s, a)
    ensures All(Apply(s, a).log) == All(s.log) + if a.WriterMove? && s.writer.Publishing? then [s.writer.f] else []
  {
    assert |s.pages| == |s.log|;
    if a.WriterMove? {
      AllAfterMove(s);
      hide JournalInv, All, MoveWriter;
    } else {
      NothingPublished();
      hide JournalInv, All, PosOf, MoveReader, Sought, Cells, HeaderStores;
    }
  }

  lemma MoveKeepsJob(s: State, job: Job)
    requires JournalInv(s) && s.cur < |s.pages| && JobOk(s, job)
    ensures JobOk(MoveWriter(s), if s.writer.Publishing? then NoJob else job)
  {
    hide All, PageOk, ReaderOk, StampsOk, PosOf, Filled, Completes, FrameStores, LengthAt, Fresh;
  }

  lemma CallKeepsJob(s: State, job: Job, a: Action)
    requires Enabled(s, a) && !a.WriterMove? && JobOk(s, job) && !FrameAppears(s, a)
    ensures JobOk(Apply(s, a), JobAfter(s, job, a))
  {
    hide All, FrameAppears, HeaderStores, FrameStores, MoveReader, Sought, LengthAt;
  }

  lemma JobKept(s: State, job: Job, a: Action)
    requires JournalInv(s) && Enabled(s, a) && JobOk(s, job)
    ensures JobOk(Apply(s, a), JobAfter(s, job, a))
    ensures FrameAppears(s, a) <==> a.WriterMove? && s.writer.Publishing?
    ensures FrameAppears(s, a) ==> exists f :: All(Apply(s, a).log) == All(s.log) + [f] && Fulfils(f, job)
    ensures !FrameAppears(s, a) ==> All(Apply(s, a).log) == All(s.log)
  {
    AllAfter(s, a);
    if a.WriterMove? {
      MoveKeepsJob(s, job);
      hide JournalInv, All, MoveWriter, Fulfils;
    } else {
      CallKeepsJob(s, job, a);
      hide JournalInv, All, Apply, Enabled, JobAfter, JobOk;
    }
  }

  lemma {:induction false} RunKeepsJob(states: seq<State>, actions: seq<Action>, n: nat)
    requires IsRun(states, actions) && Init(states[0]) && n < |states|
    ensures JournalInv(states[n]) && JobOk(states[n], JobOf(states, actions, n))
  {
    InitKeeps(states[0]);
    RunKeeps(states, actions);
    if n > 0 {
      hide JournalInv, Enabled, Apply, Init, JobAfter;
      RunKeepsJob(states, actions, n - 1);
      JobKept(states[n - 1], JobOf(states, actions, n - 1), actions[n - 1]);
    }
  }

  lemma JobStep(states: seq<State>, actions: seq<Action>, k: nat)
    requires IsRun(states, actions) && Init(states[0]) && k + 1 < |states|
    ensures k < |actions| && Enabled(states[k], actions[k]) && states[k + 1] == Apply(states[k], actions[k])
    ensures JournalInv(states[k]) && JobOk(states[k], JobOf(states, actions, k))
    ensures JobOf(states, actions, k + 1) == JobAfter(states[k], JobOf(states, actions, k), actions[k])
  {
    hide JournalInv, Enabled, Apply, Init, JobAfter;
    RunKeepsJob(states, actions, k);
  }

  /** Over every run, whatever the writer's crashes: the frames of the journal are, in order, those
      that were asked for and not cut off, each with the stamp taken at its call. */
  lemma {:induction false} EveryFrameWasAskedFor(states: seq<State>, actions: seq<Action>, n: nat)
    requires IsRun(states, actions) && Init(states[0]) && n < |states|
    ensures |All(states[n].log)| == |JobsDone(states, actions, n)|
    ensures forall i :: 0 <= i < |All(states[n].log)| ==> Fulfils(All(states[n].log)[i], JobsDone(states, actions, n)[i])
  {
    if n > 0 {
      RunKeepsJob(states, actions, n - 1);
      hide JournalInv, Enabled, Apply, Init, JobAfter, Fulfils, FrameAppears;
      EveryFrameWasAskedFor(states, actions, n - 1);
      JobKept(states[n - 1], JobOf(states, actions, n - 1), actions[n - 1]);
    }
  }

  // ---- One call ----------------------------------------------------------------------------

  predicate Crashes(a: Action) {
    a.Crash?
  }

  ghost predicate Finished(before: seq<Frame>, after: seq<Frame>, job: Job) {
    before < after && Fulfils(after[|before|], job)
  }

  lemma StaysFinished(before: seq<Frame>, mid: seq<Frame>, after: seq<Frame>, job: Job)
    requires Finished(before, mid, job) && mid <= after
    ensures Finished(before, after, job)
  {
    assert after[|before|] == mid[|before|];
  }

  lemma NowFinished(before: seq<Frame>, after: seq<Frame>, job: Job)
    requires exists f :: after == before + [f] && Fulfils(f, job)
    ensures Finished(before, after, job)
  {
  }

  /** While a frame is being written, the writer's process can make no other call. */
  lemma NoOtherCall(s: State, job: Job, a: Action)
    requires Enabled(s, a) && JobOk(s, job) && (job.Write? || job.Pass?) && !Crashes(a)
    ensures JobAfter(s, job, a) == if FrameAppears(s, a) then NoJob else job
  {
    hide FrameAppears, Apply;
  }

  /** A frame that was asked for is published, or still asked for. */
  ghost predicate Stands(before: seq<Frame>, now: seq<Frame>, jobNow: Job, job: Job) {
    (now == before && jobNow == job) || Finished(before, now, job)
  }

  lemma StandsAfter(s: State, jobNow: Job, a: Action, before: seq<Frame>, job: Job)
    requires JournalInv(s) && Enabled(s, a) && JobOk(s, jobNow) && !Crashes(a)
    requires Stands(before, All(s.log), jobNow, job) && (job.Write? || job.Pass?)
    ensures Stands(before, All(Apply(s, a).log), JobAfter(s, jobNow, a), job)
  {
    hide JournalInv, Enabled, Apply, JobAfter, JobOk, Fulfils, FrameAppears, All, Finished;
    JobKept(s, jobNow, a);
    if Finished(before, All(s.log), job) {
      StaysFinished(before, All(s.log), All(Apply(s, a).log), job);
    } else {
      NoOtherCall(s, jobNow, a);
      if FrameAppears(s, a) { NowFinished(before, All(Apply(s, a).log), job); }
    }
  }

  /** So it goes until the writer crashes. */
  lemma {:induction false} JobStands(states: seq<State>, actions: seq<Action>, c: nat, n: nat, job: Job)
    requires IsRun(states, actions) && Init(states[0]) && c < n < |states|
    requires JobOf(states, actions, c + 1) == job && (job.Write? || job.Pass?)
    requires All(states[c + 1].log) == All(states[c].log)
    requires forall k :: c < k < n ==> !Crashes(actions[k])
    ensures Stands(All(states[c].log), All(states[n].log), JobOf(states, actions, n), job)
    decreases n
  {
    hide IsRun, JournalInv, Enabled, Apply, Init, JobAfter, JobOf, JobOk, All, Finished, Fulfils;
    if n > c + 1 {
      hide Stands;
      JobStep(states, actions, n - 1);
      JobStands(states, actions, c, n - 1, job);
      StandsAfter(states[n - 1], JobOf(states, actions, n - 1), actions[n - 1], All(states[c].log), job);
    }
  }

  lemma CallTaken(s: State, job: Job, a: Action)
    requires JournalInv(s) && Enabled(s, a) && JobOk(s, job)
    ensures a.WriteFrame? ==> JobAfter(s, job, a) == Write(Frame(s.clock, a.msgType, a.lastFlag, a.data))
    ensures a.LocateFrame? ==> JobAfter(s, job, a) == Place(s.clock, map[])
    ensures a.PassFrame? ==> job.Place? && JobAfter(s, job, a) == Pass(job.nano, job.stores, a.length, a.msgType, a.lastFlag)
    ensures !a.WriterMove? ==> All(Apply(s, a).log) == All(s.log)
  {
    AllAfter(s, a);
    hide JournalInv, Apply, All;
  }

  /** JournalWriter::write_frame: when the call is over, the next frame of the journal has the stamp
      of the call and what was handed in. */
  lemma WrittenAsAsked(states: seq<State>, actions: seq<Action>, c: nat, n: nat)
    requires IsRun(states, actions) && Init(states[0]) && c < n < |states|
    requires actions[c].WriteFrame? && states[n].writer.Ready? && forall k :: c < k < n ==> !Crashes(actions[k])
    ensures var before, after := All(states[c].log), All(states[n].log);
            && before < after
            && after[|before|] == Frame(states[c].clock, actions[c].msgType, actions[c].lastFlag, actions[c].data)
  {
    hide IsRun, JournalInv, Enabled, Apply, Init, JobAfter, JobOf, FrameAppears, All;
    JobStep(states, actions, c);
    RunKeepsJob(states, actions, n);
    CallTaken(states[c], JobOf(states, actions, c), actions[c]);
    JobStands(states, actions, c, n, JobOf(states, actions, c + 1));
  }

  // ---- A frame written in place ------------------------------------------------------------

  predicate StoresAt(a: Action, i: nat) {
    a.UserStore? && a.i == i
  }

  lemma StillPlacing(s: State, job: Job, a: Action)
    requires JournalInv(s) && Enabled(s, a) && JobOk(s, job) && job.Place? && !Crashes(a) && !a.PassFrame?
    ensures var job' := JobAfter(s, job, a);
            && job'.Place? && job'.nano == job.nano
            && job'.stores == (if a.UserStore? then job.stores[a.i := a.b] else job.stores)
  {
    JobKept(s, job, a);
    hide FrameAppears, Apply, All, JournalInv;
  }

  lemma {:induction false} PlacedSince(states: seq<State>, actions: seq<Action>, b: nat, n: nat)
    requires IsRun(states, actions) && Init(states[0]) && b < n < |states| && actions[b].LocateFrame?
    requires forall k :: b < k < n ==> !Crashes(actions[k]) && !actions[k].PassFrame?
    ensures JobOf(states, actions, n).Place? && JobOf(states, actions, n).nano == states[b].clock
    decreases n
  {
    hide IsRun, JournalInv, Enabled, Apply, Init, JobAfter, JobOf, JobOk;
    JobStep(states, actions, n - 1);
    CallTaken(states[n - 1], JobOf(states, actions, n - 1), actions[n - 1]);
    if n > b + 1 {
      PlacedSince(states, actions, b, n - 1);
      StillPlacing(states[n - 1], JobOf(states, actions, n - 1), actions[n - 1]);
    }
  }

  lemma {:induction false} StoredSince(states: seq<State>, actions: seq<Action>, b: nat, w: nat, n: nat)
    requires IsRun(states, actions) && Init(states[0]) && b < w < n < |states|
    requires actions[b].LocateFrame? && actions[w].UserStore?
    requires forall k :: b < k < n ==> !Crashes(actions[k]) && !actions[k].PassFrame?
    requires forall k :: w < k < n ==> !StoresAt(actions[k], actions[w].i)
    ensures var job := JobOf(states, actions, n);
            job.Place? && actions[w].i in job.stores && job.stores[actions[w].i] == actions[w].b
    decreases n
  {
    hide IsRun, JournalInv, Enabled, Apply, Init, JobAfter, JobOf, JobOk;
    JobStep(states, actions, n - 1);
    PlacedSince(states, actions, b, n - 1);
    StillPlacing(states[n - 1], JobOf(states, actions, n - 1), actions[n - 1]);
    if n > w + 1 { StoredSince(states, actions, b, w, n - 1); }
  }

  /** locateFrame, stores by the caller, passFrame: when the call is over, the next frame of the
      journal has the stamp of locateFrame, the header that passFrame gave, and at each place the
      last byte that was stored there. */
  lemma PassedAsPlaced(states: seq<State>, actions: seq<Action>, b: nat, c: nat, n: nat)
    requires IsRun(states, actions) && Init(states[0]) && b < c < n < |states|
    requires actions[b].LocateFrame? && actions[c].PassFrame? && states[n].writer.Ready?
    requires forall k :: b < k < c ==> !actions[k].PassFrame?
    requires forall k :: b < k < n ==> !Crashes(actions[k])
    ensures var before, after := All(states[c].log), All(states[n].log);
            && before < after
            && var f := after[|before|];
               && f.nano == states[b].clock && f.msgType == actions[c].msgType && f.lastFlag == actions[c].lastFlag
               && |f.data| == actions[c].length
               && forall w :: b < w < c && actions[w].UserStore? && actions[w].i < |f.data| ==>
                    (forall k :: w < k < c ==> !StoresAt(actions[k], actions[w].i)) ==> f.data[actions[w].i] == actions[w].b
  {
    hide IsRun, JournalInv, Enabled, Apply, Init, JobAfter, JobOf, FrameAppears, All;
    JobStep(states, actions, c);
    RunKeepsJob(states, actions, n);
    PlacedSince(states, actions, b, c);
    CallTaken(states[c], JobOf(states, actions, c), actions[c]);
    JobStands(states, actions, c, n, JobOf(states, actions, c + 1));
    var f := All(states[n].log)[|All(states[c].log)|];
    forall w | b < w < c && actions[w].UserStore? && actions[w].i < |f.data|
      ensures (forall k :: w < k < c ==> !StoresAt(actions[k], actions[w].i)) ==> f.data[actions[w].i] == actions[w].b
    {
      if forall k :: w < k < c ==> !StoresAt(actions[k], actions[w].i) { StoredSince(states, actions, b, w, c); }
    }
  }

  // ---- A call left alone comes to its end --------------------------------------------------

  /** The writer's process makes so many accesses. */
  function Moved(s: State, n: nat): State
    decreases n
  {
    if n == 0 || !(s.cur < |s.pages| == |s.log|) then s else Moved(MoveWriter(s), n - 1)
  }

  predicate Idle(w: Writer) {
    w.Down? || w.Ready? || w.Placed?
  }

  function WorkAfterLocating(call: Call): nat {
    match call
    case Opening => 0
    case Writing(f) => |f.data| + 8
    case Placing(_) => 1
  }

  /** Accesses the writer still needs, at most: one for every frame it passes, and ten for a page turn. */
  function WorkLeft(s: State): int
    requires |s.pages| == |s.log|
  {
    match s.writer
    case Locating(call) =>
      WorkAfterLocating(call) + 1
      + if s.cur < |s.log| then |s.log[s.cur]| - s.frameNum + (if s.log[s.cur] == [] then 0 else 10) else 0
    case Making(call, stage) => WorkAfterLocating(call) + 1 + 5 - stage + if s.cur + 1 == |s.pages| then 0 else 4
    case Closing(call, stage) => WorkAfterLocating(call) + 1 + 4 - stage
    case Stamping(_) => 1
    case Storing(todo, _) => |todo| + 4
    case Clearing(_) => 3
    case Publishing(_) => 2
    case Passing => 1
    case _ => 0
  }

  lemma {:induction false} DataStoresLength(at: nat, data: seq<int>)
    ensures |DataStores(at, data)| == |data|
    decreases |data|
  {
    if data != [] { DataStoresLength(at + 1, data[1..]); }
  }

  lemma LocateWorks(s: State)
    requires JournalInv(s) && s.writer.Locating?
    ensures s.cur < |s.pages| && |MoveWriter(s).pages| == |MoveWriter(s).log| && 0 <= WorkLeft(MoveWriter(s)) < WorkLeft(s)
  {
    if s.writer.call.Writing? { DataStoresLength(s.pos + FRAME_HEADER, s.writer.call.f.data); }
    assert PageOk(s, s.cur);
    EndPosition(s, s.cur, s.frameNum, s.pos);
    hide All, PageOk, ReaderOk, StampsOk, PosOf, Fresh, DataStores, LengthAt;
    EmptyEnd(s.log[s.cur]);
  }

  lemma EmptyEnd(frames: seq<Frame>)
    ensures frames == [] ==> End(frames) == PAGE_HEADER
  {
  }

  lemma TurnWorks(s: State)
    requires JournalInv(s) && (s.writer.Making? || s.writer.Closing?)
    ensures s.cur < |s.pages| && |MoveWriter(s).pages| == |MoveWriter(s).log| && 0 <= WorkLeft(MoveWriter(s)) < WorkLeft(s)
  {
    hide All, PageOk, ReaderOk, StampsOk, PosOf, Fresh, LengthAt, Filled, Completes, Locate, StartedAfter;
  }

  lemma WriterWorks(s: State)
    requires JournalInv(s) && !Idle(s.writer)
    ensures s.cur < |s.pages| && |MoveWriter(s).pages| == |MoveWriter(s).log| && 0 <= WorkLeft(MoveWriter(s)) < WorkLeft(s)
  {
    if s.writer.Locating? {
      LocateWorks(s);
      hide JournalInv, MoveWriter;
    } else if s.writer.Making? || s.writer.Closing? {
      TurnWorks(s);
      hide JournalInv, MoveWriter;
    } else {
      hide All, PageOk, ReaderOk, StampsOk, PosOf, Fresh, LengthAt, Filled, Completes, Locate, MakePage, ClosePage;
    }
  }

  /** The call is over; if a frame was asked for, exactly this frame was published. */
  ghost predicate CallOver(before: seq<Frame>, s: State, job: Job) {
    && (s.writer.Ready? || s.writer.Placed?)
    && if job.Write? || job.Pass? then s.writer.Ready? && exists f :: All(s.log) == before + [f] && Fulfils(f, job)
       else All(s.log) == before && JobOk(s, job)
  }

  lemma OverAtOnce(s: State, job: Job)
    requires JobOk(s, job) && Idle(s.writer) && !s.writer.Down?
    ensures CallOver(All(s.log), s, job)
  {
    hide All;
  }

  lemma OverLater(before: seq<Frame>, mid: seq<Frame>, s: State, job: Job, job': Job, published: bool, f: Frame)
    requires CallOver(mid, s, job') && if published then job' == NoJob && Fulfils(f, job) && mid == before + [f] else job' == job && mid == before
    ensures CallOver(before, s, job)
  {
    hide All;
  }

  /** Whatever the writer is at, its own accesses bring the call to its end, and if a frame was
      asked for they publish exactly this frame. */
  lemma {:induction false} CallEnds(s: State, job: Job) returns (n: nat)
    requires JournalInv(s) && JobOk(s, job) && !s.writer.Down?
    ensures |s.pages| == |s.log| && n <= WorkLeft(s)
    ensures JournalInv(Moved(s, n)) && CallOver(All(s.log), Moved(s, n), job)
    decreases if |s.pages| == |s.log| then WorkLeft(s) else 0
  {
    assert |s.pages| == |s.log| && (Idle(s.writer) ==> WorkLeft(s) == 0);
    hide JournalInv, All, MoveWriter, Fulfils, WorkLeft, JobOk, CallOver;
    if Idle(s.writer) {
      n := 0;
      OverAtOnce(s, job);
    } else {
      WriterWorks(s);
      MoveAppends(s, job);
      var s', published := MoveWriter(s), s.writer.Publishing?;
      var k := CallEnds(s', if published then NoJob else job);
      n := k + 1;
      var f := if published then s.writer.f else Frame(0, 0, 0, []);
      OverLater(All(s.log), All(s'.log), Moved(s', k), job, if published then NoJob else job, published, f);
    }
  }

  lemma MoveAppends(s: State, job: Job)
    requires JournalInv(s) && JobOk(s, job) && s.cur < |s.pages| && !Idle(s.writer)
    ensures var s', job' := MoveWriter(s), if s.writer.Publishing? then NoJob else job;
            && JournalInv(s') && JobOk(s', job') && !s'.writer.Down?
            && if s.writer.Publishing? then Fulfils(s.writer.f, job) && All(s'.log) == All(s.log) + [s.writer.f]
               else All(s'.log) == All(s.log)
  {
    assert s.cur < |s.pages| == |s.log|;
    ActionKeeps(s, WriterMove);
    AllAfter(s, WriterMove);
    MoveKeepsJob(s, job);
    assert Apply(s, WriterMove) == MoveWriter(s) by { hide MoveWriter, JournalInv; }
    assert !MoveWriter(s).writer.Down? by { hide JournalInv, LengthAt, FrameStores, All; }
    hide JournalInv, MoveWriter, All, Fulfils;
  }

  /** write_frame left alone: at most so many accesses, and the journal is longer by this frame. */
  lemma WriteEnds(s: State, msgType: int, lastFlag: int, data: seq<int>) returns (n: nat)
    requires JournalInv(s) && Enabled(s, WriteFrame(msgType, lastFlag, data))
    ensures n <= |data| + 19
    ensures var s' := Moved(Apply(s, WriteFrame(msgType, lastFlag, data)), n);
            s'.writer.Ready? && All(s'.log) == All(s.log) + [Frame(s.clock, msgType, lastFlag, data)]
  {
    var a := WriteFrame(msgType, lastFlag, data);
    ActionKeeps(s, a);
    CallTaken(s, NoJob, a);
    assert JobOk(Apply(s, a), Write(Frame(s.clock, msgType, lastFlag, data)));
    assert s.cur < |s.log| && s.frameNum == |s.log[s.cur]|;
    n := CallEnds(Apply(s, a), Write(Frame(s.clock, msgType, lastFlag, data)));
    hide JournalInv, All, Moved;
  }

  /** locateFrame left alone: the writer has room for the caller's bytes, and the journal is as it was. */
  lemma LocateEnds(s: State) returns (n: nat)
    requires JournalInv(s) && Enabled(s, LocateFrame)
    ensures n <= 12
    ensures var s' := Moved(Apply(s, LocateFrame), n);
            s'.writer == Placed(s.clock) && s'.pos + HEADROOM < PAGE_SIZE && All(s'.log) == All(s.log)
  {
    ActionKeeps(s, LocateFrame);
    CallTaken(s, NoJob, LocateFrame);
    assert JobOk(Apply(s, LocateFrame), Place(s.clock, map[]));
    assert s.cur < |s.log| && s.frameNum == |s.log[s.cur]|;
    n := CallEnds(Apply(s, LocateFrame), Place(s.clock, map[]));
    hide All, Moved, PageOk, ReaderOk, StampsOk, PosOf, Fresh;
  }

  /** passFrame left alone: the journal is longer by a frame with this header and the bytes stored. */
  lemma PassEnds(s: State, job: Job, length: nat, msgType: int, lastFlag: int) returns (n: nat)
    requires JournalInv(s) && JobOk(s, job) && Enabled(s, PassFrame(length, msgType, lastFlag))
    ensures job.Place? && n <= 7
    ensures var s' := Moved(Apply(s, PassFrame(length, msgType, lastFlag)), n);
            s'.writer.Ready? && exists f :: All(s'.log) == All(s.log) + [f] && Fulfils(f, Pass(job.nano, job.stores, length, msgType, lastFlag))
  {
    var a := PassFrame(length, msgType, lastFlag);
    var s1, asked := Apply(s, a), Pass(job.nano, job.stores, length, msgType, lastFlag);
    ActionKeeps(s, a);
    JobKept(s, job, a);
    CallTaken(s, job, a);
    hide JournalInv, All, Moved, JobOk, JobAfter, FrameAppears, Fulfils, Cells;
    n := CallEnds(s1, asked);
  }
}
