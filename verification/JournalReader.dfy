/** JournalReader over journals that nobody writes any more: each call of GetNextFrame hands on
    the oldest frame not yet handed on, and draining the reader is a stable merge by stamp. */
module JournalReader {
  import opened Journal
  import opened JournalPages
  import opened JournalInvariant
  import JournalSteps
  import opened JournalReading
  import opened JournalTheorems
  import opened JournalTurns
  import opened Wrappers

  // ---- The merge -------------------------------------------------------------------------

  // Frame idx of a journal, which is number `journal` of the reader
  datatype Tagged = Tagged(journal: nat, idx: nat, frame: Frame)

  type Logs = seq<seq<Frame>>

  predicate Positions(logs: Logs, at: seq<nat>) {
    |at| == |logs| && forall j :: 0 <= j < |logs| ==> at[j] <= |logs[j]|
  }

  /** Among the first n journals: the first of those whose next frame has the least stamp. */
  function Best(logs: Logs, at: seq<nat>, n: nat): (best: Option<nat>)
    requires Positions(logs, at) && n <= |logs|
    ensures best.Some? ==> best.value < n && at[best.value] < |logs[best.value]|
  {
    if n == 0 then None else
    var best, j := Best(logs, at, n - 1), n - 1;
    if at[j] < |logs[j]| && (best.None? || logs[j][at[j]].nano < logs[best.value][at[best.value]].nano) then Some(j)
    else best
  }

  lemma {:induction false} BestIsFirstLeast(logs: Logs, at: seq<nat>, n: nat, x: nat)
    requires Positions(logs, at) && x < n <= |logs| && at[x] < |logs[x]|
    ensures var best := Best(logs, at, n);
            best.Some? && var nano := logs[best.value][at[best.value]].nano;
            nano <= logs[x][at[x]].nano && (x < best.value ==> nano < logs[x][at[x]].nano)
  {
    if x < n - 1 { BestIsFirstLeast(logs, at, n - 1, x); }
  }

  /** The choice of the loop of getNextFrame, which takes the stamp TIME_TO_LAST for "none yet". */
  function Picked(logs: Logs, at: seq<nat>, n: nat): (picked: Option<nat>)
    requires Positions(logs, at) && n <= |logs|
    ensures picked.Some? ==> picked.value < n && at[picked.value] < |logs[picked.value]|
    ensures picked.None? ==> forall j :: 0 <= j < n ==> at[j] == |logs[j]|
  {
    if n == 0 then None else
    var picked, j := Picked(logs, at, n - 1), n - 1;
    if at[j] < |logs[j]| && (picked.None? || NanoAt(logs, at, picked.value) == TIME_TO_LAST || NanoAt(logs, at, j) < NanoAt(logs, at, picked.value))
    then Some(j)
    else picked
  }

  function NanoAt(logs: Logs, at: seq<nat>, j: nat): int
    requires Positions(logs, at) && j < |logs| && at[j] < |logs[j]|
  {
    logs[j][at[j]].nano
  }

  /** A frame stamped TIME_TO_LAST, and in a later journal one that is not older. */
  ghost predicate Masked(logs: Logs) {
    exists i, k, a, b :: MaskedAt(logs, i, k, a, b)
  }

  predicate MaskedAt(logs: Logs, i: nat, k: nat, a: nat, b: nat) {
    && i < k < |logs| && a < |logs[i]| && b < |logs[k]|
    && logs[i][a].nano == TIME_TO_LAST && logs[k][b].nano >= TIME_TO_LAST
  }

  lemma {:induction false} PickedIsBest(logs: Logs, at: seq<nat>, n: nat)
    requires Positions(logs, at) && n <= |logs| && !Masked(logs)
    ensures Picked(logs, at, n) == Best(logs, at, n)
  {
    if n > 0 {
      PickedIsBest(logs, at, n - 1);
      var best, j := Best(logs, at, n - 1), n - 1;
      if best.Some? && at[j] < |logs[j]| { assert !MaskedAt(logs, best.value, j, at[best.value], at[j]); }
    }
  }

  /** Two journals on offer, the others used up. */
  lemma {:induction false} MaskedPick(logs: Logs, i: nat, k: nat, a: nat, b: nat, at: seq<nat>, n: nat)
    requires MaskedAt(logs, i, k, a, b) && n <= |logs| && |at| == |logs|
    requires forall j :: 0 <= j < |logs| ==> at[j] == if j == i then a else if j == k then b else |logs[j]|
    ensures Positions(logs, at)
    ensures Best(logs, at, n) == if n <= i then None else Some(i)
    ensures Picked(logs, at, n) == if n <= i then None else if n <= k then Some(i) else Some(k)
  {
    if n > 0 { MaskedPick(logs, i, k, a, b, at, n - 1); }
  }

  function Left(logs: Logs, at: seq<nat>): nat
    requires Positions(logs, at)
  {
    if logs == [] then 0 else |logs[0]| - at[0] + Left(logs[1..], at[1..])
  }

  lemma {:induction false} LeftDrops(logs: Logs, at: seq<nat>, j: nat)
    requires Positions(logs, at) && j < |logs| && at[j] < |logs[j]|
    ensures Left(logs, at[j := at[j] + 1]) + 1 == Left(logs, at)
  {
    if j == 0 {
      assert at[0 := at[0] + 1][1..] == at[1..];
    } else {
      assert at[j := at[j] + 1][1..] == at[1..][j - 1 := at[j] + 1];
      LeftDrops(logs[1..], at[1..], j - 1);
    }
  }

  ghost function Merge(logs: Logs, at: seq<nat>): seq<Tagged>
    requires Positions(logs, at)
    decreases Left(logs, at)
  {
    match Best(logs, at, |logs|)
    case None => []
    case Some(j) =>
      LeftDrops(logs, at, j);
      [Tagged(j, at[j], logs[j][at[j]])] + Merge(logs, at[j := at[j] + 1])
  }

  /** What draining the reader hands on. */
  ghost function Drained(logs: Logs, at: seq<nat>): seq<Tagged>
    requires Positions(logs, at)
    decreases Left(logs, at)
  {
    match Picked(logs, at, |logs|)
    case None => []
    case Some(j) =>
      LeftDrops(logs, at, j);
      [Tagged(j, at[j], logs[j][at[j]])] + Drained(logs, at[j := at[j] + 1])
  }

  lemma {:induction false} DrainedIsMerge(logs: Logs, at: seq<nat>)
    requires Positions(logs, at) && !Masked(logs)
    ensures Drained(logs, at) == Merge(logs, at)
    decreases Left(logs, at)
  {
    PickedIsBest(logs, at, |logs|);
    hide Picked, Best, Masked, Merge, Drained;
    FirstOfBoth(logs, at);
    match Picked(logs, at, |logs|)
    case None =>
    case Some(j) =>
      LeftDrops(logs, at, j);
      DrainedIsMerge(logs, at[j := at[j] + 1]);
  }

  lemma FirstOfBoth(logs: Logs, at: seq<nat>)
    requires Positions(logs, at) && Picked(logs, at, |logs|) == Best(logs, at, |logs|)
    ensures match Picked(logs, at, |logs|)
            case None => Drained(logs, at) == Merge(logs, at) == []
            case Some(j) =>
              var first, at' := Tagged(j, at[j], logs[j][at[j]]), at[j := at[j] + 1];
              && Positions(logs, at')
              && Drained(logs, at) == [first] + Drained(logs, at') && Merge(logs, at) == [first] + Merge(logs, at')
  {
    hide Picked, Best, Left;
  }

  /** From every place, draining is the stable merge; exactly when no frame that carries the stamp
      TIME_TO_LAST is masked by a later journal. */
  lemma DrainIsMergeIff(logs: Logs)
    ensures (forall at :: Positions(logs, at) ==> Drained(logs, at) == Merge(logs, at)) <==> !Masked(logs)
  {
    if Masked(logs) {
      var i: nat, k: nat, a: nat, b: nat :| MaskedAt(logs, i, k, a, b);
      var at := seq(|logs|, j requires 0 <= j < |logs| => if j == i then a else if j == k then b else |logs[j]|);
      MaskedPick(logs, i, k, a, b, at, |logs|);
      assert Drained(logs, at)[0].journal == k && Merge(logs, at)[0].journal == i;
    } else {
      forall at | Positions(logs, at)
        ensures Drained(logs, at) == Merge(logs, at)
      {
        DrainedIsMerge(logs, at);
      }
    }
  }

  /** A picked frame stamped TIME_TO_LAST is picked only if no later journal has one to offer. */
  lemma {:induction false} PickedIsLast(logs: Logs, at: seq<nat>, n: nat, k: nat)
    requires Positions(logs, at) && k < n <= |logs| && Picked(logs, at, n).Some?
    requires var j := Picked(logs, at, n).value; j < k && NanoAt(logs, at, j) == TIME_TO_LAST
    ensures at[k] == |logs[k]|
  {
    if k < n - 1 { PickedIsLast(logs, at, n - 1, k); }
  }

  lemma {:induction false} MaskedDiffers(logs: Logs, at: seq<nat>, i: nat, k: nat, a: nat, b: nat)
    requires Positions(logs, at) && (forall j :: 0 <= j < |logs| ==> Sorted(logs[j]))
    requires MaskedAt(logs, i, k, a, b) && at[i] <= a && at[k] <= b
    ensures Drained(logs, at) != Merge(logs, at)
    decreases Left(logs, at)
  {
    hide Drained, Merge, Picked, Best, Sorted;
    var j := NextOfBoth(logs, at, i, k, a, b);
    if Picked(logs, at, |logs|) == Some(j) {
      FirstOfBoth(logs, at);
      LeftDrops(logs, at, j);
      var at' := at[j := at[j] + 1];
      MaskedDiffers(logs, at', i, k, a, b);
      assert Drained(logs, at)[1..] == Drained(logs, at') && Merge(logs, at)[1..] == Merge(logs, at');
    } else {
      PicksDiffer(logs, at, j);
    }
  }

  /** While both picks agree, neither of the two frames is taken. */
  lemma NextOfBoth(logs: Logs, at: seq<nat>, i: nat, k: nat, a: nat, b: nat) returns (j: nat)
    requires Positions(logs, at) && (forall j :: 0 <= j < |logs| ==> Sorted(logs[j]))
    requires MaskedAt(logs, i, k, a, b) && at[i] <= a && at[k] <= b
    ensures Best(logs, at, |logs|) == Some(j) && j < |logs| && at[j] < |logs[j]|
    ensures Picked(logs, at, |logs|) == Some(j) ==> (j == i ==> at[i] < a) && (j == k ==> at[k] < b)
  {
    BestIsFirstLeast(logs, at, |logs|, i);
    j := Best(logs, at, |logs|).value;
    hide Best, Picked;
    assert logs[i][at[i]].nano <= TIME_TO_LAST;
    if Picked(logs, at, |logs|) == Some(j) && j == i && at[i] == a { PickedIsLast(logs, at, |logs|, k); }
  }

  lemma PicksDiffer(logs: Logs, at: seq<nat>, j: nat)
    requires Positions(logs, at) && Best(logs, at, |logs|) == Some(j) && Picked(logs, at, |logs|) != Some(j)
    ensures Drained(logs, at) != Merge(logs, at)
  {
    hide Best, Left;
    assert Merge(logs, at)[0].journal == j;
    if Picked(logs, at, |logs|).Some? { assert Drained(logs, at)[0].journal != j; }
  }

  /** Draining sorted journals from their start is the stable merge exactly when no frame that
      carries the stamp TIME_TO_LAST is masked by a later journal. */
  lemma DrainFromStartIff(logs: Logs)
    requires forall j :: 0 <= j < |logs| ==> Sorted(logs[j])
    ensures var start: seq<nat> := seq(|logs|, _ => 0);
            Drained(logs, start) == Merge(logs, start) <==> !Masked(logs)
  {
    var start: seq<nat> := seq(|logs|, _ => 0);
    if Masked(logs) {
      var i: nat, k: nat, a: nat, b: nat :| MaskedAt(logs, i, k, a, b);
      MaskedDiffers(logs, start, i, k, a, b);
    } else {
      DrainedIsMerge(logs, start);
    }
  }

  // What a visitor is called with: the journal and the frame
  datatype Visit = Visit(journal: nat, frame: Frame)

  function Visits(merged: seq<Tagged>): seq<Visit> {
    seq(|merged|, i requires 0 <= i < |merged| => Visit(merged[i].journal, merged[i].frame))
  }

  predicate Earlier(a: Tagged, b: Tagged) {
    || a.frame.nano < b.frame.nano
    || (a.frame.nano == b.frame.nano && (a.journal < b.journal || (a.journal == b.journal && a.idx < b.idx)))
  }

  predicate Ahead(logs: Logs, at: seq<nat>, t: Tagged)
    requires Positions(logs, at)
  {
    t.journal < |logs| && at[t.journal] <= t.idx < |logs[t.journal]| && t.frame == logs[t.journal][t.idx]
  }

  /** The merge holds exactly the frames still ahead. */
  lemma {:induction false} MergeHoldsExactly(logs: Logs, at: seq<nat>, t: Tagged)
    requires Positions(logs, at)
    ensures t in Merge(logs, at) <==> Ahead(logs, at, t)
    decreases Left(logs, at)
  {
    match Best(logs, at, |logs|)
    case None => if Ahead(logs, at, t) { BestIsFirstLeast(logs, at, |logs|, t.journal); }
    case Some(j) =>
      LeftDrops(logs, at, j);
      MergeHoldsExactly(logs, at[j := at[j] + 1], t);
  }

  /** Stable: strictly increasing in stamp, then journal, then place in the journal; so every
      frame comes once, and the frames of a journal keep their order. */
  lemma {:induction false} MergeIsStable(logs: Logs, at: seq<nat>)
    requires Positions(logs, at) && forall j :: 0 <= j < |logs| ==> Sorted(logs[j])
    ensures forall a, b :: 0 <= a < b < |Merge(logs, at)| ==> Earlier(Merge(logs, at)[a], Merge(logs, at)[b])
    decreases Left(logs, at)
  {
    match Best(logs, at, |logs|)
    case None =>
    case Some(j) =>
      LeftDrops(logs, at, j);
      var at' := at[j := at[j] + 1];
      var rest := Merge(logs, at');
      MergeIsStable(logs, at');
      var head := Tagged(j, at[j], logs[j][at[j]]);
      forall b | 0 <= b < |rest|
        ensures Earlier(head, rest[b])
      {
        MergeHoldsExactly(logs, at', rest[b]);
        HeadIsEarliest(logs, at, j, rest[b]);
      }
      assert Merge(logs, at) == [head] + rest;
  }

  lemma HeadIsEarliest(logs: Logs, at: seq<nat>, j: nat, t: Tagged)
    requires Positions(logs, at) && Best(logs, at, |logs|) == Some(j)
    requires Positions(logs, at[j := at[j] + 1]) && Ahead(logs, at[j := at[j] + 1], t) && Sorted(logs[t.journal])
    ensures Earlier(Tagged(j, at[j], logs[j][at[j]]), t)
  {
    BestIsFirstLeast(logs, at, |logs|, t.journal);
  }

  // ---- One journal, read to its end ----------------------------------------------------------

  /** What a writer leaves behind: chains of frames, every page but the last ended and not empty. */
  ghost predicate Finished(pages: seq<Page>, log: seq<seq<Frame>>) {
    && 0 < |pages| == |log|
    && forall p :: 0 <= p < |pages| ==> Chained(pages[p].mem, log[p]) && FinishedPage(pages, log, p)
  }

  predicate FinishedPage(pages: seq<Page>, log: seq<seq<Frame>>, p: nat)
    requires p < |pages| == |log|
  {
    (Get(pages[p].mem, End(log[p]) + STATUS) == PAGE_END <==> p + 1 < |pages|) && (p + 1 < |pages| ==> log[p] != [])
  }

  /** Between its page turns a writer leaves a finished journal behind exactly when no page is
      abandoned. */
  lemma FinishedIff(s: State)
    requires TurnInv(s) && s.pages != []
    ensures Finished(s.pages, s.log) <==> !AtTurn(s) && forall p: nat :: !Abandoned(s, p)
  {
    WriterIsLast(s);
    assert forall p :: 0 <= p < |s.pages| ==> PageOk(s, p);
    hide JournalInv, Chained, MadeBefore, Ended;
    forall p: nat | p < |s.pages|
      ensures Chained(s.pages[p].mem, s.log[p]) && (p + 1 < |s.pages| ==> s.log[p] != [] || !Ended(s, p))
      ensures FinishedPage(s.pages, s.log, p) <==> (p + 1 < |s.pages| ==> Ended(s, p))
    {
      assert PageOk(s, p);
      EmptyPageIsOpen(s, p);
      EndedStatus(s, p);
    }
    if Finished(s.pages, s.log) {
      forall p: nat
        ensures !Abandoned(s, p)
      {
        if p + 1 < |s.pages| { assert FinishedPage(s.pages, s.log, p); }
      }
    } else {
      var p: nat :| p < |s.pages| && !FinishedPage(s.pages, s.log, p);
      assert Abandoned(s, p) || AtTurn(s);
    }
  }

  lemma EndedStatus(s: State, p: nat)
    requires p < |s.pages| == |s.log|
    ensures Ended(s, p) <==> Get(s.pages[p].mem, End(s.log[p]) + STATUS) == PAGE_END
  {
    hide PosOf;
  }

  /** Over whole runs: what a writer leaves behind between its page turns is a finished journal
      exactly when no crash has hit a turn. */
  lemma ReachableIsFinished(states: seq<State>, actions: seq<Action>, i: nat)
    requires IsRun(states, actions) && Init(states[0]) && i < |states| && states[i].pages != [] && !AtTurn(states[i])
    ensures Finished(states[i].pages, states[i].log) <==>
              forall j, p: nat :: 0 <= j < i ==> !CrashedAtTurn(states[j], actions[j], p)
  {
    hide TurnInv, Apply, Enabled, Init, Abandoned, AtTurn, CrashedAtTurn, Finished;
    RunKeepsTurns(states, actions, i);
    FinishedIff(states[i]);
    forall p: nat
      ensures Abandoned(states[i], p) <==> exists j :: 0 <= j < i && CrashedAtTurn(states[j], actions[j], p)
    {
      AbandonedIffCrashedAtTurn(states, actions, i, p);
    }
    if Finished(states[i].pages, states[i].log) {
      forall j, p: nat | 0 <= j < i
        ensures !CrashedAtTurn(states[j], actions[j], p)
      {
        assert !Abandoned(states[i], p);
      }
    }
  }

  /** Journal, used by a reader. */
  class Cursor {
    const pages: seq<Page>
    ghost const log: seq<seq<Frame>>
    var curPage: nat
    var position: nat
    ghost var idx: nat
    ghost var taken: nat

    ghost predicate Valid()
      reads this
    {
      && Finished(pages, log)
      && curPage < |pages| && idx <= |log[curPage]| && position == PosOf(log[curPage], idx)
      && taken == |All(log[..curPage])| + idx <= |All(log)|
    }

    ghost predicate AtFrame()
      reads this
    {
      curPage < |log| && idx < |log[curPage]|
    }

    constructor (pages: seq<Page>, ghost log: seq<seq<Frame>>)
      requires Finished(pages, log)
      ensures Valid() && this.pages == pages && this.log == log && taken == 0
    {
      this.pages, this.log := pages, log;
      curPage, position, idx, taken := 0, PAGE_HEADER, 0, 0;
      new;
      FrameOfAll(log, 0, 0);
    }

    /** Journal::locateFrame: at most one page is turned, and the next frame is then at hand. */
    method LocateFrame() returns (found: bool)
      requires Valid()
      modifies this`curPage, this`position, this`idx
      ensures Valid() && taken == old(taken)
      ensures found <==> taken < |All(log)|
      ensures found ==> FrameAt(pages[curPage].mem, position) == All(log)[taken] && AtFrame()
      ensures found ==> Get(pages[curPage].mem, position + NANO) == All(log)[taken].nano
    {
      hide All, PosOf, Filled, FrameAt;
      FinishedEnd(pages, log, curPage, idx);
      if Get(pages[curPage].mem, position + STATUS) == PAGE_END {
        NextPage(log, curPage);
        FirstPosition(log[curPage + 1]);
        curPage, position, idx := curPage + 1, PAGE_HEADER, 0;
        FinishedEnd(pages, log, curPage, idx);
      }
      found := Get(pages[curPage].mem, position + STATUS) == WRITTEN;
      FrameOfAll(log, curPage, idx);
      LastPage(log, curPage);
      if found { FinishedFrame(pages, log, curPage, idx); }
    }

    /** Journal::passFrame, after a frame was located. */
    method PassFrame()
      requires Valid() && AtFrame()
      modifies this`position, this`idx, this`taken
      ensures Valid() && taken == old(taken) + 1
    {
      hide All, PosOf, Filled, FrameAt;
      FinishedFrame(pages, log, curPage, idx);
      position := position + LengthAt(pages[curPage].mem, position);
      FrameOfAll(log, curPage, idx + 1);
      idx, taken := idx + 1, taken + 1;
    }
  }

  lemma FinishedFrame(pages: seq<Page>, log: seq<seq<Frame>>, p: nat, idx: nat)
    requires Finished(pages, log) && p < |pages| && idx < |log[p]|
    ensures var m, pos := pages[p].mem, PosOf(log[p], idx);
            && Get(m, pos + STATUS) == WRITTEN && FrameAt(m, pos) == log[p][idx]
            && Get(m, pos + NANO) == log[p][idx].nano
            && pos + LengthAt(m, pos) == PosOf(log[p], idx + 1)
  {
    hide PosOf;
    JournalSteps.FrameLength(pages[p].mem, PosOf(log[p], idx), log[p][idx]);
    JournalSteps.StepPosition(log[p], idx);
  }

  lemma FinishedEnd(pages: seq<Page>, log: seq<seq<Frame>>, p: nat, idx: nat)
    requires Finished(pages, log) && p < |pages| && idx <= |log[p]|
    ensures var m, pos := pages[p].mem, PosOf(log[p], idx);
            && (Get(m, pos + STATUS) == WRITTEN <==> idx < |log[p]|)
            && (Get(m, pos + STATUS) == PAGE_END <==> idx == |log[p]| && p + 1 < |pages|)
            && (p + 1 < |pages| ==> log[p] != [])
  {
    hide PosOf, Chained, FrameAt, Filled, LengthAt;
    if idx < |log[p]| { FinishedFrame(pages, log, p, idx); }
    ChainEnds(pages[p].mem, log[p]);
    assert FinishedPage(pages, log, p);
  }

  lemma ChainEnds(m: Memory, frames: seq<Frame>)
    requires Chained(m, frames)
    ensures Get(m, End(frames) + STATUS) == RAW || Get(m, End(frames) + STATUS) == PAGE_END
  {
    hide PosOf, Filled;
  }

  lemma FirstPosition(frames: seq<Frame>)
    ensures PosOf(frames, 0) == PAGE_HEADER
  {
  }

  lemma NextPage(log: seq<seq<Frame>>, p: nat)
    requires p + 1 < |log|
    ensures |All(log[..p + 1])| == |All(log[..p])| + |log[p]|
  {
    AllSplits(log, p);
  }

  lemma LastPage(log: seq<seq<Frame>>, p: nat)
    requires p < |log|
    ensures p + 1 == |log| ==> |All(log)| == |All(log[..p])| + |log[p]|
  {
    AllSplits(log, p);
    assert p + 1 == |log| ==> log[..p + 1] == log;
  }

  // ---- The choice of getNextFrame -------------------------------------------------------------

  /** The variables of the loop after n journals. */
  predicate Chosen(logs: Logs, at: seq<nat>, n: nat, frame: Option<Frame>, minNano: int, cur: nat)
    requires Positions(logs, at) && n <= |logs|
  {
    match Picked(logs, at, n)
    case None => frame.None? && minNano == TIME_TO_LAST
    case Some(j) => frame == Some(logs[j][at[j]]) && minNano == logs[j][at[j]].nano && cur == j
  }

  lemma ChosenStart(logs: Logs, at: seq<nat>, cur: nat)
    requires Positions(logs, at)
    ensures Chosen(logs, at, 0, None, TIME_TO_LAST, cur)
  {
  }

  lemma ChosenStep(logs: Logs, at: seq<nat>, n: nat, frame: Option<Frame>, minNano: int, cur: nat)
    requires Positions(logs, at) && n < |logs| && Chosen(logs, at, n, frame, minNano, cur)
    ensures if at[n] < |logs[n]| && (minNano == TIME_TO_LAST || logs[n][at[n]].nano < minNano) then
              Chosen(logs, at, n + 1, Some(logs[n][at[n]]), logs[n][at[n]].nano, n)
            else Chosen(logs, at, n + 1, frame, minNano, cur)
  {
  }

  /** The next frame of the merge is handed on; its journal, and no other, moves past it. */
  predicate Advances(logs: Logs, at: seq<nat>, at': seq<nat>, frame: Option<Frame>, cur: nat)
    requires Positions(logs, at)
  {
    match Picked(logs, at, |logs|)
    case None => frame.None? && at' == at
    case Some(j) => frame == Some(logs[j][at[j]]) && cur == j && at' == at[j := at[j] + 1]
  }

  lemma ChosenIsPicked(logs: Logs, at: seq<nat>, frame: Option<Frame>, minNano: int, cur: nat)
    requires Positions(logs, at) && Chosen(logs, at, |logs|, frame, minNano, cur)
    ensures frame.Some? ==> cur < |logs|
    ensures if frame.Some? then Advances(logs, at, at[cur := at[cur] + 1], frame, cur)
            else forall x :: Advances(logs, at, at, None, x)
  {
  }

  // ---- The reader -----------------------------------------------------------------------------

  /** JournalReader */
  class Reader {
    const journals: seq<Cursor>

    ghost predicate Valid()
      reads journals
    {
      && (forall j :: 0 <= j < |journals| ==> journals[j].Valid())
      && forall i, j :: 0 <= i < j < |journals| ==> journals[i] != journals[j]
    }

    ghost function Frames(): (logs: Logs)
      ensures |logs| == |journals|
    {
      seq(|journals|, j requires 0 <= j < |journals| => All(journals[j].log))
    }

    ghost function Taken(): seq<nat>
      reads journals
    {
      seq(|journals|, j requires 0 <= j < |journals| reads journals => journals[j].taken)
    }

    lemma TakenWithin()
      requires Valid()
      ensures Positions(Frames(), Taken())
    {
      hide All, PosOf, Finished;
    }

    ghost function At(): (at: seq<nat>)
      requires Valid()
      reads journals
      ensures Positions(Frames(), at)
    {
      TakenWithin();
      Taken()
    }

    constructor (journals: seq<Cursor>)
      requires forall j :: 0 <= j < |journals| ==> journals[j].Valid()
      requires forall i, j :: 0 <= i < j < |journals| ==> journals[i] != journals[j]
      ensures Valid() && this.journals == journals
    {
      this.journals := journals;
    }

    /** locateFrame of one journal: what it offers, without taking it. */
    method Look(n: nat) returns (offer: Option<Frame>)
      requires Valid() && n < |journals|
      modifies journals[n]
      ensures Valid() && At() == old(At())
      ensures offer == if At()[n] < |Frames()[n]| then Some(Frames()[n][At()[n]]) else None
      ensures offer.Some? ==> journals[n].AtFrame()
      ensures forall j :: 0 <= j < n ==> journals[j].AtFrame() == old(journals[j].AtFrame())
    {
      hide All, PosOf, Finished, FrameAt;
      var journal := journals[n];
      var found := journal.LocateFrame();
      assert forall j :: 0 <= j < |journals| ==> journals[j].taken == old(journals[j].taken);
      offer := None;
      if found { offer := Some(FrameAt(journal.pages[journal.curPage].mem, journal.position)); }
    }

    method Take(n: nat)
      requires Valid() && n < |journals| && journals[n].AtFrame()
      modifies journals[n]
      ensures Valid() && At() == old(At())[n := old(At())[n] + 1]
    {
      hide All, PosOf, Finished;
      journals[n].PassFrame();
      assert forall j :: 0 <= j < |journals| && j != n ==> journals[j].taken == old(journals[j].taken);
    }

    /** After n journals: the oldest frame on offer, and whose it is. */
    ghost predicate Offered(n: nat, frame: Option<Frame>, minNano: int, cur: nat)
      reads journals
    {
      && Valid() && n <= |journals|
      && Chosen(Frames(), At(), n, frame, minNano, cur)
      && (frame.Some? ==> cur < n && journals[cur].AtFrame())
    }

    /** One turn of the loop of getNextFrame. */
    method Consider(n: nat, frame: Option<Frame>, minNano: int, cur: nat)
      returns (frame': Option<Frame>, minNano': int, cur': nat)
      requires n < |journals| && Offered(n, frame, minNano, cur)
      modifies journals
      ensures Valid() && At() == old(At()) && Offered(n + 1, frame', minNano', cur')
    {
      ChosenStep(Frames(), At(), n, frame, minNano, cur);
      hide Cursor.Valid, Cursor.AtFrame, Reader.Valid, Reader.At, Frames, Picked, Chosen, Positions, All, PosOf;
      var offer := Look(n);
      if offer.Some? && (minNano == TIME_TO_LAST || offer.value.nano < minNano) {
        frame', minNano', cur' := offer, offer.value.nano, n;
      } else {
        frame', minNano', cur' := frame, minNano, cur;
      }
    }

    lemma NothingOffered()
      requires Valid()
      ensures Offered(0, None, TIME_TO_LAST, 0)
    {
      hide Cursor.Valid, Reader.Valid, Reader.At, Frames, Chosen;
      ChosenStart(Frames(), At(), 0);
    }

    /** The loop of getNextFrame over all journals. */
    method Choose() returns (frame: Option<Frame>, minNano: int, cur: nat)
      requires Valid()
      modifies journals
      ensures Valid() && At() == old(At()) && Offered(|journals|, frame, minNano, cur)
    {
      hide *;
      frame, minNano, cur := None, TIME_TO_LAST, 0;
      NothingOffered();
      for n := 0 to |journals|
        invariant Valid() && At() == old(At()) && Offered(n, frame, minNano, cur)
      {
        frame, minNano, cur := Consider(n, frame, minNano, cur);
      }
    }

    lemma OfferedIsPicked(frame: Option<Frame>, minNano: int, cur: nat)
      requires Offered(|journals|, frame, minNano, cur)
      ensures Valid()
      ensures frame.Some? ==> cur < |journals| && journals[cur].AtFrame()
      ensures if frame.Some? then Advances(Frames(), At(), At()[cur := At()[cur] + 1], frame, cur)
              else Advances(Frames(), At(), At(), None, cur)
    {
      hide Picked, Advances, Chosen, Cursor.Valid, Cursor.AtFrame, Reader.At, Frames, All, PosOf, Finished;
      ChosenIsPicked(Frames(), At(), frame, minNano, cur);
    }

    /** getNextFrame, and the journal the frame came from. */
    method GetNextFrame() returns (frame: Option<Frame>, curJournal: nat)
      requires Valid()
      modifies journals
      ensures Valid() && Advances(Frames(), old(At()), At(), frame, curJournal)
    {
      hide *;
      var minNano;
      frame, minNano, curJournal := Choose();
      OfferedIsPicked(frame, minNano, curJournal);
      if frame.Some? { Take(curJournal); }
    }

    /** startVisiting, until the journals have nothing more to give. */
    method Drain() returns (visited: seq<Visit>)
      requires Valid()
      modifies journals
      ensures Valid() && visited == Visits(Drained(Frames(), old(At())))
    {
      hide All, PosOf, Finished, FrameAt, Cursor.Valid, Reader.Valid, Reader.At, Frames;
      ghost var logs, start := Frames(), At();
      visited := [];
      ghost var at, merged: seq<Tagged> := start, [];
      var done := false;
      while !done
        invariant Valid() && At() == at
        invariant Drained(logs, start) == merged + Drained(logs, at) && visited == Visits(merged)
        invariant done ==> Drained(logs, at) == []
        decreases Left(logs, at), !done
      {
        var frame, curJournal := GetNextFrame();
        if frame.Some? {
          ghost var j := Picked(logs, at, |logs|).value;
          LeftDrops(logs, at, j);
          visited := visited + [Visit(curJournal, frame.value)];
          merged := merged + [Tagged(j, at[j], frame.value)];
          at := At();
        } else {
          done := true;
        }
      }
    }
  }

  /** PageUtil::GetPageNumWithTime: the loop from the last page down. */
  method GetPageNumWithTime(pages: seq<Page>, time: int) returns (p: nat)
    ensures p == PageWithTime(pages, time)
  {
    var i := |pages|;
    assert pages[..i] == pages;
    while i > 0
      invariant 0 <= i <= |pages| && PageWithTime(pages, time) == PageWithTime(pages[..i], time)
    {
      assert pages[..i][..i - 1] == pages[..i - 1];
      if pages[i - 1].startNano < time { return i - 1; }
      i := i - 1;
    }
    return 0;
  }
}
