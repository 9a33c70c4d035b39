/** The order throttle: at most `orderLimit` orders in any period of `periodMs`, enforced with a
    queue of the times of recent sends. */
module Throttle {

  const WORD: nat := 0x1_0000_0000_0000_0000
  type Word = n: nat | n < WORD

  datatype Code = NoError | ExceedThrottleRateRisk

  // ---- One check, on values ---------------------------------------------------------------

  /** The oldest time that still counts, in 64-bit arithmetic: it wraps while the clock is
      younger than one period. */
  function LowerBound(now: Word, period: Word): (bound: Word)
    ensures now >= period ==> bound == now - period
    ensures now < period ==> bound > now
  {
    (now - period) % WORD
  }

  function Prune(queue: seq<Word>, bound: Word): seq<Word> {
    if queue == [] || queue[0] > bound then queue else Prune(queue[1..], bound)
  }

  predicate Sorted(times: seq<Word>) {
    forall i, j :: 0 <= i < j < |times| ==> times[i] <= times[j]
  }

  predicate UpTo(times: seq<Word>, now: Word) {
    forall i :: 0 <= i < |times| ==> times[i] <= now
  }

  /** The times of the last period: after now - period. */
  function Recent(times: seq<Word>, now: Word, period: Word): seq<Word> {
    if times == [] then []
    else if times[0] > now - period then [times[0]] + Recent(times[1..], now, period)
    else Recent(times[1..], now, period)
  }

  lemma {:induction false} RecentOfLate(times: seq<Word>, now: Word, period: Word)
    requires forall i :: 0 <= i < |times| ==> times[i] > now - period
    ensures Recent(times, now, period) == times
  {
    if times != [] { RecentOfLate(times[1..], now, period); }
  }

  lemma {:induction false} PruneIsRecent(queue: seq<Word>, now: Word, period: Word)
    requires Sorted(queue) && now >= period
    ensures Prune(queue, LowerBound(now, period)) == Recent(queue, now, period)
  {
    if queue != [] {
      if queue[0] > now - period {
        RecentOfLate(queue, now, period);
      } else {
        PruneIsRecent(queue[1..], now, period);
      }
    }
  }

  lemma {:induction false} PruneAll(queue: seq<Word>, bound: Word)
    requires forall i :: 0 <= i < |queue| ==> queue[i] <= bound
    ensures Prune(queue, bound) == []
  {
    if queue != [] { PruneAll(queue[1..], bound); }
  }

  /** The check keeps exactly the sends of the last period, unless the clock is younger than one
      period: then the bound wraps around and every send recorded so far is forgotten. */
  lemma CheckIsExactIff(queue: seq<Word>, now: Word, period: Word)
    requires Sorted(queue) && UpTo(queue, now)
    ensures Prune(queue, LowerBound(now, period)) == Recent(queue, now, period) <==> now >= period || queue == []
  {
    if now >= period {
      PruneIsRecent(queue, now, period);
    } else {
      PruneAll(queue, LowerBound(now, period));
      RecentOfLate(queue, now, period);
    }
  }

  // ---- The rule in its object ----------------------------------------------------------------

  // The queue, and every send the rule has recorded
  datatype Sends = Sends(queue: seq<Word>, sent: seq<Word>)

  datatype Limits = Limits(orderLimit: Word, periodMs: Word)

  predicate Enabled(limits: Limits) {
    limits.orderLimit > 0 && limits.periodMs > 0
  }

  // An order that asks to be sent; `placed` says whether nothing else stops it
  datatype Attempt = Attempt(now: Word, placed: bool)

  function Checked(limits: Limits, s: Sends, now: Word): Sends {
    if Enabled(limits) then s.(queue := Prune(s.queue, LowerBound(now, limits.periodMs))) else s
  }

  function CodeOf(limits: Limits, s: Sends): Code {
    if Enabled(limits) && |s.queue| >= limits.orderLimit then ExceedThrottleRateRisk else NoError
  }

  function Sent(limits: Limits, s: Sends, now: Word): Sends {
    if Enabled(limits) then Sends(s.queue + [now], s.sent + [now]) else s
  }

  function Tried(limits: Limits, s: Sends, a: Attempt): Sends {
    var c := Checked(limits, s, a.now);
    if a.placed && CodeOf(limits, c) == NoError then Sent(limits, c, a.now) else c
  }

  class ThrottleRateRisk {
    const limits: Limits
    var timeQueue: seq<Word>
    var currentMs: Word
    ghost var sent: seq<Word>

    ghost function View(): Sends
      reads this
    {
      Sends(timeQueue, sent)
    }

    constructor (limits: Limits)
      ensures this.limits == limits && View() == Sends([], [])
    {
      this.limits, timeQueue, currentMs, sent := limits, [], 0, [];
    }

    method CheckOrderRequest(now: Word) returns (code: Code)
      modifies this`timeQueue, this`currentMs
      ensures View() == Checked(limits, old(View()), now)
      ensures code == CodeOf(limits, View())
      ensures Enabled(limits) ==> currentMs == now
    {
      if limits.orderLimit == 0 || limits.periodMs == 0 { return NoError; }
      currentMs := now;
      var lowerBound := LowerBound(now, limits.periodMs);
      while timeQueue != [] && timeQueue[0] <= lowerBound
        invariant Prune(timeQueue, lowerBound) == Prune(old(timeQueue), lowerBound) && currentMs == now
        decreases |timeQueue|
      {
        timeQueue := timeQueue[1..];
      }
      if |timeQueue| >= limits.orderLimit { return ExceedThrottleRateRisk; }
      return NoError;
    }

    method OnOrderSent()
      modifies this`timeQueue, this`sent
      ensures View() == Sent(limits, old(View()), currentMs)
    {
      if limits.orderLimit > 0 && limits.periodMs > 0 {
        timeQueue := timeQueue + [currentMs];
        sent := sent + [currentMs];
      }
    }

    /** The rule around one order, sent only when it was checked and nothing else stops it. */
    method TrySend(a: Attempt) returns (code: Code)
      modifies this
      ensures View() == Tried(limits, old(View()), a)
    {
      code := CheckOrderRequest(a.now);
      if a.placed && code == NoError { OnOrderSent(); }
    }
  }

  // ---- Whole runs ------------------------------------------------------------------------------

  function Run(limits: Limits, attempts: seq<Attempt>): Sends {
    if attempts == [] then Sends([], [])
    else Tried(limits, Run(limits, attempts[..|attempts| - 1]), attempts[|attempts| - 1])
  }

  /** A non-decreasing clock, from `start` on. */
  predicate ClockFrom(start: Word, attempts: seq<Attempt>) {
    && (forall i :: 0 <= i < |attempts| ==> attempts[i].now >= start)
    && forall i, j :: 0 <= i < j < |attempts| ==> attempts[i].now <= attempts[j].now
  }

  /** Sends that are `limit` apart in number are a period apart in time. */
  predicate Spaced(limits: Limits, sent: seq<Word>) {
    forall i :: limits.orderLimit <= i < |sent| ==> sent[i - limits.orderLimit] + limits.periodMs <= sent[i]
  }

  predicate RunOk(limits: Limits, s: Sends, now: Word) {
    && Sorted(s.sent) && UpTo(s.sent, now) && Spaced(limits, s.sent)
    && |s.queue| <= |s.sent| && s.queue == s.sent[|s.sent| - |s.queue|..]
    && forall i :: 0 <= i < |s.sent| - |s.queue| ==> s.sent[i] + limits.periodMs <= now
  }

  lemma {:induction false} PruneSuffix(queue: seq<Word>, bound: Word)
    requires Sorted(queue)
    ensures var q := Prune(queue, bound);
            && |q| <= |queue| && q == queue[|queue| - |q|..]
            && (forall i :: 0 <= i < |queue| - |q| ==> queue[i] <= bound)
            && forall i :: 0 <= i < |q| ==> q[i] > bound
  {
    if queue != [] && queue[0] <= bound {
      PruneSuffix(queue[1..], bound);
      var q := Prune(queue[1..], bound);
      forall i | 0 <= i < |queue| - |q|
        ensures queue[i] <= bound
      {
        if i > 0 { assert queue[i] == queue[1..][i - 1]; }
      }
    }
  }

  lemma {:induction false} RecentOfSuffix(times: seq<Word>, k: nat, now: Word, period: Word)
    requires k <= |times| && forall i :: 0 <= i < k ==> times[i] <= now - period
    ensures Recent(times, now, period) == Recent(times[k..], now, period)
  {
    if k > 0 {
      RecentOfSuffix(times[1..], k - 1, now, period);
      assert times[1..][k - 1..] == times[k..];
    } else {
      assert times[0..] == times;
    }
  }

  /** The sends that a check drops from the queue are older than the last period. */
  lemma CheckedSuffix(limits: Limits, s: Sends, last: Word, now: Word) returns (k: nat)
    requires Enabled(limits) && RunOk(limits, s, last) && last <= now && limits.periodMs <= now
    ensures var q := Checked(limits, s, now).queue;
            && k <= |s.sent| && |q| == |s.sent| - k && q == s.sent[k..]
            && (forall i :: 0 <= i < k ==> s.sent[i] + limits.periodMs <= now)
            && forall i :: 0 <= i < |q| ==> q[i] > now - limits.periodMs
  {
    var bound, gone := LowerBound(now, limits.periodMs), |s.sent| - |s.queue|;
    PruneSuffix(s.queue, bound);
    var q := Prune(s.queue, bound);
    hide Prune, LowerBound, Spaced;
    k := |s.sent| - |q|;
    forall i | 0 <= i < k
      ensures s.sent[i] + limits.periodMs <= now
    {
      if i >= gone { assert s.sent[i] == s.queue[i - gone]; }
    }
  }

  /** After a check the queue holds exactly the sends of the last period, whatever happened
      before it. */
  lemma CheckedIsRecent(limits: Limits, s: Sends, last: Word, now: Word)
    requires Enabled(limits) && RunOk(limits, s, last) && last <= now && limits.periodMs <= now
    ensures RunOk(limits, Checked(limits, s, now), now)
    ensures Checked(limits, s, now).queue == Recent(s.sent, now, limits.periodMs)
  {
    var k := CheckedSuffix(limits, s, last, now);
    hide Prune, Recent, Spaced;
    RecentOfSuffix(s.sent, k, now, limits.periodMs);
    RecentOfLate(s.sent[k..], now, limits.periodMs);
  }

  lemma TriedKeeps(limits: Limits, s: Sends, last: Word, a: Attempt)
    requires Enabled(limits) && RunOk(limits, s, last) && last <= a.now && limits.periodMs <= a.now
    ensures RunOk(limits, Tried(limits, s, a), a.now)
  {
    CheckedIsRecent(limits, s, last, a.now);
    hide Checked;
    if CodeOf(limits, Checked(limits, s, a.now)) == NoError { SentKeeps(limits, Checked(limits, s, a.now), a.now); }
  }

  lemma SentKeeps(limits: Limits, s: Sends, now: Word)
    requires Enabled(limits) && RunOk(limits, s, now) && CodeOf(limits, s) == NoError
    ensures RunOk(limits, Sent(limits, s, now), now)
  {
  }

  lemma {:induction false} RunKeeps(limits: Limits, attempts: seq<Attempt>)
    requires Enabled(limits) && ClockFrom(limits.periodMs, attempts) && attempts != []
    ensures RunOk(limits, Run(limits, attempts), attempts[|attempts| - 1].now)
  {
    hide RunOk, Tried;
    var n := |attempts| - 1;
    if n == 0 {
      EmptyRunOk(limits, attempts[0].now);
      assert attempts[..0] == [];
    } else {
      RunKeeps(limits, attempts[..n]);
    }
    TriedKeeps(limits, Run(limits, attempts[..n]), if n == 0 then attempts[0].now else attempts[n - 1].now, attempts[n]);
  }

  lemma EmptyRunOk(limits: Limits, now: Word)
    ensures RunOk(limits, Sends([], []), now)
  {
  }

  /** After every check of a run the queue holds exactly the sends of the last period. */
  lemma CheckedInRun(limits: Limits, attempts: seq<Attempt>, now: Word)
    requires Enabled(limits) && ClockFrom(limits.periodMs, attempts + [Attempt(now, false)])
    ensures var run := Run(limits, attempts);
            Checked(limits, run, now).queue == Recent(run.sent, now, limits.periodMs)
  {
    var all := attempts + [Attempt(now, false)];
    assert all[|attempts|].now == now;
    if attempts == [] {
      EmptyRunOk(limits, now);
      CheckedIsRecent(limits, Run(limits, attempts), now, now);
    } else {
      var last := |attempts| - 1;
      assert forall i :: 0 <= i < |attempts| ==> all[i] == attempts[i];
      RunKeeps(limits, attempts);
      CheckedIsRecent(limits, Run(limits, attempts), attempts[last].now, now);
    }
  }

  function Count(times: seq<Word>, from: int, upTo: int): nat {
    if times == [] then 0
    else Count(times[..|times| - 1], from, upTo) + if from < times[|times| - 1] <= upTo then 1 else 0
  }

  lemma {:induction false} CountSpaced(limits: Limits, sent: seq<Word>, from: int)
    requires Enabled(limits) && Sorted(sent) && Spaced(limits, sent)
    ensures Count(sent, from, from + limits.periodMs) <= limits.orderLimit
  {
    var n := |sent| - 1;
    if n >= 0 {
      if sent[n] > from + limits.periodMs {
        CountSpaced(limits, sent[..n], from);
      } else {
        assert n >= limits.orderLimit ==> sent[n - limits.orderLimit] <= from;
        CountAfter(sent, from, from + limits.periodMs, if n >= limits.orderLimit then n - limits.orderLimit + 1 else 0);
      }
    }
  }

  /** The times of a window are among those from index k on, if the ones before are not in it. */
  lemma {:induction false} CountAfter(sent: seq<Word>, from: int, upTo: int, k: nat)
    requires k <= |sent| && forall i :: 0 <= i < k ==> sent[i] <= from
    ensures Count(sent, from, upTo) <= |sent| - k
  {
    if k < |sent| {
      CountAfter(sent[..|sent| - 1], from, upTo, k);
    } else if sent != [] {
      CountAfter(sent[..|sent| - 1], from, upTo, k - 1);
    }
  }

  /** Over the whole run, no window of one period holds more sends than the limit. */
  lemma NoWindowExceedsTheLimit(limits: Limits, attempts: seq<Attempt>, from: int)
    requires Enabled(limits) && ClockFrom(limits.periodMs, attempts)
    ensures Count(Run(limits, attempts).sent, from, from + limits.periodMs) <= limits.orderLimit
  {
    if attempts != [] {
      RunKeeps(limits, attempts);
      CountSpaced(limits, Run(limits, attempts).sent, from);
    }
  }

  lemma {:induction false} RecentOfLast(times: seq<Word>, now: Word, period: Word)
    requires times != []
    ensures var n := |times| - 1;
            Recent(times, now, period) == Recent(times[..n], now, period) + if times[n] > now - period then [times[n]] else []
  {
    var n := |times| - 1;
    if n > 0 {
      RecentOfLast(times[1..], now, period);
      assert times[1..][..n - 1] == times[..n][1..];
    }
  }

  lemma {:induction false} RecentCounts(times: seq<Word>, now: Word, period: Word)
    requires UpTo(times, now)
    ensures |Recent(times, now, period)| == Count(times, now - period, now)
  {
    if times != [] {
      RecentOfLast(times, now, period);
      RecentCounts(times[..|times| - 1], now, period);
    }
  }

  lemma ClockSoFar(attempts: seq<Attempt>, start: Word, a: Attempt, b: Attempt)
    requires ClockFrom(start, attempts + [a]) && b.now == a.now
    ensures ClockFrom(start, attempts + [b]) && ClockFrom(start, attempts)
    ensures attempts != [] ==> attempts[|attempts| - 1].now <= a.now
  {
    var all, other := attempts + [a], attempts + [b];
    assert forall i :: 0 <= i < |attempts| ==> all[i] == attempts[i] && other[i] == attempts[i];
    assert all[|attempts|] == a && other[|attempts|] == b;
  }

  lemma SentSoFar(limits: Limits, attempts: seq<Attempt>, now: Word)
    requires Enabled(limits) && ClockFrom(limits.periodMs, attempts)
    requires attempts != [] ==> attempts[|attempts| - 1].now <= now
    ensures UpTo(Run(limits, attempts).sent, now)
  {
    hide Tried;
    if attempts != [] { RunKeeps(limits, attempts); }
  }

  /** Over every run: an order that nothing else stops is sent exactly when fewer than the limit were
      sent in the last period; and no other is recorded. */
  lemma SentIffRoom(limits: Limits, attempts: seq<Attempt>, a: Attempt)
    requires Enabled(limits) && ClockFrom(limits.periodMs, attempts + [a])
    ensures var before, after := Run(limits, attempts).sent, Run(limits, attempts + [a]).sent;
            after == if a.placed && Count(before, a.now - limits.periodMs, a.now) < limits.orderLimit then before + [a.now] else before
  {
    var run := Run(limits, attempts);
    assert (attempts + [a])[..|attempts|] == attempts;
    assert Run(limits, attempts + [a]) == Tried(limits, run, a);
    hide ClockFrom, Run, Prune, Recent, Count, UpTo;
    ClockSoFar(attempts, limits.periodMs, a, Attempt(a.now, false));
    CheckedInRun(limits, attempts, a.now);
    SentSoFar(limits, attempts, a.now);
    RecentCounts(run.sent, a.now, limits.periodMs);
  }

  predicate WithinLimit(limits: Limits, attempts: seq<Attempt>, from: int) {
    Count(Run(limits, attempts).sent, from, from + limits.periodMs) <= limits.orderLimit
  }

  /** One attempt more than the limit, all at the same time. */
  function Burst(limits: Limits, now: Word, n: nat): seq<Attempt> {
    seq(n, _ => Attempt(now, true))
  }

  /** While the clock is younger than one period each check forgets all sends, so all of a burst
      are sent. */
  lemma {:induction false} YoungClockSendsAll(limits: Limits, now: Word, n: nat)
    requires Enabled(limits) && now < limits.periodMs
    ensures var run := Run(limits, Burst(limits, now, n));
            && run.sent == seq(n, _ => now)
            && (forall i :: 0 <= i < |run.queue| ==> run.queue[i] == now)
            && Count(run.sent, now - 1, now - 1 + limits.periodMs) == n
  {
    if n > 0 {
      YoungClockSendsAll(limits, now, n - 1);
      var before := Run(limits, Burst(limits, now, n - 1));
      assert Burst(limits, now, n)[..n - 1] == Burst(limits, now, n - 1);
      PruneAll(before.queue, LowerBound(now, limits.periodMs));
      assert Run(limits, Burst(limits, now, n)) == Sends([now], before.sent + [now]);
      assert (before.sent + [now])[..n - 1] == before.sent;
    }
  }

  /** With any clock younger than one period the limit can be passed. */
  lemma YoungClockExceedsTheLimit(limits: Limits, now: Word)
    requires Enabled(limits) && now < limits.periodMs
    ensures var burst := Burst(limits, now, limits.orderLimit + 1);
            ClockFrom(now, burst) && !WithinLimit(limits, burst, now - 1)
  {
    YoungClockSendsAll(limits, now, limits.orderLimit + 1);
  }

  /** The limit holds in every window of every run from a time on, exactly when this time is past
      one period: before that the bound wraps around. */
  lemma LimitHoldsIff(limits: Limits, start: Word)
    requires Enabled(limits)
    ensures (forall attempts, from :: ClockFrom(start, attempts) ==> WithinLimit(limits, attempts, from)) <==>
              start >= limits.periodMs
  {
    if start >= limits.periodMs {
      forall attempts, from | ClockFrom(start, attempts)
        ensures WithinLimit(limits, attempts, from)
      {
        NoWindowExceedsTheLimit(limits, attempts, from);
      }
    } else {
      YoungClockExceedsTheLimit(limits, start);
    }
  }
}
