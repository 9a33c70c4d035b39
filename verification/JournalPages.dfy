/** Pages as chains of frames: where each frame starts, what a reader finds there, and which
    stores can disturb it. */
module JournalPages {
  import opened Journal

  /** Where frame i of a page starts; i == |frames| is the end of the chain. */
  function PosOf(frames: seq<Frame>, i: nat): (pos: nat)
    requires i <= |frames|
    ensures pos >= PAGE_HEADER
  {
    if i == 0 then PAGE_HEADER else PosOf(frames, i - 1) + Length(frames[i - 1])
  }

  function End(frames: seq<Frame>): nat {
    PosOf(frames, |frames|)
  }

  lemma {:induction false} PosOfGrows(frames: seq<Frame>, i: nat, j: nat)
    requires i < j <= |frames|
    ensures PosOf(frames, i) + Length(frames[i]) <= PosOf(frames, j)
  {
    if i + 1 < j { PosOfGrows(frames, i, j - 1); }
  }

  lemma {:induction false} PosOfPrefix(frames: seq<Frame>, more: seq<Frame>, i: nat)
    requires i <= |frames| && frames <= more
    ensures PosOf(more, i) == PosOf(frames, i)
  {
    if i > 0 { PosOfPrefix(frames, more, i - 1); }
  }

  /** The cells of a complete frame f, except its status. */
  predicate Filled(m: Memory, pos: nat, f: Frame) {
    Get(m, pos + LENGTH) == Length(f) && FrameAt(m, pos) == f
  }

  /** The page holds these frames, published, and nothing published after them. */
  ghost predicate Chained(m: Memory, frames: seq<Frame>) {
    && (forall i {:trigger PosOf(frames, i)} :: 0 <= i < |frames| ==>
         Get(m, PosOf(frames, i) + STATUS) == WRITTEN && Filled(m, PosOf(frames, i), frames[i]))
    && (Get(m, End(frames) + STATUS) == RAW || Get(m, End(frames) + STATUS) == PAGE_END)
  }

  lemma FilledFrame(m: Memory, m': Memory, pos: nat, f: Frame)
    requires Filled(m, pos, f)
    requires forall a :: pos < a < pos + Length(f) ==> Get(m', a) == Get(m, a)
    ensures Filled(m', pos, f)
  {
    var n := |f.data|;
    assert Cells(m, pos + FRAME_HEADER, n) == f.data;
    assert Cells(m', pos + FRAME_HEADER, n) == f.data;
  }

  /** Stores at or past the end of the chain leave every published frame alone. */
  lemma PutBeyond(m: Memory, frames: seq<Frame>, at: nat, value: int)
    requires Chained(m, frames) && at >= End(frames) && (at == End(frames) + STATUS ==> value == RAW || value == PAGE_END)
    ensures Chained(m[at := value], frames)
  {
    hide Filled, PosOf, FrameAt;
    forall i | 0 <= i < |frames|
      ensures Get(m[at := value], PosOf(frames, i) + STATUS) == WRITTEN
      ensures Filled(m[at := value], PosOf(frames, i), frames[i])
    {
      PosOfGrows(frames, i, |frames|);
      FilledFrame(m, m[at := value], PosOf(frames, i), frames[i]);
    }
  }

  /** Clearing the next status first is what makes publishing a frame end the chain after it. */
  lemma PublishExtends(m: Memory, frames: seq<Frame>, f: Frame)
    requires Chained(m, frames) && Filled(m, End(frames), f)
    requires Get(m, End(frames) + Length(f) + STATUS) == RAW
    ensures Chained(m[End(frames) + STATUS := WRITTEN], frames + [f])
    ensures End(frames + [f]) == End(frames) + Length(f)
  {
    hide Filled, PosOf, FrameAt;
    ChainStep(frames, f);
    var m', more := m[End(frames) + STATUS := WRITTEN], frames + [f];
    PosOfPrefix(frames, more, |frames|);
    forall i | 0 <= i < |more|
      ensures Get(m', PosOf(more, i) + STATUS) == WRITTEN && Filled(m', PosOf(more, i), more[i])
    {
      PosOfGrows(more, i, |more|);
      if i < |frames| {
        PosOfPrefix(frames, more, i);
        PosOfGrows(frames, i, |frames|);
        FilledFrame(m, m', PosOf(frames, i), frames[i]);
      } else {
        FilledFrame(m, m', End(frames), f);
      }
    }
  }

  lemma ChainStep(frames: seq<Frame>, f: Frame)
    ensures End(frames + [f]) == End(frames) + Length(f)
  {
    PosOfPrefix(frames, frames + [f], |frames|);
  }

  lemma EmptyChain(frames: seq<Frame>)
    requires frames == []
    ensures Chained(map[], frames) && End(frames) == PAGE_HEADER
  {
  }

  // ---- Runs of stores -------------------------------------------------------------------

  function ApplyAll(m: Memory, todo: seq<Store>): Memory
    decreases |todo|
  {
    if todo == [] then m else ApplyAll(m[todo[0].at := todo[0].value], todo[1..])
  }

  lemma {:induction false} ApplyAllOfBoth(m: Memory, a: seq<Store>, b: seq<Store>)
    ensures ApplyAll(m, a + b) == ApplyAll(ApplyAll(m, a), b)
    decreases |a|
  {
    if a == [] {
      assert a + b == b;
    } else {
      assert (a + b)[1..] == a[1..] + b;
      ApplyAllOfBoth(m[a[0].at := a[0].value], a[1..], b);
    }
  }

  lemma {:induction false} ApplyData(m: Memory, at: nat, data: seq<int>, a: nat)
    ensures Get(ApplyAll(m, DataStores(at, data)), a) == if at <= a < at + |data| then data[a - at] else Get(m, a)
    decreases |data|
  {
    if data != [] {
      assert DataStores(at, data)[1..] == DataStores(at + 1, data[1..]);
      ApplyData(m[at := data[0]], at + 1, data[1..], a);
    }
  }

  lemma {:induction false} DataStoresWithin(at: nat, data: seq<int>)
    ensures forall i :: 0 <= i < |DataStores(at, data)| ==> at <= DataStores(at, data)[i].at < at + |data|
    decreases |data|
  {
    if data != [] {
      DataStoresWithin(at + 1, data[1..]);
      assert DataStores(at, data)[1..] == DataStores(at + 1, data[1..]);
      forall i | 0 <= i < |DataStores(at, data)|
        ensures at <= DataStores(at, data)[i].at < at + |data|
      {
        if i > 0 { assert DataStores(at, data)[i] == DataStores(at + 1, data[1..])[i - 1]; }
      }
    }
  }

  /** The stores still to be made complete frame f, and touch nothing but its header and data. */
  ghost predicate Completes(m: Memory, pos: nat, todo: seq<Store>, f: Frame) {
    && (forall i :: 0 <= i < |todo| ==> pos < todo[i].at < pos + Length(f))
    && Filled(ApplyAll(m, todo), pos, f)
  }

  /** write_frame's stores, in their order, make up the frame. */
  lemma WriteCompletes(m: Memory, pos: nat, f: Frame)
    ensures Completes(m, pos, FrameStores(pos, f), f)
  {
    var head := [Store(pos + MSG_TYPE, f.msgType), Store(pos + LAST_FLAG, f.lastFlag)];
    var body := DataStores(pos + FRAME_HEADER, f.data);
    var tail := [Store(pos + LENGTH, Length(f)), Store(pos + NANO, f.nano)];
    var m1 := ApplyAll(m, head);
    var m2 := ApplyAll(m1, body);
    var m3 := ApplyAll(m2, tail);
    ApplyAllOfBoth(m, head + body, tail);
    ApplyAllOfBoth(m, head, body);
    TwoStores(m, head);
    TwoStores(m2, tail);
    forall a: nat
      ensures Get(m2, a) == if pos + FRAME_HEADER <= a < pos + Length(f) then f.data[a - pos - FRAME_HEADER] else Get(m1, a)
    {
      ApplyData(m1, pos + FRAME_HEADER, f.data, a);
    }
    forall i | 0 <= i < |f.data|
      ensures Get(m3, pos + FRAME_HEADER + i) == f.data[i]
    {
      assert Get(m2, pos + FRAME_HEADER + i) == f.data[pos + FRAME_HEADER + i - pos - FRAME_HEADER];
    }
    assert Cells(m3, pos + FRAME_HEADER, |f.data|) == f.data;
    DataStoresWithin(pos + FRAME_HEADER, f.data);
  }

  lemma TwoStores(m: Memory, todo: seq<Store>)
    requires |todo| == 2
    ensures forall a: nat :: Get(ApplyAll(m, todo), a) ==
              if a == todo[1].at then todo[1].value else if a == todo[0].at then todo[0].value else Get(m, a)
  {
    var m1 := m[todo[0].at := todo[0].value];
    assert todo[1..][0] == todo[1] && todo[1..][1..] == [];
    assert ApplyAll(m1, todo[1..]) == ApplyAll(m1[todo[1].at := todo[1].value], []);
  }

  /** JournalWriter::passFrame's stores make the caller's bytes a frame. */
  lemma PassCompletes(m: Memory, pos: nat, f: Frame)
    requires Get(m, pos + NANO) == f.nano && Cells(m, pos + FRAME_HEADER, |f.data|) == f.data
    ensures Completes(m, pos, HeaderStores(pos, f), f)
  {
    var todo := HeaderStores(pos, f);
    var m1 := m[todo[0].at := todo[0].value];
    var m3 := ApplyAll(m, todo);
    TwoStores(m1, todo[1..]);
    forall a: nat | pos + FRAME_HEADER <= a
      ensures Get(m3, a) == Get(m, a)
    {
      assert Get(m1, a) == Get(m, a);
    }
    assert Get(m1, pos + NANO) == f.nano;
    assert Cells(m3, pos + FRAME_HEADER, |f.data|) == Cells(m, pos + FRAME_HEADER, |f.data|);
  }

  /** A frame that fits the headroom is stored inside the page wherever it is placed, and only
      such a frame is: the status after a longer one can fall outside the mapped file. */
  lemma FitsEverywhereIffWithinHeadroom(length: nat)
    ensures (forall pos: nat :: PAGE_HEADER <= pos && pos + HEADROOM < PAGE_SIZE ==> Fits(pos, length)) <==> length <= HEADROOM
  {
    if length > HEADROOM { assert !Fits(PAGE_SIZE - HEADROOM - 1, length); }
  }

  predicate Fits(pos: nat, length: nat) {
    pos + length + STATUS < PAGE_SIZE
  }
}
