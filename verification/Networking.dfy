/** Messages over a byte stream: each is framed with its length, partial writes are continued, and
    the receiver puts messages together again however the stream was cut. */
module Networking {

  type Byte = b: int | 0 <= b < 256
  type Bytes = seq<Byte>

  const WORD: nat := 0x1_0000_0000_0000_0000
  const HALF: nat := 0x8000_0000_0000_0000
  const HEADER: nat := 8

  // ---- Frames -------------------------------------------------------------------------------

  function LittleEndian(n: nat, width: nat): (bytes: Bytes)
    ensures |bytes| == width
  {
    if width == 0 then [] else [n % 256] + LittleEndian(n / 256, width - 1)
  }

  function Value(bytes: Bytes): nat {
    if bytes == [] then 0 else bytes[0] + 256 * Value(bytes[1..])
  }

  function Pow256(width: nat): (p: nat)
    ensures p > 0
  {
    if width == 0 then 1 else 256 * Pow256(width - 1)
  }

  lemma {:induction false} LittleEndianRoundTrip(n: nat, width: nat)
    requires n < Pow256(width)
    ensures Value(LittleEndian(n, width)) == n
  {
    if width > 0 {
      LittleEndianRoundTrip(n / 256, width - 1);
      assert LittleEndian(n, width)[1..] == LittleEndian(n / 256, width - 1);
    }
  }

  lemma QuotientOfQuotient(n: nat, b: nat)
    requires b > 0
    ensures n / 256 / b == n / (256 * b)
  {
    var m, s := n / 256, n % 256;
    var q, r := m / b, m % b;
    var t := q * b;
    assert m == t + r;
    assert q * (256 * b) == 256 * t;
    Quotient(q, 256 * b, 256 * r + s);
    assert n == q * (256 * b) + (256 * r + s);
  }

  lemma Quotient(q: nat, d: nat, r: nat)
    requires r < d
    ensures (q * d + r) / d == q
  {
    var x := (q * d + r) / d;
    assert (x - q) * d <= r;
    assert x - q >= 1 ==> (x - q) * d >= d;
    assert (q - x) * d < d;
    assert q - x >= 1 ==> (q - x) * d >= d;
  }

  /** Byte i of the header has the weight 256 to the i: the first is the lowest. */
  lemma {:induction false} ByteAt(n: nat, width: nat, i: nat)
    requires i < width
    ensures LittleEndian(n, width)[i] == n / Pow256(i) % 256
  {
    if i > 0 {
      ByteAt(n / 256, width - 1, i - 1);
      QuotientOfQuotient(n, Pow256(i - 1));
    }
  }

  lemma HeaderHoldsWords()
    ensures Pow256(HEADER) == WORD
  {
    var w: nat := 4;
    assert Pow256(w) == 0x1_0000_0000;
    assert Pow256(w + 4) == 0x1_0000_0000 * 0x1_0000_0000;
  }

  /** SendMsg: eight bytes of length, then the text. */
  function Frame(msg: Bytes): Bytes {
    LittleEndian(|msg|, HEADER) + msg
  }

  function Stream(msgs: seq<Bytes>): Bytes {
    if msgs == [] then [] else Frame(msgs[0]) + Stream(msgs[1..])
  }

  // ---- Taking a stream apart ---------------------------------------------------------------------

  function Size(buf: Bytes): nat
    requires |buf| >= HEADER
  {
    Value(buf[..HEADER])
  }

  predicate Complete(buf: Bytes) {
    |buf| >= HEADER && HEADER + Size(buf) <= |buf|
  }

  function Messages(buf: Bytes): seq<Bytes> {
    if Complete(buf) then [buf[HEADER..HEADER + Size(buf)]] + Messages(buf[HEADER + Size(buf)..]) else []
  }

  function Rest(buf: Bytes): (rest: Bytes)
    ensures !Complete(rest)
  {
    if Complete(buf) then Rest(buf[HEADER + Size(buf)..]) else buf
  }

  /** However a stream is cut in two, nothing changes in what is delivered and kept. */
  lemma {:induction false} CutAnywhere(a: Bytes, b: Bytes)
    ensures Messages(a + b) == Messages(a) + Messages(Rest(a) + b)
    ensures Rest(a + b) == Rest(Rest(a) + b)
    decreases |a|
  {
    if Complete(a) {
      var n := HEADER + Size(a);
      assert (a + b)[..HEADER] == a[..HEADER];
      assert (a + b)[n..] == a[n..] + b;
      assert (a + b)[HEADER..n] == a[HEADER..n];
      CutAnywhere(a[n..], b);
    }
  }

  lemma FrameIsComplete(msg: Bytes, more: Bytes)
    requires |msg| < WORD
    ensures var buf := Frame(msg) + more;
            && Complete(buf) && Size(buf) == |msg|
            && buf[HEADER..HEADER + |msg|] == msg && buf[HEADER + |msg|..] == more
  {
    HeaderHoldsWords();
    LittleEndianRoundTrip(|msg|, HEADER);
    assert (Frame(msg) + more)[..HEADER] == LittleEndian(|msg|, HEADER);
  }

  lemma PartOfFrameIsIncomplete(msg: Bytes, k: nat)
    requires |msg| < WORD && k < |Frame(msg)|
    ensures !Complete(Frame(msg)[..k])
  {
    if k >= HEADER {
      FrameIsComplete(msg, []);
      assert Frame(msg) + [] == Frame(msg);
      assert Frame(msg)[..k][..HEADER] == Frame(msg)[..HEADER];
    }
  }

  predicate Sendable(msgs: seq<Bytes>) {
    forall i :: 0 <= i < |msgs| ==> |msgs[i]| < HALF
  }

  /** What has arrived of a stream of frames is delivered exactly as far as frames are complete,
      and what is kept is a strict prefix of the next frame. */
  lemma {:induction false} ArrivedPart(msgs: seq<Bytes>, k: nat) returns (j: nat)
    requires Sendable(msgs) && k <= |Stream(msgs)|
    ensures j <= |msgs| && |Stream(msgs[..j])| <= k
    ensures Messages(Stream(msgs)[..k]) == msgs[..j]
    ensures var kept := k - |Stream(msgs[..j])|;
            if j == |msgs| then kept == 0 && Rest(Stream(msgs)[..k]) == []
            else kept < |Frame(msgs[j])| && Rest(Stream(msgs)[..k]) == Frame(msgs[j])[..kept]
  {
    if msgs == [] {
      j := 0;
    } else if k < |Frame(msgs[0])| {
      j := 0;
      PartOfFrameIsIncomplete(msgs[0], k);
      assert Stream(msgs)[..k] == Frame(msgs[0])[..k];
    } else {
      hide Messages, Rest, Frame;
      var i := ArrivedPart(msgs[1..], k - |Frame(msgs[0])|);
      j := i + 1;
      FrameArrived(msgs, k);
      FirstStream(msgs, j);
      assert msgs[..j] == [msgs[0]] + msgs[1..][..i];
    }
  }

  lemma FrameArrived(msgs: seq<Bytes>, k: nat)
    requires msgs != [] && |msgs[0]| < HALF && |Frame(msgs[0])| <= k <= |Stream(msgs)|
    ensures var tail := Stream(msgs[1..])[..k - |Frame(msgs[0])|];
            && Messages(Stream(msgs)[..k]) == [msgs[0]] + Messages(tail)
            && Rest(Stream(msgs)[..k]) == Rest(tail)
  {
    var tail := Stream(msgs[1..])[..k - |Frame(msgs[0])|];
    assert Stream(msgs)[..k] == Frame(msgs[0]) + tail;
    FrameIsComplete(msgs[0], tail);
  }

  lemma FirstStream(msgs: seq<Bytes>, j: nat)
    requires 1 <= j <= |msgs|
    ensures Stream(msgs[..j]) == Frame(msgs[0]) + Stream(msgs[1..][..j - 1])
  {
    assert msgs[..j][1..] == msgs[1..][..j - 1];
  }

  /** Round trip: a whole stream gives back its messages. */
  lemma {:induction false} StreamRoundTrip(msgs: seq<Bytes>)
    requires Sendable(msgs)
    ensures Messages(Stream(msgs)) == msgs && Rest(Stream(msgs)) == []
  {
    if msgs != [] {
      StreamRoundTrip(msgs[1..]);
      FrameIsComplete(msgs[0], Stream(msgs[1..]));
    }
  }

  // ---- The receiver -----------------------------------------------------------------------------

  /** The sums of the receive loop stay within 64 bits at every frame it gets to; `left` starts at
      place `pos` of its buffer. */
  predicate Fits(left: Bytes, pos: nat)
    decreases |left|
  {
    |left| >= HEADER ==>
      && pos + HEADER + Size(left) < WORD
      && (Complete(left) ==> Fits(left[HEADER + Size(left)..], pos + HEADER + Size(left)))
  }

  lemma {:induction false} FitsEarlier(left: Bytes, pos: nat, earlier: nat)
    requires Fits(left, pos) && earlier <= pos
    ensures Fits(left, earlier)
    decreases |left|
  {
    if Complete(left) { FitsEarlier(left[HEADER + Size(left)..], pos + HEADER + Size(left), earlier + HEADER + Size(left)); }
  }

  /** Whatever has arrived from a peer that uses the same framing. */
  lemma {:induction false} ArrivedFits(msgs: seq<Bytes>, k: nat, pos: nat)
    requires Sendable(msgs) && k <= |Stream(msgs)| && pos + k < HALF - HEADER
    ensures Fits(Stream(msgs)[..k], pos)
  {
    if msgs != [] {
      var f := Frame(msgs[0]);
      if k < |f| {
        assert Stream(msgs)[..k] == f[..k];
        PartOfFrameIsIncomplete(msgs[0], k);
        if k >= HEADER {
          FrameIsComplete(msgs[0], []);
          assert f + [] == f && f[..k][..HEADER] == f[..HEADER];
        }
      } else {
        ArrivedFits(msgs[1..], k - |f|, pos + |f|);
        assert Stream(msgs)[..k] == f + Stream(msgs[1..])[..k - |f|];
        FrameIsComplete(msgs[0], Stream(msgs[1..])[..k - |f|]);
      }
    }
  }

  /** A header that a peer may send and that does not fit. */
  lemma HugeHeader()
    ensures !Fits(LittleEndian(WORD - 1, HEADER), 0)
  {
    HeaderHoldsWords();
    LittleEndianRoundTrip(WORD - 1, HEADER);
    var bytes := LittleEndian(WORD - 1, HEADER);
    assert bytes[..HEADER] == bytes;
  }

  function Add64(a: nat, b: nat): nat {
    (a + b) % WORD
  }

  /** The condition of the receive loop, in 64-bit arithmetic. */
  predicate HasFrame(buf: Bytes, pos: nat)
    requires pos <= |buf| < HALF - HEADER
  {
    && Add64(pos, HEADER) <= |buf|
    && Add64(Add64(pos, HEADER), Value(buf[pos..pos + HEADER])) <= |buf|
  }

  lemma {:induction false} ValueWithin(bytes: Bytes)
    ensures Value(bytes) < Pow256(|bytes|)
  {
    if bytes != [] { ValueWithin(bytes[1..]); }
  }

  /** What the loop sees at a frame: a complete one, a part of one, or a length whose sum wraps
      around, which takes it out of the buffer. */
  lemma FrameSeen(buf: Bytes, pos: nat)
    requires pos <= |buf| < HALF - HEADER
    ensures HasFrame(buf, pos) ==> pos + HEADER <= |buf|
    ensures !HasFrame(buf, pos) ==> !Complete(buf[pos..]) && Fits(buf[pos..], pos)
    ensures HasFrame(buf, pos) ==>
              var end := pos + HEADER + Value(buf[pos..pos + HEADER]);
              if end <= |buf| then Complete(buf[pos..]) && Size(buf[pos..]) == end - pos - HEADER
              else !Fits(buf[pos..], pos)
  {
    var left := buf[pos..];
    if pos + HEADER <= |buf| {
      assert left[..HEADER] == buf[pos..pos + HEADER];
      ValueWithin(left[..HEADER]);
      HeaderHoldsWords();
    }
  }

  /** One turn of the loop: a complete frame is taken off the front. */
  lemma FrameTaken(buf: Bytes, pos: nat, received: seq<Bytes>)
    requires pos <= |buf| < HALF - HEADER && Complete(buf[pos..]) && Messages(buf) == received + Messages(buf[pos..])
    ensures var start, end := pos + HEADER, pos + HEADER + Size(buf[pos..]);
            && end <= |buf|
            && Messages(buf) == received + [buf[start..end]] + Messages(buf[end..])
            && Rest(buf[pos..]) == Rest(buf[end..])
            && (Fits(buf[pos..], pos) <==> Fits(buf[end..], end))
  {
    var left, n := buf[pos..], HEADER + Size(buf[pos..]);
    assert left[n..] == buf[pos + n..];
    assert left[HEADER..n] == buf[pos + HEADER..pos + n];
  }

  lemma FrameMissing(buf: Bytes)
    requires !Complete(buf)
    ensures Messages(buf) == [] && Rest(buf) == buf
  {
  }

  class Connection {
    var rcvBuf: Bytes

    constructor ()
      ensures rcvBuf == []
    {
      rcvBuf := [];
    }

    /** OnUvRead with data: the messages handed to OnRecvMsg, and whether the loop stays inside the
        buffer. */
    method OnUvRead(data: Bytes) returns (received: seq<Bytes>, inside: bool)
      requires |rcvBuf + data| < HALF - HEADER
      modifies this
      ensures inside <==> Fits(old(rcvBuf) + data, 0)
      ensures inside ==> received == Messages(old(rcvBuf) + data) && rcvBuf == Rest(old(rcvBuf) + data)
    {
      hide *;
      rcvBuf := rcvBuf + data;
      var buf, pos := rcvBuf, 0;
      received := [];
      assert buf[0..] == buf;
      while HasFrame(buf, pos)
        invariant pos <= |buf| < HALF - HEADER && rcvBuf == buf && buf == old(rcvBuf) + data
        invariant Messages(buf) == received + Messages(buf[pos..]) && Rest(buf) == Rest(buf[pos..])
        invariant Fits(buf, 0) <==> Fits(buf[pos..], pos)
        decreases |buf| - pos
      {
        FrameSeen(buf, pos);
        var msgSize := Value(buf[pos..pos + HEADER]);
        if pos + HEADER + msgSize > |buf| { return received, false; }
        FrameTaken(buf, pos, received);
        received := received + [buf[pos + HEADER..pos + HEADER + msgSize]];
        pos := pos + HEADER + msgSize;
      }
      FrameSeen(buf, pos);
      FrameMissing(buf[pos..]);
      if pos > 0 { rcvBuf := buf[pos..]; }
      inside := true;
    }
  }

  function Joined(chunks: seq<Bytes>): Bytes {
    if chunks == [] then [] else Joined(chunks[..|chunks| - 1]) + chunks[|chunks| - 1]
  }

  /** Every cutting of a stream into chunks delivers the same messages. */
  method ReadAll(chunks: seq<Bytes>, ghost msgs: seq<Bytes>) returns (received: seq<Bytes>, kept: Bytes)
    requires Sendable(msgs) && Joined(chunks) <= Stream(msgs) && |Joined(chunks)| < HALF - HEADER
    ensures received == Messages(Joined(chunks)) && received <= msgs
    ensures kept == Rest(Joined(chunks))
  {
    var conn := new Connection();
    received := [];
    var i := 0;
    assert chunks[..|chunks|] == chunks;
    while i < |chunks|
      invariant i <= |chunks| && received == Messages(Joined(chunks[..i])) && conn.rcvBuf == Rest(Joined(chunks[..i]))
    {
      ghost var before, now := Joined(chunks[..i]), Joined(chunks[..i + 1]);
      assert chunks[..i + 1][..i] == chunks[..i];
      JoinedGrows(chunks, i + 1);
      CutAnywhere(before, chunks[i]);
      assert now == Stream(msgs)[..|now|];
      ArrivedFits(msgs, |now|, 0);
      RestFits(before, chunks[i], 0);
      var more, inside := conn.OnUvRead(chunks[i]);
      received := received + more;
      i := i + 1;
    }
    kept := conn.rcvBuf;
    ghost var all := Joined(chunks);
    assert all == Stream(msgs)[..|all|];
    ghost var j := ArrivedPart(msgs, |all|);
  }

  lemma {:induction false} JoinedGrows(chunks: seq<Bytes>, i: nat)
    requires i <= |chunks|
    ensures Joined(chunks[..i]) <= Joined(chunks)
    decreases |chunks| - i
  {
    if i < |chunks| {
      assert chunks[..i + 1][..i] == chunks[..i];
      JoinedGrows(chunks, i + 1);
    } else {
      assert chunks[..i] == chunks;
    }
  }

  lemma {:induction false} RestFits(a: Bytes, b: Bytes, pos: nat)
    requires Fits(a + b, pos)
    ensures Fits(Rest(a) + b, pos) && |Rest(a)| <= |a|
    decreases |a|
  {
    if Complete(a) {
      var n := HEADER + Size(a);
      assert (a + b)[..HEADER] == a[..HEADER];
      assert (a + b)[n..] == a[n..] + b;
      RestFits(a[n..], b, pos + n);
      FitsEarlier(Rest(a[n..]) + b, pos + n, pos);
    }
  }

  // ---- The sender ----------------------------------------------------------------------------------

  function Frames(msgs: seq<Bytes>): seq<Bytes> {
    seq(|msgs|, i requires 0 <= i < |msgs| => Frame(msgs[i]))
  }

  /** SendMsg puts one frame into the task queue; an empty text is not sent. */
  method SendMsg(tasks: seq<Bytes>, msg: Bytes) returns (more: seq<Bytes>)
    requires |msg| < HALF
    ensures more == if msg == [] then tasks else tasks + [Frame(msg)]
    ensures msg != [] ==> Messages(more[|tasks|]) == [msg] && Rest(more[|tasks|]) == []
  {
    if |msg| == 0 { return tasks; }
    StreamRoundTrip([msg]);
    assert Stream([msg]) == Frame(msg) + [] == Frame(msg);
    more := tasks + [Frame(msg)];
  }

  const UV_EAGAIN := -11

  datatype Outcome = Sent | Closed | Blocked

  /** What uv_try_write may answer, one after the other, while `left` bytes remain. */
  predicate Answers(results: seq<int>, left: int) {
    results == [] || (results[0] <= left && (results[0] > 0 ==> Answers(results[1..], left - results[0]))
                      && (results[0] <= 0 ==> Answers(results[1..], left)))
  }

  /** DoSendMsg: writes until everything is accepted or an error closes the connection; Blocked
      when the answers run out first. */
  method DoSendMsg(data: Bytes, results: seq<int>) returns (wire: Bytes, outcome: Outcome)
    requires |data| > 0 && Answers(results, |data|)
    ensures wire <= data
    ensures outcome == Sent <==> wire == data
    ensures outcome == Closed <==> wire != data && exists i :: 0 <= i < |results| && results[i] <= 0 && results[i] != UV_EAGAIN
  {
    wire := [];
    var nsend, i := 0, 0;
    while i < |results|
      invariant i <= |results| && nsend == |wire| < |data| && wire == data[..nsend]
      invariant Answers(results[i..], |data| - nsend)
      invariant forall k :: 0 <= k < i ==> results[k] > 0 || results[k] == UV_EAGAIN
    {
      var r := results[i];
      assert results[i..][1..] == results[i + 1..];
      if r == UV_EAGAIN {
        i := i + 1;
      } else if r > 0 {
        wire := wire + data[nsend..nsend + r];
        nsend := nsend + r;
        if nsend == |data| {
          assert wire == data;
          return wire, Sent;
        }
        i := i + 1;
      } else {
        return wire, Closed;
      }
    }
    outcome := Blocked;
  }

  function Concat(tasks: seq<Bytes>): Bytes {
    if tasks == [] then [] else Concat(tasks[..|tasks| - 1]) + tasks[|tasks| - 1]
  }

  /** OnUvAsyncTask over the sends of one connection: a connection that was closed takes no more. */
  method SendTasks(tasks: seq<Bytes>, results: seq<seq<int>>) returns (wire: Bytes, sent: nat, part: nat)
    requires |results| == |tasks|
    requires forall i :: 0 <= i < |tasks| ==> |tasks[i]| > 0 && Answers(results[i], |tasks[i]|)
    ensures sent <= |tasks|
    ensures if sent == |tasks| then part == 0 && wire == Concat(tasks)
            else part < |tasks[sent]| && wire == Concat(tasks[..sent]) + tasks[sent][..part]
  {
    hide Answers;
    wire, sent, part := [], 0, 0;
    while sent < |tasks|
      invariant sent <= |tasks| && part == 0 && wire == Concat(tasks[..sent])
    {
      var written, outcome := DoSendMsg(tasks[sent], results[sent]);
      wire := wire + written;
      if outcome != Sent {
        part := |written|;
        return;
      }
      assert tasks[..sent + 1][..sent] == tasks[..sent];
      sent := sent + 1;
    }
    assert tasks[..|tasks|] == tasks;
  }

  lemma {:induction false} StreamOfMore(msgs: seq<Bytes>, msg: Bytes)
    ensures Stream(msgs + [msg]) == Stream(msgs) + Frame(msg)
  {
    if msgs == [] {
      assert [msg][1..] == [] && Stream([msg]) == Frame(msg) + [] == Frame(msg);
    } else {
      assert (msgs + [msg])[1..] == msgs[1..] + [msg];
      StreamOfMore(msgs[1..], msg);
    }
  }

  lemma {:induction false} ConcatOfFrames(msgs: seq<Bytes>)
    ensures Concat(Frames(msgs)) == Stream(msgs)
  {
    if msgs != [] {
      var front, last := msgs[..|msgs| - 1], msgs[|msgs| - 1];
      assert msgs == front + [last];
      assert Frames(msgs)[..|msgs| - 1] == Frames(front);
      ConcatOfFrames(front);
      StreamOfMore(front, last);
    }
  }

  /** How the network may cut what is on the wire. */
  function Cut(wire: Bytes, sizes: seq<nat>): (chunks: seq<Bytes>)
    decreases |sizes|
  {
    if sizes == [] then [wire] else
    var n := if sizes[|sizes| - 1] <= |wire| then |wire| - sizes[|sizes| - 1] else 0;
    Cut(wire[..n], sizes[..|sizes| - 1]) + [wire[n..]]
  }

  lemma {:induction false} CutJoins(wire: Bytes, sizes: seq<nat>)
    ensures Joined(Cut(wire, sizes)) == wire
    decreases |sizes|
  {
    if sizes == [] {
      assert [wire][..0] == [];
    } else {
      var n := if sizes[|sizes| - 1] <= |wire| then |wire| - sizes[|sizes| - 1] else 0;
      CutJoins(wire[..n], sizes[..|sizes| - 1]);
      var front := Cut(wire[..n], sizes[..|sizes| - 1]);
      assert (front + [wire[n..]])[..|front|] == front;
    }
  }

  /** Whole frames of the first messages and part of the next: the other side has exactly those
      messages. */
  lemma WholeAndPart(msgs: seq<Bytes>, i: nat, part: nat)
    requires Sendable(msgs) && i < |msgs| && part < |Frame(msgs[i])|
    ensures var wire := Stream(msgs[..i]) + Frame(msgs[i])[..part];
            Messages(wire) == msgs[..i] && Rest(wire) == Frame(msgs[i])[..part] && wire <= Stream(msgs)
  {
    var sent, partial := Stream(msgs[..i]), Frame(msgs[i])[..part];
    StreamRoundTrip(msgs[..i]);
    CutAnywhere(sent, partial);
    assert [] + partial == partial;
    PartOfFrameIsIncomplete(msgs[i], part);
    PrefixStream(msgs, i);
  }

  lemma {:induction false} PrefixStream(msgs: seq<Bytes>, i: nat)
    requires i < |msgs|
    ensures Stream(msgs[..i]) + Frame(msgs[i]) <= Stream(msgs)
  {
    if i > 0 {
      FirstStream(msgs, i);
      PrefixStream(msgs[1..], i - 1);
    }
  }

  /** End to end: messages go through the task queue, partial writes, a wire that may break, and a
      network that cuts it anywhere. The other side is handed exactly the messages whose frames
      were written completely, and keeps the part of the frame on which the connection ended. */
  method EndToEnd(msgs: seq<Bytes>, results: seq<seq<int>>, sizes: seq<nat>)
    returns (received: seq<Bytes>, kept: Bytes, sent: nat, part: nat)
    requires Sendable(msgs) && |Stream(msgs)| < HALF - HEADER && forall i :: 0 <= i < |msgs| ==> msgs[i] != []
    requires |results| == |msgs| && forall i :: 0 <= i < |msgs| ==> Answers(results[i], |Frame(msgs[i])|)
    ensures sent <= |msgs| && received == msgs[..sent]
    ensures if sent == |msgs| then kept == [] else part < |Frame(msgs[sent])| && kept == Frame(msgs[sent])[..part]
  {
    hide Messages, Rest, Stream, Answers;
    var tasks := [];
    for n := 0 to |msgs|
      invariant tasks == Frames(msgs[..n])
    {
      tasks := SendMsg(tasks, msgs[n]);
    }
    assert msgs[..|msgs|] == msgs;
    var wire;
    wire, sent, part := SendTasks(tasks, results);
    ghost var gone := msgs[..sent];
    assert tasks[..sent] == Frames(gone);
    ConcatOfFrames(gone);
    if sent < |msgs| {
      WholeAndPart(msgs, sent, part);
    } else {
      StreamRoundTrip(msgs);
    }
    CutJoins(wire, sizes);
    received, kept := ReadAll(Cut(wire, sizes), msgs);
  }
}
