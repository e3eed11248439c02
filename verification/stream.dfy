/** Uplink streams (src/stream.c): one message cut over blocks that share an id. */
module Stream {
  import opened Wire
  import opened Block
  import opened Decoder

  // write_stream_header: the path length is cut to one byte
  function StreamHeader(path: Bytes, contentType: nat): Bytes {
    Be16(contentType) + [(|path| % 256) as byte] + path
  }

  // What the receiver should get for a message: full blocks, then one of 1..p bytes marked LAST
  function Segment(p: nat, id: BlockId, t: Bytes, first: bool): seq<Bytes>
    requires 1 <= p
    decreases |t|
  {
    if |t| <= p then [MkBlock(id, first, true, t)]
    else [MkBlock(id, first, false, t[..p])] + Segment(p, id, t[p..], false)
  }

  // The blocks a message of bytes t has already filled, and what the open block still holds
  function Body(p: nat, id: BlockId, t: Bytes, first: bool): seq<Bytes>
    requires 1 <= p
    decreases |t|
  {
    if |t| <= p then [] else [MkBlock(id, first, false, t[..p])] + Body(p, id, t[p..], false)
  }

  function Tail(p: nat, t: Bytes): Bytes
    requires 1 <= p
    decreases |t|
  {
    if |t| <= p then t else Tail(p, t[p..])
  }

  datatype Written = Written(block: Bytes, sent: seq<Bytes>, count: nat)

  // The loop of pouch_stream_write. budget: how many block allocations succeed before one fails.
  function WriteLoop(p: nat, id: BlockId, block: Bytes, data: Bytes, budget: nat): (w: Written)
    requires 1 <= p && HEADER_SIZE <= |block| <= p + HEADER_SIZE
    ensures w.count <= |data| && HEADER_SIZE <= |w.block| <= p + HEADER_SIZE
    decreases |data|
  {
    if data == [] then Written(block, [], 0)
    else if |block| == p + HEADER_SIZE then
      if budget == 0 then Written(block, [], 0)
      else
        var n := Min(p, |data|);
        var w := WriteLoop(p, id, Unfinished(id, false, false, []) + data[..n], data[n..], budget - 1);
        Written(w.block, [Finish(block, false, false)] + w.sent, n + w.count)
    else
      var n := Min(p + HEADER_SIZE - |block|, |data|);
      var w := WriteLoop(p, id, block + data[..n], data[n..], budget);
      Written(w.block, w.sent, n + w.count)
  }

  // An open stream. bytes counts the message bytes, session is the uplink session it was opened for.
  datatype Stream = Stream(id: BlockId, block: Bytes, bytes: nat, session: nat)

  function Open(id: BlockId, session: nat, path: Bytes, contentType: nat): Stream {
    Stream(id, Unfinished(id, true, false, StreamHeader(path, contentType)), 0, session)
  }

  datatype WriteResult = WriteResult(stream: Stream, sent: seq<Bytes>, count: nat)

  predicate Fits(p: nat, s: Stream) {
    1 <= p && HEADER_SIZE <= |s.block| <= p + HEADER_SIZE
  }

  function Write(p: nat, s: Stream, session: nat, data: Bytes, budget: nat): (r: WriteResult)
    requires Fits(p, s)
    ensures Fits(p, r.stream) && r.count <= |data|
  {
    if s.session != session then WriteResult(s, [], 0)
    else
      var w := WriteLoop(p, s.id, s.block, data, budget);
      WriteResult(s.(block := w.block, bytes := s.bytes + w.count), w.sent, w.count)
  }

  function Close(s: Stream, session: nat): seq<Bytes>
    requires HEADER_SIZE <= |s.block|
  {
    if s.session == session && s.bytes > 0 then [Finish(s.block, false, true)] else []
  }

  // The stream has accepted exactly the message bytes t (header included): the open block holds the tail
  predicate Holds(p: nat, s: Stream, t: Bytes) {
    && 1 <= p && 1 <= |t|
    && s.block == Unfinished(s.id, |t| <= p, false, Tail(p, t))
  }

  lemma {:induction false} TailBounds(p: nat, t: Bytes)
    requires 1 <= p && 1 <= |t|
    ensures 1 <= |Tail(p, t)| <= p
    decreases |t|
  {
    if |t| > p { TailBounds(p, t[p..]); }
  }

  lemma {:induction false} Append(p: nat, id: BlockId, t: Bytes, d: Bytes, first: bool)
    requires 1 <= p && 1 <= |t| && |Tail(p, t)| + |d| <= p
    ensures Body(p, id, t + d, first) == Body(p, id, t, first)
    ensures Tail(p, t + d) == Tail(p, t) + d
    ensures |t + d| <= p <==> |t| <= p
    decreases |t|
  {
    if |t| > p {
      TailBounds(p, t[p..]);
      Append(p, id, t[p..], d, false);
      CutFront(t, d, p);
    }
  }

  lemma {:induction false} Roll(p: nat, id: BlockId, t: Bytes, d: Bytes, first: bool)
    requires 1 <= p && 1 <= |t| && |Tail(p, t)| == p && 1 <= |d| <= p
    ensures Body(p, id, t + d, first)
            == Body(p, id, t, first) + [MkBlock(id, first && |t| <= p, false, Tail(p, t))]
    ensures Tail(p, t + d) == d && |t + d| > p
    decreases |t|
  {
    CutFront(t, d, p);
    if |t| > p {
      Roll(p, id, t[p..], d, false);
      Assoc([MkBlock(id, first, false, t[..p])], Body(p, id, t[p..], false),
            [MkBlock(id, false, false, Tail(p, t[p..]))]);
    } else {
      assert t[p..] + d == d && t[..p] == t;
    }
  }

  // One run of the write loop: what it sends is what the accepted bytes fill, and a short count
  // means that every block it could still allocate was used
  ghost predicate Sends(p: nat, id: BlockId, t: Bytes, data: Bytes, budget: nat, w: Written) {
    && 1 <= p && w.count <= |data|
    && var t' := t + data[..w.count];
    && w.block == Unfinished(id, |t'| <= p, false, Tail(p, t'))
    && Body(p, id, t', true) == Body(p, id, t, true) + w.sent
    && (w.count < |data| ==> |w.sent| == budget)
    && |w.sent| <= budget
  }

  lemma SendsMore(p: nat, id: BlockId, t: Bytes, data: Bytes, n: nat, full: seq<Bytes>, budget: nat, w: Written)
    requires 1 <= p && n <= |data| && |full| <= budget
    requires Body(p, id, t + data[..n], true) == Body(p, id, t, true) + full
    requires Sends(p, id, t + data[..n], data[n..], budget - |full|, w)
    ensures Sends(p, id, t, data, budget, Written(w.block, full + w.sent, n + w.count))
  {
    TakeMore(t, data, n, w.count);
    Assoc(Body(p, id, t, true), full, w.sent);
  }

  lemma RollSends(p: nat, id: BlockId, t: Bytes, data: Bytes, budget: nat, w: Written)
    requires 1 <= p && 1 <= |t| && |Tail(p, t)| == p && 1 <= |data| && 1 <= budget
    requires Sends(p, id, t + data[..Min(p, |data|)], data[Min(p, |data|)..], budget - 1, w)
    ensures var full := Finish(Unfinished(id, |t| <= p, false, Tail(p, t)), false, false);
            Sends(p, id, t, data, budget, Written(w.block, [full] + w.sent, Min(p, |data|) + w.count))
  {
    var n := Min(p, |data|);
    var full := MkBlock(id, |t| <= p, false, Tail(p, t));
    assert Finish(Unfinished(id, |t| <= p, false, Tail(p, t)), false, false) == full by {
      FinishCompletes(id, |t| <= p, false, false, false, Tail(p, t));
    }
    assert Body(p, id, t + data[..n], true) == Body(p, id, t, true) + [full] by {
      Roll(p, id, t, data[..n], true);
    }
    SendsMore(p, id, t, data, n, [full], budget, w);
  }

  lemma AppendSends(p: nat, id: BlockId, t: Bytes, data: Bytes, n: nat, budget: nat, w: Written)
    requires 1 <= p && 1 <= |t| && n <= |data| && |Tail(p, t)| + n <= p
    requires Sends(p, id, t + data[..n], data[n..], budget, w)
    ensures Sends(p, id, t, data, budget, Written(w.block, w.sent, n + w.count))
  {
    Append(p, id, t, data[..n], true);
    assert Body(p, id, t, true) + [] == Body(p, id, t, true) && [] + w.sent == w.sent;
    SendsMore(p, id, t, data, n, [], budget, w);
  }

  lemma IdleSends(p: nat, id: BlockId, t: Bytes, data: Bytes, budget: nat, block: Bytes)
    requires 1 <= p && block == Unfinished(id, |t| <= p, false, Tail(p, t))
    requires data == [] || budget == 0
    ensures Sends(p, id, t, data, budget, Written(block, [], 0))
  {
    assert t + data[..0] == t;
    assert Body(p, id, t, true) + [] == Body(p, id, t, true);
  }

  lemma {:induction false} WriteLoopSends(p: nat, id: BlockId, t: Bytes, data: Bytes, budget: nat, block: Bytes)
    requires 1 <= p && 1 <= |t| && |Tail(p, t)| <= p
    requires block == Unfinished(id, |t| <= p, false, Tail(p, t))
    ensures Sends(p, id, t, data, budget, WriteLoop(p, id, block, data, budget))
    decreases |data|, 1
  {
    if data == [] || (|block| == p + HEADER_SIZE && budget == 0) {
      IdleSends(p, id, t, data, budget, block);
    } else if |block| == p + HEADER_SIZE {
      FullBlockSends(p, id, t, data, budget, block);
    } else {
      SpaceSends(p, id, t, data, budget, block);
    }
  }

  lemma {:induction false} FullBlockSends(p: nat, id: BlockId, t: Bytes, data: Bytes, budget: nat, block: Bytes)
    requires 1 <= p && 1 <= |t| && |Tail(p, t)| == p && 1 <= |data| && 1 <= budget
    requires block == Unfinished(id, |t| <= p, false, Tail(p, t))
    ensures Sends(p, id, t, data, budget, WriteLoop(p, id, block, data, budget))
    decreases |data|, 0
  {
    hide Sends, Body, Segment;
    var n := Min(p, |data|);
    var fresh' := Unfinished(id, false, false, []) + data[..n];
    var w := WriteLoop(p, id, fresh', data[n..], budget - 1);
    assert Sends(p, id, t + data[..n], data[n..], budget - 1, w) by {
      Roll(p, id, t, data[..n], true);
      WriteLoopSends(p, id, t + data[..n], data[n..], budget - 1, fresh');
    }
    RollSends(p, id, t, data, budget, w);
  }

  lemma {:induction false} SpaceSends(p: nat, id: BlockId, t: Bytes, data: Bytes, budget: nat, block: Bytes)
    requires 1 <= p && 1 <= |t| && |Tail(p, t)| < p && 1 <= |data|
    requires block == Unfinished(id, |t| <= p, false, Tail(p, t))
    ensures Sends(p, id, t, data, budget, WriteLoop(p, id, block, data, budget))
    decreases |data|, 0
  {
    hide Sends, Body, Segment;
    var n := Min(p + HEADER_SIZE - |block|, |data|);
    var w := WriteLoop(p, id, block + data[..n], data[n..], budget);
    assert Sends(p, id, t + data[..n], data[n..], budget, w) by {
      Append(p, id, t, data[..n], true);
      WriteLoopSends(p, id, t + data[..n], data[n..], budget, block + data[..n]);
    }
    AppendSends(p, id, t, data, n, budget, w);
  }

  lemma {:induction false} SegmentSplits(p: nat, id: BlockId, t: Bytes, first: bool)
    requires 1 <= p && 1 <= |t|
    ensures Segment(p, id, t, first)
            == Body(p, id, t, first) + [MkBlock(id, first && |t| <= p, true, Tail(p, t))]
    decreases |t|
  {
    if |t| > p { SegmentSplits(p, id, t[p..], false); }
  }

  // One call of pouch_stream_write
  lemma WriteHolds(p: nat, s: Stream, t: Bytes, data: Bytes, budget: nat)
    requires Fits(p, s) && Holds(p, s, t)
    ensures var r := Write(p, s, s.session, data, budget);
            && Holds(p, r.stream, t + data[..r.count])
            && Body(p, s.id, t + data[..r.count], true) == Body(p, s.id, t, true) + r.sent
            && (r.count < |data| ==> |r.sent| == budget)
  {
    TailBounds(p, t);
    WriteLoopSends(p, s.id, t, data, budget, s.block);
  }

  // How many bytes one call takes: what fits the open block, and a payload for each block that could be
  // allocated
  lemma {:induction false} WriteCount(p: nat, id: BlockId, block: Bytes, data: Bytes, budget: nat)
    requires 1 <= p && HEADER_SIZE <= |block| <= p + HEADER_SIZE
    ensures WriteLoop(p, id, block, data, budget).count == Min(|data|, 3 + p - |block| + budget * p)
    decreases |data|
  {
    if data != [] && (|block| < p + HEADER_SIZE || budget > 0) {
      var n := if |block| == p + HEADER_SIZE then Min(p, |data|) else Min(p + HEADER_SIZE - |block|, |data|);
      if |block| == p + HEADER_SIZE {
        assert budget * p == (budget - 1) * p + p;
        WriteCount(p, id, Unfinished(id, false, false, []) + data[..n], data[n..], budget - 1);
      } else {
        WriteCount(p, id, block + data[..n], data[n..], budget);
      }
    }
    assert budget * p >= 0;
  }

  lemma OpenHolds(p: nat, id: BlockId, session: nat, path: Bytes, contentType: nat)
    requires 3 + |path| <= p
    ensures Fits(p, Open(id, session, path, contentType))
    ensures Holds(p, Open(id, session, path, contentType), StreamHeader(path, contentType))
    ensures Body(p, id, StreamHeader(path, contentType), true) == []
  {
  }

  lemma CloseCompletes(p: nat, s: Stream, t: Bytes)
    requires Fits(p, s) && Holds(p, s, t) && s.bytes > 0
    ensures Body(p, s.id, t, true) + Close(s, s.session) == Segment(p, s.id, t, true)
  {
    SegmentSplits(p, s.id, t, true);
    FinishCompletes(s.id, |t| <= p, false, false, true, Tail(p, t));
  }

  datatype Attempt = Attempt(data: Bytes, budget: nat)

  datatype Run = Run(stream: Stream, sent: seq<Bytes>, accepted: Bytes)

  function WriteAll(p: nat, s: Stream, writes: seq<Attempt>): (r: Run)
    requires Fits(p, s)
    ensures Fits(p, r.stream)
    decreases |writes|
  {
    if writes == [] then Run(s, [], [])
    else
      var w := Write(p, s, s.session, writes[0].data, writes[0].budget);
      var r := WriteAll(p, w.stream, writes[1..]);
      Run(r.stream, w.sent + r.sent, writes[0].data[..w.count] + r.accepted)
  }

  lemma {:induction false} WriteAllHolds(p: nat, s: Stream, t: Bytes, writes: seq<Attempt>)
    requires Fits(p, s) && Holds(p, s, t)
    ensures var r := WriteAll(p, s, writes);
            && Holds(p, r.stream, t + r.accepted)
            && Body(p, s.id, t + r.accepted, true) == Body(p, s.id, t, true) + r.sent
            && r.stream.bytes == s.bytes + |r.accepted|
            && r.stream.id == s.id && r.stream.session == s.session
    decreases |writes|
  {
    if writes == [] {
      assert t + [] == t;
    } else {
      hide Holds, Fits, WriteLoop;
      var w := Write(p, s, s.session, writes[0].data, writes[0].budget);
      WriteHolds(p, s, t, writes[0].data, writes[0].budget);
      var t1 := t + writes[0].data[..w.count];
      WriteAllHolds(p, w.stream, t1, writes[1..]);
      var r := WriteAll(p, w.stream, writes[1..]);
      Assoc(t, writes[0].data[..w.count], r.accepted);
      Assoc(Body(p, s.id, t, true), w.sent, r.sent);
    }
  }

  // Any writes, cut short by failing allocations or not: the closed stream is the canonical
  // segmentation of its header followed by the accepted bytes
  lemma StreamSegmentation(p: nat, id: BlockId, session: nat, path: Bytes, contentType: nat,
                           writes: seq<Attempt>)
    requires 3 + |path| <= p
    ensures var s := Open(id, session, path, contentType);
            Fits(p, s) &&
            var r := WriteAll(p, s, writes);
            if r.accepted == [] then r.sent + Close(r.stream, session) == []
            else r.sent + Close(r.stream, session)
                 == Segment(p, id, StreamHeader(path, contentType) + r.accepted, true)
  {
    var s, t := Open(id, session, path, contentType), StreamHeader(path, contentType);
    OpenHolds(p, id, session, path, contentType);
    WriteAllHolds(p, s, t, writes);
    var r := WriteAll(p, s, writes);
    if r.accepted == [] {
      assert t + r.accepted == t;
    } else {
      CloseCompletes(p, r.stream, t + r.accepted);
    }
  }

  // The number of blocks is the message length divided by the payload size, rounded up
  lemma {:induction false} SegmentCount(p: nat, id: BlockId, t: Bytes, first: bool)
    requires 1 <= p && 1 <= |t|
    ensures var n := |Segment(p, id, t, first)|; (n - 1) * p < |t| <= n * p
    decreases |t|
  {
    if |t| > p {
      SegmentCount(p, id, t[p..], false);
      var n := |Segment(p, id, t[p..], false)|;
      assert |Segment(p, id, t, first)| == n + 1 && |t[p..]| == |t| - p;
      hide Segment;
      OneMoreBlock(n, p);
    }
  }

  lemma OneMoreBlock(n: nat, p: nat)
    ensures (n + 1) * p == n * p + p && n * p == (n - 1) * p + p
  {
  }

  // FIRST on the first block only, LAST on the last block only, every block before the last is full
  lemma {:induction false} SegmentBlock(p: nat, id: BlockId, t: Bytes, first: bool, i: nat)
    requires PayloadSize(p) && 1 <= |t| && i < |Segment(p, id, t, first)|
    ensures var bs := Segment(p, id, t, first);
            && HEADER_SIZE < |bs[i]| && OnWire(bs[i], 1 + p)
            && DecodeHeader(bs[i]) == Header(|bs[i]| - 2, id, first && i == 0, i == |bs| - 1)
            && (i < |bs| - 1 ==> |bs[i]| == HEADER_SIZE + p)
    decreases |t|
  {
    if |t| <= p {
      MkBlockDecodes(id, first, true, t);
    } else if i == 0 {
      MkBlockDecodes(id, first, false, t[..p]);
    } else {
      SegmentBlock(p, id, t[p..], false, i - 1);
    }
  }

  lemma StreamHeaderDecodes(path: Bytes, contentType: nat, data: Bytes)
    requires |path| < 256 && contentType < 0x1_0000
    ensures var t := StreamHeader(path, contentType) + data;
            && |t| == 3 + |path| + |data| && FromBe16(t) == contentType && t[2] == |path|
            && t[3..3 + |path|] == path && t[3 + |path|..] == data
  {
    var t := StreamHeader(path, contentType) + data;
    assert t == Be16(contentType) + ([|path| as byte] + path + data);
    Be16RoundTrip(contentType, [|path| as byte] + path + data);
  }

  // A later block adds its payload to the open message
  lemma NextBlockDecodes(id: BlockId, d: Bytes, last: bool)
    requires id != 0 && 1 + |d| < 0x1_0000
    ensures DecodeBlock(MkBlock(id, false, last, d)) == Some([Data(id, d, last)])
  {
    MkBlockDecodes(id, false, last, d);
  }

  lemma NextCollects(ms: seq<Message>, m: Message, id: BlockId, d: Bytes, last: bool, rest: seq<Event>)
    requires !m.ended
    ensures Collect(ms + [m], [Data(id, d, last)] + rest)
            == Collect(ms + [m.(data := m.data + d, ended := last)], rest)
  {
    assert (ms + [m])[..|ms|] == ms;
    assert Receive(ms + [m], Data(id, d, last)) == Some(ms + [m.(data := m.data + d, ended := last)]);
    assert ([Data(id, d, last)] + rest)[1..] == rest;
  }

  lemma ConsDecodes(block: Bytes, blocks: seq<Bytes>)
    requires DecodeBlock(block).Some? && DecodeBlocks(blocks).Some?
    ensures DecodeBlocks([block] + blocks) == Some(DecodeBlock(block).value + DecodeBlocks(blocks).value)
  {
    HeadTail([block], blocks);
  }

  // The blocks after the first only add data; the last ends the message
  lemma {:induction false} RestCollects(p: nat, id: BlockId, t: Bytes, ms: seq<Message>, m: Message)
    requires PayloadSize(p) && 1 <= |t| && id != 0 && !m.ended
    ensures var events := DecodeBlocks(Segment(p, id, t, false));
            && events.Some?
            && Collect(ms + [m], events.value) == Some(ms + [m.(data := m.data + t, ended := true)])
    decreases |t|
  {
    if |t| <= p {
      assert Segment(p, id, t, false) == [MkBlock(id, false, true, t)] + [];
      hide Segment, MkBlock, DecodeBlock;
      NextBlockDecodes(id, t, true);
      ConsDecodes(MkBlock(id, false, true, t), []);
      NextCollects(ms, m, id, t, true, []);
    } else {
      var d, more := t[..p], t[p..];
      assert Segment(p, id, t, false) == [MkBlock(id, false, false, d)] + Segment(p, id, more, false);
      hide Segment, MkBlock, DecodeBlock;
      NextBlockDecodes(id, d, false);
      RestCollects(p, id, more, ms, m.(data := m.data + d));
      ConsDecodes(MkBlock(id, false, false, d), Segment(p, id, more, false));
      NextCollects(ms, m, id, d, false, DecodeBlocks(Segment(p, id, more, false)).value);
      JoinCut(m.data, t, p);
    }
  }

  lemma JoinCut(a: Bytes, t: Bytes, n: nat)
    requires n <= |t|
    ensures a + t[..n] + t[n..] == a + t
  {
  }

  // The first block starts the message
  lemma FirstBlockDecodes(id: BlockId, path: Bytes, contentType: nat, d: Bytes, last: bool)
    requires id != 0 && 0 !in path && |path| < 256 && contentType < 0x1_0000 && 4 + |path| + |d| < 0x1_0000
    ensures DecodeBlock(MkBlock(id, true, last, StreamHeader(path, contentType) + d))
            == Some([Start(id, path, contentType), Data(id, d, last)])
  {
    StreamHeaderDecodes(path, contentType, d);
    CStringWhole(path);
    MkBlockDecodes(id, true, last, StreamHeader(path, contentType) + d);
  }

  lemma FirstCollects(ms: seq<Message>, id: BlockId, path: Bytes, contentType: nat, d: Bytes, last: bool,
                      rest: seq<Event>)
    requires Idle(ms)
    ensures Collect(ms, [Start(id, path, contentType), Data(id, d, last)] + rest)
            == Collect(ms + [Message(path, contentType, d, last)], rest)
  {
    var m := Message(path, contentType, [], false);
    assert Receive(ms, Start(id, path, contentType)) == Some(ms + [m]);
    assert [] + d == d;
    assert Receive(ms + [m], Data(id, d, last)) == Some(ms + [m.(data := [] + d, ended := last)]);
    CollectTwo(ms, Start(id, path, contentType), Data(id, d, last), rest);
  }

  // The receiver assembles exactly the message that was sent, ended once and at the end
  lemma SegmentDelivers(p: nat, id: BlockId, path: Bytes, contentType: nat, data: Bytes, ms: seq<Message>)
    requires PayloadSize(p) && id != 0 && 0 !in path
    requires 3 + |path| <= p && |path| < 256 && contentType < 0x1_0000
    requires Idle(ms)
    ensures var events := DecodeBlocks(Segment(p, id, StreamHeader(path, contentType) + data, true));
            && events.Some?
            && Collect(ms, events.value) == Some(ms + [Message(path, contentType, data, true)])
  {
    var t := StreamHeader(path, contentType) + data;
    if |t| <= p {
      FirstBlockDecodes(id, path, contentType, data, true);
      ConsDecodes(MkBlock(id, true, true, t), []);
      FirstCollects(ms, id, path, contentType, data, true, []);
      assert [MkBlock(id, true, true, t)] + [] == [MkBlock(id, true, true, t)];
    } else {
      var d, more := FrontAndRest(p, path, contentType, data);
      FirstBlockDecodes(id, path, contentType, d, false);
      RestCollects(p, id, more, ms, Message(path, contentType, d, false));
      ConsDecodes(MkBlock(id, true, false, t[..p]), Segment(p, id, more, false));
      FirstCollects(ms, id, path, contentType, d, false, DecodeBlocks(Segment(p, id, more, false)).value);
    }
  }

  lemma FrontAndRest(p: nat, path: Bytes, contentType: nat, data: Bytes) returns (d: Bytes, more: Bytes)
    requires 3 + |path| <= p < 3 + |path| + |data|
    ensures var t := StreamHeader(path, contentType) + data;
            t[..p] == StreamHeader(path, contentType) + d && t[p..] == more && d + more == data && more != []
  {
    d, more := data[..p - 3 - |path|], data[p - 3 - |path|..];
  }

  lemma {:induction false} MoreCollects(p: nat, id: BlockId, t: Bytes, ms: seq<Message>, m: Message)
    requires PayloadSize(p) && 1 <= |t| && id != 0 && !m.ended
    ensures var events := DecodeBlocks(Body(p, id, t, false));
            && events.Some? && |Tail(p, t)| <= |t|
            && Collect(ms + [m], events.value) == Some(ms + [m.(data := m.data + t[..|t| - |Tail(p, t)|])])
    decreases |t|
  {
    if |t| <= p {
      assert m.data + t[..0] == m.data;
    } else {
      var d, more := t[..p], t[p..];
      assert Body(p, id, t, false) == [MkBlock(id, false, false, d)] + Body(p, id, more, false);
      assert Tail(p, t) == Tail(p, more);
      hide Body, Tail, MkBlock, DecodeBlock;
      NextBlockDecodes(id, d, false);
      MoreCollects(p, id, more, ms, m.(data := m.data + d));
      ConsDecodes(MkBlock(id, false, false, d), Body(p, id, more, false));
      NextCollects(ms, m, id, d, false, DecodeBlocks(Body(p, id, more, false)).value);
      TakeMore(m.data, t, p, |more| - |Tail(p, more)|);
    }
  }

  // What arrives of a stream that was cut off: its path, the data of its full blocks, and no end
  lemma BodyDelivers(p: nat, id: BlockId, path: Bytes, contentType: nat, data: Bytes, ms: seq<Message>)
    requires PayloadSize(p) && id != 0 && 0 !in path
    requires 3 + |path| <= p < 3 + |path| + |data| && |path| < 256 && contentType < 0x1_0000
    requires Idle(ms)
    ensures var t := StreamHeader(path, contentType) + data;
            var events := DecodeBlocks(Body(p, id, t, true));
            && events.Some? && 1 <= |Tail(p, t)| <= |data|
            && Collect(ms, events.value)
               == Some(ms + [Message(path, contentType, data[..|data| - |Tail(p, t)|], false)])
  {
    var t := StreamHeader(path, contentType) + data;
    var d, more := FrontAndRest(p, path, contentType, data);
    assert Body(p, id, t, true) == [MkBlock(id, true, false, t[..p])] + Body(p, id, more, false);
    assert Tail(p, t) == Tail(p, more);
    hide Body, Tail, StreamHeader, MkBlock, DecodeBlocks, DecodeBlock, Collect;
    FirstBlockDecodes(id, path, contentType, d, false);
    MoreCollects(p, id, more, ms, Message(path, contentType, d, false));
    TailBounds(p, more);
    ConsDecodes(MkBlock(id, true, false, t[..p]), Body(p, id, more, false));
    FirstCollects(ms, id, path, contentType, d, false, DecodeBlocks(Body(p, id, more, false)).value);
    CutEnd(d, more, |Tail(p, t)|);
  }

  lemma CutEnd(d: Bytes, more: Bytes, n: nat)
    requires n <= |more|
    ensures d + more[..|more| - n] == (d + more)[..|d + more| - n]
  {
  }

  // More callbacks never change the path a message was started with
  lemma {:induction false} CollectKeepsPath(ms: seq<Message>, events: seq<Event>)
    requires ms != [] && Collect(ms, events).Some?
    ensures Collect(ms, events).value != [] && Collect(ms, events).value[0].path == ms[0].path
    decreases |events|
  {
    if events != [] { CollectKeepsPath(Receive(ms, events[0]).value, events[1..]); }
  }

  // The front of a first block, whatever the path is
  lemma FrontLayout(path: Bytes, contentType: nat, rest: Bytes)
    ensures var v := StreamHeader(path, contentType) + rest;
            |v| == 3 + |path| + |rest| && v[2] == |path| % 256
  {
  }

  // A path of 256 bytes or more reaches the receiver short
  lemma LongPathCut(p: nat, id: BlockId, path: Bytes, contentType: nat, data: Bytes)
    requires PayloadSize(p) && id != 0 && 3 + |path| <= p && 256 <= |path|
    ensures var got := Deliver([], Segment(p, id, StreamHeader(path, contentType) + data, true));
            got.Some? ==> got.value != [] && |got.value[0].path| < 256
  {
    var t := StreamHeader(path, contentType) + data;
    var n := Min(p, |t|);
    FrontLayout(path, contentType, data);
    MkBlockDecodes(id, true, |t| <= p, t[..n]);
    assert |t| <= p ==> t[..n] == t;
    var k: nat := t[..n][2];
    var name := CString(t[..n][3..3 + k]);
    CStringAtMost(t[..n][3..3 + k]);
    var rest := if |t| <= p then [] else Segment(p, id, t[p..], false);
    var start, first := Start(id, name, FromBe16(t[..n])), Data(id, t[..n][3 + k..], |t| <= p);
    assert DecodeBlock(MkBlock(id, true, |t| <= p, t[..n])) == Some([start, first]);
    assert Segment(p, id, t, true) == [MkBlock(id, true, |t| <= p, t[..n])] + rest;
    if DecodeBlocks(rest).Some? {
      var events := DecodeBlocks(rest).value;
      assert DecodeBlocks(Segment(p, id, t, true)) == Some([start, first] + events);
      var m := Message(name, start.contentType, [], false);
      var m' := m.(data := [] + first.data, ended := first.last);
      assert [] + [m] == [m] && [m][..0] + [m'] == [m'];
      assert Receive([], start) == Some([m]) && Receive([m], first) == Some([m']);
      CollectTwo([], start, first, events);
      if Collect([m'], events).Some? { CollectKeepsPath([m'], events); }
    }
  }

  // The stream round trip holds exactly for paths whose length fits the one-byte field
  lemma StreamRoundTripIff(p: nat, id: BlockId, path: Bytes, contentType: nat, data: Bytes)
    requires PayloadSize(p) && id != 0 && 0 !in path && contentType < 0x1_0000 && 3 + |path| <= p
    ensures Deliver([], Segment(p, id, StreamHeader(path, contentType) + data, true))
            == Some([Message(path, contentType, data, true)])
            <==> |path| < 256
  {
    if |path| < 256 {
      SegmentDelivers(p, id, path, contentType, data, []);
      assert [] + [Message(path, contentType, data, true)] == [Message(path, contentType, data, true)];
    } else {
      LongPathCut(p, id, path, contentType, data);
    }
  }

  // ---- stream ids

  // One turn after another of new_stream_id: count up, skip the values whose low five bits are zero
  function Draw(counter: nat): (BlockId, nat) {
    if counter % 32 != 0 then (counter % 32, counter + 1) else ((counter + 1) % 32, counter + 2)
  }

  // The id of stream number k, from 0, and the counter before it is drawn
  function IdOf(k: nat): BlockId {
    1 + k % 31
  }

  function CounterAt(k: nat): nat {
    if k == 0 then 1 else 2 + (k - 1) % 31 + 32 * ((k - 1) / 31)
  }

  lemma Multiple(m: nat, d: int)
    ensures d >= 1 ==> m * d >= m
    ensures d <= -1 ==> m * d + m <= 0
  {
    if d >= 1 {
      assert m * (d - 1) >= 0;
    } else {
      assert m * -d >= 0;
      if d <= -1 { assert m * (-d - 1) >= 0; }
    }
  }

  lemma Divides(n: nat, m: nat, q: nat, r: nat)
    requires n == m * q + r && r < m
    ensures n / m == q && n % m == r
  {
    var d := n / m - q;
    assert n == m * (n / m) + n % m;
    assert m * d == m * (n / m) - m * q;
    Multiple(m, d);
  }

  lemma DrawsInTurn(k: nat)
    ensures Draw(CounterAt(k)) == (IdOf(k), CounterAt(k + 1))
  {
    if k > 0 {
      var q, r := (k - 1) / 31, (k - 1) % 31;
      assert CounterAt(k) == 32 * q + (r + 2);
      if r == 30 {
        Divides(k, 31, q + 1, 0);
        Divides(CounterAt(k), 32, q + 1, 0);
        Divides(CounterAt(k) + 1, 32, q + 1, 1);
      } else {
        Divides(k, 31, q, r + 1);
        Divides(CounterAt(k), 32, q, r + 2);
      }
    }
  }

  // Never the entry id, and equal exactly for streams a multiple of 31 apart: any 31 in a row differ
  lemma IdsEqualIff(j: nat, k: nat)
    requires j <= k
    ensures IdOf(k) != 0
    ensures IdOf(j) == IdOf(k) <==> (k - j) % 31 == 0
  {
  }

  // ---- the blocks of one stream

  lemma {:induction false} BodyBlock(p: nat, id: BlockId, t: Bytes, first: bool, i: nat)
    requires PayloadSize(p) && i < |Body(p, id, t, first)|
    ensures Carries(Body(p, id, t, first)[i], id) && OnWire(Body(p, id, t, first)[i], 1 + p)
    decreases |t|
  {
    if i == 0 {
      MkBlockDecodes(id, first, false, t[..p]);
    } else {
      BodyBlock(p, id, t[p..], false, i - 1);
    }
  }
}
