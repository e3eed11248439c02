/** The receiving half of src/entry.c: what the application callbacks see for each block. */
module Decoder {
  import opened Wire
  import opened Block

  datatype Event =
    | Start(id: BlockId, path: Bytes, contentType: nat)
    | Data(id: BlockId, data: Bytes, last: bool)

  // The callbacks receive the path as a C string, which stops at the first NUL
  function CString(s: Bytes): Bytes {
    if s == [] || s[0] == 0 then [] else [s[0]] + CString(s[1..])
  }

  lemma {:induction false} CStringWhole(s: Bytes)
    requires 0 !in s
    ensures CString(s) == s
  {
    if s != [] { CStringWhole(s[1..]); }
  }

  lemma {:induction false} CStringAtMost(s: Bytes)
    ensures |CString(s)| <= |s|
  {
    if s != [] { CStringAtMost(s[1..]); }
  }

  // pouch_downlink_entries_push. None: the contents are cut short, which the source does not check.
  function DecodeEntries(v: Bytes): Option<seq<Event>> {
    if v == [] then Some([])
    else if |v| < 5 then None
    else
      var dataLen, contentType, pathLen := FromBe16(v), FromBe16(v[2..]), v[4];
      if |v| < 5 + pathLen + dataLen then None
      else
        match DecodeEntries(v[5 + pathLen + dataLen..])
        case None => None
        case Some(rest) =>
          Some([Start(0, CString(v[5..5 + pathLen]), contentType),
                Data(0, v[5 + pathLen..5 + pathLen + dataLen], true)] + rest)
  }

  // One step of the decoding loop
  lemma DecodeFront(v: Bytes)
    requires 5 <= |v| && 5 + v[4] as int + FromBe16(v) <= |v|
    ensures var n := 5 + v[4] as int;
            var k := n + FromBe16(v);
            DecodeEntries(v)
            == match DecodeEntries(v[k..])
               case None => None
               case Some(events) =>
                 Some([Start(0, CString(v[5..n]), FromBe16(v[2..])), Data(0, v[n..k], true)] + events)
  {
  }

  // pouch_downlink_stream_push
  function DecodeStream(id: BlockId, first: bool, last: bool, v: Bytes): Option<seq<Event>> {
    if !first then Some([Data(id, v, last)])
    else if |v| < 3 then None
    else
      var pathLen: nat := v[2];
      if |v| < 3 + pathLen then None
      else Some([Start(id, CString(v[3..3 + pathLen]), FromBe16(v)), Data(id, v[3 + pathLen..], last)])
  }

  // pouch_downlink_block_push
  function DecodeBlock(block: Bytes): Option<seq<Event>> {
    if |block| < HEADER_SIZE then None
    else
      var h := DecodeHeader(block);
      if h.id != 0 then DecodeStream(h.id, h.first, h.last, block[HEADER_SIZE..])
      else DecodeEntries(block[HEADER_SIZE..])
  }

  function DecodeBlocks(blocks: seq<Bytes>): Option<seq<Event>> {
    if blocks == [] then Some([])
    else
      match (DecodeBlock(blocks[0]), DecodeBlocks(blocks[1..]))
      case (Some(a), Some(b)) => Some(a + b)
      case _ => None
  }

  lemma {:induction false} DecodeBlocksConcat(a: seq<Bytes>, b: seq<Bytes>)
    requires DecodeBlocks(a).Some? && DecodeBlocks(b).Some?
    ensures DecodeBlocks(a + b) == Some(DecodeBlocks(a).value + DecodeBlocks(b).value)
  {
    if a == [] {
      assert a + b == b;
      assert [] + DecodeBlocks(b).value == DecodeBlocks(b).value;
    } else {
      DecodeBlocksConcat(a[1..], b);
      HeadTail(a, b);
      Assoc(DecodeBlock(a[0]).value, DecodeBlocks(a[1..]).value, DecodeBlocks(b).value);
    }
  }

  // What a handler assembles from the callbacks of one block id
  datatype Message = Message(path: Bytes, contentType: nat, data: Bytes, ended: bool)

  predicate Idle(ms: seq<Message>) {
    ms == [] || ms[|ms| - 1].ended
  }

  // None: a start inside an open message, or data outside one
  function Receive(ms: seq<Message>, e: Event): Option<seq<Message>> {
    match e
    case Start(_, path, contentType) =>
      if Idle(ms) then Some(ms + [Message(path, contentType, [], false)]) else None
    case Data(_, data, last) =>
      if Idle(ms) then None
      else
        var m := ms[|ms| - 1];
        Some(ms[..|ms| - 1] + [m.(data := m.data + data, ended := last)])
  }

  function Collect(ms: seq<Message>, events: seq<Event>): Option<seq<Message>>
    decreases |events|
  {
    if events == [] then Some(ms)
    else
      match Receive(ms, events[0])
      case None => None
      case Some(ms') => Collect(ms', events[1..])
  }

  lemma {:induction false} CollectConcat(ms: seq<Message>, a: seq<Event>, b: seq<Event>)
    requires Collect(ms, a).Some?
    ensures Collect(ms, a + b) == Collect(Collect(ms, a).value, b)
    decreases |a|
  {
    if a == [] {
      assert a + b == b;
    } else {
      HeadTail(a, b);
      CollectConcat(Receive(ms, a[0]).value, a[1..], b);
    }
  }

  lemma CollectTwo(ms: seq<Message>, a: Event, b: Event, rest: seq<Event>)
    requires Receive(ms, a).Some? && Receive(Receive(ms, a).value, b).Some?
    ensures Collect(ms, [a, b] + rest) == Collect(Receive(Receive(ms, a).value, b).value, rest)
  {
    assert ([a, b] + rest)[1..] == [b] + rest && ([b] + rest)[1..] == rest;
  }

  // Decoding blocks and assembling their messages in one go
  function Deliver(ms: seq<Message>, blocks: seq<Bytes>): Option<seq<Message>> {
    match DecodeBlocks(blocks)
    case None => None
    case Some(events) => Collect(ms, events)
  }

  lemma DeliverCons(ms: seq<Message>, blocks: seq<Bytes>, ms': seq<Message>)
    requires blocks != [] && Deliver(ms, [blocks[0]]) == Some(ms') && Deliver(ms', blocks[1..]).Some?
    ensures Deliver(ms, blocks) == Deliver(ms', blocks[1..])
  {
    DeliverConcat(ms, [blocks[0]], blocks[1..]);
    assert [blocks[0]] + blocks[1..] == blocks;
  }

  lemma DeliverConcat(ms: seq<Message>, a: seq<Bytes>, b: seq<Bytes>)
    requires Deliver(ms, a).Some? && Deliver(Deliver(ms, a).value, b).Some?
    ensures Deliver(ms, a + b) == Deliver(Deliver(ms, a).value, b)
  {
    DecodeBlocksConcat(a, b);
    CollectConcat(ms, DecodeBlocks(a).value, DecodeBlocks(b).value);
  }

  lemma DeliverOne(ms: seq<Message>, block: Bytes)
    requires DecodeBlock(block).Some?
    ensures Deliver(ms, [block]) == Collect(ms, DecodeBlock(block).value)
  {
    assert DecodeBlock(block).value + [] == DecodeBlock(block).value;
    assert DecodeBlocks([block]) == Some(DecodeBlock(block).value + []);
  }

  // The callbacks for one block id
  function Channel(events: seq<Event>, id: BlockId): seq<Event> {
    if events == [] then []
    else (if events[0].id == id then [events[0]] else []) + Channel(events[1..], id)
  }

  lemma {:induction false} ChannelConcat(a: seq<Event>, b: seq<Event>, id: BlockId)
    ensures Channel(a + b, id) == Channel(a, id) + Channel(b, id)
  {
    if a == [] {
      assert a + b == b;
    } else {
      ChannelConcat(a[1..], b, id);
      HeadTail(a, b);
      Assoc(if a[0].id == id then [a[0]] else [], Channel(a[1..], id), Channel(b, id));
    }
  }

  // The blocks carrying one id
  function BlocksOf(blocks: seq<Bytes>, id: BlockId): seq<Bytes> {
    if blocks == [] then []
    else (if Carries(blocks[0], id) then [blocks[0]] else []) + BlocksOf(blocks[1..], id)
  }

  predicate Carries(block: Bytes, id: BlockId) {
    HEADER_SIZE <= |block| && DecodeHeader(block).id == id
  }

  lemma {:induction false} BlocksOfConcat(a: seq<Bytes>, b: seq<Bytes>, id: BlockId)
    ensures BlocksOf(a + b, id) == BlocksOf(a, id) + BlocksOf(b, id)
  {
    if a == [] {
      assert a + b == b;
    } else {
      BlocksOfConcat(a[1..], b, id);
      HeadTail(a, b);
      Assoc(if Carries(a[0], id) then [a[0]] else [], BlocksOf(a[1..], id), BlocksOf(b, id));
    }
  }

  lemma {:induction false} ChannelAll(events: seq<Event>, id: BlockId, other: BlockId)
    requires forall e | e in events :: e.id == id
    ensures Channel(events, other) == if other == id then events else []
  {
    if events != [] { ChannelAll(events[1..], id, other); }
  }

  lemma {:induction false} EntryEventsIds(v: Bytes)
    ensures DecodeEntries(v).Some? ==> forall e | e in DecodeEntries(v).value :: e.id == 0
  {
    if |v| >= 5 {
      var n := 5 + v[4] + FromBe16(v);
      if n <= |v| { EntryEventsIds(v[n..]); }
    }
  }

  lemma BlockEventsIds(block: Bytes)
    requires DecodeBlock(block).Some?
    ensures forall e | e in DecodeBlock(block).value :: e.id == DecodeHeader(block).id
  {
    EntryEventsIds(block[HEADER_SIZE..]);
  }

  // Demultiplexing: filtering the decoded callbacks by id is decoding the filtered blocks
  lemma {:induction false} DemultiplexBlocks(blocks: seq<Bytes>, id: BlockId)
    requires DecodeBlocks(blocks).Some?
    ensures DecodeBlocks(BlocksOf(blocks, id)) == Some(Channel(DecodeBlocks(blocks).value, id))
  {
    if blocks != [] {
      var events, rest := DecodeBlock(blocks[0]).value, DecodeBlocks(blocks[1..]).value;
      DemultiplexBlocks(blocks[1..], id);
      BlockEventsIds(blocks[0]);
      ChannelAll(events, DecodeHeader(blocks[0]).id, id);
      ChannelConcat(events, rest, id);
      if DecodeHeader(blocks[0]).id == id {
        assert BlocksOf(blocks, id) == [blocks[0]] + BlocksOf(blocks[1..], id);
        HeadTail([blocks[0]], BlocksOf(blocks[1..], id));
      } else {
        assert BlocksOf(blocks, id) == BlocksOf(blocks[1..], id);
        assert Channel(events + rest, id) == Channel(rest, id);
      }
    }
  }
}
