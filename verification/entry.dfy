/** Uplink entries (the sending half of src/entry.c): whole messages packed into shared blocks. */
module Entry {
  import opened Wire
  import opened Block
  import opened Decoder

  const ENTRY_HEADER_OVERHEAD := 5

  datatype Entry = Entry(path: Bytes, contentType: nat, data: Bytes)

  // The bytes write_entry puts in the block: both lengths are cut to the width of their field
  function Encode(e: Entry): Bytes {
    Be16(|e.data|) + Be16(e.contentType) + [(|e.path| % 256) as byte] + e.path + e.data
  }

  function EncodeAll(es: seq<Entry>): Bytes {
    if es == [] then [] else Encode(es[0]) + EncodeAll(es[1..])
  }

  lemma {:induction false} EncodeAllSnoc(es: seq<Entry>, e: Entry)
    ensures EncodeAll(es + [e]) == EncodeAll(es) + Encode(e)
  {
    if es == [] {
      assert [e][1..] == [] && Encode(e) + [] == Encode(e);
    } else {
      EncodeAllSnoc(es[1..], e);
      HeadTail(es, [e]);
      Assoc(Encode(es[0]), EncodeAll(es[1..]), Encode(e));
    }
  }

  predicate EntryFits(p: nat, e: Entry) {
    ENTRY_HEADER_OVERHEAD + |e.path| + |e.data| <= p
  }

  // What the C strings and 16-bit parameters of the API can hold
  predicate EntryArgs(e: Entry) {
    0 !in e.path && e.contentType < 0x1_0000
  }

  datatype Errno = Ok | EINVAL | ENOMEM | EAGAIN

  // The static open block, what was enqueued, and the outcome
  datatype Result = Result(open: Option<Bytes>, sent: seq<Bytes>, err: Errno)

  // block_alloc: an entry block is FIRST and LAST from the start
  const EMPTY_BLOCK: Bytes := Unfinished(0, true, true, [])

  // write_entry
  function TryWrite(p: nat, block: Bytes, e: Entry): Option<Bytes>
    requires |block| <= p + HEADER_SIZE
  {
    if p + HEADER_SIZE - |block| < ENTRY_HEADER_OVERHEAD + |e.path| + |e.data| then None
    else Some(block + Encode(e))
  }

  // The outcomes a call does not decide: the mutex, and up to two block allocations
  datatype Luck = Luck(lock: bool, first: bool, second: bool)

  predicate BlockFits(p: nat, open: Option<Bytes>) {
    open.Some? ==> HEADER_SIZE <= |open.value| <= p + HEADER_SIZE
  }

  // pouch_uplink_entry_write, for non-NULL arguments
  function Write(p: nat, open: Option<Bytes>, e: Entry, luck: Luck): (r: Result)
    requires BlockFits(p, open)
    ensures BlockFits(p, r.open)
  {
    if e.data == [] then Result(open, [], EINVAL)
    else if !luck.lock then Result(open, [], EAGAIN)
    else if open == None && !luck.first then Result(None, [], ENOMEM)
    else Place(p, if open == None then EMPTY_BLOCK else open.value, e, open == None, luck.second)
  }

  // Into the block; into the next one if this one was not fresh
  function Place(p: nat, block: Bytes, e: Entry, isNew: bool, second: bool): (r: Result)
    requires HEADER_SIZE <= |block| <= p + HEADER_SIZE
    ensures BlockFits(p, r.open)
  {
    match TryWrite(p, block, e)
    case Some(block') => Result(Some(block'), [], Ok)
    case None =>
      if isNew then Result(Some(block), [], ENOMEM)
      else
        var sent := [Finish(block, true, true)];
        if !second then Result(None, sent, ENOMEM)
        else
          match TryWrite(p, EMPTY_BLOCK, e)
          case Some(block') => Result(Some(block'), sent, Ok)
          case None => Result(Some(EMPTY_BLOCK), sent, ENOMEM)
  }

  // entry_block_close
  function Close(open: Option<Bytes>, lock: bool): Result
    requires open.Some? ==> HEADER_SIZE <= |open.value|
  {
    if !lock then Result(open, [], EAGAIN)
    else if open.Some? then Result(None, [Finish(open.value, true, true)], Ok)
    else Result(None, [], Ok)
  }

  // The blocks and the open block together carry exactly es, in order
  ghost predicate Packed(p: nat, sent: seq<Bytes>, open: Option<Bytes>, es: seq<Entry>) {
    exists groups: seq<seq<Entry>>, last: seq<Entry> :: PackedAs(p, sent, open, es, groups, last)
  }

  // groups: the entries of each block that was sent; last: those of the open block
  ghost predicate PackedAs(p: nat, sent: seq<Bytes>, open: Option<Bytes>, es: seq<Entry>,
                           groups: seq<seq<Entry>>, last: seq<Entry>)
  {
    && es == Flatten(groups) + last
    && sent == GroupBlocks(groups)
    && (forall g | g in groups :: |EncodeAll(g)| <= p)
    && (open == None ==> last == [])
    && (open.Some? ==> |EncodeAll(last)| <= p && open.value == Unfinished(0, true, true, EncodeAll(last)))
  }

  function GroupBlocks(groups: seq<seq<Entry>>): seq<Bytes> {
    if groups == [] then [] else [MkBlock(0, true, true, EncodeAll(groups[0]))] + GroupBlocks(groups[1..])
  }

  lemma {:induction false} GroupBlocksSnoc(groups: seq<seq<Entry>>, g: seq<Entry>)
    ensures GroupBlocks(groups + [g]) == GroupBlocks(groups) + [MkBlock(0, true, true, EncodeAll(g))]
  {
    if groups != [] {
      GroupBlocksSnoc(groups[1..], g);
      HeadTail(groups, [g]);
    }
  }

  lemma PackedEmpty(p: nat)
    ensures Packed(p, [], None, [])
  {
    assert PackedAs(p, [], None, [], [], []);
  }

  lemma PackedAppend(p: nat, sent: seq<Bytes>, open: Option<Bytes>, es: seq<Entry>,
                     groups: seq<seq<Entry>>, last: seq<Entry>, e: Entry)
    requires PackedAs(p, sent, open, es, groups, last)
    requires |EncodeAll(last)| + |Encode(e)| <= p
    ensures PackedAs(p, sent, Some(Unfinished(0, true, true, EncodeAll(last) + Encode(e))), es + [e],
                     groups, last + [e])
  {
    EncodeAllSnoc(last, e);
    assert es + [e] == Flatten(groups) + (last + [e]);
  }

  lemma PackedFinish(p: nat, sent: seq<Bytes>, block: Bytes, es: seq<Entry>,
                     groups: seq<seq<Entry>>, last: seq<Entry>)
    requires PackedAs(p, sent, Some(block), es, groups, last)
    ensures PackedAs(p, sent + [Finish(block, true, true)], None, es, groups + [last], [])
    ensures PackedAs(p, sent + [Finish(block, true, true)], Some(EMPTY_BLOCK), es, groups + [last], [])
  {
    FinishCompletes(0, true, true, true, true, EncodeAll(last));
    FlattenSnoc(groups, last);
    GroupBlocksSnoc(groups, last);
    assert es == Flatten(groups + [last]) + [];
    assert EncodeAll([]) == [];
  }

  // The write goes into the open block, or into the next one
  lemma WriteInPlace(p: nat, sent: seq<Bytes>, block: Bytes, es: seq<Entry>,
                     groups: seq<seq<Entry>>, last: seq<Entry>, e: Entry)
    requires PackedAs(p, sent, Some(block), es, groups, last) && |block| <= p + HEADER_SIZE
    requires TryWrite(p, block, e).Some?
    ensures Packed(p, sent, TryWrite(p, block, e), es + [e])
  {
    PackedAppend(p, sent, Some(block), es, groups, last, e);
    assert block + Encode(e) == Unfinished(0, true, true, EncodeAll(last) + Encode(e));
  }

  lemma WriteNextBlock(p: nat, sent: seq<Bytes>, block: Bytes, es: seq<Entry>,
                       groups: seq<seq<Entry>>, last: seq<Entry>, e: Entry)
    requires PackedAs(p, sent, Some(block), es, groups, last)
    ensures var sent' := sent + [Finish(block, true, true)];
            && Packed(p, sent', None, es) && Packed(p, sent', Some(EMPTY_BLOCK), es)
            && (TryWrite(p, EMPTY_BLOCK, e).Some? ==> Packed(p, sent', TryWrite(p, EMPTY_BLOCK, e), es + [e]))
  {
    PackedFinish(p, sent, block, es, groups, last);
    if TryWrite(p, EMPTY_BLOCK, e).Some? {
      WriteInPlace(p, sent + [Finish(block, true, true)], EMPTY_BLOCK, es, groups + [last], [], e);
    }
  }

  // One write keeps every accepted entry, once and in order, whatever the lock and the allocator do
  lemma WritePacks(p: nat, sent: seq<Bytes>, open: Option<Bytes>, es: seq<Entry>, e: Entry, luck: Luck)
    requires Packed(p, sent, open, es) && BlockFits(p, open)
    ensures var r := Write(p, open, e, luck);
            Packed(p, sent + r.sent, r.open, if r.err == Ok then es + [e] else es)
  {
    var groups, last :| PackedAs(p, sent, open, es, groups, last);
    assert sent + [] == sent;
    if e.data != [] && luck.lock && (open.Some? || luck.first) {
      var block := if open == None then EMPTY_BLOCK else open.value;
      assert PackedAs(p, sent, Some(block), es, groups, last);
      if TryWrite(p, block, e).Some? {
        WriteInPlace(p, sent, block, es, groups, last, e);
      } else if open.Some? {
        WriteNextBlock(p, sent, block, es, groups, last, e);
      }
    }
  }

  lemma ClosePacks(p: nat, sent: seq<Bytes>, open: Option<Bytes>, es: seq<Entry>, lock: bool)
    requires Packed(p, sent, open, es) && BlockFits(p, open)
    ensures var r := Close(open, lock);
            && Packed(p, sent + r.sent, r.open, es)
            && (lock ==> r.open == None)
  {
    var groups, last :| PackedAs(p, sent, open, es, groups, last);
    var r := Close(open, lock);
    if lock && open.Some? {
      PackedFinish(p, sent, open.value, es, groups, last);
    } else {
      assert sent + r.sent == sent;
      assert PackedAs(p, sent, r.open, es, groups, last);
    }
  }

  function EventsOf(es: seq<Entry>): seq<Event> {
    if es == [] then []
    else [Start(0, es[0].path, es[0].contentType), Data(0, es[0].data, true)] + EventsOf(es[1..])
  }

  function Messages(es: seq<Entry>): seq<Message> {
    if es == [] then []
    else [Message(es[0].path, es[0].contentType, es[0].data, true)] + Messages(es[1..])
  }

  // An entry as it stands at the front of a payload
  lemma EntryLayout(e: Entry, rest: Bytes)
    requires |e.data| < 0x1_0000 && e.contentType < 0x1_0000
    ensures var v := Encode(e) + rest;
            && |v| == 5 + |e.path| + |e.data| + |rest|
            && FromBe16(v) == |e.data| && FromBe16(v[2..]) == e.contentType && v[4] == |e.path| % 256
            && v[5..] == e.path + e.data + rest
  {
    var front := Be16(|e.data|) + Be16(e.contentType) + [(|e.path| % 256) as byte];
    var v := Encode(e) + rest;
    assert v == front + (e.path + e.data + rest);
    CutFront(front, e.path + e.data + rest, 5);
    SixteenBits(|e.data|);
    SixteenBits(e.contentType);
  }

  // Decoding undoes packing exactly when every path length fits its one-byte field
  lemma {:induction false} EntriesRoundTrip(es: seq<Entry>)
    requires forall e | e in es :: EntryArgs(e) && |e.data| < 0x1_0000
    ensures DecodeEntries(EncodeAll(es)) == Some(EventsOf(es)) <==> forall e | e in es :: |e.path| < 256
  {
    if es != [] {
      var e, rest := es[0], EncodeAll(es[1..]);
      EntryLayout(e, rest);
      EntriesRoundTrip(es[1..]);
      if |e.path| < 256 {
        EntryDecodes(e, rest);
        var two := [Start(0, e.path, e.contentType), Data(0, e.data, true)];
        if DecodeEntries(rest).Some? {
          assert (two + DecodeEntries(rest).value)[2..] == DecodeEntries(rest).value;
        }
        assert EventsOf(es)[2..] == EventsOf(es[1..]);
        assert forall x | x in es :: x == e || x in es[1..];
      } else {
        LongPathMisread(e, rest);
        assert EventsOf(es)[0] == Start(0, e.path, e.contentType);
      }
    }
  }

  lemma EntryDecodes(e: Entry, rest: Bytes)
    requires EntryArgs(e) && |e.data| < 0x1_0000 && |e.path| < 256
    ensures DecodeEntries(Encode(e) + rest)
            == match DecodeEntries(rest)
               case None => None
               case Some(events) =>
                 Some([Start(0, e.path, e.contentType), Data(0, e.data, true)] + events)
  {
    hide Encode, CString, DecodeEntries;
    var v := Encode(e) + rest;
    EntryLayout(e, rest);
    CStringWhole(e.path);
    Slices(v, 5, e.path, e.data, rest);
    DecodeFront(v);
  }

  lemma Slices(v: Bytes, k: nat, a: Bytes, b: Bytes, c: Bytes)
    requires k <= |v| && v[k..] == a + b + c
    ensures |v| == k + |a| + |b| + |c|
    ensures v[k..k + |a|] == a && v[k + |a|..k + |a| + |b|] == b && v[k + |a| + |b|..] == c
  {
    var w := a + b + c;
    assert forall i | 0 <= i < |w| :: v[k + i] == w[i];
  }

  // A path of 256 bytes or more is accepted, and the receiver is told a shorter one
  lemma LongPathMisread(e: Entry, rest: Bytes)
    requires EntryArgs(e) && |e.data| < 0x1_0000 && 256 <= |e.path|
    ensures var d := DecodeEntries(Encode(e) + rest);
            d.Some? ==> d.value != [] && d.value[0].Start? && |d.value[0].path| < 256
  {
    EntryLayout(e, rest);
    var v := Encode(e) + rest;
    CStringAtMost(v[5..5 + |e.path| % 256]);
  }

  lemma LongPathExample()
    ensures var e := Entry(seq(300, _ => 97 as byte), 42, [1]);
            && Write(512, None, e, Luck(true, true, true)).err == Ok
            && DecodeEntries(EncodeAll([e])) != Some(EventsOf([e]))
  {
    var e := Entry(seq(300, _ => 97 as byte), 42, [1]);
    EntriesRoundTrip([e]);
    assert e in [e] && |e.path| == 300;
  }

  ghost predicate Decodable(es: seq<Entry>) {
    forall e | e in es :: EntryArgs(e) && |e.data| < 0x1_0000 && |e.path| < 256
  }

  lemma {:induction false} MessagesConcat(a: seq<Entry>, b: seq<Entry>)
    ensures Messages(a + b) == Messages(a) + Messages(b)
  {
    if a == [] {
      assert a + b == b;
    } else {
      MessagesConcat(a[1..], b);
      HeadTail(a, b);
      Assoc([Message(a[0].path, a[0].contentType, a[0].data, true)], Messages(a[1..]), Messages(b));
    }
  }

  lemma {:induction false} EventsCollect(es: seq<Entry>, ms: seq<Message>)
    requires Idle(ms)
    ensures Collect(ms, EventsOf(es)) == Some(ms + Messages(es))
  {
    assert ms + [] == ms;
    if es != [] {
      var e := es[0];
      var m := Message(e.path, e.contentType, [], false);
      var start, data := Start(0, e.path, e.contentType), Data(0, e.data, true);
      var ms' := ms + [Message(e.path, e.contentType, e.data, true)];
      assert [] + e.data == e.data;
      assert Receive(ms, start) == Some(ms + [m]);
      assert (ms + [m])[..|ms|] == ms;
      assert Receive(ms + [m], data) == Some(ms');
      CollectTwo(ms, start, data, EventsOf(es[1..]));
      EventsCollect(es[1..], ms');
      Assoc(ms, [Message(e.path, e.contentType, e.data, true)], Messages(es[1..]));
    }
  }

  lemma OneBlockDelivers(p: nat, group: seq<Entry>, ms: seq<Message>)
    requires PayloadSize(p) && |EncodeAll(group)| <= p && Idle(ms)
    requires Decodable(group)
    ensures Deliver(ms, [MkBlock(0, true, true, EncodeAll(group))]) == Some(ms + Messages(group))
  {
    MkBlockDecodes(0, true, true, EncodeAll(group));
    EntriesRoundTrip(group);
    EventsCollect(group, ms);
    DeliverOne(ms, MkBlock(0, true, true, EncodeAll(group)));
  }

  // Entry blocks deliver the accepted entries: each one whole, ended, in order, nothing else
  lemma {:induction false} GroupsDeliver(p: nat, groups: seq<seq<Entry>>, ms: seq<Message>)
    requires PayloadSize(p) && Idle(ms)
    requires forall g | g in groups :: |EncodeAll(g)| <= p && Decodable(g)
    ensures Deliver(ms, GroupBlocks(groups)) == Some(ms + Messages(Flatten(groups)))
    decreases |groups|
  {
    if groups == [] {
      assert ms + [] == ms && Deliver(ms, []) == Some(ms);
    } else {
      var ms' := ms + Messages(groups[0]);
      IdleAfter(groups[0], ms);
      GroupsDeliver(p, groups[1..], ms');
      OneBlockDelivers(p, groups[0], ms);
      DeliverCons(ms, GroupBlocks(groups), ms');
      MessagesConcat(groups[0], Flatten(groups[1..]));
      Assoc(ms, Messages(groups[0]), Messages(Flatten(groups[1..])));
    }
  }

  lemma {:induction false} InGroup(groups: seq<seq<Entry>>, g: seq<Entry>)
    requires Decodable(Flatten(groups)) && g in groups
    ensures Decodable(g)
  {
    if g != groups[0] {
      assert forall e | e in Flatten(groups[1..]) :: e in Flatten(groups);
      InGroup(groups[1..], g);
    } else {
      assert forall e | e in g :: e in Flatten(groups);
    }
  }

  lemma EntriesDeliver(p: nat, sent: seq<Bytes>, es: seq<Entry>, ms: seq<Message>)
    requires PayloadSize(p) && Packed(p, sent, None, es) && Decodable(es) && Idle(ms)
    ensures Deliver(ms, sent) == Some(ms + Messages(es))
  {
    var groups, last :| PackedAs(p, sent, None, es, groups, last);
    assert es == Flatten(groups);
    forall g | g in groups ensures Decodable(g) { InGroup(groups, g); }
    GroupsDeliver(p, groups, ms);
  }

  lemma {:induction false} IdleAfter(es: seq<Entry>, ms: seq<Message>)
    requires Idle(ms)
    ensures Idle(ms + Messages(es))
    decreases |es|
  {
    if es != [] {
      var m := Message(es[0].path, es[0].contentType, es[0].data, true);
      IdleAfter(es[1..], ms + [m]);
      Assoc(ms, [m], Messages(es[1..]));
    }
  }

  lemma {:induction false} GroupBlock(p: nat, groups: seq<seq<Entry>>, i: nat)
    requires PayloadSize(p) && i < |GroupBlocks(groups)| && forall g | g in groups :: |EncodeAll(g)| <= p
    ensures Carries(GroupBlocks(groups)[i], 0) && OnWire(GroupBlocks(groups)[i], 1 + p)
  {
    if i == 0 {
      MkBlockDecodes(0, true, true, EncodeAll(groups[0]));
    } else {
      GroupBlock(p, groups[1..], i - 1);
    }
  }

  lemma PackedBlocks(p: nat, sent: seq<Bytes>, open: Option<Bytes>, es: seq<Entry>)
    requires PayloadSize(p) && Packed(p, sent, open, es)
    ensures forall i | 0 <= i < |sent| :: Carries(sent[i], 0) && OnWire(sent[i], 1 + p)
  {
    var groups, last :| PackedAs(p, sent, open, es, groups, last);
    forall i | 0 <= i < |sent| ensures Carries(sent[i], 0) && OnWire(sent[i], 1 + p) {
      GroupBlock(p, groups, i);
    }
  }

  lemma AcceptedFits(p: nat, open: Option<Bytes>, e: Entry, luck: Luck)
    requires BlockFits(p, open) && Write(p, open, e, luck).err == Ok
    ensures EntryFits(p, e)
  {
  }
}
