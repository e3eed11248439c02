/**
 The device side on the heap: the static state of src/uplink.c, src/entry.c, src/stream.c and
 src/buf.c (plaintext build). Every live buffer has exactly one owner, and every call is proved
 against the value machines of Entry, Stream and Uplink.
 */
module UplinkDevice {
  import opened Wire
  import opened Block
  import opened Buf
  import opened Ownership
  import Cipher
  import Device
  import opened DeviceView
  import Entry
  import Packetizer
  import PouchHeader
  import Pulls
  import Stream
  import Uplink

  method CopyBytes(dst: array<byte>, len: nat, src: array<byte>, offset: nat, k: nat)
    requires src != dst && len + k <= dst.Length && offset + k <= src.Length
    modifies dst
    ensures dst[..len] == old(dst[..len]) && dst[len..len + k] == src[offset..offset + k]
  {
    forall i | 0 <= i < k { dst[len + i] := src[offset + i]; }
  }

  ghost predicate Settled(before: map<PouchBuf, Owner>, after: map<PouchBuf, Owner>) {
    forall b | b in after && (after[b] == Held || after[b] == Lost) :: b in before && before[b] == after[b]
  }

  lemma SettledSame(owner: map<PouchBuf, Owner>)
    ensures Settled(owner, owner)
  {
  }

  lemma SettledGiven(owner: map<PouchBuf, Owner>, b: PouchBuf, o: Owner)
    requires o != Held && o != Lost
    ensures Settled(owner, owner[b := Held][b := o])
  {
  }

  lemma SettledTrans(a: map<PouchBuf, Owner>, b: map<PouchBuf, Owner>, c: map<PouchBuf, Owner>)
    requires Settled(a, b) && Settled(b, c)
    ensures Settled(a, c)
  {
  }

  // The processing queue, and whether its handler is scheduled
  datatype Queue = Queue(blocks: seq<Bytes>, pending: bool)

  class PouchDevice {
    // CONFIG_POUCH_BLOCK_SIZE, rounded
    const p: nat
    // buf.c
    var bufs: int
    // entry.c
    var block: PouchBuf?
    // stream.c
    var streamCounter: nat
    var openStreams: int
    // uplink.c
    var header: PouchBuf?
    var active: bool
    var closing: bool
    var closed: bool
    var id: nat
    var processing: seq<PouchBuf>
    var pending: bool
    var transport: seq<PouchBuf>
    var reader: BufView
    var events: seq<Uplink.Event>

    ghost var ledger: Ledger

    ghost predicate BlockSized(b: PouchBuf)
      reads b
    {
      b.data.Length == p + HEADER_SIZE && HEADER_SIZE <= b.bytes <= b.data.Length
    }

    ghost predicate Sized(b: PouchBuf, o: Owner)
      reads b
    {
      b.Valid() && (o.OpenBlock? || o.OfStream? ==> BlockSized(b))
    }

    // The live counter is the number of live buffers, the stream counter that of open streams, and
    // the ledger, in which every live buffer has one owner, has the pointers the device holds
    ghost predicate Inv()
      reads this, ledger.owner.Keys, ledger.books.streams.Keys
    {
      InvBut(null, 0)
    }

    // but the stream x may be between two blocks, and k streams not counted yet, or still
    ghost predicate InvBut(x: StreamObj?, k: int)
      reads this, ledger.owner.Keys, ledger.books.streams.Keys
    {
      && PayloadSize(p)
      && bufs == |ledger.owner|
      && openStreams == |ledger.books.streams| + k && openStreams <= Device.STREAMS_MAX
      && ledger.books == Books(header, processing, transport, reader.buf, block, ledger.books.streams)
      && (forall b | b in ledger.owner :: Sized(b, ledger.owner[b]))
      && (forall s | s in ledger.books.streams && s != x :: s.buf == ledger.books.streams[s])
    }

    // Between calls nothing is held
    ghost predicate Valid()
      reads this, ledger.owner.Keys, ledger.books.streams.Keys
    {
      Inv() && forall b | b in ledger.owner :: ledger.owner[b] != Held
    }

    ghost predicate NothingLost()
      reads this
    {
      forall b | b in ledger.owner :: ledger.owner[b] != Lost
    }

    // Buffers that are not from before are new
    twostate predicate OldOrFresh()
      reads this
    {
      forall b | b in ledger.owner :: b in old(ledger.owner) || (fresh(b) && fresh(b.data))
    }

    // Nothing is left held, and nothing gets lost
    twostate predicate Settles()
      reads this
    {
      Settled(old(ledger).owner, ledger.owner)
    }

    // and b is no longer held either
    twostate predicate SettlesWithout(b: PouchBuf)
      reads this
    {
      forall a | a in ledger.owner && (ledger.owner[a] == Held || ledger.owner[a] == Lost) ::
        a != b && a in old(ledger.owner) && old(ledger.owner)[a] == ledger.owner[a]
    }

    // The open streams are the same
    twostate predicate SameStreams()
      reads this
    {
      ledger.books.streams == old(ledger).books.streams
    }

    // Nothing more is held
    twostate predicate NoneKept()
      reads this
    {
      forall b | b in ledger.owner && ledger.owner[b] == Held ::
        b in old(ledger.owner) && old(ledger.owner)[b] == Held
    }

    // The buffers that are read when the state is looked at
    ghost predicate Readable()
      reads this, header, reader.buf, block, processing, transport
    {
      && (header != null ==> header.Valid())
      && (block != null ==> block.Valid())
      && (reader.buf != null ==> reader.buf.Valid())
      && AllValid(processing) && AllValid(transport)
    }

    // The uplink session of uplink.c
    ghost function Abs(): Uplink.State<()>
      requires Readable()
      reads this, header, reader.buf, block, processing, transport
      reads DataOf(header), DataOf(reader.buf), DatasOf(processing), DatasOf(transport)
    {
      Uplink.State(ContentsOf(header), active, closing, closed, id, Contents(processing), pending,
                   Contents(transport), AbsReader(), (), events)
    }

    ghost function AbsReader(): Uplink.Reader
      requires reader.buf != null ==> reader.buf.Valid()
      reads this, reader.buf, DataOf(reader.buf)
    {
      if reader.buf == null then Uplink.NoReader else Uplink.Reading(reader.buf.Contents(), reader.offset)
    }

    // The open entry block of entry.c
    ghost function AbsEntry(): Option<Bytes>
      requires block != null ==> block.Valid()
      reads this, block, DataOf(block)
    {
      ContentsOf(block)
    }

    constructor (p: nat)
      requires PayloadSize(p)
      ensures Valid() && this.p == p && ledger == Empty
      ensures Readable() && Abs() == Uplink.Init(()) && AbsEntry() == None && streamCounter == Stream.CounterAt(0)
    {
      this.p := p;
      bufs, block, streamCounter, openStreams := 0, null, 1, 0;
      header, active, closing, closed, id := null, false, false, false, 0;
      processing, pending, transport, reader, events := [], false, [], BufView(null, 0), [];
      ledger := Empty;
    }

    // buf_alloc; ok: malloc succeeds
    method Alloc(size: nat, ok: bool) returns (b: PouchBuf?)
      requires Inv()
      modifies this`bufs, this`ledger
      ensures Inv()
      ensures !ok ==> b == null && ledger == old(ledger)
      ensures ok ==> b != null && fresh(b) && fresh(b.data) && b.data.Length == size
                     && b.Valid() && b.Contents() == []
                     && ledger == old(ledger).(owner := old(ledger).owner[b := Held])
    {
      hide Owned;
      if !ok { return null; }
      var x := new PouchBuf(size);
      bufs := bufs + 1;
      ledger := Acquired(ledger, x);
      b := x;
    }

    // buf_free
    method Free(b: PouchBuf)
      requires Inv() && b in ledger.owner && ledger.owner[b] == Held
      modifies this`bufs, this`ledger
      ensures Inv() && ledger == old(ledger).(owner := old(ledger).owner - {b})
    {
      hide Owned;
      bufs := bufs - 1;
      ledger := Freed(ledger, b);
    }

    // uplink_enqueue
    method Enqueue(b: PouchBuf)
      requires Inv() && b in ledger.owner && ledger.owner[b] == Held
      modifies this`processing, this`pending, this`ledger
      ensures Inv() && ledger.owner == old(ledger).owner[b := Processing]
      ensures ledger.books.streams == old(ledger).books.streams
      ensures processing == old(processing) + [b] && pending
    {
      hide Owned;
      ledger := Enqueued(ledger, b);
      processing := processing + [b];
      pending := true;
    }

    // block_alloc and block_alloc_stream
    method AllocBlock(id: BlockId, first: bool, last: bool, ok: bool) returns (b: PouchBuf?)
      requires Inv()
      modifies this`bufs, this`ledger
      ensures Inv()
      ensures !ok ==> b == null && ledger == old(ledger)
      ensures ok ==> b != null && fresh(b) && fresh(b.data)
                     && ledger == old(ledger).(owner := old(ledger).owner[b := Held])
                     && BlockSized(b) && b.Contents() == Unfinished(id, first, last, [])
    {
      hide Owned;
      b := Alloc(p + HEADER_SIZE, ok);
      if b != null {
        b.Write(Unfinished(id, first, last, []));
        assert [] + Unfinished(id, first, last, []) == Unfinished(id, first, last, []);
      }
    }

    lemma BlockOwned()
      requires Inv()
      ensures block != null ==> block in ledger.owner && BlockSized(block)
    {
      Pointers(ledger);
    }

    // ---- src/entry.c

    method InstallBlock(b: PouchBuf)
      requires Inv() && b in ledger.owner && ledger.owner[b] == Held && block == null && BlockSized(b)
      modifies this`block, this`ledger
      ensures Inv() && ledger.owner == old(ledger).owner[b := OpenBlock] && block == b
      ensures ledger.books.streams == old(ledger).books.streams
    {
      hide Owned;
      ledger := Given(ledger, b, OpenBlock);
      block := b;
    }

    // The open block leaves the static pointer
    method TakeBlock() returns (b: PouchBuf)
      requires Inv() && block != null
      modifies this`block, this`ledger
      ensures Inv() && b == old(block) && block == null && b in old(ledger).owner
      ensures ledger.owner == old(ledger).owner[b := Held] && BlockSized(b)
      ensures ledger.books.streams == old(ledger).books.streams
    {
      hide Owned;
      b := block;
      ledger := BlockTaken(ledger);
      block := null;
    }

    // block_finish and block_finish_stream
    method FinishHeld(b: PouchBuf, first: bool, last: bool)
      requires Inv() && b in ledger.owner && ledger.owner[b] == Held && BlockSized(b)
      modifies b, b.data
      ensures Inv() && BlockSized(b) && |old(b.Contents())| >= HEADER_SIZE
      ensures b.Contents() == Finish(old(b.Contents()), first, last)
    {
      hide Owned;
      b.FinishBlock(first, last);
    }

    // block_finish or block_finish_stream, then uplink_enqueue
    method Send(b: PouchBuf, first: bool, last: bool)
      requires Inv() && b in ledger.owner && ledger.owner[b] == Held && BlockSized(b)
      modifies this`ledger, this`processing, this`pending, b, b.data
      ensures Inv() && ledger.owner == old(ledger).owner[b := Processing]
      ensures ledger.books.streams == old(ledger).books.streams
      ensures processing == old(processing) + [b] && pending
      ensures b.Valid() && |old(b.Contents())| >= HEADER_SIZE
      ensures b.Contents() == Finish(old(b.Contents()), first, last)
    {
      hide Owned, Finish, Inv;
      FinishHeld(b, first, last);
      Enqueue(b);
    }

    // write_entry on the open block
    method WriteEntry(e: Entry.Entry) returns (ok: bool)
      requires Inv() && block != null && block in ledger.owner
      modifies block, block.data
      ensures Inv() && block.Valid()
      ensures |old(block.Contents())| <= p + HEADER_SIZE
      ensures var w := Entry.TryWrite(p, old(block.Contents()), e);
              ok == w.Some? && block.Contents() == if ok then w.value else old(block.Contents())
    {
      hide Owned;
      Pointers(ledger);
      if p + HEADER_SIZE - block.bytes < Entry.ENTRY_HEADER_OVERHEAD + |e.path| + |e.data| {
        return false;
      }
      block.Write(Entry.Encode(e));
      ok := true;
    }

    // The full open block goes to the processing queue
    method CloseBlock()
      requires Inv() && block != null && block in ledger.owner
      modifies this`block, this`ledger, this`processing, this`pending, block, block.data
      ensures Inv() && block == null
      ensures ledger.owner == old(ledger).owner[old(block) := Processing]
      ensures ledger.books.streams == old(ledger).books.streams
      ensures processing == old(processing) + [old(block)] && pending
      ensures old(block).Valid() && HEADER_SIZE <= |old(block.Contents())|
      ensures old(block).Contents() == Finish(old(block.Contents()), true, true)
    {
      hide Owned, Finish, Inv;
      var full := TakeBlock();
      Send(full, true, true);
    }

    // The open block is not one of the queued ones
    lemma BlockApart()
      requires Inv() && block != null
      ensures block in ledger.owner && ledger.owner[block] == OpenBlock && AllValid(processing)
      ensures forall i | 0 <= i < |processing| :: processing[i] != block && processing[i].data != block.data
    {
      Pointers(ledger);
      NotQueued(ledger, block);
    }

    // What was enqueued since the queue was as it was
    ghost predicate Sent(was: Queue, sent: seq<Bytes>)
      reads this`processing, this`pending, processing, DatasOf(processing)
    {
      && AllValid(processing) && Contents(processing) == was.blocks + sent
      && pending == (was.pending || sent != [])
    }

    lemma NothingSent()
      requires AllValid(processing)
      ensures Sent(Queue(Contents(processing), pending), [])
    {
      assert Contents(processing) + [] == Contents(processing);
    }

    method FlushBlock()
      requires Inv() && block != null && block in ledger.owner && AllValid(processing)
      modifies this`block, this`ledger, this`processing, this`pending, block, block.data
      ensures Inv() && block == null && SameStreams() && Settles()
      ensures ledger.owner == old(ledger).owner[old(block) := Processing]
      ensures HEADER_SIZE <= |old(block.Contents())|
      ensures Sent(old(Queue(Contents(processing), pending)), [Finish(old(block.Contents()), true, true)])
    {
      hide Owned, Inv, Finish, Contents;
      BlockApart();
      ghost var was := Contents(processing);
      CloseBlock();
      assert Contents(old(processing)) == was;
      ContentsSnoc(old(processing), old(block));
    }

    // A fresh open block
    method NextBlock(ok: bool) returns (got: bool)
      requires Inv() && block == null
      modifies this`block, this`bufs, this`ledger
      ensures Settles()
      ensures Inv() && got == ok
      ensures !ok ==> block == null && ledger == old(ledger)
      ensures ok ==> block != null && fresh(block) && fresh(block.data)
                     && ledger.owner == old(ledger).owner[block := OpenBlock]
                     && ledger.books.streams == old(ledger).books.streams
                     && block.Valid() && block.Contents() == Entry.EMPTY_BLOCK
    {
      hide Owned, Inv;
      var b := AllocBlock(0, true, true, ok);
      if b != null { InstallBlock(b); }
      got := b != null;
    }

    // The full open block goes out, and a fresh one takes its place
    method RollOpenBlock(ok: bool) returns (got: bool)
      requires Inv() && block != null && block in ledger.owner && AllValid(processing)
      modifies this`block, this`bufs, this`ledger, this`processing, this`pending, block, block.data
      ensures Inv() && OldOrFresh() && Settles() && SameStreams() && got == ok
      ensures if ok then block != null && block in ledger.owner && fresh(block) && fresh(block.data)
                         && block.Valid() && block.Contents() == Entry.EMPTY_BLOCK
              else block == null
      ensures HEADER_SIZE <= |old(block.Contents())|
      ensures Sent(old(Queue(Contents(processing), pending)), [Finish(old(block.Contents()), true, true)])
    {
      hide Owned, Inv, Finish, Contents, Settled;
      ghost var before := ledger.owner;
      FlushBlock();
      ghost var mid := ledger.owner;
      got := NextBlock(ok);
      SettledTrans(before, mid, ledger.owner);
    }

    // The second half of pouch_uplink_entry_write: the open block is too full
    method WriteNext(e: Entry.Entry, ok: bool) returns (err: Entry.Errno)
      requires Inv() && block != null && block in ledger.owner && AllValid(processing)
      modifies this`block, this`bufs, this`ledger, this`processing, this`pending, block, block.data
      ensures Inv() && OldOrFresh() && Settles() && SameStreams()
      ensures block != null ==> block.Valid()
      ensures HEADER_SIZE <= |old(block.Contents())|
      ensures Sent(old(Queue(Contents(processing), pending)), [Finish(old(block.Contents()), true, true)])
      ensures var w := Entry.TryWrite(p, Entry.EMPTY_BLOCK, e);
              && (err == Entry.Ok <==> ok && w.Some?) && (err == Entry.Ok || err == Entry.ENOMEM)
              && AbsEntry() == if !ok then None else if w.Some? then w else Some(Entry.EMPTY_BLOCK)
    {
      hide Owned, Inv, Finish, Contents, Settled, OldOrFresh, SameStreams;
      err := Entry.ENOMEM;
      var got := RollOpenBlock(ok);
      if got {
        BlockApart();
        hide Sent;
        var done := WriteEntry(e);
        if done { err := Entry.Ok; }
      }
    }

    // The open block, or a fresh one
    method NeedBlock(ok: bool) returns (got: bool)
      requires Inv() && AllValid(processing)
      modifies this`block, this`bufs, this`ledger
      ensures Inv() && OldOrFresh() && Settles() && SameStreams()
      ensures got == (old(block) != null || ok)
      ensures old(block) != null ==> block == old(block)
      ensures block != null <==> got
      ensures block != null ==> block in ledger.owner && (block == old(block) || (fresh(block) && fresh(block.data)))
      ensures block != null ==> block.Valid() && (old(block) == null ==> block.Contents() == Entry.EMPTY_BLOCK)
      ensures Sent(old(Queue(Contents(processing), pending)), [])
    {
      hide Owned, Inv, Contents;
      BlockOwned();
      NothingSent();
      got := true;
      if block == null {
        got := NextBlock(ok);
        BlockOwned();
      }
    }

    // Into the open block; into the next one if that one was not fresh
    method PlaceEntry(e: Entry.Entry, isNew: bool, second: bool) returns (err: Entry.Errno)
      requires Inv() && block != null && AllValid(processing)
      modifies this`block, this`bufs, this`ledger, this`processing, this`pending, block, block.data
      ensures Inv() && OldOrFresh() && Settles() && SameStreams() && (block != null ==> block.Valid())
      ensures HEADER_SIZE <= |old(block.Contents())| <= p + HEADER_SIZE
      ensures var r := Entry.Place(p, old(block.Contents()), e, isNew, second);
              err == r.err && AbsEntry() == r.open && Sent(old(Queue(Contents(processing), pending)), r.sent)
    {
      hide Owned, Finish, Entry.Encode, Inv, Contents, Settled;
      BlockOwned();
      BlockApart();
      NothingSent();
      hide Sent;
      SettledSame(ledger.owner);
      var ok := WriteEntry(e);
      if !ok && !isNew {
        err := WriteNext(e, second);
      } else {
        err := if ok then Entry.Ok else Entry.ENOMEM;
      }
    }

    // pouch_uplink_entry_write, for non-NULL arguments
    method EntryWrite(e: Entry.Entry, luck: Entry.Luck) returns (err: Entry.Errno)
      requires Inv() && Readable()
      modifies this`block, this`bufs, this`ledger, this`processing, this`pending, block, DataOf(block)
      ensures Inv() && OldOrFresh() && Settles() && SameStreams() && (block != null ==> block.Valid())
      ensures Entry.BlockFits(p, old(AbsEntry()))
      ensures var r := Entry.Write(p, old(AbsEntry()), e, luck);
              err == r.err && AbsEntry() == r.open && Sent(old(Queue(Contents(processing), pending)), r.sent)
    {
      hide Owned, Finish, Inv, Contents, Settled, Entry.Place;
      BlockOwned();
      NothingSent();
      SettledSame(ledger.owner);
      if e.data == [] { return Entry.EINVAL; }
      if !luck.lock { return Entry.EAGAIN; }
      ghost var before := ledger.owner;
      var isNew := block == null;
      var got := NeedBlock(luck.first);
      if !got { return Entry.ENOMEM; }
      ghost var mid := ledger.owner;
      err := PlaceEntry(e, isNew, luck.second);
      SettledTrans(before, mid, ledger.owner);
    }

    // ---- src/stream.c

    method NewStreamId() returns (i: BlockId)
      requires Inv()
      modifies this`streamCounter
      ensures Inv() && (i, streamCounter) == Stream.Draw(old(streamCounter))
    {
      hide Owned;
      i := streamCounter % 32;
      streamCounter := streamCounter + 1;
      while i == 0
        invariant if i == 0 then streamCounter == old(streamCounter) + 1 && old(streamCounter) % 32 == 0
                  else (i, streamCounter) == Stream.Draw(old(streamCounter))
        decreases i == 0
      {
        i := streamCounter % 32;
        streamCounter := streamCounter + 1;
      }
    }

    method CountStreams(n: int)
      requires InvBut(null, openStreams - |ledger.books.streams|) && n == |ledger.books.streams| <= Device.STREAMS_MAX
      modifies this`openStreams
      ensures Inv()
    {
      hide Owned;
      openStreams := n;
    }

    method AddLedger(s: StreamObj, b: PouchBuf)
      requires Inv() && openStreams < Device.STREAMS_MAX && s !in ledger.books.streams && s.buf == b
      requires b in ledger.owner && ledger.owner[b] == Held && BlockSized(b)
      modifies this`ledger
      ensures InvBut(null, -1) && |ledger.books.streams| == openStreams + 1 <= Device.STREAMS_MAX
      ensures ledger.books.streams == old(ledger).books.streams[s := b]
      ensures ledger.owner == old(ledger).owner[b := OfStream(s)]
    {
      hide Owned;
      ledger := Joined(ledger, s, b);
    }

    method AddStream(s: StreamObj, b: PouchBuf)
      requires Inv() && openStreams < Device.STREAMS_MAX && s !in ledger.books.streams && s.buf == b
      requires b in ledger.owner && ledger.owner[b] == Held && BlockSized(b)
      modifies this`openStreams, this`ledger
      ensures Inv() && ledger.books.streams == old(ledger).books.streams[s := b]
      ensures ledger.owner == old(ledger).owner[b := OfStream(s)]
    {
      hide Owned, Inv, InvBut;
      AddLedger(s, b);
      CountStreams(openStreams + 1);
    }

    method InstallStream(i: BlockId, b: PouchBuf) returns (s: StreamObj)
      requires Inv() && openStreams < Device.STREAMS_MAX
      requires b in ledger.owner && ledger.owner[b] == Held && BlockSized(b)
      modifies this`openStreams, this`ledger
      ensures Inv() && fresh(s) && s.id == i && s.session == id && s.buf == b && s.bytes == 0
      ensures ledger.books.streams == old(ledger).books.streams[s := b]
      ensures ledger.owner == old(ledger).owner[b := OfStream(s)]
    {
      hide Owned;
      s := new StreamObj(i, id, b);
      AddStream(s, b);
    }

    lemma StreamBuf(s: StreamObj)
      requires Inv() && s in ledger.books.streams
      ensures s.buf in ledger.owner && BlockSized(s.buf) && s.buf.Valid() && ledger.books.streams[s] == s.buf
    {
      Pointers(ledger);
    }

    method SwapLedger(s: StreamObj, b: PouchBuf)
      requires Inv() && s in ledger.books.streams && b in ledger.owner && ledger.owner[b] == Held && BlockSized(b)
      modifies this`ledger
      ensures InvBut(s, 0) && s.buf in old(ledger).owner && s.buf != b
      ensures ledger.books.streams == old(ledger).books.streams[s := b]
      ensures ledger.owner == old(ledger).owner[s.buf := Held][b := OfStream(s)]
    {
      hide Owned, Swapped;
      StreamBuf(s);
      ledger := Swapped(ledger, s, b);
    }

    method SetBuf(s: StreamObj, b: PouchBuf)
      requires InvBut(s, 0) && s in ledger.books.streams && ledger.books.streams[s] == b
      modifies s`buf
      ensures Inv() && s.buf == b
    {
      hide Owned;
      s.buf := b;
    }

    method SwapStream(s: StreamObj, b: PouchBuf) returns (full: PouchBuf)
      requires Inv() && s in ledger.books.streams && b in ledger.owner && ledger.owner[b] == Held && BlockSized(b)
      modifies this`ledger, s`buf
      ensures Inv() && full == old(s.buf) && full in old(ledger).owner && s.buf == b && full != b
      ensures ledger.books.streams == old(ledger).books.streams[s := b]
      ensures ledger.owner == old(ledger).owner[full := Held][b := OfStream(s)]
    {
      hide Owned, Inv, InvBut;
      full := s.buf;
      SwapLedger(s, b);
      SetBuf(s, b);
    }

    method DropLedger(s: StreamObj)
      requires Inv() && s in ledger.books.streams
      modifies this`ledger
      ensures InvBut(null, 1) && |ledger.books.streams| == openStreams - 1 <= Device.STREAMS_MAX
      ensures s.buf in old(ledger).owner && ledger.books.streams == old(ledger).books.streams - {s}
      ensures ledger.owner == old(ledger).owner[s.buf := Held]
    {
      hide Owned;
      StreamBuf(s);
      ledger := Left(ledger, s);
    }

    method DropStream(s: StreamObj) returns (b: PouchBuf)
      requires Inv() && s in ledger.books.streams
      modifies this`ledger, this`openStreams
      ensures Inv() && b == s.buf && b in old(ledger).owner && BlockSized(b)
      ensures ledger.books.streams == old(ledger).books.streams - {s}
      ensures ledger.owner == old(ledger).owner[b := Held]
    {
      hide Owned, Inv, InvBut;
      StreamBuf(s);
      b := s.buf;
      DropLedger(s);
      CountStreams(openStreams - 1);
    }

    // block_alloc_stream for a first block, and write_stream_header
    method AllocStreamBlock(i: BlockId, path: Bytes, contentType: nat, ok: bool) returns (b: PouchBuf?)
      requires Inv() && 3 + |path| <= p
      modifies this`bufs, this`ledger
      ensures Inv()
      ensures !ok ==> b == null && ledger == old(ledger)
      ensures ok ==> b != null && fresh(b) && fresh(b.data)
                     && ledger == old(ledger).(owner := old(ledger).owner[b := Held]) && BlockSized(b)
                     && b.Contents() == Unfinished(i, true, false, Stream.StreamHeader(path, contentType))
    {
      hide Owned;
      b := AllocBlock(i, true, false, ok);
      if b != null {
        b.Write(Stream.StreamHeader(path, contentType));
        assert Unfinished(i, true, false, []) + Stream.StreamHeader(path, contentType)
               == Unfinished(i, true, false, Stream.StreamHeader(path, contentType));
      }
    }

    // pouch_uplink_stream_open; stream and block: the two allocations succeed
    method StreamOpen(path: Bytes, contentType: nat, stream: bool, block: bool) returns (s: StreamObj?)
      requires Inv() && 3 + |path| <= p
      modifies this`openStreams, this`streamCounter, this`bufs, this`ledger
      ensures Inv() && OldOrFresh() && Settles()
      ensures s != null <==> |old(ledger).books.streams| < 126 && stream && block
      ensures s == null ==> ledger == old(ledger)
      ensures s != null ==> fresh(s) && s.buf.Valid()
                            && ledger.books.streams == old(ledger).books.streams[s := s.buf]
                            && s.Abs() == Stream.Open(Stream.Draw(old(streamCounter)).0, id, path, contentType)
      ensures streamCounter == if |old(ledger).books.streams| < 126 && stream
                               then Stream.Draw(old(streamCounter)).1 else old(streamCounter)
    {
      hide Owned, Stream.Draw, Unfinished, Stream.StreamHeader, Settled;
      assert openStreams == |ledger.books.streams|;
      SettledSame(ledger.owner);
      hide Inv, BlockSized;
      ghost var before := ledger.owner;
      if openStreams >= Device.STREAMS_MAX { return null; }
      if !stream { return null; }
      var newId := NewStreamId();
      var b := AllocStreamBlock(newId, path, contentType, block);
      if b == null { return null; }
      s := InstallStream(newId, b);
      SettledGiven(before, b, OfStream(s));
    }

    // Fill what is left of the stream's block
    method WriteSome(s: StreamObj, data: Bytes, ghost was: Queue, ghost sent: seq<Bytes>) returns (n: nat)
      requires Inv() && s in ledger.books.streams && s.buf in ledger.owner && BlockSized(s.buf) && Sent(was, sent)
      modifies s.buf, s.buf.data
      ensures Inv() && BlockSized(s.buf) && Sent(was, sent)
      ensures n == Min(p + HEADER_SIZE - |old(s.buf.Contents())|, |data|) <= |data|
      ensures s.buf.Contents() == old(s.buf.Contents()) + data[..n]
    {
      hide Owned;
      StreamOwned(s);
      n := Min(p + HEADER_SIZE - s.buf.bytes, |data|);
      s.buf.Write(data[..n]);
    }

    method CountBytes(s: StreamObj, k: nat, ghost was: Queue, ghost sent: seq<Bytes>)
      requires Inv() && s in ledger.books.streams && Sent(was, sent)
      modifies s`bytes
      ensures Inv() && s.bytes == old(s.bytes) + k && Sent(was, sent)
    {
      hide Owned;
      s.bytes := s.bytes + k;
    }

    lemma StreamOwned(s: StreamObj)
      requires Inv() && s in ledger.books.streams
      ensures PayloadSize(p) && s.buf in ledger.owner && ledger.owner[s.buf] == OfStream(s) && BlockSized(s.buf)
      ensures AllValid(processing)
      ensures forall i | 0 <= i < |processing| ::
                processing[i] != s.buf && processing[i].data != s.buf.data && processing[i] in ledger.owner
    {
      Pointers(ledger);
      NotQueued(ledger, s.buf);
    }

    // The full block of a stream goes out, and b takes its place
    method RollBlock(s: StreamObj, b: PouchBuf)
      requires Inv() && s in ledger.books.streams && s.buf in ledger.owner && BlockSized(s.buf)
      requires b in ledger.owner && ledger.owner[b] == Held && BlockSized(b)
      requires b != s.buf && b.data != s.buf.data
      modifies this`ledger, this`processing, this`pending, s`buf, s.buf, s.buf.data
      ensures ledger.owner.Keys <= old(ledger).owner.Keys
      ensures Inv() && s.buf == b && b in ledger.owner
      ensures SettlesWithout(b)
      ensures s in ledger.books.streams && ledger.books.streams.Keys == old(ledger).books.streams.Keys
      ensures processing == old(processing) + [old(s.buf)] && pending
      ensures old(s.buf).Valid() && |old(s.buf.Contents())| >= HEADER_SIZE
      ensures old(s.buf).Contents() == Finish(old(s.buf.Contents()), false, false)
    {
      hide Owned, Given, Taken, Finish, Inv;
      var full := SwapStream(s, b);
      Send(full, false, false);
    }
  
    // and the contents of the queue grow by the finished block
    method RollContents(s: StreamObj, b: PouchBuf)
      requires Inv() && s in ledger.books.streams && s.buf in ledger.owner && BlockSized(s.buf) && AllValid(processing)
      requires b in ledger.owner && ledger.owner[b] == Held && BlockSized(b)
      modifies this`ledger, this`processing, this`pending, s`buf, s.buf, s.buf.data
      ensures ledger.owner.Keys <= old(ledger).owner.Keys
      ensures ledger.books.streams.Keys == old(ledger).books.streams.Keys
      ensures Inv() && s in ledger.books.streams && s.buf == b && b in ledger.owner && pending
      ensures old(s.buf).data != b.data && |old(s.buf.Contents())| >= HEADER_SIZE
      ensures SettlesWithout(b)
      ensures AllValid(processing)
              && Contents(processing) == old(Contents(processing)) + [Finish(old(s.buf.Contents()), false, false)]
    {
      hide Owned, Inv, Finish, Contents, SettlesWithout;
      StreamOwned(s);
      Separate(ledger, s.buf, b);
      ghost var was := Contents(processing);
      RollBlock(s, b);
      assert Contents(old(processing)) == was;
      ContentsSnoc(old(processing), old(s.buf));
    }

    // Taking b for the next block keeps count of what was sent
    method RollSent(s: StreamObj, b: PouchBuf, ghost was: Queue, ghost sent: seq<Bytes>)
      requires Inv() && s in ledger.books.streams && s.buf in ledger.owner && BlockSized(s.buf) && Sent(was, sent)
      requires b in ledger.owner && ledger.owner[b] == Held && BlockSized(b)
      modifies this`ledger, this`processing, this`pending, s`buf, s.buf, s.buf.data
      ensures ledger.owner.Keys <= old(ledger).owner.Keys
      ensures ledger.books.streams.Keys == old(ledger).books.streams.Keys
      ensures Inv() && s in ledger.books.streams && s.buf == b && b in ledger.owner && pending
      ensures old(s.buf).data != b.data && |old(s.buf.Contents())| >= HEADER_SIZE
      ensures SettlesWithout(b)
      ensures Sent(was, sent + [Finish(old(s.buf.Contents()), false, false)])
    {
      hide Owned, Inv, Finish, Contents, SettlesWithout;
      ghost var full := Finish(s.buf.Contents(), false, false);
      RollContents(s, b);
      Assoc(was.blocks, sent, [full]);
    }

    // One block is full: take the next one and send it
    method NextStreamBlock(s: StreamObj, ok: bool, ghost was: Queue, ghost sent: seq<Bytes>) returns (got: bool)
      requires Inv() && s in ledger.books.streams && s.buf in ledger.owner && BlockSized(s.buf) && Sent(was, sent)
      modifies this`bufs, this`ledger, this`processing, this`pending, s`buf, s.buf, s.buf.data
      ensures OldOrFresh()
      ensures ledger.books.streams.Keys == old(ledger).books.streams.Keys
      ensures Inv() && s in ledger.books.streams && s.buf in ledger.owner && BlockSized(s.buf) && got == ok
      ensures Settles()
      ensures |old(s.buf.Contents())| >= HEADER_SIZE
      ensures !ok ==> && s.buf == old(s.buf) && processing == old(processing) && pending == old(pending)
                      && s.buf.Contents() == old(s.buf.Contents()) && Sent(was, sent)
      ensures ok ==> && fresh(s.buf) && fresh(s.buf.data) && pending
                     && s.buf.Contents() == Unfinished(s.id, false, false, [])
                     && Sent(was, sent + [Finish(old(s.buf.Contents()), false, false)])
    {
      hide Owned, Inv, Finish, Unfinished, Contents;
      var b := AllocBlock(s.id, false, false, ok);
      got := b != null;
      if got { RollSent(s, b, was, sent); }
    }

    // What the loop of pouch_stream_write still has to do, after what it has done
    ghost predicate WriteGoesOn(id: BlockId, start: Bytes, data: Bytes, budget: nat,
                                block: Bytes, sent: seq<Bytes>, written: nat, left: nat)
    {
      && PayloadSize(p) && HEADER_SIZE <= |start| <= p + HEADER_SIZE && HEADER_SIZE <= |block| <= p + HEADER_SIZE
      && written <= |data|
      && var w := Stream.WriteLoop(p, id, block, data[written..], left);
      Stream.WriteLoop(p, id, start, data, budget) == Stream.Written(w.block, sent + w.sent, written + w.count)
    }

    lemma WriteStarts(id: BlockId, start: Bytes, data: Bytes, budget: nat)
      requires PayloadSize(p) && HEADER_SIZE <= |start| <= p + HEADER_SIZE
      ensures WriteGoesOn(id, start, data, budget, start, [], 0, budget)
    {
      assert data[0..] == data;
      var w := Stream.WriteLoop(p, id, start, data, budget);
      assert [] + w.sent == w.sent;
    }

    lemma WriteStops(id: BlockId, start: Bytes, data: Bytes, budget: nat,
                     block: Bytes, sent: seq<Bytes>, written: nat, left: nat)
      requires WriteGoesOn(id, start, data, budget, block, sent, written, left)
      requires written == |data| || (|block| == p + HEADER_SIZE && left == 0)
      ensures Stream.WriteLoop(p, id, start, data, budget) == Stream.Written(block, sent, written)
    {
      assert sent + [] == sent;
    }

    lemma WriteFills(id: BlockId, start: Bytes, data: Bytes, budget: nat,
                     block: Bytes, sent: seq<Bytes>, written: nat, left: nat)
      requires WriteGoesOn(id, start, data, budget, block, sent, written, left)
      requires written < |data| && |block| < p + HEADER_SIZE
      ensures var n := Min(p + HEADER_SIZE - |block|, |data| - written);
              WriteGoesOn(id, start, data, budget, block + data[written..][..n], sent, written + n, left)
    {
      var n := Min(p + HEADER_SIZE - |block|, |data| - written);
      assert data[written..][n..] == data[written + n..];
    }

    lemma WriteRolls(id: BlockId, start: Bytes, data: Bytes, budget: nat,
                     block: Bytes, sent: seq<Bytes>, written: nat, left: nat)
      requires WriteGoesOn(id, start, data, budget, block, sent, written, left)
      requires written < |data| && |block| == p + HEADER_SIZE && 0 < left
      ensures var n := Min(p, |data| - written);
              WriteGoesOn(id, start, data, budget, Unfinished(id, false, false, []) + data[written..][..n],
                          sent + [Finish(block, false, false)], written + n, left - 1)
    {
      var n := Min(p, |data| - written);
      assert data[written..][n..] == data[written + n..];
      var w := Stream.WriteLoop(p, id, Unfinished(id, false, false, []) + data[written..][..n],
                                data[written + n..], left - 1);
      Assoc(sent, [Finish(block, false, false)], w.sent);
    }

    // One turn of the loop: room for more bytes is made if there is none, and then used
    method WriteTurn(s: StreamObj, data: Bytes, written: nat, left: nat, ghost start: Bytes, ghost budget: nat,
                     ghost was: Queue, ghost sent: seq<Bytes>)
      returns (stuck: bool, written': nat, left': nat, ghost sent': seq<Bytes>)
      requires Inv() && s in ledger.books.streams && s.buf in ledger.owner && BlockSized(s.buf) && Sent(was, sent)
      requires WriteGoesOn(s.id, start, data, budget, s.buf.Contents(), sent, written, left) && written < |data|
      modifies this`bufs, this`ledger, this`processing, this`pending, s`buf, s.buf, s.buf.data
      ensures OldOrFresh()
      ensures ledger.books.streams.Keys == old(ledger).books.streams.Keys
      ensures Inv() && s in ledger.books.streams && s.buf in ledger.owner && BlockSized(s.buf) && Sent(was, sent')
      ensures (s.buf == old(s.buf) || fresh(s.buf)) && (s.buf.data == old(s.buf.data) || fresh(s.buf.data))
      ensures Settles()
      ensures WriteGoesOn(s.id, start, data, budget, s.buf.Contents(), sent', written', left')
      ensures if stuck then written' == written && left' == 0 && |s.buf.Contents()| == p + HEADER_SIZE
              else written < written' <= |data|
    {
      hide Owned, Finish, Unfinished, WriteGoesOn, Sent, Inv;
      StreamOwned(s);
      stuck, written', left', sent' := false, written, left, sent;
      ghost var block := s.buf.Contents();
      if s.buf.bytes == p + HEADER_SIZE {
        var got := NextStreamBlock(s, left > 0, was, sent);
        if !got {
          stuck := true;
          return;
        }
        WriteRolls(s.id, start, data, budget, block, sent, written, left);
        left', sent' := left - 1, sent + [Finish(block, false, false)];
      } else {
        WriteFills(s.id, start, data, budget, block, sent, written, left);
      }
      var k := WriteSome(s, data[written..], was, sent');
      written' := written + k;
    }

    // The loop of pouch_stream_write
    method WriteTurns(s: StreamObj, data: Bytes, budget: nat, ghost was: Queue)
      returns (written: nat, ghost left: nat, ghost sent: seq<Bytes>)
      requires Inv() && s in ledger.books.streams && s.buf in ledger.owner && BlockSized(s.buf) && Sent(was, [])
      requires WriteGoesOn(s.id, s.buf.Contents(), data, budget, s.buf.Contents(), [], 0, budget)
      modifies this`bufs, this`ledger, this`processing, this`pending, s`buf, s.buf, s.buf.data
      ensures Inv() && OldOrFresh() && Settles() && ledger.books.streams.Keys == old(ledger).books.streams.Keys
      ensures BlockSized(s.buf) && Sent(was, sent)
      ensures WriteGoesOn(s.id, old(s.buf.Contents()), data, budget, s.buf.Contents(), sent, written, left)
      ensures written == |data| || (|s.buf.Contents()| == p + HEADER_SIZE && left == 0)
    {
      hide Owned, Finish, Unfinished, WriteGoesOn, Sent, Inv, Settled;
      SettledSame(ledger.owner);
      ghost var before, start := ledger.owner, s.buf.Contents();
      var more := budget;
      written, sent := 0, [];
      while written < |data|
        invariant Inv() && s in ledger.books.streams && s.buf in ledger.owner && BlockSized(s.buf)
        invariant s.buf == old(s.buf) || fresh(s.buf)
        invariant s.buf.data == old(s.buf.data) || fresh(s.buf.data)
        invariant written <= |data| && Settled(before, ledger.owner) && OldOrFresh()
        invariant ledger.books.streams.Keys == old(ledger).books.streams.Keys
        invariant Sent(was, sent)
        invariant WriteGoesOn(s.id, start, data, budget, s.buf.Contents(), sent, written, more)
      {
        var stuck: bool;
        ghost var mid := ledger.owner;
        stuck, written, more, sent := WriteTurn(s, data, written, more, start, budget, was, sent);
        SettledTrans(before, mid, ledger.owner);
        if stuck { break; }
      }
      left := more;
    }

    // and what it amounts to
    method WriteBytes(s: StreamObj, data: Bytes, budget: nat) returns (written: nat, ghost sent: seq<Bytes>)
      requires Inv() && s in ledger.books.streams && s.buf in ledger.owner && BlockSized(s.buf)
      requires AllValid(processing)
      modifies this`bufs, this`ledger, this`processing, this`pending, s`buf, s.buf, s.buf.data
      ensures Inv() && OldOrFresh() && Settles() && ledger.books.streams.Keys == old(ledger).books.streams.Keys
      ensures BlockSized(s.buf) && Sent(old(Queue(Contents(processing), pending)), sent) && PayloadSize(p)
      ensures |old(s.buf.Contents())| >= HEADER_SIZE && |old(s.buf.Contents())| <= p + HEADER_SIZE
      ensures Stream.WriteLoop(p, s.id, old(s.buf.Contents()), data, budget)
              == Stream.Written(s.buf.Contents(), sent, written)
    {
      hide Owned, WriteGoesOn, Sent, Inv, Stream.WriteLoop, Settled, OldOrFresh;
      StreamOwned(s);
      NothingSent();
      ghost var was, start := Queue(Contents(processing), pending), s.buf.Contents();
      WriteStarts(s.id, start, data, budget);
      ghost var left;
      written, left, sent := WriteTurns(s, data, budget, was);
      WriteStops(s.id, start, data, budget, s.buf.Contents(), sent, written, left);
    }

    // pouch_stream_write; budget: how many block allocations succeed before one fails
    method StreamWrite(s: StreamObj, data: Bytes, budget: nat) returns (written: nat)
      requires Inv() && s in ledger.books.streams && s.buf.Valid() && s.buf in ledger.owner && BlockSized(s.buf)
      requires AllValid(processing)
      modifies this`bufs, this`ledger, this`processing, this`pending, s, s.buf, s.buf.data
      ensures OldOrFresh()
      ensures Inv() && s.buf.Valid() && Settles() && ledger.books.streams.Keys == old(ledger).books.streams.Keys
      ensures Stream.Fits(p, old(s.Abs()))
      ensures var r := Stream.Write(p, old(s.Abs()), id, data, budget);
              s.Abs() == r.stream && written == r.count && Sent(old(Queue(Contents(processing), pending)), r.sent)
    {
      hide Owned, Finish, Unfinished, Sent, Inv, Stream.WriteLoop;
      StreamOwned(s);
      NothingSent();
      if s.session != id { return 0; }
      ghost var was, sent := Queue(Contents(processing), pending), [];
      written, sent := WriteBytes(s, data, budget);
      CountBytes(s, written, was, sent);
    }

    // pouch_stream_close, for a stream that is not NULL
    method StreamClose(s: StreamObj)
      requires Inv() && s in ledger.books.streams && s.buf.Valid() && s.buf in ledger.owner && BlockSized(s.buf)
      requires AllValid(processing)
      modifies this`bufs, this`openStreams, this`ledger, this`processing, this`pending, s.buf, s.buf.data
      ensures ledger.owner.Keys <= old(ledger).owner.Keys
      ensures Inv() && Settles() && ledger.books.streams == old(ledger).books.streams - {s}
      ensures HEADER_SIZE <= |old(s.buf.Contents())|
      ensures Sent(old(Queue(Contents(processing), pending)), Stream.Close(old(s.Abs()), id))
    {
      hide Owned, Finish, Inv, Contents;
      StreamOwned(s);
      ghost var was := Contents(processing);
      var b := DropStream(s);
      if s.session == id && s.bytes > 0 {
        Send(b, false, true);
        assert Contents(old(processing)) == was;
        ContentsSnoc(old(processing), b);
      } else {
        Free(b);
        assert was + [] == was;
      }
    }

    // ---- src/uplink.c

    method TakeProcessing() returns (b: PouchBuf)
      requires Inv() && processing != []
      modifies this`processing, this`ledger
      ensures SameStreams()
      ensures Inv() && b == old(processing)[0] && processing == old(processing)[1..]
      ensures b in old(ledger).owner && ledger.owner == old(ledger).owner[b := Held]
    {
      hide Owned;
      b := processing[0];
      ledger := Dequeued(ledger);
      processing := processing[1..];
    }

    method PushTransport(b: PouchBuf)
      requires Inv() && b in ledger.owner && ledger.owner[b] == Held
      modifies this`transport, this`ledger
      ensures SameStreams()
      ensures Inv() && transport == old(transport) + [b]
      ensures ledger.owner == old(ledger).owner[b := Transport]
    {
      hide Owned;
      ledger := Given(ledger, b, Transport);
      transport := transport + [b];
    }

    method TakeHeader() returns (b: PouchBuf)
      requires Inv() && header != null
      modifies this`header, this`ledger
      ensures SameStreams()
      ensures Inv() && b == old(header) && header == null
      ensures b in old(ledger).owner && old(ledger).owner[b] == PendingHeader
      ensures ledger.owner == old(ledger).owner[b := Held]
    {
      hide Owned;
      b := header;
      ledger := HeaderTaken(ledger);
      header := null;
    }

    // The pending header goes to the transport queue
    method MoveHeader(encrypted: PouchBuf)
      requires Inv() && encrypted in ledger.owner && ledger.owner[encrypted] == Held
      modifies this`transport, this`header, this`ledger
      ensures ledger.owner.Keys <= old(ledger).owner.Keys
      ensures SameStreams()
      ensures Inv() && header == null && encrypted in ledger.owner && ledger.owner[encrypted] == Held && Settles()
      ensures transport == old(transport) + (if old(header) == null then [] else [old(header)])
    {
      hide Owned, Inv;
      if header != null {
        var h := TakeHeader();
        PushTransport(h);
      }
    }

    // One turn of the loop of process_blocks; the plaintext build seals a block to itself
    method MoveBlock()
      requires Inv() && processing != []
      modifies this`processing, this`transport, this`header, this`ledger
      ensures ledger.owner.Keys <= old(ledger).owner.Keys
      ensures SameStreams()
      ensures Inv() && Settles() && processing == old(processing)[1..] && header == null
      ensures transport == old(transport) + (if old(header) == null then [] else [old(header)]) + [old(processing)[0]]
    {
      hide Owned, Inv;
      var encrypted := TakeProcessing();
      MoveHeader(encrypted);
      PushTransport(encrypted);
    }

    method ProcessTurn()
      requires Inv() && Readable() && processing != []
      modifies this`processing, this`transport, this`header, this`ledger
      ensures ledger.owner.Keys <= old(ledger).owner.Keys
      ensures SameStreams()
      ensures Inv() && Settles() && Readable() && |processing| == |old(processing)| - 1
      ensures Abs() == Uplink.ProcessTurn(Cipher.Plain(), old(Abs()))
    {
      hide Owned, Inv, Contents;
      ContentsTail(processing);
      ghost var lead := if header == null then [] else [header];
      if header != null { ContentsSnoc(transport, header); }
      ContentsSnoc(transport + lead, processing[0]);
      assert transport + [] == transport && Contents(transport) + [] == Contents(transport);
      MoveBlock();
    }

    method Drain()
      requires Inv() && Readable()
      modifies this`processing, this`transport, this`header, this`ledger
      ensures ledger.owner.Keys <= old(ledger).owner.Keys
      ensures SameStreams()
      ensures Inv() && Settles() && Readable() && Abs() == Uplink.ProcessLoop(Cipher.Plain(), old(Abs()))
    {
      hide Owned, Inv, Contents, Uplink.ProcessTurn;
      ghost var u := Abs();
      while active && !closed && processing != []
        invariant Inv() && Settles() && Readable() && SameStreams()
        invariant ledger.owner.Keys <= old(ledger).owner.Keys
        invariant Uplink.ProcessLoop(Cipher.Plain(), Abs()) == Uplink.ProcessLoop(Cipher.Plain(), u)
        decreases |processing|
      {
        ProcessTurn();
      }
      assert |Abs().processing| == |processing|;
    }

    method SetPending(value: bool)
      requires Inv() && Readable()
      modifies this`pending
      ensures Inv() && Readable() && Abs() == old(Abs()).(pending := value)
    {
      hide Owned, Inv, Contents;
      SetScheduled(value);
    }

    method SetScheduled(value: bool)
      requires Inv()
      modifies this`pending
      ensures Inv() && pending == value
    {
      hide Owned;
      pending := value;
    }

    method SetClosed()
      requires Inv()
      modifies this`closed
      ensures Inv() && closed
    {
      hide Owned;
      closed := true;
    }

    method MarkClosed()
      requires Inv() && Readable()
      modifies this`closed
      ensures Inv() && Readable() && Abs() == old(Abs()).(closed := true)
    {
      hide Owned, Inv, Contents;
      SetClosed();
    }

    // process_blocks, run by the work queue
    method ProcessBlocks()
      requires Inv() && Readable()
      modifies this`processing, this`transport, this`header, this`ledger, this`pending, this`closed
      ensures ledger.owner.Keys <= old(ledger).owner.Keys
      ensures SameStreams()
      ensures Inv() && Settles() && Readable() && Abs() == Uplink.Work(Cipher.Plain(), old(Abs()))
    {
      hide Owned, Inv, Contents, Uplink.ProcessLoop;
      SetPending(false);
      Drain();
      if closing { MarkClosed(); }
    }

    method BeginClosing()
      requires Inv()
      modifies this`closing, this`pending
      ensures Inv() && closing && pending
    {
      hide Owned;
      closing := true;
      pending := true;
    }

    // pouch_uplink_close, with entry_block_close inside it
    method CloseUplink(lock: bool) returns (ok: bool)
      requires Inv() && Readable()
      modifies this`closing, this`pending, this`block, this`ledger, this`processing, block, DataOf(block)
      ensures ledger.owner.Keys <= old(ledger).owner.Keys
      ensures Inv() && Settles() && SameStreams() && (block != null ==> block.Valid())
      ensures Entry.BlockFits(p, old(AbsEntry())) && closing && ok == (!old(closing) && lock)
      ensures if old(closing) then AbsEntry() == old(AbsEntry()) && Sent(old(Queue(Contents(processing), pending)), [])
              else var r := Entry.Close(old(AbsEntry()), lock);
                   AbsEntry() == r.open && Sent(Queue(old(Contents(processing)), true), r.sent)
    {
      hide Owned, Inv, Finish, Contents;
      BlockOwned();
      NothingSent();
      if closing { return false; }
      BeginClosing();
      NothingSent();
      if lock && block != null { FlushBlock(); }
      ok := lock;
    }

    method InstallHeader(b: PouchBuf)
      requires Inv() && b in ledger.owner && ledger.owner[b] == Held && header == null
      modifies this`header, this`ledger
      ensures SameStreams()
      ensures Inv() && header == b && ledger.owner == old(ledger).owner[b := PendingHeader]
    {
      hide Owned;
      ledger := Given(ledger, b, PendingHeader);
      header := b;
    }

    // A header that nothing points to any more stays allocated
    method LoseHeader()
      requires Inv() && header != null
      modifies this`header, this`ledger
      ensures SameStreams()
      ensures Inv() && header == null
      ensures old(header) in old(ledger).owner && ledger.owner == old(ledger).owner[old(header) := Lost]
    {
      hide Owned;
      ledger := HeaderLost(ledger);
      header := null;
    }

    // A buffer with what the encoder makes of the header, which may not fit
    method AllocHeader(memory: bool, bytes: Option<Bytes>) returns (b: PouchBuf?)
      requires Inv() && (bytes.Some? ==> |bytes.value| <= PouchHeader.HEADER_MAX_LEN)
      modifies this`ledger, this`bufs
      ensures Inv() && (b != null ==> fresh(b) && fresh(b.data) && b.Valid())
      ensures ContentsOf(b) == if memory then bytes else None
      ensures ledger == if b == null then old(ledger) else old(ledger).(owner := old(ledger).owner[b := Held])
    {
      hide Owned;
      b := Alloc(PouchHeader.HEADER_MAX_LEN, memory);
      if b == null { return; }
      if bytes == None {
        DropHeld(b, old(ledger));
        return null;
      }
      b.Write(bytes.value);
      assert [] + bytes.value == bytes.value;
    }

    // A buffer that was only held is freed: all is as before
    method DropHeld(b: PouchBuf, ghost before: Ledger)
      requires Inv() && b !in before.owner && ledger == before.(owner := before.owner[b := Held])
      modifies this`ledger, this`bufs
      ensures Inv() && ledger == before
    {
      hide Owned, Inv;
      Free(b);
      assert before.owner[b := Held] - {b} == before.owner;
    }

    // pouch_header_create. bytes is what the encoder makes of the header; memory: the allocation.
    method CreateHeader(memory: bool, bytes: Option<Bytes>)
      requires Inv() && header == null
      requires bytes.Some? ==> |bytes.value| <= PouchHeader.HEADER_MAX_LEN
      modifies this`header, this`ledger, this`bufs
      ensures SameStreams()
      ensures Inv() && (header != null ==> fresh(header) && fresh(header.data) && header.Valid())
      ensures ContentsOf(header) == if memory then bytes else None
      ensures header == null ==> ledger.owner == old(ledger).owner
      ensures header != null ==> ledger.owner == old(ledger).owner[header := PendingHeader]
    {
      hide Owned, Inv;
      var b := AllocHeader(memory, bytes);
      if b != null { InstallHeader(b); }
    }
  
    // The header slot is overwritten with a new header, or with NULL
    method ReplaceHeader(memory: bool, bytes: Option<Bytes>)
      requires Inv() && (bytes.Some? ==> |bytes.value| <= PouchHeader.HEADER_MAX_LEN)
      modifies this`header, this`ledger, this`bufs
      ensures OldOrFresh()
      ensures SameStreams()
      ensures NoneKept()
      ensures Inv() && (header != null ==> fresh(header) && fresh(header.data) && header.Valid())
      ensures ContentsOf(header) == if memory then bytes else None
      ensures old(header) == null && old(NothingLost()) ==> NothingLost()
      ensures old(header) != null ==> old(header) in ledger.owner && ledger.owner[old(header)] == Lost
    {
      hide Owned, Inv;
      if header != null {
        ghost var was := header;
        LoseHeader();
        assert was in ledger.owner && ledger.owner[was] == Lost;
      }
      ghost var before := ledger.owner;
      CreateHeader(memory, bytes);
      assert forall b | b in before :: b in ledger.owner && (b != header ==> ledger.owner[b] == before[b]);
    }

    method SwapHeader(memory: bool, bytes: Option<Bytes>)
      requires Inv() && Readable() && (bytes.Some? ==> |bytes.value| <= PouchHeader.HEADER_MAX_LEN)
      modifies this`header, this`ledger, this`bufs
      ensures OldOrFresh()
      ensures SameStreams()
      ensures NoneKept()
      ensures Inv() && Readable()
      ensures Abs() == old(Abs()).(header := if memory then bytes else None)
      ensures old(header) == null && old(NothingLost()) ==> NothingLost()
      ensures old(header) != null ==> old(header) in ledger.owner && ledger.owner[old(header)] == Lost
    {
      hide Owned, Inv, Contents, NothingLost, NoneKept;
      ReplaceHeader(memory, bytes);
    }

    method SetActive(value: bool, event: Uplink.Event)
      requires Inv()
      modifies this`active, this`events
      ensures Inv() && active == value && events == old(events) + [event]
    {
      hide Owned;
      active := value;
      events := events + [event];
    }

    method Activate()
      requires Inv() && Readable()
      modifies this`active, this`events
      ensures Inv() && Readable()
      ensures Abs() == old(Abs()).(active := true, events := old(events) + [Uplink.SessionStart])
    {
      hide Owned, Inv, Contents;
      SetActive(true, Uplink.SessionStart);
    }

    // pouch_uplink_start. Only a header that was still pending, which finish would have freed, is lost.
    method StartUplink(setup: bool, memory: bool, bytes: Option<Bytes>) returns (started: bool)
      requires Inv() && Readable() && (bytes.Some? ==> |bytes.value| <= PouchHeader.HEADER_MAX_LEN)
      modifies this`active, this`header, this`ledger, this`bufs, this`events, this`pending
      ensures OldOrFresh()
      ensures SameStreams()
      ensures NoneKept()
      ensures Inv() && Readable()
      ensures Abs() == Uplink.Start(old(Abs()), setup, if memory then bytes else None, ())
      ensures started == (!old(active) && setup && memory && bytes.Some?)
      ensures (old(active) || !setup || old(header) == null) && old(NothingLost()) ==> NothingLost()
      ensures !old(active) && setup && old(header) != null
              ==> old(header) in ledger.owner && ledger.owner[old(header)] == Lost
    {
      hide Owned, Inv, Contents;
      if active || !setup { return false; }
      SwapHeader(memory, bytes);
      if header == null { return false; }
      assert |Abs().processing| == |processing|;
      Activate();
      if processing != [] { SetPending(true); }
      started := true;
    }

    method TakeTransport() returns (b: PouchBuf)
      requires Inv() && transport != []
      modifies this`transport, this`ledger
      ensures SameStreams()
      ensures Inv() && b == old(transport)[0] && transport == old(transport)[1..]
      ensures b in old(ledger).owner && ledger.owner == old(ledger).owner[b := Held]
    {
      hide Owned;
      b := transport[0];
      ledger := Fetched(ledger);
      transport := transport[1..];
    }

    method InstallReader(b: PouchBuf)
      requires Inv() && b in ledger.owner && ledger.owner[b] == Held && reader.buf == null
      modifies this`reader, this`ledger
      ensures SameStreams()
      ensures Inv() && reader == BufView(b, 0) && ledger.owner == old(ledger).owner[b := Reading]
    {
      hide Owned;
      ledger := Given(ledger, b, Reading);
      reader := BufView(b, 0);
    }

    method TakeReader() returns (b: PouchBuf)
      requires Inv() && reader.buf != null
      modifies this`reader, this`ledger
      ensures SameStreams()
      ensures Inv() && b == old(reader.buf) && reader == BufView(null, 0)
      ensures b in old(ledger).owner && ledger.owner == old(ledger).owner[b := Held]
    {
      hide Owned;
      b := reader.buf;
      ledger := ReadingTaken(ledger);
      reader := BufView(null, 0);
    }

    // pouch_bufview_free
    method FreeReader()
      requires Inv()
      modifies this`reader, this`ledger, this`bufs
      ensures SameStreams()
      ensures Inv() && reader == BufView(null, 0)
      ensures ledger.owner.Keys == old(ledger).owner.Keys - (if old(reader.buf) == null then {} else {old(reader.buf)})
      ensures forall b | b in ledger.owner :: ledger.owner[b] == old(ledger).owner[b]
    {
      hide Owned, Inv;
      if reader.buf != null {
        var b := TakeReader();
        Free(b);
      } else {
        ResetReader();
      }
    }

    method ResetReader()
      requires Inv() && reader.buf == null
      modifies this`reader
      ensures Inv() && reader == BufView(null, 0)
    {
      hide Owned;
      reader := BufView(null, 0);
    }
  
    ghost predicate WellRead()
      reads this, reader.buf
    {
      reader.buf != null ==> reader.buf.Valid() && reader.offset < reader.buf.bytes
    }

    // The next buffer of the transport queue becomes the one that is read; an empty one is freed
    method FetchNext() returns (got: bool)
      requires Inv() && Readable() && reader.buf == null
      modifies this`transport, this`reader, this`ledger, this`bufs
      ensures SameStreams()
      ensures Inv() && Readable() && WellRead()
      ensures got == (old(transport) != [])
      ensures !got ==> transport == [] && reader.buf == null
      ensures got ==> transport == old(transport)[1..]
      ensures got ==> old(transport)[0].Valid() && AbsReader()
                      == (if old(transport)[0].Contents() == [] then Uplink.NoReader
                          else Uplink.Reading(old(transport)[0].Contents(), 0))
      ensures ledger.owner.Keys <= old(ledger).owner.Keys && Settles()
    {
      hide Owned, Inv;
      if transport == [] { return false; }
      var b := TakeTransport();
      InstallReader(b);
      if b.bytes == 0 { FreeReader(); }
      got := true;
    }
  
    // The memcpy of pouch_bufview_memcpy
    method CopyOut(dst: array<byte>, len: nat, k: nat)
      requires Inv() && Readable() && reader.buf != null && reader.offset + k <= reader.buf.bytes
      requires len + k <= dst.Length && forall b | b in ledger.owner :: b.data != dst
      modifies dst
      ensures Inv() && Readable() && dst[..len] == old(dst[..len])
      ensures dst[len..len + k] == old(reader.buf.Contents())[old(reader.offset)..old(reader.offset) + k]
    {
      hide Owned, Contents;
      QueueApart(dst);
      ghost var from, to := reader.offset, reader.offset + k;
      assert reader.buf.Contents()[from..to] == reader.buf.data[from..to];
      CopyBytes(dst, len, reader.buf.data, reader.offset, k);
    }

    method AdvanceReader(k: nat)
      requires Inv() && reader.buf != null
      modifies this`reader
      ensures Inv() && reader == BufView(old(reader.buf), old(reader.offset) + k)
    {
      hide Owned;
      reader := reader.(offset := reader.offset + k);
    }

    // pouch_bufview_memcpy into what is left of dst; a drained buffer is freed
    method CopySome(dst: array<byte>, len: nat, max: nat) returns (k: nat)
      requires Inv() && Readable() && WellRead() && reader.buf != null && len < max <= dst.Length
      requires forall b | b in ledger.owner :: b.data != dst
      modifies this`reader, this`ledger, this`bufs, dst
      ensures SameStreams()
      ensures Inv() && Readable() && WellRead()
      ensures k == Min(max - len, old(reader.buf.bytes - reader.offset)) >= 1
      ensures dst[..len] == old(dst[..len])
      ensures dst[len..len + k] == old(reader.buf.Contents())[old(reader.offset)..old(reader.offset) + k]
      ensures if old(reader.offset) + k == old(reader.buf.bytes) then reader.buf == null
              else reader == BufView(old(reader.buf), old(reader.offset) + k)
      ensures ledger.owner.Keys <= old(ledger).owner.Keys && Settles()
    {
      hide Owned, Inv;
      k := Min(max - len, reader.buf.bytes - reader.offset);
      CopyOut(dst, len, k);
      AdvanceReader(k);
      if reader.offset == reader.buf.bytes { FreeReader(); }
    }
  
    method FetchTurn(ghost whole: Uplink.Filled, ghost out: Bytes, ghost n: nat) returns (got: bool)
      requires Inv() && Readable() && reader.buf == null && 0 < n
      requires Uplink.FillGoesOn(whole, out, AbsReader(), Contents(transport), n)
      modifies this`transport, this`reader, this`ledger, this`bufs
      ensures SameStreams()
      ensures Inv() && Readable() && WellRead() && ledger.owner.Keys <= old(ledger).owner.Keys && Settles()
      ensures Uplink.FillGoesOn(whole, out, AbsReader(), Contents(transport), n)
      ensures if got then |transport| == |old(transport)| - 1 else reader.buf == null && transport == []
    {
      hide Owned, Inv, Contents, Uplink.FillGoesOn;
      ghost var before := Contents(transport);
      if transport != [] {
        ContentsTail(transport);
        Uplink.FillFetches(whole, out, before, n);
      }
      got := FetchNext();
      if got {
        assert Contents(transport) == before[1..];
      } else {
        assert Contents(transport) == before;
      }
    }

    method CopyTurn(dst: array<byte>, len: nat, max: nat, ghost whole: Uplink.Filled) returns (len': nat)
      requires Inv() && Readable() && WellRead() && reader.buf != null && len < max <= dst.Length
      requires forall b | b in ledger.owner :: b.data != dst
      requires Uplink.FillGoesOn(whole, dst[..len], AbsReader(), Contents(transport), max - len)
      modifies this`reader, this`ledger, this`bufs, dst
      ensures SameStreams()
      ensures Inv() && Readable() && WellRead() && len < len' <= max
      ensures ledger.owner.Keys <= old(ledger).owner.Keys && Settles()
      ensures Uplink.FillGoesOn(whole, dst[..len'], AbsReader(), Contents(transport), max - len')
    {
      hide Owned, Inv, Contents, Uplink.FillGoesOn;
      QueueApart(dst);
      Uplink.FillCopies(whole, dst[..len], AbsReader(), Contents(transport), max - len);
      ghost var before, r := Contents(transport), AbsReader();
      var k := CopySome(dst, len, max);
      len' := len + k;
      assert dst[..len'] == dst[..len] + dst[len..len'];
      assert dst[len..len'] == r.buf[r.offset..r.offset + k];
      assert Contents(transport) == before;
      assert AbsReader() == if r.offset + k == |r.buf| then Uplink.NoReader else r.(offset := r.offset + k);
    }

    lemma QueueApart(dst: array<byte>)
      requires Inv() && forall b | b in ledger.owner :: b.data != dst
      ensures forall i | 0 <= i < |transport| :: transport[i].data != dst
      ensures forall i | 0 <= i < |processing| :: processing[i].data != dst
      ensures reader.buf != null ==> reader.buf.data != dst
      ensures header != null ==> header.data != dst
    {
      Pointers(ledger);
    }

    // One turn of the loop of pouch_uplink_fill
    method FillTurn(dst: array<byte>, len: nat, max: nat, ghost whole: Uplink.Filled)
      returns (len': nat, drained: bool)
      requires Inv() && Readable() && WellRead() && len < max <= dst.Length
      requires forall b | b in ledger.owner :: b.data != dst
      requires Uplink.FillGoesOn(whole, dst[..len], AbsReader(), Contents(transport), max - len)
      modifies this`reader, this`transport, this`ledger, this`bufs, dst
      ensures SameStreams()
      ensures Inv() && Readable() && WellRead() && len <= len' <= max
      ensures ledger.owner.Keys <= old(ledger).owner.Keys && Settles()
      ensures Uplink.FillGoesOn(whole, dst[..len'], AbsReader(), Contents(transport), max - len')
      ensures drained ==> reader.buf == null && transport == []
      ensures !drained ==> (len < len' && |transport| <= |old(transport)|) || |transport| < |old(transport)|
    {
      hide Owned, Inv, Contents, Uplink.FillGoesOn;
      len', drained := len, false;
      if reader.buf == null {
        var got := FetchTurn(whole, dst[..len], max - len);
        drained := !got;
      }
      if reader.buf != null {
        len' := CopyTurn(dst, len, max, whole);
      }
    }
  
    method FillLoop(dst: array<byte>, max: nat) returns (len: nat)
      requires Inv() && Readable() && WellRead() && max <= dst.Length
      requires forall b | b in ledger.owner :: b.data != dst
      modifies this`reader, this`transport, this`ledger, this`bufs, dst
      ensures ledger.owner.Keys <= old(ledger).owner.Keys
      ensures SameStreams()
      ensures Inv() && Readable() && WellRead() && len <= max && Settles()
      ensures Uplink.FillLoop(old(AbsReader()), old(Contents(transport)), max)
              == Uplink.Filled(AbsReader(), Contents(transport), dst[..len])
    {
      hide Owned, Inv, Contents, Uplink.FillLoop, Uplink.FillGoesOn;
      len := 0;
      var drained := false;
      ghost var whole := Uplink.FillLoop(AbsReader(), Contents(transport), max);
      Uplink.FillBegins(AbsReader(), Contents(transport), max);
      while len < max && !drained
        invariant Inv() && Readable() && WellRead() && len <= max && Settles() && SameStreams()
        invariant ledger.owner.Keys <= old(ledger).owner.Keys
        invariant forall b | b in ledger.owner :: b.data != dst
        invariant Uplink.FillGoesOn(whole, dst[..len], AbsReader(), Contents(transport), max - len)
        invariant drained ==> reader.buf == null && transport == []
        decreases |transport| + max - len, !drained
      {
        len, drained := FillTurn(dst, len, max, whole);
      }
      Uplink.FillEnds(whole, dst[..len], AbsReader(), Contents(transport), max - len);
    }

    method Deactivate()
      requires Inv() && Readable()
      modifies this`active, this`events
      ensures Inv() && Readable()
      ensures Abs() == old(Abs()).(active := false, events := old(events) + [Uplink.SessionEnd])
    {
      hide Owned, Inv, Contents;
      SetActive(false, Uplink.SessionEnd);
    }

    // pouch_uplink_fill
    method FillUplink(dst: array<byte>, max: nat) returns (len: nat, result: Uplink.PouchResult)
      requires Inv() && Readable() && WellRead() && max <= dst.Length
      requires forall b | b in ledger.owner :: b.data != dst
      modifies this`reader, this`transport, this`ledger, this`bufs, this`active, this`events, dst
      ensures ledger.owner.Keys <= old(ledger).owner.Keys
      ensures SameStreams()
      ensures Inv() && Readable() && WellRead() && len <= max && Settles()
      ensures var f := Uplink.Fill(old(Abs()), max);
              Abs() == f.state && result == f.result && dst[..len] == f.out
    {
      hide Owned, Inv, Contents, Uplink.FillLoop;
      if !active { return 0, Uplink.Error; }
      QueueApart(dst);
      ghost var u := Abs();
      len := FillLoop(dst, max);
      assert Abs() == u.(reader := AbsReader(), transport := Contents(transport));
      assert |Contents(transport)| == |transport|;
      if !closed || reader.buf != null || transport != [] {
        result := Uplink.MoreData;
      } else {
        Deactivate();
        result := Uplink.NoMoreData;
      }
    }
  
    // What is still owned has the owner it had
    twostate predicate OnlyFrees()
      reads this
    {
      forall b | b in ledger.owner :: b in old(ledger.owner) && ledger.owner[b] == old(ledger.owner)[b]
    }

    method FreeTransport()
      requires Inv() && Readable()
      modifies this`transport, this`ledger, this`bufs
      ensures SameStreams()
      ensures Inv() && Readable() && transport == [] && OnlyFrees()
      ensures Abs() == old(Abs()).(transport := [])
    {
      hide Owned, Inv, Contents;
      while transport != []
        invariant Inv() && Readable() && OnlyFrees() && SameStreams()
        decreases |transport|
      {
        var b := TakeTransport();
        Free(b);
      }
      assert |Contents(transport)| == 0;
    }

    method DropHeader()
      requires Inv()
      modifies this`header, this`ledger, this`bufs
      ensures Inv() && header == null && OnlyFrees() && SameStreams()
    {
      hide Owned, Inv;
      if header != null {
        var b := TakeHeader();
        Free(b);
      }
    }

    method FreeHeader()
      requires Inv() && Readable()
      modifies this`header, this`ledger, this`bufs
      ensures Inv() && Readable() && header == null && OnlyFrees() && SameStreams()
      ensures Abs() == old(Abs()).(header := None)
    {
      hide Owned, Inv, Contents, OnlyFrees, SameStreams;
      DropHeader();
    }

    method ResetFlags(next: nat)
      requires Inv()
      modifies this`id, this`closing, this`closed
      ensures Inv() && id == next && !closing && !closed
    {
      hide Owned;
      id, closing, closed := next, false, false;
    }

    method NextSession()
      requires Inv() && Readable()
      modifies this`id, this`closing, this`closed
      ensures Inv() && Readable()
      ensures Abs() == old(Abs()).(id := Uplink.NextId(old(id)), closing := false, closed := false)
    {
      hide Owned, Inv, Contents;
      ResetFlags(Uplink.NextId(id));
    }

    method FreeSession()
      requires Inv() && Readable()
      modifies this`transport, this`reader, this`header, this`ledger, this`bufs
      ensures Inv() && Readable() && SameStreams() && OnlyFrees()
      ensures header == null && transport == [] && reader.buf == null
      ensures Abs() == old(Abs()).(transport := [], reader := Uplink.NoReader, header := None)
    {
      hide Owned, Inv, Contents;
      FreeTransport();
      FreeReader();
      FreeHeader();
    }

    // pouch_uplink_finish: everything of the session is freed, and nothing else
    method FinishUplink()
      requires Inv() && Readable()
      modifies this`transport, this`reader, this`header, this`ledger, this`bufs
      modifies this`id, this`active, this`closing, this`closed, this`events
      ensures Inv() && Readable() && SameStreams() && OnlyFrees()
      ensures header == null && transport == [] && reader.buf == null
      ensures Abs() == Uplink.Finish(old(Abs()))
    {
      hide Owned, Inv, Contents;
      FreeSession();
      NextSession();
      if active { Deactivate(); }
      assert events + [] == events;
    }

    // so every call that ends as it should leaves them exact
    twostate lemma CallsKeepExact()
      requires old(Valid()) && old(NothingLost()) && Inv()
      requires Settles() || OnlyFrees() || (NoneKept() && NothingLost())
      ensures Valid() && NothingLost() && bufs == Ownership.Count(ledger.books)
    {
      CountersExact();
    }

    // The counters are exact, between calls: the number of live buffers is that of the pointers the
    // device keeps, and the stream counter never passes the limit
    lemma CountersExact()
      requires Valid() && NothingLost()
      ensures bufs == Ownership.Count(ledger.books)
      ensures ledger.books == Books(header, processing, transport, reader.buf, block, ledger.books.streams)
      ensures openStreams == |ledger.books.streams| <= 126
    {
      LiveCount(ledger);
    }

    // ---- whole runs

    // What holds between the calls: every live buffer has an owner that points to it, the reader is
    // inside its buffer, and the transport's destination is nobody's buffer
    ghost predicate Tidy(dst: array<byte>)
      reads this, reader.buf, ledger.owner.Keys, ledger.books.streams.Keys
    {
      Valid() && NothingLost() && WellRead() && forall b | b in ledger.owner :: b.data != dst
    }

    twostate predicate OnlyNewStreams()
      reads this
    {
      forall s | s in ledger.books.streams :: s in old(ledger).books.streams || fresh(s)
    }

    twostate lemma StreamsGrow(new s: StreamObj?)
      requires s == null ==> ledger == old(ledger)
      requires s != null ==> fresh(s) && ledger.books.streams.Keys == old(ledger).books.streams.Keys + {s}
      ensures OnlyNewStreams() && (s != null ==> s !in old(ledger).books.streams)
    {
    }

    twostate lemma FewerStreams()
      requires ledger.books.streams.Keys <= old(ledger).books.streams.Keys
      ensures OnlyNewStreams()
    {
    }

    twostate lemma NothingNew()
      requires ledger == old(ledger)
      ensures OldOrFresh() && OnlyNewStreams()
    {
    }

    twostate lemma StaysTidy(dst: array<byte>)
      requires old(Tidy(dst)) && Inv() && WellRead() && OldOrFresh()
      requires Settles() || (NoneKept() && NothingLost())
      ensures Tidy(dst)
    {
    }

    twostate lemma ReadKept()
      requires old(WellRead()) && reader == old(reader) && (reader.buf != null ==> unchanged(reader.buf))
      ensures WellRead()
    {
    }

    twostate lemma ShrinksTidy(dst: array<byte>)
      requires old(Tidy(dst)) && Inv() && WellRead() && Settles() && ledger.owner.Keys <= old(ledger).owner.Keys
      ensures Tidy(dst) && OldOrFresh()
    {
    }

    lemma TidyParts(dst: array<byte>)
      requires Tidy(dst)
      ensures Inv() && Readable() && WellRead() && NothingLost()
      ensures block != null ==> block in ledger.owner && ledger.owner[block] == OpenBlock && reader.buf != block
      ensures block != null ==> block.Valid()
    {
      Pointers(ledger);
    }

    lemma NobodysBytes(dst: array<byte>)
      requires Tidy(dst)
      ensures forall b | b in ledger.owner :: b.data != dst
    {
    }

    lemma HandleParts(s: StreamObj, dst: array<byte>)
      requires Tidy(dst) && s in ledger.books.streams
      ensures s.buf in ledger.owner && ledger.owner[s.buf] == OfStream(s) && reader.buf != s.buf
      ensures BlockSized(s.buf) && s.buf.Valid() && s.buf.data != dst && s.buf.data in ArraysIn(ledger.owner.Keys)
    {
      Pointers(ledger);
      hide Owned;
    }

    lemma HandleApart(s: StreamObj)
      requires Inv() && s.buf in ledger.owner && ledger.owner[s.buf] == OfStream(s)
      ensures SessionIn(ledger.owner.Keys - {s.buf}) && (block != null ==> block in ledger.owner.Keys - {s.buf})
    {
      Pointers(ledger);
      hide Owned;
    }

    // ---- what the calls leave alone

    // The buffers and streams of these sets are as they were
    static twostate predicate Kept(bs: set<PouchBuf>)
      reads bs, ArraysIn(bs)
    {
      forall b | b in bs :: unchanged(b) && unchanged(b.data)
    }

    static twostate predicate KeptStreams(ss: set<StreamObj>)
      reads ss
    {
      forall s | s in ss :: unchanged(s)
    }

    static twostate lemma AreKept(x: Bystanders)
      requires forall b | b in x.bufs :: unchanged(b) && unchanged(b.data)
      requires forall s | s in x.handles.Values :: unchanged(s)
      ensures Kept(x.bufs) && KeptStreams(x.handles.Values)
    {
    }

    // What is read of the session, apart from the processing queue, is among these buffers
    ghost predicate SessionIn(bs: set<PouchBuf>)
      reads this
    {
      && (header != null ==> header in bs) && (reader.buf != null ==> reader.buf in bs)
      && forall i | 0 <= i < |transport| :: transport[i] in bs
    }

    lemma SessionApart(x: PouchBuf?)
      requires Inv() && (x != null && x in ledger.owner ==> ledger.owner[x].OpenBlock? || ledger.owner[x].OfStream?)
      ensures SessionIn(ledger.owner.Keys - One(x))
    {
      Pointers(ledger);
      hide Owned;
    }

    // Blocks were enqueued, perhaps for a close, and nothing else happened to the session
    twostate lemma SessionQueued(bs: set<PouchBuf>, new scheduled: bool, new sent: seq<Bytes>)
      requires old(Readable()) && old(SessionIn(bs)) && Kept(bs)
      requires header == old(header) && reader == old(reader) && transport == old(transport)
      requires active == old(active) && closed == old(closed) && id == old(id) && events == old(events)
      requires Sent(old(Queue(Contents(processing), scheduled)), sent) && (block != null ==> block.Valid())
      ensures Readable() && Abs() == Queued(old(Abs()).(closing := closing, pending := scheduled), sent)
      ensures closing == old(closing) && scheduled == old(pending) ==> Abs() == Queued(old(Abs()), sent)
    {
      SessionKept(bs);
      hide Contents, Kept;
    }

    twostate lemma SessionKept(bs: set<PouchBuf>)
      requires old(Readable()) && old(SessionIn(bs)) && Kept(bs)
      requires header == old(header) && reader == old(reader) && transport == old(transport)
      ensures (header != null ==> header.Valid()) && (reader.buf != null ==> reader.buf.Valid()) && AllValid(transport)
      ensures ContentsOf(header) == old(ContentsOf(header)) && Contents(transport) == old(Contents(transport))
      ensures AbsReader() == old(AbsReader())
    {
    }

    lemma AbsFields()
      requires Readable()
      ensures Abs().closing == closing && Abs().pending == pending && Abs().id == id
      ensures Abs().header == ContentsOf(header)
    {
      hide Contents;
    }

    // The handles are these streams
    ghost predicate HandlesAt(streams: map<nat, Stream.Stream>, handles: map<nat, StreamObj>)
      reads handles.Values, BufsOf(handles), ArraysIn(BufsOf(handles))
    {
      && handles.Keys == streams.Keys
      && forall k | k in handles :: handles[k].buf.Valid() && handles[k].Abs() == streams[k]
    }

    twostate lemma HandlesKept(x: Bystanders, new streams: map<nat, Stream.Stream>)
      requires old(HandlesAt(streams, x.handles)) && old(BufsOf(x.handles)) <= x.bufs
      requires Kept(x.bufs) && KeptStreams(x.handles.Values)
      ensures HandlesAt(streams, x.handles)
    {
      forall k | k in x.handles ensures x.handles[k].buf.Valid() && x.handles[k].Abs() == streams[k] {
        assert x.handles[k] in x.handles.Values;
        assert x.handles[k].buf in old(BufsOf(x.handles));
      }
    }

    lemma HandlesApart(x: PouchBuf?, handles: map<nat, StreamObj>)
      requires Inv() && HoldsOpen(handles, ledger.books.streams.Keys)
      requires x != null && x in ledger.owner ==> forall k | k in handles :: ledger.owner[x] != OfStream(handles[k])
      ensures BufsOf(handles) <= ledger.owner.Keys - One(x)
    {
      Pointers(ledger);
      hide Owned;
      assert forall k | k in handles :: handles[k] in handles.Values;
    }

    // The device holds what v says, and handles are its open streams
    ghost predicate Shows(v: View, handles: map<nat, StreamObj>)
      reads this, header, reader.buf, block, processing, transport
      reads DataOf(header), DataOf(reader.buf), DataOf(block), DatasOf(processing), DatasOf(transport)
      reads handles.Values, BufsOf(handles), ArraysIn(BufsOf(handles))
    {
      && Fitting(p, v) && Readable() && Abs() == v.u && AbsEntry() == v.entry
      && streamCounter == Stream.CounterAt(v.drawn)
      && HoldsOpen(handles, ledger.books.streams.Keys) && HandlesAt(v.streams, handles)
    }

    lemma ShowsParts(v: View, handles: map<nat, StreamObj>)
      requires Shows(v, handles)
      ensures Fitting(p, v) && Readable() && Abs() == v.u && AbsEntry() == v.entry
      ensures streamCounter == Stream.CounterAt(v.drawn)
      ensures HoldsOpen(handles, ledger.books.streams.Keys) && HandlesAt(v.streams, handles)
    {
    }

    lemma ShowsNames(v: View, handles: map<nat, StreamObj>)
      requires Shows(v, handles)
      ensures Fitting(p, v) && handles.Keys == v.streams.Keys
    {
      hide Contents, HoldsOpen, Fitting, Abs, AbsEntry;
    }

    lemma ShowsWhole(v: View, handles: map<nat, StreamObj>)
      requires Fitting(p, v) && Readable() && Abs() == v.u && AbsEntry() == v.entry
      requires streamCounter == Stream.CounterAt(v.drawn)
      requires HoldsOpen(handles, ledger.books.streams.Keys) && HandlesAt(v.streams, handles)
      ensures Shows(v, handles)
    {
    }

    lemma Others(x: PouchBuf?)
      requires Inv() && (x != null ==> x in ledger.owner)
      ensures forall b | b in ledger.owner.Keys - One(x) :: b != x && b.data !in DataOf(x)
    {
      if x != null {
        forall b | b in ledger.owner.Keys - One(x) ensures b.data != x.data { Separate(ledger, b, x); }
      }
    }

    // The entry block is as it was
    twostate lemma EntryKept(bs: set<PouchBuf>)
      requires block == old(block) && (block != null ==> block in bs && old(block.Valid())) && Kept(bs)
      ensures block != null ==> block.Valid()
      ensures AbsEntry() == old(AbsEntry())
    {
    }

    // The open block has its bytes to itself
    lemma BlockAlone(v: View, handles: map<nat, StreamObj>, dst: array<byte>)
      requires Tidy(dst) && Shows(v, handles)
      ensures Inv() && Readable() && WellRead() && AbsEntry() == v.entry
      ensures v.u.closing == closing && v.u.pending == pending
      ensures v.entry.Some? ==> HEADER_SIZE <= |v.entry.value|
      ensures block != null ==> reader.buf != block && block.Valid()
      ensures var bs := ledger.owner.Keys - One(block);
              && SessionIn(bs) && BufsOf(handles) <= bs
              && forall b | b in bs :: b != block && b.data !in DataOf(block)
    {
      hide Owned, Inv, Tidy, Contents, HandlesAt, SessionIn;
      TidyParts(dst);
      SessionApart(block);
      HandlesApart(block, handles);
      Others(block);
      AbsFields();
    }

    // Blocks were enqueued, and nothing else happened to what the bystanders hold
    twostate lemma QueuedShows(x: Bystanders, new streams: map<nat, Stream.Stream>, new scheduled: bool,
                               new sent: seq<Bytes>)
      requires old(Readable()) && old(SessionIn(x.bufs)) && old(BufsOf(x.handles)) <= x.bufs
      requires old(HandlesAt(streams, x.handles)) && Kept(x.bufs) && KeptStreams(x.handles.Values)
      requires header == old(header) && reader == old(reader) && transport == old(transport)
      requires active == old(active) && closed == old(closed) && id == old(id) && events == old(events)
      requires Sent(old(Queue(Contents(processing), scheduled)), sent) && (block != null ==> block.Valid())
      ensures Readable() && Abs() == Queued(old(Abs()).(closing := closing, pending := scheduled), sent)
      ensures HandlesAt(streams, x.handles)
    {
      hide Kept, KeptStreams, SessionIn, HandlesAt, Contents, Sent, Abs, HoldsOpen, Readable;
      SessionQueued(x.bufs, scheduled, sent);
      HandlesKept(x, streams);
    }

    // A stream call leaves the entry block too
    twostate lemma StreamQueuedShows(x: Bystanders, new streams: map<nat, Stream.Stream>, new sent: seq<Bytes>)
      requires old(Readable()) && old(SessionIn(x.bufs)) && old(BufsOf(x.handles)) <= x.bufs
      requires old(HandlesAt(streams, x.handles)) && Kept(x.bufs) && KeptStreams(x.handles.Values)
      requires header == old(header) && reader == old(reader) && transport == old(transport) && block == old(block)
      requires active == old(active) && closed == old(closed) && id == old(id) && events == old(events)
      requires closing == old(closing) && (block != null ==> block in x.bufs && old(block.Valid()))
      requires Sent(old(Queue(Contents(processing), pending)), sent)
      ensures Readable() && Abs() == Queued(old(Abs()), sent) && AbsEntry() == old(AbsEntry())
      ensures HandlesAt(streams, x.handles)
    {
      hide Kept, KeptStreams, SessionIn, HandlesAt, Contents, Sent, Abs, AbsEntry, HoldsOpen, Readable;
      EntryKept(x.bufs);
      SessionQueued(x.bufs, old(pending), sent);
      HandlesKept(x, streams);
    }

    method EntryTidy(e: Entry.Entry, luck: Entry.Luck, dst: array<byte>, ghost x: Bystanders)
      requires Tidy(dst) && Inv() && Readable() && WellRead() && (block != null ==> reader.buf != block)
      requires forall b | b in x.bufs :: b != block && b.data !in DataOf(block)
      modifies this`block, this`bufs, this`ledger, this`processing, this`pending, block, DataOf(block)
      ensures Tidy(dst) && SameStreams() && OldOrFresh() && Kept(x.bufs) && KeptStreams(x.handles.Values)
      ensures Entry.BlockFits(p, old(AbsEntry())) && (block != null ==> block.Valid())
      ensures var r := Entry.Write(p, old(AbsEntry()), e, luck);
              AbsEntry() == r.open && Sent(old(Queue(Contents(processing), pending)), r.sent)
    {
      hide Owned, Inv, Settled, Sent, Entry.Write, Entry.BlockFits, Tidy, OldOrFresh, AbsEntry, Contents;
      hide Kept, KeptStreams, Readable, WellRead, SameStreams;
      var err := EntryWrite(e, luck);
      ReadKept();
      AreKept(x);
      StaysTidy(dst);
    }

    method RunEntryWrite(e: Entry.Entry, luck: Entry.Luck, dst: array<byte>,
                         ghost v: View, ghost handles: map<nat, StreamObj>)
      requires Tidy(dst) && Shows(v, handles)
      modifies this`block, this`bufs, this`ledger, this`processing, this`pending, block, DataOf(block)
      ensures Tidy(dst) && SameStreams() && OldOrFresh()
      ensures Shows(Next(p, v, DoEntryWrite(e, luck)), handles)
    {
      hide Owned, Inv, Sent, Entry.Write, Entry.BlockFits, Tidy, OldOrFresh, Contents;
      hide Kept, KeptStreams, HandlesAt, SessionIn, Abs, AbsEntry, Readable, WellRead, Fitting, HoldsOpen;
      ghost var x := Bystanders(ledger.owner.Keys - One(block), handles);
      BlockAlone(v, handles, dst);
      EntryTidy(e, luck, dst, x);
      QueuedShows(x, v.streams, old(pending), Entry.Write(p, v.entry, e, luck).sent);
      NextFits(p, v, DoEntryWrite(e, luck));
      ShowsWhole(Next(p, v, DoEntryWrite(e, luck)), handles);
    }

    method CloseUpTidy(lock: bool, dst: array<byte>, ghost x: Bystanders)
      requires Tidy(dst) && Inv() && Readable() && WellRead() && (block != null ==> reader.buf != block)
      requires forall b | b in x.bufs :: b != block && b.data !in DataOf(block)
      modifies this`closing, this`pending, this`block, this`ledger, this`processing, block, DataOf(block)
      ensures Tidy(dst) && SameStreams() && OldOrFresh() && Kept(x.bufs) && KeptStreams(x.handles.Values)
      ensures Entry.BlockFits(p, old(AbsEntry())) && (block != null ==> block.Valid()) && closing
      ensures if old(closing) then AbsEntry() == old(AbsEntry()) && Sent(old(Queue(Contents(processing), pending)), [])
              else var r := Entry.Close(old(AbsEntry()), lock);
                   AbsEntry() == r.open && Sent(Queue(old(Contents(processing)), true), r.sent)
    {
      hide Owned, Inv, Settled, Sent, Entry.Close, Entry.BlockFits, Tidy, OldOrFresh, AbsEntry, Contents;
      hide Kept, KeptStreams, Readable, WellRead, SameStreams;
      var ok := CloseUplink(lock);
      ReadKept();
      AreKept(x);
      ShrinksTidy(dst);
    }

    method RunClose(lock: bool, dst: array<byte>, ghost v: View, ghost handles: map<nat, StreamObj>)
      requires Tidy(dst) && Shows(v, handles)
      modifies this`closing, this`pending, this`block, this`ledger, this`processing, block, DataOf(block)
      ensures Tidy(dst) && OldOrFresh() && SameStreams()
      ensures Shows(Next(p, v, DoClose(lock)), handles)
    {
      hide Owned, Inv, Sent, Entry.Close, Tidy, OldOrFresh, Contents;
      hide Kept, KeptStreams, HandlesAt, SessionIn, Abs, AbsEntry, Readable, WellRead, Fitting, HoldsOpen;
      ghost var x, was := Bystanders(ledger.owner.Keys - One(block), handles), closing;
      BlockAlone(v, handles, dst);
      CloseUpTidy(lock, dst, x);
      QueuedNone(v.u);
      QueuedShows(x, v.streams, old(pending) || !was, if was then [] else Entry.Close(v.entry, lock).sent);
      NextFits(p, v, DoClose(lock));
      ShowsWhole(Next(p, v, DoClose(lock)), handles);
    }

    method RunWork(dst: array<byte>, ghost v: View, ghost handles: map<nat, StreamObj>)
      requires Tidy(dst) && Shows(v, handles)
      modifies this`processing, this`transport, this`header, this`ledger, this`pending, this`closed
      ensures Tidy(dst) && OldOrFresh() && SameStreams()
      ensures Shows(Next(p, v, DoWork), handles)
    {
      hide Owned, Inv, Settled, Tidy, Contents, Uplink.Work, AbsEntry, Kept, KeptStreams, HandlesAt, Abs;
      hide Shows, Fitting, HoldsOpen, WellRead, Readable;
      ShowsParts(v, handles);
      TidyParts(dst);
      HandlesApart(null, handles);
      ghost var bs := ledger.owner.Keys;
      ProcessBlocks();
      ReadKept();
      AreKept(Bystanders(bs, handles));
      StaysTidy(dst);
      EntryKept(bs);
      HandlesKept(Bystanders(bs, handles), v.streams);
      NextFits(p, v, DoWork);
      ShowsWhole(Next(p, v, DoWork), handles);
    }

    // Only after the last session was finished, so that no header is pending
    method StartTidy(setup: bool, memory: bool, bytes: Option<Bytes>, dst: array<byte>,
                     ghost x: Bystanders)
      requires Tidy(dst) && Readable() && header == null
      requires bytes.Some? ==> |bytes.value| <= PouchHeader.HEADER_MAX_LEN
      modifies this`active, this`header, this`ledger, this`bufs, this`events, this`pending
      ensures Tidy(dst) && OldOrFresh() && SameStreams() && Readable() && Kept(x.bufs) && KeptStreams(x.handles.Values)
      ensures Abs() == Uplink.Start(old(Abs()), setup, if memory then bytes else None, ())
    {
      hide Owned, Inv, Tidy, OldOrFresh, SameStreams, Abs, NoneKept, NothingLost, Kept, KeptStreams, Uplink.Start;
      hide WellRead, Settled, Readable;
      TidyParts(dst);
      var started := StartUplink(setup, memory, bytes);
      ReadKept();
      AreKept(x);
      StaysTidy(dst);
    }

    method RunStart(setup: bool, memory: bool, bytes: Option<Bytes>, dst: array<byte>,
                    ghost v: View, ghost handles: map<nat, StreamObj>)
      requires Tidy(dst) && Shows(v, handles)
      requires header == null && (bytes.Some? ==> |bytes.value| <= PouchHeader.HEADER_MAX_LEN)
      modifies this`active, this`header, this`ledger, this`bufs, this`events, this`pending
      ensures Tidy(dst) && OldOrFresh() && SameStreams()
      ensures Shows(Next(p, v, DoStart(setup, memory, bytes)), handles)
    {
      hide Owned, Inv, Tidy, Abs, Readable, AbsEntry, Kept, KeptStreams, HandlesAt, Uplink.Start, OldOrFresh;
      hide Shows, Fitting, HoldsOpen, WellRead;
      ShowsParts(v, handles);
      TidyParts(dst);
      HandlesApart(null, handles);
      ghost var bs := ledger.owner.Keys;
      StartTidy(setup, memory, bytes, dst, Bystanders(bs, handles));
      EntryKept(bs);
      HandlesKept(Bystanders(bs, handles), v.streams);
      NextFits(p, v, DoStart(setup, memory, bytes));
      ShowsWhole(Next(p, v, DoStart(setup, memory, bytes)), handles);
    }

    method FillTidy(dst: array<byte>, max: nat, ghost x: Bystanders)
      returns (len: nat, result: Uplink.PouchResult)
      requires Tidy(dst) && Readable() && max <= dst.Length && forall b | b in x.bufs :: b.data != dst
      modifies this`reader, this`transport, this`ledger, this`bufs, this`active, this`events, dst
      ensures Tidy(dst) && OldOrFresh() && SameStreams() && Readable() && Kept(x.bufs) && KeptStreams(x.handles.Values)
      ensures var f := Uplink.Fill(old(Abs()), max);
              Abs() == f.state && result == f.result && len <= max && dst[..len] == f.out
    {
      hide Owned, Inv, Settled, Tidy, SameStreams, Abs, WellRead, Readable, Uplink.Fill, OldOrFresh, Kept, KeptStreams;
      hide NothingLost;
      NobodysBytes(dst);
      TidyParts(dst);
      len, result := FillUplink(dst, max);
      AreKept(x);
      ShrinksTidy(dst);
    }

    method RunFill(dst: array<byte>, max: nat, ghost v: View, ghost handles: map<nat, StreamObj>)
      returns (len: nat, result: Uplink.PouchResult)
      requires Tidy(dst) && Shows(v, handles) && max <= dst.Length
      modifies this`reader, this`transport, this`ledger, this`bufs, this`active, this`events, dst
      ensures Tidy(dst) && OldOrFresh() && SameStreams()
      ensures Shows(Next(p, v, DoFill(max)), handles)
      ensures var f := Uplink.Fill(v.u, max); len <= max && dst[..len] == f.out && result == f.result
    {
      hide Owned, Inv, Tidy, Abs, Readable, AbsEntry, Kept, KeptStreams, HandlesAt, Uplink.Fill, OldOrFresh;
      hide Shows, Fitting, HoldsOpen, WellRead;
      NobodysBytes(dst);
      ShowsParts(v, handles);
      TidyParts(dst);
      HandlesApart(null, handles);
      ghost var bs := ledger.owner.Keys;
      len, result := FillTidy(dst, max, Bystanders(bs, handles));
      EntryKept(bs);
      HandlesKept(Bystanders(bs, handles), v.streams);
      NextFits(p, v, DoFill(max));
      ShowsWhole(Next(p, v, DoFill(max)), handles);
    }

    method RunFinish(dst: array<byte>, ghost v: View, ghost handles: map<nat, StreamObj>)
      requires Tidy(dst) && Shows(v, handles)
      modifies this`transport, this`reader, this`header, this`ledger, this`bufs
      modifies this`id, this`active, this`closing, this`closed, this`events
      ensures Tidy(dst) && OldOrFresh() && SameStreams()
      ensures Shows(Next(p, v, DoFinish), handles)
    {
      hide Owned, Inv, Tidy, Abs, AbsEntry, Kept, KeptStreams, HandlesAt, Uplink.Finish;
      TidyParts(dst);
      HandlesApart(null, handles);
      ghost var bs := ledger.owner.Keys;
      FinishUplink();
      AreKept(Bystanders(bs, handles));
      StaysTidy(dst);
      EntryKept(bs);
      HandlesKept(Bystanders(bs, handles), v.streams);
      NextFits(p, v, DoFinish);
    }

    lemma HandlesMore(streams: map<nat, Stream.Stream>, handles: map<nat, StreamObj>, k: nat, s: StreamObj)
      requires HandlesAt(streams, handles) && s.buf.Valid()
      ensures HandlesAt(streams[k := s.Abs()], handles[k := s])
    {
    }

    lemma HandlesLess(streams: map<nat, Stream.Stream>, handles: map<nat, StreamObj>, k: nat)
      requires HandlesAt(streams, handles) && k in handles
      ensures k in streams && handles[k].buf.Valid() && handles[k].Abs() == streams[k]
      ensures HandlesAt(streams - {k}, handles - {k})
    {
    }

    lemma HandlesBack(streams: map<nat, Stream.Stream>, handles: map<nat, StreamObj>, k: nat)
      requires HandlesAt(streams - {k}, handles - {k}) && k in handles && handles[k].buf.Valid()
      ensures HandlesAt(streams[k := handles[k].Abs()], handles)
    {
      assert handles == (handles - {k})[k := handles[k]];
    }

    // The other handles have other buffers
    lemma RestApart(k: nat, handles: map<nat, StreamObj>)
      requires Inv() && HoldsOpen(handles, ledger.books.streams.Keys) && k in handles
      ensures handles[k] in ledger.books.streams && handles[k] !in (handles - {k}).Values
      ensures BufsOf(handles - {k}) <= ledger.owner.Keys - {handles[k].buf}
    {
      Pointers(ledger);
      hide Owned;
      assert forall j | j in handles :: handles[j] in handles.Values;
    }

    // The counters of the two worlds
    lemma OpenCount(v: View, handles: map<nat, StreamObj>)
      requires Shows(v, handles)
      ensures |v.streams| == |ledger.books.streams| && v.drawn !in handles
    {
      InjectiveCount(handles);
      assert |handles| == |handles.Keys| && |v.streams| == |v.streams.Keys|;
      assert |ledger.books.streams| == |ledger.books.streams.Keys|;
    }

    // Nothing happened to the session
    twostate lemma SessionSame(bs: set<PouchBuf>)
      requires old(Readable()) && old(SessionIn(bs)) && (forall i | 0 <= i < |processing| :: processing[i] in bs)
      requires header == old(header) && reader == old(reader) && transport == old(transport) && Kept(bs)
      requires processing == old(processing) && pending == old(pending) && closing == old(closing)
      requires active == old(active) && closed == old(closed) && id == old(id) && events == old(events)
      requires block != null ==> block.Valid()
      ensures Readable() && Abs() == old(Abs())
    {
      assert Sent(old(Queue(Contents(processing), pending)), []) by {
        assert Contents(processing) == old(Contents(processing));
        NothingSent();
      }
      SessionQueued(bs, pending, []);
      hide Contents, Kept;
      assert old(Abs().processing) + [] == old(Abs().processing);
    }

    lemma ProcessingIn()
      requires Inv()
      ensures forall i | 0 <= i < |processing| :: processing[i] in ledger.owner
    {
      Pointers(ledger);
    }

    method OpenTidy(path: Bytes, contentType: nat, stream: bool, block: bool, dst: array<byte>,
                    ghost x: Bystanders) returns (s: StreamObj?)
      requires Tidy(dst) && 3 + |path| <= p
      modifies this`openStreams, this`streamCounter, this`bufs, this`ledger
      ensures Tidy(dst) && OldOrFresh() && OnlyNewStreams() && Kept(x.bufs) && KeptStreams(x.handles.Values)
      ensures s != null <==> |old(ledger).books.streams| < 126 && stream && block
      ensures s == null ==> ledger == old(ledger)
      ensures s != null ==> s.buf.Valid() && s !in old(ledger).books.streams
                            && ledger.books.streams.Keys == old(ledger).books.streams.Keys + {s}
                            && s.Abs() == Stream.Open(Stream.Draw(old(streamCounter)).0, id, path, contentType)
      ensures streamCounter == if |old(ledger).books.streams| < 126 && stream
                               then Stream.Draw(old(streamCounter)).1 else old(streamCounter)
    {
      hide Owned, Inv, Settled, Tidy, OldOrFresh, Stream.Open, Stream.Draw, Kept, KeptStreams, WellRead, Readable;
      hide OnlyNewStreams;
      TidyParts(dst);
      s := StreamOpen(path, contentType, stream, block);
      ReadKept();
      AreKept(x);
      StaysTidy(dst);
      StreamsGrow(s);
    }

    // All the buffers that are read are live ones
    lemma AllStand(v: View, handles: map<nat, StreamObj>, dst: array<byte>)
      requires Tidy(dst) && Shows(v, handles)
      ensures Readable() && v.u.id == id && |v.streams| == |ledger.books.streams| && v.drawn !in handles
      ensures Stream.Draw(streamCounter) == (Stream.IdOf(v.drawn), Stream.CounterAt(v.drawn + 1))
      ensures var bs := ledger.owner.Keys;
              && SessionIn(bs) && BufsOf(handles) <= bs && (block != null ==> block in bs && block.Valid())
              && forall i | 0 <= i < |processing| :: processing[i] in bs
    {
      hide Owned, Inv, Tidy, Contents, HandlesAt, SessionIn, HoldsOpen, Fitting, Abs, Stream.Draw;
      TidyParts(dst);
      ProcessingIn();
      HandlesApart(null, handles);
      SessionApart(null);
      assert ledger.owner.Keys == ledger.owner.Keys - One(null);
      OpenCount(v, handles);
      AbsFields();
      Stream.DrawsInTurn(v.drawn);
    }

    // A call that enqueues nothing
    twostate lemma SameShows(x: Bystanders, new streams: map<nat, Stream.Stream>)
      requires old(Readable()) && old(SessionIn(x.bufs)) && old(BufsOf(x.handles)) <= x.bufs
      requires old(HandlesAt(streams, x.handles)) && Kept(x.bufs) && KeptStreams(x.handles.Values)
      requires header == old(header) && reader == old(reader) && transport == old(transport) && block == old(block)
      requires active == old(active) && closed == old(closed) && id == old(id) && events == old(events)
      requires closing == old(closing) && (block != null ==> block in x.bufs && old(block.Valid()))
      requires processing == old(processing) && pending == old(pending)
      requires forall i | 0 <= i < |processing| :: processing[i] in x.bufs
      ensures Readable() && Abs() == old(Abs()) && AbsEntry() == old(AbsEntry()) && HandlesAt(streams, x.handles)
    {
      hide Kept, KeptStreams, SessionIn, HandlesAt, Contents, Abs, AbsEntry, Readable;
      EntryKept(x.bufs);
      SessionSame(x.bufs);
      HandlesKept(x, streams);
    }

    method OpenShows(path: Bytes, contentType: nat, stream: bool, block: bool, dst: array<byte>,
                     ghost v: View, ghost handles: map<nat, StreamObj>) returns (s: StreamObj?)
      requires Tidy(dst) && Shows(v, handles) && 3 + |path| <= p
      modifies this`openStreams, this`streamCounter, this`bufs, this`ledger
      ensures Tidy(dst) && OldOrFresh() && OnlyNewStreams()
      ensures Readable() && Abs() == v.u && AbsEntry() == v.entry && HandlesAt(v.streams, handles)
      ensures s != null <==> |v.streams| < 126 && stream && block
      ensures s == null ==> ledger == old(ledger)
      ensures s != null ==> s.buf.Valid() && s.Abs() == Stream.Open(Stream.IdOf(v.drawn), v.u.id, path, contentType)
                            && s !in old(ledger).books.streams
                            && ledger.books.streams.Keys == old(ledger).books.streams.Keys + {s}
      ensures streamCounter == if |v.streams| < 126 && stream then Stream.CounterAt(v.drawn + 1)
                               else old(streamCounter)
    {
      hide Owned, Inv, Settled, Tidy, OldOrFresh, Stream.Open, Stream.Draw, Stream.CounterAt, Stream.IdOf;
      hide Kept, KeptStreams, HandlesAt, SessionIn, Abs, AbsEntry, OnlyNewStreams, Readable, HoldsOpen, Fitting;
      ghost var x := Bystanders(ledger.owner.Keys, handles);
      AllStand(v, handles, dst);
      s := OpenTidy(path, contentType, stream, block, dst, x);
      SameShows(x, v.streams);
    }

    // drawn: how many stream ids were taken
    method RunStreamOpen(path: Bytes, contentType: nat, stream: bool, block: bool, dst: array<byte>,
                         ghost v: View, handles: map<nat, StreamObj>, drawn: nat)
      returns (handles': map<nat, StreamObj>, drawn': nat)
      requires Tidy(dst) && Shows(v, handles) && drawn == v.drawn && 3 + |path| <= p
      modifies this`openStreams, this`streamCounter, this`bufs, this`ledger
      ensures Tidy(dst) && OldOrFresh() && OnlyNewStreams()
      ensures var v' := Next(p, v, DoStreamOpen(path, contentType, stream, block));
              Shows(v', handles') && drawn' == v'.drawn
    {
      hide Owned, Inv, Tidy, OldOrFresh, Stream.Open, Stream.CounterAt, Stream.IdOf, Next;
      hide HandlesAt, Abs, AbsEntry, OnlyNewStreams, Readable, HoldsOpen, Fitting;
      NextOpen(p, v, path, contentType, stream, block);
      NextFits(p, v, DoStreamOpen(path, contentType, stream, block));
      OpenCount(v, handles);
      CounterMoves(drawn);
      var before := streamCounter;
      var s := OpenShows(path, contentType, stream, block, dst, v, handles);
      drawn' := if streamCounter == before then drawn else drawn + 1;
      handles' := handles;
      if s != null {
        HandlesMore(v.streams, handles, drawn, s);
        HoldsMore(handles, old(ledger).books.streams.Keys, drawn, s);
        handles' := handles[drawn := s];
      }
      ShowsWhole(Next(p, v, DoStreamOpen(path, contentType, stream, block)), handles');
    }

    method WriteTidy(s: StreamObj, data: Bytes, budget: nat, dst: array<byte>,
                     ghost x: Bystanders)
      requires Tidy(dst) && s in ledger.books.streams && s.buf.Valid() && Readable()
      requires s !in x.handles.Values && forall b | b in x.bufs :: b != s.buf && b.data != s.buf.data
      modifies this`bufs, this`ledger, this`processing, this`pending, s, s.buf, s.buf.data
      ensures Tidy(dst) && OldOrFresh() && Kept(x.bufs) && KeptStreams(x.handles.Values)
      ensures ledger.books.streams.Keys == old(ledger).books.streams.Keys
      ensures s.buf.Valid() && Stream.Fits(p, old(s.Abs()))
      ensures var r := Stream.Write(p, old(s.Abs()), id, data, budget);
              s.Abs() == r.stream && Sent(old(Queue(Contents(processing), pending)), r.sent)
    {
      hide Owned, Inv, Settled, Tidy, OldOrFresh, Sent, Stream.Write, Stream.Fits, Kept, KeptStreams;
      hide WellRead, Readable, SessionIn, Contents;
      TidyParts(dst);
      HandleParts(s, dst);
      var written := StreamWrite(s, data, budget);
      ReadKept();
      AreKept(x);
      StaysTidy(dst);
    }

    method CloseTidy(s: StreamObj, dst: array<byte>, ghost x: Bystanders)
      requires Tidy(dst) && s in ledger.books.streams && s.buf.Valid() && Readable()
      requires forall b | b in x.bufs :: b != s.buf && b.data != s.buf.data
      modifies this`bufs, this`openStreams, this`ledger, this`processing, this`pending, s.buf, s.buf.data
      ensures Tidy(dst) && OldOrFresh() && Kept(x.bufs) && KeptStreams(x.handles.Values)
      ensures ledger.books.streams == old(ledger).books.streams - {s} && HEADER_SIZE <= |old(s.buf.Contents())|
      ensures Sent(old(Queue(Contents(processing), pending)), Stream.Close(old(s.Abs()), id))
    {
      hide Owned, Inv, Settled, Tidy, OldOrFresh, Sent, Stream.Close, Kept, KeptStreams;
      hide WellRead, Readable, SessionIn, Contents;
      TidyParts(dst);
      HandleParts(s, dst);
      StreamClose(s);
      ReadKept();
      AreKept(x);
      ShrinksTidy(dst);
    }

    // An open stream has its buffer to itself
    lemma StreamAlone(v: View, handles: map<nat, StreamObj>, k: nat, dst: array<byte>)
      requires Tidy(dst) && Shows(v, handles) && k in handles
      ensures Readable() && v.u.id == id && k in v.streams && k in handles
      ensures var s, rest := handles[k], handles - {k};
              var bs := ledger.owner.Keys - {s.buf};
              && s in ledger.books.streams && s.buf.Valid() && s.Abs() == v.streams[k] && s !in rest.Values
              && SessionIn(bs) && BufsOf(rest) <= bs && HandlesAt(v.streams - {k}, rest)
              && HoldsOpen(rest, ledger.books.streams.Keys - {s})
              && (block != null ==> block in bs && block.Valid())
              && forall b | b in bs :: b != s.buf && b.data != s.buf.data
    {
      hide Owned, Inv, Tidy, Contents, HandlesAt, SessionIn, HoldsOpen, Fitting, Abs;
      TidyParts(dst);
      HoldsLess(handles, ledger.books.streams.Keys, k);
      HandleParts(handles[k], dst);
      HandleApart(handles[k]);
      HandlesLess(v.streams, handles, k);
      RestApart(k, handles);
      Others(handles[k].buf);
      AbsFields();
    }

    method WriteShows(k: nat, data: Bytes, budget: nat, dst: array<byte>,
                      ghost v: View, handles: map<nat, StreamObj>)
      requires Tidy(dst) && Shows(v, handles) && k in handles && k in v.streams && Stream.Fits(p, v.streams[k])
      modifies this`bufs, this`ledger, this`processing, this`pending, handles[k], handles[k].buf, handles[k].buf.data
      ensures Tidy(dst) && OldOrFresh() && Readable() && AbsEntry() == v.entry
      ensures ledger.books.streams.Keys == old(ledger).books.streams.Keys
      ensures var r := Stream.Write(p, v.streams[k], v.u.id, data, budget);
              Abs() == Queued(v.u, r.sent) && HandlesAt(v.streams[k := r.stream], handles)
    {
      hide Owned, Inv, Tidy, OldOrFresh, Sent, Stream.Write, Stream.Fits, Stream.CounterAt, Readable;
      hide Kept, KeptStreams, HandlesAt, SessionIn, Abs, AbsEntry, Contents, HoldsOpen, Fitting;
      ghost var x := Bystanders(ledger.owner.Keys - {handles[k].buf}, handles - {k});
      StreamAlone(v, handles, k, dst);
      WriteTidy(handles[k], data, budget, dst, x);
      StreamQueuedShows(x, v.streams - {k}, Stream.Write(p, v.streams[k], v.u.id, data, budget).sent);
      HandlesBack(v.streams, handles, k);
    }

    method RunStreamWrite(k: nat, data: Bytes, budget: nat, dst: array<byte>,
                          ghost v: View, handles: map<nat, StreamObj>)
      requires Tidy(dst) && Shows(v, handles) && k in handles
      modifies this`bufs, this`ledger, this`processing, this`pending, handles[k], handles[k].buf, handles[k].buf.data
      ensures Tidy(dst) && OldOrFresh() && OnlyNewStreams()
      ensures Shows(Next(p, v, DoStreamWrite(k, data, budget)), handles)
    {
      hide Owned, Inv, Tidy, OldOrFresh, Stream.Write, Stream.Fits, Stream.CounterAt, Readable, Next;
      hide HandlesAt, Abs, AbsEntry, HoldsOpen, Fitting, OnlyNewStreams;
      ShowsNames(v, handles);
      FittingStream(p, v, k);
      NextWrite(p, v, k, data, budget);
      NextFits(p, v, DoStreamWrite(k, data, budget));
      WriteShows(k, data, budget, dst, v, handles);
      FewerStreams();
      ShowsWhole(Next(p, v, DoStreamWrite(k, data, budget)), handles);
    }

    method CloseShows(k: nat, dst: array<byte>, ghost v: View, handles: map<nat, StreamObj>)
      requires Tidy(dst) && Shows(v, handles) && k in handles && k in v.streams && Stream.Fits(p, v.streams[k])
      modifies this`bufs, this`openStreams, this`ledger, this`processing, this`pending
      modifies handles[k].buf, handles[k].buf.data
      ensures Tidy(dst) && OldOrFresh() && Readable() && AbsEntry() == v.entry
      ensures ledger.books.streams.Keys == old(ledger).books.streams.Keys - {handles[k]}
      ensures HoldsOpen(handles - {k}, ledger.books.streams.Keys)
      ensures Abs() == Queued(v.u, Stream.Close(v.streams[k], v.u.id)) && HandlesAt(v.streams - {k}, handles - {k})
    {
      hide Owned, Inv, Tidy, OldOrFresh, Sent, Stream.Close, Stream.CounterAt, Readable;
      hide Kept, KeptStreams, HandlesAt, SessionIn, Abs, AbsEntry, Contents, HoldsOpen, Fitting;
      ghost var x := Bystanders(ledger.owner.Keys - {handles[k].buf}, handles - {k});
      StreamAlone(v, handles, k, dst);
      CloseTidy(handles[k], dst, x);
      StreamQueuedShows(x, v.streams - {k}, Stream.Close(v.streams[k], v.u.id));
      assert ledger.books.streams.Keys == old(ledger).books.streams.Keys - {handles[k]};
    }

    method RunStreamClose(k: nat, dst: array<byte>, ghost v: View, handles: map<nat, StreamObj>)
      requires Tidy(dst) && Shows(v, handles) && k in handles
      modifies this`bufs, this`openStreams, this`ledger, this`processing, this`pending
      modifies handles[k].buf, handles[k].buf.data
      ensures Tidy(dst) && OldOrFresh() && OnlyNewStreams()
      ensures Shows(Next(p, v, DoStreamClose(k)), handles - {k})
    {
      hide Owned, Inv, Tidy, OldOrFresh, Stream.Close, Stream.Fits, Stream.CounterAt, Readable, Next;
      hide HandlesAt, Abs, AbsEntry, HoldsOpen, Fitting, OnlyNewStreams;
      ShowsNames(v, handles);
      FittingStream(p, v, k);
      NextClose(p, v, k);
      NextFits(p, v, DoStreamClose(k));
      CloseShows(k, dst, v, handles);
      FewerStreams();
      ShowsWhole(Next(p, v, DoStreamClose(k)), handles - {k});
    }

    // One call of the transport or the work queue, or of the application about entries
    method DoSessionCall(c: Call, dst: array<byte>, ghost v: View, ghost handles: map<nat, StreamObj>)
      returns (asks: seq<Packetizer.Ask>)
      requires Tidy(dst) && Shows(v, handles) && CallOk(c, p, dst.Length) && !OnStream(c)
      requires c.DoStart? ==> header == null
      modifies this, block, DataOf(block), dst
      ensures Tidy(dst) && OldOrFresh() && OnlyNewStreams()
      ensures Shows(Next(p, v, c), handles) && asks == AskOnce(v, c)
    {
      hide Tidy, OldOrFresh, Shows, Next, Uplink.Fill;
      asks := [];
      match c {
        case DoEntryWrite(e, luck) => RunEntryWrite(e, luck, dst, v, handles);
        case DoClose(lock) => RunClose(lock, dst, v, handles);
        case DoWork => RunWork(dst, v, handles);
        case DoStart(setup, memory, bytes) => RunStart(setup, memory, bytes, dst, v, handles);
        case DoFill(max) =>
          ShowsActive(v, handles);
          var running := active;
          var len, result := RunFill(dst, max, v, handles);
          if running { asks := [Packetizer.Ask(max + 1, Pulls.ReplyOf(dst[..len], result))]; }
        case DoFinish => RunFinish(dst, v, handles);
      }
    }

    lemma ShowsActive(v: View, handles: map<nat, StreamObj>)
      requires Shows(v, handles)
      ensures active == v.u.active && (v.u.header == None ==> header == null)
    {
      hide Contents, HandlesAt, HoldsOpen;
    }

    lemma ShowsHandle(v: View, handles: map<nat, StreamObj>, k: nat, dst: array<byte>)
      requires Tidy(dst) && Shows(v, handles) && k in handles
      ensures handles[k] in ledger.books.streams.Keys && handles[k].buf in ledger.owner.Keys
      ensures handles[k].buf.data in ArraysIn(ledger.owner.Keys)
    {
      assert handles[k] in handles.Values;
      HandleParts(handles[k], dst);
    }

    // One call about a stream
    method DoStreamCall(c: Call, dst: array<byte>, ghost v: View, handles: map<nat, StreamObj>, drawn: nat)
      returns (handles': map<nat, StreamObj>, drawn': nat)
      requires Tidy(dst) && Shows(v, handles) && drawn == v.drawn && CallOk(c, p, dst.Length) && OnStream(c)
      modifies this, ledger.books.streams.Keys, ledger.owner.Keys, ArraysIn(ledger.owner.Keys)
      ensures Tidy(dst) && OldOrFresh() && OnlyNewStreams()
      ensures Shows(Next(p, v, c), handles') && drawn' == Next(p, v, c).drawn
    {
      hide Tidy, OldOrFresh, OnlyNewStreams, Shows, ArraysIn, Next, Fitting;
      handles', drawn' := handles, drawn;
      if !c.DoStreamOpen? {
        ShowsNames(v, handles);
        SameDrawn(p, v, c);
        if c.handle !in handles {
          NothingNew();
          return;
        }
        ShowsHandle(v, handles, c.handle, dst);
      }
      match c {
        case DoStreamOpen(path, contentType, stream, block) =>
          handles', drawn' := RunStreamOpen(path, contentType, stream, block, dst, v, handles, drawn);
        case DoStreamWrite(k, data, budget) => RunStreamWrite(k, data, budget, dst, v, handles);
        case DoStreamClose(k) =>
          RunStreamClose(k, dst, v, handles);
          handles' := handles - {k};
      }
    }

    method DoCall(c: Call, dst: array<byte>, ghost v: View, handles: map<nat, StreamObj>, drawn: nat)
      returns (handles': map<nat, StreamObj>, drawn': nat, asks: seq<Packetizer.Ask>)
      requires Tidy(dst) && Shows(v, handles) && drawn == v.drawn && CallOk(c, p, dst.Length)
      requires c.DoStart? ==> v.u.header == None
      modifies this, ledger.owner.Keys, ArraysIn(ledger.owner.Keys), ledger.books.streams.Keys, dst
      ensures Tidy(dst)
      ensures forall b | b in ledger.owner :: b in old(ledger).owner || (fresh(b) && fresh(b.data))
      ensures forall s | s in ledger.books.streams :: s in old(ledger).books.streams || fresh(s)
      ensures Shows(Next(p, v, c), handles') && drawn' == Next(p, v, c).drawn && asks == AskOnce(v, c)
    {
      TidyParts(dst);
      ShowsActive(v, handles);
      hide Tidy, OldOrFresh, OnlyNewStreams, Shows, Next, Fitting;
      handles', drawn', asks := handles, drawn, [];
      if OnStream(c) {
        handles', drawn' := DoStreamCall(c, dst, v, handles, drawn);
      } else {
        ShowsNames(v, handles);
        SameDrawn(p, v, c);
        asks := DoSessionCall(c, dst, v, handles);
      }
      AllNew();
    }

    twostate lemma AllNew()
      requires OldOrFresh() && OnlyNewStreams()
      ensures forall b | b in ledger.owner :: b in old(ledger).owner || (fresh(b) && fresh(b.data))
      ensures forall s | s in ledger.books.streams :: s in old(ledger).books.streams || fresh(s)
    {
    }

    static twostate lemma FreshArrays(new bs: set<PouchBuf>)
      requires forall b | b in bs :: fresh(b.data)
      ensures fresh(ArraysIn(bs))
    {
    }

    lemma ShowsBoot(dst: array<byte>)
      requires Valid() && PayloadSize(p) && ledger == Empty && reader.buf == null
      requires Readable() && Abs() == Uplink.Init(()) && AbsEntry() == None && streamCounter == Stream.CounterAt(0)
      ensures Tidy(dst) && Shows(Boot(), map[]) && Fitting(p, Boot())
    {
      hide Contents;
    }

    lemma TidyCounts(dst: array<byte>)
      requires Tidy(dst)
      ensures Valid() && NothingLost() && bufs == Ownership.Count(ledger.books)
      ensures ledger.books == Books(header, processing, transport, reader.buf, block, ledger.books.streams)
      ensures openStreams == |ledger.books.streams| <= 126
    {
      CountersExact();
    }

    static method PowerUp(p: nat, dst: array<byte>) returns (d: PouchDevice)
      requires PayloadSize(p)
      ensures fresh(d) && d.p == p && d.Tidy(dst) && d.Shows(Boot(), map[]) && Fitting(p, Boot()) && Boot().drawn == 0
      ensures d.ledger.owner == map[] && d.ledger.books.streams == map[]
    {
      d := new PouchDevice(p);
      d.ShowsBoot(dst);
    }

    static method DoCalls(p: nat, calls: seq<Call>, dst: array<byte>)
      returns (d: PouchDevice, handles: map<nat, StreamObj>, asks: seq<Packetizer.Ask>,
               ghost v: View, ghost clean: bool)
      requires OnTheWay(p, Boot(), [], calls, 0, true, dst.Length) && PayloadSize(p)
      modifies dst
      ensures fresh(d) && d.p == p && d.Tidy(dst) && d.Shows(v, handles)
      ensures OnTheWay(p, v, asks, calls, |calls|, clean, dst.Length)
    {
      hide *;
      d := PowerUp(p, dst);
      handles, asks, v, clean := map[], [], Boot(), true;
      var drawn, i := 0, 0;
      while i < |calls|
        invariant 0 <= i <= |calls| && OnTheWay(p, v, asks, calls, i, clean, dst.Length)
        invariant fresh(d) && d.p == p && d.Tidy(dst) && d.Shows(v, handles) && drawn == v.drawn
        invariant forall b | b in d.ledger.owner :: fresh(b) && fresh(b.data)
        invariant forall s | s in d.ledger.books.streams :: fresh(s)
      {
        var more;
        FreshArrays(d.ledger.owner.Keys);
        WayGoesOn(p, v, asks, calls, i, clean, dst.Length);
        handles, drawn, more := d.DoCall(calls[i], dst, v, handles, drawn);
        asks := asks + more;
        clean := if calls[i].DoStart? then false else clean || calls[i].DoFinish?;
        v := Next(p, v, calls[i]);
        i := i + 1;
      }
    }

    // Any calls in any order, from power-up, with a finish between one start and the next: every live
    // buffer has one owner, the state is that of the value machine, and so is what the fills returned
    static method Run(p: nat, calls: seq<Call>, dst: array<byte>)
      returns (d: PouchDevice, handles: map<nat, StreamObj>, asks: seq<Packetizer.Ask>)
      requires PayloadSize(p) && FinishedBetween(calls, true) && CallsOk(calls, p, dst.Length)
      modifies dst
      ensures fresh(d) && d.Valid() && d.NothingLost() && d.bufs == Ownership.Count(d.ledger.books)
      ensures d.openStreams == |d.ledger.books.streams| <= 126
      ensures d.ledger.books
              == Books(d.header, d.processing, d.transport, d.reader.buf, d.block, d.ledger.books.streams)
      ensures d.Shows(After(p, Boot(), calls), handles) && asks == AsksOf(p, Boot(), calls)
    {
      WayBegins(p, calls, dst.Length);
      hide *;
      ghost var v, clean;
      d, handles, asks, v, clean := DoCalls(p, calls, dst);
      WayEnds(p, v, asks, calls, clean, dst.Length);
      d.TidyCounts(dst);
    }
  }

  // What a call leaves alone
  datatype Bystanders = Bystanders(bufs: set<PouchBuf>, handles: map<nat, StreamObj>)

  // The handles are the open streams, each under one number
  ghost predicate HoldsOpen(handles: map<nat, StreamObj>, streams: set<StreamObj>) {
    && handles.Values == streams
    && (forall j, k | j in handles && k in handles && j != k :: handles[j] != handles[k])
  }

  lemma HoldsMore(handles: map<nat, StreamObj>, streams: set<StreamObj>, k: nat, s: StreamObj)
    requires HoldsOpen(handles, streams) && k !in handles && s !in streams
    ensures HoldsOpen(handles[k := s], streams + {s})
  {
    var more := handles[k := s];
    forall x | x in handles.Values ensures x in more.Values {
      var j :| j in handles && handles[j] == x;
      assert j in more && more[j] == x;
    }
    assert k in more && more[k] == s;
    assert more.Values == handles.Values + {s};
  }

  lemma HoldsLess(handles: map<nat, StreamObj>, streams: set<StreamObj>, k: nat)
    requires HoldsOpen(handles, streams) && k in handles
    ensures handles[k] in streams && HoldsOpen(handles - {k}, streams - {handles[k]})
  {
    var less := handles - {k};
    forall x | x in handles.Values - {handles[k]} ensures x in less.Values {
      var j :| j in handles && handles[j] == x;
      assert j in less && less[j] == x;
    }
    assert less.Values == handles.Values - {handles[k]};
  }

  // Calls that are not an open keep the numbering, and an absent handle does nothing
  lemma SameDrawn(p: nat, v: View, c: Call)
    requires Fitting(p, v) && !c.DoStreamOpen?
    ensures Next(p, v, c).drawn == v.drawn
    ensures OnStream(c) && c.handle !in v.streams ==> Next(p, v, c) == v
  {
  }

  lemma FittingStream(p: nat, v: View, k: nat)
    requires Fitting(p, v) && k in v.streams
    ensures Stream.Fits(p, v.streams[k])
  {
  }

  lemma CounterMoves(k: nat)
    ensures Stream.CounterAt(k) != Stream.CounterAt(k + 1)
  {
    Stream.DrawsInTurn(k);
    hide Stream.CounterAt;
  }

  ghost function BufsOf(handles: map<nat, StreamObj>): set<PouchBuf>
    reads handles.Values
  {
    set k | k in handles :: handles[k].buf
  }

  predicate OnStream(c: Call) {
    c.DoStreamOpen? || c.DoStreamWrite? || c.DoStreamClose?
  }

  ghost function ArraysIn(bs: set<PouchBuf>): set<object> {
    set b | b in bs :: b.data
  }

}
