/** The whole device side as one machine: entry writers, streams and the uplink session, interleaved. */
module Device {
  import opened Wire
  import opened Block
  import opened Decoder
  import opened Cipher
  import Entry
  import Stream
  import Uplink

  const STREAMS_MAX := 126

  // An open stream, with what the application asked for and what it has written so far
  datatype Handle = Handle(stream: Stream.Stream, path: Bytes, contentType: nat, data: Bytes)

  // A stream that gets no more blocks. whole: it was closed; else its session was finished before.
  datatype Ended = Ended(id: BlockId, path: Bytes, contentType: nat, data: Bytes, whole: bool)

  // streams: the handles opened in the current session; stale: those left over from finished ones.
  // drawn counts the stream ids taken; entries and ended record what was accepted and what is over.
  datatype State<S> = State(
    entry: Option<Bytes>,
    streams: map<nat, Handle>, stale: map<nat, Handle>, drawn: nat,
    up: Uplink.History<S>,
    entries: seq<Entry.Entry>, ended: seq<Ended>)

  datatype Action<S> =
    | EntryWrite(e: Entry.Entry, luck: Entry.Luck)
    | StreamOpen(path: Bytes, contentType: nat, stream: bool, block: bool)
    | StreamWrite(handle: nat, data: Bytes, budget: nat)
    | StreamClose(handle: nat)
    | UplinkClose(lock: bool)
    | Work
    | Start(setup: bool, header: Option<Bytes>, crypto: S)
    | Fill(n: nat)
    | Finish

  function EnqueueAll<S>(c: Cipher<S>, h: Uplink.History<S>, blocks: seq<Bytes>): Uplink.History<S>
    decreases |blocks|
  {
    if blocks == [] then h else EnqueueAll(c, Uplink.Step(c, h, Uplink.DoEnqueue(blocks[0])), blocks[1..])
  }

  // What the calls need: buffers that keep to their size, live handles
  ghost predicate Callable<S>(p: nat, d: State<S>, a: Action<S>) {
    && Entry.BlockFits(p, d.entry)
    && (a.StreamWrite? ==> a.handle in d.streams + d.stale && Stream.Fits(p, (d.streams + d.stale)[a.handle].stream))
    && (a.StreamClose? ==> a.handle in d.streams + d.stale && Stream.Fits(p, (d.streams + d.stale)[a.handle].stream))
  }

  // The handles below number k whose session ends with them open, in the order they were opened
  function Abandoned(streams: map<nat, Handle>, k: nat): seq<Ended> {
    if k == 0 then []
    else
      Abandoned(streams, k - 1)
      + (if k - 1 !in streams then []
         else
           var s := streams[k - 1];
           [Ended(s.stream.id, s.path, s.contentType, s.data, false)])
  }

  function Written(s: Handle, r: Stream.WriteResult, data: Bytes): Handle
    requires r.count <= |data|
  {
    s.(stream := r.stream, data := s.data + data[..r.count])
  }

  ghost function Step<S>(c: Cipher<S>, p: nat, d: State<S>, a: Action<S>): State<S>
    requires Callable(p, d, a)
  {
    match a
    case EntryWrite(e, luck) =>
      var r := Entry.Write(p, d.entry, e, luck);
      d.(entry := r.open, up := EnqueueAll(c, d.up, r.sent),
         entries := if r.err == Entry.Ok then d.entries + [e] else d.entries)
    case StreamOpen(path, contentType, stream, block) =>
      if |d.streams| + |d.stale| >= STREAMS_MAX || !stream then d
      else if !block then d.(drawn := d.drawn + 1)
      else
        var s := Stream.Open(Stream.IdOf(d.drawn), d.up.u.id, path, contentType);
        d.(drawn := d.drawn + 1, streams := d.streams[d.drawn := Handle(s, path, contentType, [])])
    case StreamWrite(handle, data, budget) =>
      var s := (d.streams + d.stale)[handle];
      var r := Stream.Write(p, s.stream, d.up.u.id, data, budget);
      var d' := d.(up := EnqueueAll(c, d.up, r.sent));
      if handle in d.stale then d'.(stale := d.stale[handle := Written(s, r, data)])
      else d'.(streams := d.streams[handle := Written(s, r, data)])
    case StreamClose(handle) =>
      var s := (d.streams + d.stale)[handle];
      var sent := Stream.Close(s.stream, d.up.u.id);
      d.(up := EnqueueAll(c, d.up, sent), streams := d.streams - {handle}, stale := d.stale - {handle},
         ended := if sent == [] then d.ended
                  else d.ended + [Ended(s.stream.id, s.path, s.contentType, s.data, true)])
    case UplinkClose(lock) =>
      if d.up.u.closing then d
      else
        var r := Entry.Close(d.entry, lock);
        d.(entry := r.open,
           up := Uplink.Step(c, d.up, Uplink.DoClose(if r.sent == [] then None else Some(r.sent[0]))))
    case Work => d.(up := Uplink.Step(c, d.up, Uplink.DoWork))
    case Start(setup, header, crypto) => d.(up := Uplink.Step(c, d.up, Uplink.DoStart(setup, header, crypto)))
    case Fill(n) => d.(up := Uplink.Step(c, d.up, Uplink.DoFill(n)))
    case Finish =>
      d.(up := Uplink.Step(c, d.up, Uplink.DoFinish), streams := map[], stale := d.streams + d.stale,
         ended := d.ended + Abandoned(d.streams, d.drawn))
  }

  // ---- what the calls give back

  // A stream is opened exactly while fewer than 126 are open, stale ones included, and both allocations
  // succeed; an id is taken as soon as the first of them has
  lemma OpensIff<S>(c: Cipher<S>, p: nat, d: State<S>, path: Bytes, contentType: nat, stream: bool, block: bool)
    requires Callable(p, d, StreamOpen(path, contentType, stream, block)) && d.drawn !in d.streams
    ensures var d' := Step(c, p, d, StreamOpen(path, contentType, stream, block));
            var room := |d.streams| + |d.stale| < 126;
            && (d.drawn in d'.streams <==> room && stream && block)
            && d'.drawn == d.drawn + (if room && stream then 1 else 0)
            && (forall k | k in d.streams :: k in d'.streams && d'.streams[k] == d.streams[k])
            && d'.stale == d.stale && d'.up == d.up && d'.entry == d.entry
  {
  }

  // A close that does not get the lock closes the pouch, and leaves the open entry block for a later one
  lemma CloseWithoutLock<S>(c: Cipher<S>, p: nat, d: State<S>)
    requires Callable(p, d, UplinkClose(false)) && !d.up.u.closing
    ensures var d' := Step(c, p, d, UplinkClose(false));
            && d'.entry == d.entry && d'.up.u == d.up.u.(closing := true, pending := true)
            && Step(c, p, d', UplinkClose(true)) == d'
  {
  }

  // ---- what each id should carry

  function Total(path: Bytes, contentType: nat, data: Bytes): Bytes {
    Stream.StreamHeader(path, contentType) + data
  }

  // The blocks of one stream that is over: all of them, or the full ones it had sent
  function EndedBlocks(p: nat, e: Ended): seq<Bytes>
    requires 1 <= p
  {
    var t := Total(e.path, e.contentType, e.data);
    if e.whole then Stream.Segment(p, e.id, t, true) else Stream.Body(p, e.id, t, true)
  }

  // The blocks of the streams of one id that are over, in that order
  function Closed(p: nat, ended: seq<Ended>, id: BlockId): seq<Bytes>
    requires 1 <= p
  {
    if ended == [] then []
    else
      var e := ended[|ended| - 1];
      Closed(p, ended[..|ended| - 1], id)
      + (if e.id == id then EndedBlocks(p, e) else [])
  }

  // No stream was cut off by a finish after some of its blocks had been sent
  ghost predicate NoneCut(p: nat, ended: seq<Ended>) {
    forall i | 0 <= i < |ended| && !ended[i].whole :: |Total(ended[i].path, ended[i].contentType, ended[i].data)| <= p
  }

  function MessagesOf(ended: seq<Ended>, id: BlockId): seq<Message> {
    if ended == [] then []
    else
      var e := ended[|ended| - 1];
      MessagesOf(ended[..|ended| - 1], id)
      + (if e.id == id && e.whole then [Message(e.path, e.contentType, e.data, true)] else [])
  }

  predicate PathFits(p: nat, path: Bytes, contentType: nat) {
    3 + |path| <= p && |path| < 256 && 0 !in path && contentType < 0x1_0000
  }

  ghost predicate Opened<S>(p: nat, d: State<S>, k: nat)
    requires k in d.streams
  {
    var s := d.streams[k];
    var t := Total(s.path, s.contentType, s.data);
    && PathFits(p, s.path, s.contentType)
    && Stream.Fits(p, s.stream) && Stream.Holds(p, s.stream, t)
    && s.stream.bytes == |s.data| && s.stream.session == d.up.u.id && s.stream.id != 0
    && BlocksOf(d.up.enqueued, s.stream.id)
       == Closed(p, d.ended, s.stream.id) + Stream.Body(p, s.stream.id, t, true)
  }

  ghost predicate Used<S>(d: State<S>, id: BlockId) {
    exists k :: k in d.streams && d.streams[k].stream.id == id
  }

  // Each open stream is where its writes put it, open streams have different ids, and an id without
  // an open stream carries the streams that are over and nothing else
  ghost predicate StreamsOk<S>(p: nat, d: State<S>)
    requires 1 <= p
  {
    && (forall k | k in d.streams :: k < d.drawn && Opened(p, d, k))
    && (forall j, k | j in d.streams && k in d.streams && j != k ::
          d.streams[j].stream.id != d.streams[k].stream.id)
    && (forall id: BlockId | id != 0 && !Used(d, id) :: BlocksOf(d.up.enqueued, id) == Closed(p, d.ended, id))
  }

  // A handle from a finished session is not taken for one of this session
  ghost predicate StaleOk<S>(p: nat, d: State<S>) {
    forall k | k in d.stale ::
      k < d.drawn && k !in d.streams && Stream.Fits(p, d.stale[k].stream) && d.stale[k].stream.session != d.up.u.id
  }

  ghost predicate EndedOk(p: nat, ended: seq<Ended>) {
    forall i | 0 <= i < |ended| :: ended[i].id != 0 && PathFits(p, ended[i].path, ended[i].contentType)
  }

  ghost predicate Inv<S>(c: Cipher<S>, p: nat, d: State<S>) {
    && PayloadSize(p)
    && Uplink.Inv(c, d.up)
    && Entry.BlockFits(p, d.entry)
    && Entry.Packed(p, BlocksOf(d.up.enqueued, 0), d.entry, d.entries)
    && Entry.Decodable(d.entries)
    && StreamsOk(p, d)
    && StaleOk(p, d)
    && EndedOk(p, d.ended)
    && AllOnWire(d.up.enqueued, 1 + p)
  }

  // The discipline of the callers: representable arguments, open handles, a stream is opened only while
  // no open stream has its id, and no handle is kept for as many sessions as the counter holds
  ghost predicate Enabled<S>(p: nat, d: State<S>, a: Action<S>) {
    && (a.EntryWrite? ==> Entry.EntryArgs(a.e) && |a.e.path| < 256)
    && (a.StreamOpen? ==> PathFits(p, a.path, a.contentType) && !Used(d, Stream.IdOf(d.drawn)))
    && (a.StreamWrite? ==> a.handle in d.streams + d.stale)
    && (a.StreamClose? ==> a.handle in d.streams + d.stale)
    && (a.Finish? ==> forall k | k in d.stale :: d.stale[k].stream.session != Uplink.NextId(d.up.u.id))
  }

  lemma EnabledCallable<S>(c: Cipher<S>, p: nat, d: State<S>, a: Action<S>)
    requires Inv(c, p, d) && Enabled(p, d, a)
    ensures Callable(p, d, a)
  {
    if (a.StreamWrite? || a.StreamClose?) && a.handle in d.streams {
      assert Opened(p, d, a.handle) && a.handle !in d.stale;
    }
  }

  function Boot<S>(s: S): State<S> {
    State(None, map[], map[], 0, Uplink.Boot(s), [], [])
  }

  lemma BootInv<S>(c: Cipher<S>, p: nat, s: S)
    requires PayloadSize(p)
    ensures Inv(c, p, Boot(s))
  {
    Uplink.BootInv(c, s);
    Entry.PackedEmpty(p);
  }

  lemma {:induction false} EnqueueAllKeeps<S>(c: Cipher<S>, h: Uplink.History<S>, blocks: seq<Bytes>)
    requires Uplink.Inv(c, h)
    ensures var h' := EnqueueAll(c, h, blocks);
            && Uplink.Inv(c, h') && h'.enqueued == h.enqueued + blocks && h'.sessions == h.sessions
            && h'.u == h.u.(processing := h.u.processing + blocks, pending := h.u.pending || blocks != [])
    decreases |blocks|
  {
    if blocks == [] {
      assert h.enqueued + [] == h.enqueued && h.u.processing + [] == h.u.processing;
    } else {
      var h1 := Uplink.Step(c, h, Uplink.DoEnqueue(blocks[0]));
      Uplink.EnqueueKeeps(c, h, blocks[0]);
      EnqueueAllKeeps(c, h1, blocks[1..]);
      Uncons(h.enqueued, blocks);
      Uncons(h.u.processing, blocks);
    }
  }

  lemma Uncons<T>(a: seq<T>, b: seq<T>)
    requires b != []
    ensures a + [b[0]] + b[1..] == a + b
  {
  }

  // More blocks of one id change what that id carries, and nothing else
  lemma {:induction false} SameId(blocks: seq<Bytes>, id: BlockId, other: BlockId)
    requires forall i | 0 <= i < |blocks| :: Carries(blocks[i], id)
    ensures BlocksOf(blocks, other) == if other == id then blocks else []
  {
    if blocks != [] {
      SameId(blocks[1..], id, other);
      assert blocks == [blocks[0]] + blocks[1..];
    }
  }

  lemma Extends(log: seq<Bytes>, sent: seq<Bytes>, id: BlockId, maxField: nat)
    requires AllOnWire(log, maxField)
    requires forall i | 0 <= i < |sent| :: Carries(sent[i], id) && OnWire(sent[i], maxField)
    ensures AllOnWire(log + sent, maxField)
    ensures forall other: BlockId ::
              BlocksOf(log + sent, other) == if other == id then BlocksOf(log, other) + sent else BlocksOf(log, other)
  {
    forall other: BlockId
      ensures BlocksOf(log + sent, other) == if other == id then BlocksOf(log, other) + sent else BlocksOf(log, other)
    {
      BlocksOfConcat(log, sent, other);
      SameId(sent, id, other);
      assert BlocksOf(log, other) + [] == BlocksOf(log, other);
    }
  }

  // ---- every action keeps the invariant

  lemma StreamsUntouched<S>(p: nat, d: State<S>, d': State<S>)
    requires 1 <= p && StreamsOk(p, d)
    requires d'.streams == d.streams && d'.ended == d.ended && d'.up.u.id == d.up.u.id && d'.drawn >= d.drawn
    requires forall id: BlockId | id != 0 :: BlocksOf(d'.up.enqueued, id) == BlocksOf(d.up.enqueued, id)
    ensures StreamsOk(p, d')
  {
    hide BlocksOf, Closed;
    forall k | k in d'.streams ensures k < d'.drawn && Opened(p, d', k) {
      assert Opened(p, d, k);
    }
    forall id: BlockId | id != 0 && !Used(d', id)
      ensures BlocksOf(d'.up.enqueued, id) == Closed(p, d'.ended, id)
    {
      assert !Used(d, id);
    }
  }

  lemma EntryWriteKeeps<S>(c: Cipher<S>, p: nat, d: State<S>, e: Entry.Entry, luck: Entry.Luck)
    requires Inv(c, p, d) && Enabled(p, d, EntryWrite(e, luck))
    ensures Inv(c, p, Step(c, p, d, EntryWrite(e, luck)))
  {
    var log, r := d.up.enqueued, Entry.Write(p, d.entry, e, luck);
    var d' := Step(c, p, d, EntryWrite(e, luck));
    EnqueueAllKeeps(c, d.up, r.sent);
    Entry.WritePacks(p, BlocksOf(log, 0), d.entry, d.entries, e, luck);
    EntrySent(p, log, r.sent, d'.entry, d'.entries);
    StreamsUntouched(p, d, d');
    if r.err == Entry.Ok { Entry.AcceptedFits(p, d.entry, e, luck); }
  }

  lemma EntrySent(p: nat, log: seq<Bytes>, sent: seq<Bytes>, open: Option<Bytes>, entries: seq<Entry.Entry>)
    requires PayloadSize(p) && AllOnWire(log, 1 + p)
    requires Entry.Packed(p, BlocksOf(log, 0) + sent, open, entries)
    ensures AllOnWire(log + sent, 1 + p) && Entry.Packed(p, BlocksOf(log + sent, 0), open, entries)
    ensures forall id: BlockId | id != 0 :: BlocksOf(log + sent, id) == BlocksOf(log, id)
  {
    var all := BlocksOf(log, 0) + sent;
    Entry.PackedBlocks(p, all, open, entries);
    assert forall i | 0 <= i < |sent| :: sent[i] == all[|BlocksOf(log, 0)| + i];
    Extends(log, sent, 0, 1 + p);
  }

  lemma UplinkCloseKeeps<S>(c: Cipher<S>, p: nat, d: State<S>, lock: bool)
    requires Inv(c, p, d)
    ensures Inv(c, p, Step(c, p, d, UplinkClose(lock)))
  {
    hide Uplink.Inv, Entry.Packed, Entry.Decodable, EndedOk, StreamsOk, AllOnWire;
    if !d.up.u.closing {
      var log, r := d.up.enqueued, Entry.Close(d.entry, lock);
      var flush := if r.sent == [] then None else Some(r.sent[0]);
      Uplink.CloseKeeps(c, d.up, flush);
      Entry.ClosePacks(p, BlocksOf(log, 0), d.entry, d.entries, lock);
      EntrySent(p, log, r.sent, r.open, d.entries);
      var d' := Step(c, p, d, UplinkClose(lock));
      assert r.sent == (if flush.Some? then [flush.value] else []);
      assert d'.up.enqueued == log + r.sent;
      StreamsUntouched(p, d, d');
    }
  }

  lemma SessionKeeps<S>(c: Cipher<S>, p: nat, d: State<S>, a: Action<S>)
    requires Inv(c, p, d) && (a.Work? || a.Start? || a.Fill?)
    ensures Inv(c, p, Step(c, p, d, a))
  {
    hide StreamsOk, Entry.Packed, Entry.Decodable, AllOnWire, Uplink.Inv, EndedOk;
    var u := match a
             case Work => Uplink.DoWork
             case Start(setup, header, crypto) => Uplink.DoStart(setup, header, crypto)
             case Fill(n) => Uplink.DoFill(n);
    Uplink.StepKeeps(c, d.up, u);
    QuietLog(c, d.up, u);
    StreamsUntouched(p, d, Step(c, p, d, a));
  }

  lemma QuietLog<S>(c: Cipher<S>, h: Uplink.History<S>, a: Uplink.Action<S>)
    requires a.DoWork? || a.DoStart? || a.DoFill?
    ensures Uplink.Step(c, h, a).enqueued == h.enqueued && Uplink.Step(c, h, a).u.id == h.u.id
  {
    if a.DoWork? { ProcessKeepsId(c, h.u.(pending := false)); }
  }

  lemma {:induction false} ProcessKeepsId<S>(c: Cipher<S>, u: Uplink.State<S>)
    ensures Uplink.ProcessLoop(c, u).id == u.id
    decreases |u.processing|
  {
    if u.active && !u.closed && u.processing != [] { Uplink.ProcessAll(c, u); }
  }

  lemma StreamOpenKeeps<S>(c: Cipher<S>, p: nat, d: State<S>, a: Action<S>)
    requires Inv(c, p, d) && Enabled(p, d, a) && a.StreamOpen?
    ensures Inv(c, p, Step(c, p, d, a))
  {
    hide Uplink.Inv, Entry.Packed, Entry.Decodable, AllOnWire, EndedOk, StreamsOk;
    var d' := Step(c, p, d, a);
    if d'.streams == d.streams {
      StreamsUntouched(p, d, d');
    } else {
      Stream.OpenHolds(p, Stream.IdOf(d.drawn), d.up.u.id, a.path, a.contentType);
      StreamOpened(p, d, d', a.path, a.contentType);
    }
  }

  lemma StreamOpened<S>(p: nat, d: State<S>, d': State<S>, path: Bytes, contentType: nat)
    requires 1 <= p && StreamsOk(p, d) && PathFits(p, path, contentType)
    requires var s := Stream.Open(Stream.IdOf(d.drawn), d.up.u.id, path, contentType);
             && d'.streams == d.streams[d.drawn := Handle(s, path, contentType, [])]
             && Stream.Fits(p, s) && Stream.Holds(p, s, Stream.StreamHeader(path, contentType))
             && Stream.Body(p, s.id, Stream.StreamHeader(path, contentType), true) == []
    requires d'.ended == d.ended && d'.up == d.up && d'.drawn == d.drawn + 1
    requires !Used(d, Stream.IdOf(d.drawn))
    ensures StreamsOk(p, d')
  {
    hide BlocksOf, Closed, Stream.Body, Stream.Holds, Stream.StreamHeader, Stream.Fits;
    var k, id := d.drawn, Stream.IdOf(d.drawn);
    assert Total(path, contentType, []) == Stream.StreamHeader(path, contentType);
    assert Closed(p, d.ended, id) + [] == Closed(p, d.ended, id);
    assert Opened(p, d', k);
    forall j | j in d'.streams ensures j < d'.drawn && Opened(p, d', j) {
      if j != k { assert Opened(p, d, j); }
    }
    forall other: BlockId | Used(d, other) ensures Used(d', other) {
      var j :| j in d.streams && d.streams[j].stream.id == other;
      assert j in d'.streams && d'.streams[j].stream.id == other;
    }
  }

  // What a write sends is the next blocks of its stream
  lemma BodySent(p: nat, id: BlockId, t: Bytes, t': Bytes, sent: seq<Bytes>)
    requires PayloadSize(p) && Stream.Body(p, id, t', true) == Stream.Body(p, id, t, true) + sent
    ensures forall i | 0 <= i < |sent| :: Carries(sent[i], id) && OnWire(sent[i], 1 + p)
  {
    var n := |Stream.Body(p, id, t, true)|;
    forall i | 0 <= i < |sent| ensures Carries(sent[i], id) && OnWire(sent[i], 1 + p) {
      Stream.BodyBlock(p, id, t', true, n + i);
      assert sent[i] == Stream.Body(p, id, t', true)[n + i];
    }
  }

  // A write extends the stream's blocks on its id, and touches no other id
  lemma WriteBooks(p: nat, log: seq<Bytes>, ended: seq<Ended>, s: Handle, session: nat, data: Bytes, budget: nat)
    requires PayloadSize(p) && AllOnWire(log, 1 + p) && s.stream.session == session
    requires Stream.Fits(p, s.stream) && Stream.Holds(p, s.stream, Total(s.path, s.contentType, s.data))
    requires s.stream.bytes == |s.data| && s.stream.id != 0
    requires BlocksOf(log, s.stream.id)
             == Closed(p, ended, s.stream.id)
                + Stream.Body(p, s.stream.id, Total(s.path, s.contentType, s.data), true)
    ensures var r := Stream.Write(p, s.stream, session, data, budget);
            var s' := Written(s, r, data);
            && AllOnWire(log + r.sent, 1 + p) && s'.stream.id == s.stream.id && s'.stream.session == session
            && Stream.Fits(p, s'.stream) && Stream.Holds(p, s'.stream, Total(s'.path, s'.contentType, s'.data))
            && s'.stream.bytes == |s'.data|
            && BlocksOf(log + r.sent, s.stream.id)
               == Closed(p, ended, s.stream.id)
                  + Stream.Body(p, s.stream.id, Total(s'.path, s'.contentType, s'.data), true)
            && forall id: BlockId | id != s.stream.id :: BlocksOf(log + r.sent, id) == BlocksOf(log, id)
  {
    var id, t := s.stream.id, Total(s.path, s.contentType, s.data);
    var r := Stream.Write(p, s.stream, session, data, budget);
    Stream.WriteHolds(p, s.stream, t, data, budget);
    Assoc(Stream.StreamHeader(s.path, s.contentType), s.data, data[..r.count]);
    BodySent(p, id, t, t + data[..r.count], r.sent);
    Extends(log, r.sent, id, 1 + p);
    Assoc(Closed(p, ended, id), Stream.Body(p, id, t, true), r.sent);
  }

  lemma StreamWriteKeeps<S>(c: Cipher<S>, p: nat, d: State<S>, k: nat, data: Bytes, budget: nat)
    requires Inv(c, p, d) && k in d.streams && Callable(p, d, StreamWrite(k, data, budget))
    ensures Inv(c, p, Step(c, p, d, StreamWrite(k, data, budget)))
  {
    assert Opened(p, d, k) && k !in d.stale;
    WriteBooks(p, d.up.enqueued, d.ended, d.streams[k], d.up.u.id, data, budget);
    EnqueueAllKeeps(c, d.up, Stream.Write(p, d.streams[k].stream, d.up.u.id, data, budget).sent);
    hide Uplink.Inv, Entry.Packed, Entry.Decodable, BlocksOf, AllOnWire, StreamsOk, Stream.Write, EnqueueAll, Closed;
    hide Stream.Body, Stream.Holds, Stream.Fits;
    var d' := Step(c, p, d, StreamWrite(k, data, budget));
    assert Opened(p, d', k);
    StreamWritten(p, d, d', k);
  }

  // The other streams do not notice
  lemma StreamWritten<S>(p: nat, d: State<S>, d': State<S>, k: nat)
    requires 1 <= p && StreamsOk(p, d) && k in d.streams && k in d'.streams && Opened(p, d', k)
    requires d'.streams == d.streams[k := d'.streams[k]] && d'.streams[k].stream.id == d.streams[k].stream.id
    requires d'.ended == d.ended && d'.up.u.id == d.up.u.id && d'.drawn == d.drawn
    requires forall id: BlockId | id != d.streams[k].stream.id ::
               BlocksOf(d'.up.enqueued, id) == BlocksOf(d.up.enqueued, id)
    ensures StreamsOk(p, d')
  {
    hide BlocksOf, Closed, Total, Stream.Holds, Stream.Body, Stream.Fits, PathFits;
    forall j | j in d'.streams ensures j < d'.drawn && Opened(p, d', j) {
      if j != k { assert Opened(p, d, j); }
    }
    assert Used(d', d.streams[k].stream.id) by { assert d'.streams[k].stream.id == d.streams[k].stream.id; }
    forall id: BlockId | Used(d, id) ensures Used(d', id) {
      var j :| j in d.streams && d.streams[j].stream.id == id;
      assert j in d'.streams && d'.streams[j].stream.id == id;
    }
  }

  lemma StreamCloseKeeps<S>(c: Cipher<S>, p: nat, d: State<S>, k: nat)
    requires Inv(c, p, d) && k in d.streams && Callable(p, d, StreamClose(k))
    ensures Inv(c, p, Step(c, p, d, StreamClose(k)))
  {
    assert Opened(p, d, k) && k !in d.stale;
    assert d.stale - {k} == d.stale;
    var d' := Step(c, p, d, StreamClose(k));
    var s := d.streams[k];
    EnqueueAllKeeps(c, d.up, Stream.Close(s.stream, d.up.u.id));
    CloseBooks(p, d.up.enqueued, d.ended, s, d.up.u.id);
    hide Uplink.Inv, Entry.Packed, Entry.Decodable, BlocksOf, AllOnWire, StreamsOk, Stream.Close, EnqueueAll, Closed;
    StaleSame(p, d, d');
    hide StaleOk;
    StreamClosed(p, d, d', k);
  }

  // Closing a stream completes its blocks on its id, and touches no other id
  lemma CloseBooks(p: nat, log: seq<Bytes>, ended: seq<Ended>, s: Handle, session: nat)
    requires PayloadSize(p) && AllOnWire(log, 1 + p) && EndedOk(p, ended)
    requires PathFits(p, s.path, s.contentType) && s.stream.session == session
    requires Stream.Fits(p, s.stream) && Stream.Holds(p, s.stream, Total(s.path, s.contentType, s.data))
    requires s.stream.bytes == |s.data| && s.stream.id != 0
    requires BlocksOf(log, s.stream.id)
             == Closed(p, ended, s.stream.id)
                + Stream.Body(p, s.stream.id, Total(s.path, s.contentType, s.data), true)
    ensures var sent := Stream.Close(s.stream, session);
            var e := Ended(s.stream.id, s.path, s.contentType, s.data, true);
            var ended' := if sent == [] then ended else ended + [e];
            && AllOnWire(log + sent, 1 + p) && EndedOk(p, ended')
            && BlocksOf(log + sent, s.stream.id) == Closed(p, ended', s.stream.id)
            && forall id: BlockId | id != s.stream.id ::
                 BlocksOf(log + sent, id) == BlocksOf(log, id) && Closed(p, ended', id) == Closed(p, ended, id)
  {
    var id, t := s.stream.id, Total(s.path, s.contentType, s.data);
    var sent := Stream.Close(s.stream, session);
    CloseSent(p, s.stream, t, session);
    hide Stream.Close, Stream.Body, Stream.Segment, Stream.Holds, Closed, BlocksOf;
    Extends(log, sent, id, 1 + p);
    if sent == [] {
      NothingSent(p, s, id);
      assert Closed(p, ended, id) + [] + [] == Closed(p, ended, id);
    } else {
      Assoc(Closed(p, ended, id), Stream.Body(p, id, t, true), sent);
      ClosedMore(p, ended, Ended(id, s.path, s.contentType, s.data, true));
    }
  }

  lemma NothingSent(p: nat, s: Handle, id: BlockId)
    requires 1 <= p && 3 + |s.path| <= p && s.data == []
    ensures Stream.Body(p, id, Total(s.path, s.contentType, s.data), true) == []
  {
  }

  lemma ClosedMore(p: nat, ended: seq<Ended>, e: Ended)
    requires 1 <= p
    ensures Closed(p, ended + [e], e.id)
            == Closed(p, ended, e.id) + EndedBlocks(p, e)
    ensures forall other: BlockId | other != e.id :: Closed(p, ended + [e], other) == Closed(p, ended, other)
  {
    assert (ended + [e])[..|ended|] == ended;
    forall other: BlockId | other != e.id ensures Closed(p, ended + [e], other) == Closed(p, ended, other) {
      assert Closed(p, ended, other) + [] == Closed(p, ended, other);
    }
  }

  lemma CloseSent(p: nat, s: Stream.Stream, t: Bytes, session: nat)
    requires PayloadSize(p) && Stream.Fits(p, s) && Stream.Holds(p, s, t) && s.session == session
    ensures var sent := Stream.Close(s, session);
            && (sent != [] ==> Stream.Body(p, s.id, t, true) + sent == Stream.Segment(p, s.id, t, true))
            && (sent == [] <==> s.bytes == 0)
            && forall i | 0 <= i < |sent| :: Carries(sent[i], s.id) && OnWire(sent[i], 1 + p)
  {
    var sent := Stream.Close(s, session);
    if s.bytes > 0 {
      Stream.CloseCompletes(p, s, t);
      var n := |Stream.Body(p, s.id, t, true)|;
      Stream.SegmentBlock(p, s.id, t, true, n);
      assert sent[0] == Stream.Segment(p, s.id, t, true)[n];
    }
  }

  lemma StaleSame<S>(p: nat, d: State<S>, d': State<S>)
    requires StaleOk(p, d) && d'.stale == d.stale && d'.streams.Keys <= d.streams.Keys
    requires d'.up.u.id == d.up.u.id && d'.drawn == d.drawn
    ensures StaleOk(p, d')
  {
  }

  lemma StreamClosed<S>(p: nat, d: State<S>, d': State<S>, k: nat)
    requires 1 <= p && StreamsOk(p, d) && k in d.streams
    requires d'.streams == d.streams - {k} && d'.up.u.id == d.up.u.id && d'.drawn == d.drawn
    requires BlocksOf(d'.up.enqueued, d.streams[k].stream.id) == Closed(p, d'.ended, d.streams[k].stream.id)
    requires forall id: BlockId | id != d.streams[k].stream.id ::
               && BlocksOf(d'.up.enqueued, id) == BlocksOf(d.up.enqueued, id)
               && Closed(p, d'.ended, id) == Closed(p, d.ended, id)
    ensures StreamsOk(p, d')
  {
    hide BlocksOf, Closed, Total, Stream.Holds, Stream.Body, Stream.Fits, PathFits;
    forall j | j in d'.streams ensures j < d'.drawn && Opened(p, d', j) {
      assert j in d.streams && j != k && Opened(p, d, j);
    }
    forall id: BlockId | Used(d, id) && id != d.streams[k].stream.id ensures Used(d', id) {
      var j :| j in d.streams && d.streams[j].stream.id == id;
      assert j in d'.streams && d'.streams[j].stream.id == id;
    }
  }

  // ---- the end of a session

  // Writing to a handle of a finished session does nothing
  lemma StaleIgnored<S>(c: Cipher<S>, p: nat, d: State<S>, k: nat, data: Bytes, budget: nat)
    requires Inv(c, p, d) && k in d.stale && Callable(p, d, StreamWrite(k, data, budget))
    ensures Step(c, p, d, StreamWrite(k, data, budget)) == d
  {
    var s := d.stale[k];
    assert s.data + data[..0] == s.data;
    assert d.stale[k := s] == d.stale;
  }

  // and closing it only gives up the handle
  lemma StaleClosed<S>(c: Cipher<S>, p: nat, d: State<S>, k: nat)
    requires Inv(c, p, d) && k in d.stale && Callable(p, d, StreamClose(k))
    ensures Step(c, p, d, StreamClose(k)) == d.(stale := d.stale - {k})
    ensures Inv(c, p, Step(c, p, d, StreamClose(k)))
  {
    assert d.streams - {k} == d.streams;
    var d' := Step(c, p, d, StreamClose(k));
    StreamsUntouched(p, d, d');
  }

  lemma {:induction false} AbandonedOther(p: nat, ended: seq<Ended>, streams: map<nat, Handle>, n: nat, id: BlockId)
    requires 1 <= p && forall j | j in streams && j < n :: streams[j].stream.id != id
    ensures Closed(p, ended + Abandoned(streams, n), id) == Closed(p, ended, id)
    decreases n
  {
    if n == 0 {
      assert ended + [] == ended;
    } else {
      AbandonedOther(p, ended, streams, n - 1, id);
      AbandonedLast(p, ended, streams, n, id);
      assert Closed(p, ended, id) + [] == Closed(p, ended, id);
    }
  }

  lemma AbandonedLast(p: nat, ended: seq<Ended>, streams: map<nat, Handle>, n: nat, id: BlockId)
    requires 1 <= p && 0 < n
    ensures Closed(p, ended + Abandoned(streams, n), id)
            == Closed(p, ended + Abandoned(streams, n - 1), id)
               + (if n - 1 in streams && streams[n - 1].stream.id == id
                  then var s := streams[n - 1]; Stream.Body(p, id, Total(s.path, s.contentType, s.data), true)
                  else [])
  {
    var before, s := ended + Abandoned(streams, n - 1), Abandoned(streams, n)[|Abandoned(streams, n - 1)|..];
    Assoc(ended, Abandoned(streams, n - 1), s);
    if n - 1 in streams {
      ClosedMore(p, before, s[0]);
      assert s == [s[0]];
    } else {
      assert before + [] == before && Closed(p, before, id) + [] == Closed(p, before, id);
    }
  }

  lemma {:induction false} AbandonedOne(p: nat, ended: seq<Ended>, streams: map<nat, Handle>, n: nat, k: nat)
    requires 1 <= p && k in streams && k < n
    requires forall j | j in streams && j != k :: streams[j].stream.id != streams[k].stream.id
    ensures var s := streams[k];
            Closed(p, ended + Abandoned(streams, n), s.stream.id)
            == Closed(p, ended, s.stream.id) + Stream.Body(p, s.stream.id, Total(s.path, s.contentType, s.data), true)
    decreases n
  {
    var s := streams[k];
    AbandonedLast(p, ended, streams, n, s.stream.id);
    if k == n - 1 {
      AbandonedOther(p, ended, streams, n - 1, s.stream.id);
    } else {
      AbandonedOne(p, ended, streams, n - 1, k);
      var before := Closed(p, ended + Abandoned(streams, n - 1), s.stream.id);
      assert before + [] == before;
    }
  }

  lemma {:induction false} AbandonedFit(p: nat, streams: map<nat, Handle>, n: nat)
    requires forall j | j in streams ::
               streams[j].stream.id != 0 && PathFits(p, streams[j].path, streams[j].contentType)
    ensures EndedOk(p, Abandoned(streams, n))
  {
    if n > 0 { AbandonedFit(p, streams, n - 1); }
  }

  // What survives a finish: the processing queue and the open entry block with its entries. What the
  // transport has not pulled is freed, and open streams are cut off: of such a stream no more than the
  // full blocks it had sent is ever enqueued, and its handle is dead.
  lemma FinishKeeps<S>(c: Cipher<S>, p: nat, d: State<S>)
    requires Inv(c, p, d) && Enabled(p, d, Finish)
    ensures Inv(c, p, Step(c, p, d, Finish))
    ensures var d' := Step(c, p, d, Finish);
            && d'.up.enqueued == d.up.enqueued && d'.up.u.processing == d.up.u.processing
            && Uplink.Available(d'.up.u) == [] && d'.up.sessions == d.up.sessions
            && d'.entry == d.entry && d'.entries == d.entries
            && d'.ended == d.ended + Abandoned(d.streams, d.drawn)
            && d'.streams == map[] && d'.stale == d.streams + d.stale
  {
    Uplink.FinishKeeps(c, d.up);
    FinishParts(c, p, d);
    hide Uplink.Inv, Entry.Packed, Entry.Decodable, BlocksOf, AllOnWire, StreamsOk, StaleOk, EndedOk, Abandoned;
    hide Uplink.NextId, Step;
    var d' := Step(c, p, d, Finish);
    FinishStale(p, d, d');
    FinishStreams(p, d, d');
  }

  lemma FinishParts<S>(c: Cipher<S>, p: nat, d: State<S>)
    requires Callable(p, d, Finish)
    ensures var d', up' := Step(c, p, d, Finish), Uplink.Step(c, d.up, Uplink.DoFinish);
            && d'.up == up' && up'.enqueued == d.up.enqueued && up'.u.id == Uplink.NextId(d.up.u.id)
            && up'.u.processing == d.up.u.processing && Uplink.Available(up'.u) == [] && up'.sessions == d.up.sessions
            && d'.entry == d.entry && d'.entries == d.entries && d'.drawn == d.drawn
            && d'.ended == d.ended + Abandoned(d.streams, d.drawn)
            && d'.streams == map[] && d'.stale == d.streams + d.stale
  {
  }

  lemma FinishStale<S>(p: nat, d: State<S>, d': State<S>)
    requires 1 <= p && StreamsOk(p, d) && StaleOk(p, d)
    requires d'.streams == map[] && d'.stale == d.streams + d.stale && d'.drawn == d.drawn
    requires d'.up.u.id == Uplink.NextId(d.up.u.id)
    requires forall k | k in d.stale :: d.stale[k].stream.session != d'.up.u.id
    ensures StaleOk(p, d')
  {
    hide BlocksOf, Closed, Stream.Body, Stream.Holds, Stream.Fits;
    NextIdDiffers(d.up.u.id);
    forall k | k in d'.stale
      ensures k < d'.drawn && Stream.Fits(p, d'.stale[k].stream) && d'.stale[k].stream.session != d'.up.u.id
    {
      if k in d.streams { assert Opened(p, d, k) && k !in d.stale; }
    }
  }

  lemma NextIdDiffers(id: nat)
    ensures Uplink.NextId(id) != id
  {
  }

  lemma FinishStreams<S>(p: nat, d: State<S>, d': State<S>)
    requires 1 <= p && StreamsOk(p, d) && EndedOk(p, d.ended)
    requires d'.streams == map[] && d'.up.enqueued == d.up.enqueued
    requires d'.ended == d.ended + Abandoned(d.streams, d.drawn)
    ensures StreamsOk(p, d') && EndedOk(p, d'.ended)
  {
    hide BlocksOf, Closed, Stream.Body, Stream.Holds, Stream.Fits;
    forall j | j in d.streams
      ensures j < d.drawn && d.streams[j].stream.id != 0 && PathFits(p, d.streams[j].path, d.streams[j].contentType)
    {
      assert Opened(p, d, j);
    }
    AbandonedFit(p, d.streams, d.drawn);
    forall id: BlockId | id != 0 ensures BlocksOf(d'.up.enqueued, id) == Closed(p, d'.ended, id) {
      if Used(d, id) {
        var k :| k in d.streams && d.streams[k].stream.id == id;
        assert Opened(p, d, k);
        AbandonedOne(p, d.ended, d.streams, d.drawn, k);
      } else {
        assert forall j | j in d.streams :: d.streams[j].stream.id != id;
        AbandonedOther(p, d.ended, d.streams, d.drawn, id);
      }
    }
  }

  lemma StepKeeps<S>(c: Cipher<S>, p: nat, d: State<S>, a: Action<S>)
    requires Inv(c, p, d) && Enabled(p, d, a)
    ensures Callable(p, d, a) && Inv(c, p, Step(c, p, d, a))
  {
    EnabledCallable(c, p, d, a);
    match a
    case EntryWrite(e, luck) => EntryWriteKeeps(c, p, d, e, luck);
    case StreamOpen(_, _, _, _) => StreamOpenKeeps(c, p, d, a);
    case StreamWrite(k, data, budget) =>
      if k in d.stale { StaleIgnored(c, p, d, k, data, budget); } else { StreamWriteKeeps(c, p, d, k, data, budget); }
    case StreamClose(k) =>
      if k in d.stale { StaleClosed(c, p, d, k); } else { StreamCloseKeeps(c, p, d, k); }
    case Finish => FinishKeeps(c, p, d);
    case UplinkClose(lock) => UplinkCloseKeeps(c, p, d, lock);
    case _ => SessionKeeps(c, p, d, a);
  }

  // d' is reached from d by the actions, each of them enabled where it happens
  ghost predicate Runs<S>(c: Cipher<S>, p: nat, d: State<S>, actions: seq<Action<S>>, d': State<S>)
    decreases |actions|
  {
    if actions == [] then d == d'
    else
      && Enabled(p, d, actions[0]) && Callable(p, d, actions[0])
      && Runs(c, p, Step(c, p, d, actions[0]), actions[1..], d')
  }

  lemma {:induction false} RunKeeps<S>(c: Cipher<S>, p: nat, d: State<S>, actions: seq<Action<S>>, d': State<S>)
    requires Inv(c, p, d) && Runs(c, p, d, actions, d')
    ensures Inv(c, p, d')
    decreases |actions|
  {
    if actions != [] {
      StepKeeps(c, p, d, actions[0]);
      RunKeeps(c, p, Step(c, p, d, actions[0]), actions[1..], d');
    }
  }

  ghost predicate AllWhole(ended: seq<Ended>) {
    forall i | 0 <= i < |ended| :: ended[i].whole
  }

  // A run without a finish cuts no stream off
  lemma {:induction false} WholeWithoutFinish<S>(c: Cipher<S>, p: nat, d: State<S>, actions: seq<Action<S>>,
                                                   d': State<S>)
    requires Runs(c, p, d, actions, d') && AllWhole(d.ended) && forall a | a in actions :: !a.Finish?
    ensures AllWhole(d'.ended)
    decreases |actions|
  {
    if actions != [] {
      StepWhole(c, p, d, actions[0]);
      hide Step, Enabled, Callable, AllWhole;
      assert actions[0] in actions;
      assert forall a | a in actions[1..] :: a in actions;
      WholeWithoutFinish(c, p, Step(c, p, d, actions[0]), actions[1..], d');
    }
  }

  lemma StepWhole<S>(c: Cipher<S>, p: nat, d: State<S>, a: Action<S>)
    requires Callable(p, d, a) && AllWhole(d.ended) && !a.Finish?
    ensures AllWhole(Step(c, p, d, a).ended)
  {
    EndedGrows(c, p, d, a);
    var d' := Step(c, p, d, a);
    hide Step, AllWhole, Callable;
    if d'.ended != d.ended { WholeMore(d.ended, d'.ended[|d.ended|]); }
  }

  lemma EndedGrows<S>(c: Cipher<S>, p: nat, d: State<S>, a: Action<S>)
    requires Callable(p, d, a) && !a.Finish?
    ensures var ended' := Step(c, p, d, a).ended;
            ended' == d.ended
            || (|ended'| == |d.ended| + 1 && ended'[|d.ended|].whole && ended' == d.ended + [ended'[|d.ended|]])
  {
    hide EnqueueAll, Uplink.Step, Entry.Write, Entry.Close, Stream.Write, Stream.Close;
  }

  lemma WholeMore(ended: seq<Ended>, e: Ended)
    requires AllWhole(ended) && e.whole
    ensures AllWhole(ended + [e])
  {
  }
}
