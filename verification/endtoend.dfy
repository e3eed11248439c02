/** From the application's writes on one end to the callbacks on the other. */
module EndToEnd {
  import opened Wire
  import opened Block
  import opened Decoder
  import opened Cipher
  import Device
  import Entry
  import Stream
  import Uplink
  import Reassembly
  import Completeness
  import Pacing
  import Pipeline
  import PouchHeader
  import Saead

  // What the receiver should assemble on each id
  function Expected<S>(d: Device.State<S>, id: BlockId): seq<Message> {
    if id == 0 then Entry.Messages(d.entries) else Device.MessagesOf(d.ended, id)
  }

  lemma {:induction false} ClosedDeliver(p: nat, ended: seq<Device.Ended>, id: BlockId)
    requires PayloadSize(p) && Device.EndedOk(p, ended) && Device.NoneCut(p, ended) && id != 0
    ensures Deliver([], Device.Closed(p, ended, id)) == Some(Device.MessagesOf(ended, id))
    ensures Idle(Device.MessagesOf(ended, id))
    decreases |ended|
  {
    if ended != [] {
      var e, before := ended[|ended| - 1], ended[..|ended| - 1];
      assert forall i | 0 <= i < |before| :: before[i] == ended[i];
      ClosedDeliver(p, before, id);
      var ms, blocks := Device.MessagesOf(before, id), Device.Closed(p, before, id);
      hide Deliver;
      if e.id == id && e.whole {
        var more := Stream.Segment(p, id, Device.Total(e.path, e.contentType, e.data), true);
        SegmentArrives(p, id, e, ms);
        DeliverConcat([], blocks, more);
      } else {
        assert blocks + [] == blocks && ms + [] == ms;
      }
    }
  }

  lemma SegmentArrives(p: nat, id: BlockId, e: Device.Ended, ms: seq<Message>)
    requires PayloadSize(p) && id != 0 && Device.PathFits(p, e.path, e.contentType) && Idle(ms)
    ensures Deliver(ms, Stream.Segment(p, id, Device.Total(e.path, e.contentType, e.data), true))
            == Some(ms + [Message(e.path, e.contentType, e.data, true)])
  {
    Stream.SegmentDelivers(p, id, e.path, e.contentType, e.data, ms);
  }

  // A block sequence decodes when each id's own blocks do
  lemma {:induction false} AllDecode(blocks: seq<Bytes>)
    requires forall i | 0 <= i < |blocks| :: HEADER_SIZE <= |blocks[i]|
    requires forall id: BlockId :: DecodeBlocks(BlocksOf(blocks, id)).Some?
    ensures DecodeBlocks(blocks).Some?
    decreases |blocks|
  {
    if blocks != [] {
      var first := DecodeHeader(blocks[0]).id;
      assert BlocksOf(blocks, first) == [blocks[0]] + BlocksOf(blocks[1..], first);
      assert DecodeBlocks(BlocksOf(blocks, first)).Some?;
      FirstDecodes(blocks[0], BlocksOf(blocks[1..], first));
      forall id: BlockId ensures DecodeBlocks(BlocksOf(blocks[1..], id)).Some? {
        assert DecodeBlocks(BlocksOf(blocks, id)).Some?;
        if id != first { assert BlocksOf(blocks, id) == BlocksOf(blocks[1..], id); }
      }
      AllDecode(blocks[1..]);
    }
  }

  lemma FirstDecodes(block: Bytes, rest: seq<Bytes>)
    requires DecodeBlocks([block] + rest).Some?
    ensures DecodeBlock(block).Some? && DecodeBlocks(rest).Some?
  {
    assert ([block] + rest)[1..] == rest;
  }

  // The application has nothing open, and no finish cut a stream off between its blocks
  ghost predicate Done<S>(p: nat, d: Device.State<S>) {
    d.entry == None && d.streams == map[] && Device.NoneCut(p, d.ended)
  }

  // Blocks that left the device complete: the callbacks give every message on every id, once, whole,
  // in order, and nothing else
  lemma CompleteLogDelivers<S>(c: Cipher<S>, p: nat, d: Device.State<S>)
    requires Device.Inv(c, p, d) && Done(p, d)
    ensures DecodeBlocks(d.up.enqueued).Some?
    ensures forall id: BlockId ::
              Collect([], Channel(DecodeBlocks(d.up.enqueued).value, id)) == Some(Expected(d, id))
  {
    var log := d.up.enqueued;
    forall id: BlockId ensures Deliver([], BlocksOf(log, id)) == Some(Expected(d, id)) {
      OneIdDelivers(c, p, d, id);
    }
    forall id: BlockId ensures DecodeBlocks(BlocksOf(log, id)).Some? {
      assert Deliver([], BlocksOf(log, id)).Some?;
    }
    AllDecode(log);
    forall id: BlockId
      ensures Collect([], Channel(DecodeBlocks(log).value, id)) == Some(Expected(d, id))
    {
      DemultiplexBlocks(log, id);
      assert Deliver([], BlocksOf(log, id)) == Some(Expected(d, id));
    }
  }

  lemma OneIdDelivers<S>(c: Cipher<S>, p: nat, d: Device.State<S>, id: BlockId)
    requires Device.Inv(c, p, d) && Done(p, d)
    ensures Deliver([], BlocksOf(d.up.enqueued, id)) == Some(Expected(d, id))
  {
    if id == 0 {
      Entry.EntriesDeliver(p, BlocksOf(d.up.enqueued, 0), d.entries, []);
      assert [] + Entry.Messages(d.entries) == Entry.Messages(d.entries);
    } else {
      assert !Device.Used(d, id);
      ClosedDeliver(p, d.ended, id);
    }
  }

  // The session's bytes come out as its blocks if and only if the fragments keep up with them, and the
  // blocks open to what was enqueued
  lemma SessionReassembles<S(!new)>(c: Cipher<S>, p: nat, cap: nat, parse: Reassembly.HeaderParser,
                                    s: Uplink.Session<S>, frags: seq<Bytes>)
    requires PayloadSize(p) && HEADER_SIZE <= cap && Lawful(c, p, cap - 2) && AllOnWire(s.moved, 1 + p)
    requires 1 <= |s.header| <= cap && Reassembly.SelfDelimiting(parse, s.header)
    requires Flatten(frags) == Uplink.OnTheWire(c, s)
    ensures var wires := SealAll(c, s.crypto, s.moved).1;
            && (Reassembly.PushAll(cap, parse, Reassembly.Init(), frags).out == wires
                <==> Pacing.KeepsUp(cap, |s.header|, Pacing.Lens(wires), Pacing.Lens(frags)))
            && OpenAll(c, s.crypto, wires).1 == s.moved
  {
    var wires := SealAll(c, s.crypto, s.moved).1;
    SealedOpens(c, p, cap - 2, s.crypto, s.moved);
    Completeness.WholeIff(cap, parse, s.header, wires, frags);
  }

  // Fragments no longer than the shortest block keep up
  lemma ShortKeepsUp<S(!new)>(c: Cipher<S>, p: nat, cap: nat, parse: Reassembly.HeaderParser,
                              s: Uplink.Session<S>, frags: seq<Bytes>, m: nat)
    requires PayloadSize(p) && HEADER_SIZE <= cap && Lawful(c, p, cap - 2) && AllOnWire(s.moved, 1 + p)
    requires 1 <= |s.header| <= cap && Reassembly.SelfDelimiting(parse, s.header)
    requires Flatten(frags) == Uplink.OnTheWire(c, s)
    requires forall i | 0 <= i < |frags| :: |frags[i]| <= m
    requires Reassembly.AtLeast(SealAll(c, s.crypto, s.moved).1, m)
    ensures Pacing.KeepsUp(cap, |s.header|, Pacing.Lens(SealAll(c, s.crypto, s.moved).1), Pacing.Lens(frags))
  {
    var wires := SealAll(c, s.crypto, s.moved).1;
    SealedOpens(c, p, cap - 2, s.crypto, s.moved);
    if wires == [] {
      Reassembly.Reassembles(cap, parse, s.header, [], frags);
      Completeness.WholeIff(cap, parse, s.header, [], frags);
    } else {
      Completeness.ShortKeepsUp(cap, parse, s.header, wires, frags, m);
    }
  }

  // What the receiver still gets of a session that was cut off after some of its bytes: a prefix of its
  // blocks, no more than were whole in those bytes, and all of these if and only if the fragments keep
  // up with them. All of the session's blocks arrive only if all of its bytes were pulled.
  lemma CutSession<S(!new)>(c: Cipher<S>, p: nat, cap: nat, parse: Reassembly.HeaderParser,
                            s: Uplink.Session<S>, frags: seq<Bytes>, r: S)
    requires PayloadSize(p) && HEADER_SIZE <= cap && Lawful(c, p, cap - 2) && AllOnWire(s.moved, 1 + p)
    requires 1 <= |s.header| <= cap && Reassembly.SelfDelimiting(parse, s.header)
    requires Flatten(frags) == s.pulled <= Uplink.OnTheWire(c, s) && Mirrors(c, r, s.crypto)
    ensures var wires := SealAll(c, s.crypto, s.moved).1;
            var lens := Pacing.Lens(wires);
            var pieces := Pacing.AllPieces(cap, |s.header|, lens, 0, 0, Pacing.Lens(frags));
            var whole := Pacing.Arrived(|s.header|, lens, |s.pulled|);
            var out := Reassembly.PushAll(cap, parse, Reassembly.Init(), frags).out;
            && |out| <= whole <= |s.moved| && OpenAll(c, r, out).1 == s.moved[..|out|]
            && (|out| == whole <==> whole <= |pieces| && Pacing.Paced(|s.header|, lens, 0, pieces, whole))
            && (whole == |s.moved| <==> s.pulled == Uplink.OnTheWire(c, s))
  {
    var wires := SealAll(c, s.crypto, s.moved).1;
    var out := Reassembly.PushAll(cap, parse, Reassembly.Init(), frags).out;
    SealedOpens(c, p, cap - 2, s.crypto, s.moved);
    WireIsStream(s.header, wires, s.pulled);
    Reassembly.Reassembles(cap, parse, s.header, wires, frags);
    Completeness.OutArrived(cap, Reassembly.PushAll(cap, parse, Reassembly.Init(), frags), s.header, wires, s.pulled);
    var whole := Completeness.Arrived(s.header, wires, |s.pulled|);
    Completeness.SettledIff(cap, parse, s.header, wires, frags);
    Completeness.SettledMeans(cap, Reassembly.PushAll(cap, parse, Reassembly.Init(), frags), s.header, wires, s.pulled);
    Completeness.ArrivedByLength(s.header, wires, |s.pulled|);
    OpensPrefix(c, p, cap, s.crypto, s.moved, |out|);
    assert OpenAll(c, r, out).1 == OpenAll(c, s.crypto, out).1;
    Completeness.AllArrived(s.header, wires, s.pulled);
  }

  lemma WireIsStream(header: Bytes, wires: seq<Bytes>, pulled: Bytes)
    requires pulled <= if wires == [] then [] else header + Flatten(wires)
    ensures pulled <= header + Flatten(wires)
  {
  }

  // The first sealed blocks open to the first blocks
  lemma OpensPrefix<S(!new)>(c: Cipher<S>, p: nat, cap: nat, s: S, blocks: seq<Bytes>, k: nat)
    requires 2 <= cap && Lawful(c, p, cap - 2) && AllOnWire(blocks, 1 + p) && k <= |blocks|
    ensures var wires := SealAll(c, s, blocks).1;
            |wires| == |blocks| && OpenAll(c, s, wires[..k]).1 == blocks[..k]
  {
    var a, b := blocks[..k], blocks[k..];
    assert a + b == blocks;
    forall i | 0 <= i < |a| ensures OnWire(a[i], 1 + p) { assert OnWire(blocks[i], 1 + p); }
    SealAllConcat(c, s, a, b);
    SealedOpens(c, p, cap - 2, s, a);
    SealedOpens(c, p, cap - 2, s, blocks);
    var first := SealAll(c, s, a).1;
    assert SealAll(c, s, blocks).1[..k] == first;
  }

  // The device ran one session, the application has nothing open, and the fill call that returns
  // NO_MORE_DATA is about to be made
  ghost predicate SentAll<S(!new)>(c: Cipher<S>, p: nat, boot: S, actions: seq<Device.Action<S>>,
                                   d: Device.State<S>, n: nat) {
    && PayloadSize(p) && Device.Runs(c, p, Device.Boot(boot), actions, d)
    && d.up.u.active && Uplink.Fill(d.up.u, n).result == Uplink.NoMoreData
    && |d.up.sessions| == 1 && d.up.u.processing == []
    && Done(p, d)
  }

  // The fragments keep up with the session's blocks, and the handlers of a receiver in state r ran on
  // them, in any order, until nothing was waiting
  ghost predicate Arrives<S(!new)>(c: Cipher<S>, cap: nat, parse: Reassembly.HeaderParser, s: Uplink.Session<S>,
                                   frags: seq<Bytes>, r: S, work: seq<Pipeline.Action>) {
    && HEADER_SIZE <= cap && 1 <= |s.header| <= cap && Reassembly.SelfDelimiting(parse, s.header)
    && Pacing.KeepsUp(cap, |s.header|, Pacing.Lens(SealAll(c, s.crypto, s.moved).1), Pacing.Lens(frags))
    && Mirrors(c, r, s.crypto)
    && Pipeline.Submitted(work) == Reassembly.PushAll(cap, parse, Reassembly.Init(), frags).out
    && Pipeline.Run(c, Pipeline.Init(r), work).decryptQueue == []
    && Pipeline.Run(c, Pipeline.Init(r), work).consumeQueue == []
  }

  // and they are what the session handed to its fill calls
  ghost predicate Carried<S(!new)>(c: Cipher<S>, cap: nat, parse: Reassembly.HeaderParser, s: Uplink.Session<S>,
                                   frags: seq<Bytes>, r: S, work: seq<Pipeline.Action>) {
    Flatten(frags) == s.pulled && Arrives(c, cap, parse, s, frags, r, work)
  }

  // What the receiver's callbacks are given
  function Callbacks<S>(c: Cipher<S>, r: S, work: seq<Pipeline.Action>): Option<seq<Event>> {
    DecodeBlocks(Pipeline.Run(c, Pipeline.Init(r), work).delivered)
  }

  // The callbacks assemble to exactly the accepted messages of each id
  ghost predicate AllReceived<S>(d: Device.State<S>, events: Option<seq<Event>>) {
    events.Some? && forall id: BlockId :: Collect([], Channel(events.value, id)) == Some(Expected(d, id))
  }

  // Any run of one session: entries and streams in any interleaving, handler runs and fill calls in
  // between, allocations failing or not; any fragmentation that keeps up; any schedule of the
  // receiver's handlers
  lemma Loopback<S(!new)>(c: Cipher<S>, p: nat, cap: nat, parse: Reassembly.HeaderParser, boot: S,
                          actions: seq<Device.Action<S>>, d: Device.State<S>, n: nat,
                          frags: seq<Bytes>, r: S, work: seq<Pipeline.Action>)
    requires 2 <= cap && Lawful(c, p, cap - 2) && SentAll(c, p, boot, actions, d, n)
    requires Carried(c, cap, parse, Uplink.Step(c, d.up, Uplink.DoFill(n)).sessions[0], frags, r, work)
    ensures AllReceived(d, Callbacks(c, r, work))
  {
    hide SentAll, Uplink.Fill, Uplink.Step, Pacing.KeepsUp, Done, Device.Inv, Uplink.OnTheWire;
    OneSent(c, p, boot, actions, d, n);
    var s := Uplink.Step(c, d.up, Uplink.DoFill(n)).sessions[0];
    SessionReassembles(c, p, cap, parse, s, frags);
    PipelineDelivers(c, r, work);
    assert OpenAll(c, r, SealAll(c, s.crypto, s.moved).1).1 == s.moved;
    CompleteLogDelivers(c, p, d);
  }

  // The session has sent all that was enqueued
  lemma OneSent<S(!new)>(c: Cipher<S>, p: nat, boot: S, actions: seq<Device.Action<S>>, d: Device.State<S>, n: nat)
    requires SentAll(c, p, boot, actions, d, n)
    ensures PayloadSize(p) && Device.Inv(c, p, d) && Done(p, d)
    ensures var h := Uplink.Step(c, d.up, Uplink.DoFill(n));
            && |h.sessions| == 1 && h.sessions[0].moved == d.up.enqueued && AllOnWire(d.up.enqueued, 1 + p)
            && h.sessions[0].pulled == Uplink.OnTheWire(c, h.sessions[0])
  {
    hide Uplink.Fill, Done, Uplink.OnTheWire;
    Device.BootInv(c, p, boot);
    Device.RunKeeps(c, p, Device.Boot(boot), actions, d);
    hide Device.Runs;
    Uplink.FillDelivers(c, d.up, n);
    OneSession(d.up);
    SameOnWire(c, d.up.sessions[0], Uplink.Step(c, d.up, Uplink.DoFill(n)).sessions[0]);
  }

  lemma SameOnWire<S>(c: Cipher<S>, s: Uplink.Session<S>, s': Uplink.Session<S>)
    requires s'.header == s.header && s'.crypto == s.crypto && s'.moved == s.moved
    ensures Uplink.OnTheWire(c, s') == Uplink.OnTheWire(c, s)
  {
  }

  ghost predicate CarriedPlain(p: nat, deviceId: Bytes, s: Uplink.Session<()>, frags: seq<Bytes>,
                               work: seq<Pipeline.Action>) {
    var cap, q := HEADER_SIZE + p, Pipeline.Run(Plain(), Pipeline.Init(()), work);
    && |deviceId| < 256 && s.header == PouchHeader.Encode(deviceId) && |s.header| <= cap && Flatten(frags) == s.pulled
    && Pacing.KeepsUp(cap, |s.header|, Pacing.Lens(s.moved), Pacing.Lens(frags))
    && Pipeline.Submitted(work) == Reassembly.PushAll(cap, PouchHeader.Parse, Reassembly.Init(), frags).out
    && q.decryptQueue == [] && q.consumeQueue == []
  }

  lemma PlainIsCarried(p: nat, deviceId: Bytes, s: Uplink.Session<()>, frags: seq<Bytes>, work: seq<Pipeline.Action>)
    requires CarriedPlain(p, deviceId, s, frags, work)
    ensures Carried(Plain(), HEADER_SIZE + p, PouchHeader.Parse, s, frags, (), work)
  {
    PouchHeader.HeaderSelfDelimits(deviceId);
    SealAllPlain(s.crypto, s.moved);
    hide Pacing.KeepsUp, Reassembly.PushAll, Pipeline.Run, SealAll;
  }

  // The plaintext build: its cipher and its header meet what the theorem asks of them
  lemma LoopbackPlain(p: nat, deviceId: Bytes, actions: seq<Device.Action<()>>, d: Device.State<()>, n: nat,
                      frags: seq<Bytes>, work: seq<Pipeline.Action>)
    requires SentAll(Plain(), p, (), actions, d, n)
    requires CarriedPlain(p, deviceId, Uplink.Step(Plain(), d.up, Uplink.DoFill(n)).sessions[0], frags, work)
    ensures AllReceived(d, Callbacks(Plain(), (), work))
  {
    PlainLawful(p);
    PlainIsCarried(p, deviceId, Uplink.Step(Plain(), d.up, Uplink.DoFill(n)).sessions[0], frags, work);
    hide AllReceived, Device.Runs, Device.Boot, Uplink.Step, Carried, CarriedPlain;
    Loopback(Plain(), p, HEADER_SIZE + p, PouchHeader.Parse, (), actions, d, n, frags, (), work);
  }

  lemma {:induction false} SealAllPlain(s: (), blocks: seq<Bytes>)
    ensures s == () && SealAll(Plain(), s, blocks) == ((), blocks)
  {
    match s { case () => }
    if blocks != [] {
      SealAllPlain(s, blocks[1..]);
      assert [blocks[0]] + blocks[1..] == blocks;
    }
  }

  // The encrypted build. The receiver is the device's mirror; it holds the same key and has started the
  // same pouch, with whatever tag an earlier pouch left behind.
  lemma LoopbackSealed(a: Saead.Aead, p: nat, parse: Reassembly.HeaderParser, boot: Saead.Chain,
                       actions: seq<Device.Action<Saead.Chain>>, d: Device.State<Saead.Chain>, n: nat,
                       frags: seq<Bytes>, r: Saead.Chain, work: seq<Pipeline.Action>)
    requires Saead.Correct(a) && SentAll(Saead.CipherOf(a, Saead.Device), p, boot, actions, d, n)
    requires var c, cap := Saead.CipherOf(a, Saead.Device), HEADER_SIZE + p + AUTH_TAG_LEN;
             var s := Uplink.Step(c, d.up, Uplink.DoFill(n)).sessions[0];
             && Saead.Level(r, s.crypto) && Flatten(frags) == s.pulled
             && 1 <= |s.header| <= cap && Reassembly.SelfDelimiting(parse, s.header)
             && Pacing.KeepsUp(cap, |s.header|, Pacing.Lens(SealAll(c, s.crypto, s.moved).1), Pacing.Lens(frags))
             && Pipeline.Submitted(work) == Reassembly.PushAll(cap, parse, Reassembly.Init(), frags).out
             && Pipeline.Run(c, Pipeline.Init(r), work).decryptQueue == []
             && Pipeline.Run(c, Pipeline.Init(r), work).consumeQueue == []
    ensures AllReceived(d, Callbacks(Saead.CipherOf(a, Saead.Device), r, work))
  {
    var c, cap := Saead.CipherOf(a, Saead.Device), HEADER_SIZE + p + AUTH_TAG_LEN;
    Saead.ChainLawful(a, Saead.Device, p);
    Saead.LevelMirrors(a, Saead.Device, r, Uplink.Step(c, d.up, Uplink.DoFill(n)).sessions[0].crypto);
    hide AllReceived, Saead.CipherOf, Device.Runs, Device.Boot, Uplink.Step, Mirrors, Pacing.KeepsUp;
    Loopback(c, p, cap, parse, boot, actions, d, n, frags, r, work);
  }

  // ---- several sessions

  // How one session was carried: its fragments, and the receiver's state and handler runs
  datatype Leg<S> = Leg(frags: seq<Bytes>, r: S, work: seq<Pipeline.Action>)

  // The blocks delivered in one session after the other
  function AllDelivered<S>(c: Cipher<S>, legs: seq<Leg<S>>): seq<Bytes> {
    if legs == [] then []
    else
      var leg := legs[|legs| - 1];
      AllDelivered(c, legs[..|legs| - 1]) + Pipeline.Run(c, Pipeline.Init(leg.r), leg.work).delivered
  }

  // Every session was pulled to its end and carried
  ghost predicate AllCarried<S(!new)>(c: Cipher<S>, cap: nat, parse: Reassembly.HeaderParser,
                                      sessions: seq<Uplink.Session<S>>, legs: seq<Leg<S>>) {
    && |legs| == |sessions|
    && forall i | 0 <= i < |sessions| ::
         && sessions[i].pulled == Uplink.OnTheWire(c, sessions[i])
         && Carried(c, cap, parse, sessions[i], legs[i].frags, legs[i].r, legs[i].work)
  }

  lemma LegDelivers<S(!new)>(c: Cipher<S>, p: nat, cap: nat, parse: Reassembly.HeaderParser,
                             s: Uplink.Session<S>, leg: Leg<S>)
    requires PayloadSize(p) && 2 <= cap && Lawful(c, p, cap - 2) && AllOnWire(s.moved, 1 + p)
    requires s.pulled == Uplink.OnTheWire(c, s) && Carried(c, cap, parse, s, leg.frags, leg.r, leg.work)
    ensures Pipeline.Run(c, Pipeline.Init(leg.r), leg.work).delivered == s.moved
  {
    SessionReassembles(c, p, cap, parse, s, leg.frags);
    PipelineDelivers(c, leg.r, leg.work);
    assert OpenAll(c, leg.r, SealAll(c, s.crypto, s.moved).1).1 == s.moved;
  }

  lemma {:induction false} LegsDeliver<S(!new)>(c: Cipher<S>, p: nat, cap: nat, parse: Reassembly.HeaderParser,
                                                sessions: seq<Uplink.Session<S>>, legs: seq<Leg<S>>)
    requires PayloadSize(p) && 2 <= cap && Lawful(c, p, cap - 2)
    requires AllCarried(c, cap, parse, sessions, legs) && AllOnWire(Uplink.AllMoved(sessions), 1 + p)
    ensures AllDelivered(c, legs) == Uplink.AllMoved(sessions)
    decreases |sessions|
  {
    hide Carried, Lawful, Uplink.OnTheWire, AllOnWire, AllCarried, Pipeline.Run;
    if sessions == [] {
      CarriedPrefix(c, cap, parse, sessions, legs);
    } else {
      var n := |sessions| - 1;
      CarriedPrefix(c, cap, parse, sessions, legs);
      PartsOnWire(Uplink.AllMoved(sessions[..n]), sessions[n].moved, 1 + p);
      LegDelivers(c, p, cap, parse, sessions[n], legs[n]);
      LegsDeliver(c, p, cap, parse, sessions[..n], legs[..n]);
    }
  }

  lemma CarriedPrefix<S(!new)>(c: Cipher<S>, cap: nat, parse: Reassembly.HeaderParser,
                               sessions: seq<Uplink.Session<S>>, legs: seq<Leg<S>>)
    requires AllCarried(c, cap, parse, sessions, legs)
    ensures |legs| == |sessions|
    ensures var n := |sessions| - 1;
            n >= 0 ==>
              && AllCarried(c, cap, parse, sessions[..n], legs[..n])
              && sessions[n].pulled == Uplink.OnTheWire(c, sessions[n])
              && Carried(c, cap, parse, sessions[n], legs[n].frags, legs[n].r, legs[n].work)
  {
    hide Carried, Uplink.OnTheWire;
  }

  lemma PartsOnWire(a: seq<Bytes>, b: seq<Bytes>, maxField: nat)
    requires AllOnWire(a + b, maxField)
    ensures AllOnWire(a, maxField) && AllOnWire(b, maxField)
  {
    assert forall i | 0 <= i < |a| :: a[i] == (a + b)[i];
    assert forall i | 0 <= i < |b| :: b[i] == (a + b)[|a| + i];
  }

  // Any run of any number of sessions with finishes between them, each pulled to its end before the next:
  // what was queued in one session and moved in a later one arrives too, and in order
  lemma LoopbackSessions<S(!new)>(c: Cipher<S>, p: nat, cap: nat, parse: Reassembly.HeaderParser, boot: S,
                                  actions: seq<Device.Action<S>>, d: Device.State<S>, legs: seq<Leg<S>>)
    requires PayloadSize(p) && 2 <= cap && Lawful(c, p, cap - 2)
    requires Device.Runs(c, p, Device.Boot(boot), actions, d) && Done(p, d) && d.up.u.processing == []
    requires AllCarried(c, cap, parse, d.up.sessions, legs)
    ensures AllReceived(d, DecodeBlocks(AllDelivered(c, legs)))
  {
    Device.BootInv(c, p, boot);
    Device.RunKeeps(c, p, Device.Boot(boot), actions, d);
    assert Uplink.AllMoved(d.up.sessions) + [] == Uplink.AllMoved(d.up.sessions);
    LegsDeliver(c, p, cap, parse, d.up.sessions, legs);
    hide Device.Runs, Device.Boot, AllCarried, Done;
    CompleteLogDelivers(c, p, d);
  }

  lemma OneSession<S>(h: Uplink.History<S>)
    requires Uplink.Conserved(h) && |h.sessions| == 1 && h.u.processing == []
    ensures h.enqueued == h.sessions[0].moved
  {
    assert h.sessions[..0] == [];
    assert Uplink.AllMoved(h.sessions) == [] + h.sessions[0].moved;
    assert [] + h.sessions[0].moved + [] == h.sessions[0].moved;
  }

  lemma PipelineDelivers<S>(c: Cipher<S>, s: S, work: seq<Pipeline.Action>)
    requires Pipeline.Run(c, Pipeline.Init(s), work).decryptQueue == []
    requires Pipeline.Run(c, Pipeline.Init(s), work).consumeQueue == []
    ensures Pipeline.Run(c, Pipeline.Init(s), work).delivered == OpenAll(c, s, Pipeline.Submitted(work)).1
  {
    var q := Pipeline.Run(c, Pipeline.Init(s), work);
    var taken := Pipeline.RunKeeps(c, s, [], Pipeline.Init(s), work);
    assert taken + [] == taken && [] + [] + Pipeline.Submitted(work) == Pipeline.Submitted(work);
    assert q.delivered + [] == q.delivered;
  }
}
