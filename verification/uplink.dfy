/** The uplink session machine (src/uplink.c): each API call and each run of the work handler is one step. */
module Uplink {
  import opened Wire
  import opened Block
  import opened Cipher

  datatype Reader = NoReader | Reading(buf: Bytes, offset: nat)

  datatype Event = SessionStart | SessionEnd

  datatype State<S> = State(
    header: Option<Bytes>,
    active: bool, closing: bool, closed: bool,
    id: nat,
    processing: seq<Bytes>, pending: bool,
    transport: seq<Bytes>, reader: Reader,
    crypto: S,
    events: seq<Event>)

  function Init<S>(s: S): State<S> {
    State(None, false, false, false, 0, [], false, [], NoReader, s, [])
  }

  // uplink_enqueue
  function Enqueue<S>(u: State<S>, block: Bytes): State<S> {
    u.(processing := u.processing + [block], pending := true)
  }

  // One turn of the loop of process_blocks: the header goes first, once there is something to follow it
  function ProcessTurn<S>(c: Cipher<S>, u: State<S>): State<S>
    requires u.processing != []
  {
    var (s, w) := c.seal(u.crypto, u.processing[0]);
    var u1 := u.(processing := u.processing[1..], crypto := s);
    match w
    case None => u1
    case Some(wire) =>
      var lead := if u.header.Some? then [u.header.value] else [];
      u1.(header := None, transport := u.transport + lead + [wire])
  }

  function ProcessLoop<S>(c: Cipher<S>, u: State<S>): State<S>
    decreases |u.processing|
  {
    if !u.active || u.closed || u.processing == [] then u else ProcessLoop(c, ProcessTurn(c, u))
  }

  // process_blocks
  function Work<S>(c: Cipher<S>, u: State<S>): State<S> {
    var u' := ProcessLoop(c, u.(pending := false));
    u'.(closed := u'.closed || u'.closing)
  }

  // pouch_uplink_close, with the block that entry_block_close flushes, if any
  function Close<S>(u: State<S>, flush: Option<Bytes>): State<S> {
    if u.closing then u
    else
      var u' := u.(closing := true, pending := true);
      if flush.Some? then Enqueue(u', flush.value) else u'
  }

  // pouch_uplink_start. setup: the crypto calls succeed; header is None when none could be created.
  function Start<S>(u: State<S>, setup: bool, header: Option<Bytes>, crypto: S): State<S> {
    if u.active || !setup then u
    else if header == None then u.(header := None, crypto := crypto)
    else
      u.(active := true, header := header, crypto := crypto, events := u.events + [SessionStart],
         pending := u.pending || u.processing != [])
  }

  datatype Filled = Filled(reader: Reader, transport: seq<Bytes>, out: Bytes)

  predicate Ready(r: Reader) {
    r.Reading? && r.offset < |r.buf|
  }

  // The loop of pouch_uplink_fill, with room for n more bytes
  function FillLoop(reader: Reader, transport: seq<Bytes>, n: nat): Filled
    decreases |transport| + n
  {
    if n == 0 then Filled(reader, transport, [])
    else if Ready(reader) then
      var k := Min(n, |reader.buf| - reader.offset);
      var reader' := if reader.offset + k == |reader.buf| then NoReader
                     else reader.(offset := reader.offset + k);
      var f := FillLoop(reader', transport, n - k);
      f.(out := reader.buf[reader.offset..reader.offset + k] + f.out)
    else if transport == [] then Filled(reader, [], [])
    else if transport[0] == [] then FillLoop(NoReader, transport[1..], n)
    else FillLoop(Reading(transport[0], 0), transport[1..], n)
  }

  datatype PouchResult = NoMoreData | MoreData | Error

  datatype FillResult<S> = FillResult(state: State<S>, out: Bytes, result: PouchResult)

  // pouch_uplink_fill
  function Fill<S>(u: State<S>, n: nat): FillResult<S> {
    if !u.active then FillResult(u, [], Error)
    else
      var f := FillLoop(u.reader, u.transport, n);
      var u' := u.(reader := f.reader, transport := f.transport);
      if !u.closed || Ready(f.reader) || f.transport != [] then FillResult(u', f.out, MoreData)
      else FillResult(u'.(active := false, events := u.events + [SessionEnd]), f.out, NoMoreData)
  }

  // The session id is a 32-bit counter
  function NextId(id: nat): nat { (id + 1) % 0x1_0000_0000 }

  // pouch_uplink_finish
  function Finish<S>(u: State<S>): State<S> {
    u.(transport := [], reader := NoReader, header := None, id := NextId(u.id),
       active := false, closing := false, closed := false,
       events := u.events + (if u.active then [SessionEnd] else []))
  }

  // ---- what the transport can still pull

  function Available<S>(u: State<S>): Bytes {
    Rest(u.reader) + Flatten(u.transport)
  }

  function Rest(r: Reader): Bytes {
    if Ready(r) then r.buf[r.offset..] else []
  }

  predicate WellRead(r: Reader) {
    r.Reading? ==> r.offset < |r.buf|
  }

  // For any request size the loop takes that many bytes off the flattened queue; it stops short
  // only when the queue and the reader are drained
  ghost predicate Takes(all: Bytes, n: nat, f: Filled) {
    && f.out == all[..Min(n, |all|)]
    && Rest(f.reader) + Flatten(f.transport) == all[Min(n, |all|)..]
    && WellRead(f.reader)
    && (|f.out| < n ==> f.reader == NoReader && f.transport == [])
  }

  lemma {:induction false} FillTakes(reader: Reader, transport: seq<Bytes>, n: nat)
    requires WellRead(reader)
    ensures Takes(Rest(reader) + Flatten(transport), n, FillLoop(reader, transport, n))
    decreases |transport| + n
  {
    if n == 0 || (!Ready(reader) && transport == []) {
      TakesNothing(reader, transport, n);
    } else if Ready(reader) {
      var k := Min(n, |reader.buf| - reader.offset);
      var reader' := if reader.offset + k == |reader.buf| then NoReader
                     else reader.(offset := reader.offset + k);
      hide Takes, Flatten;
      FillTakes(reader', transport, n - k);
      assert Rest(reader') == reader.buf[reader.offset + k..];
      TakesMore(reader.buf, reader.offset, k, Flatten(transport), n, FillLoop(reader', transport, n - k));
    } else {
      Fetch(transport[0], Flatten(transport[1..]));
      assert Flatten(transport) == transport[0] + Flatten(transport[1..]);
      hide Takes, Flatten;
      if transport[0] != [] {
        FillTakes(Reading(transport[0], 0), transport[1..], n);
      } else {
        FillTakes(NoReader, transport[1..], n);
      }
    }
  }

  lemma TakesNothing(reader: Reader, transport: seq<Bytes>, n: nat)
    requires WellRead(reader) && (n == 0 || (!Ready(reader) && transport == []))
    ensures Takes(Rest(reader) + Flatten(transport), n, Filled(reader, transport, []))
  {
  }

  lemma TakesRead(all: Bytes, n: nat, f: Filled)
    requires Takes(all, n, f)
    ensures WellRead(f.reader)
  {
  }

  lemma Fetch(buf: Bytes, queue: Bytes)
    ensures [] + (buf + queue) == buf + queue && buf[0..] == buf
    ensures buf == [] ==> buf + queue == [] + queue
  {
  }

  lemma TakesMore(buf: Bytes, offset: nat, k: nat, queue: Bytes, n: nat, f: Filled)
    requires offset + k <= |buf| && k <= n && Takes(buf[offset + k..] + queue, n - k, f)
    ensures Takes(buf[offset..] + queue, n, f.(out := buf[offset..offset + k] + f.out))
  {
    var all, more := buf[offset..] + queue, buf[offset + k..] + queue;
    assert all == buf[offset..offset + k] + more;
    var m := Min(n - k, |more|);
    assert all[..k + m] == buf[offset..offset + k] + more[..m];
    assert all[k + m..] == more[m..];
  }

  // What the loop still has to do after it has put out into the caller's buffer
  ghost predicate FillGoesOn(whole: Filled, out: Bytes, reader: Reader, transport: seq<Bytes>, n: nat) {
    var f := FillLoop(reader, transport, n);
    whole == f.(out := out + f.out)
  }

  lemma FillBegins(reader: Reader, transport: seq<Bytes>, n: nat)
    ensures FillGoesOn(FillLoop(reader, transport, n), [], reader, transport, n)
  {
    assert [] + FillLoop(reader, transport, n).out == FillLoop(reader, transport, n).out;
  }

  lemma FillEnds(whole: Filled, out: Bytes, reader: Reader, transport: seq<Bytes>, n: nat)
    requires FillGoesOn(whole, out, reader, transport, n)
    requires n == 0 || (reader == NoReader && transport == [])
    ensures whole == Filled(reader, transport, out)
  {
    assert out + [] == out;
  }

  lemma FillFetches(whole: Filled, out: Bytes, transport: seq<Bytes>, n: nat)
    requires FillGoesOn(whole, out, NoReader, transport, n) && transport != [] && 0 < n
    ensures FillGoesOn(whole, out, if transport[0] == [] then NoReader else Reading(transport[0], 0), transport[1..], n)
  {
  }

  lemma FillCopies(whole: Filled, out: Bytes, reader: Reader, transport: seq<Bytes>, n: nat)
    requires FillGoesOn(whole, out, reader, transport, n) && Ready(reader) && 0 < n
    ensures var k := Min(n, |reader.buf| - reader.offset);
            FillGoesOn(whole, out + reader.buf[reader.offset..reader.offset + k],
                       if reader.offset + k == |reader.buf| then NoReader else reader.(offset := reader.offset + k),
                       transport, n - k)
  {
    var k := Min(n, |reader.buf| - reader.offset);
    var reader' := if reader.offset + k == |reader.buf| then NoReader else reader.(offset := reader.offset + k);
    Assoc(out, reader.buf[reader.offset..reader.offset + k], FillLoop(reader', transport, n - k).out);
  }

  // ---- whole runs

  // One session: its header, the crypto state it began with, the blocks the work handler moved
  // into it, and the bytes the transport has pulled
  datatype Session<S> = Session(header: Bytes, crypto: S, moved: seq<Bytes>, pulled: Bytes)

  // The machine with its history: every block ever enqueued, every session ever started
  datatype History<S> = History(u: State<S>, enqueued: seq<Bytes>, sessions: seq<Session<S>>)

  datatype Action<S> =
    | DoEnqueue(block: Bytes)
    | DoClose(flush: Option<Bytes>)
    | DoWork
    | DoStart(setup: bool, header: Option<Bytes>, crypto: S)
    | DoFill(n: nat)
    | DoFinish

  function Last<T>(s: seq<T>): T
    requires s != []
  {
    s[|s| - 1]
  }

  function SetLast<T>(s: seq<T>, x: T): seq<T>
    requires s != []
  {
    s[..|s| - 1] + [x]
  }

  function Step<S>(c: Cipher<S>, h: History<S>, a: Action<S>): History<S> {
    match a
    case DoEnqueue(block) => h.(u := Enqueue(h.u, block), enqueued := h.enqueued + [block])
    case DoClose(flush) =>
      h.(u := Close(h.u, flush),
         enqueued := h.enqueued + (if !h.u.closing && flush.Some? then [flush.value] else []))
    case DoWork =>
      var u' := Work(c, h.u);
      if h.sessions == [] then h.(u := u')
      else
        var last := Last(h.sessions);
        var moved := h.u.processing[..|h.u.processing| - Min(|h.u.processing|, |u'.processing|)];
        h.(u := u', sessions := SetLast(h.sessions, last.(moved := last.moved + moved)))
    case DoStart(setup, header, crypto) =>
      var u' := Start(h.u, setup, header, crypto);
      if h.u.active || !setup || header == None then h.(u := u')
      else h.(u := u', sessions := h.sessions + [Session(header.value, crypto, [], [])])
    case DoFill(n) =>
      var f := Fill(h.u, n);
      if h.sessions == [] then h.(u := f.state)
      else
        var last := Last(h.sessions);
        h.(u := f.state, sessions := SetLast(h.sessions, last.(pulled := last.pulled + f.out)))
    case DoFinish => h.(u := Finish(h.u))
  }

  function Run<S>(c: Cipher<S>, h: History<S>, actions: seq<Action<S>>): History<S>
    decreases |actions|
  {
    if actions == [] then h else Run(c, Step(c, h, actions[0]), actions[1..])
  }

  function Boot<S>(s: S): History<S> {
    History(Init(s), [], [])
  }

  // The bytes a session puts on the wire: nothing, or the header once and then its sealed blocks
  function OnTheWire<S>(c: Cipher<S>, s: Session<S>): Bytes {
    var wires := SealAll(c, s.crypto, s.moved).1;
    if wires == [] then [] else s.header + Flatten(wires)
  }

  // The consecutive segments of blocks the sessions took
  function AllMoved<S>(sessions: seq<Session<S>>): seq<Bytes> {
    if sessions == [] then [] else AllMoved(sessions[..|sessions| - 1]) + Last(sessions).moved
  }

  ghost predicate Conserved<S>(h: History<S>) {
    h.enqueued == AllMoved(h.sessions) + h.u.processing
  }

  ghost predicate PulledFromWire<S>(c: Cipher<S>, sessions: seq<Session<S>>) {
    forall i | 0 <= i < |sessions| :: sessions[i].pulled <= OnTheWire(c, sessions[i])
  }

  // While a session is active, what was pulled and what can be pulled make up its wire bytes,
  // and the header is still pending exactly while no block was sealed
  ghost predicate Current<S>(c: Cipher<S>, u: State<S>, s: Session<S>) {
    var (crypto, wires) := SealAll(c, s.crypto, s.moved);
    && s.pulled + Available(u) == OnTheWire(c, s)
    && u.crypto == crypto
    && u.header == (if wires == [] then Some(s.header) else None)
  }

  ghost predicate Drained<S>(u: State<S>) {
    u.transport == [] && u.reader == NoReader
  }

  // Session events alternate, and the machine is active exactly when the last one was a start
  ghost predicate Alternate(events: seq<Event>, active: bool) {
    && (forall i | 0 <= i < |events| :: events[i] == if i % 2 == 0 then SessionStart else SessionEnd)
    && (active <==> |events| % 2 == 1)
  }

  // No lost wake-up: whenever the handler has something to do, it is scheduled
  ghost predicate Scheduled<S>(u: State<S>) {
    && (u.active && !u.closed && u.processing != [] ==> u.pending)
    && (u.closing && !u.closed ==> u.pending)
    && (u.closed ==> u.closing)
  }

  ghost predicate Inv<S>(c: Cipher<S>, h: History<S>) {
    && Conserved(h)
    && PulledFromWire(c, h.sessions)
    && WellRead(h.u.reader)
    && (if h.u.active then h.sessions != [] && Current(c, h.u, Last(h.sessions)) else Drained(h.u))
    && Alternate(h.u.events, h.u.active)
    && Scheduled(h.u)
  }

  lemma BootInv<S>(c: Cipher<S>, s: S)
    ensures Inv(c, Boot(s))
  {
  }

  // The processing loop in one formula
  lemma {:induction false} ProcessAll<S>(c: Cipher<S>, u: State<S>)
    requires u.active && !u.closed
    ensures var (s, wires) := SealAll(c, u.crypto, u.processing);
            var lead := if u.header.Some? && wires != [] then [u.header.value] else [];
            ProcessLoop(c, u) == u.(processing := [], crypto := s, transport := u.transport + (lead + wires),
                                    header := if wires == [] then u.header else None)
    decreases |u.processing|
  {
    if u.processing == [] {
      assert u.transport + ([] + []) == u.transport;
    } else {
      var (s, w) := c.seal(u.crypto, u.processing[0]);
      var u1 := u.(processing := u.processing[1..], crypto := s);
      var rest := SealAll(c, s, u.processing[1..]).1;
      if w == None {
        ProcessAll(c, u1);
        assert [] + rest == rest;
      } else {
        var lead := if u.header.Some? then [u.header.value] else [];
        var u2 := u1.(header := None, transport := u.transport + lead + [w.value]);
        ProcessAll(c, u2);
        Requeue(u.transport, lead, [w.value], rest);
      }
    }
  }

  lemma Requeue<T>(a: seq<T>, b: seq<T>, c: seq<T>, d: seq<T>)
    ensures a + b + c + ([] + d) == a + (b + (c + d))
  {
  }

  lemma AllMovedSetLast<S>(sessions: seq<Session<S>>, s: Session<S>)
    requires sessions != []
    ensures AllMoved(SetLast(sessions, s)) == AllMoved(sessions[..|sessions| - 1]) + s.moved
  {
    assert SetLast(sessions, s)[..|sessions| - 1] == sessions[..|sessions| - 1];
  }

  lemma PulledSetLast<S>(c: Cipher<S>, sessions: seq<Session<S>>, s: Session<S>)
    requires sessions != [] && PulledFromWire(c, sessions) && s.pulled <= OnTheWire(c, s)
    ensures PulledFromWire(c, SetLast(sessions, s))
  {
  }

  lemma AlternateMore(events: seq<Event>, active: bool)
    requires Alternate(events, active)
    ensures Alternate(events + [if active then SessionEnd else SessionStart], !active)
    ensures Alternate(events + [], active)
  {
    assert events + [] == events;
  }

  // Recording more pulled bytes keeps the books
  lemma Record<S>(c: Cipher<S>, h: History<S>, u': State<S>, s: Session<S>)
    requires h.sessions != [] && Conserved(h) && PulledFromWire(c, h.sessions)
    requires s.moved == Last(h.sessions).moved && s.pulled <= OnTheWire(c, s)
    requires u'.processing == h.u.processing
    ensures Conserved(h.(u := u', sessions := SetLast(h.sessions, s)))
    ensures PulledFromWire(c, SetLast(h.sessions, s)) && SetLast(h.sessions, s) != []
    ensures Last(SetLast(h.sessions, s)) == s
  {
    PulledSetLast(c, h.sessions, s);
    AllMovedSetLast(h.sessions, s);
  }

  lemma EnqueueKeeps<S>(c: Cipher<S>, h: History<S>, block: Bytes)
    requires Inv(c, h)
    ensures Inv(c, Step(c, h, DoEnqueue(block)))
  {
    Assoc(AllMoved(h.sessions), h.u.processing, [block]);
  }

  lemma CloseKeeps<S>(c: Cipher<S>, h: History<S>, flush: Option<Bytes>)
    requires Inv(c, h)
    ensures Inv(c, Step(c, h, DoClose(flush)))
  {
    assert h.enqueued + [] == h.enqueued;
    if flush.Some? { Assoc(AllMoved(h.sessions), h.u.processing, [flush.value]); }
  }

  lemma WorkIdle<S>(c: Cipher<S>, h: History<S>)
    requires Inv(c, h) && (!h.u.active || h.u.closed)
    ensures Inv(c, Step(c, h, DoWork)) && Step(c, h, DoWork).sessions == h.sessions
  {
    if h.sessions != [] {
      var last := Last(h.sessions);
      assert last.moved + [] == last.moved;
      assert SetLast(h.sessions, last) == h.sessions;
    }
  }

  lemma FlattenFew(header: Bytes)
    ensures Flatten<byte>([]) == [] && Flatten([header]) == header
  {
    assert header + [] == header;
  }

  // Sealing more blocks extends what the session puts on the wire
  lemma WireGrows<S>(c: Cipher<S>, u: State<S>, s: Session<S>)
    requires u.active && !u.closed && Current(c, u, s)
    ensures Current(c, ProcessLoop(c, u), s.(moved := s.moved + u.processing))
  {
    ProcessAll(c, u);
    SealAllConcat(c, s.crypto, s.moved, u.processing);
    var before, more := SealAll(c, s.crypto, s.moved).1, SealAll(c, u.crypto, u.processing).1;
    hide SealAll, ProcessLoop, Rest, Flatten;
    var lead := if u.header.Some? && more != [] then [u.header.value] else [];
    FlattenQueue(u.transport, lead, more, s.header);
    FlattenConcat(before, more);
    WireAlgebra(s.pulled, Rest(u.reader), Flatten(u.transport), s.header, Flatten(before), Flatten(more));
    assert before == [] ==> before + more == more && Flatten(before) == [] by { FlattenFew(s.header); }
    assert more == [] ==> before + more == before && Flatten(more) == [] by { FlattenFew(s.header); }
  }

  lemma FlattenQueue(queue: seq<Bytes>, lead: seq<Bytes>, more: seq<Bytes>, header: Bytes)
    ensures lead == [] ==> Flatten(queue + (lead + more)) == Flatten(queue) + Flatten(more)
    ensures lead == [header] ==> Flatten(queue + (lead + more)) == Flatten(queue) + (header + Flatten(more))
  {
    FlattenConcat(queue, lead + more);
    FlattenConcat(lead, more);
    FlattenFew(header);
    assert [] + more == more;
  }

  lemma WireAlgebra(pulled: Bytes, rest: Bytes, queue: Bytes, header: Bytes, before: Bytes, more: Bytes)
    ensures pulled + (rest + queue) == [] ==> pulled + (rest + (queue + (header + more))) == header + more
    ensures pulled + (rest + queue) == header + before
            ==> pulled + (rest + (queue + more)) == header + (before + more)
    ensures pulled + (rest + queue) + more == pulled + (rest + (queue + more))
  {
    Assoc(rest, queue, more);
    Assoc(pulled, rest + queue, more);
    Assoc(header, before, more);
    assert pulled + (rest + queue) == [] ==> pulled == [] && rest == [] && queue == [];
  }

  // What Current says does not depend on the flags
  lemma CurrentSame<S>(c: Cipher<S>, u: State<S>, u': State<S>, s: Session<S>)
    requires Current(c, u, s)
    requires u'.header == u.header && u'.crypto == u.crypto && u'.transport == u.transport && u'.reader == u.reader
    ensures Current(c, u', s)
  {
  }

  // The handler run of an active, open session
  lemma WorkState<S>(c: Cipher<S>, u: State<S>, s: Session<S>)
    requires u.active && !u.closed && Current(c, u, s) && Scheduled(u)
    ensures var u' := Work(c, u);
            && Current(c, u', s.(moved := s.moved + u.processing))
            && u'.processing == [] && u'.active && u'.reader == u.reader && u'.events == u.events && Scheduled(u')
  {
    var v := u.(pending := false);
    CurrentSame(c, u, v, s);
    WireGrows(c, v, s);
    ProcessAll(c, v);
    hide Current, ProcessLoop, SealAll;
    CurrentSame(c, ProcessLoop(c, v), Work(c, u), s.(moved := s.moved + u.processing));
  }

  lemma WorkKeeps<S>(c: Cipher<S>, h: History<S>)
    requires Inv(c, h)
    ensures Inv(c, Step(c, h, DoWork))
  {
    hide Alternate;
    if !h.u.active || h.u.closed {
      WorkIdle(c, h);
    } else {
      var last := Last(h.sessions);
      var last' := last.(moved := last.moved + h.u.processing);
      WorkState(c, h.u, last);
      hide Current, Scheduled, Work, OnTheWire;
      PulledPrefix(c, Work(c, h.u), last');
      WorkBooks(c, h, last');
      hide Conserved, PulledFromWire;
    }
  }

  // The blocks the handler took moved from the queue to the session
  lemma WorkBooks<S>(c: Cipher<S>, h: History<S>, last': Session<S>)
    requires h.sessions != [] && Conserved(h) && PulledFromWire(c, h.sessions) && Work(c, h.u).processing == []
    requires last' == Last(h.sessions).(moved := Last(h.sessions).moved + h.u.processing)
    requires last'.pulled <= OnTheWire(c, last')
    ensures var h' := Step(c, h, DoWork);
            && h'.u == Work(c, h.u) && h'.sessions == SetLast(h.sessions, last') && Last(h'.sessions) == last'
            && Conserved(h') && PulledFromWire(c, h'.sessions)
  {
    hide Work, OnTheWire;
    var all, last := h.u.processing, Last(h.sessions);
    assert all[..|all|] == all;
    PulledSetLast(c, h.sessions, last');
    AllMovedSetLast(h.sessions, last');
    Assoc(AllMoved(h.sessions[..|h.sessions| - 1]), last.moved, all);
    assert h.enqueued + [] == h.enqueued;
  }

  lemma PulledPrefix<S>(c: Cipher<S>, u: State<S>, s: Session<S>)
    requires Current(c, u, s)
    ensures s.pulled <= OnTheWire(c, s)
  {
  }

  lemma StartKeeps<S>(c: Cipher<S>, h: History<S>, setup: bool, header: Option<Bytes>, crypto: S)
    requires Inv(c, h)
    ensures Inv(c, Step(c, h, DoStart(setup, header, crypto)))
  {
    AlternateMore(h.u.events, h.u.active);
    hide Alternate;
    hide Conserved, PulledFromWire, SealAll, Flatten, AllMoved, OnTheWire, Current;
    if !h.u.active && setup && header.Some? {
      var s := Session(header.value, crypto, [], []);
      NewSession(c, h.sessions, s);
      NewBooks(h, Start(h.u, setup, header, crypto), s);
      NewCurrent(c, Start(h.u, setup, header, crypto), s);
    } else {
      SameBooks(h, Start(h.u, setup, header, crypto));
    }
  }

  lemma SameBooks<S>(h: History<S>, u': State<S>)
    requires Conserved(h) && u'.processing == h.u.processing
    ensures Conserved(h.(u := u'))
  {
  }

  lemma NewBooks<S>(h: History<S>, u': State<S>, s: Session<S>)
    requires Conserved(h) && u'.processing == h.u.processing
    requires AllMoved(h.sessions + [s]) == AllMoved(h.sessions)
    ensures Conserved(h.(u := u', sessions := h.sessions + [s]))
  {
  }

  lemma NewCurrent<S>(c: Cipher<S>, u: State<S>, s: Session<S>)
    requires Drained(u) && u.header == Some(s.header) && u.crypto == s.crypto && s.moved == [] && s.pulled == []
    ensures Current(c, u, s)
  {
    assert [] + ([] + Flatten(u.transport)) == [];
  }

  lemma NewSession<S>(c: Cipher<S>, sessions: seq<Session<S>>, s: Session<S>)
    requires PulledFromWire(c, sessions) && s.moved == [] && s.pulled == []
    ensures PulledFromWire(c, sessions + [s]) && AllMoved(sessions + [s]) == AllMoved(sessions)
    ensures Last(sessions + [s]) == s
  {
    assert (sessions + [s])[..|sessions|] == sessions;
    assert AllMoved(sessions) + [] == AllMoved(sessions);
  }

  // What a fill call leaves behind in an active session
  lemma FillState<S>(u: State<S>, n: nat)
    requires u.active && WellRead(u.reader) && Scheduled(u) && Alternate(u.events, true)
    ensures var u', f := Fill(u, n).state, FillLoop(u.reader, u.transport, n);
            && Fill(u, n).out == f.out && Takes(Available(u), n, f)
            && u'.reader == f.reader && u'.transport == f.transport && WellRead(u'.reader)
            && u'.processing == u.processing && u'.crypto == u.crypto && u'.header == u.header
            && (!u'.active ==> Drained(u')) && Scheduled(u') && Alternate(u'.events, u'.active)
  {
    FillTakes(u.reader, u.transport, n);
    AlternateMore(u.events, true);
    TakesRead(Available(u), n, FillLoop(u.reader, u.transport, n));
    hide Alternate, FillLoop, Takes, Flatten;
  }

  lemma FillKeeps<S>(c: Cipher<S>, h: History<S>, n: nat)
    requires Inv(c, h)
    ensures Inv(c, Step(c, h, DoFill(n)))
  {
    hide Alternate;
    if h.u.active {
      hide Scheduled, FillLoop, SealAll, Flatten, OnTheWire, AllMoved, Current, Takes;
      hide Conserved, PulledFromWire, SetLast;
      var last := Last(h.sessions);
      FillState(h.u, n);
      hide Fill;
      var f, u' := FillLoop(h.u.reader, h.u.transport, n), Fill(h.u, n).state;
      var last' := last.(pulled := last.pulled + f.out);
      PulledMore(c, h.u, u', last, n, f);
      PulledPrefix(c, u', last');
      Record(c, h, u', last');
    } else {
      FillIdle(c, h, n);
    }
  }

  lemma PulledMore<S>(c: Cipher<S>, u: State<S>, u': State<S>, s: Session<S>, n: nat, f: Filled)
    requires Current(c, u, s) && Takes(Available(u), n, f)
    requires u'.crypto == u.crypto && u'.header == u.header
    requires u'.reader == f.reader && u'.transport == f.transport
    ensures Current(c, u', s.(pulled := s.pulled + f.out))
  {
    var all, k := Available(u), Min(n, |Available(u)|);
    assert all[..k] + all[k..] == all;
    Assoc(s.pulled, all[..k], all[k..]);
  }

  lemma FinishKeeps<S>(c: Cipher<S>, h: History<S>)
    requires Inv(c, h)
    ensures Inv(c, Step(c, h, DoFinish))
  {
    AlternateMore(h.u.events, h.u.active);
    hide Alternate;
  }

  lemma StepKeeps<S>(c: Cipher<S>, h: History<S>, a: Action<S>)
    requires Inv(c, h)
    ensures Inv(c, Step(c, h, a))
  {
    match a
    case DoEnqueue(block) => EnqueueKeeps(c, h, block);
    case DoClose(flush) => CloseKeeps(c, h, flush);
    case DoWork => WorkKeeps(c, h);
    case DoStart(setup, header, crypto) => StartKeeps(c, h, setup, header, crypto);
    case DoFill(n) => FillKeeps(c, h, n);
    case DoFinish => FinishKeeps(c, h);
  }

  // Every run, from power-up, through any number of sessions
  lemma {:induction false} RunKeeps<S>(c: Cipher<S>, h: History<S>, actions: seq<Action<S>>)
    requires Inv(c, h)
    ensures Inv(c, Run(c, h, actions))
    decreases |actions|
  {
    if actions != [] {
      StepKeeps(c, h, actions[0]);
      RunKeeps(c, Step(c, h, actions[0]), actions[1..]);
    }
  }

  // What a fill call gives is the next bytes of the session; NO_MORE_DATA only when the pouch is closed
  // and the session's wire bytes are all pulled
  lemma FillDelivers<S>(c: Cipher<S>, h: History<S>, n: nat)
    requires Inv(c, h) && h.u.active
    ensures var f := Fill(h.u, n);
            var s, s' := Last(h.sessions), Last(Step(c, h, DoFill(n)).sessions);
            && s' == s.(pulled := s.pulled + f.out)
            && s'.pulled == OnTheWire(c, s)[..Min(|s.pulled| + n, |OnTheWire(c, s)|)]
            && (f.result == NoMoreData ==> h.u.closed && s'.pulled == OnTheWire(c, s))
            && (h.u.closed && |s.pulled| + n > |OnTheWire(c, s)| ==> f.result == NoMoreData)
            && f.result != Error
  {
    var f, s := Fill(h.u, n), Last(h.sessions);
    FillTakes(h.u.reader, h.u.transport, n);
    PullNext(s.pulled, Available(h.u), OnTheWire(c, s), n);
    assert Available(h.u) == Rest(h.u.reader) + Flatten(h.u.transport);
    hide Flatten, SealAll, FillLoop, OnTheWire;
  }

  ghost predicate NoneEmpty(queue: seq<Bytes>) {
    forall i | 0 <= i < |queue| :: queue[i] != []
  }

  // No empty buffer is waiting for the transport
  ghost predicate Solid<S>(u: State<S>) {
    NoneEmpty(u.transport) && (u.header.Some? ==> u.header.value != [])
  }

  // so that NO_MORE_DATA comes exactly with the last byte of a closed pouch
  lemma LastFillIff<S>(c: Cipher<S>, h: History<S>, n: nat)
    requires Inv(c, h) && h.u.active && Solid(h.u)
    ensures Fill(h.u, n).result == NoMoreData
            <==> h.u.closed && |OnTheWire(c, Last(h.sessions))| <= |Last(h.sessions).pulled| + n
  {
    var u, s := h.u, Last(h.sessions);
    var f := FillLoop(u.reader, u.transport, n);
    FillTakes(u.reader, u.transport, n);
    FillSolid(u.reader, u.transport, n);
    assert s.pulled + Available(u) == OnTheWire(c, s);
    DrainedIff(f);
    hide FillLoop, Flatten, SealAll, OnTheWire;
  }

  // What the fill loop leaves is empty only when nothing is left
  lemma DrainedIff(f: Filled)
    requires WellRead(f.reader) && NoneEmpty(f.transport)
    ensures Rest(f.reader) + Flatten(f.transport) == [] <==> !Ready(f.reader) && f.transport == []
  {
    if f.transport != [] {
      assert Flatten(f.transport) == f.transport[0] + Flatten(f.transport[1..]);
      assert f.transport[0] != [];
    }
  }

  lemma {:induction false} FillSolid(reader: Reader, transport: seq<Bytes>, n: nat)
    requires NoneEmpty(transport)
    ensures NoneEmpty(FillLoop(reader, transport, n).transport)
    decreases |transport| + n
  {
    if n > 0 {
      if Ready(reader) {
        var k := Min(n, |reader.buf| - reader.offset);
        var reader' := if reader.offset + k == |reader.buf| then NoReader else reader.(offset := reader.offset + k);
        FillSolid(reader', transport, n - k);
      } else if transport != [] {
        assert transport[0] != [];
        FillSolid(Reading(transport[0], 0), transport[1..], n);
        assert FillLoop(reader, transport, n) == FillLoop(Reading(transport[0], 0), transport[1..], n);
      }
    }
  }

  lemma {:induction false} ProcessSolid<S(!new)>(c: Cipher<S>, p: nat, maxField: nat, u: State<S>)
    requires Lawful(c, p, maxField) && AllOnWire(u.processing, 1 + p) && Solid(u)
    ensures Solid(ProcessLoop(c, u)) && AllOnWire(ProcessLoop(c, u).processing, 1 + p)
    decreases |u.processing|
  {
    if u.active && !u.closed && u.processing != [] {
      var (s, w) := c.seal(u.crypto, u.processing[0]);
      assert w.Some? && OnWire(w.value, maxField);
      ProcessSolid(c, p, maxField, ProcessTurn(c, u));
    }
  }

  // What the callers give: blocks fit for the wire, and headers that are not empty
  ghost predicate Proper<S>(p: nat, a: Action<S>) {
    && (a.DoEnqueue? ==> OnWire(a.block, 1 + p))
    && (a.DoClose? && a.flush.Some? ==> OnWire(a.flush.value, 1 + p))
    && (a.DoStart? && a.header.Some? ==> a.header.value != [])
  }

  // Every run of such calls, with a lawful cipher, keeps to it
  lemma {:induction false} RunSolid<S(!new)>(c: Cipher<S>, p: nat, maxField: nat, h: History<S>,
                                              actions: seq<Action<S>>)
    requires Lawful(c, p, maxField) && AllOnWire(h.u.processing, 1 + p) && Solid(h.u)
    requires forall i | 0 <= i < |actions| :: Proper(p, actions[i])
    ensures Solid(Run(c, h, actions).u)
    decreases |actions|
  {
    if actions != [] {
      assert Proper(p, actions[0]);
      StepSolid(c, p, maxField, h, actions[0]);
      hide Step, Solid, Proper, Lawful;
      RunSolid(c, p, maxField, Step(c, h, actions[0]), actions[1..]);
    }
  }

  lemma NoneEmptyFirst()
    ensures NoneEmpty([])
  {
  }

  lemma StepSolid<S(!new)>(c: Cipher<S>, p: nat, maxField: nat, h: History<S>, a: Action<S>)
    requires Lawful(c, p, maxField) && AllOnWire(h.u.processing, 1 + p) && Solid(h.u) && Proper(p, a)
    ensures Solid(Step(c, h, a).u) && AllOnWire(Step(c, h, a).u.processing, 1 + p)
  {
    hide Lawful, OnWire, ProcessLoop, FillLoop, NoneEmpty;
    NoneEmptyFirst();
    match a
    case DoWork => ProcessSolid(c, p, maxField, h.u.(pending := false));
    case DoFill(n) => FillSolid(h.u.reader, h.u.transport, n);
    case _ =>
  }

  lemma PullNext(pulled: Bytes, all: Bytes, wire: Bytes, n: nat)
    requires pulled + all == wire
    ensures pulled + all[..Min(n, |all|)] == wire[..Min(|pulled| + n, |wire|)]
    ensures |all| <= n ==> wire[..Min(|pulled| + n, |wire|)] == wire
  {
  }

  // After the end of a session nothing is added to it, whatever happens, until the next start
  lemma {:induction false} EndedStays<S>(c: Cipher<S>, h: History<S>, actions: seq<Action<S>>)
    requires Inv(c, h) && !h.u.active
    requires forall a | a in actions :: !a.DoStart?
    ensures Run(c, h, actions).sessions == h.sessions && !Run(c, h, actions).u.active
    decreases |actions|
  {
    if actions != [] {
      StepEnded(c, h, actions[0]);
      hide Inv, Step;
      StepKeeps(c, h, actions[0]);
      EndedStays(c, Step(c, h, actions[0]), actions[1..]);
    }
  }

  lemma StepEnded<S>(c: Cipher<S>, h: History<S>, a: Action<S>)
    requires Inv(c, h) && !h.u.active && !a.DoStart?
    ensures Step(c, h, a).sessions == h.sessions && !Step(c, h, a).u.active
  {
    if a.DoWork? { WorkIdle(c, h); }
    if a.DoFill? { FillIdle(c, h, a.n); }
  }

  lemma FillIdle<S>(c: Cipher<S>, h: History<S>, n: nat)
    requires !h.u.active
    ensures Step(c, h, DoFill(n)) == h
  {
    if h.sessions != [] {
      var last := Last(h.sessions);
      assert last.pulled + [] == last.pulled;
      assert SetLast(h.sessions, last) == h.sessions;
    }
  }
}
