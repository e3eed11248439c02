/** What the C variables of the device hold: the machine of Device without its history (plaintext build). */
module DeviceView {
  import opened Wire
  import opened Block
  import Cipher
  import Device
  import Entry
  import PouchHeader
  import Pulls
  import Packetizer
  import Stream
  import Uplink

  // drawn: how many stream ids were taken; streams: the open ones, each under the number of its draw
  datatype View = View(entry: Option<Bytes>, u: Uplink.State<()>, drawn: nat, streams: map<nat, Stream.Stream>)

  // The calls; memory: the allocations of pouch_header_create succeed, bytes: what it encodes
  datatype Call =
    | DoEntryWrite(e: Entry.Entry, luck: Entry.Luck)
    | DoStreamOpen(path: Bytes, contentType: nat, stream: bool, block: bool)
    | DoStreamWrite(handle: nat, data: Bytes, budget: nat)
    | DoStreamClose(handle: nat)
    | DoClose(lock: bool)
    | DoWork
    | DoStart(setup: bool, memory: bool, bytes: Option<Bytes>)
    | DoFill(max: nat)
    | DoFinish

  predicate OpenOk(c: Call, p: nat) {
    c.DoStreamOpen? ==> 3 + |c.path| <= p
  }

  // What the calls ask of their arguments
  predicate CallOk(c: Call, p: nat, room: nat) {
    && OpenOk(c, p)
    && (c.DoStart? && c.bytes.Some? ==> |c.bytes.value| <= PouchHeader.HEADER_MAX_LEN)
    && (c.DoFill? ==> c.max <= room)
  }

  predicate OpensOk(calls: seq<Call>, p: nat) {
    forall i | 0 <= i < |calls| :: OpenOk(calls[i], p)
  }

  predicate CallsOk(calls: seq<Call>, p: nat, room: nat) {
    OpensOk(calls, p) && forall i | 0 <= i < |calls| :: CallOk(calls[i], p, room)
  }

  function Boot(): View {
    View(None, Uplink.Init(()), 0, map[])
  }

  // Open blocks are of their size, and the next number is new
  predicate Fitting(p: nat, v: View) {
    && 1 <= p && Entry.BlockFits(p, v.entry)
    && forall k | k in v.streams :: k < v.drawn && Stream.Fits(p, v.streams[k])
  }

  function Queued(u: Uplink.State<()>, sent: seq<Bytes>): Uplink.State<()> {
    u.(processing := u.processing + sent, pending := u.pending || sent != [])
  }

  lemma QueuedNone(u: Uplink.State<()>)
    ensures Queued(u, []) == u
  {
    assert u.processing + [] == u.processing;
  }

  // One call; a handle that is not open does nothing
  function Next(p: nat, v: View, c: Call): View
    requires Fitting(p, v)
  {
    match c
    case DoEntryWrite(e, luck) =>
      var r := Entry.Write(p, v.entry, e, luck);
      v.(entry := r.open, u := Queued(v.u, r.sent))
    case DoStreamOpen(path, contentType, stream, block) =>
      if |v.streams| >= Device.STREAMS_MAX || !stream then v
      else if !block then v.(drawn := v.drawn + 1)
      else
        var s := Stream.Open(Stream.IdOf(v.drawn), v.u.id, path, contentType);
        v.(drawn := v.drawn + 1, streams := v.streams[v.drawn := s])
    case DoStreamWrite(k, data, budget) =>
      if k !in v.streams then v
      else
        var r := Stream.Write(p, v.streams[k], v.u.id, data, budget);
        v.(u := Queued(v.u, r.sent), streams := v.streams[k := r.stream])
    case DoStreamClose(k) =>
      if k !in v.streams then v
      else v.(u := Queued(v.u, Stream.Close(v.streams[k], v.u.id)), streams := v.streams - {k})
    case DoClose(lock) =>
      if v.u.closing then v
      else
        var r := Entry.Close(v.entry, lock);
        v.(entry := r.open, u := Queued(v.u.(closing := true, pending := true), r.sent))
    case DoWork => v.(u := Uplink.Work(Cipher.Plain(), v.u))
    case DoStart(setup, memory, bytes) => v.(u := Uplink.Start(v.u, setup, if memory then bytes else None, ()))
    case DoFill(max) => v.(u := Uplink.Fill(v.u, max).state)
    case DoFinish => v.(u := Uplink.Finish(v.u))
  }

  lemma NextFits(p: nat, v: View, c: Call)
    requires Fitting(p, v) && OpenOk(c, p)
    ensures Fitting(p, Next(p, v, c))
  {
    hide Entry.Write, Stream.Write, Stream.Open;
    if c.DoStreamOpen? { Stream.OpenHolds(p, Stream.IdOf(v.drawn), v.u.id, c.path, c.contentType); }
  }

  lemma NextOpen(p: nat, v: View, path: Bytes, contentType: nat, stream: bool, block: bool)
    requires Fitting(p, v)
    ensures var some := |v.streams| < 126 && stream;
            var s := Stream.Open(Stream.IdOf(v.drawn), v.u.id, path, contentType);
            Next(p, v, DoStreamOpen(path, contentType, stream, block))
            == View(v.entry, v.u, if some then v.drawn + 1 else v.drawn,
                    if some && block then v.streams[v.drawn := s] else v.streams)
  {
  }

  lemma NextWrite(p: nat, v: View, k: nat, data: Bytes, budget: nat)
    requires Fitting(p, v) && k in v.streams
    ensures var r := Stream.Write(p, v.streams[k], v.u.id, data, budget);
            Next(p, v, DoStreamWrite(k, data, budget))
            == View(v.entry, Queued(v.u, r.sent), v.drawn, v.streams[k := r.stream])
  {
  }

  lemma NextClose(p: nat, v: View, k: nat)
    requires Fitting(p, v) && k in v.streams
    ensures Next(p, v, DoStreamClose(k))
            == View(v.entry, Queued(v.u, Stream.Close(v.streams[k], v.u.id)), v.drawn, v.streams - {k})
  {
  }

  function After(p: nat, v: View, calls: seq<Call>): View
    requires Fitting(p, v) && OpensOk(calls, p)
    decreases |calls|
  {
    if calls == [] then v
    else
      NextFits(p, v, calls[0]);
      After(p, Next(p, v, calls[0]), calls[1..])
  }

  // The calls of the packetizer along the way: one for each fill in a session
  function AsksOf(p: nat, v: View, calls: seq<Call>): seq<Packetizer.Ask>
    requires Fitting(p, v) && OpensOk(calls, p)
    decreases |calls|
  {
    if calls == [] then []
    else
      NextFits(p, v, calls[0]);
      AskOnce(v, calls[0]) + AsksOf(p, Next(p, v, calls[0]), calls[1..])
  }

  function AskOnce(v: View, c: Call): seq<Packetizer.Ask> {
    if c.DoFill? && v.u.active then [Pulls.AskOf(v.u, c.max)] else []
  }

  // A header is pending after a start alone
  lemma HeaderGone(p: nat, v: View, c: Call)
    requires Fitting(p, v)
    ensures v.u.header == None && !c.DoStart? ==> Next(p, v, c).u.header == None
    ensures c.DoFinish? ==> Next(p, v, c).u.header == None
  {
    hide Entry.Write, Stream.Write, Stream.Open, Uplink.FillLoop;
    ProcessHeader(v.u.(pending := false));
  }

  lemma {:induction false} ProcessHeader(u: Uplink.State<()>)
    ensures u.header == None ==> Uplink.ProcessLoop(Cipher.Plain(), u).header == None
    decreases |u.processing|
  {
    if u.active && !u.closed && u.processing != [] {
      ProcessHeader(Uplink.ProcessTurn(Cipher.Plain(), u));
    }
  }

  // clean: no start since the last finish
  predicate FinishedBetween(calls: seq<Call>, clean: bool) {
    if calls == [] then true
    else
      && (calls[0].DoStart? ==> clean)
      && FinishedBetween(calls[1..], if calls[0].DoStart? then false else clean || calls[0].DoFinish?)
  }

  // Where a run is after i of the calls
  ghost predicate OnTheWay(p: nat, v: View, asks: seq<Packetizer.Ask>, calls: seq<Call>, i: nat, clean: bool, room: nat)
    requires i <= |calls|
  {
    && Fitting(p, v) && Fitting(p, Boot()) && CallsOk(calls, p, room) && OpensOk(calls[i..], p)
    && After(p, v, calls[i..]) == After(p, Boot(), calls)
    && asks + AsksOf(p, v, calls[i..]) == AsksOf(p, Boot(), calls)
    && FinishedBetween(calls[i..], clean) && (clean ==> v.u.header == None)
  }

  lemma WayBegins(p: nat, calls: seq<Call>, room: nat)
    requires 1 <= p && CallsOk(calls, p, room) && FinishedBetween(calls, true)
    ensures Fitting(p, Boot()) && OpensOk(calls, p) && Boot().drawn == 0
    ensures OnTheWay(p, Boot(), [], calls, 0, true, room)
  {
    assert calls[0..] == calls && [] + AsksOf(p, Boot(), calls) == AsksOf(p, Boot(), calls);
    hide After, AsksOf;
  }

  lemma WayGoesOn(p: nat, v: View, asks: seq<Packetizer.Ask>, calls: seq<Call>, i: nat, clean: bool, room: nat)
    requires i < |calls| && OnTheWay(p, v, asks, calls, i, clean, room)
    ensures Fitting(p, v) && CallOk(calls[i], p, room) && (calls[i].DoStart? ==> v.u.header == None)
    ensures OnTheWay(p, Next(p, v, calls[i]), asks + AskOnce(v, calls[i]), calls, i + 1,
                     if calls[i].DoStart? then false else clean || calls[i].DoFinish?, room)
  {
    assert calls[i..][1..] == calls[i + 1..];
    HeaderGone(p, v, calls[i]);
    NextFits(p, v, calls[i]);
    hide Next, AskOnce, Fitting, OpenOk;
    Assoc(asks, AskOnce(v, calls[i]), AsksOf(p, Next(p, v, calls[i]), calls[i + 1..]));
  }

  lemma WayEnds(p: nat, v: View, asks: seq<Packetizer.Ask>, calls: seq<Call>, clean: bool, room: nat)
    requires OnTheWay(p, v, asks, calls, |calls|, clean, room)
    ensures Fitting(p, Boot()) && OpensOk(calls, p) && v == After(p, Boot(), calls) && asks == AsksOf(p, Boot(), calls)
  {
    assert calls[|calls|..] == [] && asks + [] == asks;
  }

  // ---- a run of Device, looked at through the variables

  function ActionOf(c: Call): Device.Action<()> {
    match c
    case DoEntryWrite(e, luck) => Device.EntryWrite(e, luck)
    case DoStreamOpen(path, contentType, stream, block) => Device.StreamOpen(path, contentType, stream, block)
    case DoStreamWrite(k, data, budget) => Device.StreamWrite(k, data, budget)
    case DoStreamClose(k) => Device.StreamClose(k)
    case DoClose(lock) => Device.UplinkClose(lock)
    case DoWork => Device.Work
    case DoStart(setup, memory, bytes) => Device.Start(setup, if memory then bytes else None, ())
    case DoFill(max) => Device.Fill(max)
    case DoFinish => Device.Finish
  }

  function ActionsOf(calls: seq<Call>): (actions: seq<Device.Action<()>>) {
    if calls == [] then [] else [ActionOf(calls[0])] + ActionsOf(calls[1..])
  }

  function StreamsOf(handles: map<nat, Device.Handle>): map<nat, Stream.Stream> {
    map k | k in handles :: handles[k].stream
  }

  function Look(m: Device.State<()>): View {
    View(m.entry, m.up.u, m.drawn, StreamsOf(m.streams + m.stale))
  }

  // The handles are numbered apart
  ghost predicate Numbered(m: Device.State<()>) {
    m.streams.Keys !! m.stale.Keys && forall k | k in m.streams + m.stale :: k < m.drawn
  }

  lemma LookFits(p: nat, m: Device.State<()>)
    requires Device.Inv(Cipher.Plain(), p, m)
    ensures Fitting(p, Look(m)) && Numbered(m)
  {
    forall k | k in m.streams ensures k < m.drawn && Stream.Fits(p, m.streams[k].stream) {
      assert Device.Opened(p, m, k);
    }
  }

  lemma CountsOpen(m: Device.State<()>)
    requires Numbered(m)
    ensures |StreamsOf(m.streams + m.stale)| == |m.streams| + |m.stale| && m.drawn !in m.stale
  {
    var s := StreamsOf(m.streams + m.stale);
    assert s.Keys == m.streams.Keys + m.stale.Keys;
    assert |s| == |s.Keys| && |m.streams| == |m.streams.Keys| && |m.stale| == |m.stale.Keys|;
  }

  lemma StreamsPut(streams: map<nat, Device.Handle>, stale: map<nat, Device.Handle>, k: nat, h: Device.Handle)
    ensures StreamsOf(streams + stale[k := h]) == StreamsOf(streams + stale)[k := h.stream]
    ensures k !in stale ==> StreamsOf(streams[k := h] + stale) == StreamsOf(streams + stale)[k := h.stream]
  {
  }

  lemma StreamsDrop(streams: map<nat, Device.Handle>, stale: map<nat, Device.Handle>, k: nat)
    ensures StreamsOf((streams - {k}) + (stale - {k})) == StreamsOf(streams + stale) - {k}
  {
  }

  // What is enqueued shows
  lemma {:induction false} EnqueueLooks(h: Uplink.History<()>, sent: seq<Bytes>)
    ensures Device.EnqueueAll(Cipher.Plain(), h, sent).u == Queued(h.u, sent)
    decreases |sent|
  {
    if sent == [] {
      assert h.u.processing + [] == h.u.processing;
    } else {
      EnqueueLooks(Uplink.Step(Cipher.Plain(), h, Uplink.DoEnqueue(sent[0])), sent[1..]);
      Device.Uncons(h.u.processing, sent);
    }
  }

  lemma EntryLooks(p: nat, m: Device.State<()>, c: Call)
    requires Numbered(m) && Fitting(p, Look(m)) && Device.Callable(p, m, ActionOf(c)) && c.DoEntryWrite?
    ensures Next(p, Look(m), c) == Look(Device.Step(Cipher.Plain(), p, m, ActionOf(c)))
  {
    hide Entry.Write, Device.EnqueueAll, Fitting, StreamsOf, Numbered;
    EnqueueLooks(m.up, Entry.Write(p, m.entry, c.e, c.luck).sent);
  }

  lemma OpenLooks(p: nat, m: Device.State<()>, c: Call)
    requires Numbered(m) && Fitting(p, Look(m)) && Device.Callable(p, m, ActionOf(c)) && c.DoStreamOpen?
    ensures Next(p, Look(m), c) == Look(Device.Step(Cipher.Plain(), p, m, ActionOf(c)))
  {
    hide Stream.Open, Stream.IdOf, Fitting, StreamsOf, Numbered;
    CountsOpen(m);
    var s := Stream.Open(Stream.IdOf(m.drawn), m.up.u.id, c.path, c.contentType);
    StreamsPut(m.streams, m.stale, m.drawn, Device.Handle(s, c.path, c.contentType, []));
  }

  lemma WriteLooks(p: nat, m: Device.State<()>, c: Call)
    requires Numbered(m) && Fitting(p, Look(m)) && Device.Callable(p, m, ActionOf(c)) && c.DoStreamWrite?
    ensures Next(p, Look(m), c) == Look(Device.Step(Cipher.Plain(), p, m, ActionOf(c)))
    requires c.handle in m.streams + m.stale
  {
    hide Stream.Write, Device.EnqueueAll, Fitting, Numbered;
    var h := (m.streams + m.stale)[c.handle];
    assert c.handle in StreamsOf(m.streams + m.stale) && StreamsOf(m.streams + m.stale)[c.handle] == h.stream;
    hide StreamsOf;
    var r := Stream.Write(p, h.stream, m.up.u.id, c.data, c.budget);
    EnqueueLooks(m.up, r.sent);
    StreamsPut(m.streams, m.stale, c.handle, Device.Written(h, r, c.data));
  }

  lemma StreamCloseLooks(p: nat, m: Device.State<()>, c: Call)
    requires Numbered(m) && Fitting(p, Look(m)) && Device.Callable(p, m, ActionOf(c)) && c.DoStreamClose?
    ensures Next(p, Look(m), c) == Look(Device.Step(Cipher.Plain(), p, m, ActionOf(c)))
    requires c.handle in m.streams + m.stale
  {
    hide Stream.Close, Device.EnqueueAll, Fitting, Numbered;
    var h := (m.streams + m.stale)[c.handle];
    assert c.handle in StreamsOf(m.streams + m.stale) && StreamsOf(m.streams + m.stale)[c.handle] == h.stream;
    hide StreamsOf;
    EnqueueLooks(m.up, Stream.Close(h.stream, m.up.u.id));
    StreamsDrop(m.streams, m.stale, c.handle);
  }

  lemma CloseLooks(p: nat, m: Device.State<()>, c: Call)
    requires Numbered(m) && Fitting(p, Look(m)) && Device.Callable(p, m, ActionOf(c)) && c.DoClose?
    ensures Next(p, Look(m), c) == Look(Device.Step(Cipher.Plain(), p, m, ActionOf(c)))
  {
    hide Fitting, StreamsOf, Numbered;
    assert m.up.u.processing + [] == m.up.u.processing;
    ClosedOnce(m.entry, c.lock);
    hide Entry.Close;
  }

  lemma ClosedOnce(open: Option<Bytes>, lock: bool)
    requires open.Some? ==> HEADER_SIZE <= |open.value|
    ensures var r := Entry.Close(open, lock); r.sent == [] || r.sent == [r.sent[0]]
  {
  }

  lemma UplinkLooks(h: Uplink.History<()>, a: Uplink.Action<()>)
    ensures var u := Uplink.Step(Cipher.Plain(), h, a).u;
            && (a.DoWork? ==> u == Uplink.Work(Cipher.Plain(), h.u))
            && (a.DoStart? ==> u == Uplink.Start(h.u, a.setup, a.header, a.crypto))
            && (a.DoFill? ==> u == Uplink.Fill(h.u, a.n).state)
            && (a.DoFinish? ==> u == Uplink.Finish(h.u))
  {
    hide Uplink.Work, Uplink.Start, Uplink.Fill, Uplink.Finish;
  }

  lemma SessionLooks(p: nat, m: Device.State<()>, c: Call)
    requires Fitting(p, Look(m)) && Device.Callable(p, m, ActionOf(c)) && (c.DoWork? || c.DoStart? || c.DoFill?)
    ensures Next(p, Look(m), c) == Look(Device.Step(Cipher.Plain(), p, m, ActionOf(c)))
  {
    hide Fitting, StreamsOf, Uplink.Work, Uplink.Fill, Uplink.Start, Uplink.Step, Entry.BlockFits, Cipher.Plain;
    match c
    case DoWork => UplinkLooks(m.up, Uplink.DoWork);
    case DoStart(setup, memory, bytes) =>
      UplinkLooks(m.up, Uplink.DoStart(setup, if memory then bytes else None, ()));
    case DoFill(max) => UplinkLooks(m.up, Uplink.DoFill(max));
  }

  lemma FinishLooks(p: nat, m: Device.State<()>, c: Call)
    requires Fitting(p, Look(m)) && Device.Callable(p, m, ActionOf(c)) && c.DoFinish?
    ensures Next(p, Look(m), c) == Look(Device.Step(Cipher.Plain(), p, m, ActionOf(c)))
  {
    hide Fitting, StreamsOf, Uplink.Finish, Uplink.Step, Device.Abandoned, Entry.BlockFits, Cipher.Plain;
    UplinkLooks(m.up, Uplink.DoFinish);
    NoneOpen(m.streams + m.stale);
  }

  lemma NoneOpen(handles: map<nat, Device.Handle>)
    ensures map[] + handles == handles
  {
  }

  lemma EnabledOk(p: nat, m: Device.State<()>, c: Call)
    requires Device.Enabled(p, m, ActionOf(c))
    ensures OpenOk(c, p)
    ensures c.DoStreamWrite? || c.DoStreamClose? ==> c.handle in m.streams + m.stale
  {
  }

  lemma StepLooks(p: nat, m: Device.State<()>, c: Call)
    requires Device.Inv(Cipher.Plain(), p, m) && Device.Enabled(p, m, ActionOf(c))
    requires Device.Callable(p, m, ActionOf(c))
    ensures Fitting(p, Look(m)) && OpenOk(c, p)
    ensures Next(p, Look(m), c) == Look(Device.Step(Cipher.Plain(), p, m, ActionOf(c)))
  {
    hide Device.Inv, Fitting, Look, Next, Device.Step, Device.Callable, Numbered, OpenOk, Device.Enabled;
    LookFits(p, m);
    EnabledOk(p, m, c);
    match c
    case DoEntryWrite(e, luck) => EntryLooks(p, m, c);
    case DoStreamOpen(path, contentType, stream, block) => OpenLooks(p, m, c);
    case DoStreamWrite(k, data, budget) => WriteLooks(p, m, c);
    case DoStreamClose(k) => StreamCloseLooks(p, m, c);
    case DoClose(lock) => CloseLooks(p, m, c);
    case DoFinish => FinishLooks(p, m, c);
    case _ => SessionLooks(p, m, c);
  }

  lemma AsksOnce(m: Device.State<()>, c: Call)
    ensures AskOnce(Look(m), c)
            == if ActionOf(c).Fill? && m.up.u.active then [Pulls.AskOf(m.up.u, ActionOf(c).n)] else []
  {
  }

  lemma {:induction false} RunLooks(p: nat, m: Device.State<()>, calls: seq<Call>, m': Device.State<()>)
    requires Device.Inv(Cipher.Plain(), p, m) && Device.Runs(Cipher.Plain(), p, m, ActionsOf(calls), m')
    ensures Fitting(p, Look(m)) && OpensOk(calls, p)
    ensures After(p, Look(m), calls) == Look(m')
    ensures AsksOf(p, Look(m), calls) == Pulls.Asks(Cipher.Plain(), p, m, ActionsOf(calls), m')
    decreases |calls|
  {
    hide Next, Look, Fitting, OpenOk, Numbered, AskOnce, Device.Inv, Device.Step, Device.Enabled, Device.Callable;
    LookFits(p, m);
    if calls != [] {
      var a, rest := ActionOf(calls[0]), ActionsOf(calls[1..]);
      assert ActionsOf(calls)[0] == a && ActionsOf(calls)[1..] == rest;
      StepLooks(p, m, calls[0]);
      Device.StepKeeps(Cipher.Plain(), p, m, a);
      RunLooks(p, Device.Step(Cipher.Plain(), p, m, a), calls[1..], m');
      AsksOnce(m, calls[0]);
    }
  }
}
