/** The whole way: packets outermost, the services of golioth_sdk/dispatch.c innermost. */
module Application {
  import opened Wire
  import opened Block
  import opened Decoder
  import opened Cipher
  import Device
  import Dispatch
  import EndToEnd
  import Entry
  import Packetizer
  import Pipeline
  import Pulls
  import Reassembly
  import Uplink

  // The callbacks of src/entry.c are those of the dispatcher
  function ToDispatch(e: Event): Dispatch.Event {
    match e
    case Start(id, path, _) => Dispatch.OnStart(id, path)
    case Data(id, data, last) => Dispatch.OnData(id, data, last)
  }

  function ToDispatchAll(events: seq<Event>): seq<Dispatch.Event> {
    if events == [] then [] else [ToDispatch(events[0])] + ToDispatchAll(events[1..])
  }

  // The data callbacks made for one id
  function OfId(calls: seq<Dispatch.Call>, id: nat): seq<Dispatch.Call> {
    if calls == [] then []
    else (if calls[0].id == id then [calls[0]] else []) + OfId(calls[1..], id)
  }

  // What one service was given, message by message
  datatype Delivery = Delivery(service: nat, data: Bytes)

  // Put the data callbacks of one id together, up to each last one
  function Gather(done: seq<Delivery>, part: Bytes, calls: seq<Dispatch.Call>): (seq<Delivery>, Bytes)
    decreases |calls|
  {
    if calls == [] then (done, part)
    else
      var c := calls[0];
      if c.last then Gather(done + [Delivery(c.service, part + c.data)], [], calls[1..])
      else Gather(done, part + c.data, calls[1..])
  }

  // What the services should be given of the messages of one id: each message goes to the first service
  // that matches its path, if there is one
  function ForServices(patterns: seq<Dispatch.Pattern>, ms: seq<Message>): seq<Delivery> {
    if ms == [] then []
    else
      var m := ms[|ms| - 1];
      ForServices(patterns, ms[..|ms| - 1])
      + (match Dispatch.FindPath(patterns, m.path, 0)
         case None => []
         case Some(i) => if m.ended then [Delivery(i, m.data)] else [])
  }

  // ---- one id at a time

  function RoutedOne(patterns: seq<Dispatch.Pattern>, own: Option<nat>, channel: seq<Event>): seq<Dispatch.Call>
    decreases |channel|
  {
    if channel == [] then []
    else
      match channel[0]
      case Start(_, path, _) =>
        var i := Dispatch.FindPath(patterns, path, 0);
        RoutedOne(patterns, if i == None then own else i, channel[1..])
      case Data(id, data, last) =>
        (if own.Some? then [Dispatch.Delivered(own.value, id, data, last)] else [])
        + RoutedOne(patterns, if last then None else own, channel[1..])
  }

  function OwnerOf(owner: map<int, nat>, id: nat): Option<nat> {
    if id in owner then Some(owner[id]) else None
  }

  lemma OfIdCons(calls: seq<Dispatch.Call>, c: Dispatch.Call, id: nat)
    ensures OfId([c] + calls, id) == (if c.id == id then [c] else []) + OfId(calls, id)
  {
    assert ([c] + calls)[1..] == calls;
  }

  lemma {:induction false} RoutedById(patterns: seq<Dispatch.Pattern>, owner: map<int, nat>,
                                        events: seq<Event>, id: BlockId)
    ensures OfId(Dispatch.Routed(patterns, owner, ToDispatchAll(events)), id)
            == RoutedOne(patterns, OwnerOf(owner, id), Channel(events, id))
    decreases |events|
  {
    if events != [] {
      var e, rest := events[0], events[1..];
      assert ToDispatchAll(events)[1..] == ToDispatchAll(rest);
      assert e.id == id ==> Channel(events, id)[1..] == Channel(rest, id);
      assert e.id != id ==> Channel(events, id) == Channel(rest, id);
      match e
      case Start(k, path, _) =>
        var i := Dispatch.FindPath(patterns, path, 0);
        RoutedById(patterns, if i == None then owner else owner[k as int := i.value], rest, id);
      case Data(k, data, last) =>
        var owner' := if last then owner - {k as int} else owner;
        RoutedById(patterns, owner', rest, id);
        var calls := Dispatch.Routed(patterns, owner', ToDispatchAll(rest));
        if k as int in owner {
          OfIdCons(calls, Dispatch.Delivered(owner[k as int], k, data, last), id);
        } else {
          assert [] + calls == calls;
        }
        assert [] + OfId(calls, id) == OfId(calls, id);
        assert [] + RoutedOne(patterns, OwnerOf(owner', id), Channel(rest, id))
               == RoutedOne(patterns, OwnerOf(owner', id), Channel(rest, id));
    }
  }

  // The service of the open message, and what it was given of it
  function OwnerNow(patterns: seq<Dispatch.Pattern>, ms: seq<Message>): Option<nat> {
    if Idle(ms) then None else Dispatch.FindPath(patterns, ms[|ms| - 1].path, 0)
  }

  function PartNow(patterns: seq<Dispatch.Pattern>, ms: seq<Message>): Bytes {
    if OwnerNow(patterns, ms) == None then [] else ms[|ms| - 1].data
  }

  lemma StartChanges(patterns: seq<Dispatch.Pattern>, ms: seq<Message>, path: Bytes, contentType: nat)
    requires Idle(ms)
    ensures var ms1 := ms + [Message(path, contentType, [], false)];
            && ForServices(patterns, ms1) == ForServices(patterns, ms)
            && PartNow(patterns, ms1) == [] == PartNow(patterns, ms)
            && OwnerNow(patterns, ms) == None && OwnerNow(patterns, ms1) == Dispatch.FindPath(patterns, path, 0)
  {
    var ms1 := ms + [Message(path, contentType, [], false)];
    assert ms1[..|ms1| - 1] == ms;
    assert ForServices(patterns, ms) + [] == ForServices(patterns, ms);
  }

  lemma DataChanges(patterns: seq<Dispatch.Pattern>, ms: seq<Message>, data: Bytes, last: bool)
    requires !Idle(ms)
    ensures var m := ms[|ms| - 1];
            var ms1 := ms[..|ms| - 1] + [m.(data := m.data + data, ended := last)];
            var own := OwnerNow(patterns, ms);
            && OwnerNow(patterns, ms1) == (if last then None else own)
            && ForServices(patterns, ms1)
               == ForServices(patterns, ms)
                  + (if own.Some? && last then [Delivery(own.value, PartNow(patterns, ms) + data)] else [])
            && PartNow(patterns, ms1) == (if own == None || last then [] else PartNow(patterns, ms) + data)
  {
    var before, m := ms[..|ms| - 1], ms[|ms| - 1];
    var ms1 := before + [m.(data := m.data + data, ended := last)];
    assert ms1[..|ms1| - 1] == before;
    assert ForServices(patterns, before) + [] == ForServices(patterns, before);
    assert ForServices(patterns, ms) + [] == ForServices(patterns, ms);
  }

  lemma {:induction false} Gathers(patterns: seq<Dispatch.Pattern>, ms: seq<Message>, channel: seq<Event>)
    requires Collect(ms, channel).Some?
    ensures var ms' := Collect(ms, channel).value;
            var calls := RoutedOne(patterns, OwnerNow(patterns, ms), channel);
            Gather(ForServices(patterns, ms), PartNow(patterns, ms), calls)
            == (ForServices(patterns, ms'), PartNow(patterns, ms'))
    decreases |channel|
  {
    if channel != [] {
      hide ForServices, PartNow, OwnerNow;
      var e, rest := channel[0], channel[1..];
      Gathers(patterns, Receive(ms, e).value, rest);
      match e
      case Start(_, path, contentType) =>
        StartChanges(patterns, ms, path, contentType);
      case Data(id, data, last) =>
        DataChanges(patterns, ms, data, last);
        var own := OwnerNow(patterns, ms);
        var calls := RoutedOne(patterns, if last then None else own, rest);
        if own.Some? {
          var c := Dispatch.Delivered(own.value, id, data, last);
          GatherCons(ForServices(patterns, ms), PartNow(patterns, ms), c, calls);
        } else {
          assert [] + calls == calls;
        }
    }
  }

  lemma GatherCons(done: seq<Delivery>, part: Bytes, c: Dispatch.Call, calls: seq<Dispatch.Call>)
    ensures Gather(done, part, [c] + calls)
            == if c.last then Gather(done + [Delivery(c.service, part + c.data)], [], calls)
               else Gather(done, part + c.data, calls)
  {
    assert ([c] + calls)[1..] == calls;
  }

  lemma {:induction false} AllEnded(ended: seq<Device.Ended>, id: BlockId)
    ensures forall m | m in Device.MessagesOf(ended, id) :: m.ended
  {
    if ended != [] { AllEnded(ended[..|ended| - 1], id); }
  }

  lemma ExpectedIdle<S>(d: Device.State<S>, id: BlockId)
    ensures Idle(EndToEnd.Expected(d, id))
  {
    if id == 0 {
      Entry.IdleAfter(d.entries, []);
      assert [] + Entry.Messages(d.entries) == Entry.Messages(d.entries);
    } else {
      AllEnded(d.ended, id);
    }
  }

  // No start goes to a service that is receiving
  ghost predicate Undisturbed(patterns: seq<Dispatch.Pattern>, events: seq<Event>) {
    Dispatch.NoBusyService(patterns, Dispatch.IdleTable(patterns), ToDispatchAll(events))
  }

  // The services hold the ids of open messages
  ghost predicate HeldOpen(s: Dispatch.State, ms: BlockId -> seq<Message>) {
    forall i | 0 <= i < |s.ids| && s.ids[i] != Dispatch.DOWNLINK_ID_INVALID ::
      0 <= s.ids[i] < 32 && !Idle(ms(s.ids[i]))
  }

  function Received(ms: BlockId -> seq<Message>, e: Event): BlockId -> seq<Message> {
    (k: BlockId) => if k == e.id && Receive(ms(k), e).Some? then Receive(ms(k), e).value else ms(k)
  }

  lemma HeldStep(patterns: seq<Dispatch.Pattern>, s: Dispatch.State, e: Event, ms: BlockId -> seq<Message>)
    requires |s.ids| == |patterns| && Dispatch.Inv(s) && HeldOpen(s, ms) && Receive(ms(e.id), e).Some?
    ensures e.Start? ==> e.id as int !in s.ids
    ensures var s' := Dispatch.Step(patterns, s, ToDispatch(e));
            Dispatch.Inv(s') && |s'.ids| == |patterns| && HeldOpen(s', Received(ms, e))
  {
    Dispatch.StepShaped(patterns, s, ToDispatch(e));
    match e
    case Start(id, path, _) => Dispatch.FindPathFirst(patterns, path, 0);
    case Data(id, _, last) =>
      Dispatch.PickIsSearch(s, id);
      Dispatch.FindIdFirst(s.ids, id, 0);
  }

  // The ids of starts are free whenever the callbacks make messages
  lemma {:induction false} StartsAreFresh(patterns: seq<Dispatch.Pattern>, s: Dispatch.State, events: seq<Event>,
                                          ms: BlockId -> seq<Message>)
    requires |s.ids| == |patterns| && Dispatch.Inv(s) && HeldOpen(s, ms)
    requires forall id: BlockId :: Collect(ms(id), Channel(events, id)).Some?
    requires Dispatch.NoBusyService(patterns, s, ToDispatchAll(events))
    ensures Dispatch.FreshIds(patterns, s, ToDispatchAll(events))
    ensures Dispatch.NoRetarget(patterns, s, ToDispatchAll(events))
    decreases |events|
  {
    if events != [] {
      var e, rest := events[0], events[1..];
      assert ToDispatchAll(events)[0] == ToDispatch(e) && ToDispatchAll(events)[1..] == ToDispatchAll(rest);
      assert Channel(events, e.id)[0] == e && Channel(events, e.id)[1..] == Channel(rest, e.id);
      assert Collect(ms(e.id), Channel(events, e.id)).Some?;
      HeldStep(patterns, s, e, ms);
      forall id: BlockId ensures Collect(Received(ms, e)(id), Channel(rest, id)).Some? {
        assert Collect(ms(id), Channel(events, id)).Some?;
        if id != e.id { assert Channel(events, id) == Channel(rest, id); }
      }
      hide HeldOpen, Collect, Channel, Dispatch.Inv;
      StartsAreFresh(patterns, Dispatch.Step(patterns, s, ToDispatch(e)), rest, Received(ms, e));
    }
  }

  // On every id, each service is given exactly the messages of its paths, whole and in order
  ghost predicate AllServed<S>(patterns: seq<Dispatch.Pattern>, d: Device.State<S>, events: seq<Event>)
    requires Dispatch.FreshIds(patterns, Dispatch.IdleTable(patterns), ToDispatchAll(events))
  {
    var calls := Dispatch.Deliveries(patterns, Dispatch.IdleTable(patterns), ToDispatchAll(events));
    forall id: BlockId ::
      Gather([], [], OfId(calls, id)) == (ForServices(patterns, EndToEnd.Expected(d, id)), [])
  }

  // When the callbacks assemble to the accepted messages, each service is given exactly the messages of
  // its paths, whole and in order on every id
  lemma ServicesReceive<S>(patterns: seq<Dispatch.Pattern>, d: Device.State<S>, events: seq<Event>)
    requires EndToEnd.AllReceived(d, Some(events))
    requires Undisturbed(patterns, events)
    ensures Dispatch.FreshIds(patterns, Dispatch.IdleTable(patterns), ToDispatchAll(events))
    ensures AllServed(patterns, d, events)
  {
    StartsAreFresh(patterns, Dispatch.IdleTable(patterns), events, (id: BlockId) => []);
    Dispatch.DeliveredFromIdle(patterns, ToDispatchAll(events));
    var calls := Dispatch.Routed(patterns, map[], ToDispatchAll(events));
    forall id: BlockId
      ensures Gather([], [], OfId(calls, id)) == (ForServices(patterns, EndToEnd.Expected(d, id)), [])
    {
      RoutedById(patterns, map[], events, id);
      assert Collect([], Channel(events, id)) == Some(EndToEnd.Expected(d, id));
      Gathers(patterns, [], Channel(events, id));
      ExpectedIdle(d, id);
    }
  }

  // ---- packets

  // The payloads of the packets are the output of the callback, which is what the fill calls gave
  lemma PacketsCarry(asks: seq<Packetizer.Ask>)
    requires forall i | 0 <= i < |asks| :: Packetizer.Answered(asks[i])
    ensures var start := Packetizer.State(Packetizer.Callback, true, Packetizer.Ok);
            var packets := Packetizer.CallbackPackets(start, asks).0;
            Flatten(Packetizer.PayloadsOf(packets)) == Packetizer.ReplyBytes(asks)
  {
    var start := Packetizer.State(Packetizer.Callback, true, Packetizer.Ok);
    Packetizer.CallbackRoundTrip(start, asks);
    Packetizer.PayloadsFlatten(Packetizer.CallbackPackets(start, asks).0);
  }

  // The packets the transport made in a run: the packetizer's callback is the fill call
  ghost function PacketsOf<S>(c: Cipher<S>, p: nat, boot: S, actions: seq<Device.Action<S>>, d: Device.State<S>, n: nat)
    : seq<Bytes>
    requires PayloadSize(p) && Device.Runs(c, p, Device.Boot(boot), actions, d)
    requires Pulls.AskRoom(actions) && 1 <= n
  {
    Device.BootInv(c, p, boot);
    Pulls.AsksAnswered(c, p, Device.Boot(boot), actions, d);
    Device.RunKeeps(c, p, Device.Boot(boot), actions, d);
    Pulls.AskAnswered(d.up.u, n);
    var asks := Pulls.Asks(c, p, Device.Boot(boot), actions, d) + [Pulls.AskOf(d.up.u, n)];
    var start := Packetizer.State(Packetizer.Callback, true, Packetizer.Ok);
    Packetizer.CallbackPackets(start, asks).0
  }

  // They carry exactly what was pulled from the session
  lemma PacketsCarryFills<S>(c: Cipher<S>, p: nat, boot: S, actions: seq<Device.Action<S>>, d: Device.State<S>, n: nat)
    requires PayloadSize(p) && Device.Runs(c, p, Device.Boot(boot), actions, d)
    requires Pulls.AskRoom(actions) && 1 <= n && d.up.u.active && |d.up.sessions| == 1
    requires Uplink.Fill(d.up.u, n).result == Uplink.NoMoreData
    ensures Flatten(Packetizer.PayloadsOf(PacketsOf(c, p, boot, actions, d, n)))
            == Uplink.Step(c, d.up, Uplink.DoFill(n)).sessions[0].pulled
    ensures Packetizer.Marked(PacketsOf(c, p, boot, actions, d, n), true, true)
  {
    Device.BootInv(c, p, boot);
    Pulls.FillsArePulled(c, p, boot, actions, d, n);
    var asks := Pulls.Asks(c, p, Device.Boot(boot), actions, d) + [Pulls.AskOf(d.up.u, n)];
    hide Device.Inv, Device.Runs, Uplink.Fill, Uplink.Step, Pulls.AskOf;
    PacketsCarry(asks);
    Packetizer.CallbackRoundTrip(Packetizer.State(Packetizer.Callback, true, Packetizer.Ok), asks);
  }

  // From the application's writes, through the session, the fill calls, packets, reassembly and the
  // handlers, to the services: for every run of one session, every room in every packet, and every
  // schedule of the handlers
  lemma WholeWay<S(!new)>(c: Cipher<S>, p: nat, cap: nat, parse: Reassembly.HeaderParser, boot: S,
                          actions: seq<Device.Action<S>>, d: Device.State<S>, n: nat,
                          r: S, work: seq<Pipeline.Action>, patterns: seq<Dispatch.Pattern>)
    requires 2 <= cap && Lawful(c, p, cap - 2) && EndToEnd.SentAll(c, p, boot, actions, d, n)
    requires Pulls.AskRoom(actions) && 1 <= n
    requires var s := Uplink.Step(c, d.up, Uplink.DoFill(n)).sessions[0];
             var frags := Packetizer.PayloadsOf(PacketsOf(c, p, boot, actions, d, n));
             EndToEnd.Arrives(c, cap, parse, s, frags, r, work)
    requires var events := EndToEnd.Callbacks(c, r, work); events.Some? ==> Undisturbed(patterns, events.value)
    ensures var events := EndToEnd.Callbacks(c, r, work);
            && events.Some?
            && Dispatch.FreshIds(patterns, Dispatch.IdleTable(patterns), ToDispatchAll(events.value))
            && AllServed(patterns, d, events.value)
  {
    PacketsCarryFills(c, p, boot, actions, d, n);
    hide Device.Inv, Device.Runs, Uplink.Fill, Uplink.Step, EndToEnd.Arrives, PacketsOf, Lawful, AllServed, Undisturbed;
    var frags := Packetizer.PayloadsOf(PacketsOf(c, p, boot, actions, d, n));
    EndToEnd.Loopback(c, p, cap, parse, boot, actions, d, n, frags, r, work);
    ServicesReceive(patterns, d, EndToEnd.Callbacks(c, r, work).value);
  }
}
