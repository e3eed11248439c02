/** The transport's side of a run: the packetizer's callback is pouch_uplink_fill
    (uplink_fill_cb of src/transport/ble_gatt/uplink_characteristic.c). */
module Pulls {
  import opened Wire
  import opened Cipher
  import Device
  import Entry
  import Packetizer
  import Stream
  import Uplink

  // uplink_fill_cb: what the callback replies when the fill gave out
  function ReplyOf(out: Bytes, result: Uplink.PouchResult): Packetizer.Reply {
    Packetizer.Reply(out, match result
                          case MoreData => Packetizer.MoreData
                          case NoMoreData => Packetizer.NoMoreData
                          case Error => Packetizer.Error)
  }

  // A fill of n bytes, in a packet with room for them and the flags
  function AskOf<S>(u: Uplink.State<S>, n: nat): Packetizer.Ask {
    var f := Uplink.Fill(u, n);
    Packetizer.Ask(n + 1, ReplyOf(f.out, f.result))
  }

  // The calls of the packetizer along a run: one for each fill in a session
  ghost function Asks<S>(c: Cipher<S>, p: nat, d: Device.State<S>, actions: seq<Device.Action<S>>,
                         d': Device.State<S>): seq<Packetizer.Ask>
    requires Device.Runs(c, p, d, actions, d')
    decreases |actions|
  {
    if actions == [] then []
    else
      var a := actions[0];
      (if a.Fill? && d.up.u.active then [AskOf(d.up.u, a.n)] else [])
      + Asks(c, p, Device.Step(c, p, d, a), actions[1..], d')
  }

  function AskBytes(asks: seq<Packetizer.Ask>): Bytes {
    if asks == [] then [] else asks[0].reply.data + AskBytes(asks[1..])
  }

  // All that was pulled, session after session
  function Pulled<S>(sessions: seq<Uplink.Session<S>>): Bytes {
    if sessions == [] then [] else Pulled(sessions[..|sessions| - 1]) + Uplink.Last(sessions).pulled
  }

  lemma PulledSetLast<S>(sessions: seq<Uplink.Session<S>>, s: Uplink.Session<S>, more: Bytes)
    requires sessions != [] && s.pulled == Uplink.Last(sessions).pulled + more
    ensures Pulled(Uplink.SetLast(sessions, s)) == Pulled(sessions) + more
  {
    var before := sessions[..|sessions| - 1];
    assert Uplink.SetLast(sessions, s)[..|sessions| - 1] == before;
    Assoc(Pulled(before), Uplink.Last(sessions).pulled, more);
  }

  lemma PulledNew<S>(sessions: seq<Uplink.Session<S>>, s: Uplink.Session<S>)
    requires s.pulled == []
    ensures Pulled(sessions + [s]) == Pulled(sessions)
  {
    assert (sessions + [s])[..|sessions|] == sessions;
    assert Pulled(sessions) + [] == Pulled(sessions);
  }

  // How many sessions there are, counting the one that may still begin
  function Phase<S>(h: Uplink.History<S>): nat {
    |h.sessions| + (if h.u.active then 0 else 1)
  }

  // What one step of the uplink does to what was pulled, and to the count of sessions
  ghost predicate Pulling<S>(h: Uplink.History<S>, a: Uplink.Action<S>, h': Uplink.History<S>) {
    && Pulled(h'.sessions)
       == Pulled(h.sessions) + (if a.DoFill? && h.u.active then Uplink.Fill(h.u, a.n).out else [])
    && Phase(h) <= Phase(h')
    && (a.DoFill? && h.u.active && Uplink.Fill(h.u, a.n).result != Uplink.MoreData ==> Phase(h) < Phase(h'))
  }

  lemma UplinkStep<S>(c: Cipher<S>, h: Uplink.History<S>, a: Uplink.Action<S>)
    requires Uplink.Inv(c, h)
    ensures Pulling(h, a, Uplink.Step(c, h, a))
  {
    hide Uplink.Inv, Uplink.Step, Pulling;
    if a.DoWork? {
      WorkPulls(c, h);
    } else if a.DoFill? {
      FillPulls(c, h, a.n);
    } else {
      OthersPullNot(c, h, a);
    }
  }

  lemma OthersPullNot<S>(c: Cipher<S>, h: Uplink.History<S>, a: Uplink.Action<S>)
    requires !a.DoWork? && !a.DoFill?
    ensures Pulling(h, a, Uplink.Step(c, h, a))
  {
    hide Pulled, Uplink.Work, Uplink.Fill;
    var none: Bytes := [];
    assert Pulled(h.sessions) + none == Pulled(h.sessions);
    if a.DoStart? && a.header.Some? { PulledNew(h.sessions, Uplink.Session(a.header.value, a.crypto, [], [])); }
  }

  lemma WorkPulls<S>(c: Cipher<S>, h: Uplink.History<S>)
    ensures Pulling(h, Uplink.DoWork, Uplink.Step(c, h, Uplink.DoWork))
  {
    hide Uplink.ProcessLoop;
    var none: Bytes := [];
    assert Pulled(h.sessions) + none == Pulled(h.sessions);
    ActiveAfter(c, h.u.(pending := false));
    if h.sessions != [] {
      var last := Uplink.Last(h.sessions);
      var u' := Uplink.Work(c, h.u);
      var moved := h.u.processing[..|h.u.processing| - Min(|h.u.processing|, |u'.processing|)];
      assert last.pulled + none == last.pulled;
      PulledSetLast(h.sessions, last.(moved := last.moved + moved), none);
    }
    hide Pulled;
  }

  lemma FillPulls<S>(c: Cipher<S>, h: Uplink.History<S>, n: nat)
    requires Uplink.Inv(c, h)
    ensures Pulling(h, Uplink.DoFill(n), Uplink.Step(c, h, Uplink.DoFill(n)))
  {
    ActiveSession(c, h);
    hide Uplink.FillLoop, Uplink.Inv;
    var out := Uplink.Fill(h.u, n).out;
    if h.sessions != [] {
      var last := Uplink.Last(h.sessions);
      PulledSetLast(h.sessions, last.(pulled := last.pulled + out), out);
      assert !h.u.active ==> Pulled(h.sessions) + out == Pulled(h.sessions);
    }
    hide Pulled;
  }

  lemma ActiveSession<S>(c: Cipher<S>, h: Uplink.History<S>)
    requires Uplink.Inv(c, h)
    ensures h.u.active ==> h.sessions != []
  {
  }

  lemma {:induction false} ActiveAfter<S>(c: Cipher<S>, u: Uplink.State<S>)
    ensures Uplink.ProcessLoop(c, u).active == u.active
    decreases |u.processing|
  {
    if u.active && !u.closed && u.processing != [] { ActiveAfter(c, Uplink.ProcessTurn(c, u)); }
  }

  lemma UplinkInv<S>(c: Cipher<S>, p: nat, d: Device.State<S>)
    requires Device.Inv(c, p, d)
    ensures Uplink.Inv(c, d.up)
  {
  }

  lemma EnqueuePulls<S>(c: Cipher<S>, h: Uplink.History<S>, sent: seq<Bytes>)
    requires Uplink.Inv(c, h)
    ensures var h' := Device.EnqueueAll(c, h, sent);
            Pulled(h'.sessions) == Pulled(h.sessions) && Phase(h') == Phase(h)
  {
    hide Uplink.Inv;
    Device.EnqueueAllKeeps(c, h, sent);
  }

  // and one of the whole device
  lemma DeviceStep<S>(c: Cipher<S>, p: nat, d: Device.State<S>, a: Device.Action<S>)
    requires Device.Inv(c, p, d) && Device.Enabled(p, d, a) && Device.Callable(p, d, a)
    ensures var d' := Device.Step(c, p, d, a);
            && Pulled(d'.up.sessions)
               == Pulled(d.up.sessions) + (if a.Fill? && d.up.u.active then Uplink.Fill(d.up.u, a.n).out else [])
            && Phase(d.up) <= Phase(d'.up)
            && (a.Fill? && d.up.u.active && Uplink.Fill(d.up.u, a.n).result != Uplink.MoreData
                ==> Phase(d.up) < Phase(d'.up))
  {
    hide Uplink.Step, Uplink.Fill, Entry.Write, Entry.Close, Stream.Write, Stream.Close, Device.EnqueueAll;
    hide Device.Inv, Device.Enabled, Phase, Pulled;
    UplinkInv(c, p, d);
    var none: Bytes := [];
    assert Pulled(d.up.sessions) + none == Pulled(d.up.sessions);
    match a
    case EntryWrite(e, luck) => EnqueuePulls(c, d.up, Entry.Write(p, d.entry, e, luck).sent);
    case StreamWrite(k, data, budget) =>
      var s := (d.streams + d.stale)[k];
      EnqueuePulls(c, d.up, Stream.Write(p, s.stream, d.up.u.id, data, budget).sent);
    case StreamClose(k) =>
      var s := (d.streams + d.stale)[k];
      EnqueuePulls(c, d.up, Stream.Close(s.stream, d.up.u.id));
    case StreamOpen(_, _, _, _) =>
    case UplinkClose(lock) =>
      var r := Entry.Close(d.entry, lock);
      UplinkStep(c, d.up, Uplink.DoClose(if r.sent == [] then None else Some(r.sent[0])));
    case Work => UplinkStep(c, d.up, Uplink.DoWork);
    case Start(setup, header, crypto) => UplinkStep(c, d.up, Uplink.DoStart(setup, header, crypto));
    case Fill(n) => UplinkStep(c, d.up, Uplink.DoFill(n));
    case Finish => UplinkStep(c, d.up, Uplink.DoFinish);
  }

  // Over a run: the fills gave exactly what was pulled; sessions only become more; and if the run ends in
  // the session that was the next one to expect, every fill in it said that there is more
  lemma {:induction false} RunPulls<S>(c: Cipher<S>, p: nat, d: Device.State<S>, actions: seq<Device.Action<S>>,
                                       d': Device.State<S>)
    requires Device.Inv(c, p, d) && Device.Runs(c, p, d, actions, d')
    ensures var asks := Asks(c, p, d, actions, d');
            && Pulled(d'.up.sessions) == Pulled(d.up.sessions) + AskBytes(asks)
            && Phase(d.up) <= Phase(d'.up)
            && (Phase(d'.up) <= Phase(d.up)
                ==> forall i | 0 <= i < |asks| :: asks[i].reply.result == Packetizer.MoreData)
    decreases |actions|
  {
    hide Device.Inv, Device.Step, Device.Enabled, Device.Callable, Uplink.Fill, Pulled, AskOf;
    if actions == [] {
      assert Pulled(d.up.sessions) + [] == Pulled(d.up.sessions);
    } else {
      var a, d1 := actions[0], Device.Step(c, p, d, actions[0]);
      Device.StepKeeps(c, p, d, a);
      DeviceStep(c, p, d, a);
      RunPulls(c, p, d1, actions[1..], d');
      var first := if a.Fill? && d.up.u.active then [AskOf(d.up.u, a.n)] else [];
      var rest := Asks(c, p, d1, actions[1..], d');
      Joined(first, rest, Pulled(d.up.sessions));
      if first != [] { OneAsk(d.up.u, a.n); }
    }
  }

  lemma OneAsk<S>(u: Uplink.State<S>, n: nat)
    ensures AskBytes([AskOf(u, n)]) == Uplink.Fill(u, n).out
    ensures AskOf(u, n).reply.result == Packetizer.MoreData <==> Uplink.Fill(u, n).result == Uplink.MoreData
  {
    hide Uplink.Fill;
    assert AskOf(u, n).reply.data + [] == AskOf(u, n).reply.data;
  }

  lemma {:induction false} Joined(a: seq<Packetizer.Ask>, b: seq<Packetizer.Ask>, before: Bytes)
    ensures before + AskBytes(a + b) == before + AskBytes(a) + AskBytes(b)
    decreases |a|
  {
    if a == [] {
      assert a + b == b && before + [] == before;
    } else {
      HeadTail(a, b);
      Joined(a[1..], b, before + a[0].reply.data);
      Assoc(before, a[0].reply.data, AskBytes(a[1..] + b));
      Assoc(before, a[0].reply.data, AskBytes(a[1..]));
    }
  }

  // The packetizer asks for at least one byte: it fails by itself in a packet without room for one
  ghost predicate AskRoom<S>(actions: seq<Device.Action<S>>) {
    forall i | 0 <= i < |actions| && actions[i].Fill? :: 1 <= actions[i].n
  }

  ghost predicate AllAnswered(asks: seq<Packetizer.Ask>) {
    forall i | 0 <= i < |asks| :: Packetizer.Answered(asks[i]) && 1 < asks[i].room
  }

  lemma AnsweredConcat(a: seq<Packetizer.Ask>, b: seq<Packetizer.Ask>)
    requires AllAnswered(a) && AllAnswered(b)
    ensures AllAnswered(a + b)
  {
  }

  // The callback fills no more than it was given
  lemma {:induction false} AsksAnswered<S>(c: Cipher<S>, p: nat, d: Device.State<S>, actions: seq<Device.Action<S>>,
                                           d': Device.State<S>)
    requires Device.Inv(c, p, d) && Device.Runs(c, p, d, actions, d') && AskRoom(actions)
    ensures AllAnswered(Asks(c, p, d, actions, d'))
    decreases |actions|
  {
    if actions != [] {
      var a, d1 := actions[0], Device.Step(c, p, d, actions[0]);
      Device.StepKeeps(c, p, d, a);
      var first := if a.Fill? && d.up.u.active then [AskOf(d.up.u, a.n)] else [];
      assert AllAnswered(first) by {
        if first != [] {
          assert 1 <= a.n;
          AskAnswered(d.up.u, a.n);
        }
      }
      assert AskRoom(actions[1..]) by { assert forall i | 0 <= i < |actions| - 1 :: actions[1..][i] == actions[i + 1]; }
      hide Device.Inv, Device.Step, Device.Enabled, Device.Callable, AskRoom, AskOf, AllAnswered;
      AsksAnswered(c, p, d1, actions[1..], d');
      AnsweredConcat(first, Asks(c, p, d1, actions[1..], d'));
    }
  }

  lemma AskAnswered<S>(u: Uplink.State<S>, n: nat)
    requires Uplink.WellRead(u.reader) && 1 <= n
    ensures Packetizer.Answered(AskOf(u, n)) && 1 < AskOf(u, n).room
  {
    Uplink.FillTakes(u.reader, u.transport, n);
    hide Uplink.FillLoop, Flatten;
  }

  // Replies that all say there is more, and then the last one
  lemma {:induction false} ReplyAll(asks: seq<Packetizer.Ask>, last: Packetizer.Ask)
    requires forall i | 0 <= i < |asks| :: asks[i].reply.result == Packetizer.MoreData && 1 < asks[i].room
    requires last.reply.result == Packetizer.NoMoreData && 1 < last.room
    ensures Packetizer.ReplyBytes(asks + [last]) == AskBytes(asks) + last.reply.data && Packetizer.Ends(asks + [last])
    decreases |asks|
  {
    if asks == [] {
      assert asks + [last] == [last];
    } else {
      HeadTail(asks, [last]);
      ReplyAll(asks[1..], last);
      Assoc(asks[0].reply.data, AskBytes(asks[1..]), last.reply.data);
    }
  }

  // In a run of one session, from power-up to the fill that says NO_MORE_DATA, what the callback gave the
  // packetizer is what was pulled from the session, and it came to its end
  lemma FillsArePulled<S>(c: Cipher<S>, p: nat, boot: S, actions: seq<Device.Action<S>>, d: Device.State<S>, n: nat)
    requires Device.Inv(c, p, Device.Boot(boot)) && Device.Runs(c, p, Device.Boot(boot), actions, d)
    requires AskRoom(actions) && 1 <= n && d.up.u.active && |d.up.sessions| == 1
    requires Uplink.Fill(d.up.u, n).result == Uplink.NoMoreData
    ensures var asks := Asks(c, p, Device.Boot(boot), actions, d) + [AskOf(d.up.u, n)];
            && (forall i | 0 <= i < |asks| :: Packetizer.Answered(asks[i])) && Packetizer.Ends(asks)
            && Packetizer.ReplyBytes(asks) == Uplink.Step(c, d.up, Uplink.DoFill(n)).sessions[0].pulled
  {
    hide Device.Inv, Device.Runs, Uplink.Fill;
    var asks, last := Asks(c, p, Device.Boot(boot), actions, d), AskOf(d.up.u, n);
    RunPulls(c, p, Device.Boot(boot), actions, d);
    AsksAnswered(c, p, Device.Boot(boot), actions, d);
    Device.RunKeeps(c, p, Device.Boot(boot), actions, d);
    LastPulled(c, p, d, n);
    hide Uplink.Step, AskOf;
    ReplyAll(asks, last);
    AnsweredConcat(asks, [last]);
    OnePulled(d.up.sessions);
    assert [] + AskBytes(asks) == AskBytes(asks);
  }

  // The last fill of the session
  lemma LastPulled<S>(c: Cipher<S>, p: nat, d: Device.State<S>, n: nat)
    requires Device.Inv(c, p, d) && 1 <= n && d.up.u.active && |d.up.sessions| == 1
    requires Uplink.Fill(d.up.u, n).result == Uplink.NoMoreData
    ensures var last := AskOf(d.up.u, n);
            && AllAnswered([last]) && last.reply.result == Packetizer.NoMoreData
            && Uplink.Step(c, d.up, Uplink.DoFill(n)).sessions[0].pulled == d.up.sessions[0].pulled + last.reply.data
  {
    AskAnswered(d.up.u, n);
    hide Uplink.Fill;
  }

  lemma OnePulled<S>(sessions: seq<Uplink.Session<S>>)
    requires |sessions| == 1
    ensures Pulled(sessions) == sessions[0].pulled
  {
    assert sessions[..0] == [] && [] + sessions[0].pulled == sessions[0].pulled;
  }
}
