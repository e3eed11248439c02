/** The session of the plaintext build, run on the heap, to the receiver's callbacks. */
module DeviceLoopback {
  import opened Wire
  import opened DeviceView
  import Cipher
  import Device
  import EndToEnd
  import Packetizer
  import Pipeline
  import Pulls
  import Uplink

  lemma {:induction false} AsksSnoc(p: nat, v: View, calls: seq<Call>, c: Call)
    requires Fitting(p, v) && OpensOk(calls, p) && OpenOk(c, p)
    ensures OpensOk(calls + [c], p)
    ensures AsksOf(p, v, calls + [c]) == AsksOf(p, v, calls) + AskOnce(After(p, v, calls), c)
    decreases |calls|
  {
    hide Next, AskOnce, OpenOk, Fitting;
    if calls == [] {
      NextFits(p, v, c);
      assert calls + [c] == [c] && [c][1..] == [];
    } else {
      var v' := Next(p, v, calls[0]);
      NextFits(p, v, calls[0]);
      HeadTail(calls, [c]);
      AsksSnoc(p, v', calls[1..], c);
      Assoc(AskOnce(v, calls[0]), AsksOf(p, v', calls[1..]), AskOnce(After(p, v, calls), c));
    }
  }

  // The calls of one session, up to the fill that says NO_MORE_DATA: what its fills gave the packetizer
  // is the session's bytes
  lemma CallsPull(p: nat, calls: seq<Call>, m: Device.State<()>, n: nat)
    requires EndToEnd.SentAll(Cipher.Plain(), p, (), ActionsOf(calls), m, n)
    requires Pulls.AskRoom(ActionsOf(calls)) && 1 <= n
    ensures Fitting(p, Boot()) && OpensOk(calls + [DoFill(n)], p)
    ensures var asks := AsksOf(p, Boot(), calls + [DoFill(n)]);
            && Packetizer.Ends(asks)
            && Packetizer.ReplyBytes(asks) == Uplink.Step(Cipher.Plain(), m.up, Uplink.DoFill(n)).sessions[0].pulled
  {
    var c, boot := Cipher.Plain(), Device.Boot(());
    Device.BootInv(c, p, ());
    BootLooks();
    hide Uplink.Fill, Uplink.Step, Device.Inv, Device.Runs, Look, Pulls.AskOf, Fitting, EndToEnd.Done;
    RunLooks(p, boot, calls, m);
    AsksSnoc(p, Boot(), calls, DoFill(n));
    Pulls.FillsArePulled(c, p, (), ActionsOf(calls), m, n);
    assert AskOnce(Look(m), DoFill(n)) == [Pulls.AskOf(m.up.u, n)] by { AsksOnce(m, DoFill(n)); }
  }

  // so a receiver that is given those bytes receives what the application wrote
  lemma CallsDeliver(p: nat, deviceId: Bytes, calls: seq<Call>, m: Device.State<()>, n: nat,
                     frags: seq<Bytes>, work: seq<Pipeline.Action>)
    requires EndToEnd.SentAll(Cipher.Plain(), p, (), ActionsOf(calls), m, n)
    requires Pulls.AskRoom(ActionsOf(calls)) && 1 <= n && Fitting(p, Boot()) && OpensOk(calls + [DoFill(n)], p)
    requires var s := Uplink.Step(Cipher.Plain(), m.up, Uplink.DoFill(n)).sessions[0];
             var bytes := Packetizer.ReplyBytes(AsksOf(p, Boot(), calls + [DoFill(n)]));
             EndToEnd.CarriedPlain(p, deviceId, s.(pulled := bytes), frags, work)
    ensures EndToEnd.AllReceived(m, EndToEnd.Callbacks(Cipher.Plain(), (), work))
  {
    hide EndToEnd.SentAll, EndToEnd.AllReceived, EndToEnd.CarriedPlain, Uplink.Fill, Uplink.Step, AsksOf;
    CallsPull(p, calls, m, n);
    EndToEnd.LoopbackPlain(p, deviceId, ActionsOf(calls), m, n, frags, work);
  }

  lemma BootLooks()
    ensures Look(Device.Boot(())) == Boot()
  {
    var none: map<nat, Device.Handle> := map[];
    assert StreamsOf(none + none) == map[];
  }
}
