/** BLE GATT packets (lib/pouch_ble_gatt_common/packetizer.c): one flags byte, then payload. */
module Packetizer {
  import opened Wire

  datatype Source = Buffer(rest: Bytes) | Callback

  datatype Result = MoreData | NoMoreData | EmptyPayload | Error

  datatype Errno = Ok | ENOMEM | ENODATA

  // What the fill callback gives for one call
  datatype Reply = Reply(data: Bytes, result: Result)

  datatype State = State(source: Source, isFirst: bool, error: Errno)

  datatype Output = Output(state: State, result: Result, packet: Bytes)

  function Flags(first: bool, last: bool): byte {
    (if first then 1 else 0) + (if last then 2 else 0)
  }

  // golioth_ble_gatt_packetizer_get, with room for `room` bytes. The packet means nothing on an error.
  function Get(s: State, room: nat, reply: Reply): Output
    requires s.source.Callback? && 1 < room ==> |reply.data| <= room - 1
  {
    if room <= 1 then Output(s.(error := ENOMEM), Error, [])
    else
      var s1 := s.(isFirst := false);
      match s.source
      case Buffer(rest) =>
        var n := Min(room - 1, |rest|);
        var last := room - 1 >= |rest|;
        Output(s1.(source := Buffer(rest[n..])), if last then NoMoreData else MoreData,
               [Flags(s.isFirst, last)] + rest[..n])
      case Callback =>
        if reply.result == Error then Output(s1.(error := ENODATA), Error, [])
        else
          var last := reply.result == NoMoreData;
          Output(s1, if last then NoMoreData else if reply.data == [] then EmptyPayload else MoreData,
                 [Flags(s.isFirst, last)] + reply.data)
  }

  // The result of a call, its error code and what it does to the first-packet mark
  lemma ResultIs(s: State, room: nat, reply: Reply)
    requires s.source.Callback? && 1 < room ==> |reply.data| <= room - 1
    ensures var o := Get(s, room, reply);
            if room <= 1 then o.result == Error && o.state == s.(error := ENOMEM)
            else
              && !o.state.isFirst
              && match s.source
                 case Buffer(rest) =>
                   && o.result == (if |rest| < room then NoMoreData else MoreData)
                   && |o.packet| == 1 + Min(room - 1, |rest|) && o.state.error == s.error
                 case Callback =>
                   match reply.result
                   case Error => o.result == Error && o.state.error == ENODATA
                   case NoMoreData =>
                     && o.result == NoMoreData
                     && |o.packet| == 1 + |reply.data| && o.state.error == s.error
                   case _ =>
                     && o.result == (if reply.data == [] then EmptyPayload else MoreData)
                     && |o.packet| == 1 + |reply.data| && o.state.error == s.error
  {
  }

  datatype Packet = Packet(payload: Bytes, first: bool, last: bool)

  // golioth_ble_gatt_packetizer_decode
  function Decode(packet: Bytes): Option<Packet> {
    if packet == [] then None
    else Some(Packet(packet[1..], packet[0] % 2 == 1, packet[0] / 2 % 2 == 1))
  }

  // The packets for a sequence of packet sizes, up to and including the last one
  function Packets(s: State, sizes: seq<nat>): (r: (seq<Bytes>, bool))
    requires s.source.Buffer?
    decreases |sizes|
  {
    if sizes == [] then ([], false)
    else
      var o := Get(s, sizes[0], Reply([], Error));
      if o.result == NoMoreData then ([o.packet], true)
      else
        var (packets, done) := Packets(o.state, sizes[1..]);
        ([o.packet] + packets, done)
  }

  function Payloads(packets: seq<Bytes>): Bytes {
    if packets == [] then []
    else (match Decode(packets[0]) case None => [] case Some(p) => p.payload) + Payloads(packets[1..])
  }

  // The payloads one by one
  function PayloadsOf(packets: seq<Bytes>): seq<Bytes> {
    if packets == [] then []
    else [match Decode(packets[0]) case None => [] case Some(p) => p.payload] + PayloadsOf(packets[1..])
  }

  lemma {:induction false} PayloadsFlatten(packets: seq<Bytes>)
    ensures Flatten(PayloadsOf(packets)) == Payloads(packets)
  {
    if packets != [] { PayloadsFlatten(packets[1..]); }
  }

  ghost predicate Marked(packets: seq<Bytes>, first: bool, done: bool) {
    forall i | 0 <= i < |packets| ::
      && Decode(packets[i]).Some?
      && (Decode(packets[i]).value.first <==> first && i == 0)
      && (Decode(packets[i]).value.last <==> done && i == |packets| - 1)
  }

  lemma PacketDecodes(first: bool, last: bool, payload: Bytes)
    ensures Decode([Flags(first, last)] + payload) == Some(Packet(payload, first, last))
  {
    assert ([Flags(first, last)] + payload)[1..] == payload;
  }

  lemma MarkedCons(p: Bytes, rest: seq<Bytes>, first: bool, last: bool, done: bool, payload: Bytes)
    requires p == [Flags(first, last)] + payload && Marked(rest, false, done)
    requires last <==> done && rest == []
    ensures Marked([p] + rest, first, done) && Payloads([p] + rest) == payload + Payloads(rest)
  {
    PacketDecodes(first, last, payload);
  }

  lemma Regain(rest: Bytes, n: nat, more: Bytes)
    requires n <= |rest| && more <= rest[n..]
    ensures rest[..n] + more <= rest && (more == rest[n..] ==> rest[..n] + more == rest)
  {
  }

  // Any packet sizes of at least two: the payloads are the source in order, FIRST marks the first
  // packet only, LAST the last only; the run ends as soon as the room was enough
  lemma {:induction false} PacketsRoundTrip(s: State, sizes: seq<nat>, m: nat)
    requires s.source.Buffer? && 2 <= m && forall i | 0 <= i < |sizes| :: m <= sizes[i]
    ensures var (packets, done) := Packets(s, sizes);
            && Marked(packets, s.isFirst, done)
            && Payloads(packets) <= s.source.rest
            && (done ==> Payloads(packets) == s.source.rest && packets != [])
            && (!done ==> |packets| == |sizes|
                          && |s.source.rest| - |Payloads(packets)| >= (if sizes == [] then 0 else 1))
    decreases |sizes|
  {
    if sizes != [] {
      assert Marked([], false, true) && Payloads([]) == [];
      hide Marked, Payloads, Decode;
      var rest := s.source.rest;
      var o := Get(s, sizes[0], Reply([], Error));
      var n := Min(sizes[0] - 1, |rest|);
      var last := sizes[0] - 1 >= |rest|;
      if last {
        MarkedCons(o.packet, [], s.isFirst, true, true, rest[..n]);
        assert [o.packet] + [] == [o.packet] && rest[..n] + [] == rest;
      } else {
        PacketsRoundTrip(o.state, sizes[1..], m);
        var (packets, done) := Packets(o.state, sizes[1..]);
        MarkedCons(o.packet, packets, s.isFirst, false, done, rest[..n]);
        Regain(rest, n, Payloads(packets));
      }
    }
  }

  // For a constant size m the number of packets is max(1, ceil(L / (m - 1)))
  lemma {:induction false} PacketCount(s: State, sizes: seq<nat>, m: nat)
    requires s.source.Buffer? && 2 <= m && forall i | 0 <= i < |sizes| :: sizes[i] == m
    requires |s.source.rest| <= |sizes| * (m - 1) && sizes != []
    ensures var (packets, done) := Packets(s, sizes);
            && done
            && (if s.source.rest == [] then |packets| == 1
                else (|packets| - 1) * (m - 1) < |s.source.rest| <= |packets| * (m - 1))
    decreases |sizes|
  {
    var rest, k := s.source.rest, m - 1;
    if |rest| > k {
      var o := Get(s, sizes[0], Reply([], Error));
      OneMore(|sizes| - 1, k);
      assert |sizes| > 1;
      PacketCount(o.state, sizes[1..], m);
      OneMore(|Packets(o.state, sizes[1..]).0|, k);
    }
  }

  lemma OneMore(n: nat, k: nat)
    ensures (n + 1) * k == n * k + k && n * k == (n - 1) * k + k && (n == 0 ==> n * k == 0)
  {
  }

  // A call of golioth_ble_gatt_packetizer_get in callback mode, and what the callback replied
  datatype Ask = Ask(room: nat, reply: Reply)

  // The callback fills no more than it was given
  predicate Answered(a: Ask) { 1 < a.room ==> |a.reply.data| <= a.room - 1 }

  // Callback mode: the packets for a sequence of calls
  function CallbackPackets(s: State, asks: seq<Ask>): (r: (seq<Bytes>, bool))
    requires s.source.Callback? && forall i | 0 <= i < |asks| :: Answered(asks[i])
    decreases |asks|
  {
    if asks == [] then ([], false)
    else
      assert Answered(asks[0]);
      var o := Get(s, asks[0].room, asks[0].reply);
      if o.result == Error then ([], false)
      else if o.result == NoMoreData then ([o.packet], true)
      else
        var (packets, done) := CallbackPackets(o.state, asks[1..]);
        ([o.packet] + packets, done)
  }

  // The call fails: there is no room for a payload byte, or the callback fails
  predicate Fails(a: Ask) { a.room <= 1 || a.reply.result == Error }

  // The callback's output, up to the failure, or up to and including the reply that ends it
  function ReplyBytes(asks: seq<Ask>): Bytes {
    if asks == [] || Fails(asks[0]) then []
    else if asks[0].reply.result == NoMoreData then asks[0].reply.data
    else asks[0].reply.data + ReplyBytes(asks[1..])
  }

  // The callback came to its end
  predicate Ends(asks: seq<Ask>) {
    asks != [] && !Fails(asks[0]) && (asks[0].reply.result == NoMoreData || Ends(asks[1..]))
  }

  // Callback mode, with any room and any reply in each call: the payloads are the callback's output in
  // order, FIRST marks the first packet only, and LAST the packet that ends the callback's output
  lemma {:induction false} CallbackRoundTrip(s: State, asks: seq<Ask>)
    requires s.source.Callback? && forall i | 0 <= i < |asks| :: Answered(asks[i])
    ensures var (packets, done) := CallbackPackets(s, asks);
            && Payloads(packets) == ReplyBytes(asks)
            && done == Ends(asks) && (done ==> packets != [])
            && Marked(packets, s.isFirst, done)
    decreases |asks|
  {
    assert Marked([], false, true) && Payloads([]) == [];
    if asks != [] && !Fails(asks[0]) {
      hide Marked, Payloads, Decode;
      var a := asks[0];
      var o := Get(s, a.room, a.reply);
      if o.result == NoMoreData {
        MarkedCons(o.packet, [], s.isFirst, true, true, a.reply.data);
        assert [o.packet] + [] == [o.packet] && a.reply.data + [] == a.reply.data;
      } else {
        CallbackRoundTrip(o.state, asks[1..]);
        var (packets, done) := CallbackPackets(o.state, asks[1..]);
        MarkedCons(o.packet, packets, s.isFirst, false, done, a.reply.data);
      }
    } else {
      MarkedNothing(s.isFirst);
    }
  }

  lemma MarkedNothing(first: bool)
    ensures Marked([], first, false)
  {
  }

  class GattPacketizer {
    var source: Source
    var isFirst: bool
    var error: Errno

    ghost function Abs(): State reads this { State.State(source, isFirst, error) }

    constructor StartBuffer(src: Bytes)
      ensures Abs() == State(Buffer(src), true, Ok)
    {
      source, isFirst, error := Buffer(src), true, Ok;
    }

    constructor StartCallback()
      ensures Abs() == State(Callback, true, Ok)
    {
      source, isFirst, error := Callback, true, Ok;
    }

    method GetPacket(dst: array<byte>, reply: Reply) returns (result: Result, len: nat)
      requires dst.Length > 0
      requires source.Callback? && 1 < dst.Length ==> |reply.data| <= dst.Length - 1
      modifies this, dst
      ensures var o := Get(old(Abs()), dst.Length, reply);
              && Abs() == o.state && result == o.result
              && (result != Error ==> len == |o.packet| <= dst.Length && dst[..len] == o.packet)
    {
      var room := dst.Length;
      var flags: byte := 0;
      dst[0] := flags;
      result, len := MoreData, room;
      if room <= 1 {
        error := ENOMEM;
        return Error, room;
      }
      if isFirst {
        flags := 1;
        isFirst := false;
      }
      ghost var data := [];
      match source {
        case Buffer(rest) =>
          var n := room - 1;
          if n >= |rest| {
            n := |rest|;
            flags := flags + 2;
            result := NoMoreData;
          }
          forall i | 0 <= i < n { dst[1 + i] := rest[i]; }
          data := rest[..n];
          len := 1 + n;
          source := Buffer(rest[n..]);
        case Callback =>
          if reply.result == Error {
            error := ENODATA;
            return Error, 0;
          }
          var n := |reply.data|;
          forall i | 0 <= i < n { dst[1 + i] := reply.data[i]; }
          data := reply.data;
          len := 1 + n;
          if n == 0 { result := EmptyPayload; }
          if reply.result == NoMoreData {
            flags := flags + 2;
            result := NoMoreData;
          }
      }
      dst[0] := flags;
      assert dst[..len] == [flags] + data;
    }
  }
}
