/** The receiving half of src/entry.c on a buffer: the view advances as the callbacks are made. */
module DownlinkEntry {
  import opened Wire
  import opened Block
  import opened Buf
  import opened Decoder

  // The C string that strcpy and the handlers see: everything up to the first NUL
  method CopyPath(path: Bytes) returns (s: Bytes)
    ensures s == CString(path)
  {
    var n := 0;
    while n < |path| && path[n] != 0
      invariant 0 <= n <= |path| && CString(path) == path[..n] + CString(path[n..])
    {
      assert path[n..][1..] == path[n + 1..];
      assert path[..n + 1] == path[..n] + [path[n]];
      n := n + 1;
    }
    s := path[..n];
    assert s + [] == s;
  }

  // Reading on from a view of what follows the first k bytes
  lemma ReadOn(r: Bytes, k: nat, n: nat)
    requires k + n <= |r|
    ensures r[k..][..n] == r[k..k + n] && r[k..][n..] == r[k + n..]
  {
  }

  // The fixed part of an entry
  method EntryHeader(v: BufView) returns (dataLen: nat, contentType: nat, pathLen: nat, v': BufView)
    requires v.Valid() && v.buf != null && 5 <= v.Available()
    ensures v'.buf == v.buf && v'.Valid() && v'.Rest() == v.Rest()[5..]
    ensures dataLen == FromBe16(v.Rest()) && contentType == FromBe16(v.Rest()[2..]) && pathLen == v.Rest()[4]
  {
    ghost var r := v.Rest();
    var v1, v2, pathByte;
    dataLen, v1 := v.ReadBe16();
    contentType, v2 := v1.ReadBe16();
    ReadOn(r, 2, 2);
    pathByte, v' := v2.ReadByte();
    ReadOn(r, 4, 1);
    pathLen := pathByte;
  }

  // One entry at the front of the view
  method EntryPush(v: BufView) returns (events: seq<Event>, v': BufView)
    requires v.Valid() && v.buf != null && v.Available() > 0 && DecodeEntries(v.Rest()).Some?
    ensures v'.buf == v.buf && v'.Valid() && v'.Available() < v.Available()
    ensures DecodeEntries(v'.Rest()).Some?
    ensures DecodeEntries(v.Rest()).value == events + DecodeEntries(v'.Rest()).value
  {
    ghost var r := v.Rest();
    assert 5 <= |r| && 5 + r[4] as int + FromBe16(r) <= |r|;
    DecodeFront(r);
    hide DecodeEntries, CString, FromBe16;
    var dataLen, contentType, pathLen, v1 := EntryHeader(v);
    var path, v2 := v1.Read(pathLen);
    ReadOn(r, 5, pathLen);
    var data, v3 := v2.Read(dataLen);
    ReadOn(r, 5 + pathLen, dataLen);
    var name := CopyPath(path);
    events := [Start(0, name, contentType), Data(0, data, true)];
    v' := v3;
  }

  // pouch_downlink_entries_push, for contents that are not cut short
  method EntriesPush(v: BufView) returns (events: seq<Event>)
    requires v.Valid() && v.buf != null && DecodeEntries(v.Rest()).Some?
    ensures events == DecodeEntries(v.Rest()).value
  {
    events := [];
    var u := v;
    while u.Available() > 0
      invariant u.Valid() && u.buf == v.buf && DecodeEntries(u.Rest()).Some?
      invariant DecodeEntries(v.Rest()).value == events + DecodeEntries(u.Rest()).value
      decreases u.Available()
    {
      var more, u' := EntryPush(u);
      Assoc(events, more, DecodeEntries(u'.Rest()).value);
      events, u := events + more, u';
    }
    assert events + [] == events;
  }

  // The header of a first block
  method StreamStart(v: BufView, id: BlockId) returns (start: Event, v': BufView)
    requires v.Valid() && v.buf != null && 3 <= v.Available() && 3 + v.Rest()[2] as int <= v.Available()
    ensures v'.buf == v.buf && v'.Valid()
    ensures var n := 3 + v.Rest()[2] as int;
            start == Start(id, CString(v.Rest()[3..n]), FromBe16(v.Rest())) && v'.Rest() == v.Rest()[n..]
  {
    ghost var r := v.Rest();
    var contentType, v1 := v.ReadBe16();
    var pathByte, v2 := v1.ReadByte();
    ReadOn(r, 2, 1);
    var pathLen: nat := pathByte;
    var path, v3 := v2.Read(pathLen);
    ReadOn(r, 3, pathLen);
    var name := CopyPath(path);
    start, v' := Start(id, name, contentType), v3;
  }

  // pouch_downlink_stream_push
  method StreamPush(v: BufView, id: BlockId, first: bool, last: bool) returns (events: seq<Event>)
    requires v.Valid() && v.buf != null && DecodeStream(id, first, last, v.Rest()).Some?
    ensures events == DecodeStream(id, first, last, v.Rest()).value
  {
    events := [];
    var u := v;
    if first {
      var start: Event;
      start, u := StreamStart(v, id);
      events := [start];
    }
    var data, _ := u.Read(u.Available());
    assert data == u.Rest();
    events := events + [Data(id, data, last)];
  }

  // pouch_downlink_block_push
  method BlockPush(b: PouchBuf) returns (events: seq<Event>)
    requires b.Valid() && DecodeBlock(b.Contents()).Some?
    ensures events == DecodeBlock(b.Contents()).value
  {
    ghost var r := b.Contents();
    var v := BufView(b, 0);
    assert v.Rest() == r;
    var _, v1 := v.ReadBe16();
    var idByte, v2 := v1.ReadByte();
    assert v2.Rest() == r[HEADER_SIZE..] && idByte == r[2];
    var id: BlockId := idByte % 32;
    if id != 0 {
      events := StreamPush(v2, id, IsFirst(idByte), IsLast(idByte));
    } else {
      events := EntriesPush(v2);
    }
  }
}
