/** The buffers every layer works on (src/buf.c): a byte array and the number of bytes in use. */
module Buf {
  import opened Wire
  import opened Block

  class PouchBuf {
    const data: array<byte>
    var bytes: nat

    ghost predicate Valid()
      reads this
    {
      bytes <= data.Length
    }

    ghost function Contents(): Bytes
      requires Valid()
      reads this, data
    {
      data[..bytes]
    }

    // buf_alloc, when malloc succeeds
    constructor (size: nat)
      ensures fresh(data) && data.Length == size
      ensures Valid() && Contents() == []
    {
      data := new byte[size](_ => 0);
      bytes := 0;
    }

    // buf_write
    method Write(src: Bytes)
      requires Valid() && bytes + |src| <= data.Length
      modifies this, data
      ensures Valid() && Contents() == old(Contents()) + src
    {
      forall i | 0 <= i < |src| { data[bytes + i] := src[i]; }
      bytes := bytes + |src|;
      assert data[..old(bytes)] == old(data[..bytes]);
    }

    // buf_restore
    method Restore(state: nat)
      requires state <= data.Length
      modifies this`bytes
      ensures bytes == state
    {
      bytes := state;
    }

    // buf_trim_start: memmove the rest to the front
    method TrimStart(n: nat)
      requires Valid()
      modifies this, data
      ensures Valid() && Contents() == old(Contents())[Min(n, old(bytes))..]
    {
      var k := Min(n, bytes);
      bytes := bytes - k;
      forall i | 0 <= i < bytes { data[i] := data[k + i]; }
    }

    // buf_trim_end
    method TrimEnd(n: nat)
      requires Valid()
      modifies this`bytes
      ensures Valid() && Contents() == old(Contents())[..old(bytes) - Min(n, old(bytes))]
    {
      bytes := bytes - Min(n, bytes);
    }

    // finish() of src/block.c: back to the start, rewrite the size, OR the flags in place, restore
    method FinishBlock(first: bool, last: bool)
      requires Valid() && HEADER_SIZE <= bytes
      modifies this, data
      ensures Valid() && Contents() == Finish(old(Contents()), first, last)
    {
      var size := bytes - 2;
      var state := bytes;
      Restore(0);
      data[0], data[1] := size / 256 % 256, size % 256;
      if first { data[2] := OrFirst(data[2]); }
      if last { data[2] := OrLast(data[2]); }
      Restore(state);
      assert data[HEADER_SIZE..bytes] == old(data[HEADER_SIZE..bytes]);
    }
  }

  // A window on a buffer that is being read: struct pouch_bufview
  datatype BufView = BufView(buf: PouchBuf?, offset: nat)
  {
    ghost predicate Valid()
      reads buf
    {
      buf != null ==> buf.Valid() && offset <= buf.bytes
    }

    // pouch_bufview_available
    function Available(): nat
      requires Valid()
      reads buf
    {
      if buf == null then 0 else buf.bytes - offset
    }

    // What is still to be read
    ghost function Rest(): (r: Bytes)
      requires Valid() && buf != null
      reads buf, DataOf(buf)
      ensures |r| == Available()
    {
      buf.Contents()[offset..]
    }

    // pouch_bufview_read, when that much is there
    method Read(n: nat) returns (s: Bytes, v: BufView)
      requires Valid() && buf != null && n <= Available()
      ensures v.buf == buf && v.Valid() && s == Rest()[..n] && v.Rest() == Rest()[n..]
    {
      s, v := buf.data[offset..offset + n], BufView(buf, offset + n);
    }

    // pouch_bufview_read_be16
    method ReadBe16() returns (x: nat, v: BufView)
      requires Valid() && buf != null && 2 <= Available()
      ensures v.buf == buf && v.Valid() && x == FromBe16(Rest()) && v.Rest() == Rest()[2..]
    {
      x := buf.data[offset] as int * 256 + buf.data[offset + 1] as int;
      v := BufView(buf, offset + 2);
    }

    // pouch_bufview_read_byte
    method ReadByte() returns (x: byte, v: BufView)
      requires Valid() && buf != null && 1 <= Available()
      ensures v.buf == buf && v.Valid() && x == Rest()[0] && v.Rest() == Rest()[1..]
    {
      x, v := buf.data[offset], BufView(buf, offset + 1);
    }
  }

  // The array behind a pointer that may be NULL
  ghost function DataOf(b: PouchBuf?): set<object> {
    if b == null then {} else {b.data}
  }

  ghost function DatasOf(q: seq<PouchBuf>): set<object> {
    set i | 0 <= i < |q| :: q[i].data
  }

  ghost function ContentsOf(b: PouchBuf?): Option<Bytes>
    requires b != null ==> b.Valid()
    reads b, DataOf(b)
  {
    if b == null then None else Some(b.Contents())
  }

  // The contents of a queue of buffers
  ghost predicate AllValid(q: seq<PouchBuf>)
    reads q
  {
    forall i | 0 <= i < |q| :: q[i].Valid()
  }

  ghost function Contents(q: seq<PouchBuf>): (r: seq<Bytes>)
    requires AllValid(q)
    reads q, DatasOf(q)
    ensures |r| == |q| && forall i | 0 <= i < |q| :: r[i] == q[i].Contents()
  {
    if q == [] then [] else [q[0].Contents()] + Contents(q[1..])
  }

  lemma {:induction false} ContentsSnoc(q: seq<PouchBuf>, b: PouchBuf)
    requires AllValid(q) && b.Valid()
    ensures AllValid(q + [b]) && Contents(q + [b]) == Contents(q) + [b.Contents()]
  {
  }

  lemma {:induction false} ContentsTail(q: seq<PouchBuf>)
    requires AllValid(q) && q != []
    ensures AllValid(q[1..]) && Contents(q) == [q[0].Contents()] + Contents(q[1..])
  {
  }
}
