/** Block framing (src/block.c): a 16-bit size, an id byte carrying the FIRST and LAST flags, a payload. */
module Block {
  import opened Wire

  const HEADER_SIZE := 3
  const AUTH_TAG_LEN := 16

  type BlockId = i: nat | i < 32

  // Payload sizes whose sealed blocks still fit the 16-bit size field
  predicate PayloadSize(p: nat) {
    1 <= p && 1 + p + AUTH_TAG_LEN < 0x1_0000
  }

  predicate IsFirst(b: byte) { b / 64 % 2 == 1 }

  predicate IsLast(b: byte) { b / 128 == 1 }

  function OrFirst(b: byte): byte { if IsFirst(b) then b else b + 64 }

  function OrLast(b: byte): byte { if IsLast(b) then b else b + 128 }

  function IdByte(id: BlockId, first: bool, last: bool): byte {
    id + (if first then 64 else 0) + (if last then 128 else 0)
  }

  // The block a receiver should see: the size counts the id byte and the payload
  function MkBlock(id: BlockId, first: bool, last: bool, payload: Bytes): Bytes {
    Be16(1 + |payload|) + [IdByte(id, first, last)] + payload
  }

  // A block under construction: the size is still zero
  function Unfinished(id: BlockId, first: bool, last: bool, payload: Bytes): Bytes {
    Be16(0) + [IdByte(id, first, last)] + payload
  }

  // finish(): roll back to the start, write the size, OR the flags in place, restore
  function Finish(block: Bytes, first: bool, last: bool): Bytes
    requires HEADER_SIZE <= |block|
  {
    var id := if first then OrFirst(block[2]) else block[2];
    Be16(|block| - 2) + [if last then OrLast(id) else id] + block[HEADER_SIZE..]
  }

  lemma FinishCompletes(id: BlockId, first: bool, was: bool, orFirst: bool, last: bool, payload: Bytes)
    ensures Finish(Unfinished(id, first, was, payload), orFirst, last)
            == MkBlock(id, first || orFirst, was || last, payload)
  {
    var b := Unfinished(id, first, was, payload);
    assert b[HEADER_SIZE..] == payload;
  }

  datatype Header = Header(size: nat, id: BlockId, first: bool, last: bool)

  // block_decode_hdr
  function DecodeHeader(block: Bytes): Header
    requires HEADER_SIZE <= |block|
  {
    Header(FromBe16(block), block[2] % 32, IsFirst(block[2]), IsLast(block[2]))
  }

  // What the reassembler needs of a block on the wire
  predicate OnWire(block: Bytes, maxField: nat) {
    HEADER_SIZE <= |block| && FromBe16(block) == |block| - 2 && |block| - 2 <= maxField
  }

  ghost predicate AllOnWire(blocks: seq<Bytes>, maxField: nat) {
    forall i | 0 <= i < |blocks| :: OnWire(blocks[i], maxField)
  }

  lemma MkBlockDecodes(id: BlockId, first: bool, last: bool, payload: Bytes)
    requires 1 + |payload| < 0x1_0000
    ensures var b := MkBlock(id, first, last, payload);
            && |b| == HEADER_SIZE + |payload|
            && DecodeHeader(b) == Header(1 + |payload|, id, first, last)
            && b[HEADER_SIZE..] == payload
            && OnWire(b, 1 + |payload|)
  {
    var b := MkBlock(id, first, last, payload);
    Be16RoundTrip(1 + |payload|, [IdByte(id, first, last)] + payload);
    assert b == Be16(1 + |payload|) + ([IdByte(id, first, last)] + payload);
    assert b[HEADER_SIZE..] == payload;
  }
}
