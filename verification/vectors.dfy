/** The formats in literal bytes: what stands on the wire, whatever reads or writes it here. */
module Vectors {
  import opened Wire
  import opened Block
  import opened Decoder
  import Entry
  import Packetizer
  import PouchHeader
  import Stream

  // Sixteen-bit fields are big-endian
  lemma BigEndian(hi: byte, lo: byte, rest: Bytes)
    ensures Be16(256 * hi as int + lo as int) == [hi, lo] && FromBe16([hi, lo] + rest) == 256 * hi as int + lo as int
  {
  }

  // The id byte: LAST, FIRST, a bit nobody looks at, and five bits of id
  lemma IdBits(size: nat, last: bool, first: bool, unused: bool, id: nat, payload: Bytes)
    requires size < 0x1_0000 && id < 32
    ensures var b: byte := (if last then 0x80 else 0) + (if first then 0x40 else 0) + (if unused then 0x20 else 0) + id;
            DecodeHeader([size / 256, size % 256, b] + payload) == Header(size, id, first, last)
  {
    var b: byte := (if last then 0x80 else 0) + (if first then 0x40 else 0) + (if unused then 0x20 else 0) + id;
    var block := [size / 256, size % 256, b] + payload;
    assert block[0] == size / 256 && block[1] == size % 256 && block[2] == b;
    assert b % 32 == id;
  }

  // A finished block
  lemma BlockBytes(id: BlockId, first: bool, last: bool, payload: Bytes)
    requires |payload| < 255
    ensures MkBlock(id, first, last, payload)
            == [0, (1 + |payload|) as byte] + [(if last then 0x80 else 0) + (if first then 0x40 else 0) + id] + payload
  {
  }

  // An entry on path "a", of content type 0x0102, with the single byte 9
  lemma EntryBytes()
    ensures Entry.Encode(Entry.Entry([97], 0x0102, [9])) == [0, 1, 1, 2, 1, 97, 9]
    ensures DecodeEntries([0, 1, 1, 2, 1, 97, 9]) == Some([Start(0, [97], 0x0102), Data(0, [9], true)])
  {
    var v: Bytes := [0, 1, 1, 2, 1, 97, 9];
    assert v[2..] == [1, 2, 1, 97, 9] && v[5..6] == [97] && v[6..7] == [9] && v[7..] == [];
    CStringWhole([97]);
    DecodeFront(v);
    assert DecodeEntries([]) == Some([]);
    assert [Start(0, [97], 0x0102), Data(0, [9], true)] + [] == [Start(0, [97], 0x0102), Data(0, [9], true)];
  }

  // A stream on path "ab", of content type 0x0102: its first block, with id 3, and the last one
  lemma StreamBytes()
    ensures Stream.Open(3, 7, [97, 98], 0x0102) == Stream.Stream(3, [0, 0, 0x43, 1, 2, 2, 97, 98], 0, 7)
  {
  }

  lemma StreamReads()
    ensures DecodeBlock([0, 7, 0x43, 1, 2, 2, 97, 98, 9])
            == Some([Start(3, [97, 98], 0x0102), Data(3, [9], false)])
  {
    var v: Bytes := [1, 2, 2, 97, 98, 9];
    var block: Bytes := [0, 7, 0x43, 1, 2, 2, 97, 98, 9];
    assert block[3..] == v && v[3..5] == [97, 98] && v[5..] == [9];
    CStringWhole([97, 98]);
    hide CString;
  }

  lemma LastReads()
    ensures DecodeBlock([0, 2, 0x83, 9]) == Some([Data(3, [9], true)])
  {
    var last: Bytes := [0, 2, 0x83, 9];
    assert last[3..] == [9];
  }

  // A block with id 0 holds entries
  lemma EntryBlockReads(contents: Bytes)
    requires |contents| < 255
    ensures DecodeBlock([0, (1 + |contents|) as byte, 0xC0] + contents) == DecodeEntries(contents)
  {
    hide DecodeEntries, DecodeStream, DecodeHeader;
    var size := 1 + |contents|;
    IdBits(size, true, true, false, 0, contents);
    assert size / 256 == 0 && size % 256 == size;
    var block: Bytes := [0, size as byte, 0xC0] + contents;
    assert block == [size / 256, size % 256, 0xC0] + contents && block[3..] == contents;
  }

  // What a callback sees of a path: everything before the first NUL
  lemma {:induction false} CStringIs(s: Bytes)
    ensures CString(s) <= s && 0 !in CString(s)
    ensures |CString(s)| < |s| ==> s[|CString(s)|] == 0
  {
    if s != [] && s[0] != 0 { CStringIs(s[1..]); }
  }

  // The plaintext header for the id "d1", and for one of 24 bytes: arrays of two, the version, the
  // encryption type and a text string (section 3 of RFC 8949)
  lemma HeaderBytes(long: Bytes, rest: Bytes)
    requires |long| == 24
    ensures PouchHeader.Encode([100, 49]) == [0x82, 0x01, 0x82, 0x00, 0x62, 100, 49]
    ensures PouchHeader.Encode(long) == [0x82, 0x01, 0x82, 0x00, 0x78, 24] + long
    ensures PouchHeader.Parse([0x82, 0x01, 0x82, 0x00, 0x62, 100, 49] + rest) == Some(7)
    ensures PouchHeader.HEADER_MAX_LEN == 37
  {
  }

  // The flags byte of a packet: FIRST is bit 0, LAST is bit 1
  lemma PacketBytes(payload: Bytes)
    ensures Packetizer.Decode([0] + payload) == Some(Packetizer.Packet(payload, false, false))
    ensures Packetizer.Decode([1] + payload) == Some(Packetizer.Packet(payload, true, false))
    ensures Packetizer.Decode([2] + payload) == Some(Packetizer.Packet(payload, false, true))
    ensures Packetizer.Decode([3] + payload) == Some(Packetizer.Packet(payload, true, true))
    ensures Packetizer.Decode([]) == None
  {
    assert ([0] + payload)[1..] == payload && ([1] + payload)[1..] == payload;
    assert ([2] + payload)[1..] == payload && ([3] + payload)[1..] == payload;
  }
}
