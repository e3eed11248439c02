/** The plaintext pouch header [1, [0, id]] of src/header.cddl, in the CBOR of RFC 8949, section 3. */
module PouchHeader {
  import opened Wire
  import opened Reassembly

  const DEVICE_ID_MAX_LEN := 32

  // Size of the buffer pouch_header_create allocates: POUCH_HEADER_MAX_LEN
  const HEADER_MAX_LEN := 2 + 3 + DEVICE_ID_MAX_LEN

  const ARRAY2: byte := 0x82
  const TEXT: byte := 0x60
  const TEXT8: byte := 0x78

  // The shortest head of a text string of up to 255 bytes
  function TextHead(n: nat): Bytes
    requires n < 256
  {
    if n < 24 then [(TEXT as int + n) as byte] else [TEXT8, n as byte]
  }

  function Encode(id: Bytes): Bytes
    requires |id| < 256
  {
    [ARRAY2, 1, ARRAY2, 0] + TextHead(|id|) + id
  }

  // Decode the header at the front of the bytes; what follows is not looked at
  function Parse(s: Bytes): Option<nat> {
    if |s| < 5 || s[0] != ARRAY2 || s[1] != 1 || s[2] != ARRAY2 || s[3] != 0 then None
    else if TEXT <= s[4] < TEXT + 24 then
      var n: int := 5 + (s[4] as int - TEXT as int);
      if n <= |s| then Some(n) else None
    else if s[4] == TEXT8 && 6 <= |s| then
      var n: int := 6 + s[5] as int;
      if n <= |s| then Some(n) else None
    else None
  }

  // The receiver finds the end of the header in any continuation, and nothing in a shorter prefix
  lemma HeaderSelfDelimits(id: Bytes)
    requires |id| < 256
    ensures SelfDelimiting(Parse, Encode(id))
  {
    var h := Encode(id);
    forall rest: Bytes ensures Parse(h + rest) == Some(|h|) {
      var s := h + rest;
      assert |id| < 24 ==> s[4] == TextHead(|id|)[0];
      assert s[0] == h[0] && s[1] == h[1] && s[2] == h[2] && s[3] == h[3] && s[4] == h[4];
      assert |id| >= 24 ==> s[5] == h[5];
    }
    forall k: nat | k < |h| ensures Parse(h[..k]) == None {
    }
  }

  // The device accepts ids of up to 32 bytes, but the header buffer leaves out the inner array head:
  // a 32-byte id makes a header of 38 bytes for a buffer of 37
  lemma HeaderFitsIff(id: Bytes)
    requires |id| <= DEVICE_ID_MAX_LEN
    ensures |Encode(id)| <= HEADER_MAX_LEN <==> |id| < DEVICE_ID_MAX_LEN
  {
  }
}
