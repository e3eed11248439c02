/** The key derivation info string, read back by a decoder of its own (section 4 of RFC 4648). */
module Derivation {
  import opened Wire
  import opened Saead
  import opened Replay
  import opened KeyInfo

  // Table 1 of RFC 4648
  function Value(c: char): nat {
    if 'A' <= c <= 'Z' then c as nat - 'A' as nat
    else if 'a' <= c <= 'z' then 26 + (c as nat - 'a' as nat)
    else if '0' <= c <= '9' then 52 + (c as nat - '0' as nat)
    else if c == '+' then 62
    else if c == '/' then 63
    else 64
  }

  lemma DigitReads(x: Sextet)
    ensures Value(Digit64(x)) == x && Digit64(x) != '='
  {
  }

  // Four characters are twenty-four bits, from which one, two or three bytes are taken
  function Bits(p: nat, q: nat, r: nat, s: nat): nat {
    262144 * p + 4096 * q + 64 * r + s
  }

  function Unbase64(s: string): Bytes
    decreases |s|
  {
    if |s| < 4 then []
    else if s[2] == '=' then Front(Bits(Value(s[0]), Value(s[1]), 0, 0), 1)
    else if s[3] == '=' then Front(Bits(Value(s[0]), Value(s[1]), Value(s[2]), 0), 2)
    else Front(Bits(Value(s[0]), Value(s[1]), Value(s[2]), Value(s[3])), 3) + Unbase64(s[4..])
  }

  // The first n of three bytes
  function Front(bits: nat, n: nat): Bytes {
    [bits / 65536 % 256, bits / 256 % 256, bits % 256][..Min(n, 3)]
  }

  lemma ThreeBytes(a: byte, b: byte, c: byte)
    ensures var g := Group(a, b, c);
            var bits := Bits(g[0], g[1], g[2], g[3]);
            bits / 65536 % 256 == a as int && bits / 256 % 256 == b as int && bits % 256 == c as int
  {
    Weighs(a, b, c);
    var g := Group(a, b, c);
    Unpacks(a, b, c, Bits(g[0], g[1], g[2], g[3]));
  }

  lemma Weighs(a: byte, b: byte, c: byte)
    ensures var g := Group(a, b, c);
            Bits(g[0], g[1], g[2], g[3]) == 65536 * a as int + 256 * b as int + c as int
  {
    var x, y, z: int := a, b, c;
    assert x == 4 * (x / 4) + x % 4 && y == 16 * (y / 16) + y % 16 && z == 64 * (z / 64) + z % 64;
    var g := Group(a, b, c);
    assert g[0] as int == x / 4 && g[1] as int == x % 4 * 16 + y / 16;
    assert g[2] as int == y % 16 * 4 + z / 64 && g[3] as int == z % 64;
  }

  lemma Unpacks(a: byte, b: byte, c: byte, n: nat)
    requires n == 65536 * a as int + 256 * b as int + c as int
    ensures n / 65536 % 256 == a as int && n / 256 % 256 == b as int && n % 256 == c as int
  {
    var x, y, z: int := a, b, c;
    assert n == 256 * (256 * x + y) + z;
    assert n / 256 == 256 * x + y && n % 256 == z;
    assert n / 65536 == x;
  }

  lemma LastDigits(a: byte, b: byte)
    ensures Group(a, 0, 0)[2] == 0 && Group(a, 0, 0)[3] == 0 && Group(a, b, 0)[3] == 0
  {
  }

  lemma ReadsOne(a: byte)
    ensures Unbase64(Base64([a])) == [a]
  {
    var g := Group(a, 0, 0);
    ThreeBytes(a, 0, 0);
    LastDigits(a, 0);
    DigitReads(g[0]);
    DigitReads(g[1]);
    hide Digit64, Value, Group, Bits;
    assert Base64([a]) == [Digit64(g[0]), Digit64(g[1]), '=', '='];
  }

  lemma ReadsTwo(a: byte, b: byte)
    ensures Unbase64(Base64([a, b])) == [a, b]
  {
    var g := Group(a, b, 0);
    ThreeBytes(a, b, 0);
    LastDigits(a, b);
    DigitReads(g[0]);
    DigitReads(g[1]);
    DigitReads(g[2]);
    hide Digit64, Value, Group, Bits;
    assert Base64([a, b]) == [Digit64(g[0]), Digit64(g[1]), Digit64(g[2]), '='];
  }

  lemma ReadsThree(a: byte, b: byte, c: byte, rest: string)
    ensures Unbase64(Chars(Group(a, b, c)) + rest) == [a, b, c] + Unbase64(rest)
  {
    var g := Group(a, b, c);
    ThreeBytes(a, b, c);
    hide Front;
    DigitReads(g[0]);
    DigitReads(g[1]);
    DigitReads(g[2]);
    DigitReads(g[3]);
    hide Digit64, Value, Group, Bits, Unbase64;
    var s := Chars(g) + rest;
    assert s[0] == Digit64(g[0]) && s[1] == Digit64(g[1]) && s[2] == Digit64(g[2]) && s[3] == Digit64(g[3]);
    assert s[4..] == rest;
    ReadsFour(s);
    FrontThree(Bits(g[0], g[1], g[2], g[3]), a, b, c);
  }

  lemma ReadsFour(s: string)
    requires 4 <= |s| && s[2] != '=' && s[3] != '='
    ensures Unbase64(s) == Front(Bits(Value(s[0]), Value(s[1]), Value(s[2]), Value(s[3])), 3) + Unbase64(s[4..])
  {
    hide Value, Bits, Front;
  }

  lemma FrontThree(bits: nat, a: byte, b: byte, c: byte)
    requires bits / 65536 % 256 == a as int && bits / 256 % 256 == b as int && bits % 256 == c as int
    ensures Front(bits, 3) == [a, b, c]
  {
  }

  // The decoder gives the bytes back
  lemma {:induction false} Base64Reads(s: Bytes)
    ensures Unbase64(Base64(s)) == s
    decreases |s|
  {
    hide Unbase64, Group, Chars;
    if |s| == 0 {
      NoneRead();
    } else if |s| == 1 {
      ReadsOne(s[0]);
      assert s == [s[0]];
    } else if |s| == 2 {
      ReadsTwo(s[0], s[1]);
      assert s == [s[0], s[1]];
    } else {
      Base64Reads(s[3..]);
      ReadsThree(s[0], s[1], s[2], Base64(s[3..]));
      assert s == [s[0], s[1], s[2]] + s[3..];
    }
  }

  lemma NoneRead()
    ensures Unbase64("") == []
  {
  }

  function HexValue(c: char): nat {
    if '0' <= c <= '9' then c as nat - '0' as nat
    else if 'a' <= c <= 'f' then 10 + (c as nat - 'a' as nat)
    else 16
  }

  // "E0:", who started the session, ":", the id in 24 characters, ":C", the algorithm, the kind of id,
  // ":", and the block size's logarithm in two hexadecimal digits
  lemma InfoReads(initiator: Role, value: Bytes, algorithm: Algorithm, sequential: bool, log: byte)
    requires |value| == 16
    ensures var s := Info(initiator, value, algorithm, sequential, log);
            && |s| == 36
            && s[..3] == "E0:" && s[3] == (match initiator case Device => 'D' case Server => 'S') && s[4] == ':'
            && Unbase64(s[5..29]) == value && s[29..31] == ":C"
            && s[31] == (match algorithm case ChaCha20Poly1305 => 'C' case AesGcm => 'A')
            && s[32] == (if sequential then 'S' else 'R') && s[33] == ':'
            && 16 * HexValue(s[34]) + HexValue(s[35]) == log as int && HexValue(s[34]) < 16 && HexValue(s[35]) < 16
  {
    Base64Length(value);
    Base64Reads(value);
    HexReads(log);
    hide Base64, Unbase64, Hex2, HexValue;
    var s := Info(initiator, value, algorithm, sequential, log);
    assert s[5..29] == Base64(value);
    assert |Hex2(log)| == 2 && s[34] == Hex2(log)[0] && s[35] == Hex2(log)[1];
  }

  lemma HexReads(log: byte)
    ensures |Hex2(log)| == 2 && 16 * HexValue(Hex2(log)[0]) + HexValue(Hex2(log)[1]) == log as int
    ensures HexValue(Hex2(log)[0]) < 16 && HexValue(Hex2(log)[1]) < 16
  {
  }
}
