/** The key derivation info string (session_key_info_build in src/saead/session.c). */
module KeyInfo {
  import opened Wire
  import opened Saead
  import opened Replay

  const SESSION_ID_LEN := 16

  type Sextet = x: nat | x < 64

  // The alphabet of section 4 of RFC 4648
  function Digit64(x: Sextet): char {
    if x < 26 then ('A' as int + x) as char
    else if x < 52 then ('a' as int + x - 26) as char
    else if x < 62 then ('0' as int + x - 52) as char
    else if x == 62 then '+' else '/'
  }

  function Digit16(x: nat): char
    requires x < 16
  {
    if x < 10 then ('0' as int + x) as char else ('a' as int + x - 10) as char
  }

  function Group(a: byte, b: byte, c: byte): seq<Sextet> {
    [a as int / 4, a as int % 4 * 16 + b as int / 16, b as int % 16 * 4 + c as int / 64, c as int % 64]
  }

  function Chars(s: seq<Sextet>): (r: string)
    ensures |r| == |s|
  {
    seq(|s|, i requires 0 <= i < |s| => Digit64(s[i]))
  }

  function Base64(s: Bytes): string
    decreases |s|
  {
    if s == [] then ""
    else if |s| == 1 then Chars(Group(s[0], 0, 0)[..2]) + "=="
    else if |s| == 2 then Chars(Group(s[0], s[1], 0)[..3]) + "="
    else Chars(Group(s[0], s[1], s[2])) + Base64(s[3..])
  }

  function Hex2(n: byte): string {
    [Digit16(n / 16), Digit16(n % 16)]
  }

  // value holds the sixteen bytes of the id union; log is the block-size log, a uint8_t
  function Info(initiator: Role, value: Bytes, algorithm: Algorithm, sequential: bool, log: byte): string {
    "E0:" + [if initiator == Device then 'D' else 'S'] + ":" + Base64(value) + ":C"
    + [if algorithm == ChaCha20Poly1305 then 'C' else 'A'] + [if sequential then 'S' else 'R']
    + ":" + Hex2(log)
  }

  lemma GroupInjective(a: byte, b: byte, c: byte, d: byte, e: byte, f: byte)
    requires Group(a, b, c) == Group(d, e, f)
    ensures a == d && b == e && c == f
  {
    var x, y := Group(a, b, c), Group(d, e, f);
    assert x[0] == y[0] && x[1] == y[1] && x[2] == y[2] && x[3] == y[3];
  }

  lemma CharsInjective(s: seq<Sextet>, t: seq<Sextet>)
    requires |s| == |t| && Chars(s) == Chars(t)
    ensures s == t
  {
    forall i | 0 <= i < |s| ensures s[i] == t[i] {
      assert Chars(s)[i] == Chars(t)[i];
    }
  }

  lemma {:induction false} Base64Length(s: Bytes)
    ensures |Base64(s)| == 4 * ((|s| + 2) / 3)
    decreases |s|
  {
    if |s| > 2 { Base64Length(s[3..]); }
  }

  lemma {:induction false} Base64Injective(s: Bytes, t: Bytes)
    requires |s| == |t| && Base64(s) == Base64(t)
    ensures s == t
    decreases |s|
  {
    if |s| == 1 {
      CutEqual(Chars(Group(s[0], 0, 0)[..2]), "==", Chars(Group(t[0], 0, 0)[..2]), "==");
      CharsInjective(Group(s[0], 0, 0)[..2], Group(t[0], 0, 0)[..2]);
      var x, y := Group(s[0], 0, 0), Group(t[0], 0, 0);
      assert x[0] == x[..2][0] == y[..2][0] == y[0] && x[1] == x[..2][1] == y[..2][1] == y[1];
    } else if |s| == 2 {
      CutEqual(Chars(Group(s[0], s[1], 0)[..3]), "=", Chars(Group(t[0], t[1], 0)[..3]), "=");
      CharsInjective(Group(s[0], s[1], 0)[..3], Group(t[0], t[1], 0)[..3]);
      var x, y := Group(s[0], s[1], 0), Group(t[0], t[1], 0);
      assert x[0] == x[..3][0] == y[..3][0] == y[0] && x[1] == x[..3][1] == y[..3][1] == y[1];
      assert x[2] == x[..3][2] == y[..3][2] == y[2];
    } else if |s| > 2 {
      CutEqual(Chars(Group(s[0], s[1], s[2])), Base64(s[3..]), Chars(Group(t[0], t[1], t[2])), Base64(t[3..]));
      CharsInjective(Group(s[0], s[1], s[2]), Group(t[0], t[1], t[2]));
      GroupInjective(s[0], s[1], s[2], t[0], t[1], t[2]);
      Base64Injective(s[3..], t[3..]);
      assert s == s[..3] + s[3..] && t == t[..3] + t[3..] && s[..3] == t[..3];
    }
  }

  lemma CutEqual(a: string, b: string, c: string, d: string)
    requires |a| == |c| && a + b == c + d
    ensures a == c && b == d
  {
    assert (a + b)[..|a|] == a && (c + d)[..|c|] == c && (a + b)[|a|..] == b && (c + d)[|c|..] == d;
  }

  lemma HexInjective(m: byte, n: byte)
    requires Hex2(m) == Hex2(n)
    ensures m == n
  {
    assert Hex2(m)[0] == Hex2(n)[0] && Hex2(m)[1] == Hex2(n)[1];
    assert m / 16 == n / 16 && m % 16 == n % 16;
  }

  // The string fits its buffer of 12 + 24 + 1 characters with the terminator
  lemma InfoLength(initiator: Role, value: Bytes, algorithm: Algorithm, sequential: bool, log: byte)
    requires |value| == SESSION_ID_LEN
    ensures |Info(initiator, value, algorithm, sequential, log)| == 36
  {
    Base64Length(value);
  }

  // Different sessions derive from different strings
  lemma InfoInjective(i: Role, v: Bytes, a: Algorithm, s: bool, l: byte,
                      i': Role, v': Bytes, a': Algorithm, s': bool, l': byte)
    requires |v| == |v'| == SESSION_ID_LEN
    requires Info(i, v, a, s, l) == Info(i', v', a', s', l')
    ensures i == i' && v == v' && a == a' && s == s' && l == l'
  {
    Base64Length(v);
    Base64Length(v');
    var x, y := Base64(v), Base64(v');
    var n, n' := Hex2(l), Hex2(l');
    assert |n| == 2 && |n'| == 2;
    hide Base64, Hex2;
    var p, p' := Info(i, v, a, s, l), Info(i', v', a', s', l');
    assert p[5..29] == x && p'[5..29] == y;
    assert p[34..] == n && p'[34..] == n';
    assert p[3] == p'[3] && p[31] == p'[31] && p[32] == p'[32];
    Base64Injective(v, v');
    HexInjective(l, l');
  }
}
