/** Bytes, big-endian fields and flattening: the vocabulary shared by every layer of the protocol. */
module Wire {
  type byte = x: int | 0 <= x < 256

  type Bytes = seq<byte>

  datatype Option<+T> = None | Some(value: T)

  function Min(a: nat, b: nat): nat {
    if a <= b then a else b
  }

  // sys_put_be16: the value is cut to sixteen bits
  function Be16(n: nat): (s: Bytes)
    ensures |s| == 2
  {
    [n / 256 % 256, n % 256]
  }

  // sys_get_be16
  function FromBe16(s: Bytes): nat
    requires 2 <= |s|
  {
    s[0] as int * 256 + s[1] as int
  }

  lemma Be16RoundTrip(n: nat, rest: Bytes)
    ensures FromBe16(Be16(n) + rest) == n % 0x1_0000
  {
    SixteenBits(n);
    assert (Be16(n) + rest)[..2] == Be16(n);
  }

  lemma SixteenBits(n: nat)
    ensures n / 256 % 256 * 256 + n % 256 == n % 0x1_0000
  {
    var q := n / 256;
    var high := q / 256;
    assert n == 0x1_0000 * high + (q % 256 * 256 + n % 256);
  }

  // Small facts about sequences, kept apart so that each is proved in an empty context

  lemma Assoc<T>(x: seq<T>, y: seq<T>, z: seq<T>)
    ensures x + (y + z) == (x + y) + z
  {
  }

  lemma HeadTail<T>(a: seq<T>, b: seq<T>)
    requires a != []
    ensures (a + b)[0] == a[0] && (a + b)[1..] == a[1..] + b
  {
  }

  lemma CutFront<T>(t: seq<T>, d: seq<T>, n: nat)
    requires n <= |t|
    ensures (t + d)[..n] == t[..n] && (t + d)[n..] == t[n..] + d
  {
  }

  lemma TakeMore<T>(t: seq<T>, data: seq<T>, n: nat, m: nat)
    requires n + m <= |data|
    ensures t + data[..n] + data[n..][..m] == t + data[..n + m]
  {
  }

  function Flatten<T>(ss: seq<seq<T>>): seq<T> {
    if ss == [] then [] else ss[0] + Flatten(ss[1..])
  }

  lemma {:induction false} FlattenConcat<T>(a: seq<seq<T>>, b: seq<seq<T>>)
    ensures Flatten(a + b) == Flatten(a) + Flatten(b)
  {
    if a == [] {
      assert a + b == b;
    } else {
      HeadTail(a, b);
      FlattenConcat(a[1..], b);
      Assoc(a[0], Flatten(a[1..]), Flatten(b));
    }
  }

  lemma FlattenSnoc<T>(a: seq<seq<T>>, x: seq<T>)
    ensures Flatten(a + [x]) == Flatten(a) + x
  {
    FlattenConcat(a, [x]);
    assert Flatten([x]) == x;
  }
}
