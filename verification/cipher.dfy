/** The crypto layer as the session code sees it (src/crypto.h): a sealing and an opening step over a state. */
module Cipher {
  import opened Wire
  import opened Block

  datatype Cipher<!S> = Cipher(
    seal: (S, Bytes) -> (S, Option<Bytes>),
    open: (S, Bytes) -> (S, Option<Bytes>))

  // Opening in the state that sealed gives back the block, and both ends move to the same state
  ghost predicate Lawful<S(!new)>(c: Cipher<S>, p: nat, maxField: nat) {
    forall s: S, b: Bytes {:trigger c.seal(s, b)} | OnWire(b, 1 + p) ::
      && c.seal(s, b).1.Some?
      && OnWire(c.seal(s, b).1.value, maxField)
      && c.open(s, c.seal(s, b).1.value) == (c.seal(s, b).0, Some(b))
  }

  // crypto_none.c
  function Plain(): Cipher<()> {
    Cipher((s, b) => (s, Some(b)), (s, b) => (s, Some(b)))
  }

  lemma PlainLawful(p: nat)
    ensures Lawful(Plain(), p, 1 + p)
  {
  }

  // Seal blocks in order; a block that cannot be sealed is dropped
  function SealAll<S>(c: Cipher<S>, s: S, blocks: seq<Bytes>): (S, seq<Bytes>) {
    if blocks == [] then (s, [])
    else
      var (s1, w) := c.seal(s, blocks[0]);
      var (s2, ws) := SealAll(c, s1, blocks[1..]);
      (s2, (if w.Some? then [w.value] else []) + ws)
  }

  function OpenAll<S>(c: Cipher<S>, s: S, wires: seq<Bytes>): (S, seq<Bytes>) {
    if wires == [] then (s, [])
    else
      var (s1, b) := c.open(s, wires[0]);
      var (s2, bs) := OpenAll(c, s1, wires[1..]);
      (s2, (if b.Some? then [b.value] else []) + bs)
  }

  // A receiver in state r opens everything as one in state s does
  ghost predicate Mirrors<S(!new)>(c: Cipher<S>, r: S, s: S) {
    forall wires {:trigger OpenAll(c, r, wires)} :: OpenAll(c, r, wires).1 == OpenAll(c, s, wires).1
  }

  lemma {:induction false} SealAllConcat<S>(c: Cipher<S>, s: S, a: seq<Bytes>, b: seq<Bytes>)
    ensures var (s1, ws1) := SealAll(c, s, a);
            var (s2, ws2) := SealAll(c, s1, b);
            SealAll(c, s, a + b) == (s2, ws1 + ws2)
    decreases |a|
  {
    var (s1, ws1) := SealAll(c, s, a);
    var (s2, ws2) := SealAll(c, s1, b);
    if a == [] {
      assert a + b == b && [] + ws2 == ws2;
    } else {
      HeadTail(a, b);
      var (t, w) := c.seal(s, a[0]);
      SealAllConcat(c, t, a[1..], b);
      Assoc(if w.Some? then [w.value] else [], SealAll(c, t, a[1..]).1, ws2);
    }
  }

  lemma {:induction false} OpenAllConcat<S>(c: Cipher<S>, s: S, a: seq<Bytes>, b: seq<Bytes>)
    ensures var (s1, bs1) := OpenAll(c, s, a);
            var (s2, bs2) := OpenAll(c, s1, b);
            OpenAll(c, s, a + b) == (s2, bs1 + bs2)
    decreases |a|
  {
    var (s1, bs1) := OpenAll(c, s, a);
    var (s2, bs2) := OpenAll(c, s1, b);
    if a == [] {
      assert a + b == b && [] + bs2 == bs2;
    } else {
      HeadTail(a, b);
      var (t, x) := c.open(s, a[0]);
      OpenAllConcat(c, t, a[1..], b);
      Assoc(if x.Some? then [x.value] else [], OpenAll(c, t, a[1..]).1, bs2);
    }
  }

  // A lawful chain: nothing is dropped, every sealed block is fit for the wire, opening gives all back
  lemma {:induction false} SealedOpens<S(!new)>(c: Cipher<S>, p: nat, maxField: nat, s: S, blocks: seq<Bytes>)
    requires Lawful(c, p, maxField)
    requires AllOnWire(blocks, 1 + p)
    ensures var (s', wires) := SealAll(c, s, blocks);
            && |wires| == |blocks|
            && AllOnWire(wires, maxField)
            && OpenAll(c, s, wires) == (s', blocks)
    decreases |blocks|
  {
    if blocks != [] {
      var (s1, w) := c.seal(s, blocks[0]);
      assert w.Some? && OnWire(w.value, maxField);
      SealedOpens(c, p, maxField, s1, blocks[1..]);
      var (s', wires) := SealAll(c, s, blocks);
      assert wires[0] == w.value && wires[1..] == SealAll(c, s1, blocks[1..]).1;
      assert [blocks[0]] + blocks[1..] == blocks;
      assert OpenAll(c, s, wires) == (s', [blocks[0]] + blocks[1..]);
    }
  }
}
