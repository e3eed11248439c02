/** What a pouch looks like on the wire (src/saead/session.c), written out: lengths, nonces and associated data. */
module Sealed {
  import opened Wire
  import opened Block
  import opened Cipher
  import opened Saead

  // Two bytes, big-endian
  function Two(n: nat): Bytes {
    [n / 256 % 256, n % 256]
  }

  // Pouch id, block number, who sent it, and zeros up to twelve bytes
  function NonceOf(pouch: nat, k: nat, sender: Role): Bytes {
    Two(pouch) + Two(k) + [match sender case Device => 0 case Server => 1] + [0, 0, 0, 0, 0, 0, 0]
  }

  // The tag of a sealed block is its last sixteen bytes
  function TagOf(wire: Bytes): Bytes
    requires 16 <= |wire|
  {
    wire[|wire| - 16..]
  }

  // The first block of a pouch is sealed without associated data, each later one with the tag of the
  // block before it
  function AdOf(before: seq<Bytes>): Bytes
    requires before != [] ==> 16 <= |before[|before| - 1]|
  {
    if before == [] then [] else TagOf(before[|before| - 1])
  }

  // The chain of a pouch after these sealed blocks
  ghost predicate Follows(c: Chain, key: Key, pouch: nat, wires: seq<Bytes>) {
    && c.key == key && c.pouch == pouch && c.index == |wires| < 0x1_0000_0000
    && (wires != [] ==> 16 <= |wires[|wires| - 1]| && c.tag == TagOf(wires[|wires| - 1]))
  }

  lemma FollowsNonce(c: Chain, key: Key, pouch: nat, wires: seq<Bytes>, sender: Role)
    requires Follows(c, key, pouch, wires)
    ensures Nonce(c, sender) == NonceOf(pouch, |wires|, sender) && Associated(c) == AdOf(wires)
  {
  }

  // ---- sealing

  // The wire block number k of a pouch, with its associated data
  function WireOf(a: Aead, sender: Role, key: Key, pouch: nat, k: nat, ad: Bytes, block: Bytes): Bytes
    requires 2 <= |block|
  {
    Two(|block| + 14) + a.enc(key, NonceOf(pouch, k, sender), ad, block[2..])
  }

  // One block
  lemma SealIs(a: Aead, sender: Role, c: Chain, key: Key, pouch: nat, wires: seq<Bytes>, b: Bytes)
    requires Sized(a) && OnWire(b, 0xFFFF - 16) && Follows(c, key, pouch, wires)
    ensures var wire := WireOf(a, sender, key, pouch, |wires|, AdOf(wires), b);
            && |wire| == |b| + 16 && Seal(a, sender, c, b).1 == Some(wire)
            && (|wires| + 1 < 0x1_0000_0000 ==> Follows(Seal(a, sender, c, b).0, key, pouch, wires + [wire]))
  {
    FollowsNonce(c, key, pouch, wires, sender);
    hide Nonce, Associated, NonceOf;
    var x := a.enc(key, NonceOf(pouch, |wires|, sender), AdOf(wires), b[2..]);
    assert |x| == |b| - 2 + AUTH_TAG_LEN;
    var wire := Two(|b| + 14) + x;
    assert wire[|wire| - 16..] == x[|x| - 16..];
  }

  // Every block of the pouch, in literal terms
  ghost predicate SpelledAt(a: Aead, sender: Role, key: Key, pouch: nat, blocks: seq<Bytes>, wires: seq<Bytes>, k: nat)
    requires k < |wires| == |blocks|
  {
    && 2 <= |blocks[k]| && 16 <= |wires[k]| && (k > 0 ==> 16 <= |wires[k - 1]|)
    && wires[k] == WireOf(a, sender, key, pouch, k, if k == 0 then [] else TagOf(wires[k - 1]), blocks[k])
  }

  ghost predicate Spelled(a: Aead, sender: Role, key: Key, pouch: nat, blocks: seq<Bytes>, wires: seq<Bytes>) {
    |wires| == |blocks| && forall k | 0 <= k < |wires| :: SpelledAt(a, sender, key, pouch, blocks, wires, k)
  }

  lemma SpelledMore(a: Aead, sender: Role, key: Key, pouch: nat, blocks: seq<Bytes>, wires: seq<Bytes>, b: Bytes)
    requires Spelled(a, sender, key, pouch, blocks, wires) && 2 <= |b|
    requires (wires != [] ==> 16 <= |wires[|wires| - 1]|)
    requires 16 <= |WireOf(a, sender, key, pouch, |wires|, AdOf(wires), b)|
    ensures Spelled(a, sender, key, pouch, blocks + [b],
                    wires + [WireOf(a, sender, key, pouch, |wires|, AdOf(wires), b)])
  {
    hide WireOf;
    var bs, w := blocks + [b], wires + [WireOf(a, sender, key, pouch, |wires|, AdOf(wires), b)];
    forall k: nat | k < |w| ensures SpelledAt(a, sender, key, pouch, bs, w, k) {
      if k > 0 { assert w[k - 1] == wires[k - 1]; }
      if k < |wires| {
        assert SpelledAt(a, sender, key, pouch, blocks, wires, k);
        assert w[k] == wires[k] && bs[k] == blocks[k];
      }
    }
  }

  // From the start of a pouch, whatever the chain did before, its sealed blocks are exactly these, and
  // the chain stands after the last of them
  lemma {:induction false} PouchSpelled(a: Aead, sender: Role, c: Chain, pouch: nat, blocks: seq<Bytes>)
    requires Sized(a) && AllOnWire(blocks, 0xFFFF - 16) && |blocks| < 0x1_0000_0000
    ensures var (c', wires) := SealAll(CipherOf(a, sender), StartPouch(c, pouch), blocks);
            Spelled(a, sender, c.key, pouch, blocks, wires) && Follows(c', c.key, pouch, wires)
    decreases |blocks|
  {
    hide Seal, AllOnWire, NonceOf, Sized, CipherOf, WireOf;
    if blocks != [] {
      var n := |blocks| - 1;
      var before, b := blocks[..n], blocks[n];
      assert blocks == before + [b];
      FrontOnWire(blocks, 0xFFFF - 16);
      PouchSpelled(a, sender, c, pouch, before);
      var (c1, wires) := SealAll(CipherOf(a, sender), StartPouch(c, pouch), before);
      SealIs(a, sender, c1, c.key, pouch, wires, b);
      SpelledMore(a, sender, c.key, pouch, before, wires, b);
      hide Spelled, Follows;
      SealAllSnoc(a, sender, StartPouch(c, pouch), before, b);
    }
  }

  lemma FrontOnWire(blocks: seq<Bytes>, maxField: nat)
    requires AllOnWire(blocks, maxField) && blocks != []
    ensures OnWire(blocks[|blocks| - 1], maxField) && AllOnWire(blocks[..|blocks| - 1], maxField)
  {
    var before := blocks[..|blocks| - 1];
    forall i | 0 <= i < |before| ensures OnWire(before[i], maxField) { assert OnWire(blocks[i], maxField); }
  }

  lemma SealAllSnoc(a: Aead, sender: Role, c: Chain, blocks: seq<Bytes>, b: Bytes)
    ensures var s := SealAll(CipherOf(a, sender), c, blocks);
            var (c', w) := Seal(a, sender, s.0, b);
            SealAll(CipherOf(a, sender), c, blocks + [b]) == (c', s.1 + (if w.Some? then [w.value] else []))
  {
    hide Seal;
    var cipher := CipherOf(a, sender);
    SealAllConcat(cipher, c, blocks, [b]);
    var s := SealAll(cipher, c, blocks);
    var (c', w) := Seal(a, sender, s.0, b);
    assert cipher.seal(s.0, b) == (c', w) && [b][1..] == [];
    assert SealAll(cipher, c', []) == (c', []);
    assert (if w.Some? then [w.value] else []) + [] == if w.Some? then [w.value] else [];
  }

  // ---- opening

  // What an offer must be like to be block number k of the pouch: an honest length, more than a tag, and
  // a text that decrypts at that place to one of the right length
  ghost predicate Opens(a: Aead, sender: Role, key: Key, pouch: nat, k: nat, ad: Bytes, offer: Bytes, plain: Bytes) {
    && 2 + 16 < |offer| && offer[0] as int * 256 + offer[1] as int == |offer| - 2
    && a.dec(key, NonceOf(pouch, k, sender), ad, offer[2..]) == Some(plain) && |plain| == |offer| - 2 - 16
  }

  lemma OpenIs(a: Aead, sender: Role, c: Chain, key: Key, pouch: nat, taken: seq<Bytes>, offer: Bytes)
    requires Follows(c, key, pouch, taken)
    ensures var (c', b) := Open(a, sender, c, offer);
            && (b.Some? <==> exists plain :: Opens(a, sender, key, pouch, |taken|, AdOf(taken), offer, plain))
            && (b.Some? ==>
                  && 18 <= |offer| && Opens(a, sender, key, pouch, |taken|, AdOf(taken), offer, b.value[2..])
                  && b.value == Two(|offer| - 18) + b.value[2..]
                  && (|taken| + 1 < 0x1_0000_0000 ==> Follows(c', key, pouch, taken + [offer])))
            && (b == None ==> c' == c)
  {
    FollowsNonce(c, key, pouch, taken, sender);
    hide Nonce, Associated, NonceOf, AdOf;
    if Open(a, sender, c, offer).1.Some? {
      var plain := a.dec(key, NonceOf(pouch, |taken|, sender), AdOf(taken), offer[2..]).value;
      var b := Open(a, sender, c, offer).1.value;
      assert b == Two(|offer| - 18) + plain && b[2..] == plain;
      assert Opens(a, sender, key, pouch, |taken|, AdOf(taken), offer, plain);
      assert (taken + [offer])[|taken|] == offer;
    }
  }

  // The offers the receiver accepts
  function Taken(a: Aead, sender: Role, c: Chain, offers: seq<Bytes>): seq<Bytes>
    decreases |offers|
  {
    if offers == [] then []
    else
      var (c', b) := Open(a, sender, c, offers[0]);
      (if b.Some? then [offers[0]] else []) + Taken(a, sender, c', offers[1..])
  }

  // Whatever is offered in a pouch, the chain stands after the offers that were accepted
  lemma {:induction false} OffersFollow(a: Aead, sender: Role, c: Chain, key: Key, pouch: nat, taken: seq<Bytes>,
                                        offers: seq<Bytes>)
    requires Follows(c, key, pouch, taken) && |taken| + |offers| < 0x1_0000_0000
    ensures var more := Taken(a, sender, c, offers);
            && |more| <= |offers| && |OpenAll(CipherOf(a, sender), c, offers).1| == |more|
            && Follows(OpenAll(CipherOf(a, sender), c, offers).0, key, pouch, taken + more)
    decreases |offers|
  {
    hide Open, Opens, NonceOf, Follows, AdOf, CipherOf;
    if offers == [] {
      assert taken + [] == taken;
    } else {
      var (c', b) := Open(a, sender, c, offers[0]);
      var one := if b.Some? then [offers[0]] else [];
      OneOffer(a, sender, c, key, pouch, taken, offers[0]);
      OpenCons(a, sender, c, offers);
      OffersFollow(a, sender, c', key, pouch, taken + one, offers[1..]);
      Assoc(taken, one, Taken(a, sender, c', offers[1..]));
    }
  }

  lemma OneOffer(a: Aead, sender: Role, c: Chain, key: Key, pouch: nat, taken: seq<Bytes>, offer: Bytes)
    requires Follows(c, key, pouch, taken) && |taken| + 1 < 0x1_0000_0000
    ensures var (c', b) := Open(a, sender, c, offer);
            Follows(c', key, pouch, taken + (if b.Some? then [offer] else []))
  {
    OpenIs(a, sender, c, key, pouch, taken, offer);
    assert taken + [] == taken;
  }

  // so after any offers since the start of the pouch, the next one is accepted if and only if it is a
  // block sealed for the place after the accepted ones, with the tag of the last of them
  lemma NextOpensIff(a: Aead, sender: Role, c: Chain, pouch: nat, offers: seq<Bytes>, offer: Bytes)
    requires |offers| < 0xFFFF_FFFF
    ensures var taken := Taken(a, sender, StartPouch(c, pouch), offers);
            var c' := OpenAll(CipherOf(a, sender), StartPouch(c, pouch), offers).0;
            var b := Open(a, sender, c', offer).1;
            && (taken != [] ==> 16 <= |taken[|taken| - 1]|)
            && (b.Some? <==> exists plain :: Opens(a, sender, c.key, pouch, |taken|, AdOf(taken), offer, plain))
            && (b.Some? ==>
                  2 <= |b.value| && Opens(a, sender, c.key, pouch, |taken|, AdOf(taken), offer, b.value[2..])
                  && b.value[..2] == Two(|offer| - 18))
  {
    assert Follows(StartPouch(c, pouch), c.key, pouch, []);
    OffersFollow(a, sender, StartPouch(c, pouch), c.key, pouch, [], offers);
    var taken := Taken(a, sender, StartPouch(c, pouch), offers);
    assert [] + taken == taken;
    hide Open, Opens, Taken, OpenAll, CipherOf, NonceOf;
    OpenIs(a, sender, OpenAll(CipherOf(a, sender), StartPouch(c, pouch), offers).0, c.key, pouch, taken, offer);
  }
}
