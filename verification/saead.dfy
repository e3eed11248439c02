/** The streaming AEAD chain (src/saead/session.c): each block is bound to its place in its pouch. */
module Saead {
  import opened Wire
  import opened Block
  import opened Cipher

  datatype Role = Device | Server

  type Key = nat

  // An authenticated cipher as in section 2 of RFC 5116: key, nonce, associated data, text
  datatype Aead = Aead(
    enc: (Key, Bytes, Bytes, Bytes) -> Bytes,
    dec: (Key, Bytes, Bytes, Bytes) -> Option<Bytes>)

  ghost predicate Sized(a: Aead) {
    forall k: Key, n: Bytes, ad: Bytes, x: Bytes {:trigger a.enc(k, n, ad, x)} ::
      |a.enc(k, n, ad, x)| == |x| + AUTH_TAG_LEN
  }

  ghost predicate Correct(a: Aead) {
    && Sized(a)
    && forall k: Key, n: Bytes, ad: Bytes, x: Bytes {:trigger a.enc(k, n, ad, x)} ::
         a.dec(k, n, ad, a.enc(k, n, ad, x)) == Some(x)
  }

  // struct session, the part that changes from block to block. The index is a uint32_t.
  datatype Chain = Chain(key: Key, pouch: nat, index: nat, tag: Bytes)

  function RoleByte(r: Role): byte { if r == Device then 0 else 1 }

  // nonce_generate: the pouch id and the index are cut to sixteen bits each
  function Nonce(c: Chain, sender: Role): Bytes {
    Be16(c.pouch) + Be16(c.index) + [RoleByte(sender)] + [0, 0, 0, 0, 0, 0, 0]
  }

  // The first block of a pouch has no associated data, each later one has the tag of the one before
  function Associated(c: Chain): Bytes {
    if c.index > 0 then c.tag else []
  }

  function Next(c: Chain, tag: Bytes): Chain {
    c.(index := (c.index + 1) % 0x1_0000_0000, tag := tag)
  }

  // session_pouch_start on an active session. The tag is left as it was.
  function StartPouch(c: Chain, pouch: nat): Chain {
    c.(pouch := pouch, index := 0)
  }

  // session_encrypt_block on a block of at least two bytes, with its allocation succeeding
  function Seal(a: Aead, sender: Role, c: Chain, block: Bytes): (Chain, Option<Bytes>) {
    if |block| < 2 || FromBe16(block) != |block| - 2 then (c, None)
    else
      var plain := block[2..];
      var cipher := a.enc(c.key, Nonce(c, sender), Associated(c), plain);
      if |cipher| != |plain| + AUTH_TAG_LEN then (c, None)
      else (Next(c, cipher[|plain|..]), Some(Be16(|cipher|) + cipher))
  }

  // session_decrypt_block
  function Open(a: Aead, sender: Role, c: Chain, block: Bytes): (Chain, Option<Bytes>) {
    if |block| < 2 || FromBe16(block) <= AUTH_TAG_LEN || FromBe16(block) != |block| - 2 then (c, None)
    else
      var payloadLen := FromBe16(block) - AUTH_TAG_LEN;
      match a.dec(c.key, Nonce(c, sender), Associated(c), block[2..])
      case None => (c, None)
      case Some(plain) =>
        if |plain| != payloadLen then (c, None)
        else (Next(c, block[2 + payloadLen..]), Some(Be16(payloadLen) + plain))
  }

  // The two ends of one direction; sender is the role that sealed
  function CipherOf(a: Aead, sender: Role): Cipher<Chain> {
    Cipher((c, b) => Seal(a, sender, c, b), (c, b) => Open(a, sender, c, b))
  }

  lemma WireShape(n: nat, s: Bytes)
    requires |s| == n < 0x1_0000
    ensures FromBe16(Be16(n) + s) == n && (Be16(n) + s)[2..] == s
    ensures forall k | 0 <= k <= n :: (Be16(n) + s)[2 + k..] == s[k..]
  {
    Be16RoundTrip(n, s);
  }

  lemma BlockShape(b: Bytes)
    requires 2 <= |b| && FromBe16(b) == |b| - 2
    ensures Be16(|b| - 2) + b[2..] == b
  {
    var hi, lo := b[0] as int, b[1] as int;
    assert FromBe16(b) == hi * 256 + lo;
    assert (hi * 256 + lo) / 256 == hi && (hi * 256 + lo) % 256 == lo;
    assert Be16(|b| - 2) == [b[0], b[1]];
  }

  // The two ends stand at the same place. At the start of a pouch their tags may differ: starting one
  // leaves the tag of an earlier pouch in place, and it is not used there.
  predicate Level(r: Chain, s: Chain) {
    && r.key == s.key && r.pouch == s.pouch && r.index == s.index
    && (r.index > 0 ==> r.tag == s.tag)
  }

  // Two ends with the same key stand level once both have started the pouch
  lemma StartLevels(r: Chain, s: Chain, pouch: nat)
    ensures Level(StartPouch(r, pouch), StartPouch(s, pouch)) <==> r.key == s.key
  {
  }

  // Round trip between level ends: the same block, equal states after it, a sealed block the
  // receiver's length checks accept and its buffers hold
  lemma SealOpens(a: Aead, sender: Role, p: nat, r: Chain, c: Chain, b: Bytes)
    requires Correct(a) && PayloadSize(p) && OnWire(b, 1 + p) && Level(r, c)
    ensures var (c', w) := Seal(a, sender, c, b);
            && w.Some? && OnWire(w.value, 1 + p + AUTH_TAG_LEN) && |w.value| == |b| + AUTH_TAG_LEN
            && Open(a, sender, r, w.value) == (c', Some(b))
            && |c'.tag| == AUTH_TAG_LEN
  {
    var plain := b[2..];
    var cipher := a.enc(c.key, Nonce(c, sender), Associated(c), plain);
    assert |cipher| == |plain| + AUTH_TAG_LEN;
    WireShape(|cipher|, cipher);
    BlockShape(b);
  }

  // so the end-to-end and pipeline theorems hold for the encrypted build
  lemma ChainLawful(a: Aead, sender: Role, p: nat)
    requires Correct(a) && PayloadSize(p)
    ensures Lawful(CipherOf(a, sender), p, 1 + p + AUTH_TAG_LEN)
  {
    var c := CipherOf(a, sender);
    forall s: Chain, b: Bytes | OnWire(b, 1 + p)
      ensures c.seal(s, b).1.Some? && OnWire(c.seal(s, b).1.value, 1 + p + AUTH_TAG_LEN)
      ensures c.open(s, c.seal(s, b).1.value) == (c.seal(s, b).0, Some(b))
    {
      SealOpens(a, sender, p, s, s, b);
    }
  }

  // Level ends open whatever is offered in the same way, and stay level
  lemma OpenLevel(a: Aead, sender: Role, r: Chain, s: Chain, offer: Bytes)
    requires Level(r, s)
    ensures Open(a, sender, r, offer).1 == Open(a, sender, s, offer).1
    ensures Level(Open(a, sender, r, offer).0, Open(a, sender, s, offer).0)
  {
    assert Nonce(r, sender) == Nonce(s, sender) && Associated(r) == Associated(s);
    hide Nonce, Associated;
  }

  lemma {:induction false} OpenAllLevel(a: Aead, sender: Role, r: Chain, s: Chain, wires: seq<Bytes>)
    requires Level(r, s)
    ensures var c := CipherOf(a, sender); OpenAll(c, r, wires).1 == OpenAll(c, s, wires).1
    ensures var c := CipherOf(a, sender); Level(OpenAll(c, r, wires).0, OpenAll(c, s, wires).0)
    decreases |wires|
  {
    if wires != [] {
      OpenLevel(a, sender, r, s, wires[0]);
      hide Level, Open;
      OpenAllLevel(a, sender, Open(a, sender, r, wires[0]).0, Open(a, sender, s, wires[0]).0, wires[1..]);
    }
  }

  lemma LevelMirrors(a: Aead, sender: Role, r: Chain, s: Chain)
    requires Level(r, s)
    ensures Mirrors(CipherOf(a, sender), r, s)
  {
    var c := CipherOf(a, sender);
    forall wires {:trigger OpenAll(c, r, wires)} ensures OpenAll(c, r, wires).1 == OpenAll(c, s, wires).1 {
      OpenAllLevel(a, sender, r, s, wires);
    }
  }

  // Any blocks sealed from level ends come back, and the ends are level after every one of them: with
  // key, pouch and index equal, and the tag as soon as there is one
  lemma ChainRoundTrip(a: Aead, sender: Role, p: nat, r: Chain, s: Chain, blocks: seq<Bytes>, k: nat)
    requires Correct(a) && PayloadSize(p) && AllOnWire(blocks, 1 + p) && Level(r, s) && k <= |blocks|
    ensures var c := CipherOf(a, sender);
            var (s', wires) := SealAll(c, s, blocks[..k]);
            var (r', opened') := OpenAll(c, r, wires);
            opened' == blocks[..k] && Level(r', s') && AllOnWire(wires, 1 + p + AUTH_TAG_LEN)
  {
    var c := CipherOf(a, sender);
    ChainLawful(a, sender, p);
    assert AllOnWire(blocks[..k], 1 + p) by {
      forall i | 0 <= i < k ensures OnWire(blocks[..k][i], 1 + p) { assert OnWire(blocks[i], 1 + p); }
    }
    hide Correct, Level, AllOnWire, CipherOf;
    SealedOpens(c, p, 1 + p + AUTH_TAG_LEN, s, blocks[..k]);
    OpenAllLevel(a, sender, r, s, SealAll(c, s, blocks[..k]).1);
  }

  // ---- nonces

  lemma Be16Injective(x: nat, y: nat)
    ensures Be16(x) == Be16(y) <==> x % 0x1_0000 == y % 0x1_0000
  {
    SixteenBits(x);
    SixteenBits(y);
    assert Be16(x) == Be16(y) <==> Be16(x)[0] == Be16(y)[0] && Be16(x)[1] == Be16(y)[1];
  }

  lemma NonceInjective(c: Chain, r: Role, d: Chain, s: Role)
    ensures Nonce(c, r) == Nonce(d, s)
            <==> c.pouch % 0x1_0000 == d.pouch % 0x1_0000 && c.index % 0x1_0000 == d.index % 0x1_0000 && r == s
  {
    Be16Injective(c.pouch, d.pouch);
    Be16Injective(c.index, d.index);
    var m, n := Nonce(c, r), Nonce(d, s);
    assert m[..2] == Be16(c.pouch) && n[..2] == Be16(d.pouch);
    assert m[2..4] == Be16(c.index) && n[2..4] == Be16(d.index);
    assert m[4] == RoleByte(r) && n[4] == RoleByte(s);
  }

  // The nonces of the blocks that were sealed, in order
  function Nonces(a: Aead, sender: Role, c: Chain, blocks: seq<Bytes>): seq<Bytes>
    decreases |blocks|
  {
    if blocks == [] then []
    else
      var (c', w) := Seal(a, sender, c, blocks[0]);
      (if w.Some? then [Nonce(c, sender)] else []) + Nonces(a, sender, c', blocks[1..])
  }

  // The index i blocks after x
  function IndexAfter(x: nat, i: nat): nat { (x + i) % 0x1_0000_0000 }

  lemma IndexSteps(x: nat, i: nat)
    requires x < 0x1_0000_0000
    ensures IndexAfter(x, 0) == x && IndexAfter(x, 1) < 0x1_0000_0000
    ensures 1 <= i ==> IndexAfter(IndexAfter(x, 1), i - 1) == IndexAfter(x, i)
  {
    if x + 1 == 0x1_0000_0000 && 1 <= i {
      assert (x + i) % 0x1_0000_0000 == (i - 1) % 0x1_0000_0000;
    }
  }

  lemma {:induction false} NonceAt(a: Aead, sender: Role, c: Chain, blocks: seq<Bytes>, i: nat)
    requires i < |Nonces(a, sender, c, blocks)| && c.index < 0x1_0000_0000
    ensures Nonces(a, sender, c, blocks)[i] == Nonce(Chain(c.key, c.pouch, IndexAfter(c.index, i), []), sender)
    decreases |blocks|
  {
    SealNext(a, sender, c, blocks[0]);
    IndexSteps(c.index, i);
    NonceIgnoresTag(c, sender);
    hide Seal, Nonce, IndexAfter;
    var (c', w) := Seal(a, sender, c, blocks[0]);
    if w == None {
      NonceAt(a, sender, c', blocks[1..], i);
    } else if i > 0 {
      NonceAt(a, sender, c', blocks[1..], i - 1);
    }
  }

  lemma NonceIgnoresTag(c: Chain, sender: Role)
    ensures Nonce(c, sender) == Nonce(Chain(c.key, c.pouch, c.index, []), sender)
  {
  }

  // A block that could not be sealed leaves the chain as it was
  lemma SealNext(a: Aead, sender: Role, c: Chain, b: Bytes)
    ensures var (c', w) := Seal(a, sender, c, b);
            if w == None then c' == c
            else c'.key == c.key && c'.pouch == c.pouch && c'.index == IndexAfter(c.index, 1)
  {
  }

  // Within one pouch the nonces are pairwise distinct exactly up to 65536 sealed blocks: the index
  // goes into the nonce cut to sixteen bits
  lemma NoncesDistinctIff(a: Aead, sender: Role, c: Chain, blocks: seq<Bytes>)
    requires c.index == 0
    ensures var ns := Nonces(a, sender, c, blocks);
            (forall i, j | 0 <= i < j < |ns| :: ns[i] != ns[j]) <==> |ns| <= 0x1_0000
  {
    hide Nonces, Nonce;
    var ns := Nonces(a, sender, c, blocks);
    if |ns| > 0x1_0000 {
      NoncesEqualIff(a, sender, c, blocks, 0, 0x1_0000);
      assert ns[0] == ns[0x1_0000];
    } else {
      forall i, j | 0 <= i < j < |ns| ensures ns[i] != ns[j] {
        NoncesEqualIff(a, sender, c, blocks, i, j);
      }
    }
  }

  lemma NoncesEqualIff(a: Aead, sender: Role, c: Chain, blocks: seq<Bytes>, i: nat, j: nat)
    requires c.index == 0 && i < |Nonces(a, sender, c, blocks)| && j < |Nonces(a, sender, c, blocks)|
    ensures Nonces(a, sender, c, blocks)[i] == Nonces(a, sender, c, blocks)[j] <==> i % 0x1_0000 == j % 0x1_0000
  {
    hide Nonces, Nonce;
    NonceAt(a, sender, c, blocks, i);
    NonceAt(a, sender, c, blocks, j);
    NonceInjective(Chain(c.key, c.pouch, i % 0x1_0000_0000, []), sender,
                   Chain(c.key, c.pouch, j % 0x1_0000_0000, []), sender);
    LowBits(i);
    LowBits(j);
  }

  lemma LowBits(x: nat)
    ensures x % 0x1_0000_0000 % 0x1_0000 == x % 0x1_0000
  {
    var q := x / 0x1_0000_0000;
    assert x == 0x1_0000 * (0x1_0000 * q) + x % 0x1_0000_0000;
  }

  // The two directions never share a nonce, even under one key
  lemma DirectionsApart(c: Chain, d: Chain)
    ensures Nonce(c, Device) != Nonce(d, Server)
  {
    NonceInjective(c, Device, d, Server);
  }

  // ---- integrity

  // One sealing, as the ideal functionality remembers it
  datatype Sealed = Sealed(key: Key, nonce: Bytes, ad: Bytes, plain: Bytes, cipher: Bytes)

  // Decryption succeeds on exactly the tuples that somebody sealed
  ghost predicate Ideal(a: Aead, log: iset<Sealed>) {
    forall k: Key, n: Bytes, ad: Bytes, x: Bytes, ct: Bytes
      {:trigger Sealed(k, n, ad, x, ct)} ::
      Sealed(k, n, ad, x, ct) in log <==> a.dec(k, n, ad, ct) == Some(x)
  }

  // The sender's chain after k blocks of the pouch
  function After(a: Aead, sender: Role, c: Chain, blocks: seq<Bytes>, k: nat): Chain
    requires k <= |blocks|
  {
    if k == 0 then c else Seal(a, sender, After(a, sender, c, blocks, k - 1), blocks[k - 1]).0
  }

  function Tuple(a: Aead, sender: Role, c: Chain, block: Bytes): Sealed
    requires 2 <= |block|
  {
    Sealed(c.key, Nonce(c, sender), Associated(c), block[2..],
           a.enc(c.key, Nonce(c, sender), Associated(c), block[2..]))
  }

  // A nonce of this pouch and sender, whatever its index
  predicate OfPouch(n: Bytes, pouch: nat, sender: Role) {
    |n| == 12 && n[..2] == Be16(pouch) && n[4] == RoleByte(sender)
  }

  // Under this key, everything sealed for this pouch and sender is the sender's own blocks; other
  // pouches, the other direction and other keys may have sealed anything
  ghost predicate LogOf(a: Aead, log: iset<Sealed>, sender: Role, c: Chain, blocks: seq<Bytes>) {
    && AllOnWire(blocks, 0xFFFF - AUTH_TAG_LEN)
    && (forall k {:trigger After(a, sender, c, blocks, k)} | 0 <= k < |blocks| ::
          Tuple(a, sender, After(a, sender, c, blocks, k), blocks[k]) in log)
    && (forall t | t in log && t.key == c.key && OfPouch(t.nonce, c.pouch, sender) ::
          exists k {:trigger After(a, sender, c, blocks, k)} ::
            0 <= k < |blocks| && t == Tuple(a, sender, After(a, sender, c, blocks, k), blocks[k]))
  }

  // The receiver's chain r agrees with the sender's chain s
  predicate Agree(r: Chain, s: Chain) {
    Level(r, s) && (r.index > 0 ==> |r.tag| == AUTH_TAG_LEN)
  }

  lemma {:induction false} AfterIndex(a: Aead, sender: Role, c: Chain, blocks: seq<Bytes>, k: nat)
    requires Sized(a) && c.index == 0 && k <= |blocks| <= 0x1_0000 && AllOnWire(blocks, 0xFFFF - AUTH_TAG_LEN)
    ensures var s := After(a, sender, c, blocks, k);
            s.key == c.key && s.pouch == c.pouch && s.index == k && (k > 0 ==> |s.tag| == AUTH_TAG_LEN)
  {
    if k > 0 {
      AfterIndex(a, sender, c, blocks, k - 1);
      assert OnWire(blocks[k - 1], 0xFFFF - AUTH_TAG_LEN);
      SealMoves(a, sender, After(a, sender, c, blocks, k - 1), blocks[k - 1]);
      hide Seal, Sized;
    }
  }

  lemma SealMoves(a: Aead, sender: Role, c: Chain, b: Bytes)
    requires Sized(a) && OnWire(b, 0xFFFF - AUTH_TAG_LEN) && c.index < 0x1_0000
    ensures var (c', w) := Seal(a, sender, c, b);
            && w.Some? && |c'.tag| == AUTH_TAG_LEN
            && c'.key == c.key && c'.pouch == c.pouch && c'.index == c.index + 1
  {
    assert |a.enc(c.key, Nonce(c, sender), Associated(c), b[2..])| == |b| - 2 + AUTH_TAG_LEN;
  }

  // A block the receiver accepts in step with the sender can only be the sender's next one
  lemma AcceptedIsNext(a: Aead, log: iset<Sealed>, sender: Role, c: Chain, blocks: seq<Bytes>,
                       r: Chain, k: nat, offer: Bytes)
    requires Sized(a) && Ideal(a, log) && LogOf(a, log, sender, c, blocks)
    requires c.index == 0 && c.pouch < 0x1_0000 && k <= |blocks| <= 0x1_0000
    requires Agree(r, After(a, sender, c, blocks, k))
    requires Open(a, sender, r, offer).1.Some?
    ensures k < |blocks|
    ensures Open(a, sender, r, offer).1 == Some(blocks[k])
    ensures Agree(Open(a, sender, r, offer).0, After(a, sender, c, blocks, k + 1))
  {
    AfterIndex(a, sender, c, blocks, k);
    var t, j := InLog(a, log, sender, c, blocks, r, offer);
    AfterIndex(a, sender, c, blocks, j);
    var s := After(a, sender, c, blocks, j);
    hide Ideal, LogOf, Nonce, Seal, Open;
    NonceInjective(r, sender, s, sender);
    SamePlace(k, j);
    assert k == 0x1_0000 ==> j == 0 && Associated(s) == [] && |Associated(r)| == AUTH_TAG_LEN;
    Accepted(a, sender, r, s, blocks[j], offer, t.plain);
    assert After(a, sender, c, blocks, k + 1) == Seal(a, sender, s, blocks[k]).0;
  }

  lemma SamePlace(k: nat, j: nat)
    requires k <= 0x1_0000 && j < 0x1_0000 && k % 0x1_0000 == j % 0x1_0000
    ensures j == k || (k == 0x1_0000 && j == 0)
  {
  }

  lemma OpenDecrypts(a: Aead, sender: Role, r: Chain, offer: Bytes) returns (x: Bytes)
    requires Open(a, sender, r, offer).1.Some?
    ensures 2 <= |offer| && a.dec(r.key, Nonce(r, sender), Associated(r), offer[2..]) == Some(x)
  {
    hide Nonce, Associated;
    x := a.dec(r.key, Nonce(r, sender), Associated(r), offer[2..]).value;
  }

  lemma NonceOfPouch(r: Chain, sender: Role)
    ensures OfPouch(Nonce(r, sender), r.pouch, sender)
  {
    assert Nonce(r, sender)[..2] == Be16(r.pouch);
  }

  // What the receiver accepted is one of the sender's tuples
  lemma InLog(a: Aead, log: iset<Sealed>, sender: Role, c: Chain, blocks: seq<Bytes>, r: Chain, offer: Bytes)
    returns (t: Sealed, j: nat)
    requires Ideal(a, log) && LogOf(a, log, sender, c, blocks)
    requires r.key == c.key && r.pouch == c.pouch && Open(a, sender, r, offer).1.Some?
    ensures a.dec(r.key, Nonce(r, sender), Associated(r), offer[2..]) == Some(t.plain)
    ensures t == Sealed(r.key, Nonce(r, sender), Associated(r), t.plain, offer[2..])
    ensures j < |blocks| && OnWire(blocks[j], 0xFFFF - AUTH_TAG_LEN)
    ensures t == Tuple(a, sender, After(a, sender, c, blocks, j), blocks[j])
  {
    hide Nonce, Associated, OfPouch, Tuple, After;
    var x := OpenDecrypts(a, sender, r, offer);
    hide Open;
    NonceOfPouch(r, sender);
    t := Sealed(r.key, Nonce(r, sender), Associated(r), x, offer[2..]);
    assert t in log;
    assert AllOnWire(blocks, 0xFFFF - AUTH_TAG_LEN);
    j :| 0 <= j < |blocks| && t == Tuple(a, sender, After(a, sender, c, blocks, j), blocks[j]);
    assert OnWire(blocks[j], 0xFFFF - AUTH_TAG_LEN);
  }

  lemma Accepted(a: Aead, sender: Role, r: Chain, s: Chain, block: Bytes, offer: Bytes, x: Bytes)
    requires Sized(a) && r.index == s.index < 0x1_0000 && r.key == s.key && r.pouch == s.pouch
    requires OnWire(block, 0xFFFF - AUTH_TAG_LEN) && Open(a, sender, r, offer).1.Some?
    requires a.dec(r.key, Nonce(r, sender), Associated(r), offer[2..]) == Some(x)
    requires x == block[2..]
    requires offer[2..] == a.enc(s.key, Nonce(s, sender), Associated(s), block[2..])
    ensures Open(a, sender, r, offer).1 == Some(block)
    ensures Agree(Open(a, sender, r, offer).0, Seal(a, sender, s, block).0)
  {
    BlockShape(block);
    hide Nonce, Be16;
    var payloadLen := FromBe16(offer) - AUTH_TAG_LEN;
    var cipher := offer[2..];
    assert offer[2 + payloadLen..] == cipher[payloadLen..];
  }

  // s is what stands in all from place k on
  predicate StandsAt(s: seq<Bytes>, all: seq<Bytes>, k: nat) {
    k + |s| <= |all| && forall i | 0 <= i < |s| :: s[i] == all[k + i]
  }

  // The receiver took the sender's blocks from place k on, and is in step with the sender after them
  ghost predicate InStep(a: Aead, sender: Role, c: Chain, blocks: seq<Bytes>, k: nat, result: (Chain, seq<Bytes>)) {
    StandsAt(result.1, blocks, k) && Agree(result.0, After(a, sender, c, blocks, k + |result.1|))
  }

  lemma InStepMore(a: Aead, sender: Role, c: Chain, blocks: seq<Bytes>, k: nat, result: (Chain, seq<Bytes>))
    requires k < |blocks| && InStep(a, sender, c, blocks, k + 1, result)
    ensures InStep(a, sender, c, blocks, k, (result.0, [blocks[k]] + result.1))
  {
    assert k + 1 + |result.1| == k + |[blocks[k]] + result.1|;
  }

  // One offer, and then the rest
  lemma InStepCons(a: Aead, sender: Role, c: Chain, blocks: seq<Bytes>, r: Chain, k: nat, offers: seq<Bytes>)
    requires offers != []
    requires var (r1, b) := Open(a, sender, r, offers[0]);
             var rest := OpenAll(CipherOf(a, sender), r1, offers[1..]);
             if b == None then InStep(a, sender, c, blocks, k, rest)
             else k < |blocks| && b == Some(blocks[k]) && InStep(a, sender, c, blocks, k + 1, rest)
    ensures InStep(a, sender, c, blocks, k, OpenAll(CipherOf(a, sender), r, offers))
  {
    OpenCons(a, sender, r, offers);
    hide Open, CipherOf, OpenAll, InStep;
    var (r1, b) := Open(a, sender, r, offers[0]);
    if b.Some? { InStepMore(a, sender, c, blocks, k, OpenAll(CipherOf(a, sender), r1, offers[1..])); }
  }

  // The cipher is ideal, and the log is the sender's for this pouch
  ghost predicate Genuine(a: Aead, log: iset<Sealed>, sender: Role, c: Chain, blocks: seq<Bytes>) {
    && Sized(a) && Ideal(a, log) && LogOf(a, log, sender, c, blocks)
    && c.index == 0 && c.pouch < 0x1_0000 && |blocks| <= 0x1_0000
  }

  lemma NextOrRefused(a: Aead, log: iset<Sealed>, sender: Role, c: Chain, blocks: seq<Bytes>,
                      r: Chain, k: nat, offer: Bytes)
    requires Genuine(a, log, sender, c, blocks) && k <= |blocks| && Agree(r, After(a, sender, c, blocks, k))
    ensures var (r1, b) := Open(a, sender, r, offer);
            if b == None then r1 == r
            else k < |blocks| && b == Some(blocks[k]) && Agree(r1, After(a, sender, c, blocks, k + 1))
  {
    if Open(a, sender, r, offer).1.Some? { AcceptedIsNext(a, log, sender, c, blocks, r, k, offer); }
  }

  lemma {:induction false} AcceptedInOrder(a: Aead, log: iset<Sealed>, sender: Role, c: Chain, blocks: seq<Bytes>,
                                           r: Chain, k: nat, offers: seq<Bytes>)
    requires Genuine(a, log, sender, c, blocks) && k <= |blocks| && Agree(r, After(a, sender, c, blocks, k))
    ensures InStep(a, sender, c, blocks, k, OpenAll(CipherOf(a, sender), r, offers))
    decreases |offers|
  {
    if offers != [] {
      hide Genuine, Open, After, Agree, CipherOf, OpenAll, InStep;
      NextOrRefused(a, log, sender, c, blocks, r, k, offers[0]);
      var (r1, b) := Open(a, sender, r, offers[0]);
      AcceptedInOrder(a, log, sender, c, blocks, r1, if b == None then k else k + 1, offers[1..]);
      InStepCons(a, sender, c, blocks, r, k, offers);
    }
  }

  // Chain integrity: offered anything at all, in any order and with repeats, the receiver accepts
  // exactly a prefix of what the sender sealed for the pouch
  lemma AcceptedArePrefix(a: Aead, log: iset<Sealed>, sender: Role, c: Chain, blocks: seq<Bytes>,
                          r: Chain, offers: seq<Bytes>)
    requires Sized(a) && Ideal(a, log) && LogOf(a, log, sender, c, blocks)
    requires c.index == 0 && c.pouch < 0x1_0000 && |blocks| <= 0x1_0000
    requires r.key == c.key && r.pouch == c.pouch && r.index == 0
    ensures OpenAll(CipherOf(a, sender), r, offers).1 <= blocks
  {
    AcceptedInOrder(a, log, sender, c, blocks, r, 0, offers);
  }

  // A refused block leaves the chain as it was
  lemma OpenCons(a: Aead, sender: Role, r: Chain, offers: seq<Bytes>)
    requires offers != []
    ensures var (r1, b) := Open(a, sender, r, offers[0]);
            var (r', rest) := OpenAll(CipherOf(a, sender), r1, offers[1..]);
            && OpenAll(CipherOf(a, sender), r, offers) == (r', if b.Some? then [b.value] + rest else rest)
            && (b == None ==> r1 == r)
  {
    var rest := OpenAll(CipherOf(a, sender), Open(a, sender, r, offers[0]).0, offers[1..]).1;
    assert [] + rest == rest;
  }

  // In step with the sender, the sender's next block is accepted
  lemma NextIsAccepted(a: Aead, log: iset<Sealed>, sender: Role, c: Chain, blocks: seq<Bytes>, r: Chain, k: nat)
    requires Sized(a) && Ideal(a, log) && LogOf(a, log, sender, c, blocks)
    requires c.index == 0 && k < |blocks| <= 0x1_0000
    requires Agree(r, After(a, sender, c, blocks, k))
    ensures var w := Seal(a, sender, After(a, sender, c, blocks, k), blocks[k]).1;
            w.Some? && Open(a, sender, r, w.value).1 == Some(blocks[k])
  {
    var s := After(a, sender, c, blocks, k);
    AfterIndex(a, sender, c, blocks, k);
    assert OnWire(blocks[k], 0xFFFF - AUTH_TAG_LEN);
    var t := Tuple(a, sender, s, blocks[k]);
    assert t in log;
    assert t == Sealed(t.key, t.nonce, t.ad, t.plain, t.cipher);
    hide Ideal, LogOf, After, Nonce;
    assert Nonce(r, sender) == Nonce(s, sender) by { NonceInjective(r, sender, s, sender); }
    OpensDecrypted(a, sender, r, s, blocks[k]);
  }

  lemma OpensDecrypted(a: Aead, sender: Role, r: Chain, s: Chain, block: Bytes)
    requires Sized(a) && OnWire(block, 0xFFFF - AUTH_TAG_LEN)
    requires r.key == s.key && Nonce(r, sender) == Nonce(s, sender) && Associated(r) == Associated(s)
    requires a.dec(s.key, Nonce(s, sender), Associated(s), a.enc(s.key, Nonce(s, sender), Associated(s), block[2..]))
             == Some(block[2..])
    ensures var w := Seal(a, sender, s, block).1; w.Some? && Open(a, sender, r, w.value).1 == Some(block)
  {
    hide Nonce, Associated;
    var cipher := a.enc(s.key, Nonce(s, sender), Associated(s), block[2..]);
    WireShape(|cipher|, cipher);
    BlockShape(block);
  }
}
