/** The AEAD sessions on the heap (src/saead/session.c, src/saead/uplink.c, src/saead/downlink.c). */
module SaeadDevice {
  import opened Wire
  import opened Block
  import opened Buf
  import opened Saead
  import Replay

  const NONCE_LEN := 12

  // The text after the length, and the tag at its end
  lemma SealedShape(cipher: Bytes, plainLen: nat)
    requires |cipher| == plainLen + AUTH_TAG_LEN
    ensures |cipher[plainLen..]| == AUTH_TAG_LEN && [] + Be16(|cipher|) + cipher == Be16(|cipher|) + cipher
  {
    assert [] + Be16(|cipher|) == Be16(|cipher|);
  }

  // struct session. A key of None is PSA_KEY_ID_NULL: every AEAD operation with it fails.
  class Session {
    const aead: Aead
    const ad: array<byte>
    var id: Replay.SessionId
    var algorithm: Replay.Algorithm
    var valid: bool
    var active: bool
    var hasPouch: bool
    var key: Option<Key>
    var pouchId: nat
    var blockIndex: nat

    ghost predicate Valid()
      reads this
    {
      ad.Length == AUTH_TAG_LEN && pouchId < 0x1_0000 && blockIndex < 0x1_0000_0000
    }

    // The chain, under the session key
    ghost function State(): Chain
      requires key.Some?
      reads this, ad
    {
      Chain(key.value, pouchId, blockIndex, ad[..])
    }

    constructor (aead: Aead)
      ensures Valid() && this.aead == aead && fresh(ad)
      ensures !valid && !active && !hasPouch && key == None && pouchId == 0
      ensures id == Replay.ZeroId && algorithm == Replay.ChaCha20Poly1305
    {
      this.aead := aead;
      ad := new byte[AUTH_TAG_LEN](_ => 0);
      id, algorithm := Replay.ZeroId, Replay.ChaCha20Poly1305;
      valid, active, hasPouch, key, pouchId, blockIndex := false, false, false, None, 0, 0;
    }

    // nonce_generate
    method NonceGenerate(sender: Role, nonce: array<byte>)
      requires Valid() && key.Some? && nonce.Length == NONCE_LEN && nonce != ad
      modifies nonce
      ensures nonce[..] == Nonce(State(), sender)
    {
      nonce[0], nonce[1] := pouchId / 256 % 256, pouchId % 256;
      nonce[2], nonce[3] := blockIndex / 256 % 256, blockIndex % 256;
      nonce[4] := RoleByte(sender);
      forall i | 5 <= i < NONCE_LEN { nonce[i] := 0; }
    }

    // session_pouch_start
    method PouchStart(pouch: nat) returns (err: Replay.Errno)
      requires Valid() && pouch < 0x1_0000
      modifies this`pouchId, this`blockIndex
      ensures Valid() && err == if active then Replay.Ok else Replay.EBUSY
      ensures (pouchId, blockIndex) == if active then (pouch, 0) else (old(pouchId), old(blockIndex))
      ensures key.Some? ==> State() == if active then StartPouch(old(State()), pouch) else old(State())
    {
      if !active { return Replay.EBUSY; }
      pouchId := pouch;
      blockIndex := 0;
      return Replay.Ok;
    }

    // What is common to the ends of session_encrypt_block and session_decrypt_block
    method PrepareNext(tag: Bytes)
      requires Valid() && key.Some? && |tag| == AUTH_TAG_LEN
      modifies this`blockIndex, ad
      ensures Valid() && State() == Next(old(State()), tag)
    {
      forall i | 0 <= i < AUTH_TAG_LEN { ad[i] := tag[i]; }
      blockIndex := (blockIndex + 1) % 0x1_0000_0000;
      assert ad[..] == tag;
    }

    // session_encrypt_block, for a block that fits the buffer once it has its tag; memory: the
    // allocation. The device seals as Device, its peer is the mirror.
    method EncryptBlock(sender: Role, block: PouchBuf, cap: nat, memory: bool) returns (encrypted: PouchBuf?)
      requires Valid() && block.Valid() && 2 <= block.bytes && block.bytes + AUTH_TAG_LEN <= cap
      modifies this`blockIndex, ad
      ensures Valid() && (encrypted != null ==> fresh(encrypted) && fresh(encrypted.data) && encrypted.Valid())
      ensures key == None || !memory ==> encrypted == null && blockIndex == old(blockIndex) && ad[..] == old(ad[..])
      ensures key.Some? && memory
              ==> (State(), ContentsOf(encrypted)) == Seal(aead, sender, old(State()), old(block.Contents()))
    {
      hide Nonce, Be16;
      ghost var was := block.Contents();
      var plainLen := block.data[0] as int * 256 + block.data[1] as int;
      if !memory || plainLen != block.bytes - 2 || key == None { return null; }
      var nonce := new byte[NONCE_LEN](_ => 0);
      NonceGenerate(sender, nonce);
      var plain := block.data[2..block.bytes];
      assert plain == was[2..];
      var cipher := aead.enc(key.value, nonce[..], if blockIndex > 0 then ad[..] else [], plain);
      if |cipher| != plainLen + AUTH_TAG_LEN { return null; }
      encrypted := new PouchBuf(cap);
      encrypted.Write(Be16(|cipher|));
      encrypted.Write(cipher);
      SealedShape(cipher, plainLen);
      PrepareNext(cipher[plainLen..]);
    }

    // session_decrypt_block, for a block no longer than the longest sealed one
    method DecryptBlock(sender: Role, block: PouchBuf, cap: nat, memory: bool) returns (decrypted: PouchBuf?)
      requires Valid() && block.Valid() && 2 <= block.bytes <= cap + AUTH_TAG_LEN
      modifies this`blockIndex, this`valid, ad
      ensures Valid() && (decrypted != null ==> fresh(decrypted) && fresh(decrypted.data) && decrypted.Valid())
      ensures valid == (old(valid) || decrypted != null)
      ensures key == None || !memory ==> decrypted == null && blockIndex == old(blockIndex) && ad[..] == old(ad[..])
      ensures key.Some? && memory
              ==> (State(), ContentsOf(decrypted)) == Open(aead, sender, old(State()), old(block.Contents()))
    {
      hide Nonce, Be16;
      ghost var was := block.Contents();
      var cipherLen := block.data[0] as int * 256 + block.data[1] as int;
      if !memory || cipherLen <= AUTH_TAG_LEN || cipherLen != block.bytes - 2 || key == None { return null; }
      var payloadLen := cipherLen - AUTH_TAG_LEN;
      var nonce := new byte[NONCE_LEN](_ => 0);
      NonceGenerate(sender, nonce);
      var cipher := block.data[2..block.bytes];
      assert cipher == was[2..] && block.data[2 + payloadLen..block.bytes] == was[2 + payloadLen..];
      var plain := aead.dec(key.value, nonce[..], if blockIndex > 0 then ad[..] else [], cipher);
      if plain == None || |plain.value| != payloadLen { return null; }
      decrypted := new PouchBuf(cap);
      decrypted.Write(Be16(payloadLen));
      assert [] + Be16(payloadLen) == Be16(payloadLen);
      decrypted.Write(plain.value);
      PrepareNext(block.data[2 + payloadLen..block.bytes]);
      valid := true;
    }

    // session_end
    method End()
      requires Valid()
      modifies this`active, this`key
      ensures Valid() && !active && key == if old(active) then None else old(key)
    {
      if !active { return; }
      active, key := false, None;
    }
  }

  class SaeadUplink {
    const session: Session
    // MAX_BLOCK_PAYLOAD_SIZE_LOG
    const sizeLog: nat

    ghost predicate Valid()
      reads this, session
    {
      session.Valid()
    }

    // The device never numbers its own sessions, so no downlink can borrow one
    ghost predicate Unnumbered()
      reads this, session
    {
      session.valid ==> session.id.value.Random?
    }

    constructor (aead: Aead, sizeLog: nat)
      ensures Valid() && Unnumbered() && fresh(session) && fresh(session.ad)
      ensures !session.valid && !session.active && session.pouchId == 0
      ensures this.sizeLog == sizeLog && session.aead == aead
    {
      session := new Session(aead);
      this.sizeLog := sizeLog;
    }

    // saead_uplink_session_start. random: what the generator returned. derived: the key; that the
    // derivation failed is not noticed here (src/saead/uplink.c:45 looks at the earlier error).
    method SessionStart(algorithm: Replay.Algorithm, random: Option<Bytes>, derived: Option<Key>)
      returns (err: Replay.Errno)
      requires Valid()
      modifies session`id, session`algorithm, session`valid, session`active, session`hasPouch, session`key,
               session`pouchId
      ensures Valid() && Unnumbered() && !session.hasPouch
      ensures err == (if random.Some? then Replay.Ok else Replay.EIO)
      ensures session.valid == session.active == random.Some?
      ensures random.Some? ==> session.id == Replay.SessionId(Device, Replay.Random(random.value))
                               && session.algorithm == algorithm && session.key == derived && session.pouchId == 0
    {
      session.valid, session.active, session.hasPouch := false, false, false;
      if random == None { return Replay.EIO; }
      session.id := Replay.SessionId(Device, Replay.Random(random.value));
      session.key := derived;
      session.algorithm, session.pouchId := algorithm, 0;
      session.valid, session.active := true, true;
      return Replay.Ok;
    }

    // saead_uplink_pouch_start: the next id, cut to sixteen bits
    method PouchStart() returns (err: Replay.Errno)
      requires Valid()
      modifies session`pouchId, session`blockIndex
      ensures Valid() && err == if session.active then Replay.Ok else Replay.EBUSY
      ensures session.key.Some? && session.active
              ==> session.State() == StartPouch(old(session.State()), (old(session.pouchId) + 1) % 0x1_0000)
      ensures !session.active ==> session.pouchId == old(session.pouchId)
    {
      err := session.PouchStart((session.pouchId + 1) % 0x1_0000);
    }

    // saead_uplink_encrypt_block
    method EncryptBlock(block: PouchBuf, cap: nat, memory: bool) returns (encrypted: PouchBuf?)
      requires Valid() && block.Valid() && 2 <= block.bytes && block.bytes + AUTH_TAG_LEN <= cap
      modifies session`blockIndex, session.ad
      ensures Valid() && (encrypted != null ==> fresh(encrypted) && fresh(encrypted.data) && encrypted.Valid())
      ensures !session.active || session.key == None || !memory
              ==> encrypted == null && session.blockIndex == old(session.blockIndex)
                  && session.ad[..] == old(session.ad[..])
      ensures session.active && session.key.Some? && memory
              ==> (session.State(), ContentsOf(encrypted))
                  == Seal(session.aead, Device, old(session.State()), old(block.Contents()))
    {
      if !session.active { return null; }
      encrypted := session.EncryptBlock(Device, block, cap, memory);
    }

    // saead_uplink_session_matches
    predicate Matches(id: Replay.SessionId, maxBlockSizeLog: nat, algorithm: Replay.Algorithm)
      reads this, session
    {
      session.valid && id == session.id && maxBlockSizeLog == sizeLog && session.algorithm == algorithm
    }

    // saead_uplink_session_key_copy; copied: the key store made the copy
    function KeyCopy(copied: bool): Option<Key>
      reads this, session
    {
      if session.valid && copied then session.key else None
    }
  }

  class SaeadDownlink {
    const session: Session
    var serverSeqnum: nat
    var serverPouch: nat

    ghost predicate Valid()
      reads this, session
    {
      session.Valid() && (session.active <==> session.key.Some?) && serverPouch < 0x1_0000
    }

    ghost function Abs(): Replay.State
      reads this, session
    {
      Replay.State(session.valid, session.active, session.hasPouch, session.id, session.algorithm, session.pouchId,
                   serverSeqnum, serverPouch)
    }

    constructor (aead: Aead)
      ensures Valid() && fresh(session) && fresh(session.ad) && session.aead == aead && Abs() == Replay.Init()
    {
      session := new Session(aead);
      serverSeqnum, serverPouch := 0, 0;
    }

    // is_valid_downlink
    method IsValidDownlink(id: Replay.SessionId, algorithm: Replay.Algorithm) returns (ok: bool)
      requires Valid()
      ensures ok == Replay.IsValidDownlink(Abs(), id, algorithm)
    {
      if !session.valid { return true; }
      if session.id == id && session.algorithm != algorithm { return false; }
      if id.initiator == Server {
        if id.value.Sequential? && id.value.seqnum <= serverSeqnum { return false; }
      }
      return true;
    }

    // saead_downlink_session_start. derived: the key from session_key_generate; copied: the key store
    // made the copy of the uplink key.
    method SessionStart(uplink: SaeadUplink, id: Replay.SessionId, algorithm: Replay.Algorithm, maxBlockSizeLog: nat,
                        derived: Option<Key>, copied: bool) returns (err: Replay.Errno)
      requires Valid() && uplink.Valid() && uplink.session != session
      modifies session`id, session`algorithm, session`valid, session`active, session`hasPouch, session`key,
               session`pouchId
      ensures Valid()
      ensures (Abs(), err)
              == Replay.SessionStart(old(Abs()), id, algorithm, uplink.Matches(id, maxBlockSizeLog, algorithm),
                                     if id.initiator == Device then uplink.KeyCopy(copied).Some? else derived.Some?)
      ensures session.key == if err != Replay.Ok then old(session.key)
                             else if id.initiator == Device then uplink.session.key else derived
      ensures id.initiator == Device && uplink.Unnumbered() ==> err == Replay.EBADMSG
      ensures id.initiator == Device && err == Replay.Ok
              ==> uplink.session.valid && uplink.session.id == id && uplink.session.algorithm == algorithm
                  && uplink.sizeLog == maxBlockSizeLog && copied
    {
      var ok := IsValidDownlink(id, algorithm);
      if !ok { return Replay.EBADMSG; }
      var key := derived;
      if id.initiator == Device {
        if !id.value.Sequential? { return Replay.EBADMSG; }
        if !uplink.Matches(id, maxBlockSizeLog, algorithm) { return Replay.EBADMSG; }
        key := uplink.KeyCopy(copied);
      }
      if key == None { return Replay.EIO; }
      session.valid, session.active, session.hasPouch := false, false, false;
      session.pouchId := 0;
      session.algorithm, session.key, session.id := algorithm, key, id;
      session.active := true;
      return Replay.Ok;
    }

    // saead_downlink_pouch_start
    method PouchStart(pouch: nat) returns (err: Replay.Errno)
      requires Valid() && pouch < 0x1_0000
      modifies session`pouchId, session`blockIndex
      ensures Valid() && (Abs(), err) == Replay.PouchStart(old(Abs()), pouch)
      ensures err == Replay.Ok ==> session.State() == StartPouch(old(session.State()), pouch)
      ensures err != Replay.Ok ==> session.blockIndex == old(session.blockIndex)
    {
      if session.hasPouch && pouch <= serverPouch { return Replay.EBADMSG; }
      err := session.PouchStart(pouch);
    }

    // crypto_downlink_start, once the session id is read from the header
    method DownlinkStart(uplink: SaeadUplink, id: Replay.SessionId, algorithm: Replay.Algorithm, maxBlockSizeLog: nat,
                         derived: Option<Key>, copied: bool, pouch: nat) returns (err: Replay.Errno)
      requires Valid() && uplink.Valid() && uplink.session != session && pouch < 0x1_0000
      modifies session`id, session`algorithm, session`valid, session`active, session`hasPouch, session`key,
               session`pouchId, session`blockIndex
      ensures Valid()
      ensures (Abs(), err)
              == Replay.DownlinkStart(old(Abs()), id, algorithm, uplink.Matches(id, maxBlockSizeLog, algorithm),
                                      if id.initiator == Device then uplink.KeyCopy(copied).Some? else derived.Some?,
                                      pouch)
      ensures err == Replay.Ok ==> session.key.Some? && session.State().pouch == pouch && session.State().index == 0
    {
      err := SessionStart(uplink, id, algorithm, maxBlockSizeLog, derived, copied);
      if err == Replay.Ok { err := PouchStart(pouch); }
    }

    // saead_downlink_block_decrypt: only a block that opens moves the replay record
    method BlockDecrypt(block: PouchBuf, cap: nat, memory: bool) returns (decrypted: PouchBuf?)
      requires Valid() && block.Valid() && 2 <= block.bytes <= cap + AUTH_TAG_LEN
      modifies this`serverSeqnum, this`serverPouch, session`blockIndex, session`valid, session`hasPouch, session.ad
      ensures Valid() && (decrypted != null ==> fresh(decrypted) && fresh(decrypted.data) && decrypted.Valid())
      ensures Abs() == Replay.Decrypted(old(Abs()), decrypted != null)
      ensures session.key == None || !memory ==> decrypted == null
      ensures session.key.Some? && memory
              ==> (session.State(), ContentsOf(decrypted))
                  == Open(session.aead, Server, old(session.State()), old(block.Contents()))
    {
      decrypted := session.DecryptBlock(Server, block, cap, memory);
      if decrypted == null { return; }
      session.valid, session.hasPouch := true, true;
      serverPouch := session.pouchId;
      if session.id.initiator == Server && session.id.value.Sequential? {
        serverSeqnum := session.id.value.seqnum;
      }
    }

    // saead_downlink_session_end
    method SessionEnd()
      requires Valid()
      modifies session`active, session`key
      ensures Valid() && Abs() == Replay.End(old(Abs()))
    {
      session.End();
    }
  }
}
