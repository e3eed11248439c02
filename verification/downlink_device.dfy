/** The downlink on the heap: the static state of src/downlink.c (plaintext build, allocations succeeding). */
module DownlinkDevice {
  import opened Wire
  import opened Block
  import opened Buf
  import Cipher
  import Pipeline
  import Reassembly

  // No buffer is in two places, and no two share their bytes
  ghost predicate Distinct(q: seq<PouchBuf>) {
    forall i, j | 0 <= i < j < |q| :: q[i] != q[j] && q[i].data != q[j].data
  }

  ghost predicate Apart(b: PouchBuf, q: seq<PouchBuf>) {
    forall i | 0 <= i < |q| :: b != q[i] && b.data != q[i].data
  }

  // Moving the head of one queue to the end of the other leaves the line of buffers as it was
  lemma SameLine(consume: seq<PouchBuf>, decrypt: seq<PouchBuf>)
    requires decrypt != []
    ensures consume + [decrypt[0]] + decrypt[1..] == consume + decrypt
  {
  }

  lemma LongerLine(consume: seq<PouchBuf>, decrypt: seq<PouchBuf>, b: PouchBuf)
    requires Distinct(consume + decrypt) && Apart(b, consume + decrypt)
    ensures Distinct(consume + (decrypt + [b]))
    ensures forall c | Apart(c, consume + decrypt) && c != b && c.data != b.data :: Apart(c, consume + (decrypt + [b]))
  {
    assert consume + (decrypt + [b]) == consume + decrypt + [b];
  }

  lemma ShorterLine(consume: seq<PouchBuf>, decrypt: seq<PouchBuf>)
    requires Distinct(consume + decrypt) && consume != []
    ensures Distinct(consume[1..] + decrypt)
    ensures forall c | Apart(c, consume + decrypt) :: Apart(c, consume[1..] + decrypt)
  {
    assert consume[1..] + decrypt == (consume + decrypt)[1..];
  }

  // so that writing to one buffer leaves the queued ones alone
  lemma ApartFrame(b: PouchBuf, consume: seq<PouchBuf>, decrypt: seq<PouchBuf>)
    requires Apart(b, consume + decrypt)
    ensures b !in consume && b !in decrypt && b.data !in DatasOf(consume) && b.data !in DatasOf(decrypt)
  {
    var q := consume + decrypt;
    assert forall i | 0 <= i < |consume| :: consume[i] == q[i];
    assert forall i | 0 <= i < |decrypt| :: decrypt[i] == q[|consume| + i];
  }

  // What follows the block goes to a new buffer, and is trimmed off the old one
  method SplitBlock(full: PouchBuf, size: nat, cap: nat) returns (next: PouchBuf)
    requires full.Valid() && 2 + size <= full.bytes <= cap
    modifies full`bytes
    ensures fresh(next) && fresh(next.data) && next.data.Length == cap && full.Valid() && next.Valid()
    ensures full.Contents() == old(full.Contents())[..2 + size]
    ensures next.Contents() == old(full.Contents())[2 + size..]
  {
    ghost var was := full.Contents();
    next := new PouchBuf(cap);
    if full.bytes - 2 > size {
      next.Write(full.data[2 + size..full.bytes]);
      assert next.Contents() == was[2 + size..];
      full.TrimEnd(full.bytes - 2 - size);
    }
  }

  // What block_downlink_push does to the pipeline for a run of blocks
  ghost function SubmitAll(q: Pipeline.Pipe<()>, blocks: seq<Bytes>): Pipeline.Pipe<()> {
    q.(decryptQueue := q.decryptQueue + blocks, decryptPending := q.decryptPending || blocks != [])
  }

  lemma SubmitMore(q: Pipeline.Pipe<()>, a: seq<Bytes>, b: seq<Bytes>)
    ensures SubmitAll(SubmitAll(q, a), b) == SubmitAll(q, a + b)
  {
    Assoc(q.decryptQueue, a, b);
  }

  lemma SubmitNone(q: Pipeline.Pipe<()>)
    ensures SubmitAll(q, []) == q
  {
    assert q.decryptQueue + [] == q.decryptQueue;
  }

  class PouchDownlink {
    // MAX_CIPHERTEXT_BLOCK_SIZE, and the header decoder with crypto_downlink_start behind it
    const cap: nat
    const parse: Reassembly.HeaderParser
    var cur: PouchBuf?
    var header: bool
    var decryptQueue: seq<PouchBuf>
    var decryptPending: bool
    var consumeQueue: seq<PouchBuf>
    var consumePending: bool
    // what pouch_downlink_block_push was given
    var delivered: seq<Bytes>
    // the blocks handed to block_downlink_push since the start of this downlink
    ghost var out: seq<Bytes>

    ghost predicate Valid()
      reads this, cur, decryptQueue, consumeQueue
    {
      && HEADER_SIZE <= cap
      && (cur != null ==> cur.Valid() && cur.data.Length == cap)
      && AllValid(decryptQueue) && AllValid(consumeQueue)
      && Distinct(consumeQueue + decryptQueue)
      && (cur != null ==> Apart(cur, consumeQueue + decryptQueue))
    }

    // The reassembler as a value, once a downlink has started
    ghost function State(): Reassembly.State
      requires cur != null && cur.Valid()
      reads this, cur, DataOf(cur)
    {
      Reassembly.State(header, cur.Contents(), out)
    }

    ghost function Pipe(): Pipeline.Pipe<()>
      requires AllValid(decryptQueue) && AllValid(consumeQueue)
      reads this, decryptQueue, consumeQueue, DatasOf(decryptQueue), DatasOf(consumeQueue)
    {
      Pipeline.Pipe(Contents(decryptQueue), decryptPending, Contents(consumeQueue), consumePending, (), delivered)
    }

    constructor (cap: nat, parse: Reassembly.HeaderParser)
      requires HEADER_SIZE <= cap
      ensures Valid() && this.cap == cap && this.parse == parse && cur == null
      ensures Pipe() == Pipeline.Init(())
    {
      this.cap, this.parse := cap, parse;
      cur, header := null, false;
      decryptQueue, decryptPending, consumeQueue, consumePending := [], false, [], false;
      delivered, out := [], [];
    }

    // pouch_downlink_start; memory: the allocation
    method StartDownlink(memory: bool)
      requires Valid()
      modifies this`cur, this`header, this`out
      ensures Valid() && !header && out == [] && Pipe() == old(Pipe())
      ensures memory <==> cur != null
      ensures cur != null ==> fresh(cur) && fresh(cur.data) && State() == Reassembly.Init()
    {
      hide Contents, Distinct;
      header := false;
      cur := null;
      if memory { cur := new PouchBuf(cap); }
      out := [];
    }

    // block_downlink_push
    method SubmitBlock(b: PouchBuf)
      requires Valid() && b.Valid() && Apart(b, consumeQueue + decryptQueue)
      requires cur != null ==> cur != b && cur.data != b.data
      modifies this`decryptQueue, this`decryptPending, this`out
      ensures Valid() && Pipe() == Pipeline.Submit(old(Pipe()), b.Contents())
      ensures out == old(out) + [b.Contents()] && decryptQueue == old(decryptQueue) + [b]
    {
      LongerLine(consumeQueue, decryptQueue, b);
      hide Contents, Distinct, Apart;
      ContentsSnoc(decryptQueue, b);
      decryptQueue := decryptQueue + [b];
      decryptPending := true;
      out := out + [b.Contents()];
    }

    // The second half of the loop body of pouch_downlink_push: the buffer goes out with the block in it,
    // and what follows the block is carried over to a new buffer
    method CutBlock() returns (go: bool, ghost sent: seq<Bytes>)
      requires Valid() && cur != null && header && cur.bytes <= cap
      modifies this`cur, this`decryptQueue, this`decryptPending, this`out, cur`bytes
      ensures Valid() && cur != null && header == old(header)
      ensures cur == old(cur) || (fresh(cur) && fresh(cur.data))
      ensures var s := Reassembly.Cut(cap, old(State()));
              if go then s == Some(State()) else s == None && State() == old(State())
      ensures out == old(out) + sent && Pipe() == SubmitAll(old(Pipe()), sent)
    {
      go, sent := true, [];
      SubmitNone(Pipe());
      ApartFrame(cur, consumeQueue, decryptQueue);
      if cur.bytes > 2 {
        var size := cur.data[0] as int * 256 + cur.data[1] as int;
        if size > cap - 2 {
          go := false;
          return;
        }
        if cur.bytes - 2 >= size { sent := EmitBlock(size); }
      }
    }

    // The buffer goes out with the block, a new one takes its place
    method EmitBlock(size: nat) returns (ghost sent: seq<Bytes>)
      requires Valid() && cur != null && 2 + size <= cur.bytes
      modifies this`cur, this`decryptQueue, this`decryptPending, this`out, cur`bytes
      ensures Valid() && cur != null && header == old(header) && fresh(cur) && fresh(cur.data)
      ensures sent == [old(cur.Contents())[..2 + size]] && cur.Contents() == old(cur.Contents())[2 + size..]
      ensures out == old(out) + sent && Pipe() == SubmitAll(old(Pipe()), sent)
    {
      ApartFrame(cur, consumeQueue, decryptQueue);
      hide Contents, Apart, Distinct;
      var full := cur;
      var next := SplitBlock(full, size, cap);
      ReplaceCur(full, next);
      SubmitBlock(full);
      sent := [full.Contents()];
    }

    method ReplaceCur(full: PouchBuf, next: PouchBuf)
      requires Valid() && cur == full && next.Valid() && next.data.Length == cap
      requires next != full && next.data != full.data && Apart(next, consumeQueue + decryptQueue)
      modifies this`cur
      ensures Valid() && cur == next && Apart(full, consumeQueue + decryptQueue)
      ensures Pipe() == old(Pipe())
    {
      cur := next;
    }

    method Append(chunk: Bytes)
      requires Valid() && cur != null && cur.bytes + |chunk| <= cap
      modifies cur, cur.data
      ensures Valid() && Pipe() == old(Pipe()) && cur.Contents() == old(cur.Contents()) + chunk
    {
      ApartFrame(cur, consumeQueue, decryptQueue);
      hide Contents, Apart, Distinct;
      cur.Write(chunk);
    }

    method DropFront(k: nat)
      requires Valid() && cur != null
      modifies cur, cur.data
      ensures Valid() && Pipe() == old(Pipe())
      ensures cur.Contents() == old(cur.Contents())[Min(k, old(cur.bytes))..]
    {
      ApartFrame(cur, consumeQueue, decryptQueue);
      hide Contents, Apart, Distinct, Min;
      cur.TrimStart(k);
      assert cur.Valid() && cur.data.Length == cap;
    }

    method MarkHeader()
      requires Valid()
      modifies this`header
      ensures Valid() && header && Pipe() == old(Pipe())
    {
      hide Contents, Apart, Distinct;
      header := true;
    }

    // The header half of the loop body
    method TakeHeader(chunk: Bytes) returns (go: bool)
      requires Valid() && cur != null && cur.bytes + |chunk| <= cap
      modifies this`header, cur, cur.data
      ensures Valid() && Pipe() == old(Pipe())
      ensures !go ==> !header && State() == old(State()).(buf := old(State()).buf + chunk)
                      && parse(cur.Contents()) == None
      ensures go ==> header
      ensures go ==> var buf := old(State()).buf + chunk;
                     var k := if old(header) then Some(0) else parse(buf);
                     k.Some? && State() == old(State()).(header := true, buf := buf[Min(k.value, |buf|)..])
    {
      hide Contents, Apart, Distinct, Pipe;
      Append(chunk);
      go := true;
      if !header {
        var k := parse(cur.data[..cur.bytes]);
        if k == None { return false; }
        MarkHeader();
        DropFront(k.value);
      }
    }

    // One turn of the loop of pouch_downlink_push
    method Iterate(chunk: Bytes) returns (go: bool, ghost sent: seq<Bytes>)
      requires Valid() && cur != null && cur.bytes + |chunk| <= cap
      modifies this`cur, this`header, this`decryptQueue, this`decryptPending, this`out, cur, cur.data
      ensures Valid() && cur != null
      ensures cur == old(cur) || (fresh(cur) && fresh(cur.data))
      ensures Reassembly.Iterate(cap, parse, old(State()), chunk)
              == if go then Reassembly.Proceed(State()) else Reassembly.GiveUp(State())
      ensures out == old(out) + sent && Pipe() == SubmitAll(old(Pipe()), sent)
    {
      sent := [];
      SubmitNone(Pipe());
      go := TakeHeader(chunk);
      if go { go, sent := CutBlock(); }
    }

    // pouch_downlink_push
    method Push(buf: Bytes) returns (ghost sent: seq<Bytes>)
      requires Valid()
      modifies this`cur, this`header, this`decryptQueue, this`decryptPending, this`out, cur, DataOf(cur)
      ensures Valid() && Pipe() == SubmitAll(old(Pipe()), sent)
      ensures out == old(out) + sent && (cur == null <==> old(cur) == null)
      ensures if cur == null then sent == [] else State() == Reassembly.Push(cap, parse, old(State()), buf)
    {
      hide Contents, Distinct, Apart, SubmitAll, Reassembly.Iterate;
      var rest := buf;
      sent := [];
      SubmitNone(Pipe());
      while rest != []
        invariant Valid() && Pipe() == SubmitAll(old(Pipe()), sent) && out == old(out) + sent
        invariant cur == null <==> old(cur) == null
        invariant cur == null ==> sent == []
        invariant cur == old(cur) || (cur != null && fresh(cur) && fresh(cur.data))
        invariant cur != null ==>
                    Reassembly.Push(cap, parse, State(), rest) == Reassembly.Push(cap, parse, old(State()), buf)
        decreases |rest|
      {
        if cur == null || cur.bytes >= cap { return; }
        var n := Min(|rest|, cap - cur.bytes);
        ghost var before := sent;
        var go, more := Iterate(rest[..n]);
        SubmitMore(old(Pipe()), before, more);
        Assoc(old(out), before, more);
        sent := before + more;
        if !go { return; }
        rest := rest[n..];
      }
    }

    method MoveToConsume()
      requires Valid() && decryptQueue != []
      modifies this`decryptQueue, this`consumeQueue, this`consumePending
      ensures Valid() && decryptQueue == old(decryptQueue)[1..] && consumePending
      ensures consumeQueue == old(consumeQueue) + [old(decryptQueue)[0]]
    {
      hide Contents, Distinct, Apart;
      SameLine(consumeQueue, decryptQueue);
      consumeQueue := consumeQueue + [decryptQueue[0]];
      decryptQueue := decryptQueue[1..];
      consumePending := true;
    }

    method DecryptFirst()
      requires Valid() && decryptQueue != []
      modifies this`decryptQueue, this`consumeQueue, this`consumePending
      ensures Valid() && |old(Contents(decryptQueue))| == |old(decryptQueue)| == |decryptQueue| + 1
      ensures var q, before := old(Pipe()), old(Contents(decryptQueue));
              Pipe() == q.(decryptQueue := before[1..],
                           consumeQueue := q.consumeQueue + [before[0]], consumePending := true)
    {
      hide Contents, Distinct, Apart;
      ContentsTail(decryptQueue);
      ContentsSnoc(consumeQueue, decryptQueue[0]);
      MoveToConsume();
    }

    // decrypt_blocks; the plaintext build opens a block to itself
    method DecryptBlocks()
      requires Valid() && decryptPending
      modifies this`decryptQueue, this`decryptPending, this`consumeQueue, this`consumePending
      ensures Valid() && Pipe() == Pipeline.Step(Cipher.Plain(), old(Pipe()), Pipeline.DoDecrypt)
    {
      hide Contents, Distinct, Apart;
      assert |Contents(decryptQueue)| == |decryptQueue|;
      if decryptQueue == [] {
        ScheduleDecrypt(false);
      } else {
        DecryptFirst();
        ScheduleDecrypt(decryptQueue != []);
      }
    }

    method ScheduleDecrypt(value: bool)
      requires Valid()
      modifies this`decryptPending
      ensures Valid() && Pipe() == old(Pipe()).(decryptPending := value)
    {
      hide Contents, Distinct, Apart;
      decryptPending := value;
    }

    method DeliverFirst()
      requires Valid() && consumeQueue != []
      modifies this`consumeQueue, this`delivered
      ensures Valid() && |old(Contents(consumeQueue))| == |old(consumeQueue)| == |consumeQueue| + 1
      ensures var q, before := old(Pipe()), old(Contents(consumeQueue));
              Pipe() == q.(delivered := q.delivered + [before[0]], consumeQueue := before[1..])
    {
      hide Contents, Distinct, Apart;
      ContentsTail(consumeQueue);
      ShorterLine(consumeQueue, decryptQueue);
      var b := consumeQueue[0];
      delivered := delivered + [b.data[..b.bytes]];
      consumeQueue := consumeQueue[1..];
    }

    // consume_blocks
    method ConsumeBlocks()
      requires Valid() && consumePending
      modifies this`consumeQueue, this`consumePending, this`delivered
      ensures Valid() && Pipe() == Pipeline.Step(Cipher.Plain(), old(Pipe()), Pipeline.DoConsume)
    {
      hide Contents, Distinct, Apart;
      assert |Contents(consumeQueue)| == |consumeQueue|;
      consumePending := false;
      if consumeQueue != [] {
        DeliverFirst();
        assert |Contents(consumeQueue)| == |consumeQueue|;
        consumePending := consumeQueue != [];
      }
    }
  }
}
