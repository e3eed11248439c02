/** Exactly when the reassembler of src/downlink.c hands out every block it holds the bytes of. */
module Completeness {
  import opened Wire
  import opened Block
  import opened Reassembly
  import Pacing

  // How many blocks are complete in the first k bytes of blocks
  function Complete(blocks: seq<Bytes>, k: nat): (n: nat)
    ensures n <= |blocks|
  {
    if blocks == [] || k < |blocks[0]| then 0 else 1 + Complete(blocks[1..], k - |blocks[0]|)
  }

  // and in the first k bytes of the stream, which begins with a header
  function Arrived(h: Bytes, blocks: seq<Bytes>, k: nat): nat {
    if k < |h| then 0 else Complete(blocks, k - |h|)
  }

  // The turns of the loop, one for each piece that is written to the buffer
  function RunTurns(cap: nat, parse: HeaderParser, s: State, writes: seq<Bytes>): State
    requires 2 <= cap
    decreases |writes|
  {
    if writes == [] then s else RunTurns(cap, parse, Iterate(cap, parse, s, writes[0]).state, writes[1..])
  }

  // Every piece fits the free space where it is written
  ghost predicate FitAll(cap: nat, parse: HeaderParser, s: State, writes: seq<Bytes>)
    requires 2 <= cap
    decreases |writes|
  {
    writes == []
    || (|s.buf| + |writes[0]| <= cap && FitAll(cap, parse, Iterate(cap, parse, s, writes[0]).state, writes[1..]))
  }

  // The pieces in which the loop writes a fragment
  function Writes(cap: nat, parse: HeaderParser, s: State, frag: Bytes): seq<Bytes>
    requires 2 <= cap
    decreases |frag|
  {
    if frag == [] || |s.buf| >= cap then []
    else
      var n := Min(|frag|, cap - |s.buf|);
      var t := Iterate(cap, parse, s, frag[..n]);
      [frag[..n]] + (if t.GiveUp? then [] else Writes(cap, parse, t.state, frag[n..]))
  }

  function AllWrites(cap: nat, parse: HeaderParser, s: State, frags: seq<Bytes>): seq<Bytes>
    requires 2 <= cap
    decreases |frags|
  {
    if frags == [] then []
    else Writes(cap, parse, s, frags[0]) + AllWrites(cap, parse, Push(cap, parse, s, frags[0]), frags[1..])
  }

  // The most blocks that can be out at the end: those complete after i more pieces, and one for each
  // piece that is still to come
  function Due(h: Bytes, blocks: seq<Bytes>, k: nat, writes: seq<Bytes>, i: nat): nat
    requires i <= |writes|
  {
    Arrived(h, blocks, k + |Flatten(writes[..i])|) + |writes| - i
  }

  // After every piece, at most as many of the first m blocks are incomplete as there are pieces to come
  ghost predicate Paced(h: Bytes, blocks: seq<Bytes>, k: nat, writes: seq<Bytes>, m: nat) {
    forall i | 1 <= i <= |writes| :: m <= Due(h, blocks, k, writes, i)
  }

  // ---- counting

  lemma {:induction false} CompleteAfter(blocks: seq<Bytes>, e: nat, j: nat)
    requires e <= |blocks|
    ensures Complete(blocks, |Flatten(blocks[..e])| + j) == e + Complete(blocks[e..], j)
    decreases e
  {
    if e == 0 {
      assert blocks[..0] == [] && blocks[0..] == blocks;
    } else {
      assert blocks[..e][1..] == blocks[1..][..e - 1] && blocks[1..][e - 1..] == blocks[e..];
      assert Flatten(blocks[..e]) == blocks[0] + Flatten(blocks[1..][..e - 1]);
      CompleteAfter(blocks[1..], e - 1, j);
    }
  }

  // No more than e blocks are complete exactly while block number e still lacks a byte
  lemma {:induction false} CompleteAtMost(blocks: seq<Bytes>, k: nat, e: nat)
    ensures Complete(blocks, k) <= e <==> (e < |blocks| ==> k < |Flatten(blocks[..e + 1])|)
    decreases e
  {
    if e < |blocks| {
      assert blocks[..e + 1][1..] == blocks[1..][..e];
      assert Flatten(blocks[..e + 1]) == blocks[0] + Flatten(blocks[1..][..e]);
      if e == 0 {
        assert Flatten(blocks[1..][..0]) == [];
      } else if |blocks[0]| <= k {
        CompleteAtMost(blocks[1..], k - |blocks[0]|, e - 1);
      }
    }
  }

  lemma ArrivedAtMost(h: Bytes, blocks: seq<Bytes>, k: nat, e: nat)
    ensures Arrived(h, blocks, k) <= e <==> (e < |blocks| ==> k < |h| + |Flatten(blocks[..e + 1])|)
  {
    if |h| <= k { CompleteAtMost(blocks, k - |h|, e); }
  }

  // The blocks that arrived: those that are out, and those complete in the buffer
  lemma ArrivedSplit(s: State, h: Bytes, blocks: seq<Bytes>, p: Bytes)
    requires s.out <= blocks && h + Flatten(s.out) + s.buf == p
    ensures Arrived(h, blocks, |p|) == |s.out| + Complete(blocks[|s.out|..], |s.buf|)
  {
    CompleteAfter(blocks, |s.out|, |s.buf|);
    assert blocks[..|s.out|] == s.out;
  }

  lemma CutEmits(cap: nat, s: State, h: Bytes, blocks: seq<Bytes>, p: Bytes)
    requires HEADER_SIZE <= cap && AllOnWire(blocks, cap - 2)
    requires s.header && s.out <= blocks && |s.buf| <= cap
    requires p <= h + Flatten(blocks) && h + Flatten(s.out) + s.buf == p
    ensures Cut(cap, s).Some? && |Cut(cap, s).value.out| == Min(|s.out| + 1, Arrived(h, blocks, |p|))
  {
    CutTracks(cap, s, h, blocks, p);
    ArrivedSplit(s, h, blocks, p);
    hide Cut, Flatten, AllOnWire;
    assert s.out != blocks ==> blocks[|s.out|..][0] == blocks[|s.out|];
  }

  // One turn hands out one block, if one more has arrived than is out
  lemma TurnEmits(cap: nat, parse: HeaderParser, s: State, h: Bytes, blocks: seq<Bytes>, p: Bytes, chunk: Bytes)
    requires Sound(cap, parse, h, blocks) && Tracks(cap, s, h, blocks, p)
    requires p + chunk <= h + Flatten(blocks) && |s.buf| + |chunk| <= cap
    ensures |Iterate(cap, parse, s, chunk).state.out| == Min(|s.out| + 1, Arrived(h, blocks, |p + chunk|))
  {
    var s1 := s.(buf := s.buf + chunk);
    if s.header {
      Assoc(h + Flatten(s.out), s.buf, chunk);
      assert s1.buf[0..] == s1.buf;
      CutEmits(cap, s1, h, blocks, p + chunk);
    } else {
      PrefixOf(s1.buf, h, Flatten(blocks));
      if |s1.buf| < |h| {
        assert h[..|s1.buf|] == s1.buf;
      } else {
        var rest := s1.buf[|h|..];
        assert s1.buf == h + rest;
        assert parse(h + rest) == Some(|h|);
        assert h + Flatten([]) + rest == s1.buf by { assert h + [] == h; }
        CutEmits(cap, s1.(header := true, buf := rest), h, blocks, p + chunk);
      }
    }
  }

  lemma SettledMeans(cap: nat, s: State, h: Bytes, blocks: seq<Bytes>, p: Bytes)
    requires Tracks(cap, s, h, blocks, p)
    ensures Settled(s, blocks) <==> Arrived(h, blocks, |p|) <= |s.out|
  {
    if s.header { ArrivedSplit(s, h, blocks, p); }
  }

  // No more is out than arrived
  lemma OutArrived(cap: nat, s: State, h: Bytes, blocks: seq<Bytes>, p: Bytes)
    requires Tracks(cap, s, h, blocks, p)
    ensures |s.out| <= Arrived(h, blocks, |p|) && s.out == blocks[..|s.out|]
  {
    if s.header { ArrivedSplit(s, h, blocks, p); }
  }

  // All blocks arrived exactly with all bytes, or there is nothing to wait for
  lemma AllArrived(h: Bytes, blocks: seq<Bytes>, p: Bytes)
    requires p <= h + Flatten(blocks) && (blocks == [] ==> p == []) && forall i | 0 <= i < |blocks| :: blocks[i] != []
    ensures Arrived(h, blocks, |p|) == |blocks| <==> p == if blocks == [] then [] else h + Flatten(blocks)
  {
    if blocks != [] {
      var e: nat := |blocks| - 1;
      ArrivedAtMost(h, blocks, |p|, e);
      assert blocks[..e + 1] == blocks;
    }
  }

  // ---- one fragment

  lemma OnePush(cap: nat, parse: HeaderParser, s: State, frag: Bytes)
    requires 2 <= cap && frag != [] && |s.buf| + |frag| <= cap
    ensures Push(cap, parse, s, frag) == Iterate(cap, parse, s, frag).state
    ensures Writes(cap, parse, s, frag) == [frag]
  {
    assert frag[..|frag|] == frag && frag[|frag|..] == [];
    hide Iterate;
  }

  // ---- whole runs

  lemma {:induction false} PushIsTurns(cap: nat, parse: HeaderParser, s: State, frag: Bytes)
    requires 2 <= cap
    ensures var w := Writes(cap, parse, s, frag);
            FitAll(cap, parse, s, w) && RunTurns(cap, parse, s, w) == Push(cap, parse, s, frag)
    decreases |frag|
  {
    if frag != [] && |s.buf| < cap {
      hide Iterate;
      var n := Min(|frag|, cap - |s.buf|);
      var t := Iterate(cap, parse, s, frag[..n]);
      var rest := if t.GiveUp? then [] else Writes(cap, parse, t.state, frag[n..]);
      if t.Proceed? { PushIsTurns(cap, parse, t.state, frag[n..]); }
      FirstWrite(cap, parse, s, frag[..n], rest);
    }
  }

  lemma FirstWrite(cap: nat, parse: HeaderParser, s: State, chunk: Bytes, rest: seq<Bytes>)
    requires 2 <= cap && |s.buf| + |chunk| <= cap
    ensures var s1 := Iterate(cap, parse, s, chunk).state;
            && RunTurns(cap, parse, s, [chunk] + rest) == RunTurns(cap, parse, s1, rest)
            && (FitAll(cap, parse, s1, rest) ==> FitAll(cap, parse, s, [chunk] + rest))
  {
    hide Iterate;
    HeadTail([chunk], rest);
  }

  lemma {:induction false} TurnsConcat(cap: nat, parse: HeaderParser, s: State, a: seq<Bytes>, b: seq<Bytes>)
    requires 2 <= cap && FitAll(cap, parse, s, a) && FitAll(cap, parse, RunTurns(cap, parse, s, a), b)
    ensures FitAll(cap, parse, s, a + b)
    ensures RunTurns(cap, parse, s, a + b) == RunTurns(cap, parse, RunTurns(cap, parse, s, a), b)
    decreases |a|
  {
    if a == [] {
      assert a + b == b;
    } else {
      hide Iterate;
      HeadTail(a, b);
      TurnsConcat(cap, parse, Iterate(cap, parse, s, a[0]).state, a[1..], b);
    }
  }

  // Any sequence of pushes is a sequence of turns
  lemma {:induction false} PushAllIsTurns(cap: nat, parse: HeaderParser, s: State, frags: seq<Bytes>)
    requires 2 <= cap
    ensures var w := AllWrites(cap, parse, s, frags);
            FitAll(cap, parse, s, w) && RunTurns(cap, parse, s, w) == PushAll(cap, parse, s, frags)
    decreases |frags|
  {
    if frags != [] {
      hide Push, FitAll, RunTurns, Writes;
      var s1 := Push(cap, parse, s, frags[0]);
      PushIsTurns(cap, parse, s, frags[0]);
      PushAllIsTurns(cap, parse, s1, frags[1..]);
      TurnsConcat(cap, parse, s, Writes(cap, parse, s, frags[0]), AllWrites(cap, parse, s1, frags[1..]));
    } else {
      assert AllWrites(cap, parse, s, frags) == [];
    }
  }

  // that writes exactly the bytes pushed
  lemma {:induction false} WritesWhole(cap: nat, parse: HeaderParser, s: State, h: Bytes, blocks: seq<Bytes>,
                                       p: Bytes, frag: Bytes)
    requires Sound(cap, parse, h, blocks) && Tracks(cap, s, h, blocks, p)
    requires p + frag <= h + Flatten(blocks)
    ensures Flatten(Writes(cap, parse, s, frag)) == frag
    decreases |frag|
  {
    if frag != [] {
      hide Iterate, AllOnWire, SelfDelimiting;
      assert |s.buf| < cap;
      var n := Min(|frag|, cap - |s.buf|);
      var chunk, more := frag[..n], frag[n..];
      assert frag == chunk + more;
      hide Tracks;
      Split(p, chunk, more, h + Flatten(blocks));
      IterateTracks(cap, parse, s, h, blocks, p, chunk);
      var t := Iterate(cap, parse, s, chunk);
      if t.GiveUp? {
        Unread(cap, s, t.state, h, blocks, p, chunk, more);
        FlattenOne(chunk);
      } else {
        WritesWhole(cap, parse, t.state, h, blocks, p + chunk, more);
        HeadTail([chunk], Writes(cap, parse, t.state, more));
      }
    }
  }

  lemma FlattenOne(chunk: Bytes)
    ensures Flatten([chunk] + []) == chunk
  {
    assert [chunk] + [] == [chunk] && Flatten([chunk]) == chunk + [];
  }

  lemma {:induction false} AllWritesWhole(cap: nat, parse: HeaderParser, s: State, h: Bytes, blocks: seq<Bytes>,
                                          p: Bytes, frags: seq<Bytes>)
    requires Sound(cap, parse, h, blocks) && Tracks(cap, s, h, blocks, p)
    requires p + Flatten(frags) <= h + Flatten(blocks)
    ensures Flatten(AllWrites(cap, parse, s, frags)) == Flatten(frags)
    decreases |frags|
  {
    if frags != [] {
      hide Tracks, Push, Sound, Writes;
      Assoc(p, frags[0], Flatten(frags[1..]));
      assert p + frags[0] <= p + frags[0] + Flatten(frags[1..]);
      var s1 := Push(cap, parse, s, frags[0]);
      PushTracks(cap, parse, s, h, blocks, p, frags[0]);
      WritesWhole(cap, parse, s, h, blocks, p, frags[0]);
      AllWritesWhole(cap, parse, s1, h, blocks, p + frags[0], frags[1..]);
      FlattenConcat(Writes(cap, parse, s, frags[0]), AllWrites(cap, parse, s1, frags[1..]));
    }
  }

  lemma DueNext(h: Bytes, blocks: seq<Bytes>, k: nat, writes: seq<Bytes>, i: nat)
    requires i < |writes|
    ensures Due(h, blocks, k, writes, i + 1) == Due(h, blocks, k + |writes[0]|, writes[1..], i)
  {
    assert writes[..i + 1][1..] == writes[1..][..i];
    assert Flatten(writes[..i + 1]) == writes[0] + Flatten(writes[1..][..i]);
  }

  lemma DueFirst(h: Bytes, blocks: seq<Bytes>, k: nat, writes: seq<Bytes>)
    requires writes != []
    ensures Due(h, blocks, k, writes, 1) == Arrived(h, blocks, k + |writes[0]|) + |writes| - 1
  {
    assert writes[..1] == [writes[0]];
    assert Flatten([writes[0]]) == writes[0] + [];
  }

  lemma PacedFirst(h: Bytes, blocks: seq<Bytes>, k: nat, writes: seq<Bytes>, m: nat)
    requires writes != []
    ensures Paced(h, blocks, k, writes, m)
            <==> m <= Arrived(h, blocks, k + |writes[0]|) + |writes| - 1
                 && Paced(h, blocks, k + |writes[0]|, writes[1..], m)
  {
    var k', rest := k + |writes[0]|, writes[1..];
    DueFirst(h, blocks, k, writes);
    hide Due, Arrived;
    forall i | 0 <= i < |writes| ensures Due(h, blocks, k, writes, i + 1) == Due(h, blocks, k', rest, i) {
      DueNext(h, blocks, k, writes, i);
    }
    if Paced(h, blocks, k, writes, m) {
      assert forall i | 1 <= i <= |rest| :: m <= Due(h, blocks, k, writes, i + 1) == Due(h, blocks, k', rest, i);
    }
    if m <= Due(h, blocks, k, writes, 1) && Paced(h, blocks, k', rest, m) {
      forall i | 1 <= i <= |writes| ensures m <= Due(h, blocks, k, writes, i) {
        if i > 1 { assert m <= Due(h, blocks, k', rest, i - 1) == Due(h, blocks, k, writes, i - 1 + 1); }
      }
    }
  }

  // From any state of the stream: m blocks are out at the end if and only if there are turns enough
  // for them, and after every turn no more of them are incomplete than there are turns to come
  lemma {:induction false} TurnsEmit(cap: nat, parse: HeaderParser, s: State, h: Bytes, blocks: seq<Bytes>,
                                     p: Bytes, writes: seq<Bytes>, m: nat)
    requires Sound(cap, parse, h, blocks) && Tracks(cap, s, h, blocks, p)
    requires p + Flatten(writes) <= h + Flatten(blocks) && FitAll(cap, parse, s, writes)
    ensures m <= |RunTurns(cap, parse, s, writes).out|
            <==> m <= |s.out| + |writes| && Paced(h, blocks, |p|, writes, m)
    decreases |writes|
  {
    hide Paced, Arrived;
    if writes != [] {
      var chunk, rest := writes[0], writes[1..];
      Assoc(p, chunk, Flatten(rest));
      assert p + chunk <= p + chunk + Flatten(rest);
      hide Iterate, Sound, Tracks, Flatten;
      var s1 := Iterate(cap, parse, s, chunk).state;
      assert FitAll(cap, parse, s1, rest) && RunTurns(cap, parse, s, writes) == RunTurns(cap, parse, s1, rest);
      hide FitAll, RunTurns;
      IterateTracks(cap, parse, s, h, blocks, p, chunk);
      TurnEmits(cap, parse, s, h, blocks, p, chunk);
      TurnsEmit(cap, parse, s1, h, blocks, p + chunk, rest, m);
      PacedFirst(h, blocks, |p|, writes, m);
    } else {
      PacedNothing(h, blocks, |p|, m);
    }
  }

  lemma PacedNothing(h: Bytes, blocks: seq<Bytes>, k: nat, m: nat)
    ensures Paced(h, blocks, k, [], m)
  {
  }

  // One push, of any size, in any state of the stream: with the header in it or not, and whatever
  // complete blocks were left behind before
  lemma PushEmits(cap: nat, parse: HeaderParser, s: State, h: Bytes, blocks: seq<Bytes>, p: Bytes, frag: Bytes, m: nat)
    requires Sound(cap, parse, h, blocks) && Tracks(cap, s, h, blocks, p) && p + frag <= h + Flatten(blocks)
    ensures var w := Writes(cap, parse, s, frag);
            m <= |Push(cap, parse, s, frag).out| <==> m <= |s.out| + |w| && Paced(h, blocks, |p|, w, m)
  {
    PushIsTurns(cap, parse, s, frag);
    WritesWhole(cap, parse, s, h, blocks, p, frag);
    TurnsEmit(cap, parse, s, h, blocks, p, Writes(cap, parse, s, frag), m);
  }

  // When it fits the free space, it hands out one more block if one has arrived
  lemma OnePushEmits(cap: nat, parse: HeaderParser, s: State, h: Bytes, blocks: seq<Bytes>, p: Bytes, frag: Bytes)
    requires Sound(cap, parse, h, blocks) && Tracks(cap, s, h, blocks, p)
    requires p + frag <= h + Flatten(blocks) && |s.buf| + |frag| <= cap && frag != []
    ensures |Push(cap, parse, s, frag).out| == Min(|s.out| + 1, Arrived(h, blocks, |p + frag|))
    ensures Tracks(cap, Push(cap, parse, s, frag), h, blocks, p + frag)
  {
    assert HEADER_SIZE <= cap;
    hide Push, Iterate, Tracks, Sound, Flatten, Arrived, Writes;
    OnePush(cap, parse, s, frag);
    TurnEmits(cap, parse, s, h, blocks, p, frag);
    IterateTracks(cap, parse, s, h, blocks, p, frag);
  }

  // and leaves no complete block behind if and only if at most one more had arrived than was out, that
  // is, if the block after the next one still lacks a byte
  lemma OneBlockPerTurn(cap: nat, parse: HeaderParser, s: State, h: Bytes, blocks: seq<Bytes>, p: Bytes, frag: Bytes)
    requires Sound(cap, parse, h, blocks) && Tracks(cap, s, h, blocks, p)
    requires p + frag <= h + Flatten(blocks) && |s.buf| + |frag| <= cap && frag != []
    ensures Settled(Push(cap, parse, s, frag), blocks)
            <==> (|s.out| + 1 < |blocks| ==> |p| + |frag| < |h| + |Flatten(blocks[..|s.out| + 2])|)
  {
    OnePushEmits(cap, parse, s, h, blocks, p, frag);
    hide Push, Iterate, Tracks, Sound, Settled, Flatten, Arrived;
    SettledMeans(cap, Push(cap, parse, s, frag), h, blocks, p + frag);
    ArrivedAtMost(h, blocks, |p + frag|, |s.out| + 1);
  }

  // Any pushes, of any sizes, from any state of the stream
  lemma RunEmits(cap: nat, parse: HeaderParser, s: State, h: Bytes, blocks: seq<Bytes>, p: Bytes,
                 frags: seq<Bytes>, m: nat)
    requires Sound(cap, parse, h, blocks) && Tracks(cap, s, h, blocks, p) && p + Flatten(frags) <= h + Flatten(blocks)
    ensures var w := AllWrites(cap, parse, s, frags);
            m <= |PushAll(cap, parse, s, frags).out| <==> m <= |s.out| + |w| && Paced(h, blocks, |p|, w, m)
  {
    AllWritesWhole(cap, parse, s, h, blocks, p, frags);
    PushAllIsTurns(cap, parse, s, frags);
    TurnsEmit(cap, parse, s, h, blocks, p, AllWrites(cap, parse, s, frags), m);
  }

  // From the start of a downlink
  lemma EmittedIff(cap: nat, parse: HeaderParser, h: Bytes, blocks: seq<Bytes>, frags: seq<Bytes>, m: nat)
    requires Sound(cap, parse, h, blocks) && Flatten(frags) <= h + Flatten(blocks)
    ensures var w := AllWrites(cap, parse, Init(), frags);
            m <= |PushAll(cap, parse, Init(), frags).out| <==> m <= |w| && Paced(h, blocks, 0, w, m)
  {
    assert [] + Flatten(frags) == Flatten(frags);
    RunEmits(cap, parse, Init(), h, blocks, [], frags, m);
  }

  // ---- the same from lengths alone

  lemma {:induction false} CompleteByLength(blocks: seq<Bytes>, k: nat)
    ensures Complete(blocks, k) == Pacing.Complete(Pacing.Lens(blocks), k)
    decreases |blocks|
  {
    if blocks != [] && |blocks[0]| <= k {
      CompleteByLength(blocks[1..], k - |blocks[0]|);
      assert Pacing.Lens(blocks)[1..] == Pacing.Lens(blocks[1..]);
    }
  }

  lemma ArrivedByLength(h: Bytes, blocks: seq<Bytes>, k: nat)
    ensures Arrived(h, blocks, k) == Pacing.Arrived(|h|, Pacing.Lens(blocks), k)
  {
    if |h| <= k { CompleteByLength(blocks, k - |h|); }
  }

  lemma DueByLength(h: Bytes, blocks: seq<Bytes>, k: nat, writes: seq<Bytes>, i: nat)
    requires i <= |writes|
    ensures Due(h, blocks, k, writes, i)
            == Pacing.Arrived(|h|, Pacing.Lens(blocks), k + Pacing.Sum(Pacing.Lens(writes)[..i])) + |writes| - i
  {
    hide Arrived, Pacing.Arrived, Pacing.Sum, Pacing.Lens, Flatten;
    Pacing.LensPrefix(writes, i);
    Pacing.FlattenLength(writes[..i]);
    ArrivedByLength(h, blocks, k + |Flatten(writes[..i])|);
  }

  lemma PacedByLength(h: Bytes, blocks: seq<Bytes>, k: nat, writes: seq<Bytes>, m: nat)
    ensures Paced(h, blocks, k, writes, m) <==> Pacing.Paced(|h|, Pacing.Lens(blocks), k, Pacing.Lens(writes), m)
  {
    hide Due, Pacing.Arrived, Pacing.Sum, Pacing.Lens;
    forall i: nat | i <= |writes|
      ensures Due(h, blocks, k, writes, i)
              == Pacing.Arrived(|h|, Pacing.Lens(blocks), k + Pacing.Sum(Pacing.Lens(writes)[..i])) + |writes| - i
    {
      DueByLength(h, blocks, k, writes, i);
    }
  }

  lemma BufferedByLength(cap: nat, s: State, h: Bytes, blocks: seq<Bytes>, p: Bytes)
    requires Tracks(cap, s, h, blocks, p)
    ensures |s.buf| == Pacing.Buffered(|h|, Pacing.Lens(blocks), |p|, |s.out|)
  {
    var e := |s.out|;
    Pacing.LensPrefix(blocks, e);
    Pacing.FlattenLength(blocks[..e]);
    assert s.out == blocks[..e];
    assert Min(e, |Pacing.Lens(blocks)|) == e;
  }

  lemma Room(cap: nat, parse: HeaderParser, s: State, h: Bytes, blocks: seq<Bytes>, p: Bytes)
    requires Sound(cap, parse, h, blocks) && Tracks(cap, s, h, blocks, p)
    ensures 2 <= cap && |s.buf| < cap
  {
  }

  // The next turn of the loop
  lemma TurnByLength(cap: nat, parse: HeaderParser, s: State, h: Bytes, blocks: seq<Bytes>, p: Bytes, frag: Bytes,
                     n: nat)
    requires Sound(cap, parse, h, blocks) && Tracks(cap, s, h, blocks, p) && p + frag <= h + Flatten(blocks)
    requires frag != [] && |s.buf| < cap && n == Min(|frag|, cap - |s.buf|)
    ensures var t := Iterate(cap, parse, s, frag[..n]);
            && Tracks(cap, t.state, h, blocks, p + frag[..n]) && p + frag[..n] + frag[n..] <= h + Flatten(blocks)
            && |t.state.out| == Pacing.Out(|h|, Pacing.Lens(blocks), |p| + n, |s.out|)
            && (t.GiveUp? ==> n == |frag|)
  {
    hide Sound, Tracks, Iterate, Flatten, Arrived, Pacing.Arrived, Pacing.Lens;
    Room(cap, parse, s, h, blocks, p);
    var chunk, more := frag[..n], frag[n..];
    assert frag == chunk + more;
    Split(p, chunk, more, h + Flatten(blocks));
    IterateTracks(cap, parse, s, h, blocks, p, chunk);
    TurnEmits(cap, parse, s, h, blocks, p, chunk);
    ArrivedByLength(h, blocks, |p + chunk|);
    if Iterate(cap, parse, s, chunk).GiveUp? { GivesUpWhole(cap, parse, s, h, blocks, p, chunk, more); }
  }

  // The pieces in which the loop writes a fragment have the lengths computed from lengths
  lemma {:induction false} WritesByLength(cap: nat, parse: HeaderParser, s: State, h: Bytes, blocks: seq<Bytes>,
                                          p: Bytes, frag: Bytes)
    requires Sound(cap, parse, h, blocks) && Tracks(cap, s, h, blocks, p) && p + frag <= h + Flatten(blocks)
    ensures var pieces := Pacing.Pieces(cap, |h|, Pacing.Lens(blocks), |p|, |s.out|, |frag|);
            && Pacing.Lens(Writes(cap, parse, s, frag)) == pieces
            && |Push(cap, parse, s, frag).out| == Pacing.OutAfter(|h|, Pacing.Lens(blocks), |p|, |s.out|, pieces)
    decreases |frag|
  {
    hide Sound, Tracks, Iterate, Flatten, Writes, Push;
    hide Pacing.Pieces, Pacing.OutAfter, Pacing.Buffered, Pacing.Out, Pacing.Lens;
    Room(cap, parse, s, h, blocks, p);
    BufferedByLength(cap, s, h, blocks, p);
    if frag == [] {
      NoPieces(cap, parse, s, |h|, Pacing.Lens(blocks), |p|);
    } else {
      var n := Min(|frag|, cap - |s.buf|);
      var t := Iterate(cap, parse, s, frag[..n]);
      TurnByLength(cap, parse, s, h, blocks, p, frag, n);
      WritesUnfold(cap, parse, s, frag, n);
      PieceCons(cap, h, blocks, |p|, |s.out|, |s.buf|, |frag|, n);
      if t.Proceed? {
        WriteCons(frag[..n], Writes(cap, parse, t.state, frag[n..]));
        WritesByLength(cap, parse, t.state, h, blocks, p + frag[..n], frag[n..]);
      } else {
        WriteCons(frag[..n], []);
        NoLens();
      }
    }
  }

  lemma NoPieces(cap: nat, parse: HeaderParser, s: State, h: nat, lens: seq<nat>, k: nat)
    requires 2 <= cap
    ensures Writes(cap, parse, s, []) == [] && Push(cap, parse, s, []) == s && Pacing.Lens<byte>([]) == []
    ensures Pacing.Pieces(cap, h, lens, k, |s.out|, 0) == []
    ensures Pacing.OutAfter(h, lens, k, |s.out|, []) == |s.out|
  {
  }

  lemma NoLens()
    ensures Pacing.Lens<byte>([]) == []
  {
  }

  lemma WritesUnfold(cap: nat, parse: HeaderParser, s: State, frag: Bytes, n: nat)
    requires 2 <= cap && frag != [] && |s.buf| < cap && n == Min(|frag|, cap - |s.buf|)
    ensures var t := Iterate(cap, parse, s, frag[..n]);
            && Writes(cap, parse, s, frag)
               == [frag[..n]] + (if t.GiveUp? then [] else Writes(cap, parse, t.state, frag[n..]))
            && Push(cap, parse, s, frag) == if t.GiveUp? then t.state else Push(cap, parse, t.state, frag[n..])
  {
    hide Iterate;
  }

  // The loop gives up only at the end of a fragment
  lemma GivesUpWhole(cap: nat, parse: HeaderParser, s: State, h: Bytes, blocks: seq<Bytes>, p: Bytes, chunk: Bytes,
                     more: Bytes)
    requires Sound(cap, parse, h, blocks) && Tracks(cap, s, h, blocks, p) && p + chunk <= h + Flatten(blocks)
    requires |s.buf| + |chunk| <= cap && (more == [] || |s.buf| + |chunk| == cap)
    requires Iterate(cap, parse, s, chunk).GiveUp?
    ensures more == []
  {
    IterateTracks(cap, parse, s, h, blocks, p, chunk);
    hide Iterate;
    Unread(cap, s, Iterate(cap, parse, s, chunk).state, h, blocks, p, chunk, more);
  }

  lemma PieceCons(cap: nat, h: Bytes, blocks: seq<Bytes>, k: nat, e: nat, used: nat, f: nat, n: nat)
    requires used == Pacing.Buffered(|h|, Pacing.Lens(blocks), k, e) < cap && 0 < f && n == Min(f, cap - used)
    ensures var lens := Pacing.Lens(blocks);
            var e1 := Pacing.Out(|h|, lens, k + n, e);
            var rest := Pacing.Pieces(cap, |h|, lens, k + n, e1, f - n);
            && Pacing.Pieces(cap, |h|, lens, k, e, f) == [n] + rest
            && Pacing.OutAfter(|h|, lens, k, e, [n] + rest) == Pacing.OutAfter(|h|, lens, k + n, e1, rest)
            && (f == n ==> rest == [] && Pacing.OutAfter(|h|, lens, k + n, e1, rest) == e1)
  {
    var lens := Pacing.Lens(blocks);
    var rest := Pacing.Pieces(cap, |h|, lens, k + n, Pacing.Out(|h|, lens, k + n, e), f - n);
    assert ([n] + rest)[0] == n && ([n] + rest)[1..] == rest;
  }

  lemma WriteCons(chunk: Bytes, rest: seq<Bytes>)
    ensures Pacing.Lens([chunk] + rest) == [|chunk|] + Pacing.Lens(rest)
  {
    assert ([chunk] + rest)[1..] == rest;
  }

  lemma {:induction false} AllWritesByLength(cap: nat, parse: HeaderParser, s: State, h: Bytes, blocks: seq<Bytes>,
                                             p: Bytes, frags: seq<Bytes>)
    requires Sound(cap, parse, h, blocks) && Tracks(cap, s, h, blocks, p) && p + Flatten(frags) <= h + Flatten(blocks)
    ensures Pacing.Lens(AllWrites(cap, parse, s, frags))
            == Pacing.AllPieces(cap, |h|, Pacing.Lens(blocks), |p|, |s.out|, Pacing.Lens(frags))
    decreases |frags|
  {
    hide Sound, Tracks, Flatten, Writes, AllWrites, Push;
    hide Pacing.Pieces, Pacing.AllPieces, Pacing.OutAfter, Pacing.Lens;
    Room(cap, parse, s, h, blocks, p);
    var lens := Pacing.Lens(blocks);
    if frags == [] {
      NoWrites(cap, parse, s, |h|, lens, |p|);
    } else {
      var s1 := Push(cap, parse, s, frags[0]);
      FirstFits(p, frags, h + Flatten(blocks));
      PushTracks(cap, parse, s, h, blocks, p, frags[0]);
      WritesByLength(cap, parse, s, h, blocks, p, frags[0]);
      AllWritesByLength(cap, parse, s1, h, blocks, p + frags[0], frags[1..]);
      AllWritesUnfold(cap, parse, s, frags);
      AllPiecesUnfold(cap, |h|, lens, |p|, |s.out|, frags);
    }
  }

  lemma FirstFits(p: Bytes, frags: seq<Bytes>, all: Bytes)
    requires frags != [] && p + Flatten(frags) <= all
    ensures p + frags[0] <= all && p + frags[0] + Flatten(frags[1..]) <= all
  {
    Split(p, frags[0], Flatten(frags[1..]), all);
  }

  lemma NoWrites(cap: nat, parse: HeaderParser, s: State, h: nat, lens: seq<nat>, k: nat)
    requires 2 <= cap
    ensures Pacing.Lens(AllWrites(cap, parse, s, []))
            == Pacing.AllPieces(cap, h, lens, k, |s.out|, Pacing.Lens<byte>([]))
  {
  }

  lemma AllWritesUnfold(cap: nat, parse: HeaderParser, s: State, frags: seq<Bytes>)
    requires 2 <= cap && frags != []
    ensures Pacing.Lens(AllWrites(cap, parse, s, frags))
            == Pacing.Lens(Writes(cap, parse, s, frags[0]))
               + Pacing.Lens(AllWrites(cap, parse, Push(cap, parse, s, frags[0]), frags[1..]))
  {
    hide Pacing.Lens, Writes, Push;
    var first, s1 := Writes(cap, parse, s, frags[0]), Push(cap, parse, s, frags[0]);
    Pacing.LensConcat(first, AllWrites(cap, parse, s1, frags[1..]));
  }

  lemma AllPiecesUnfold(cap: nat, h: nat, lens: seq<nat>, k: nat, e: nat, frags: seq<Bytes>)
    requires frags != []
    ensures var first := Pacing.Pieces(cap, h, lens, k, e, |frags[0]|);
            Pacing.AllPieces(cap, h, lens, k, e, Pacing.Lens(frags))
            == first + Pacing.AllPieces(cap, h, lens, k + |frags[0]|, Pacing.OutAfter(h, lens, k, e, first),
                                        Pacing.Lens(frags[1..]))
  {
    hide Pacing.Pieces, Pacing.OutAfter;
    assert Pacing.Lens(frags)[1..] == Pacing.Lens(frags[1..]);
  }

  // From the start of a downlink: the run hands out the whole stream if and only if the pushes keep up
  lemma WholeIff(cap: nat, parse: HeaderParser, h: Bytes, blocks: seq<Bytes>, frags: seq<Bytes>)
    requires Sound(cap, parse, h, blocks) && Flatten(frags) <= h + Flatten(blocks)
    ensures PushAll(cap, parse, Init(), frags).out == blocks
            <==> Pacing.KeepsUp(cap, |h|, Pacing.Lens(blocks), Pacing.Lens(frags))
  {
    EmittedIff(cap, parse, h, blocks, frags, |blocks|);
    Reassembles(cap, parse, h, blocks, frags);
    assert [] + Flatten(frags) == Flatten(frags);
    AllWritesByLength(cap, parse, Init(), h, blocks, [], frags);
    PacedByLength(h, blocks, 0, AllWrites(cap, parse, Init(), frags), |blocks|);
    hide AllWrites, PushAll, Paced, Pacing.AllPieces, Pacing.Paced;
    PrefixWhole(PushAll(cap, parse, Init(), frags).out, blocks);
  }

  // and any part of it if and only if they keep up with the blocks complete in that part
  lemma SettledIff(cap: nat, parse: HeaderParser, h: Bytes, blocks: seq<Bytes>, frags: seq<Bytes>)
    requires Sound(cap, parse, h, blocks) && Flatten(frags) <= h + Flatten(blocks)
    ensures var lens := Pacing.Lens(blocks);
            var pieces := Pacing.AllPieces(cap, |h|, lens, 0, 0, Pacing.Lens(frags));
            var m := Pacing.Arrived(|h|, lens, |Flatten(frags)|);
            Settled(PushAll(cap, parse, Init(), frags), blocks)
            <==> m <= |pieces| && Pacing.Paced(|h|, lens, 0, pieces, m)
  {
    var m := Arrived(h, blocks, |Flatten(frags)|);
    EmittedIff(cap, parse, h, blocks, frags, m);
    Reassembles(cap, parse, h, blocks, frags);
    SettledMeans(cap, PushAll(cap, parse, Init(), frags), h, blocks, Flatten(frags));
    ArrivedByLength(h, blocks, |Flatten(frags)|);
    assert [] + Flatten(frags) == Flatten(frags);
    AllWritesByLength(cap, parse, Init(), h, blocks, [], frags);
    PacedByLength(h, blocks, 0, AllWrites(cap, parse, Init(), frags), m);
    hide AllWrites, PushAll, Paced, Arrived, Pacing.AllPieces, Pacing.Paced, Pacing.Arrived;
  }

  // From any state of the stream, with fragments that fit the free space: the whole stream is out at the
  // end if and only if the blocks that are not out are no more than the fragments, and after every
  // fragment the blocks that are not complete are no more than the fragments still to come
  lemma FittingIff(cap: nat, parse: HeaderParser, s: State, h: Bytes, blocks: seq<Bytes>, p: Bytes, frags: seq<Bytes>)
    requires Sound(cap, parse, h, blocks) && Tracks(cap, s, h, blocks, p) && p + Flatten(frags) <= h + Flatten(blocks)
    requires Pacing.Fits(cap, |h|, Pacing.Lens(blocks), |p|, |s.out|, Pacing.Lens(frags))
    ensures PushAll(cap, parse, s, frags).out == blocks
            <==> |blocks| <= |s.out| + |frags|
                 && Pacing.Paced(|h|, Pacing.Lens(blocks), |p|, Pacing.Lens(frags), |blocks|)
  {
    RunEmits(cap, parse, s, h, blocks, p, frags, |blocks|);
    AllWritesByLength(cap, parse, s, h, blocks, p, frags);
    Pacing.FittingPieces(cap, |h|, Pacing.Lens(blocks), |p|, |s.out|, Pacing.Lens(frags));
    PacedByLength(h, blocks, |p|, AllWrites(cap, parse, s, frags), |blocks|);
    PushAllTracks(cap, parse, s, h, blocks, p, frags);
    hide AllWrites, PushAll, Paced, FitAll, Pacing.AllPieces, Pacing.Paced, Pacing.Fits;
    PrefixWhole(PushAll(cap, parse, s, frags).out, blocks);
  }

  lemma PrefixWhole<T>(a: seq<T>, b: seq<T>)
    requires a <= b
    ensures a == b <==> |b| <= |a|
  {
  }

  // Fragments no longer than the shortest block keep up
  lemma ShortKeepsUp(cap: nat, parse: HeaderParser, h: Bytes, blocks: seq<Bytes>, frags: seq<Bytes>, m: nat)
    requires Sound(cap, parse, h, blocks) && AtLeast(blocks, m)
    requires Flatten(frags) == h + Flatten(blocks)
    requires forall i | 0 <= i < |frags| :: |frags[i]| <= m
    ensures Pacing.KeepsUp(cap, |h|, Pacing.Lens(blocks), Pacing.Lens(frags))
  {
    ReassemblesAll(cap, parse, h, blocks, frags, m);
    WholeIff(cap, parse, h, blocks, frags);
  }
}
