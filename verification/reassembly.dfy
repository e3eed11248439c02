/** The downlink reassembler (src/downlink.c): arbitrary fragments in, length-prefixed blocks out. */
module Reassembly {
  import opened Wire
  import opened Block

  // The header decoder: how many bytes a header at the front takes, or that there is none yet
  type HeaderParser = Bytes -> Option<nat>

  // h is a header for the decoder, and the decoder finds its end by itself: it fails on every
  // shorter prefix and does not look at what follows
  ghost predicate SelfDelimiting(parse: HeaderParser, h: Bytes) {
    && (forall rest: Bytes {:trigger parse(h + rest)} :: parse(h + rest) == Some(|h|))
    && (forall k: nat {:trigger parse(h[..k])} | k < |h| :: parse(h[..k]) == None)
  }

  // cap is MAX_CIPHERTEXT_BLOCK_SIZE. out: the blocks handed to block_downlink_push so far.
  datatype State = State(header: bool, buf: Bytes, out: seq<Bytes>)

  function Init(): State { State(false, [], []) }

  // The second half of the loop body. None: the size field is too large, and the rest is dropped.
  function Cut(cap: nat, s: State): Option<State>
    requires 2 <= cap
  {
    if |s.buf| <= 2 then Some(s)
    else
      var size := FromBe16(s.buf);
      if size > cap - 2 then None
      else if |s.buf| - 2 < size then Some(s)
      else Some(s.(buf := s.buf[2 + size..], out := s.out + [s.buf[..2 + size]]))
  }

  datatype Turn = GiveUp(state: State) | Proceed(state: State)

  // One turn of the loop of pouch_downlink_push, with the bytes it writes to the buffer
  function Iterate(cap: nat, parse: HeaderParser, s: State, chunk: Bytes): Turn
    requires 2 <= cap
  {
    var s1 := s.(buf := s.buf + chunk);
    match (if s.header then Some(0) else parse(s1.buf))
    case None => GiveUp(s1)
    case Some(k) =>
      var s2 := s1.(header := true, buf := s1.buf[Min(k, |s1.buf|)..]);
      match Cut(cap, s2)
      case None => GiveUp(s2)
      case Some(s3) => Proceed(s3)
  }

  // pouch_downlink_push after pouch_downlink_start, with every allocation succeeding
  function Push(cap: nat, parse: HeaderParser, s: State, frag: Bytes): State
    requires 2 <= cap
    decreases |frag|
  {
    if frag == [] || |s.buf| >= cap then s
    else
      var n := Min(|frag|, cap - |s.buf|);
      match Iterate(cap, parse, s, frag[..n])
      case GiveUp(s') => s'
      case Proceed(s') => Push(cap, parse, s', frag[n..])
  }

  function PushAll(cap: nat, parse: HeaderParser, s: State, frags: seq<Bytes>): State
    requires 2 <= cap
    decreases |frags|
  {
    if frags == [] then s else PushAll(cap, parse, Push(cap, parse, s, frags[0]), frags[1..])
  }

  // What is sent: a header, then blocks with honest size fields within the limit
  ghost predicate Sound(cap: nat, parse: HeaderParser, h: Bytes, blocks: seq<Bytes>) {
    && HEADER_SIZE <= cap && 1 <= |h| <= cap && SelfDelimiting(parse, h)
    && AllOnWire(blocks, cap - 2)
  }

  // s is where the reassembler should be after the bytes p of that stream: no byte lost or invented,
  // the emitted blocks a prefix of the sent ones, the buffer never full
  ghost predicate Tracks(cap: nat, s: State, h: Bytes, blocks: seq<Bytes>, p: Bytes) {
    && |s.buf| < cap
    && s.out <= blocks
    && p <= h + Flatten(blocks)
    && (if s.header then h + Flatten(s.out) + s.buf == p
        else s.out == [] && s.buf == p && |p| < |h|)
  }

  // Every complete block has been emitted
  ghost predicate Settled(s: State, blocks: seq<Bytes>) {
    s.header && s.out <= blocks && s.out != blocks ==> |s.buf| < |blocks[|s.out|]|
  }

  lemma {:induction false} FlattenPrefix(a: seq<Bytes>, all: seq<Bytes>)
    requires a <= all
    ensures Flatten(all) == Flatten(a) + Flatten(all[|a|..])
  {
    assert a + all[|a|..] == all;
    FlattenConcat(a, all[|a|..]);
  }

  // What is buffered is a prefix of what is still to come
  lemma BufferedPrefix(h: Bytes, out: seq<Bytes>, buf: Bytes, blocks: seq<Bytes>)
    requires out <= blocks && h + Flatten(out) + buf <= h + Flatten(blocks)
    ensures buf <= Flatten(blocks[|out|..])
  {
    FlattenPrefix(out, blocks);
    Assoc(h, Flatten(out), Flatten(blocks[|out|..]));
    PrefixCancel(h + Flatten(out), buf, Flatten(blocks[|out|..]));
  }

  lemma PrefixCancel(a: Bytes, b: Bytes, c: Bytes)
    requires a + b <= a + c
    ensures b <= c
  {
    assert (a + b)[|a|..] == b && (a + c)[|a|..] == c;
    assert forall i | 0 <= i < |b| :: b[i] == (a + b)[|a| + i] == (a + c)[|a| + i] == c[i];
  }

  lemma PrefixOf(b: Bytes, first: Bytes, rest: Bytes)
    requires b <= first + rest
    ensures |first| <= |b| ==> b[..|first|] == first && b[|first|..] <= rest
    ensures |b| <= |first| ==> b <= first
  {
    if |first| <= |b| {
      assert b[..|first|] == (first + rest)[..|first|] == first;
      assert b == first + b[|first|..];
      PrefixCancel(first, b[|first|..], rest);
    }
  }

  // The cut on a buffer that starts at a block boundary of a sound stream
  lemma CutTracks(cap: nat, s: State, h: Bytes, blocks: seq<Bytes>, p: Bytes)
    requires HEADER_SIZE <= cap && AllOnWire(blocks, cap - 2)
    requires s.header && s.out <= blocks && |s.buf| <= cap
    requires p <= h + Flatten(blocks) && h + Flatten(s.out) + s.buf == p
    ensures Cut(cap, s).Some? && Tracks(cap, Cut(cap, s).value, h, blocks, p) && Cut(cap, s).value.header
    ensures var s' := Cut(cap, s).value;
            if s.out != blocks && |blocks[|s.out|]| <= |s.buf|
            then s'.out == s.out + [blocks[|s.out|]] && s'.buf == s.buf[|blocks[|s.out|]|..]
            else s' == s
  {
    BufferedPrefix(h, s.out, s.buf, blocks);
    var todo := blocks[|s.out|..];
    if todo != [] {
      var b := blocks[|s.out|];
      assert OnWire(b, cap - 2);
      assert Flatten(todo) == b + Flatten(todo[1..]);
      PrefixOf(s.buf, b, Flatten(todo[1..]));
      if |s.buf| > 2 {
        SameFront(s.buf, b);
      }
      if |b| <= |s.buf| {
        assert s.buf == b + s.buf[|b|..];
        FlattenSnoc(s.out, b);
        Assoc(h, Flatten(s.out), b);
        Assoc(h + Flatten(s.out), b, s.buf[|b|..]);
      }
    }
  }

  lemma SameFront(a: Bytes, b: Bytes)
    requires 2 < |a| && 3 <= |b|
    requires (|b| <= |a| ==> a[..|b|] == b) && (|a| <= |b| ==> a <= b)
    ensures FromBe16(a) == FromBe16(b)
  {
    if |b| <= |a| {
      assert a[0] == a[..|b|][0] && a[1] == a[..|b|][1];
    }
  }

  // One turn on a sound stream; it gives up only while the header is incomplete
  lemma IterateTracks(cap: nat, parse: HeaderParser, s: State, h: Bytes, blocks: seq<Bytes>, p: Bytes, chunk: Bytes)
    requires Sound(cap, parse, h, blocks) && Tracks(cap, s, h, blocks, p)
    requires p + chunk <= h + Flatten(blocks) && |s.buf| + |chunk| <= cap
    ensures var t := Iterate(cap, parse, s, chunk);
            && Tracks(cap, t.state, h, blocks, p + chunk)
            && (t.GiveUp? ==> |p + chunk| < |h| && !t.state.header)
            && (t.Proceed? ==> t.state.header)
  {
    var s1 := s.(buf := s.buf + chunk);
    if s.header {
      Assoc(h + Flatten(s.out), s.buf, chunk);
      assert s1.buf[0..] == s1.buf;
      CutTracks(cap, s1, h, blocks, p + chunk);
    } else {
      PrefixOf(s1.buf, h, Flatten(blocks));
      if |s1.buf| < |h| {
        assert h[..|s1.buf|] == s1.buf;
      } else {
        var rest := s1.buf[|h|..];
        assert s1.buf == h + rest;
        assert parse(h + rest) == Some(|h|);
        assert h + Flatten([]) + rest == s1.buf by { assert h + [] == h; }
        CutTracks(cap, s1.(header := true, buf := rest), h, blocks, p + chunk);
      }
    }
  }

  // Refinement: after any fragments, of any sizes, the reassembler is where the stream says
  lemma {:induction false} PushTracks(cap: nat, parse: HeaderParser, s: State, h: Bytes, blocks: seq<Bytes>,
                                      p: Bytes, frag: Bytes)
    requires Sound(cap, parse, h, blocks) && Tracks(cap, s, h, blocks, p)
    requires p + frag <= h + Flatten(blocks)
    ensures Tracks(cap, Push(cap, parse, s, frag), h, blocks, p + frag)
    decreases |frag|
  {
    if frag == [] {
      assert p + frag == p;
    } else {
      hide Iterate, Flatten, AllOnWire, SelfDelimiting;
      assert |s.buf| < cap;
      var chunk, more := FirstTurn(cap, parse, s, frag);
      hide Tracks, Push;
      Split(p, chunk, more, h + Flatten(blocks));
      IterateTracks(cap, parse, s, h, blocks, p, chunk);
      var t := Iterate(cap, parse, s, chunk);
      if t.GiveUp? {
        Unread(cap, s, t.state, h, blocks, p, chunk, more);
      } else {
        PushTracks(cap, parse, t.state, h, blocks, p + chunk, more);
      }
    }
  }

  // A push is a first turn on the bytes that fit, and then a push of the others
  lemma FirstTurn(cap: nat, parse: HeaderParser, s: State, frag: Bytes) returns (chunk: Bytes, more: Bytes)
    requires frag != [] && 2 <= cap && |s.buf| < cap
    ensures frag == chunk + more && |s.buf| + |chunk| <= cap
    ensures more == [] || |s.buf| + |chunk| == cap
    ensures |more| < |frag|
    ensures var t := Iterate(cap, parse, s, chunk);
            Push(cap, parse, s, frag) == if t.GiveUp? then t.state else Push(cap, parse, t.state, more)
  {
    var n := Min(|frag|, cap - |s.buf|);
    chunk, more := frag[..n], frag[n..];
  }

  lemma Split(p: Bytes, chunk: Bytes, more: Bytes, all: Bytes)
    requires p + (chunk + more) <= all
    ensures p + (chunk + more) == p + chunk + more && p + chunk <= all
  {
    assert p + (chunk + more) == p + chunk + more;
    assert p + chunk == all[..|p| + |chunk|];
  }

  lemma Unread(cap: nat, s: State, s': State, h: Bytes, blocks: seq<Bytes>, p: Bytes, chunk: Bytes, more: Bytes)
    requires Tracks(cap, s, h, blocks, p) && Tracks(cap, s', h, blocks, p + chunk)
    requires |h| <= cap && |p + chunk| < |h|
    requires more == [] || |s.buf| + |chunk| == cap
    ensures chunk + more == chunk
  {
  }

  lemma {:induction false} PushAllTracks(cap: nat, parse: HeaderParser, s: State, h: Bytes, blocks: seq<Bytes>,
                                         p: Bytes, frags: seq<Bytes>)
    requires Sound(cap, parse, h, blocks) && Tracks(cap, s, h, blocks, p)
    requires p + Flatten(frags) <= h + Flatten(blocks)
    ensures Tracks(cap, PushAll(cap, parse, s, frags), h, blocks, p + Flatten(frags))
    decreases |frags|
  {
    if frags == [] {
      assert p + [] == p;
    } else {
      hide Tracks, Push, Sound;
      Assoc(p, frags[0], Flatten(frags[1..]));
      assert p + frags[0] <= p + frags[0] + Flatten(frags[1..]);
      PushTracks(cap, parse, s, h, blocks, p, frags[0]);
      PushAllTracks(cap, parse, Push(cap, parse, s, frags[0]), h, blocks, p + frags[0], frags[1..]);
    }
  }

  // From the start of a downlink: conservation and prefix, for every fragmentation of every part of
  // a sound stream
  lemma Reassembles(cap: nat, parse: HeaderParser, h: Bytes, blocks: seq<Bytes>, frags: seq<Bytes>)
    requires Sound(cap, parse, h, blocks) && Flatten(frags) <= h + Flatten(blocks)
    ensures Tracks(cap, PushAll(cap, parse, Init(), frags), h, blocks, Flatten(frags))
  {
    assert [] + Flatten(frags) == Flatten(frags);
    PushAllTracks(cap, parse, Init(), h, blocks, [], frags);
  }

  // ---- completeness

  // With k more bytes of the fragment to come, less than the awaited unit and a further block are in
  ghost predicate Near(s: State, h: Bytes, blocks: seq<Bytes>, m: nat, k: nat) {
    if !s.header then |s.buf| + k < |h| + m
    else s.out <= blocks && s.out != blocks ==> |s.buf| + k < |blocks[|s.out|]| + m
  }

  ghost predicate AtLeast(blocks: seq<Bytes>, m: nat) {
    forall i | 0 <= i < |blocks| :: m <= |blocks[i]|
  }

  lemma IterateNear(cap: nat, parse: HeaderParser, s: State, h: Bytes, blocks: seq<Bytes>, p: Bytes,
                    chunk: Bytes, m: nat, k: nat)
    requires Sound(cap, parse, h, blocks) && Tracks(cap, s, h, blocks, p) && AtLeast(blocks, m)
    requires p + chunk <= h + Flatten(blocks) && |s.buf| + |chunk| <= cap
    requires Near(s, h, blocks, m, |chunk| + k)
    ensures var t := Iterate(cap, parse, s, chunk); Near(t.state, h, blocks, m, k) && Settled(t.state, blocks)
  {
    var s1 := s.(buf := s.buf + chunk);
    IterateTracks(cap, parse, s, h, blocks, p, chunk);
    if s.header {
      Assoc(h + Flatten(s.out), s.buf, chunk);
      assert s1.buf[0..] == s1.buf;
      CutTracks(cap, s1, h, blocks, p + chunk);
      Whole(cap, s1, h, blocks, p + chunk);
    } else if |s1.buf| >= |h| {
      PrefixOf(s1.buf, h, Flatten(blocks));
      var rest := s1.buf[|h|..];
      assert s1.buf == h + rest;
      assert parse(h + rest) == Some(|h|);
      assert h + Flatten([]) + rest == s1.buf by { assert h + [] == h; }
      CutTracks(cap, s1.(header := true, buf := rest), h, blocks, p + chunk);
    } else {
      PrefixOf(s1.buf, h, Flatten(blocks));
      assert h[..|s1.buf|] == s1.buf;
    }
  }

  // When everything was emitted nothing is buffered
  lemma Whole(cap: nat, s: State, h: Bytes, blocks: seq<Bytes>, p: Bytes)
    requires s.out <= blocks && p <= h + Flatten(blocks) && h + Flatten(s.out) + s.buf == p
    ensures s.out == blocks ==> s.buf == []
  {
  }

  lemma {:induction false} PushSettles(cap: nat, parse: HeaderParser, s: State, h: Bytes, blocks: seq<Bytes>,
                                       p: Bytes, frag: Bytes, m: nat)
    requires Sound(cap, parse, h, blocks) && Tracks(cap, s, h, blocks, p) && AtLeast(blocks, m)
    requires p + frag <= h + Flatten(blocks) && Settled(s, blocks) && Near(s, h, blocks, m, |frag|)
    ensures Settled(Push(cap, parse, s, frag), blocks)
    decreases |frag|
  {
    if frag != [] {
      hide Near, Settled, Iterate, Flatten, AllOnWire, SelfDelimiting, AtLeast;
      assert |s.buf| < cap;
      var chunk, more := FirstTurn(cap, parse, s, frag);
      hide Tracks, Push;
      Split(p, chunk, more, h + Flatten(blocks));
      IterateTracks(cap, parse, s, h, blocks, p, chunk);
      IterateNear(cap, parse, s, h, blocks, p, chunk, m, |more|);
      var t := Iterate(cap, parse, s, chunk);
      if t.Proceed? {
        PushSettles(cap, parse, t.state, h, blocks, p + chunk, more, m);
      }
    }
  }

  lemma {:induction false} PushAllSettles(cap: nat, parse: HeaderParser, s: State, h: Bytes, blocks: seq<Bytes>,
                                          p: Bytes, frags: seq<Bytes>, m: nat)
    requires Sound(cap, parse, h, blocks) && Tracks(cap, s, h, blocks, p) && AtLeast(blocks, m)
    requires p + Flatten(frags) <= h + Flatten(blocks) && Settled(s, blocks)
    requires forall i | 0 <= i < |frags| :: |frags[i]| <= m
    ensures Settled(PushAll(cap, parse, s, frags), blocks)
    decreases |frags|
  {
    if frags != [] {
      assert Near(s, h, blocks, m, |frags[0]|);
      hide Tracks, Push, Sound, Settled, Near;
      Assoc(p, frags[0], Flatten(frags[1..]));
      assert p + frags[0] <= p + frags[0] + Flatten(frags[1..]);
      PushTracks(cap, parse, s, h, blocks, p, frags[0]);
      PushSettles(cap, parse, s, h, blocks, p, frags[0], m);
      PushAllSettles(cap, parse, Push(cap, parse, s, frags[0]), h, blocks, p + frags[0], frags[1..], m);
    }
  }

  // When no fragment is longer than the shortest block, every block is out once its bytes are in;
  // in particular a whole stream comes out whole
  lemma ReassemblesAll(cap: nat, parse: HeaderParser, h: Bytes, blocks: seq<Bytes>, frags: seq<Bytes>, m: nat)
    requires Sound(cap, parse, h, blocks) && AtLeast(blocks, m)
    requires Flatten(frags) <= h + Flatten(blocks)
    requires forall i | 0 <= i < |frags| :: |frags[i]| <= m
    ensures var s := PushAll(cap, parse, Init(), frags);
            && Settled(s, blocks)
            && (Flatten(frags) == h + Flatten(blocks) ==> s == State(true, [], blocks))
  {
    assert [] + Flatten(frags) == Flatten(frags);
    PushAllSettles(cap, parse, Init(), h, blocks, [], frags, m);
    Reassembles(cap, parse, h, blocks, frags);
    var s := PushAll(cap, parse, Init(), frags);
    if Flatten(frags) == h + Flatten(blocks) {
      assert |Flatten(frags)| >= |h|;
      FlattenPrefix(s.out, blocks);
      Assoc(h, Flatten(s.out), Flatten(blocks[|s.out|..]));
      SameRest(h + Flatten(s.out), s.buf, Flatten(blocks[|s.out|..]));
    }
  }

  lemma SameRest(a: Bytes, b: Bytes, c: Bytes)
    requires a + b == a + c
    ensures b == c
  {
    assert (a + b)[|a|..] == b && (a + c)[|a|..] == c;
  }

  // Two smallest blocks that arrive with the header in one fragment: the second stays behind
  lemma SecondBlockWaits(cap: nat, parse: HeaderParser, h: Bytes)
    requires SelfDelimiting(parse, h) && 1 <= |h| && |h| + 6 <= cap
    ensures var b: Bytes := [0, 1, 192];
            Push(cap, parse, Init(), h + (b + b)) == State(true, b, [b])
  {
    var b: Bytes := [0, 1, 192];
    var frag := h + (b + b);
    assert parse(h + (b + b)) == Some(|h|);
    FrontTwo(h, b + b);
    CutTwo(cap, b);
    assert Iterate(cap, parse, Init(), frag) == Proceed(State(true, b, [b])) by { hide SelfDelimiting, Cut, Push; }
    hide SelfDelimiting, Iterate;
    var chunk, more := FirstTurn(cap, parse, Init(), frag);
    hide Push;
    assert chunk == frag && more == [];
    PushNothing(cap, parse, State(true, b, [b]));
  }

  lemma PushNothing(cap: nat, parse: HeaderParser, s: State)
    requires 2 <= cap
    ensures Push(cap, parse, s, []) == s
  {
  }

  lemma FrontTwo(h: Bytes, rest: Bytes)
    ensures var all := h + rest;
            [] + all == all && all[..|all|] == all && all[|all|..] == [] && all[|h|..] == rest
  {
  }

  lemma CutTwo(cap: nat, b: Bytes)
    requires b == [0, 1, 192] && 6 <= cap
    ensures Cut(cap, State(true, b + b, [])) == Some(State(true, b, [b]))
  {
    assert (b + b)[..3] == b && (b + b)[3..] == b && [] + [b] == [b];
  }

  // ---- any bytes at all

  ghost predicate Honest(cap: nat, out: seq<Bytes>) {
    forall i | 0 <= i < |out| :: 2 <= |out[i]| <= cap && out[i][0] as int * 256 + out[i][1] as int == |out[i]| - 2
  }

  lemma CutHonest(cap: nat, s: State)
    requires 2 <= cap && Honest(cap, s.out) && |s.buf| <= cap
    ensures Cut(cap, s).Some? ==> Honest(cap, Cut(cap, s).value.out) && |Cut(cap, s).value.buf| <= |s.buf|
  {
    var size := if |s.buf| > 2 then FromBe16(s.buf) else 0;
    if 2 < |s.buf| && size <= cap - 2 && size <= |s.buf| - 2 {
      var b := s.buf[..2 + size];
      assert b[0] == s.buf[0] && b[1] == s.buf[1];
    }
  }

  // Whatever is pushed, from any source: a block that is handed out has an honest size field and fits the
  // buffers, and so do the bytes that are kept
  lemma {:induction false} PushHonest(cap: nat, parse: HeaderParser, s: State, frag: Bytes)
    requires 2 <= cap && Honest(cap, s.out) && |s.buf| <= cap
    ensures Honest(cap, Push(cap, parse, s, frag).out) && |Push(cap, parse, s, frag).buf| <= cap
    decreases |frag|
  {
    if frag != [] && |s.buf| < cap {
      var n := Min(|frag|, cap - |s.buf|);
      IterateHonest(cap, parse, s, frag[..n]);
      hide Iterate, Honest;
      var t := Iterate(cap, parse, s, frag[..n]);
      if t.Proceed? { PushHonest(cap, parse, t.state, frag[n..]); }
    }
  }

  lemma IterateHonest(cap: nat, parse: HeaderParser, s: State, chunk: Bytes)
    requires 2 <= cap && Honest(cap, s.out) && |s.buf| + |chunk| <= cap
    ensures Honest(cap, Iterate(cap, parse, s, chunk).state.out)
    ensures |Iterate(cap, parse, s, chunk).state.buf| <= cap
  {
    var s1 := s.(buf := s.buf + chunk);
    match (if s.header then Some(0) else parse(s1.buf))
    case None =>
    case Some(k) => CutHonest(cap, s1.(header := true, buf := s1.buf[Min(k, |s1.buf|)..]));
  }

  lemma {:induction false} AllHonest(cap: nat, parse: HeaderParser, s: State, frags: seq<Bytes>)
    requires 2 <= cap && Honest(cap, s.out) && |s.buf| <= cap
    ensures Honest(cap, PushAll(cap, parse, s, frags).out) && |PushAll(cap, parse, s, frags).buf| <= cap
    decreases |frags|
  {
    if frags != [] {
      PushHonest(cap, parse, s, frags[0]);
      hide Push, Honest;
      AllHonest(cap, parse, Push(cap, parse, s, frags[0]), frags[1..]);
    }
  }

  // A block at the front of the buffer is handed out as soon as it is whole; an empty one, which is only a
  // size field, as soon as a byte follows it
  lemma FrontComesOut(cap: nat, parse: HeaderParser, s: State, chunk: Bytes, b: Bytes, rest: Bytes)
    requires s.header && s.buf + chunk == b + rest && 2 <= |b| <= cap && |b| + |rest| <= cap
    requires b[0] as int * 256 + b[1] as int == |b| - 2 && (|b| == 2 ==> rest != [])
    ensures Iterate(cap, parse, s, chunk) == Proceed(State(true, rest, s.out + [b]))
  {
    var buf := s.buf + chunk;
    assert buf[0..] == buf && buf[0] == b[0] && buf[1] == b[1];
    assert (b + rest)[..|b|] == b && (b + rest)[|b|..] == rest;
  }

  // A size field above the limit stops the downlink: nothing that is pushed after it comes out
  ghost predicate Oversized(cap: nat, s: State) {
    s.header && 2 < |s.buf| && s.buf[0] as int * 256 + s.buf[1] as int > cap - 2
  }

  lemma {:induction false} OversizeStops(cap: nat, parse: HeaderParser, s: State, frags: seq<Bytes>)
    requires 2 <= cap && Oversized(cap, s)
    ensures PushAll(cap, parse, s, frags).out == s.out
    decreases |frags|
  {
    if frags != [] {
      var s1 := Push(cap, parse, s, frags[0]);
      if frags[0] != [] && |s.buf| < cap {
        var n := Min(|frags[0]|, cap - |s.buf|);
        assert (s.buf + frags[0][..n])[0..] == s.buf + frags[0][..n];
        assert Cut(cap, s.(buf := s.buf + frags[0][..n])) == None;
      }
      OversizeStops(cap, parse, s1, frags[1..]);
    }
  }

  // and so does a header that is not complete in a full buffer
  lemma {:induction false} NoHeaderStops(cap: nat, parse: HeaderParser, s: State, frags: seq<Bytes>)
    requires 2 <= cap <= |s.buf|
    ensures PushAll(cap, parse, s, frags) == s
    decreases |frags|
  {
    if frags != [] { NoHeaderStops(cap, parse, s, frags[1..]); }
  }
}
