/** How many blocks the reassembler of src/downlink.c hands out, computed from lengths alone. */
module Pacing {
  import opened Wire

  function Lens<T>(ss: seq<seq<T>>): (r: seq<nat>)
    ensures |r| == |ss| && forall i | 0 <= i < |ss| :: r[i] == |ss[i]|
  {
    if ss == [] then [] else [|ss[0]|] + Lens(ss[1..])
  }

  function Sum(lens: seq<nat>): nat {
    if lens == [] then 0 else lens[0] + Sum(lens[1..])
  }

  // How many blocks of these lengths are complete in k bytes
  function Complete(lens: seq<nat>, k: nat): (n: nat)
    ensures n <= |lens|
  {
    if lens == [] || k < lens[0] then 0 else 1 + Complete(lens[1..], k - lens[0])
  }

  // and in k bytes of the stream, which begins with a header of length h
  function Arrived(h: nat, lens: seq<nat>, k: nat): nat {
    if k < h then 0 else Complete(lens, k - h)
  }

  // What is buffered after k bytes, with e blocks handed out
  function Buffered(h: nat, lens: seq<nat>, k: nat, e: nat): nat {
    if k < h then k
    else
      var gone := h + Sum(lens[..Min(e, |lens|)]);
      if gone <= k then k - gone else 0
  }

  // How many blocks are out after one more turn that made it k bytes
  function Out(h: nat, lens: seq<nat>, k: nat, e: nat): nat {
    Min(e + 1, Arrived(h, lens, k))
  }

  // The pieces in which the loop writes a fragment of f bytes
  function Pieces(cap: nat, h: nat, lens: seq<nat>, k: nat, e: nat, f: nat): seq<nat>
    decreases f
  {
    var used := Buffered(h, lens, k, e);
    if f == 0 || used >= cap then []
    else
      var n := Min(f, cap - used);
      [n] + Pieces(cap, h, lens, k + n, Out(h, lens, k + n, e), f - n)
  }

  // and how many blocks are out after them
  function OutAfter(h: nat, lens: seq<nat>, k: nat, e: nat, pieces: seq<nat>): nat
    decreases |pieces|
  {
    if pieces == [] then e
    else OutAfter(h, lens, k + pieces[0], Out(h, lens, k + pieces[0], e), pieces[1..])
  }

  // The pieces of a sequence of fragments
  function AllPieces(cap: nat, h: nat, lens: seq<nat>, k: nat, e: nat, frags: seq<nat>): seq<nat>
    decreases |frags|
  {
    if frags == [] then []
    else
      var first := Pieces(cap, h, lens, k, e, frags[0]);
      first + AllPieces(cap, h, lens, k + frags[0], OutAfter(h, lens, k, e, first), frags[1..])
  }

  // After every piece, at most as many of the first m blocks are incomplete as there are pieces to come
  ghost predicate Paced(h: nat, lens: seq<nat>, k: nat, pieces: seq<nat>, m: nat) {
    forall i | 1 <= i <= |pieces| :: m <= Arrived(h, lens, k + Sum(pieces[..i])) + |pieces| - i
  }

  // The pushes keep up with the stream: at the start, and after every piece, the blocks that are not
  // complete yet are no more than the pieces still to come
  ghost predicate KeepsUp(cap: nat, h: nat, lens: seq<nat>, frags: seq<nat>) {
    var pieces := AllPieces(cap, h, lens, 0, 0, frags);
    |lens| <= |pieces| && Paced(h, lens, 0, pieces, |lens|)
  }

  // Every fragment has bytes, and fits the free space when it comes
  predicate Fits(cap: nat, h: nat, lens: seq<nat>, k: nat, e: nat, frags: seq<nat>)
    decreases |frags|
  {
    frags == []
    || (frags[0] > 0 && Buffered(h, lens, k, e) + frags[0] <= cap
        && Fits(cap, h, lens, k + frags[0], Out(h, lens, k + frags[0], e), frags[1..]))
  }

  // Then the fragments are the pieces
  lemma {:induction false} FittingPieces(cap: nat, h: nat, lens: seq<nat>, k: nat, e: nat, frags: seq<nat>)
    requires Fits(cap, h, lens, k, e, frags)
    ensures AllPieces(cap, h, lens, k, e, frags) == frags
    decreases |frags|
  {
    if frags != [] {
      OnePiece(cap, h, lens, k, e, frags[0]);
      hide Pieces, Buffered, Out;
      FittingPieces(cap, h, lens, k + frags[0], Out(h, lens, k + frags[0], e), frags[1..]);
    }
  }

  lemma OnePiece(cap: nat, h: nat, lens: seq<nat>, k: nat, e: nat, f: nat)
    requires f > 0 && Buffered(h, lens, k, e) + f <= cap
    ensures Pieces(cap, h, lens, k, e, f) == [f]
    ensures OutAfter(h, lens, k, e, [f]) == Out(h, lens, k + f, e)
  {
    var rest := Pieces(cap, h, lens, k + f, Out(h, lens, k + f, e), 0);
    assert rest == [] && [f] + rest == [f] && [f][1..] == [];
  }

  lemma {:induction false} LensConcat<T>(a: seq<seq<T>>, b: seq<seq<T>>)
    ensures Lens(a + b) == Lens(a) + Lens(b)
  {
  }

  lemma {:induction false} FlattenLength<T>(ss: seq<seq<T>>)
    ensures |Flatten(ss)| == Sum(Lens(ss))
  {
    if ss != [] { FlattenLength(ss[1..]); }
  }

  lemma LensPrefix<T>(ss: seq<seq<T>>, i: nat)
    requires i <= |ss|
    ensures Lens(ss)[..i] == Lens(ss[..i])
  {
  }
}
