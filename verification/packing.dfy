/** How full the entry blocks are (src/entry.c): when a write fills the open block, and when a block goes out. */
module Packing {
  import opened Wire
  import opened Block
  import opened Entry

  // A new block: no size yet, id 0, FIRST and LAST
  lemma EmptyBlock()
    ensures EMPTY_BLOCK == [0x00, 0x00, 0xC0]
  {
  }

  // An entry takes two bytes for the length of its data, two for the content type and one for that of
  // its path
  lemma EntrySize(p: nat, e: Entry)
    ensures |Encode(e)| == 2 + 2 + 1 + |e.path| + |e.data|
    ensures EntryFits(p, e) <==> |Encode(e)| <= p
  {
  }

  // The open block has no room for the entry
  predicate Full(p: nat, open: Option<Bytes>, e: Entry) {
    open.Some? && |open.value| + |Encode(e)| > 3 + p
  }

  // The block the entry has to go into can be had: it is open already, or it can be allocated
  predicate Obtained(p: nat, open: Option<Bytes>, e: Entry, luck: Luck) {
    if open == None then luck.first else !Full(p, open, e) || luck.second
  }

  // Whether a write is accepted, for every outcome of the lock and the allocations
  lemma AcceptedIff(p: nat, open: Option<Bytes>, e: Entry, luck: Luck)
    requires BlockFits(p, open)
    ensures Write(p, open, e, luck).err == Ok
            <==> e.data != [] && luck.lock && |Encode(e)| <= p && Obtained(p, open, e, luck)
    ensures Write(p, open, e, luck).err == EINVAL <==> e.data == []
    ensures Write(p, open, e, luck).err == EAGAIN <==> e.data != [] && !luck.lock
  {
  }

  // Entries share a block: while the entry fits the open one it goes there, no block is allocated, and
  // nothing is sent
  lemma SharesBlock(p: nat, block: Bytes, e: Entry, luck: Luck)
    requires 3 <= |block| <= 3 + p && e.data != [] && luck.lock && |block| + |Encode(e)| <= 3 + p
    ensures Write(p, Some(block), e, luck) == Result(Some(block + Encode(e)), [], Ok)
  {
  }

  // A write sends the open block exactly if the entry does not fit it
  lemma SendsIff(p: nat, open: Option<Bytes>, e: Entry, luck: Luck)
    requires BlockFits(p, open)
    ensures Write(p, open, e, luck).sent
            == if e.data != [] && luck.lock && Full(p, open, e) then [Finish(open.value, true, true)] else []
  {
  }

  // and what is open after it: the entry's block, or else a new block if one was allocated
  lemma OpenAfter(p: nat, open: Option<Bytes>, e: Entry, luck: Luck)
    requires BlockFits(p, open)
    ensures var r := Write(p, open, e, luck);
            r.open == if e.data == [] || !luck.lock then open
                      else if r.err == Ok && open.Some? && !Full(p, open, e) then Some(open.value + Encode(e))
                      else if r.err == Ok then Some([0x00, 0x00, 0xC0] + Encode(e))
                      else if Obtained(p, open, e, luck) then Some([0x00, 0x00, 0xC0])
                      else None
  {
    EmptyBlock();
  }

  // A close sends the open block if it gets the lock, and does nothing otherwise
  lemma CloseIs(open: Option<Bytes>, lock: bool)
    requires open.Some? ==> 3 <= |open.value|
    ensures lock ==> Close(open, lock) == Result(None, if open.Some? then [Finish(open.value, true, true)] else [], Ok)
    ensures !lock ==> Close(open, lock) == Result(open, [], EAGAIN)
  {
  }

  // ---- runs

  datatype Call = DoWrite(e: Entry, luck: Luck) | DoClose(lock: bool)

  function Step(p: nat, open: Option<Bytes>, c: Call): (r: Result)
    requires BlockFits(p, open)
    ensures BlockFits(p, r.open)
  {
    match c
    case DoWrite(e, luck) => Write(p, open, e, luck)
    case DoClose(lock) => Close(open, lock)
  }

  // The open block after the calls, and the blocks they sent
  function Run(p: nat, open: Option<Bytes>, calls: seq<Call>): (r: (Option<Bytes>, seq<Bytes>))
    requires BlockFits(p, open)
    ensures BlockFits(p, r.0)
    decreases |calls|
  {
    if calls == [] then (open, [])
    else
      var first := Step(p, open, calls[0]);
      var rest := Run(p, first.open, calls[1..]);
      (rest.0, first.sent + rest.1)
  }

  // The call has to send the open block: an entry that does not fit it, or a close
  predicate Due(p: nat, block: Bytes, c: Call) {
    match c
    case DoWrite(e, luck) => e.data != [] && luck.lock && |block| + |Encode(e)| > 3 + p
    case DoClose(lock) => lock
  }

  // The blocks that have to go out, each at its call
  ghost function DueBlocks(p: nat, open: Option<Bytes>, calls: seq<Call>): seq<Bytes>
    requires BlockFits(p, open)
    decreases |calls|
  {
    if calls == [] then []
    else
      (if open.Some? && Due(p, open.value, calls[0]) then [Finish(open.value, true, true)] else [])
      + DueBlocks(p, Step(p, open, calls[0]).open, calls[1..])
  }

  // Whatever the lock and the allocator do, a block goes out when it is due, and never otherwise
  lemma {:induction false} RunSendsDue(p: nat, open: Option<Bytes>, calls: seq<Call>)
    requires BlockFits(p, open)
    ensures Run(p, open, calls).1 == DueBlocks(p, open, calls)
    decreases |calls|
  {
    if calls != [] {
      StepSendsDue(p, open, calls[0]);
      hide Step, Due;
      RunSendsDue(p, Step(p, open, calls[0]).open, calls[1..]);
    }
  }

  lemma StepSendsDue(p: nat, open: Option<Bytes>, c: Call)
    requires BlockFits(p, open)
    ensures Step(p, open, c).sent
            == if open.Some? && Due(p, open.value, c) then [Finish(open.value, true, true)] else []
  {
    if c.DoWrite? { SendsIff(p, open, c.e, c.luck); }
  }

  // ---- next fit

  function Writes(es: seq<Entry>): (calls: seq<Call>)
    ensures |calls| == |es|
  {
    if es == [] then [] else [DoWrite(es[0], Luck(true, true, true))] + Writes(es[1..])
  }

  // Every group after the first begins with an entry that did not fit the group before it
  ghost predicate Tight(p: nat, groups: seq<seq<Entry>>) {
    forall i | 1 <= i < |groups| :: groups[i] != [] && |EncodeAll(groups[i - 1])| + |Encode(groups[i][0])| > p
  }

  // With nothing failing, entries are packed next fit: each block is closed by the entry that did not
  // fit it, and that entry opens the next one
  lemma {:induction false} PacksTight(p: nat, es: seq<Entry>, e: Entry)
    returns (groups: seq<seq<Entry>>, last: seq<Entry>)
    requires 1 <= p && forall x | x in es + [e] :: x.data != [] && |Encode(x)| <= p
    ensures var r := Run(p, None, Writes(es + [e]));
            PackedAs(p, r.1, r.0, es + [e], groups, last)
    ensures last != [] && Tight(p, groups + [last])
    decreases |es|
  {
    WritesSnoc(es, e);
    hide Write;
    if es == [] {
      groups, last := FirstPacked(p, e);
    } else {
      var n := |es| - 1;
      assert es == es[..n] + [es[n]];
      assert forall x | x in es :: x in es + [e];
      var before, open := PacksTight(p, es[..n], es[n]);
      RunSnoc(p, None, Writes(es), DoWrite(e, Luck(true, true, true)));
      groups, last := NextPacked(p, es, e, before, open);
    }
  }

  lemma FirstPacked(p: nat, e: Entry) returns (groups: seq<seq<Entry>>, last: seq<Entry>)
    requires e.data != [] && |Encode(e)| <= p
    ensures var r := Run(p, None, Writes([] + [e]));
            PackedAs(p, r.1, r.0, [] + [e], groups, last)
    ensures last != [] && Tight(p, groups + [last])
  {
    groups, last := [], [e];
    var luck := Luck(true, true, true);
    assert [] + [e] == [e] && [e][1..] == [];
    assert Writes([e]) == [DoWrite(e, luck)] && [DoWrite(e, luck)][1..] == [];
    AcceptedIff(p, None, e, luck);
    OpenAfter(p, None, e, luck);
    SendsIff(p, None, e, luck);
    EmptyBlock();
    PackedAppend(p, [], Some(EMPTY_BLOCK), [], [], [], e);
    assert EncodeAll([e]) == Encode(e) + [] == Encode(e);
  }

  lemma NextPacked(p: nat, es: seq<Entry>, e: Entry, before: seq<seq<Entry>>, open: seq<Entry>)
    returns (groups: seq<seq<Entry>>, last: seq<Entry>)
    requires e.data != [] && |Encode(e)| <= p && open != [] && Tight(p, before + [open])
    requires var r := Run(p, None, Writes(es)); PackedAs(p, r.1, r.0, es, before, open)
    requires var r, luck := Run(p, None, Writes(es)), Luck(true, true, true);
             Run(p, None, Writes(es + [e]))
             == (Write(p, r.0, e, luck).open, r.1 + Write(p, r.0, e, luck).sent)
    ensures var r := Run(p, None, Writes(es + [e]));
            PackedAs(p, r.1, r.0, es + [e], groups, last)
    ensures last != [] && Tight(p, groups + [last])
  {
    hide Run, Write, Tight, EncodeAll, PackedAs;
    var r, luck := Run(p, None, Writes(es)), Luck(true, true, true);
    OpenHolds(p, r.1, r.0, es, before, open);
    AcceptedIff(p, r.0, e, luck);
    OpenAfter(p, r.0, e, luck);
    SendsIff(p, r.0, e, luck);
    assert r.1 + [] == r.1;
    if Full(p, r.0, e) {
      OneMoreBlock(p, r.1, r.0.value, es, e, before, open);
      groups, last := before + [open], [e];
    } else {
      SameBlock(p, r.1, r.0.value, es, e, before, open);
      groups, last := before, open + [e];
    }
  }

  lemma OpenHolds(p: nat, sent: seq<Bytes>, open: Option<Bytes>, es: seq<Entry>,
                  groups: seq<seq<Entry>>, last: seq<Entry>)
    requires PackedAs(p, sent, open, es, groups, last) && last != []
    ensures open.Some? && |open.value| == 3 + |EncodeAll(last)|
  {
  }

  lemma OneMoreBlock(p: nat, sent: seq<Bytes>, block: Bytes, es: seq<Entry>, e: Entry,
                     before: seq<seq<Entry>>, open: seq<Entry>)
    requires PackedAs(p, sent, Some(block), es, before, open) && Tight(p, before + [open])
    requires 3 <= |block| && |block| + |Encode(e)| > 3 + p && |Encode(e)| <= p
    ensures PackedAs(p, sent + [Finish(block, true, true)], Some([0x00, 0x00, 0xC0] + Encode(e)), es + [e],
                     before + [open], [e])
    ensures Tight(p, before + [open] + [[e]])
  {
    PackedFinish(p, sent, block, es, before, open);
    hide Encode;
    EmptyBlock();
    PackedAppend(p, sent + [Finish(block, true, true)], Some(EMPTY_BLOCK), es, before + [open], [], e);
    assert [] + [e] == [e];
  }

  lemma SameBlock(p: nat, sent: seq<Bytes>, block: Bytes, es: seq<Entry>, e: Entry,
                  before: seq<seq<Entry>>, open: seq<Entry>)
    requires PackedAs(p, sent, Some(block), es, before, open) && Tight(p, before + [open])
    requires |block| + |Encode(e)| <= 3 + p && open != []
    ensures PackedAs(p, sent, Some(block + Encode(e)), es + [e], before, open + [e])
    ensures Tight(p, before + [open + [e]])
  {
    hide Encode;
    PackedAppend(p, sent, Some(block), es, before, open, e);
    assert block + Encode(e) == Unfinished(0, true, true, EncodeAll(open) + Encode(e));
    TightGrows(p, before, open, e);
  }

  lemma TightGrows(p: nat, before: seq<seq<Entry>>, open: seq<Entry>, e: Entry)
    requires Tight(p, before + [open]) && open != []
    ensures Tight(p, before + [open + [e]])
  {
    hide Encode, EncodeAll;
    var was, groups := before + [open], before + [open + [e]];
    forall i | 1 <= i < |groups|
      ensures groups[i] != [] && |EncodeAll(groups[i - 1])| + |Encode(groups[i][0])| > p
    {
      assert was[i] != [] && groups[i][0] == was[i][0] && groups[i - 1] == was[i - 1];
    }
  }

  lemma {:induction false} WritesSnoc(es: seq<Entry>, e: Entry)
    ensures Writes(es + [e]) == Writes(es) + [DoWrite(e, Luck(true, true, true))]
  {
    if es == [] {
      assert [] + [e] == [e] && [e][1..] == [];
    } else {
      HeadTail(es, [e]);
      WritesSnoc(es[1..], e);
    }
  }

  lemma {:induction false} RunSnoc(p: nat, open: Option<Bytes>, calls: seq<Call>, c: Call)
    requires BlockFits(p, open)
    ensures var r := Run(p, open, calls);
            && BlockFits(p, r.0)
            && Run(p, open, calls + [c]) == (Step(p, r.0, c).open, r.1 + Step(p, r.0, c).sent)
    decreases |calls|
  {
    hide Step;
    if calls == [] {
      var s := Step(p, open, c);
      assert [] + [c] == [c] && [c][1..] == [] && Run(p, s.open, []) == (s.open, []);
      assert s.sent + [] == s.sent && [] + s.sent == s.sent;
    } else {
      HeadTail(calls, [c]);
      var first := Step(p, open, calls[0]);
      RunSnoc(p, first.open, calls[1..], c);
      var r := Run(p, first.open, calls[1..]);
      Assoc(first.sent, r.1, Step(p, r.0, c).sent);
    }
  }
}
