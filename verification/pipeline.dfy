/** The two work queues behind the reassembler (src/downlink.c): decrypt, then consume. */
module Pipeline {
  import opened Wire
  import opened Cipher

  // delivered: the blocks given to pouch_downlink_block_push so far
  datatype Pipe<S> = Pipe(
    decryptQueue: seq<Bytes>, decryptPending: bool,
    consumeQueue: seq<Bytes>, consumePending: bool,
    crypto: S, delivered: seq<Bytes>)

  function Init<S>(s: S): Pipe<S> {
    Pipe([], false, [], false, s, [])
  }

  // block_downlink_push
  function Submit<S>(q: Pipe<S>, block: Bytes): Pipe<S> {
    q.(decryptQueue := q.decryptQueue + [block], decryptPending := true)
  }

  // decrypt_blocks. It resubmits itself only after a block it could decrypt.
  function Decrypt<S>(c: Cipher<S>, q: Pipe<S>): Pipe<S> {
    if q.decryptQueue == [] then q.(decryptPending := false)
    else
      var (s, block) := c.open(q.crypto, q.decryptQueue[0]);
      var q1 := q.(decryptQueue := q.decryptQueue[1..], decryptPending := false, crypto := s);
      match block
      case None => q1
      case Some(b) =>
        q1.(consumeQueue := q.consumeQueue + [b], consumePending := true,
            decryptPending := q1.decryptQueue != [])
  }

  // consume_blocks
  function Consume<S>(q: Pipe<S>): Pipe<S> {
    if q.consumeQueue == [] then q.(consumePending := false)
    else
      q.(delivered := q.delivered + [q.consumeQueue[0]], consumeQueue := q.consumeQueue[1..],
         consumePending := q.consumeQueue[1..] != [])
  }

  datatype Action = DoSubmit(block: Bytes) | DoDecrypt | DoConsume

  // The work queue runs a handler only when it was submitted
  function Step<S>(c: Cipher<S>, q: Pipe<S>, a: Action): Pipe<S> {
    match a
    case DoSubmit(block) => Submit(q, block)
    case DoDecrypt => if q.decryptPending then Decrypt(c, q) else q
    case DoConsume => if q.consumePending then Consume(q) else q
  }

  function Run<S>(c: Cipher<S>, q: Pipe<S>, actions: seq<Action>): Pipe<S>
    decreases |actions|
  {
    if actions == [] then q else Run(c, Step(c, q, actions[0]), actions[1..])
  }

  function Submitted(actions: seq<Action>): seq<Bytes> {
    if actions == [] then []
    else (if actions[0].DoSubmit? then [actions[0].block] else []) + Submitted(actions[1..])
  }

  // Delivered, then waiting, is exactly what the decrypted part of the submitted blocks opens to;
  // a handler is never run on an empty queue, and the consumer is never left asleep
  ghost predicate Inv<S>(c: Cipher<S>, s: S, taken: seq<Bytes>, q: Pipe<S>) {
    && OpenAll(c, s, taken) == (q.crypto, q.delivered + q.consumeQueue)
    && (q.decryptPending ==> q.decryptQueue != [])
    && (q.consumePending <==> q.consumeQueue != [])
  }

  // Every block from here on opens
  ghost predicate Opens<S>(c: Cipher<S>, s: S, blocks: seq<Bytes>)
  {
    |OpenAll<S>(c, s, blocks).1| == |blocks|
  }

  lemma {:induction false} OpenAllAtMost<S>(c: Cipher<S>, s: S, blocks: seq<Bytes>)
    ensures |OpenAll(c, s, blocks).1| <= |blocks|
    decreases |blocks|
  {
    if blocks != [] { OpenAllAtMost(c, c.open(s, blocks[0]).0, blocks[1..]); }
  }

  lemma DecryptKeeps<S>(c: Cipher<S>, s: S, taken: seq<Bytes>, q: Pipe<S>)
    requires Inv(c, s, taken, q) && q.decryptQueue != []
    ensures Inv(c, s, taken + [q.decryptQueue[0]], Decrypt(c, q))
    ensures Decrypt(c, q).decryptPending
            <==> c.open(q.crypto, q.decryptQueue[0]).1.Some? && |q.decryptQueue| > 1
  {
    var b := q.decryptQueue[0];
    var (s', x) := c.open(q.crypto, b);
    OpenAllConcat(c, s, taken, [b]);
    var out := if x.Some? then [x.value] else [];
    assert OpenAll(c, q.crypto, [b]) == (s', out) by {
      var one: seq<Bytes> := [b];
      assert one[1..] == [] && out + [] == out;
    }
    Assoc(q.delivered, q.consumeQueue, out);
    assert q.delivered + q.consumeQueue + [] == q.delivered + q.consumeQueue;
  }

  lemma ConsumeKeeps<S>(c: Cipher<S>, s: S, taken: seq<Bytes>, q: Pipe<S>)
    requires Inv(c, s, taken, q) && q.consumeQueue != []
    ensures Inv(c, s, taken, Consume(q))
  {
    Shift(q.delivered, q.consumeQueue);
  }

  lemma Shift<T>(a: seq<T>, b: seq<T>)
    requires b != []
    ensures a + [b[0]] + b[1..] == a + b
  {
  }

  // For every interleaving of pushes and handler runs, whatever the decryptions do
  lemma {:induction false} RunKeeps<S>(c: Cipher<S>, s: S, taken: seq<Bytes>, q: Pipe<S>, actions: seq<Action>)
    returns (taken': seq<Bytes>)
    requires Inv(c, s, taken, q)
    ensures var q' := Run(c, q, actions);
            && Inv(c, s, taken', q')
            && taken' + q'.decryptQueue == taken + q.decryptQueue + Submitted(actions)
    decreases |actions|
  {
    if actions == [] {
      taken' := taken;
      assert taken + q.decryptQueue + [] == taken + q.decryptQueue;
    } else {
      var a, q1, rest := actions[0], Step(c, q, actions[0]), Submitted(actions[1..]);
      match a
      case DoSubmit(block) =>
        taken' := RunKeeps(c, s, taken, q1, actions[1..]);
        Assoc(taken, q.decryptQueue, [block]);
        Assoc(taken + q.decryptQueue, [block], rest);
      case DoDecrypt =>
        var taken1 := taken;
        if q.decryptPending {
          DecryptKeeps(c, s, taken, q);
          taken1 := taken + [q.decryptQueue[0]];
          Shift(taken, q.decryptQueue);
        }
        taken' := RunKeeps(c, s, taken1, q1, actions[1..]);
        assert [] + rest == rest;
      case DoConsume =>
        if q.consumePending { ConsumeKeeps(c, s, taken, q); }
        taken' := RunKeeps(c, s, taken, q1, actions[1..]);
        assert [] + rest == rest;
    }
  }

  // ---- progress, when every decryption succeeds

  // The handlers are scheduled exactly when their queues have blocks
  ghost predicate Awake<S>(q: Pipe<S>) {
    (q.decryptPending <==> q.decryptQueue != []) && (q.consumePending <==> q.consumeQueue != [])
  }

  // and every block that waits opens
  ghost predicate Live<S>(c: Cipher<S>, q: Pipe<S>) {
    Awake(q) && Opens<S>(c, q.crypto, q.decryptQueue)
  }

  function Measure<S>(q: Pipe<S>): nat {
    2 * |q.decryptQueue| + |q.consumeQueue|
  }

  predicate Enabled<S>(q: Pipe<S>, a: Action) {
    (a.DoDecrypt? && q.decryptPending) || (a.DoConsume? && q.consumePending)
  }

  lemma HandlerProgress<S>(c: Cipher<S>, q: Pipe<S>, a: Action)
    requires Live(c, q) && Enabled(q, a)
    ensures Live(c, Step(c, q, a)) && Measure(Step(c, q, a)) == Measure(q) - 1
  {
    if a.DoDecrypt? {
      var (s, x) := c.open(q.crypto, q.decryptQueue[0]);
      OpenAllAtMost(c, s, q.decryptQueue[1..]);
    }
  }

  // No lost wake-up: from a state like that, whatever is submitted and whichever handlers run in between,
  // as long as every block opens
  lemma {:induction false} RunLive<S>(c: Cipher<S>, q: Pipe<S>, actions: seq<Action>)
    requires Awake(q) && Opens<S>(c, q.crypto, q.decryptQueue + Submitted(actions))
    ensures Live(c, Run(c, q, actions))
    decreases |actions|
  {
    if actions == [] {
      assert q.decryptQueue + [] == q.decryptQueue;
    } else {
      var a, rest := actions[0], Submitted(actions[1..]);
      assert [] + rest == rest;
      if a.DoSubmit? {
        Assoc(q.decryptQueue, [a.block], rest);
      } else if a.DoDecrypt? && q.decryptPending {
        FirstOpens(c, q, rest);
      }
      hide Opens;
      RunLive(c, Step(c, q, a), actions[1..]);
    }
  }

  lemma FirstOpens<S>(c: Cipher<S>, q: Pipe<S>, rest: seq<Bytes>)
    requires q.decryptQueue != [] && Opens<S>(c, q.crypto, q.decryptQueue + rest)
    ensures var (s, x) := c.open(q.crypto, q.decryptQueue[0]);
            x.Some? && Opens<S>(c, s, q.decryptQueue[1..] + rest)
  {
    var all := q.decryptQueue + rest;
    HeadTail(q.decryptQueue, rest);
    OpenAllAtMost(c, c.open(q.crypto, all[0]).0, all[1..]);
  }

  // From such a state any schedule of submitted handlers is finite, and when nothing is left to run everything that
  // was emitted has been delivered, in order
  lemma {:induction false} Quiesces<S>(c: Cipher<S>, s: S, taken: seq<Bytes>, q: Pipe<S>, schedule: seq<Action>)
    requires Inv(c, s, taken, q) && Live(c, q)
    requires forall i | 0 <= i < |schedule| :: Enabled(Run(c, q, schedule[..i]), schedule[i])
    ensures var q' := Run(c, q, schedule);
            && |schedule| + Measure(q') == Measure(q)
            && (!q'.decryptPending && !q'.consumePending
                ==> q'.delivered == OpenAll(c, s, taken + q.decryptQueue).1)
    decreases |schedule|
  {
    if schedule == [] {
      assert taken + [] == taken;
      assert !q.consumePending ==> q.delivered + q.consumeQueue == q.delivered;
    } else {
      var a, q1 := schedule[0], Step(c, q, schedule[0]);
      assert Run(c, q, schedule[..0]) == q;
      HandlerProgress(c, q, a);
      forall i | 0 <= i < |schedule| - 1
        ensures Enabled(Run(c, q1, schedule[1..][..i]), schedule[1..][i])
      {
        RunCons(c, q, schedule, i);
      }
      if a.DoDecrypt? {
        DecryptKeeps(c, s, taken, q);
        Quiesces(c, s, taken + [q.decryptQueue[0]], q1, schedule[1..]);
        Shift(taken, q.decryptQueue);
      } else {
        ConsumeKeeps(c, s, taken, q);
        Quiesces(c, s, taken, q1, schedule[1..]);
      }
    }
  }

  // From power-up: after any pushes and handler runs, any schedule of submitted handlers is finite, and
  // it has delivered everything that was pushed, in order, exactly when no handler is left to run
  lemma AllDelivered<S>(c: Cipher<S>, s: S, actions: seq<Action>, schedule: seq<Action>)
    requires Opens<S>(c, s, Submitted(actions))
    requires var q := Run(c, Init(s), actions);
             forall i | 0 <= i < |schedule| :: Enabled(Run(c, q, schedule[..i]), schedule[i])
    ensures var q := Run(c, Init(s), actions);
            var q' := Run(c, q, schedule);
            && |schedule| + Measure(q') == Measure(q)
            && (!q'.decryptPending && !q'.consumePending <==> |schedule| == Measure(q))
            && (!q'.decryptPending && !q'.consumePending
                ==> q'.delivered == OpenAll(c, s, Submitted(actions)).1 && |q'.delivered| == |Submitted(actions)|)
  {
    var q := Run(c, Init(s), actions);
    var none: seq<Bytes> := [];
    assert none + Submitted(actions) == Submitted(actions) && none + none == none;
    assert Inv(c, s, none, Init(s));
    RunLive(c, Init(s), actions);
    var taken := RunKeeps(c, s, none, Init(s), actions);
    Quiesces(c, s, taken, q, schedule);
    ScheduleLive(c, q, schedule);
  }

  lemma {:induction false} ScheduleLive<S>(c: Cipher<S>, q: Pipe<S>, schedule: seq<Action>)
    requires Live(c, q) && forall i | 0 <= i < |schedule| :: Enabled(Run(c, q, schedule[..i]), schedule[i])
    ensures Live(c, Run(c, q, schedule))
    decreases |schedule|
  {
    if schedule != [] {
      assert Run(c, q, schedule[..0]) == q;
      HandlerProgress(c, q, schedule[0]);
      forall i | 0 <= i < |schedule| - 1
        ensures Enabled(Run(c, Step(c, q, schedule[0]), schedule[1..][..i]), schedule[1..][i])
      {
        RunCons(c, q, schedule, i);
      }
      ScheduleLive(c, Step(c, q, schedule[0]), schedule[1..]);
    }
  }

  function Refusing(bad: Bytes): Cipher<()> {
    Cipher((s, b) => (s, Some(b)), (s, b) => (s, if b == bad then None else Some(b)))
  }

  // When a block does not open, the handler does not schedule itself, and the next block is left waiting
  lemma LeftWaiting(bad: Bytes, good: Bytes)
    requires bad != good
    ensures var c := Refusing(bad);
            var q := Run(c, Init(()), [DoSubmit(bad), DoSubmit(good), DoDecrypt]);
            q.decryptQueue == [good] && !q.decryptPending && !q.consumePending && q.delivered == []
  {
    var c := Refusing(bad);
    var actions := [DoSubmit(bad), DoSubmit(good), DoDecrypt];
    assert actions[1..] == [DoSubmit(good), DoDecrypt] && actions[1..][1..] == [DoDecrypt];
    assert [DoDecrypt][1..] == [];
    var q1 := Submit(Init(()), bad);
    var q2 := Submit(q1, good);
    assert q2.decryptQueue == [bad, good] && q2.decryptQueue[1..] == [good];
    var q3 := Decrypt(c, q2);
    assert Run(c, q2, [DoDecrypt]) == Run(c, q3, []);
    assert Run(c, q1, [DoSubmit(good), DoDecrypt]) == Run(c, q2, [DoDecrypt]);
    assert Run(c, Init(()), actions) == Run(c, q1, [DoSubmit(good), DoDecrypt]);
  }

  lemma RunCons<S>(c: Cipher<S>, q: Pipe<S>, schedule: seq<Action>, i: nat)
    requires i + 1 < |schedule|
    ensures Run(c, q, schedule[..i + 1]) == Run(c, Step(c, q, schedule[0]), schedule[1..][..i])
    ensures schedule[1..][i] == schedule[i + 1]
  {
    assert schedule[..i + 1][1..] == schedule[1..][..i] && schedule[..i + 1][0] == schedule[0];
  }
}
