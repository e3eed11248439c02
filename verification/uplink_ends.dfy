/** How a pouch ends (src/uplink.c): what a close leaves waiting, and what a finish throws away. */
module UplinkEnds {
  import opened Wire
  import opened Cipher
  import opened Uplink

  // ---- finish

  // The finish frees what the transport has not pulled
  lemma FinishFrees<S>(c: Cipher<S>, h: History<S>)
    requires Inv(c, h) && h.u.active
    ensures var s, h' := Last(h.sessions), Step(c, h, DoFinish);
            && h'.sessions == h.sessions && h'.u.processing == h.u.processing && Available(h'.u) == []
            && Inv(c, h') && !h'.u.active
            && s.pulled + Available(h.u) == OnTheWire(c, s)
  {
    StepKeeps(c, h, DoFinish);
  }

  // A session that is finished stays incomplete for ever, whatever is called later, unless nothing was left
  // to pull: the finish loses nothing of it if and only if all of its bytes had been pulled
  lemma FinishLosesNothingIff<S>(c: Cipher<S>, h: History<S>, actions: seq<Action<S>>)
    requires Inv(c, h) && h.u.active
    ensures var k, h' := |h.sessions| - 1, Run(c, Step(c, h, DoFinish), actions);
            && 0 <= k < |h'.sessions| && h'.sessions[k] == h.sessions[k]
            && (h'.sessions[k].pulled == OnTheWire(c, h'.sessions[k]) <==> Available(h.u) == [])
  {
    FinishFrees(c, h);
    hide Inv, Step, Run, Available, OnTheWire;
    EarlierSessionsStay(c, Step(c, h, DoFinish), actions, |h.sessions| - 1);
  }

  // A session that is over stays as it is
  lemma {:induction false} EarlierSessionsStay<S>(c: Cipher<S>, h: History<S>, actions: seq<Action<S>>, k: nat)
    requires Inv(c, h) && k < |h.sessions| && (h.u.active ==> k < |h.sessions| - 1)
    ensures k < |Run(c, h, actions).sessions| && Run(c, h, actions).sessions[k] == h.sessions[k]
    decreases |actions|
  {
    if actions != [] {
      StepStays(c, h, actions[0], k);
      StepKeeps(c, h, actions[0]);
      hide Inv, Step;
      EarlierSessionsStay(c, Step(c, h, actions[0]), actions[1..], k);
    }
  }

  lemma StepStays<S>(c: Cipher<S>, h: History<S>, a: Action<S>, k: nat)
    requires Inv(c, h) && k < |h.sessions| && (h.u.active ==> k < |h.sessions| - 1)
    ensures var h' := Step(c, h, a);
            && k < |h'.sessions| && h'.sessions[k] == h.sessions[k]
            && (h'.u.active ==> k < |h'.sessions| - 1)
  {
    if !h.u.active && !a.DoStart? {
      StepEnded(c, h, a);
    } else if a.DoWork? {
      WorkActive(c, h.u.(pending := false));
    }
    hide Inv, ProcessLoop, FillLoop;
  }

  lemma {:induction false} WorkActive<S>(c: Cipher<S>, u: State<S>)
    ensures ProcessLoop(c, u).active == u.active && ProcessLoop(c, u).closing == u.closing
    ensures ProcessLoop(c, u).closed == u.closed
    decreases |u.processing|
  {
    if u.active && !u.closed && u.processing != [] { WorkActive(c, ProcessTurn(c, u)); }
  }

  // A block that was accepted, moved to the transport queue, and freed there
  lemma FinishLosesBlock(header: Bytes, block: Bytes)
    ensures var h := Run(Plain(), Boot(()), [DoEnqueue(block), DoStart(true, Some(header), ()), DoWork, DoFinish]);
            && h.enqueued == [block] && h.sessions == [Session(header, (), [block], [])]
            && h.u.processing == [] && h.u.transport == [] && h.u.reader == NoReader && h.u.header == None
  {
    var c := Plain();
    var h0 := Boot(());
    var h1 := Step(c, h0, DoEnqueue(block));
    var h2 := Step(c, h1, DoStart(true, Some(header), ()));
    var h3 := Step(c, h2, DoWork);
    assert h1.u.processing == [block] && h1.enqueued == [block];
    assert h2.sessions == [Session(header, (), [], [])];
    OneTurn(h2.u.(pending := false), block);
    assert [block][..1] == [block] && [] + [block] == [block];
    assert h3.sessions == [Session(header, (), [block], [])];
    RunFour(c, h0, DoEnqueue(block), DoStart(true, Some(header), ()), DoWork, DoFinish);
  }

  lemma OneTurn(u: State<()>, block: Bytes)
    requires u.active && !u.closed && u.processing == [block]
    ensures ProcessLoop(Plain(), u).processing == [] && !ProcessLoop(Plain(), u).closing == !u.closing
    ensures ProcessLoop(Plain(), u).closed == u.closed
  {
    assert [block][1..] == [];
    var v := ProcessTurn(Plain(), u);
    assert v.processing == [] && ProcessLoop(Plain(), v) == v;
  }

  lemma RunFour<S>(c: Cipher<S>, h: History<S>, a1: Action<S>, a2: Action<S>, a3: Action<S>, a4: Action<S>)
    ensures Run(c, h, [a1, a2, a3, a4]) == Step(c, Step(c, Step(c, Step(c, h, a1), a2), a3), a4)
  {
    hide Step;
    assert [a1, a2, a3, a4][1..] == [a2, a3, a4] && [a2, a3, a4][1..] == [a3, a4];
    assert [a3, a4][1..] == [a4] && [a4][1..] == [];
    var h1 := Step(c, h, a1);
    var h2 := Step(c, h1, a2);
    var h3 := Step(c, h2, a3);
    assert Run(c, h3, [a4]) == Run(c, Step(c, h3, a4), []);
    assert Run(c, h2, [a3, a4]) == Run(c, h3, [a4]);
    assert Run(c, h1, [a2, a3, a4]) == Run(c, h2, [a3, a4]);
    assert Run(c, h, [a1, a2, a3, a4]) == Run(c, h1, [a2, a3, a4]);
  }

  // For the next session everything is as at power-up, but for the counter of the sessions, the blocks
  // that were not processed and their handler, and what was emitted and sealed before
  lemma FinishReopens<S>(u: State<S>)
    ensures Finish(u) == State(None, false, false, false, (u.id + 1) % 0x1_0000_0000, u.processing, u.pending,
                               [], NoReader, u.crypto, u.events + (if u.active then [SessionEnd] else []))
  {
  }

  // so the next session takes everything along that was left waiting, however the last one ended
  lemma NextSessionTakesAll<S>(c: Cipher<S>, h: History<S>, header: Bytes, crypto: S)
    requires Inv(c, h)
    ensures var h' := Step(c, Step(c, Step(c, h, DoFinish), DoStart(true, Some(header), crypto)), DoWork);
            && h'.u.active && !h'.u.closing && !h'.u.closed && h'.u.processing == []
            && h'.sessions == h.sessions + [Session(header, crypto, h.u.processing, [])]
  {
    var h1 := Step(c, h, DoFinish);
    StepKeeps(c, h, DoFinish);
    hide Inv;
    TakesAll(c, h1, header, crypto);
  }

  lemma TakesAll<S>(c: Cipher<S>, h: History<S>, header: Bytes, crypto: S)
    requires !h.u.active && !h.u.closed
    ensures var h' := Step(c, Step(c, h, DoStart(true, Some(header), crypto)), DoWork);
            && h'.u.active && h'.u.closing == h.u.closing && h'.u.processing == []
            && h'.u.closed == h.u.closing
            && h'.sessions == h.sessions + [Session(header, crypto, h.u.processing, [])]
  {
    var h1 := Step(c, h, DoStart(true, Some(header), crypto));
    ProcessAll(c, h1.u.(pending := false));
    hide ProcessLoop, SealAll;
    assert h1.sessions[..|h1.sessions| - 1] == h.sessions;
    assert [] + h.u.processing == h.u.processing && h.u.processing[..|h.u.processing|] == h.u.processing;
  }

  // and when it is closed then, a fill that asks for more than there is gives all of it and ends the session
  lemma NextSessionSendsAll<S>(c: Cipher<S>, h: History<S>, header: Bytes, crypto: S, n: nat)
    requires Inv(c, h)
    requires |OnTheWire(c, Session(header, crypto, h.u.processing, []))| < n
    ensures var h' := Step(c, Step(c, Step(c, h, DoFinish), DoStart(true, Some(header), crypto)), DoWork);
            var h2 := Step(c, Step(c, h', DoClose(None)), DoWork);
            && Fill(h2.u, n).result == NoMoreData
            && Fill(h2.u, n).out == OnTheWire(c, Session(header, crypto, h.u.processing, []))
  {
    var h1 := Step(c, h, DoFinish);
    var h2 := Step(c, h1, DoStart(true, Some(header), crypto));
    var h3 := Step(c, h2, DoWork);
    var h4 := Step(c, h3, DoClose(None));
    var h5 := Step(c, h4, DoWork);
    StepKeeps(c, h, DoFinish);
    StepKeeps(c, h1, DoStart(true, Some(header), crypto));
    StepKeeps(c, h2, DoWork);
    StepKeeps(c, h3, DoClose(None));
    StepKeeps(c, h4, DoWork);
    NextSessionTakesAll(c, h, header, crypto);
    ClosesEmpty(c, h3);
    hide Inv, Step, Fill, OnTheWire;
    FillDelivers(c, h5, n);
    FillPulls(c, h5, n);
  }

  lemma ClosesEmpty<S>(c: Cipher<S>, h: History<S>)
    requires h.u.active && !h.u.closing && !h.u.closed && h.u.processing == [] && h.sessions != []
    ensures var h' := Step(c, Step(c, h, DoClose(None)), DoWork);
            h'.u.active && h'.u.closed && h'.sessions == h.sessions
  {
    var last := Last(h.sessions);
    assert SetLast(h.sessions, last) == h.sessions && last.moved + [] == last.moved;
  }

  lemma FillPulls<S>(c: Cipher<S>, h: History<S>, n: nat)
    requires h.sessions != []
    ensures Last(Step(c, h, DoFill(n)).sessions).pulled == Last(h.sessions).pulled + Fill(h.u, n).out
  {
    hide Fill;
  }

  // ---- results of the calls

  // A start succeeds exactly outside a session, when the crypto layer is set up and the header is there
  lemma StartsIff<S>(u: State<S>, setup: bool, header: Option<Bytes>, crypto: S)
    ensures var u' := Start(u, setup, header, crypto);
            && (u'.active && !u.active <==> !u.active && setup && header.Some?)
            && (u.active || !setup ==> u' == u)
            && (!u.active && setup ==> u'.header == header)
            && (!u.active && setup && header.Some? ==>
                  && u'.crypto == crypto && u'.events == u.events + [SessionStart]
                  && u'.processing == u.processing && u'.closed == u.closed && u'.closing == u.closing)
            && (!u'.active ==> u'.events == u.events && u'.processing == u.processing)
  {
  }

  // A fill is an error exactly outside a session, and then does nothing
  lemma FillErrorIff<S>(u: State<S>, n: nat)
    ensures Fill(u, n).result == Error <==> !u.active
    ensures !u.active ==> Fill(u, n).state == u && Fill(u, n).out == []
    ensures Fill(u, n).state.active <==> Fill(u, n).result == MoreData
  {
    hide FillLoop;
  }

  // The handler does not schedule itself
  lemma WorkRests<S>(c: Cipher<S>, u: State<S>)
    ensures !Work(c, u).pending
  {
    LoopRests(c, u.(pending := false));
    hide ProcessLoop;
  }

  lemma {:induction false} LoopRests<S>(c: Cipher<S>, u: State<S>)
    ensures ProcessLoop(c, u).pending == u.pending
    decreases |u.processing|
  {
    if u.active && !u.closed && u.processing != [] { LoopRests(c, ProcessTurn(c, u)); }
  }

  // ---- close

  // The blocks that calls put on the processing queue of a pouch that is closing
  function Enqueued<S>(actions: seq<Action<S>>): seq<Bytes> {
    if actions == [] then []
    else (if actions[0].DoEnqueue? then [actions[0].block] else []) + Enqueued(actions[1..])
  }

  // The handler run that closes the pouch takes everything along, if it runs inside a session; outside
  // of one it takes nothing
  lemma ClosingRun<S>(c: Cipher<S>, u: State<S>)
    requires u.closing && !u.closed
    ensures Work(c, u).closed && Work(c, u).closing
    ensures Work(c, u).processing == if u.active then [] else u.processing
  {
    WorkActive(c, u.(pending := false));
    if u.active { ProcessAll(c, u.(pending := false)); }
    hide SealAll;
  }

  // Until the finish, what is enqueued in a closed pouch waits
  lemma {:induction false} ClosedWaits<S>(c: Cipher<S>, h: History<S>, actions: seq<Action<S>>)
    requires h.u.closed && h.u.closing && forall i | 0 <= i < |actions| :: !actions[i].DoFinish?
    ensures var h' := Run(c, h, actions);
            && h'.u.closed && h'.u.closing && h'.u.processing == h.u.processing + Enqueued(actions)
    decreases |actions|
  {
    if actions == [] {
      assert h.u.processing + [] == h.u.processing;
    } else {
      var a, h1 := actions[0], Step(c, h, actions[0]);
      assert !a.DoFinish?;
      var more := if a.DoEnqueue? then [a.block] else [];
      ClosedStep(c, h, a);
      hide Step;
      ClosedWaits(c, h1, actions[1..]);
      Assoc(h.u.processing, more, Enqueued(actions[1..]));
    }
  }

  lemma ClosedStep<S>(c: Cipher<S>, h: History<S>, a: Action<S>)
    requires h.u.closed && h.u.closing && !a.DoFinish?
    ensures var u := Step(c, h, a).u;
            u.closed && u.closing && u.processing == h.u.processing + (if a.DoEnqueue? then [a.block] else [])
  {
    assert h.u.processing + [] == h.u.processing;
    hide FillLoop;
  }

  // At the end of a closed pouch nothing is left waiting if and only if nothing was enqueued after the
  // handler run that closed it, and that run was inside a session or had nothing to do
  lemma NothingWaitsIff<S>(c: Cipher<S>, h: History<S>, actions: seq<Action<S>>)
    requires h.u.closing && !h.u.closed && forall i | 0 <= i < |actions| :: !actions[i].DoFinish?
    ensures Run(c, Step(c, h, DoWork), actions).u.processing == []
            <==> Enqueued(actions) == [] && (h.u.active || h.u.processing == [])
  {
    ClosingRun(c, h.u);
    ClosedWaits(c, Step(c, h, DoWork), actions);
  }

  // A session that is started with the pouch closed sends nothing, whatever is queued
  lemma ClosedSendsNothing<S>(c: Cipher<S>, h: History<S>, header: Bytes, crypto: S, actions: seq<Action<S>>)
    requires Inv(c, h) && h.u.closed && !h.u.active
    requires forall i | 0 <= i < |actions| :: !actions[i].DoFinish? && !actions[i].DoStart?
    ensures var h' := Run(c, Step(c, h, DoStart(true, Some(header), crypto)), actions);
            h'.sessions == h.sessions + [Session(header, crypto, [], [])]
  {
    hide Inv, Step, Run, Available;
    StepKeeps(c, h, DoStart(true, Some(header), crypto));
    StartsClosed(c, h, header, crypto);
    NothingMoves(c, Step(c, h, DoStart(true, Some(header), crypto)), actions);
  }

  lemma StartsClosed<S>(c: Cipher<S>, h: History<S>, header: Bytes, crypto: S)
    requires Inv(c, h) && h.u.closed && !h.u.active
    ensures var h1 := Step(c, h, DoStart(true, Some(header), crypto));
            && h1.u.closed && h1.sessions == h.sessions + [Session(header, crypto, [], [])]
            && (Inv(c, h1) ==> Available(h1.u) == [])
  {
    var h1 := Step(c, h, DoStart(true, Some(header), crypto));
    assert Last(h1.sessions) == Session(header, crypto, [], []);
  }

  lemma {:induction false} NothingMoves<S>(c: Cipher<S>, h: History<S>, actions: seq<Action<S>>)
    requires Inv(c, h) && h.u.closed && h.sessions != [] && Available(h.u) == []
    requires forall i | 0 <= i < |actions| :: !actions[i].DoFinish? && !actions[i].DoStart?
    ensures Run(c, h, actions).sessions == h.sessions
    decreases |actions|
  {
    if actions != [] {
      var a := actions[0];
      assert !a.DoFinish? && !a.DoStart?;
      StepKeeps(c, h, a);
      NothingMovesNow(c, h, a);
      hide Step, Inv, Available;
      NothingMoves(c, Step(c, h, a), actions[1..]);
    }
  }

  lemma NothingMovesNow<S>(c: Cipher<S>, h: History<S>, a: Action<S>)
    requires Inv(c, h) && h.u.closed && h.sessions != [] && Available(h.u) == [] && !a.DoFinish? && !a.DoStart?
    ensures var h' := Step(c, h, a); h'.sessions == h.sessions && h'.u.closed && Available(h'.u) == []
  {
    var last := Last(h.sessions);
    assert SetLast(h.sessions, last) == h.sessions && last.moved + [] == last.moved && last.pulled + [] == last.pulled;
    if a.DoFill? {
      FillTakes(h.u.reader, h.u.transport, a.n);
      hide FillLoop, Flatten;
    } else if a.DoWork? {
      WorkIdle(c, h);
    }
  }

  // With a block waiting, a close before the session starts: the session ends at its first fill, and the
  // block is still waiting
  lemma ClosedBeforeStart(header: Bytes, block: Bytes, n: nat)
    ensures var h := Run(Plain(), Boot(()), [DoEnqueue(block), DoClose(None), DoWork, DoStart(true, Some(header), ())]);
            var h' := Step(Plain(), Step(Plain(), h, DoWork), DoFill(n));
            && Fill(Step(Plain(), h, DoWork).u, n).result == NoMoreData
            && h'.u.processing == [block] && h'.sessions == [Session(header, (), [], [])] && !h'.u.active
  {
    var c := Plain();
    var start := DoStart(true, Some(header), ());
    var h1 := Step(c, Boot(()), DoEnqueue(block));
    var h2 := Step(c, h1, DoClose(None));
    RunFour(c, Boot(()), DoEnqueue(block), DoClose(None), DoWork, start);
    ClosingRun(c, h2.u);
    var h3 := Step(c, h2, DoWork);
    var h4 := Step(c, h3, start);
    BootInv(c, ());
    StepKeeps(c, Boot(()), DoEnqueue(block));
    StepKeeps(c, h1, DoClose(None));
    StepKeeps(c, h2, DoWork);
    assert h2.u.processing == [block] && !h3.u.active && h3.sessions == [];
    assert Inv(c, h3) && h3.u.closed;
    hide Work, ProcessLoop;
    ClosedEnds(c, h3, start, n);
    assert [] + [Session(header, (), [], [])] == [Session(header, (), [], [])];
  }

  // whatever came before
  lemma ClosedEnds<S>(c: Cipher<S>, h: History<S>, start: Action<S>, n: nat)
    requires Inv(c, h) && h.u.closed && !h.u.active && start.DoStart? && start.setup && start.header.Some?
    ensures var h1 := Step(c, Step(c, h, start), DoWork);
            var h2 := Step(c, h1, DoFill(n));
            && Fill(h1.u, n).result == NoMoreData && !h2.u.active && h2.u.processing == h.u.processing
            && h2.sessions == h.sessions + [Session(start.header.value, start.crypto, [], [])]
  {
    hide Inv, Step, Fill;
    StartsEmpty(c, h, start);
    var h0 := Step(c, h, start);
    IdleRun(c, h0);
    LastFill(c, Step(c, h0, DoWork), n);
  }

  lemma StartsEmpty<S>(c: Cipher<S>, h: History<S>, start: Action<S>)
    requires Inv(c, h) && h.u.closed && !h.u.active && start.DoStart? && start.setup && start.header.Some?
    ensures var h' := Step(c, h, start);
            && h'.u.active && h'.u.closed && h'.u.reader == NoReader && h'.u.transport == []
            && h'.u.processing == h.u.processing
            && h'.sessions == h.sessions + [Session(start.header.value, start.crypto, [], [])]
  {
  }

  lemma IdleRun<S>(c: Cipher<S>, h: History<S>)
    requires h.u.closed && h.sessions != []
    ensures var h' := Step(c, h, DoWork);
            && h'.u == h.u.(pending := false) && h'.sessions == h.sessions
  {
    var last := Last(h.sessions);
    assert SetLast(h.sessions, last) == h.sessions && last.moved + [] == last.moved;
  }

  lemma LastFill<S>(c: Cipher<S>, h: History<S>, n: nat)
    requires h.u.active && h.u.closed && h.u.reader == NoReader && h.u.transport == [] && h.sessions != []
    ensures Fill(h.u, n).result == NoMoreData
    ensures var h' := Step(c, h, DoFill(n));
            !h'.u.active && h'.u.processing == h.u.processing && h'.sessions == h.sessions
  {
    var last := Last(h.sessions);
    NothingToFill(h.u.reader, h.u.transport, n);
    hide FillLoop;
    assert SetLast(h.sessions, last) == h.sessions && last.pulled + [] == last.pulled;
  }

  lemma NothingToFill(reader: Reader, transport: seq<Bytes>, n: nat)
    requires reader == NoReader && transport == []
    ensures FillLoop(reader, transport, n) == Filled(NoReader, [], [])
  {
  }

  // ---- start

  // Without a finish between them, a second start overwrites the header of a session that sent nothing
  lemma HeaderOverwritten(first: Bytes, second: Bytes)
    ensures var h := Run(Plain(), Boot(()), [DoStart(true, Some(first), ()), DoClose(None), DoWork, DoFill(1)]);
            && h.u.header == Some(first) && !h.u.active
            && Step(Plain(), h, DoStart(true, Some(second), ())).u.header == Some(second)
  {
    var c := Plain();
    var h1 := Step(c, Boot(()), DoStart(true, Some(first), ()));
    var h2 := Step(c, h1, DoClose(None));
    var h3 := Step(c, h2, DoWork);
    RunFour(c, Boot(()), DoStart(true, Some(first), ()), DoClose(None), DoWork, DoFill(1));
    assert h3.u.closed && h3.u.active && h3.u.header == Some(first);
    assert FillLoop(NoReader, [], 1) == Filled(NoReader, [], []);
  }
}
