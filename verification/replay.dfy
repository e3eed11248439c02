/** Which downlink sessions the device accepts (src/saead/downlink.c, src/crypto_saead.c). */
module Replay {
  import opened Wire
  import opened Saead

  datatype IdValue =
    | Sequential(tag: Bytes, seqnum: nat)
    | Random(value: Bytes)

  datatype SessionId = SessionId(initiator: Role, value: IdValue)

  datatype Algorithm = ChaCha20Poly1305 | AesGcm

  // A session that was never started
  const ZeroId := SessionId(Device, Sequential([0, 0, 0, 0, 0, 0, 0, 0], 0))

  // The static session and the server record
  datatype State = State(
    valid: bool, active: bool, hasPouch: bool,
    id: SessionId, algorithm: Algorithm, pouch: nat,
    serverSeqnum: nat, serverPouch: nat)

  datatype Errno = Ok | EBADMSG | EIO | EBUSY

  function Init(): State {
    State(false, false, false, ZeroId, ChaCha20Poly1305, 0, 0, 0)
  }

  // A session whose sequence number protects it: the server started it and numbered it
  predicate Numbered(id: SessionId) {
    id.initiator == Server && id.value.Sequential?
  }

  // is_valid_downlink
  predicate IsValidDownlink(s: State, id: SessionId, algorithm: Algorithm) {
    if !s.valid then true
    else if s.id == id && s.algorithm != algorithm then false
    else if Numbered(id) && id.value.seqnum <= s.serverSeqnum then false
    else true
  }

  // saead_downlink_session_start. matches: the uplink session is valid and has this id, block size
  // and algorithm. keyed: the key could be copied or derived.
  function SessionStart(s: State, id: SessionId, algorithm: Algorithm, matches: bool, keyed: bool): (State, Errno) {
    if !IsValidDownlink(s, id, algorithm) then (s, EBADMSG)
    else if id.initiator == Device && (!id.value.Sequential? || !matches) then (s, EBADMSG)
    else if !keyed then (s, EIO)
    else
      (s.(valid := false, active := true, hasPouch := false, id := id, algorithm := algorithm, pouch := 0), Ok)
  }

  // saead_downlink_pouch_start
  function PouchStart(s: State, pouch: nat): (State, Errno) {
    if s.hasPouch && pouch <= s.serverPouch then (s, EBADMSG)
    else if !s.active then (s, EBUSY)
    else (s.(pouch := pouch), Ok)
  }

  // crypto_downlink_start
  function DownlinkStart(s: State, id: SessionId, algorithm: Algorithm, matches: bool, keyed: bool, pouch: nat)
    : (State, Errno)
  {
    var (s', err) := SessionStart(s, id, algorithm, matches, keyed);
    if err != Ok then (s', err) else PouchStart(s', pouch)
  }

  // saead_downlink_block_decrypt. ok: the block is genuine; without a session there is no key to
  // decrypt it with.
  function Decrypted(s: State, ok: bool): State {
    if !ok || !s.active then s
    else
      s.(valid := true, hasPouch := true, serverPouch := s.pouch,
         serverSeqnum := if Numbered(s.id) then s.id.value.seqnum else s.serverSeqnum)
  }

  // session_end destroys the key
  function End(s: State): State { s.(active := false) }

  datatype Action =
    | DoStart(id: SessionId, algorithm: Algorithm, matches: bool, keyed: bool, pouch: nat)
    | DoDecrypt(ok: bool)
    | DoEnd

  function Step(s: State, a: Action): State {
    match a
    case DoStart(id, algorithm, matches, keyed, pouch) => DownlinkStart(s, id, algorithm, matches, keyed, pouch).0
    case DoDecrypt(ok) => Decrypted(s, ok)
    case DoEnd => End(s)
  }

  // The session start inside a's downlink start is accepted
  predicate Accepts(s: State, a: Action) {
    a.DoStart? && SessionStart(s, a.id, a.algorithm, a.matches, a.keyed).1 == Ok
  }

  // The numbers of the numbered sessions the device accepts along a run
  function AcceptedNumbers(s: State, actions: seq<Action>): seq<nat>
    decreases |actions|
  {
    if actions == [] then []
    else
      (if Accepts(s, actions[0]) && Numbered(actions[0].id) then [actions[0].id.value.seqnum] else [])
      + AcceptedNumbers(Step(s, actions[0]), actions[1..])
  }

  // At every start attempt, a session that was accepted before has decrypted a block
  predicate Proven(s: State, started: bool, actions: seq<Action>)
    decreases |actions|
  {
    if actions == [] then true
    else
      && (actions[0].DoStart? && started ==> s.valid)
      && Proven(Step(s, actions[0]), started || Accepts(s, actions[0]), actions[1..])
  }

  ghost predicate Increasing(ns: seq<nat>) {
    forall i, j | 0 <= i < j < |ns| :: ns[i] < ns[j]
  }

  // The highest number so far, as the state remembers it
  ghost predicate Remembers(s: State, started: bool, before: seq<nat>) {
    && (!started ==> before == [] && !s.valid && !s.active)
    && (before != [] ==>
          before[|before| - 1] == if Numbered(s.id) then s.id.value.seqnum else s.serverSeqnum)
    && (s.valid && Numbered(s.id) ==> s.serverSeqnum == s.id.value.seqnum)
  }

  // Whatever random or device sessions come between, the accepted numbers strictly increase
  lemma {:induction false} NumbersIncrease(s: State, started: bool, before: seq<nat>, actions: seq<Action>)
    requires Remembers(s, started, before) && Increasing(before) && Proven(s, started, actions)
    ensures Increasing(before + AcceptedNumbers(s, actions))
    decreases |actions|
  {
    if actions == [] {
      assert before + [] == before;
    } else {
      var a := actions[0];
      var s', rest := Step(s, a), AcceptedNumbers(Step(s, a), actions[1..]);
      if Accepts(s, a) && Numbered(a.id) {
        var n := a.id.value.seqnum;
        assert before != [] ==> before[|before| - 1] < n;
        assert forall i | 0 <= i < |before| :: before[i] <= before[|before| - 1];
        NumbersIncrease(s', true, before + [n], actions[1..]);
        Assoc(before, [n], rest);
      } else {
        NumbersIncrease(s', started || Accepts(s, a), before, actions[1..]);
        assert [] + rest == rest;
      }
    }
  }

  lemma NumbersIncreaseFromBoot(actions: seq<Action>)
    requires Proven(Init(), false, actions)
    ensures Increasing(AcceptedNumbers(Init(), actions))
  {
    NumbersIncrease(Init(), false, [], actions);
    assert [] + AcceptedNumbers(Init(), actions) == AcceptedNumbers(Init(), actions);
  }

  // A refused session start changes nothing
  lemma RefusedChangesNothing(s: State, a: Action)
    requires a.DoStart? && !Accepts(s, a)
    ensures Step(s, a) == s
  {
  }

  // The guard is exact: a number not above the recorded one is taken again if and only if the
  // current session has not decrypted a block, because starting a session clears its flags
  lemma OldNumberAcceptedIff(s: State, id: SessionId, algorithm: Algorithm)
    requires Numbered(id) && id.value.seqnum <= s.serverSeqnum
    ensures SessionStart(s, id, algorithm, true, true).1 == Ok <==> !s.valid
  {
  }

  lemma SameNumberTwice(tag: Bytes)
    ensures var start := DoStart(SessionId(Server, Sequential(tag, 5)), AesGcm, false, true, 1);
            var random := DoStart(SessionId(Server, Random(tag)), AesGcm, false, true, 1);
            AcceptedNumbers(Init(), [start, DoDecrypt(true), random, start]) == [5, 5]
  {
    var start := DoStart(SessionId(Server, Sequential(tag, 5)), AesGcm, false, true, 1);
    var random := DoStart(SessionId(Server, Random(tag)), AesGcm, false, true, 1);
    var s1 := Step(Init(), start);
    var s2 := Step(s1, DoDecrypt(true));
    var s3 := Step(s2, random);
    var run := [start, DoDecrypt(true), random, start];
    assert run[1..] == [DoDecrypt(true), random, start] && run[1..][1..] == [random, start];
    assert [random, start][1..] == [start] && [start][1..] == [];
    assert AcceptedNumbers(s3, [start]) == [5];
    assert AcceptedNumbers(s2, [random, start]) == [5];
    assert AcceptedNumbers(s1, run[1..]) == [5];
  }

  // ---- exactly which sessions are accepted

  // What a run has shown: the last session that was let in, whether it has ended, whether a block of it
  // was decrypted, and the number of the last numbered session of which one was
  datatype Seen = Nothing | Seen(id: SessionId, algorithm: Algorithm, ended: bool, proven: bool)

  datatype Shown = Shown(last: Seen, top: nat)

  // A start is to be let in if it has a key, may use the uplink session or is the server's, and does not
  // contradict a proven session: the same id has the same algorithm, and a server number is a new one
  predicate LetIn(k: Shown, a: Action) {
    && a.DoStart? && a.keyed
    && (a.id.initiator == Device ==> a.id.value.Sequential? && a.matches)
    && (k.last.Seen? && k.last.proven ==>
          && (a.id == k.last.id ==> a.algorithm == k.last.algorithm)
          && (a.id.initiator == Server && a.id.value.Sequential? ==> k.top < a.id.value.seqnum))
  }

  function Watch(k: Shown, a: Action): Shown {
    match a
    case DoStart(id, algorithm, _, _, _) =>
      if LetIn(k, a) then Shown(Seen(id, algorithm, false, false), k.top) else k
    case DoDecrypt(ok) =>
      if !ok || k.last == Nothing || k.last.ended then k
      else
        Shown(k.last.(proven := true),
              if k.last.id.initiator == Server && k.last.id.value.Sequential? then k.last.id.value.seqnum else k.top)
    case DoEnd => if k.last == Nothing then k else k.(last := k.last.(ended := true))
  }

  function LetInAll(k: Shown, actions: seq<Action>): seq<SessionId>
    decreases |actions|
  {
    if actions == [] then []
    else (if LetIn(k, actions[0]) then [actions[0].id] else []) + LetInAll(Watch(k, actions[0]), actions[1..])
  }

  // The sessions the device accepts along a run
  function AcceptedIds(s: State, actions: seq<Action>): seq<SessionId>
    decreases |actions|
  {
    if actions == [] then []
    else (if Accepts(s, actions[0]) then [actions[0].id] else []) + AcceptedIds(Step(s, actions[0]), actions[1..])
  }

  ghost predicate Knows(s: State, k: Shown) {
    && s.serverSeqnum == k.top
    && match k.last
       case Nothing => !s.valid && !s.active
       case Seen(id, algorithm, ended, proven) =>
         s.id == id && s.algorithm == algorithm && s.active == !ended && s.valid == proven
  }

  lemma StepKnows(s: State, k: Shown, a: Action)
    requires Knows(s, k)
    ensures Knows(Step(s, a), Watch(k, a)) && (Accepts(s, a) <==> LetIn(k, a))
  {
  }

  // In every run the device accepts exactly the sessions that are to be let in: no other, and none less
  lemma {:induction false} AcceptedAreLetIn(s: State, k: Shown, actions: seq<Action>)
    requires Knows(s, k)
    ensures AcceptedIds(s, actions) == LetInAll(k, actions)
    decreases |actions|
  {
    if actions != [] {
      StepKnows(s, k, actions[0]);
      hide Knows, Step, Watch, Accepts, LetIn;
      AcceptedAreLetIn(Step(s, actions[0]), Watch(k, actions[0]), actions[1..]);
    }
  }

  lemma AcceptedFromBoot(actions: seq<Action>)
    ensures AcceptedIds(Init(), actions) == LetInAll(Shown(Nothing, 0), actions)
  {
    AcceptedAreLetIn(Init(), Shown(Nothing, 0), actions);
  }

  // After a session with number n has decrypted a block, the next one with number m is accepted if and
  // only if m is larger, and one with a random id in any case
  lemma NewNumberAcceptedIff(s: State, n: nat, m: nat, tag: Bytes, tag': Bytes, x: Algorithm, y: Algorithm)
    requires SessionStart(s, SessionId(Server, Sequential(tag, n)), x, false, true).1 == Ok
    ensures var start := DoStart(SessionId(Server, Sequential(tag, n)), x, false, true, 1);
            var s' := Step(Step(s, start), DoDecrypt(true));
            && (SessionStart(s', SessionId(Server, Sequential(tag', m)), y, false, true).1 == Ok <==> n < m)
            && SessionStart(s', SessionId(Server, Random(tag')), y, false, true).1 == Ok
  {
  }

  // A session that is let in but has no key is refused for that, any other one as a bad message
  lemma RefusedWith(s: State, id: SessionId, algorithm: Algorithm, matches: bool, keyed: bool)
    ensures var could := SessionStart(s, id, algorithm, matches, true).1 == Ok;
            SessionStart(s, id, algorithm, matches, keyed).1
            == if !could then EBADMSG else if keyed then Ok else EIO
  {
  }

  // Within a session, a pouch is refused if and only if its id is not above that of the last pouch of
  // which a block was decrypted
  lemma PouchRefusedIff(s: State, n: nat, m: nat)
    requires PouchStart(s, n).1 == Ok
    ensures PouchStart(Decrypted(PouchStart(s, n).0, true), m).1 == if m <= n then EBADMSG else Ok
  {
  }

  lemma PouchNeedsSession(s: State, n: nat)
    requires !s.hasPouch
    ensures PouchStart(s, n).1 == if s.active then Ok else EBUSY
    ensures PouchStart(End(s), n).1 == EBUSY
  {
  }

  // For the same reason the pouch id check never refuses a pouch: a downlink start that gets as far
  // as the pouch always succeeds, with any id
  lemma PouchCheckNeverRefuses(s: State, id: SessionId, algorithm: Algorithm, matches: bool, keyed: bool, pouch: nat)
    ensures DownlinkStart(s, id, algorithm, matches, keyed, pouch).1
            == SessionStart(s, id, algorithm, matches, keyed).1
  {
  }
}
