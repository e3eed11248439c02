/** Routing downlink callbacks to services (golioth_sdk/dispatch.c), with its one-entry cache. */
module Dispatch {
  import opened Wire

  const DOWNLINK_ID_INVALID := -1

  const WILDCARD: byte := 42

  // A service path: a prefix, with a trailing '*' marking that the remainder is wanted
  type Pattern = p: Bytes | p != [] witness [47]

  predicate Partial(p: Pattern) { p[|p| - 1] == WILDCARD }

  function Prefix(p: Pattern): Bytes { if Partial(p) then p[..|p| - 1] else p }

  // strncmp over the length of the prefix: any longer path matches too
  predicate Matches(p: Pattern, path: Bytes) { Prefix(p) <= path }

  // The first service from i on whose pattern matches
  function FindPath(patterns: seq<Pattern>, path: Bytes, i: nat): Option<nat>
    requires i <= |patterns|
    decreases |patterns| - i
  {
    if i == |patterns| then None
    else if Matches(patterns[i], path) then Some(i)
    else FindPath(patterns, path, i + 1)
  }

  // The first service from i on that holds the id
  function FindId(ids: seq<int>, id: int, i: nat): Option<nat>
    requires i <= |ids|
    decreases |ids| - i
  {
    if i == |ids| then None else if ids[i] == id then Some(i) else FindId(ids, id, i + 1)
  }

  // The ids the services hold, and last_seen
  datatype State = State(ids: seq<int>, lastSeen: Option<nat>)

  // A call of a service's data callback
  datatype Call = Delivered(service: nat, id: nat, data: Bytes, last: bool)

  // pouch_downlink_start; the start callback is called if the service has one
  function Start(patterns: seq<Pattern>, s: State, id: nat, path: Bytes): State
    requires |s.ids| == |patterns|
  {
    match FindPath(patterns, path, 0)
    case None => s
    case Some(i) => if i < |s.ids| then State(s.ids[i := id], Some(i)) else s
  }

  // The rest of the path that a wildcard service is told
  function Remainder(p: Pattern, path: Bytes): Option<Bytes>
    requires Matches(p, path)
  {
    if Partial(p) && |path| > |Prefix(p)| then Some(path[|Prefix(p)|..]) else None
  }

  // What a service's path stands for: with a '*' at its end, every path that begins with what is before
  // it; otherwise its own path and every longer one that begins with it
  ghost predicate Covers(p: Bytes, path: Bytes) {
    if p != [] && p[|p| - 1] == 42 then exists q, r :: p == q + [42] && path == q + r
    else exists r :: path == p + r
  }

  lemma MatchesIff(p: Pattern, path: Bytes)
    ensures Matches(p, path) <==> Covers(p, path)
  {
    if p[|p| - 1] == 42 {
      var q: Bytes := p[..|p| - 1];
      assert p == q + [42];
      WildcardMatchIff(q, path);
      if q <= path { assert path == q + path[|q|..]; }
      if Covers(p, path) {
        var q', r :| p == q' + [42] && path == q' + r;
        assert q' == q;
      }
    } else if p <= path {
      assert path == p + path[|p|..];
    }
  }

  lemma WildcardMatchIff(q: Bytes, path: Bytes)
    ensures Matches(q + [42], path) <==> q <= path
  {
    assert (q + [42])[..|q|] == q;
  }

  // A wildcard service is told exactly what it needs to rebuild a longer path, another one nothing
  lemma RemainderIff(q: Bytes, path: Bytes, r: Bytes)
    requires q <= path
    ensures Matches(q + [42], path) && (Remainder(q + [42], path) == Some(r) <==> r != [] && path == q + r)
  {
    assert (q + [42])[..|q|] == q;
    assert path == q + path[|q|..];
    if path == q + r { assert path[|q|..] == r; }
  }

  lemma PlainToldNothing(p: Pattern, path: Bytes)
    requires p[|p| - 1] != 42 && Matches(p, path)
    ensures Remainder(p, path) == None
  {
  }

  predicate Shaped(s: State) {
    s.lastSeen.Some? ==> s.lastSeen.value < |s.ids|
  }

  // The service pouch_downlink_data picks: the cached one if it holds the id, else the first that does
  function Pick(s: State, id: nat): Option<nat>
    requires Shaped(s)
  {
    if s.lastSeen.Some? && s.ids[s.lastSeen.value] == id then s.lastSeen else FindId(s.ids, id, 0)
  }

  // pouch_downlink_data: the last data frees the service and empties the cache
  function Data(s: State, id: nat, last: bool): State
    requires Shaped(s)
  {
    match Pick(s, id)
    case None => s
    case Some(i) =>
      if last && i < |s.ids| then State(s.ids[i := DOWNLINK_ID_INVALID], None) else s
  }

  lemma {:induction false} FindIdFirst(ids: seq<int>, id: int, i: nat)
    requires i <= |ids|
    ensures match FindId(ids, id, i)
            case None => forall j | i <= j < |ids| :: ids[j] != id
            case Some(k) => i <= k < |ids| && ids[k] == id && forall j | i <= j < k :: ids[j] != id
    decreases |ids| - i
  {
    if i < |ids| { FindIdFirst(ids, id, i + 1); }
  }

  lemma {:induction false} FindPathFirst(patterns: seq<Pattern>, path: Bytes, i: nat)
    requires i <= |patterns|
    ensures match FindPath(patterns, path, i)
            case None => forall j | i <= j < |patterns| :: !Matches(patterns[j], path)
            case Some(k) => i <= k < |patterns| && Matches(patterns[k], path)
                            && forall j | i <= j < k :: !Matches(patterns[j], path)
    decreases |patterns| - i
  {
    if i < |patterns| { FindPathFirst(patterns, path, i + 1); }
  }

  // A service without a wildcard takes its own path and every longer one that begins with it
  lemma PlainMatchIff(p: Pattern, path: Bytes)
    requires p[|p| - 1] != 42
    ensures Matches(p, path) <==> path == p || p < path
  {
  }

  // A path goes to the first service in the table that stands for it
  lemma PickedIff(patterns: seq<Pattern>, path: Bytes, i: nat)
    requires i < |patterns|
    ensures FindPath(patterns, path, 0) == Some(i)
            <==> Covers(patterns[i], path) && forall j | 0 <= j < i :: !Covers(patterns[j], path)
    ensures FindPath(patterns, path, 0) == None <==> forall j | 0 <= j < |patterns| :: !Covers(patterns[j], path)
  {
    FindPathFirst(patterns, path, 0);
    hide FindPath, Matches, Covers;
    forall j | 0 <= j < |patterns| ensures Matches(patterns[j], path) <==> Covers(patterns[j], path) {
      MatchesIff(patterns[j], path);
    }
  }

  // so a service gets its own path if and only if no service before it in the table stands for it
  lemma OwnPathIff(patterns: seq<Pattern>, i: nat)
    requires i < |patterns| && patterns[i][|patterns[i]| - 1] != 42
    ensures FindPath(patterns, patterns[i], 0) == Some(i)
            <==> forall j | 0 <= j < i :: !Covers(patterns[j], patterns[i])
  {
    var path: Bytes := patterns[i];
    PickedIff(patterns, path, i);
    assert path == path + [];
  }

  // and with a wildcard, a path that begins like it
  lemma BelowPathIff(patterns: seq<Pattern>, i: nat, q: Bytes, r: Bytes)
    requires i < |patterns| && patterns[i] == q + [42]
    ensures FindPath(patterns, q + r, 0) == Some(i) <==> forall j | 0 <= j < i :: !Covers(patterns[j], q + r)
  {
    PickedIff(patterns, q + r, i);
    assert Covers(patterns[i], q + r);
  }

  // With services on "/a" and "/ab", a stream on "/ab" starts the first one
  lemma LongerPathTaken()
    ensures var a: Pattern, ab: Pattern := [47, 97], [47, 97, 98]; FindPath([a, ab], ab, 0) == Some(0)
  {
  }

  // A service on ".u*" is started for ".ux" and told "x"
  lemma WildcardExample()
    ensures var p: Pattern, path: Bytes := [46, 117, 42], [46, 117, 120];
            && FindPath([p], path, 0) == Some(0)
            && Matches(p, path) && Remainder(p, path) == Some([120])
  {
    RemainderIff([46, 117], [46, 117, 120], [120]);
    assert [46, 117] + [42] == [46, 117, 42];
    assert [46, 117, 120][..2] == [46, 117];
  }

  // No two services hold one id, and the cache never points to an idle service
  ghost predicate Inv(s: State) {
    && Shaped(s)
    && (forall i, j | 0 <= i < j < |s.ids| :: s.ids[i] == s.ids[j] ==> s.ids[i] == DOWNLINK_ID_INVALID)
    && (s.lastSeen.Some? ==> s.ids[s.lastSeen.value] != DOWNLINK_ID_INVALID)
  }

  // The cache agrees with the search
  lemma PickIsSearch(s: State, id: nat)
    requires Inv(s)
    ensures Pick(s, id) == FindId(s.ids, id, 0)
  {
    FindIdFirst(s.ids, id, 0);
  }

  lemma StartKeeps(patterns: seq<Pattern>, s: State, id: nat, path: Bytes)
    requires |s.ids| == |patterns| && Inv(s) && id !in s.ids
    ensures Inv(Start(patterns, s, id, path))
  {
    FindPathFirst(patterns, path, 0);
  }

  lemma DataKeeps(s: State, id: nat, last: bool)
    requires Inv(s)
    ensures Inv(Data(s, id, last))
  {
    FindIdFirst(s.ids, id, 0);
  }

  // ---- transcripts

  datatype Event = OnStart(id: nat, path: Bytes) | OnData(id: nat, data: Bytes, last: bool)

  function Step(patterns: seq<Pattern>, s: State, e: Event): State
    requires |s.ids| == |patterns| && Shaped(s)
  {
    match e
    case OnStart(id, path) => Start(patterns, s, id, path)
    case OnData(id, _, last) => Data(s, id, last)
  }

  lemma StepShaped(patterns: seq<Pattern>, s: State, e: Event)
    requires |s.ids| == |patterns| && Inv(s)
    requires e.OnStart? ==> e.id !in s.ids
    ensures Inv(Step(patterns, s, e)) && |Step(patterns, s, e).ids| == |patterns|
  {
    if e.OnStart? { StartKeeps(patterns, s, e.id, e.path); } else { DataKeeps(s, e.id, e.last); }
  }

  lemma StepShape(patterns: seq<Pattern>, s: State, e: Event)
    requires |s.ids| == |patterns| && Shaped(s)
    ensures Shaped(Step(patterns, s, e)) && |Step(patterns, s, e).ids| == |patterns|
  {
    if e.OnStart? { FindPathFirst(patterns, e.path, 0); } else { FindIdFirst(s.ids, e.id, 0); }
  }

  // No start goes to a service that is receiving
  ghost predicate NoBusyService(patterns: seq<Pattern>, s: State, events: seq<Event>)
    requires |s.ids| == |patterns| && Shaped(s)
    decreases |events|
  {
    if events == [] then true
    else
      && (events[0].OnStart? ==>
            match FindPath(patterns, events[0].path, 0)
            case None => true
            case Some(i) => i < |s.ids| && s.ids[i] == DOWNLINK_ID_INVALID)
      && (StepShape(patterns, s, events[0]); NoBusyService(patterns, Step(patterns, s, events[0]), events[1..]))
  }

  // Starts use ids nobody holds
  ghost predicate FreshIds(patterns: seq<Pattern>, s: State, events: seq<Event>)
    requires |s.ids| == |patterns| && Inv(s)
    decreases |events|
  {
    if events == [] then true
    else
      && (events[0].OnStart? ==> events[0].id !in s.ids)
      && (StepShaped(patterns, s, events[0]); FreshIds(patterns, Step(patterns, s, events[0]), events[1..]))
  }

  // and no start goes to a service that is busy
  ghost predicate NoRetarget(patterns: seq<Pattern>, s: State, events: seq<Event>)
    requires |s.ids| == |patterns| && Inv(s) && FreshIds(patterns, s, events)
    decreases |events|
  {
    if events == [] then true
    else
      && (events[0].OnStart? ==>
            match FindPath(patterns, events[0].path, 0)
            case None => true
            case Some(i) => i < |s.ids| && s.ids[i] == DOWNLINK_ID_INVALID)
      && (StepShaped(patterns, s, events[0]); NoRetarget(patterns, Step(patterns, s, events[0]), events[1..]))
  }

  // The data callbacks made along a transcript
  ghost function Deliveries(patterns: seq<Pattern>, s: State, events: seq<Event>): seq<Call>
    requires |s.ids| == |patterns| && Inv(s) && FreshIds(patterns, s, events)
    decreases |events|
  {
    if events == [] then []
    else
      var e := events[0];
      StepShaped(patterns, s, e);
      (if e.OnData? && Pick(s, e.id).Some? then [Delivered(Pick(s, e.id).value, e.id, e.data, e.last)] else [])
      + Deliveries(patterns, Step(patterns, s, e), events[1..])
  }

  // The reference: a stream belongs to the service its start matched, until its last data
  function Routed(patterns: seq<Pattern>, owner: map<int, nat>, events: seq<Event>): seq<Call>
    decreases |events|
  {
    if events == [] then []
    else
      match events[0]
      case OnStart(id, path) =>
        (match FindPath(patterns, path, 0)
         case None => Routed(patterns, owner, events[1..])
         case Some(i) => Routed(patterns, owner[id := i], events[1..]))
      case OnData(id, data, last) =>
        (if id in owner then [Delivered(owner[id], id, data, last)] else [])
        + Routed(patterns, if last then owner - {id} else owner, events[1..])
  }

  // The ids the services hold are the streams they own
  ghost predicate Owns(s: State, owner: map<int, nat>) {
    && (forall id | id in owner :: 0 <= id && owner[id] < |s.ids| && s.ids[owner[id]] == id)
    && (forall i | 0 <= i < |s.ids| ::
          s.ids[i] == DOWNLINK_ID_INVALID || (s.ids[i] >= 0 && s.ids[i] in owner && owner[s.ids[i]] == i))
  }

  lemma PickIsOwner(s: State, owner: map<int, nat>, id: nat)
    requires Inv(s) && Owns(s, owner)
    ensures Pick(s, id) == if id in owner then Some(owner[id]) else None
  {
    PickIsSearch(s, id);
    FindIdFirst(s.ids, id, 0);
  }

  lemma OwnsStart(s: State, owner: map<int, nat>, i: nat, id: nat)
    requires Owns(s, owner) && i < |s.ids| && s.ids[i] == DOWNLINK_ID_INVALID && id !in s.ids
    ensures Owns(State(s.ids[i := id], Some(i)), owner[id := i])
  {
    assert id !in owner;
  }

  lemma OwnsEnd(s: State, owner: map<int, nat>, id: nat)
    requires Owns(s, owner) && id in owner
    ensures Owns(State(s.ids[owner[id] := DOWNLINK_ID_INVALID], None), owner - {id})
  {
  }

  // Each service gets exactly its own streams' data, in order
  lemma {:induction false} DeliveredToOwner(patterns: seq<Pattern>, s: State, owner: map<int, nat>, events: seq<Event>)
    requires |s.ids| == |patterns| && Inv(s) && Owns(s, owner)
    requires FreshIds(patterns, s, events) && NoRetarget(patterns, s, events)
    ensures Deliveries(patterns, s, events) == Routed(patterns, owner, events)
    decreases |events|
  {
    if events != [] {
      var e := events[0];
      StepShaped(patterns, s, e);
      match e
      case OnStart(id, path) =>
        FindPathFirst(patterns, path, 0);
        match FindPath(patterns, path, 0) {
          case None => DeliveredToOwner(patterns, s, owner, events[1..]);
          case Some(i) =>
            OwnsStart(s, owner, i, id);
            DeliveredToOwner(patterns, Step(patterns, s, e), owner[id := i], events[1..]);
        }
      case OnData(id, data, last) =>
        PickIsOwner(s, owner, id);
        if last && id in owner { OwnsEnd(s, owner, id); }
        assert owner - {id} == owner || id in owner;
        DeliveredToOwner(patterns, Step(patterns, s, e), if last then owner - {id} else owner, events[1..]);
    }
  }

  // No service is receiving
  ghost function IdleTable(patterns: seq<Pattern>): (s: State)
    ensures |s.ids| == |patterns| && Inv(s)
  {
    State(seq(|patterns|, _ => DOWNLINK_ID_INVALID), None)
  }

  lemma DeliveredFromIdle(patterns: seq<Pattern>, events: seq<Event>)
    requires FreshIds(patterns, IdleTable(patterns), events) && NoRetarget(patterns, IdleTable(patterns), events)
    ensures Deliveries(patterns, IdleTable(patterns), events) == Routed(patterns, map[], events)
  {
    DeliveredToOwner(patterns, IdleTable(patterns), map[], events);
  }

  // The condition is exact: a start keeps a running stream's service if and only if it does not match
  // that very service
  lemma StreamKeptIff(patterns: seq<Pattern>, s: State, running: nat, id: nat, path: Bytes)
    requires |s.ids| == |patterns| && Inv(s) && id !in s.ids && FindId(s.ids, running, 0).Some? && id != running
    ensures FindId(Start(patterns, s, id, path).ids, running, 0) == FindId(s.ids, running, 0)
            <==> FindPath(patterns, path, 0) != FindId(s.ids, running, 0)
  {
    var s' := Start(patterns, s, id, path);
    FindPathFirst(patterns, path, 0);
    FindIdFirst(s.ids, running, 0);
    FindIdFirst(s'.ids, running, 0);
    var i := FindId(s.ids, running, 0).value;
    match FindPath(patterns, path, 0) {
      case None =>
      case Some(j) =>
        if j == i {
          assert s'.ids[i] == id;
        } else {
          assert s'.ids[i] == running;
          assert FindId(s'.ids, running, 0).Some?;
          var k := FindId(s'.ids, running, 0).value;
          assert k != j && s.ids[k] == running;
        }
    }
  }

  // Two streams on the path of one service: the second start takes the service, and the first stream's
  // data is dropped
  lemma BusyServiceTaken(data: Bytes)
    ensures var a: Pattern := [47, 97];
            var events := [OnStart(1, a), OnStart(2, a), OnData(1, data, true)];
            && FreshIds([a], IdleTable([a]), events) && !NoRetarget([a], IdleTable([a]), events)
            && Deliveries([a], IdleTable([a]), events) == []
            && Routed([a], map[], events) == [Delivered(0, 1, data, true)]
  {
    var a: Pattern := [47, 97];
    var patterns: seq<Pattern> := [a];
    var e1, e2, e3 := OnStart(1, a), OnStart(2, a), OnData(1, data, true);
    assert Matches(a, a) && FindPath(patterns, a, 0) == Some(0);
    var s0 := IdleTable(patterns);
    var s1, s2 := State([1], Some(0)), State([2], Some(0));
    assert s0.ids == [-1] && s0.ids[0 := 1] == [1] && s1.ids[0 := 2] == [2];
    assert Start(patterns, s0, 1, a) == s1 && Start(patterns, s1, 2, a) == s2;
    assert Pick(s2, 1) == None && Data(s2, 1, true) == s2;
    Three(e1, e2, e3);
    assert FreshIds(patterns, s2, []) && Deliveries(patterns, s2, []) == [];
    assert FreshIds(patterns, s2, [e3]);
    assert Step(patterns, s2, e3) == s2 && [e3][1..] == [];
    assert Deliveries(patterns, s2, [e3]) == [] + Deliveries(patterns, s2, []);
    assert FreshIds(patterns, s1, [e2, e3]);
    assert Deliveries(patterns, s1, [e2, e3]) == [] + Deliveries(patterns, s2, [e3]);
    assert FreshIds(patterns, s0, [e1, e2, e3]);
    assert Deliveries(patterns, s0, [e1, e2, e3]) == [] + Deliveries(patterns, s1, [e2, e3]);
    assert !NoRetarget(patterns, s1, [e2, e3]);
    assert Routed(patterns, map[1 := 0], [e2, e3]) == Routed(patterns, map[1 := 0, 2 := 0], [e3]);
    assert Routed(patterns, map[1 := 0, 2 := 0], [e3]) == [Delivered(0, 1, data, true)];
  }

  lemma Three<T>(a: T, b: T, c: T)
    ensures [a, b, c][1..] == [b, c] && [b, c][1..] == [c] && [c][1..] == []
  {
  }

  class Dispatcher {
    const patterns: seq<Pattern>
    const ids: array<int>
    var lastSeen: Option<nat>

    ghost predicate Valid()
      reads this, ids
    {
      ids.Length == |patterns| && Shaped(Abs())
    }

    ghost function Abs(): State
      reads this, ids
    {
      State(ids[..], lastSeen)
    }

    constructor (patterns: seq<Pattern>)
      ensures Valid() && this.patterns == patterns && fresh(ids)
      ensures Abs() == IdleTable(patterns)
    {
      this.patterns := patterns;
      ids := new int[|patterns|](_ => DOWNLINK_ID_INVALID);
      lastSeen := None;
    }

    method OnDownlinkStart(id: nat, path: Bytes) returns (service: Option<nat>, remainder: Option<Bytes>)
      requires Valid()
      modifies this, ids
      ensures Valid() && Abs() == Start(patterns, old(Abs()), id, path)
      ensures service == FindPath(patterns, path, 0)
      ensures match service
              case None => remainder == None
              case Some(i) => i < |patterns| && Matches(patterns[i], path) && remainder == Remainder(patterns[i], path)
    {
      service, remainder := None, None;
      var i := 0;
      while i < |patterns|
        invariant 0 <= i <= |patterns| && Valid() && Abs() == old(Abs()) && service == None && remainder == None
        invariant FindPath(patterns, path, 0) == FindPath(patterns, path, i)
      {
        var p := patterns[i];
        var pathLen := if Partial(p) then |p| - 1 else |p|;
        if p[..pathLen] <= path {
          if Partial(p) && |path| > pathLen { remainder := Some(path[pathLen..]); }
          lastSeen := Some(i);
          ids[i] := id;
          service := Some(i);
          break;
        }
        i := i + 1;
      }
    }

    method OnDownlinkData(id: nat, last: bool) returns (service: Option<nat>)
      requires Valid()
      modifies this, ids
      ensures Valid() && Abs() == Data(old(Abs()), id, last)
      ensures service == Pick(old(Abs()), id)
    {
      service := None;
      if lastSeen.Some? && ids[lastSeen.value] == id {
        service := lastSeen;
      } else {
        var i := 0;
        while i < ids.Length
          invariant 0 <= i <= ids.Length && service == None
          invariant FindId(ids[..], id, 0) == FindId(ids[..], id, i)
        {
          if ids[i] == id {
            service := Some(i);
            break;
          }
          i := i + 1;
        }
      }
      if service.Some? && last {
        ids[service.value] := DOWNLINK_ID_INVALID;
        lastSeen := None;
      }
    }
  }
}
