/** Who holds each live buffer of the device (src/buf.c and its callers): a map, so exactly one owner. */
module Ownership {
  import opened Wire
  import opened Block
  import opened Buf
  import Stream

  // struct pouch_stream
  class StreamObj {
    const id: BlockId
    const session: nat
    var buf: PouchBuf
    var bytes: nat

    constructor (id: BlockId, session: nat, buf: PouchBuf)
      ensures this.id == id && this.session == session && this.buf == buf && bytes == 0
    {
      this.id, this.session, this.buf, bytes := id, session, buf, 0;
    }

    ghost function Abs(): Stream.Stream
      requires buf.Valid()
      reads this, buf, buf.data
    {
      Stream.Stream(id, buf.Contents(), bytes, session)
    }
  }

  // Held: in a local variable of the call that is running. Lost: no pointer to it is left.
  datatype Owner =
    | Held | Lost
    | PendingHeader | Processing | Transport | Reading | OpenBlock
    | OfStream(s: StreamObj)

  // Every pointer to a buffer that the device keeps between calls
  datatype Books = Books(
    header: PouchBuf?,
    processing: seq<PouchBuf>, transport: seq<PouchBuf>, reading: PouchBuf?,
    block: PouchBuf?,
    streams: map<StreamObj, PouchBuf>)

  ghost predicate Slot(owner: map<PouchBuf, Owner>, x: PouchBuf?, o: Owner) {
    && (x != null ==> x in owner && owner[x] == o)
    && (forall b | b in owner && owner[b] == o :: b == x)
  }

  ghost predicate InQueue(owner: map<PouchBuf, Owner>, q: seq<PouchBuf>, o: Owner) {
    && (forall i | 0 <= i < |q| :: q[i] in owner && owner[q[i]] == o)
    && (forall i, j | 0 <= i < j < |q| :: q[i] != q[j])
    && (forall b | b in owner && owner[b] == o :: b in q)
  }

  ghost predicate StreamsOwn(owner: map<PouchBuf, Owner>, streams: map<StreamObj, PouchBuf>) {
    && (forall s | s in streams :: streams[s] in owner && owner[streams[s]] == OfStream(s))
    && (forall b | b in owner && owner[b].OfStream? :: owner[b].s in streams && streams[owner[b].s] == b)
  }

  // The pointers and the owners agree, in both directions
  ghost predicate Owned(owner: map<PouchBuf, Owner>, k: Books) {
    && Slot(owner, k.header, PendingHeader)
    && Slot(owner, k.reading, Reading)
    && Slot(owner, k.block, OpenBlock)
    && InQueue(owner, k.processing, Processing)
    && InQueue(owner, k.transport, Transport)
    && StreamsOwn(owner, k.streams)
    && Apart(owner.Keys)
  }

  // Different buffers have different arrays
  ghost predicate Apart(bs: set<PouchBuf>) {
    forall a, b | a in bs && b in bs && a != b :: a.data != b.data
  }

  // Hand b to the owner o
  function Put(k: Books, b: PouchBuf, o: Owner): Books {
    match o
    case PendingHeader => k.(header := b)
    case Processing => k.(processing := k.processing + [b])
    case Transport => k.(transport := k.transport + [b])
    case Reading => k.(reading := b)
    case OpenBlock => k.(block := b)
    case OfStream(s) => k.(streams := k.streams[s := b])
    case _ => k
  }

  // The owner has room for another buffer
  predicate Vacant(k: Books, o: Owner) {
    match o
    case PendingHeader => k.header == null
    case Reading => k.reading == null
    case OpenBlock => k.block == null
    case OfStream(s) => s !in k.streams
    case _ => o != Held
  }

  // The owner o lets go of the buffer it would hand out next
  ghost function Remove(k: Books, o: Owner): Books {
    match o
    case PendingHeader => k.(header := null)
    case Processing => if k.processing == [] then k else k.(processing := k.processing[1..])
    case Transport => if k.transport == [] then k else k.(transport := k.transport[1..])
    case Reading => k.(reading := null)
    case OpenBlock => k.(block := null)
    case OfStream(s) => k.(streams := k.streams - {s})
    case _ => k
  }

  ghost predicate NextOut(k: Books, b: PouchBuf, o: Owner) {
    && (o.Processing? ==> k.processing != [] && k.processing[0] == b)
    && (o.Transport? ==> k.transport != [] && k.transport[0] == b)
  }

  lemma Acquire(owner: map<PouchBuf, Owner>, k: Books, b: PouchBuf)
    requires Owned(owner, k) && b !in owner && forall a | a in owner :: a.data != b.data
    ensures Owned(owner[b := Held], k) && |owner[b := Held]| == |owner| + 1
  {
    hide Slot, InQueue, StreamsOwn, Apart;
    NewSlot(owner, k.header, PendingHeader, b);
    NewSlot(owner, k.reading, Reading, b);
    NewSlot(owner, k.block, OpenBlock, b);
    NewQueue(owner, k.processing, Processing, b);
    NewQueue(owner, k.transport, Transport, b);
    NewStreams(owner, k.streams, b);
    NewKeys(owner, b);
  }

  lemma NewKeys(owner: map<PouchBuf, Owner>, b: PouchBuf)
    requires Apart(owner.Keys) && b !in owner && forall a | a in owner :: a.data != b.data
    ensures Apart(owner[b := Held].Keys) && |owner[b := Held]| == |owner| + 1
  {
    assert owner[b := Held].Keys == owner.Keys + {b};
    assert |owner[b := Held]| == |owner[b := Held].Keys| && |owner| == |owner.Keys|;
  }

  lemma NewSlot(owner: map<PouchBuf, Owner>, x: PouchBuf?, of: Owner, b: PouchBuf)
    requires Slot(owner, x, of) && b !in owner && of != Held
    ensures Slot(owner[b := Held], x, of)
  {
  }

  lemma NewQueue(owner: map<PouchBuf, Owner>, q: seq<PouchBuf>, of: Owner, b: PouchBuf)
    requires InQueue(owner, q, of) && b !in owner && of != Held
    ensures InQueue(owner[b := Held], q, of)
  {
  }

  lemma NewStreams(owner: map<PouchBuf, Owner>, streams: map<StreamObj, PouchBuf>, b: PouchBuf)
    requires StreamsOwn(owner, streams) && b !in owner
    ensures StreamsOwn(owner[b := Held], streams)
  {
  }

  lemma Release(owner: map<PouchBuf, Owner>, k: Books, b: PouchBuf)
    requires Owned(owner, k) && b in owner && owner[b] == Held
    ensures Owned(owner - {b}, k) && |owner - {b}| == |owner| - 1
  {
    assert owner == (owner - {b})[b := owner[b]];
  }

  lemma Give(owner: map<PouchBuf, Owner>, k: Books, b: PouchBuf, o: Owner)
    requires Owned(owner, k) && b in owner && owner[b] == Held && Vacant(k, o)
    ensures Owned(owner[b := o], Put(k, b, o)) && |owner[b := o]| == |owner|
  {
    hide Slot, InQueue, StreamsOwn, Apart;
    SameKeys(owner, b, o);
    GiveSlot(owner, k.header, PendingHeader, b, o);
    GiveSlot(owner, k.reading, Reading, b, o);
    GiveSlot(owner, k.block, OpenBlock, b, o);
    GiveQueue(owner, k.processing, Processing, b, o);
    GiveQueue(owner, k.transport, Transport, b, o);
    GiveStream(owner, k.streams, b, o);
  }

  lemma SameKeys(owner: map<PouchBuf, Owner>, b: PouchBuf, o: Owner)
    requires b in owner
    ensures owner[b := o].Keys == owner.Keys && |owner[b := o]| == |owner|
  {
  }

  lemma GiveSlot(owner: map<PouchBuf, Owner>, x: PouchBuf?, of: Owner, b: PouchBuf, o: Owner)
    requires Slot(owner, x, of) && b in owner && owner[b] == Held && of != Held && (o == of ==> x == null)
    ensures Slot(owner[b := o], if o == of then b else x, of)
  {
  }

  lemma GiveStream(owner: map<PouchBuf, Owner>, streams: map<StreamObj, PouchBuf>, b: PouchBuf, o: Owner)
    requires StreamsOwn(owner, streams) && b in owner && owner[b] == Held
    requires o.OfStream? ==> o.s !in streams
    ensures StreamsOwn(owner[b := o], if o.OfStream? then streams[o.s := b] else streams)
  {
  }

  lemma GiveQueue(owner: map<PouchBuf, Owner>, q: seq<PouchBuf>, of: Owner, b: PouchBuf, o: Owner)
    requires InQueue(owner, q, of) && b in owner && owner[b] == Held && of != Held
    ensures InQueue(owner[b := o], if o == of then q + [b] else q, of)
  {
    if o == of { GiveEnd(owner, q, of, b); }
  }

  lemma GiveEnd(owner: map<PouchBuf, Owner>, q: seq<PouchBuf>, of: Owner, b: PouchBuf)
    requires InQueue(owner, q, of) && b in owner && owner[b] == Held && of != Held
    ensures InQueue(owner[b := of], q + [b], of)
  {
    assert b !in q;
    assert forall a :: a in q + [b] <==> a in q || a == b;
  }

  lemma Take(owner: map<PouchBuf, Owner>, k: Books, b: PouchBuf)
    requires Owned(owner, k) && b in owner && NextOut(k, b, owner[b])
    ensures Owned(owner[b := Held], Remove(k, owner[b])) && |owner[b := Held]| == |owner|
  {
    hide Slot, InQueue, StreamsOwn, Apart;
    SameKeys(owner, b, Held);
    TakeSlot(owner, k.header, PendingHeader, b);
    TakeSlot(owner, k.reading, Reading, b);
    TakeSlot(owner, k.block, OpenBlock, b);
    TakeQueue(owner, k.processing, Processing, b);
    TakeQueue(owner, k.transport, Transport, b);
    TakeStream(owner, k.streams, b);
  }

  lemma TakeSlot(owner: map<PouchBuf, Owner>, x: PouchBuf?, of: Owner, b: PouchBuf)
    requires Slot(owner, x, of) && b in owner && of != Held
    ensures Slot(owner[b := Held], if owner[b] == of then null else x, of)
  {
  }

  lemma TakeStream(owner: map<PouchBuf, Owner>, streams: map<StreamObj, PouchBuf>, b: PouchBuf)
    requires StreamsOwn(owner, streams) && b in owner
    ensures StreamsOwn(owner[b := Held], if owner[b].OfStream? then streams - {owner[b].s} else streams)
  {
  }

  lemma TakeQueue(owner: map<PouchBuf, Owner>, q: seq<PouchBuf>, of: Owner, b: PouchBuf)
    requires InQueue(owner, q, of) && b in owner && of != Held
    requires owner[b] == of ==> q != [] && q[0] == b
    ensures InQueue(owner[b := Held], if owner[b] == of then q[1..] else q, of)
  {
    if owner[b] == of { TakeFront(owner, q, of); }
  }

  lemma TakeFront(owner: map<PouchBuf, Owner>, q: seq<PouchBuf>, of: Owner)
    requires InQueue(owner, q, of) && q != [] && of != Held
    ensures InQueue(owner[q[0] := Held], q[1..], of)
  {
    var rest := q[1..];
    assert forall i | 0 <= i < |rest| :: rest[i] == q[i + 1];
    forall c | c in q && c != q[0] ensures c in rest {
      var i :| 0 <= i < |q| && q[i] == c;
      assert rest[i - 1] == c;
    }
  }

  // Who owns each live buffer, and every pointer, in agreement
  datatype Account = Account(owner: map<PouchBuf, Owner>, books: Books)

  type Ledger = a: Account | Owned(a.owner, a.books)
    ghost witness Empty

  ghost const Empty: Account := Account(map[], Books(null, [], [], null, null, map[]))

  // A new buffer, in the hands of the running call
  ghost function Acquired(l: Ledger, b: PouchBuf): (l': Ledger)
    requires b !in l.owner && forall a | a in l.owner :: a.data != b.data
    ensures l' == Account(l.owner[b := Held], l.books) && |l'.owner| == |l.owner| + 1
  {
    Acquire(l.owner, l.books, b);
    Account(l.owner[b := Held], l.books)
  }

  ghost function Freed(l: Ledger, b: PouchBuf): (l': Ledger)
    requires b in l.owner && l.owner[b] == Held
    ensures l' == Account(l.owner - {b}, l.books) && |l'.owner| == |l.owner| - 1
  {
    Release(l.owner, l.books, b);
    Account(l.owner - {b}, l.books)
  }

  ghost function Given(l: Ledger, b: PouchBuf, o: Owner): (l': Ledger)
    requires b in l.owner && l.owner[b] == Held && Vacant(l.books, o)
    ensures l' == Account(l.owner[b := o], Put(l.books, b, o)) && |l'.owner| == |l.owner|
  {
    Give(l.owner, l.books, b, o);
    Account(l.owner[b := o], Put(l.books, b, o))
  }

  ghost function Taken(l: Ledger, b: PouchBuf): (l': Ledger)
    requires b in l.owner && NextOut(l.books, b, l.owner[b])
    ensures l' == Account(l.owner[b := Held], Remove(l.books, l.owner[b])) && |l'.owner| == |l.owner|
  {
    Take(l.owner, l.books, b);
    Account(l.owner[b := Held], Remove(l.books, l.owner[b]))
  }

  // What the ledger says about the pointers
  lemma Pointers(l: Ledger)
    ensures l.books.header != null ==> l.books.header in l.owner && l.owner[l.books.header] == PendingHeader
    ensures l.books.reading != null ==> l.books.reading in l.owner && l.owner[l.books.reading] == Reading
    ensures l.books.block != null ==> l.books.block in l.owner && l.owner[l.books.block] == OpenBlock
    ensures forall i | 0 <= i < |l.books.processing| ::
              l.books.processing[i] in l.owner && l.owner[l.books.processing[i]] == Processing
    ensures forall i | 0 <= i < |l.books.transport| ::
              l.books.transport[i] in l.owner && l.owner[l.books.transport[i]] == Transport
    ensures forall s | s in l.books.streams ::
              l.books.streams[s] in l.owner && l.owner[l.books.streams[s]] == OfStream(s)
  {
  }

  // Different buffers share no bytes
  lemma Separate(l: Ledger, a: PouchBuf, b: PouchBuf)
    requires a in l.owner && b in l.owner && a != b
    ensures a.data != b.data
  {
  }

  // A buffer with another owner is not in the queue, and shares no bytes with it
  lemma NotQueued(l: Ledger, b: PouchBuf)
    requires b in l.owner
    ensures l.owner[b] != Processing
            ==> forall i | 0 <= i < |l.books.processing| ::
                  l.books.processing[i] != b && l.books.processing[i].data != b.data
    ensures l.owner[b] != Transport
            ==> forall i | 0 <= i < |l.books.transport| ::
                  l.books.transport[i] != b && l.books.transport[i].data != b.data
  {
  }

  // A stream gets b for its next block and hands out the one it had
  ghost function Swapped(l: Ledger, s: StreamObj, b: PouchBuf): (l': Ledger)
    requires s in l.books.streams && b in l.owner && l.owner[b] == Held
    ensures l'.books == l.books.(streams := l.books.streams[s := b])
    ensures l.books.streams[s] in l.owner && l.books.streams[s] != b
    ensures l'.owner == l.owner[l.books.streams[s] := Held][b := OfStream(s)] && |l'.owner| == |l.owner|
    ensures |l'.books.streams| == |l.books.streams|
  {
    Swap(l, s, b);
    Account(l.owner[l.books.streams[s] := Held][b := OfStream(s)], l.books.(streams := l.books.streams[s := b]))
  }

  lemma Swap(l: Ledger, s: StreamObj, b: PouchBuf)
    requires s in l.books.streams && b in l.owner && l.owner[b] == Held
    ensures var full, streams := l.books.streams[s], l.books.streams[s := b];
            var owner := l.owner[full := Held][b := OfStream(s)];
            && full in l.owner && full != b && |owner| == |l.owner| && |streams| == |l.books.streams|
            && Owned(owner, l.books.(streams := streams))
  {
    Pointers(l);
    hide Owned;
    var l1 := Taken(l, l.books.streams[s]);
    var l2 := Given(l1, b, OfStream(s));
    assert l2.books.streams == l.books.streams[s := b];
    assert l.books.streams[s := b].Keys == l.books.streams.Keys;
  }

  // The heads of the two queues of the uplink
  ghost function Dequeued(l: Ledger): (l': Ledger)
    requires l.books.processing != []
    ensures l'.books == l.books.(processing := l.books.processing[1..])
    ensures l.books.processing[0] in l.owner
    ensures l'.owner == l.owner[l.books.processing[0] := Held] && |l'.owner| == |l.owner|
  {
    Pointers(l);
    Taken(l, l.books.processing[0])
  }

  ghost function Fetched(l: Ledger): (l': Ledger)
    requires l.books.transport != []
    ensures l'.books == l.books.(transport := l.books.transport[1..])
    ensures l.books.transport[0] in l.owner
    ensures l'.owner == l.owner[l.books.transport[0] := Held] && |l'.owner| == |l.owner|
  {
    Pointers(l);
    Taken(l, l.books.transport[0])
  }

  // A held buffer joins the end of the processing queue
  ghost function Enqueued(l: Ledger, b: PouchBuf): (l': Ledger)
    requires b in l.owner && l.owner[b] == Held
    ensures l'.books == l.books.(processing := l.books.processing + [b])
    ensures l'.owner == l.owner[b := Processing] && |l'.owner| == |l.owner|
  {
    Given(l, b, Processing)
  }

  // The pending header is overwritten
  ghost function HeaderLost(l: Ledger): (l': Ledger)
    requires l.books.header != null
    ensures l'.books == l.books.(header := null)
    ensures l.books.header in l.owner
    ensures l'.owner == l.owner[l.books.header := Lost] && |l'.owner| == |l.owner|
  {
    var held := HeaderTaken(l);
    assert held.owner[l.books.header := Lost] == l.owner[l.books.header := Lost];
    Given(held, l.books.header, Lost)
  }

  // and what the single pointers hold
  ghost function HeaderTaken(l: Ledger): (l': Ledger)
    requires l.books.header != null
    ensures l'.books == l.books.(header := null)
    ensures l.books.header in l.owner && l.owner[l.books.header] == PendingHeader
    ensures l'.owner == l.owner[l.books.header := Held] && |l'.owner| == |l.owner|
  {
    Pointers(l);
    Taken(l, l.books.header)
  }

  ghost function ReadingTaken(l: Ledger): (l': Ledger)
    requires l.books.reading != null
    ensures l'.books == l.books.(reading := null)
    ensures l.books.reading in l.owner
    ensures l'.owner == l.owner[l.books.reading := Held] && |l'.owner| == |l.owner|
  {
    Pointers(l);
    Taken(l, l.books.reading)
  }

  ghost function BlockTaken(l: Ledger): (l': Ledger)
    requires l.books.block != null
    ensures l'.books == l.books.(block := null)
    ensures l.books.block in l.owner && l.owner[l.books.block] == OpenBlock
    ensures l'.owner == l.owner[l.books.block := Held] && |l'.owner| == |l.owner|
  {
    Pointers(l);
    Taken(l, l.books.block)
  }

  ghost function Joined(l: Ledger, s: StreamObj, b: PouchBuf): (l': Ledger)
    requires s !in l.books.streams && b in l.owner && l.owner[b] == Held
    ensures l'.books == l.books.(streams := l.books.streams[s := b])
    ensures l'.owner == l.owner[b := OfStream(s)] && |l'.owner| == |l.owner|
    ensures |l'.books.streams| == |l.books.streams| + 1
  {
    Given(l, b, OfStream(s))
  }

  ghost function Left(l: Ledger, s: StreamObj): (l': Ledger)
    requires s in l.books.streams
    ensures l'.books == l.books.(streams := l.books.streams - {s})
    ensures l.books.streams[s] in l.owner
    ensures l'.owner == l.owner[l.books.streams[s] := Held] && |l'.owner| == |l.owner|
    ensures |l'.books.streams| == |l.books.streams| - 1
  {
    Leave(l, s);
    Account(l.owner[l.books.streams[s] := Held], l.books.(streams := l.books.streams - {s}))
  }

  lemma Leave(l: Ledger, s: StreamObj)
    requires s in l.books.streams
    ensures var b, streams := l.books.streams[s], l.books.streams - {s};
            && b in l.owner && |l.owner[b := Held]| == |l.owner| && |streams| == |l.books.streams| - 1
            && Owned(l.owner[b := Held], l.books.(streams := streams))
  {
    Pointers(l);
    hide Owned;
    assert l.books.streams == (l.books.streams - {s})[s := l.books.streams[s]];
    var l1 := Taken(l, l.books.streams[s]);
  }

  // Every owner named in the ledger really has the buffer
  lemma NoDangling(l: Ledger)
    ensures forall b | b in l.owner ::
              match l.owner[b]
              case PendingHeader => b == l.books.header
              case Reading => b == l.books.reading
              case OpenBlock => b == l.books.block
              case Processing => b in l.books.processing
              case Transport => b in l.books.transport
              case OfStream(s) => s in l.books.streams && l.books.streams[s] == b
              case _ => true
  {
  }

  // ---- counting

  ghost function One(b: PouchBuf?): set<PouchBuf> {
    if b == null then {} else {b}
  }

  ghost function Elements(q: seq<PouchBuf>): set<PouchBuf> {
    set b | b in q
  }

  lemma {:induction false} DistinctCount(q: seq<PouchBuf>)
    requires forall i, j | 0 <= i < j < |q| :: q[i] != q[j]
    ensures |Elements(q)| == |q|
    decreases |q|
  {
    if q == [] {
      assert Elements(q) == {};
    } else {
      DistinctCount(q[1..]);
      assert q == [q[0]] + q[1..];
      assert Elements(q) == {q[0]} + Elements(q[1..]);
    }
  }

  lemma {:induction false} InjectiveCount<K, V>(m: map<K, V>)
    requires forall s, t | s in m && t in m && s != t :: m[s] != m[t]
    ensures |m.Values| == |m|
    decreases |m|
  {
    if m.Keys == {} {
      assert m.Values == {} && |m| == |m.Keys|;
    } else {
      var s :| s in m;
      var m' := m - {s};
      assert m'.Keys == m.Keys - {s} && |m'| == |m'.Keys| && |m| == |m.Keys|;
      InjectiveCount(m');
      assert m[s] in m.Values && m[s] !in m'.Values;
      forall b | b in m.Values ensures b in m'.Values + {m[s]} {
        var t :| t in m && m[t] == b;
        if t != s { assert t in m' && m'[t] == b; }
      }
      forall b | b in m'.Values ensures b in m.Values {
        var t :| t in m' && m'[t] == b;
        assert t in m && m[t] == b;
      }
      assert m.Values == m'.Values + {m[s]};
    }
  }

  function Count(k: Books): nat {
    (if k.header == null then 0 else 1) + (if k.reading == null then 0 else 1) + (if k.block == null then 0 else 1)
    + |k.processing| + |k.transport| + |k.streams|
  }

  // When no call is running and nothing is lost, the live buffers are exactly the pending header, the
  // queues, the reader, the open block and the open streams, with no buffer in two places
  lemma LiveCount(l: Ledger)
    requires forall b | b in l.owner :: l.owner[b] != Held && l.owner[b] != Lost
    ensures |l.owner| == Count(l.books)
  {
    var k := l.books;
    var h, r, o := One(k.header), One(k.reading), One(k.block);
    var q, t, s := Elements(k.processing), Elements(k.transport), k.streams.Values;
    Places(l);
    Queues(l);
    DistinctCount(k.processing);
    DistinctCount(k.transport);
    StreamsInjective(l);
    InjectiveCount(k.streams);
    hide Owned;
    SumOfSizes(h, r, o, q, t, s);
    assert |l.owner| == |l.owner.Keys|;
  }

  lemma SumOfSizes<T>(a: set<T>, b: set<T>, c: set<T>, d: set<T>, e: set<T>, f: set<T>)
    requires a !! b && a + b !! c && a + b + c !! d && a + b + c + d !! e && a + b + c + d + e !! f
    ensures |a + b + c + d + e + f| == |a| + |b| + |c| + |d| + |e| + |f|
  {
    assert |a + b| == |a| + |b| && |a + b + c| == |a + b| + |c| && |a + b + c + d| == |a + b + c| + |d|;
    assert |a + b + c + d + e| == |a + b + c + d| + |e|;
  }

  lemma Queues(l: Ledger)
    ensures forall i, j | 0 <= i < j < |l.books.processing| :: l.books.processing[i] != l.books.processing[j]
    ensures forall i, j | 0 <= i < j < |l.books.transport| :: l.books.transport[i] != l.books.transport[j]
  {
  }

  lemma StreamsInjective(l: Ledger)
    ensures forall s, t | s in l.books.streams && t in l.books.streams && s != t ::
              l.books.streams[s] != l.books.streams[t]
  {
    Pointers(l);
  }

  // The places are disjoint and together hold every buffer
  lemma Places(l: Ledger)
    requires forall b | b in l.owner :: l.owner[b] != Held && l.owner[b] != Lost
    ensures var k := l.books;
            var h, r, o := One(k.header), One(k.reading), One(k.block);
            var q, t, s := Elements(k.processing), Elements(k.transport), k.streams.Values;
            && l.owner.Keys == h + r + o + q + t + s
            && h !! r && h + r !! o && h + r + o !! q && h + r + o + q !! t && h + r + o + q + t !! s
  {
    PlaceIsOwner(l);
    hide Owned;
  }

  // A buffer is in the place its owner says
  lemma PlaceIsOwner(l: Ledger)
    requires forall b | b in l.owner :: l.owner[b] != Held && l.owner[b] != Lost
    ensures var k := l.books;
            && (forall b :: b in One(k.header) <==> b in l.owner && l.owner[b] == PendingHeader)
            && (forall b :: b in One(k.reading) <==> b in l.owner && l.owner[b] == Reading)
            && (forall b :: b in One(k.block) <==> b in l.owner && l.owner[b] == OpenBlock)
            && (forall b :: b in Elements(k.processing) <==> b in l.owner && l.owner[b] == Processing)
            && (forall b :: b in Elements(k.transport) <==> b in l.owner && l.owner[b] == Transport)
            && (forall b :: b in k.streams.Values <==> b in l.owner && l.owner[b].OfStream?)
  {
    Pointers(l);
    NoDangling(l);
    hide Owned;
    var k := l.books;
    forall b | b in k.streams.Values ensures b in l.owner && l.owner[b].OfStream? {
      var s :| s in k.streams && k.streams[s] == b;
    }
    forall b | b in l.owner && l.owner[b].OfStream? ensures b in k.streams.Values {
      assert k.streams[l.owner[b].s] == b;
    }
  }
}
