/** A legal run that ends with a packet taken for something it is not.

    A read is refused and its buffer recycled while its connection still caches it; the buffer
    goes to an exit packet; evicting the connection recycles it once more; the next user marks it
    anew, while the exit packet is still queued.
  */
module Misreading {
  import opened Ids
  import opened BufferPool
  import Sockets = SocketPool
  import opened SocketContexts
  import opened ResourceManagers
  import opened Protocol
  import opened Runs
  import opened AcceptSlots

  const NO_READ: ReadPost := ReadPost(Get(0, 0), false, false)
  const NO_TRY: Try := Try(Get(0, 0), 0, false, false)

  // ----- the common beginning -----

  // Two slots are opened; the first accept's read, on buffer 2, is refused, and so are both tries
  // to post the accept again, on the same buffer; the buffer goes to an exit packet; and two sweeps
  // evict the connection, recycling the buffer again.
  const OPEN_FIRST: Step := OpenSlot(Try(Get(0, 0), 0, true, false), NO_TRY)
  const OPEN_SECOND: Step := OpenSlot(Try(Get(0, 1), 1, true, false), NO_TRY)
  const ACCEPT_FIRST: Step :=
    Completion(0, true, 0, Choices(Arrival(0, true, ReadPost(Get(0, 2), false, true)),
                                   Try(Get(0, 2), 2, false, true), Try(Get(0, 2), 3, false, true), NO_READ, 0, false, {}))
  const QUEUE_EXIT: Step := QueueExit(Get(0, 2), 4)
  const FIND_IDLE: Step := SweepAll([Visit(1, 1, {})])
  const EVICT: Step := SweepAll([Visit(1, 1, {2})])

  const BEGINNING: seq<Step> := [OPEN_FIRST, OPEN_SECOND, ACCEPT_FIRST, QUEUE_EXIT, FIND_IDLE, EVICT]

  // A socket pool without pre-allocation: n sockets handed out, those in gone closed.
  function Handed(n: nat, gone: set<nat>): Sockets.Pool {
    Sockets.Pool({}, Range(0, n) - gone, n, 0, 0, 0, Range(0, n), 0, multiset(gone))
  }

  lemma HandOne(n: nat, gone: set<nat>)
    requires forall q | q in gone :: q < n
    ensures Sockets.CanTake(Handed(n, gone), n) && Sockets.Take(Handed(n, gone), n) == Handed(n + 1, gone)
  {
    assert Range(0, n + 1) == Range(0, n) + {n};
  }

  function Server(buf: Pool, sk: Sockets.Pool, ctxs: map<nat, Context>, next: nat,
                  tags: map<nat, Tag>, listen: set<nat>, pending: map<nat, Op>, nextOp: nat, slots: nat, lost: nat): State {
    State(Resources(buf, sk, ctxs, ctxs.Keys, next, 0), tags, listen, pending, nextOp, slots, lost, true)
  }

  // The server after each step of the beginning.
  function After(n: nat): State
    requires n <= 6
  {
    var accepts := map[0 := Op(LISTEN, 0, Accept), 1 := Op(LISTEN, 1, Accept)];
    var rest := map[1 := Op(LISTEN, 1, Accept), 2 := Op(LISTEN, 2, Exit)];
    var marked := map[0 := Tag(Accept, 0), 1 := Tag(Accept, 1)];
    match n
    case 0 => SMALLEST
    case 1 => Server(Pool({}, {0}, 1, 0), Handed(1, {}), map[], 1,
                     map[0 := Tag(Accept, 0)], {0}, map[0 := Op(LISTEN, 0, Accept)], 1, 1, 0)
    case 2 => Server(Pool({}, {0, 1}, 2, 0), Handed(2, {}), map[], 1, marked, {0, 1}, accepts, 2, 2, 0)
    case 3 => Server(Pool({2}, {1, 2}, 3, 0), Handed(4, {}), map[1 := Context(0, AcceptedSocket, {2}, 0, 1)], 2,
                     marked[2 := Tag(Accept, 3)], {1, 2}, map[1 := Op(LISTEN, 1, Accept)], 2, 2, 1)
    case 4 => Server(Pool({}, {1, 2}, 3, 0), Handed(5, {}), map[1 := Context(0, AcceptedSocket, {2}, 0, 1)], 2,
                     marked[2 := Tag(Exit, 4)], {1, 2}, rest, 3, 2, 1)
    case 5 => Server(Pool({}, {1, 2}, 3, 0), Handed(5, {}), map[1 := Context(0, AcceptedSocket, {2}, 0, 2)], 2,
                     marked[2 := Tag(Exit, 4)], {1, 2}, rest, 3, 2, 1)
    case _ => Server(Pool({2}, {1, 2}, 3, 0), Handed(5, {0}), map[], 2,
                     marked[2 := Tag(Exit, 4)], {1, 2}, rest, 3, 2, 1)
  }

  lemma TwoSlots()
    ensures Enabled(After(0), OPEN_FIRST) && Apply(After(0), OPEN_FIRST) == After(1)
    ensures Enabled(After(1), OPEN_SECOND) && Apply(After(1), OPEN_SECOND) == After(2)
  {
    HandOne(0, {});
    HandOne(1, {});
    GrowNone(After(0).res.buf);
    GrowNone(After(1).res.buf);
    assert After(0).res.sk == Handed(0, {});
  }

  // Inside ACCEPT_FIRST: the accept dequeued, the connection taken over, and one try made.
  function Inside(n: nat): State {
    var s := After(2).(pending := map[1 := Op(LISTEN, 1, Accept)]);
    var s1 := Server(Pool({2}, {0, 1, 2}, 3, 0), Handed(2, {}), map[1 := Context(0, AcceptedSocket, {2}, 0, 1)], 2,
                     s.tags[2 := Tag(Read, 0)], {0, 1}, s.pending, 2, 2, 0);
    match n
    case 0 => s
    case 1 => s1
    case 2 => s1.(res := s1.res.(sk := Handed(3, {})), tags := s1.tags[2 := Tag(Accept, 2)], listen := {0, 1, 2})
    case _ => s1.(res := s1.res.(sk := Handed(4, {})), tags := s1.tags[2 := Tag(Accept, 3)], listen := {0, 1, 2})
  }

  lemma TakeTwo(inUse: set<nat>)
    requires 2 in inUse
    ensures CanGet(Pool({2}, inUse, 3, 0), Get(0, 2))
    ensures DoGet(Pool({2}, inUse, 3, 0), Get(0, 2)) == Pool({}, inUse, 3, 0)
    ensures Release(Pool({}, inUse, 3, 0), 2, true) == Pool({2}, inUse, 3, 0)
  {
    GrowNone(Pool({2}, inUse, 3, 0));
    assert inUse + {2} == inUse;
  }

  // With buffer 2 the only free one, a refused try takes and recycles it.
  lemma RefusedTry(s: State, n: nat)
    requires s.res.buf == Pool({2}, {0, 1, 2}, 3, 0) && s.res.sk == Handed(n, {})
    ensures CanTry(s, Try(Get(0, 2), n, false, true))
    ensures TryAccept(s, Try(Get(0, 2), n, false, true))
         == s.(res := s.res.(sk := Handed(n + 1, {})), tags := s.tags[2 := Tag(Accept, n)], listen := s.listen + {2})
  {
    HandOne(n, {});
    TakeTwo(s.res.buf.inUse);
    hide Handed, CanGet, DoGet, Release;
  }

  lemma ReadRefused()
    ensures CanGet(Inside(0).res.buf, ACCEPT_FIRST.c.arrival.read.get)
    ensures Arrive(Inside(0), 0, ACCEPT_FIRST.c.arrival) == Inside(1)
  {
    hide Handed;
    GrowNone(Inside(0).res.buf);
  }

  // An accept whose two tries are refused.
  lemma TwiceRefused(s: State, id: nat, bytes: nat, c: Choices, s1: State, s2: State)
    requires id in s.pending && Route(s, s.pending[id], true, bytes) == GotAccept
    requires var s0 := s.(pending := s.pending - {id});
             CanGet(s0.res.buf, c.arrival.read.get) && Arrive(s0, s.pending[id].buf, c.arrival) == s1
    requires !c.first.posted && CanTry(s1, c.first) && TryAccept(s1, c.first) == s2
    requires !c.second.posted && CanTry(s2, c.second)
    ensures CanComplete(s, id, true, bytes, c)
    ensures var s3 := TryAccept(s2, c.second);
            Complete(s, id, true, bytes, c) == ReleaseListenBuffer(s3.(lost := s3.lost + 1), s.pending[id].buf, c.recycle)
  {
    hide Arrive, TryAccept, CanTry, CanGet;
  }

  lemma FirstIsAccept()
    ensures 0 in After(2).pending && After(2).pending[0] == Op(LISTEN, 0, Accept)
    ensures Route(After(2), After(2).pending[0], true, 0) == GotAccept
    ensures After(2).(pending := After(2).pending - {0}) == Inside(0)
  {
    assert After(2).pending - {0} == Inside(0).pending;
  }

  lemma SlotLost()
    ensures Enabled(After(2), ACCEPT_FIRST) && Apply(After(2), ACCEPT_FIRST) == After(3)
  {
    hide Handed, After, Inside, Route, Arrive, TryAccept, CanTry, CanGet, ReleaseListenBuffer;
    var c := ACCEPT_FIRST.c;
    FirstIsAccept();
    ReadRefused();
    TriesRefused();
    TwiceRefused(After(2), 0, 0, c, Inside(1), Inside(2));
    BufferDestroyed();
  }

  lemma TriesRefused()
    ensures var c := ACCEPT_FIRST.c;
            && CanTry(Inside(1), c.first) && TryAccept(Inside(1), c.first) == Inside(2)
            && CanTry(Inside(2), c.second) && TryAccept(Inside(2), c.second) == Inside(3)
  {
    hide Handed, CanTry, TryAccept;
    RefusedTry(Inside(1), 2);
    RefusedTry(Inside(2), 3);
  }

  lemma BufferDestroyed()
    ensures ReleaseListenBuffer(Inside(3).(lost := Inside(3).lost + 1), 0, false) == After(3)
  {
    hide Handed;
  }

  // With buffer 2 the only free one, an exit packet takes it.
  lemma ExitTakes(s: State, n: nat)
    requires s.res.buf == Pool({2}, {1, 2}, 3, 0) && s.res.sk == Handed(n, {})
    ensures Enabled(s, QueueExit(Get(0, 2), n))
    ensures Apply(s, QueueExit(Get(0, 2), n))
         == s.(res := s.res.(buf := Pool({}, {1, 2}, 3, 0), sk := Handed(n + 1, {})),
               tags := s.tags[2 := Tag(Exit, n)], listen := s.listen + {2},
               pending := s.pending[s.nextOp := Op(LISTEN, 2, Exit)], nextOp := s.nextOp + 1)
  {
    HandOne(n, {});
    TakeTwo(s.res.buf.inUse);
    hide Handed, CanGet, DoGet;
  }

  lemma ExitQueued()
    ensures Enabled(After(3), QUEUE_EXIT) && Apply(After(3), QUEUE_EXIT) == After(4)
  {
    hide Handed, Enabled, Apply;
    ExitTakes(After(3), 4);
  }

  lemma SweepOne(s: State, v: Visit)
    requires s.res.addrs == {v.key}
    ensures Enabled(s, SweepAll([v])) && Apply(s, SweepAll([v])) == s.(res := VisitOne(s.res, v))
  {
    hide VisitOne;
    assert [v][..0] == [] && [v][0].key == v.key;
    assert Sweep(s.res, []) == s.res;
  }

  lemma Found()
    ensures Enabled(After(4), FIND_IDLE) && Apply(After(4), FIND_IDLE) == After(5)
  {
    hide Handed, Enabled, Apply;
    SweepOne(After(4), Visit(1, 1, {}));
  }

  lemma Evicted()
    ensures Enabled(After(5), EVICT) && Apply(After(5), EVICT) == After(6)
  {
    hide Handed, ReleaseAll, Sockets.Close, Enabled, Apply;
    SweepOne(After(5), Visit(1, 1, {2}));
    BufferRecycled();
    SocketClosed();
  }

  lemma BufferRecycled()
    ensures ReleaseAll(Pool({}, {1, 2}, 3, 0), {2}, {2}) == Pool({2}, {1, 2}, 3, 0)
  {
  }

  lemma SocketClosed()
    ensures Sockets.Close(Handed(5, {}), 0) == Handed(5, {0})
  {
    assert Range(0, 5) - {} - {0} == Range(0, 5) - {0};
  }

  /** After these six steps of a new server an exit packet is queued with buffer 2, and buffer 2 is free. */
  lemma BeginningLeads()
    ensures Leads(SMALLEST, BEGINNING, After(6))
  {
    hide Init, Legal, Replay, Enabled, Apply, Handed, After;
    StartLeads();
    TwoSlots();
    SlotLost();
    ExitQueued();
    Found();
    Evicted();
    assert BEGINNING[..0] == [] && BEGINNING[..6] == BEGINNING;
    ExtendAt(SMALLEST, BEGINNING, 0, After(0));
    ExtendAt(SMALLEST, BEGINNING, 1, After(1));
    ExtendAt(SMALLEST, BEGINNING, 2, After(2));
    ExtendAt(SMALLEST, BEGINNING, 3, After(3));
    ExtendAt(SMALLEST, BEGINNING, 4, After(4));
    ExtendAt(SMALLEST, BEGINNING, 5, After(5));
  }

  lemma StartLeads()
    ensures Leads(SMALLEST, [], After(0))
  {
  }

  // An accept posted again at the first try.
  lemma OnceAccepted(s: State, id: nat, bytes: nat, c: Choices, s1: State)
    requires id in s.pending && Route(s, s.pending[id], true, bytes) == GotAccept
    requires var s0 := s.(pending := s.pending - {id});
             CanGet(s0.res.buf, c.arrival.read.get) && Arrive(s0, s.pending[id].buf, c.arrival) == s1
    requires c.first.posted && CanTry(s1, c.first)
    ensures CanComplete(s, id, true, bytes, c)
    ensures Complete(s, id, true, bytes, c)
         == ReleaseListenBuffer(TryAccept(s1, c.first), s.pending[id].buf, c.recycle)
  {
    hide Arrive, TryAccept, CanTry, CanGet;
  }

  lemma SecondIsAccept()
    ensures 1 in After(6).pending && After(6).pending[1] == Op(LISTEN, 1, Accept)
    ensures Route(After(6), After(6).pending[1], true, 0) == GotAccept
    ensures After(6).(pending := After(6).pending - {1}) == Waiting()
  {
    hide Handed;
    assert After(6).pending - {1} == Waiting().pending;
  }

  // The server with the second accept dequeued: the exit packet is the only operation pending.
  function Waiting(): State {
    After(6).(pending := map[2 := Op(LISTEN, 2, Exit)])
  }

  // ----- the exit packet is dropped -----

  // The second accept's connection is given buffer 2 to read into.
  const READ_TAKES: Step :=
    Completion(1, true, 0, Choices(Arrival(2, true, ReadPost(Get(0, 2), true, false)),
                                   Try(Get(0, 3), 5, true, false), NO_TRY, NO_READ, 0, false, {}))

  // The server once the read is posted.
  function Reading(): State {
    Server(Pool({}, {1, 2}, 3, 0), Handed(5, {0}), map[2 := Context(1, AcceptedSocket, {2}, 2, 1)], 3,
           Waiting().tags[2 := Tag(Read, 1)], {1, 2}, Waiting().pending[3 := Op(2, 2, Read)], 4, 2, 1)
  }

  // The server at the end of READ_TAKES.
  function Dropping(): State {
    Reading().(res := Reading().res.(buf := Pool({}, {2, 3}, 4, 0), sk := Handed(6, {0})),
               tags := Reading().tags[3 := Tag(Accept, 5)], listen := {2, 3},
               pending := Reading().pending[4 := Op(LISTEN, 3, Accept)], nextOp := 5)
  }

  lemma ReadPosted()
    ensures CanGet(Waiting().res.buf, READ_TAKES.c.arrival.read.get)
    ensures Arrive(Waiting(), 1, READ_TAKES.c.arrival) == Reading()
  {
    hide Handed;
    GrowNone(Waiting().res.buf);
  }

  // With no free buffer, an accept is posted with a new one.
  lemma TakesNew(s: State, n: nat, gone: set<nat>)
    requires s.res.buf.free == {} && s.res.buf.refill == 0 && s.res.sk == Handed(n, gone)
    requires forall q | q in gone :: q < n
    ensures var b := s.res.buf.next;
            && CanTry(s, Try(Get(0, b), n, true, false))
            && TryAccept(s, Try(Get(0, b), n, true, false))
            == Post(s.(res := s.res.(buf := Pool({}, s.res.buf.inUse + {b}, b + 1, 0), sk := Handed(n + 1, gone)),
                       tags := s.tags[b := Tag(Accept, n)], listen := s.listen + {b}), LISTEN, b, Accept)
  {
    HandOne(n, gone);
    hide Handed;
    GrowNone(s.res.buf);
  }

  lemma AcceptPosted()
    ensures var t := READ_TAKES.c.first;
            CanTry(Reading(), t) && ReleaseListenBuffer(TryAccept(Reading(), t), 1, false) == Dropping()
  {
    hide Handed, CanTry, TryAccept;
    TakesNew(Reading(), 5, {0});
  }

  lemma ReadTakes()
    ensures Enabled(After(6), READ_TAKES) && Apply(After(6), READ_TAKES) == Dropping()
  {
    hide After, Handed, Waiting, Reading, Dropping, Route, Arrive, TryAccept, CanTry, CanGet, ReleaseListenBuffer;
    SecondIsAccept();
    ReadPosted();
    AcceptPosted();
    OnceAccepted(After(6), 1, 0, READ_TAKES.c, Reading());
  }

  lemma DroppedThere(ok: bool, bytes: nat)
    ensures Dropping().pending[2] == Op(LISTEN, 2, Exit) && Route(Dropping(), Dropping().pending[2], ok, bytes) == Dropped
  {
    hide Handed;
  }

  /** An exit packet can be dropped: after this legal run of a new server one is queued whose
      handler, finding a read's header, drops it, whatever the dequeue reports. */
  lemma ExitDropped()
    ensures Leads(SMALLEST, BEGINNING + [READ_TAKES], Dropping())
    ensures 2 in Dropping().pending && Dropping().pending[2].kind == Exit
    ensures forall ok, bytes: nat :: Route(Dropping(), Dropping().pending[2], ok, bytes) == Dropped
  {
    hide Leads, Enabled, Apply, Handed, After, Route;
    BeginningLeads();
    ReadTakes();
    Extend(SMALLEST, BEGINNING, After(6), READ_TAKES);
    forall ok, bytes: nat ensures Route(Dropping(), Dropping().pending[2], ok, bytes) == Dropped {
      DroppedThere(ok, bytes);
    }
  }

  // ----- the exit packet is taken for an accept -----

  // The second connection's read is refused as well, and the accept posted next is given buffer 2.
  const TRY_TAKES: Step :=
    Completion(1, true, 0, Choices(Arrival(2, true, ReadPost(Get(0, 2), false, true)),
                                   Try(Get(0, 2), 5, true, false), NO_TRY, NO_READ, 0, false, {}))

  // The exit packet is handled.
  const HANDLE_EXIT: Step :=
    Completion(2, true, 0, Choices(Arrival(3, true, ReadPost(Get(0, 3), true, false)),
                                   Try(Get(0, 4), 6, true, false), NO_TRY, NO_READ, 0, false, {}))

  // The server once the read is refused, and at the end of TRY_TAKES.
  function Refusing(): State {
    Server(Pool({2}, {1, 2}, 3, 0), Handed(5, {0}), map[2 := Context(1, AcceptedSocket, {2}, 2, 1)], 3,
           Waiting().tags[2 := Tag(Read, 1)], {1, 2}, Waiting().pending, 3, 2, 1)
  }

  function Marked(): State {
    Refusing().(res := Refusing().res.(buf := Pool({}, {2}, 3, 0), sk := Handed(6, {0})),
                tags := Refusing().tags[2 := Tag(Accept, 5)], listen := {2},
                pending := map[2 := Op(LISTEN, 2, Exit), 3 := Op(LISTEN, 2, Accept)], nextOp := 4)
  }

  lemma SecondReadRefused()
    ensures CanGet(Waiting().res.buf, TRY_TAKES.c.arrival.read.get)
    ensures Arrive(Waiting(), 1, TRY_TAKES.c.arrival) == Refusing()
  {
    hide Handed;
    GrowNone(Waiting().res.buf);
  }

  // With buffer 2 the only free one, an accept is posted with it.
  lemma TakesFree(s: State, n: nat, gone: set<nat>)
    requires s.res.buf == Pool({2}, {1, 2}, 3, 0) && s.res.sk == Handed(n, gone)
    requires forall q | q in gone :: q < n
    ensures CanTry(s, Try(Get(0, 2), n, true, false))
    ensures TryAccept(s, Try(Get(0, 2), n, true, false))
         == Post(s.(res := s.res.(buf := Pool({}, {1, 2}, 3, 0), sk := Handed(n + 1, gone)),
                    tags := s.tags[2 := Tag(Accept, n)], listen := s.listen + {2}), LISTEN, 2, Accept)
  {
    HandOne(n, gone);
    hide Handed;
    TakeTwo(s.res.buf.inUse);
    hide CanGet, DoGet;
  }

  lemma AcceptTakes()
    ensures var t := TRY_TAKES.c.first;
            CanTry(Refusing(), t) && ReleaseListenBuffer(TryAccept(Refusing(), t), 1, false) == Marked()
  {
    hide Handed, CanTry, TryAccept;
    TakesFree(Refusing(), 5, {0});
  }

  lemma TryTakes()
    ensures Enabled(After(6), TRY_TAKES) && Apply(After(6), TRY_TAKES) == Marked()
  {
    hide After, Handed, Waiting, Refusing, Marked, Route, Arrive, TryAccept, CanTry, CanGet, ReleaseListenBuffer;
    SecondIsAccept();
    SecondReadRefused();
    AcceptTakes();
    OnceAccepted(After(6), 1, 0, TRY_TAKES.c, Refusing());
  }

  lemma ArrivesAgain(s: State)
    requires s.res.buf == Pool({}, {2}, 3, 0) && 2 in s.tags
    ensures var a := HANDLE_EXIT.c.arrival;
            && CanGet(s.res.buf, a.read.get)
            && Arrive(s, 2, a).res.buf == Pool({}, {2, 3}, 4, 0) && Arrive(s, 2, a).res.sk == s.res.sk
  {
    GrowNone(s.res.buf);
  }

  lemma ExitIsAccept()
    ensures 2 in Marked().pending && Marked().pending[2] == Op(LISTEN, 2, Exit)
    ensures ReadAs(Marked(), Marked().pending[2]) == Accept
  {
    hide Handed;
  }

  lemma MarkedIs()
    ensures var s := Marked(); s.res.buf == Pool({}, {2}, 3, 0) && s.res.sk == Handed(6, {0}) && 2 in s.tags
  {
    hide Handed;
  }

  lemma HandleEnabled()
    ensures Enabled(Marked(), HANDLE_EXIT)
  {
    ExitIsAccept();
    MarkedIs();
    hide Handed, Marked, Arrive, TryAccept, CanTry, CanGet;
    var s0 := Marked().(pending := Marked().pending - {2});
    ArrivesAgain(s0);
    TakesNew(Arrive(s0, 2, HANDLE_EXIT.c.arrival), 6, {0});
    OnceAccepted(Marked(), 2, 0, HANDLE_EXIT.c, Arrive(s0, 2, HANDLE_EXIT.c.arrival));
  }

  /** The premise of conservation cannot be dropped: in this legal run of a new server the handler
      takes an exit packet for an accept, and then one more accept is pending or lost than slots were opened. */
  lemma ExitTakenForAccept()
    ensures var run := BEGINNING + [TRY_TAKES, HANDLE_EXIT];
            && Init(SMALLEST) && Legal(SMALLEST, run)
            && (var s := Replay(SMALLEST, run); |Accepts(s.pending)| + s.lost == s.slots + 1)
            && !Conserved(SMALLEST, run) && !Tame(SMALLEST, run)
  {
    hide Init, Legal, Replay, Enabled, Apply, Handed, After, Tame;
    BeginningLeads();
    TryTakes();
    HandleEnabled();
    ExitIsAccept();
    var before, run := BEGINNING + [TRY_TAKES], BEGINNING + [TRY_TAKES, HANDLE_EXIT];
    Extend(SMALLEST, BEGINNING, After(6), TRY_TAKES);
    Extend(SMALLEST, before, Marked(), HANDLE_EXIT);
    assert before + [HANDLE_EXIT] == run && run[..|run| - 1] == before;
    SlotsDrift(SMALLEST, before);
    SlotsDrift(SMALLEST, run);
    assert Accepts(Marked().pending) == {3};
    if Tame(SMALLEST, run) { RunKeepsSlots(SMALLEST, run); }
  }
}
