/** What every step of the protocol keeps, whatever fails and whatever is recycled. */
module Lifecycle {
  import opened BufferPool
  import Sockets = SocketPool
  import opened SocketContexts
  import opened ResourceManagers
  import opened Protocol

  // The map of contexts and the address set agree, and every context is an accepted
  // connection that has been found idle at most once.
  ghost predicate Contexts(ctxs: map<nat, Context>, addrs: set<nat>, next: nat) {
    && Registered(ctxs, addrs, next)
    && (forall k | k in ctxs :: ctxs[k].kind == AcceptedSocket && (ctxs[k].checks == 1 || ctxs[k].checks == 2))
  }

  // Operations under a connection's key are reads, one at a time.
  ghost predicate OneReadEach(pending: map<nat, Op>, nextOp: nat, next: nat) {
    && (forall i | i in pending :: i < nextOp)
    && (forall i | i in pending && pending[i].key != LISTEN :: pending[i].key < next && pending[i].kind == Read)
    && (forall i | i in pending && pending[i].key == LISTEN :: pending[i].kind == Accept || pending[i].kind == Exit)
    && (forall i, j | i in pending && j in pending && i != j && pending[i].key == pending[j].key ::
          pending[i].key == LISTEN)
  }

  // Every buffer that is cached or pending has a header.
  ghost predicate Headers(tags: map<nat, Tag>, pending: map<nat, Op>, ctxs: map<nat, Context>) {
    && (forall b | b in tags :: tags[b].kind == Accept || tags[b].kind == Read || tags[b].kind == Exit)
    && (forall i | i in pending :: pending[i].buf in tags)
    && (forall k | k in ctxs :: ctxs[k].cache <= tags.Keys)
  }

  ghost predicate Allocated(buf: Pool, tags: map<nat, Tag>) {
    && Bounded(buf)
    && (forall b | b in tags :: b < buf.next)
  }

  ghost predicate Base(s: State) {
    && 0 < s.res.next
    && Contexts(s.res.ctxs, s.res.addrs, s.res.next)
    && OneReadEach(s.pending, s.nextOp, s.res.next)
    && Headers(s.tags, s.pending, s.res.ctxs)
    && Allocated(s.res.buf, s.tags)
    && Sockets.Accounts(s.res.sk)
  }

  // ----- the building blocks -----

  lemma ConsumeBase(s: State, id: nat)
    requires Base(s) && id in s.pending
    ensures Base(s.(pending := s.pending - {id}))
  {
  }

  lemma CreateBase(s: State, sock: nat, now: int)
    requires Base(s)
    ensures Base(s.(res := Create(s.res, sock, AcceptedSocket, now)))
  {
  }

  lemma ArmReadBase(s: State, k: nat, g: Get)
    requires Base(s) && k in s.res.ctxs && CanGet(s.res.buf, g)
    ensures Base(ArmRead(s, k, g))
  {
    hide OneReadEach, DoGet, CanGet, Sockets.Accounts;
    GetIsFresh(s.res.buf, g);
  }

  lemma PostBase(s: State, key: nat, b: nat, kind: Kind)
    requires Base(s) && b in s.tags && key < s.res.next
    requires if key == LISTEN then kind == Accept || kind == Exit else kind == Read
    requires key != LISTEN ==> forall i | i in s.pending :: s.pending[i].key != key
    ensures Base(Post(s, key, b, kind))
  {
  }

  lemma ReleaseBufferBase(s: State, b: nat, recycle: bool)
    requires Base(s) && b in s.tags
    ensures Base(ReleaseBuffer(s, b, recycle))
  {
  }

  lemma SetCacheBase(s: State, k: nat, cache: set<nat>)
    requires Base(s) && k in s.res.ctxs && cache <= s.tags.Keys
    ensures Base(SetCache(s, k, cache))
  {
  }

  lemma ArmListenBase(s: State, g: Get, sock: nat, kind: Kind)
    requires Base(s) && CanGet(s.res.buf, g) && Sockets.CanTake(s.res.sk, sock)
    requires kind == Accept || kind == Exit
    ensures Base(ArmListen(s, g, sock, kind))
  {
    hide Contexts, OneReadEach, Sockets.Take, Sockets.CanTake, Sockets.Accounts;
    GetIsFresh(s.res.buf, g);
    Sockets.TakeAccounts(s.res.sk, sock);
  }

  lemma ReleaseContextBase(s: State, k: nat, kept: set<nat>)
    requires Base(s) && k in s.res.ctxs
    ensures Base(s.(res := ReleaseContext(s.res, k, kept)))
  {
    assert Bounded(ReleaseContext(s.res, k, kept).buf) by {
      assert s.res.ctxs[k].cache <= s.tags.Keys;
    }
  }

  // ----- the handlers -----

  lemma PostReadBase(s: State, k: nat, b: nat, posted: bool, recycle: bool)
    requires Base(s) && b in s.tags && k in s.res.ctxs
    requires forall i | i in s.pending :: s.pending[i].key != k
    ensures Base(PostRead(s, k, b, posted, recycle))
  {
    if posted { PostBase(s, k, b, Read); } else { ReleaseBufferBase(s, b, recycle); }
  }

  lemma ArriveBase(s: State, b: nat, a: Arrival)
    requires Base(s) && b in s.tags && CanGet(s.res.buf, a.read.get)
    ensures Base(Arrive(s, b, a))
  {
    var k := s.res.next;
    CreateBase(s, s.tags[b].sock, a.now);
    var s1 := s.(res := Create(s.res, s.tags[b].sock, AcceptedSocket, a.now));
    ArmReadBase(s1, k, a.read.get);
    var s2 := ArmRead(s1, k, a.read.get);
    if a.bound { PostReadBase(s2, k, a.read.get.b, a.read.posted, a.read.recycle); }
  }

  lemma ReadAgainBase(s: State, k: nat, r: ReadPost)
    requires Base(s) && k in s.res.ctxs && CanGet(s.res.buf, r.get)
    requires forall i | i in s.pending :: s.pending[i].key != k
    ensures Base(ReadAgain(s, k, r))
  {
    ArmReadBase(s, k, r.get);
    PostReadBase(ArmRead(s, k, r.get), k, r.get.b, r.posted, r.recycle);
  }

  lemma TryAcceptBase(s: State, t: Try)
    requires Base(s) && CanTry(s, t)
    ensures Base(TryAccept(s, t))
  {
    ArmListenBase(s, t.get, t.sock, Accept);
    var s1 := ArmListen(s, t.get, t.sock, Accept);
    if t.posted { PostBase(s1, LISTEN, t.get.b, Accept); } else { ReleaseBufferBase(s1, t.get.b, t.recycle); }
  }

  lemma PostAcceptBase(s: State, first: Try, second: Try)
    requires Base(s) && CanPostAccept(s, first, second)
    ensures Base(PostAccept(s, first, second))
  {
    TryAcceptBase(s, first);
    if !first.posted { TryAcceptBase(TryAccept(s, first), second); }
  }

  // Posting an accept leaves the connections alone, and takes no socket out of use.
  lemma TryAcceptLeaves(s: State, t: Try)
    ensures var s' := TryAccept(s, t); s'.res.ctxs == s.res.ctxs && s.res.sk.inUse <= s'.res.sk.inUse
  {
  }

  lemma PostAcceptLeaves(s: State, first: Try, second: Try)
    ensures var s' := PostAccept(s, first, second); s'.res.ctxs == s.res.ctxs && s.res.sk.inUse <= s'.res.sk.inUse
  {
    hide TryAccept;
    TryAcceptLeaves(s, first);
    TryAcceptLeaves(TryAccept(s, first), second);
  }

  lemma ReleaseContextBufferBase(s: State, k: nat, b: nat, recycle: bool)
    requires Base(s) && k in s.res.ctxs && b in s.tags
    ensures Base(ReleaseContextBuffer(s, k, b, recycle))
  {
    ReleaseBufferBase(s, b, recycle);
    SetCacheBase(ReleaseBuffer(s, b, recycle), k, s.res.ctxs[k].cache - {b});
  }

  lemma ResetTimerBase(s: State, k: nat, now: int)
    requires Base(s) && k in s.res.ctxs
    ensures Base(ResetTimer(s, k, now))
  {
  }

  lemma TagsKept(s: State, b: nat, a: Arrival, first: Try, second: Try)
    requires b in s.tags
    ensures b in Arrive(s, b, a).tags
    ensures b in PostAccept(Arrive(s, b, a), first, second).tags
  {
  }

  lemma GotAcceptBase(s: State, b: nat, c: Choices)
    requires Base(s) && b in s.tags && CanGet(s.res.buf, c.arrival.read.get)
    requires CanPostAccept(Arrive(s, b, c.arrival), c.first, c.second)
    ensures Base(ReleaseListenBuffer(PostAccept(Arrive(s, b, c.arrival), c.first, c.second), b, c.recycle))
  {
    ArriveBase(s, b, c.arrival);
    TagsKept(s, b, c.arrival, c.first, c.second);
    hide Arrive, PostAccept, CanPostAccept;
    PostAcceptBase(Arrive(s, b, c.arrival), c.first, c.second);
    ReleaseBufferBase(PostAccept(Arrive(s, b, c.arrival), c.first, c.second), b, c.recycle);
  }

  lemma GotBytesBase(s: State, k: nat, b: nat, c: Choices)
    requires Base(s) && k in s.res.ctxs && b in s.tags && CanGet(s.res.buf, c.again.get)
    requires forall i | i in s.pending :: s.pending[i].key != k
    ensures Base(ReleaseContextBuffer(ReadAgain(ResetTimer(s, k, c.now), k, c.again), k, b, c.recycle))
  {
    hide Base;
    ResetTimerBase(s, k, c.now);
    ReadAgainBase(ResetTimer(s, k, c.now), k, c.again);
    ReleaseContextBufferBase(ReadAgain(ResetTimer(s, k, c.now), k, c.again), k, b, c.recycle);
  }

  // What Base says of a dequeued operation.
  lemma OpBase(s: State, id: nat)
    requires Base(s) && id in s.pending
    ensures var op := s.pending[id];
            && op.buf in s.tags && s.tags[op.buf].kind != Write
            && (op.key in s.res.ctxs ==> forall i | i in s.pending - {id} :: s.pending[i].key != op.key)
  {
  }

  lemma CompleteBase(s: State, id: nat, ok: bool, bytes: nat, c: Choices)
    requires Base(s) && CanComplete(s, id, ok, bytes, c)
    ensures Base(Complete(s, id, ok, bytes, c))
  {
    hide Base, Arrive, PostAccept, CanPostAccept, CanGet, ReadAgain, ResetTimer, ReleaseListenBuffer, ReleaseContextBuffer,
         ReleaseContext;
    var op := s.pending[id];
    var s0 := s.(pending := s.pending - {id});
    ConsumeBase(s, id);
    OpBase(s, id);
    match Route(s, op, ok, bytes)
    case GotAccept => GotAcceptBase(s0, op.buf, c);
    case GotBytes => GotBytesBase(s0, op.key, op.buf, c);
    case ClientGone => ReleaseContextBase(s0, op.key, c.kept);
    case Failed =>
      ReleaseBufferBase(s0, op.buf, c.recycle);
      LoseBase(ReleaseBuffer(s0, op.buf, c.recycle));
    case _ => WaitBase(s0);
  }

  lemma LoseBase(s: State)
    requires Base(s)
    ensures Base(s.(lost := s.lost + 1))
  {
  }

  lemma WaitBase(s: State)
    requires Base(s)
    ensures Base(s.(waiting := false))
  {
  }

  lemma VisitBase(s: State, v: Visit)
    requires Base(s)
    ensures Base(s.(res := VisitOne(s.res, v)))
  {
    if Evicts(s.res, v) { ReleaseContextBase(s, v.key, v.kept); }
  }

  lemma {:induction false} SweepBase(s: State, visits: seq<Visit>)
    requires Base(s)
    ensures Base(s.(res := Sweep(s.res, visits)))
  {
    if visits != [] {
      var before := visits[..|visits| - 1];
      SweepBase(s, before);
      VisitBase(s.(res := Sweep(s.res, before)), visits[|visits| - 1]);
    } else {
      assert s.(res := Sweep(s.res, visits)) == s;
    }
  }

  lemma StepBase(s: State, step: Step)
    requires Base(s) && Enabled(s, step)
    ensures Base(Apply(s, step))
  {
    match step
    case OpenSlot(first, second) => PostAcceptBase(s, first, second);
    case Start =>
    case Completion(id, ok, bytes, c) => CompleteBase(s, id, ok, bytes, c);
    case SweepAll(visits) => SweepBase(s, visits);
    case QueueExit(get, sock) =>
      ArmListenBase(s, get, sock, Exit);
      PostBase(ArmListen(s, get, sock, Exit), LISTEN, get.b, Exit);
  }

  /** In every reachable state, failures included: the context map and the address set hold
      the same keys, a connection has at most one outstanding read, and the socket pool's
      books balance. */
  lemma {:induction false} RunKeepsBase(s: State, run: seq<Step>)
    requires Init(s) && Legal(s, run)
    ensures Base(Replay(s, run))
    decreases |run|
  {
    if run != [] {
      RunKeepsBase(s, run[..|run| - 1]);
      StepBase(Replay(s, run[..|run| - 1]), run[|run| - 1]);
    }
  }

  /** A client's zero-byte completion unregisters its context and leaves no operation under
      its key, whatever failed before. */
  lemma GoneLeavesNoRead(s: State, id: nat, ok: bool, c: Choices)
    requires Base(s) && CanComplete(s, id, ok, 0, c) && Route(s, s.pending[id], ok, 0) == ClientGone
    ensures var s' := Complete(s, id, ok, 0, c);
            && s.pending[id].key !in s'.res.ctxs && s.pending[id].key !in s'.res.addrs
            && forall i | i in s'.pending :: s'.pending[i].key != s.pending[id].key
  {
  }
}
