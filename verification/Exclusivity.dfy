/** Exclusive ownership over whole runs, and exactly which steps end it. */
module Exclusivity {
  import opened BufferPool
  import Sockets = SocketPool
  import opened SocketContexts
  import opened ResourceManagers
  import opened Protocol
  import opened Lifecycle
  import opened Ownership

  // Every buffer a registered connection caches, or an operation on the listening socket uses, is in the in-use map.
  ghost predicate InUse(inUse: set<nat>, ctxs: map<nat, Context>, pending: map<nat, Op>) {
    && (forall k | k in ctxs :: ctxs[k].cache <= inUse)
    && (forall i | i in pending && pending[i].key == LISTEN :: pending[i].buf in inUse)
  }

  ghost predicate Owned(s: State) {
    Exclusive(s) && InUse(s.res.buf.inUse, s.res.ctxs, s.pending)
  }

  // What a packet should be treated as, from what its operation was posted as.
  function Intended(op: Op, registered: bool, ok: bool, bytes: nat): Branch {
    match op.kind
    case Exit => if ok then GotExit else Failed
    case Accept => if ok then GotAccept else Failed
    case _ =>
      if !registered then Dropped
      else if bytes == 0 then ClientGone
      else if ok then GotBytes
      else Failed
  }

  /** Under exclusive ownership the header found in the buffer is the one the operation was
      posted with: accepts and exits are always recognised, a read reaches its own connection,
      and a read whose connection was evicted is dropped. */
  lemma ReadAsPosted(s: State, id: nat)
    requires Exclusive(s) && id in s.pending
    ensures var op := s.pending[id];
            ReadAs(s, op) == if op.kind == Read && op.key !in s.res.ctxs then Null else op.kind
  {
  }

  // So every packet takes the branch its operation was posted for.
  lemma RouteIsIntended(s: State, id: nat, ok: bool, bytes: nat)
    requires Exclusive(s) && id in s.pending
    ensures Route(s, s.pending[id], ok, bytes)
         == Intended(s.pending[id], s.pending[id].key in s.res.ctxs, ok, bytes)
  {
  }

  // A completion gives a read's buffer back while its context still caches it: a read is
  // refused, or has failed with bytes.
  predicate GivesBackRead(s: State, op: Op, ok: bool, bytes: nat, c: Choices) {
    match Route(s, op, ok, bytes)
    case GotAccept => c.arrival.bound && !c.arrival.read.posted
    case GotBytes => !c.again.posted
    case Failed => Header(s, op) == Read
    case _ => false
  }

  // Whether the die recycles the buffer so given back.
  predicate ReadRecycled(s: State, op: Op, ok: bool, bytes: nat, c: Choices) {
    match Route(s, op, ok, bytes)
    case GotAccept => c.arrival.read.recycle
    case GotBytes => c.again.recycle
    case _ => c.recycle
  }

  // A read's buffer is recycled while its context still caches it, or the kernel still uses it.
  ghost predicate Recycles(s: State, step: Step)
    requires Enabled(s, step)
  {
    match step
    case Completion(id, ok, bytes, c) =>
      GivesBackRead(s, s.pending[id], ok, bytes, c) && ReadRecycled(s, s.pending[id], ok, bytes, c)
    case SweepAll(visits) => RecyclesPending(s, visits)
    case _ => false
  }

  // The sweep evicts a connection and recycles the buffer of its outstanding read.
  ghost predicate RecyclesPending(s: State, visits: seq<Visit>) {
    exists n, i :: 0 <= n < |visits| && Evicts(s.res, visits[n]) && i in s.pending
                && s.pending[i].key == visits[n].key && s.pending[i].buf in visits[n].kept
  }

  // A read's buffer is given back while its context still caches it, or recycled while the kernel still uses it.
  ghost predicate Strays(s: State, step: Step)
    requires Enabled(s, step)
  {
    match step
    case Completion(id, ok, bytes, c) => GivesBackRead(s, s.pending[id], ok, bytes, c)
    case SweepAll(visits) => RecyclesPending(s, visits)
    case _ => false
  }

  // ----- the handlers keep exclusive ownership -----

  lemma PostOrDestroy(s: State, hand: set<nat>, hs: set<nat>, k: nat, b: nat, posted: bool, recycle: bool)
    requires Holding(s, hand, hs) && k in s.res.ctxs && b in s.res.ctxs[k].cache
    requires b in s.tags && s.tags[b].kind == Read
    requires forall i | i in s.pending :: s.pending[i].key != k && s.pending[i].buf != b
    requires posted || !recycle
    ensures Holding(PostRead(s, k, b, posted, recycle), hand, hs)
  {
    if posted { PostReadHolds(s, hand, hs, k, b); } else { DestroyHolds(s, hand, hs, b); }
  }

  lemma ArriveHolds(s: State, b: nat, a: Arrival, hs: set<nat>)
    requires Holding(s, {b}, hs) && b in s.tags && s.tags[b].sock in hs && CanGet(s.res.buf, a.read.get)
    requires a.bound && !a.read.posted ==> !a.read.recycle
    ensures Holding(Arrive(s, b, a), {b}, hs - {s.tags[b].sock})
  {
    var sock, k := s.tags[b].sock, s.res.next;
    CreateHolds(s, {b}, hs, sock, a.now);
    var s1 := s.(res := Create(s.res, sock, AcceptedSocket, a.now));
    ArmReadHolds(s1, {b}, hs - {sock}, k, a.read.get);
    if a.bound {
      PostOrDestroy(ArmRead(s1, k, a.read.get), {b}, hs - {sock}, k, a.read.get.b, a.read.posted, a.read.recycle);
    }
  }

  lemma ReadAgainHolds(s: State, k: nat, r: ReadPost)
    requires Exclusive(s) && k in s.res.ctxs && CanGet(s.res.buf, r.get)
    requires forall i | i in s.pending :: s.pending[i].key != k
    requires r.posted || !r.recycle
    ensures Exclusive(ReadAgain(s, k, r))
  {
    ArmReadHolds(s, {}, {}, k, r.get);
    PostOrDestroy(ArmRead(s, k, r.get), {}, {}, k, r.get.b, r.posted, r.recycle);
  }

  lemma PostedHolds(s: State, hand: set<nat>, b: nat, sock: nat, kind: Kind)
    requires b !in hand && Holding(s, hand + {b}, {sock}) && b in s.listen
    requires s.tags[b] == Tag(kind, sock) && (kind == Accept || kind == Exit)
    ensures Holding(Post(s, LISTEN, b, kind), hand, {})
  {
    assert b in hand + {b};
    PostListenHolds(s, hand + {b}, {sock}, b, kind);
    assert hand + {b} - {b} == hand && {sock} - {sock} == {};
  }

  lemma RefusedHolds(s: State, hand: set<nat>, b: nat, sock: nat, recycle: bool)
    requires b !in hand && Holding(s, hand + {b}, {sock})
    ensures Holding(ReleaseBuffer(s, b, recycle), hand, {})
  {
    assert b in hand + {b};
    ReleaseHolds(s, hand + {b}, {sock}, b, recycle);
    assert hand + {b} - {b} == hand;
    Drop(ReleaseBuffer(s, b, recycle), hand, {sock}, hand, {});
  }

  lemma TryAcceptHolds(s: State, t: Try, hand: set<nat>)
    requires Holding(s, hand, {}) && CanTry(s, t)
    ensures Holding(TryAccept(s, t), hand, {})
  {
    hide Base, Apart, Placed, Truthful, SocketsApart;
    Unheld(s, hand, {}, t.get);
    ArmListenHolds(s, hand, {}, t.get, t.sock, Accept);
    assert {} + {t.sock} == {t.sock};
    var s1 := ArmListen(s, t.get, t.sock, Accept);
    if t.posted { PostedHolds(s1, hand, t.get.b, t.sock, Accept); }
    else { RefusedHolds(s1, hand, t.get.b, t.sock, t.recycle); }
  }

  lemma PostAcceptHolds(s: State, first: Try, second: Try, hand: set<nat>)
    requires Holding(s, hand, {}) && CanPostAccept(s, first, second)
    ensures Holding(PostAccept(s, first, second), hand, {})
  {
    TryAcceptHolds(s, first, hand);
    if !first.posted { TryAcceptHolds(TryAccept(s, first), second, hand); }
  }

  lemma ReleaseListenHolds(s: State, b: nat, recycle: bool)
    requires Holding(s, {b}, {})
    ensures Exclusive(ReleaseListenBuffer(s, b, recycle))
  {
    assert b in {b};
    ReleaseHolds(s, {b}, {}, b, recycle);
    assert {b} - {b} == {};
  }

  // After the arrival the handler has only the accept's own buffer in hand.
  lemma ArrivedHolds(s: State, id: nat, a: Arrival)
    requires Exclusive(s) && id in s.pending && s.pending[id].kind == Accept && CanGet(s.res.buf, a.read.get)
    requires a.bound && !a.read.posted ==> !a.read.recycle
    ensures s.pending[id].buf in s.tags
    ensures Holding(Arrive(s.(pending := s.pending - {id}), s.pending[id].buf, a), {s.pending[id].buf}, {})
  {
    var sock := s.tags[s.pending[id].buf].sock;
    ConsumeHolds(s, id);
    ArriveHolds(s.(pending := s.pending - {id}), s.pending[id].buf, a, {sock});
    assert {sock} - {sock} == {};
  }

  lemma GotAcceptHolds(s: State, id: nat, bytes: nat, c: Choices)
    requires Exclusive(s) && CanComplete(s, id, true, bytes, c) && Route(s, s.pending[id], true, bytes) == GotAccept
    requires c.arrival.bound && !c.arrival.read.posted ==> !c.arrival.read.recycle
    ensures Exclusive(Complete(s, id, true, bytes, c))
  {
    var op := s.pending[id];
    RouteIsIntended(s, id, true, bytes);
    ArrivedHolds(s, id, c.arrival);
    var s1 := Arrive(s.(pending := s.pending - {id}), op.buf, c.arrival);
    PostAcceptHolds(s1, c.first, c.second, {op.buf});
    ReleaseListenHolds(PostAccept(s1, c.first, c.second), op.buf, c.recycle);
  }

  lemma ResetTimerHolds(s: State, k: nat, now: int)
    requires Exclusive(s) && k in s.res.ctxs
    ensures Exclusive(ResetTimer(s, k, now))
  {
    hide Base, Truthful, Sockets.ClosedOnce;
    ResetTimerBase(s, k, now);
  }

  lemma ReleaseContextBufferHolds(s: State, k: nat, b: nat, recycle: bool)
    requires Exclusive(s) && k in s.res.ctxs && b in s.res.ctxs[k].cache && b in s.tags
    requires forall i | i in s.pending :: s.pending[i].buf != b
    ensures Exclusive(ReleaseContextBuffer(s, k, b, recycle))
  {
    hide Base, Placed, Truthful, SocketsApart;
    DropContextBuffer(s, {}, {}, k, b);
    var s1 := SetCache(s, k, s.res.ctxs[k].cache - {b});
    assert forall l | l in s1.res.ctxs :: b !in s1.res.ctxs[l].cache;
    ReleaseHolds(s1, {}, {}, b, recycle);
    assert {} - {b} == {};
    assert ReleaseBuffer(s1, b, recycle) == ReleaseContextBuffer(s, k, b, recycle);
  }

  lemma ConsumeReadHolds(s: State, id: nat)
    requires Exclusive(s) && id in s.pending && s.pending[id].key in s.res.ctxs
    ensures var s0 := s.(pending := s.pending - {id});
            && Exclusive(s0)
            && s.pending[id].buf in s0.tags && s.pending[id].buf in s0.res.ctxs[s.pending[id].key].cache
            && forall i | i in s0.pending ::
                 s0.pending[i].key != s.pending[id].key && s0.pending[i].buf != s.pending[id].buf
  {
    ConsumeHolds(s, id);
    assert s.pending[id].kind == Read;
  }

  lemma ReadAgainLeaves(s: State, k: nat, r: ReadPost, b: nat)
    requires k in s.res.ctxs && b in s.res.ctxs[k].cache && b in s.tags && r.get.b != b
    requires forall i | i in s.pending :: s.pending[i].buf != b
    ensures var s' := ReadAgain(s, k, r);
            && k in s'.res.ctxs && b in s'.res.ctxs[k].cache && b in s'.tags
            && forall i | i in s'.pending :: s'.pending[i].buf != b
  {
  }

  // Another read is posted for a connection that still caches the buffer of the last one.
  lemma TurnoverHolds(s: State, k: nat, b: nat, now: int, r: ReadPost, recycle: bool)
    requires Exclusive(s) && k in s.res.ctxs && b in s.res.ctxs[k].cache && b in s.tags && CanGet(s.res.buf, r.get)
    requires forall i | i in s.pending :: s.pending[i].key != k && s.pending[i].buf != b
    requires r.posted || !r.recycle
    ensures Exclusive(ReleaseContextBuffer(ReadAgain(ResetTimer(s, k, now), k, r), k, b, recycle))
  {
    ResetTimerHolds(s, k, now);
    var s1 := ResetTimer(s, k, now);
    assert b in s1.res.ctxs[k].cache;
    ReadAgainHolds(s1, k, r);
    Unheld(s1, {}, {}, r.get);
    ReadAgainLeaves(s1, k, r, b);
    ReleaseContextBufferHolds(ReadAgain(s1, k, r), k, b, recycle);
  }

  lemma GotBytesHolds(s: State, id: nat, bytes: nat, c: Choices)
    requires Exclusive(s) && CanComplete(s, id, true, bytes, c) && Route(s, s.pending[id], true, bytes) == GotBytes
    requires c.again.posted || !c.again.recycle
    ensures Exclusive(Complete(s, id, true, bytes, c))
  {
    RouteIsIntended(s, id, true, bytes);
    ConsumeReadHolds(s, id);
    TurnoverHolds(s.(pending := s.pending - {id}), s.pending[id].key, s.pending[id].buf, c.now, c.again, c.recycle);
  }

  lemma ClientGoneHolds(s: State, id: nat, ok: bool, bytes: nat, c: Choices)
    requires Exclusive(s) && CanComplete(s, id, ok, bytes, c) && Route(s, s.pending[id], ok, bytes) == ClientGone
    ensures Exclusive(Complete(s, id, ok, bytes, c))
  {
    ConsumeReadHolds(s, id);
    ReleaseContextHolds(s.(pending := s.pending - {id}), s.pending[id].key, c.kept);
  }

  lemma FailedHolds(s: State, id: nat, ok: bool, bytes: nat, c: Choices)
    requires Exclusive(s) && CanComplete(s, id, ok, bytes, c) && Route(s, s.pending[id], ok, bytes) == Failed
    requires s.pending[id].kind == Read ==> !c.recycle
    ensures Exclusive(Complete(s, id, ok, bytes, c))
  {
    var op := s.pending[id];
    var s0 := s.(pending := s.pending - {id});
    RouteIsIntended(s, id, ok, bytes);
    ConsumeHolds(s, id);
    var hs := if op.kind == Accept then {AcceptSocket(s.tags, op)} else {};
    if op.kind == Read {
      DestroyHolds(s0, {}, {}, op.buf);
    } else {
      assert op.key == LISTEN;
      ReleaseHolds(s0, {op.buf}, hs, op.buf, c.recycle);
      Drop(ReleaseBuffer(s0, op.buf, c.recycle), {op.buf} - {op.buf}, hs, {}, {});
    }
  }

  lemma DroppedHolds(s: State, id: nat)
    requires Exclusive(s) && id in s.pending
    ensures Exclusive(s.(pending := s.pending - {id}))
  {
    var op := s.pending[id];
    ConsumeHolds(s, id);
    Drop(s.(pending := s.pending - {id}), if op.key in s.res.ctxs then {} else {op.buf},
         if op.kind == Accept then {AcceptSocket(s.tags, op)} else {}, {}, {});
  }

  lemma CompleteHolds(s: State, id: nat, ok: bool, bytes: nat, c: Choices)
    requires Exclusive(s) && CanComplete(s, id, ok, bytes, c)
    requires !Recycles(s, Completion(id, ok, bytes, c))
    ensures Exclusive(Complete(s, id, ok, bytes, c))
  {
    RouteIsIntended(s, id, ok, bytes);
    match Route(s, s.pending[id], ok, bytes)
    case Dropped => DroppedHolds(s, id);
    case GotExit => DroppedHolds(s, id);
    case GotAccept => GotAcceptHolds(s, id, bytes, c);
    case GotBytes => GotBytesHolds(s, id, bytes, c);
    case Written =>
    case ClientGone => ClientGoneHolds(s, id, ok, bytes, c);
    case Failed => FailedHolds(s, id, ok, bytes, c);
  }

  lemma AdvanceHolds(s: State, k: nat)
    requires Exclusive(s) && k in s.res.ctxs
    ensures Exclusive(s.(res := s.res.(ctxs := s.res.ctxs[k := s.res.ctxs[k].(checks := 2)])))
  {
    hide OneReadEach, Allocated, Truthful, Sockets.Accounts, Sockets.ClosedOnce;
    var ctxs' := s.res.ctxs[k := s.res.ctxs[k].(checks := 2)];
    assert Headers(s.tags, s.pending, ctxs');
    assert Placed(ctxs', s.listen, s.pending);
    assert Apart(s.res.buf.free, {}, ctxs', s.pending);
  }

  lemma VisitHolds(s: State, v: Visit)
    requires Exclusive(s)
    requires Evicts(s.res, v) ==> forall i | i in s.pending && s.pending[i].key == v.key :: s.pending[i].buf !in v.kept
    ensures Exclusive(s.(res := VisitOne(s.res, v)))
  {
    if Evicts(s.res, v) { ReleaseContextHolds(s, v.key, v.kept); }
    else if v.key in s.res.ctxs && Expired(s.res.ctxs[v.key], v.now, s.res.limit) { AdvanceHolds(s, v.key); }
  }

  // A visit is judged on the registry before the sweep.
  lemma EvictsAsBefore(r: Resources, before: seq<Visit>, v: Visit)
    requires Registered(r.ctxs, r.addrs, r.next)
    requires forall i, j | 0 <= i < j < |before| :: before[i].key != before[j].key
    requires forall i | 0 <= i < |before| :: before[i].key != v.key
    ensures Evicts(Sweep(r, before), v) <==> Evicts(r, v)
  {
    SweepIsExact(r, before);
  }

  lemma {:induction false} SweepHolds(s: State, visits: seq<Visit>)
    requires Exclusive(s) && !RecyclesPending(s, visits)
    requires forall i, j | 0 <= i < j < |visits| :: visits[i].key != visits[j].key
    ensures Exclusive(s.(res := Sweep(s.res, visits)))
  {
    if visits != [] {
      var before, v := visits[..|visits| - 1], visits[|visits| - 1];
      assert !RecyclesPending(s, before) by {
        assert forall n | 0 <= n < |before| :: before[n] == visits[n];
      }
      SweepHolds(s, before);
      EvictsAsBefore(s.res, before, v);
      VisitHolds(s.(res := Sweep(s.res, before)), v);
    } else {
      assert s.(res := Sweep(s.res, visits)) == s;
    }
  }

  /** A step keeps exclusive ownership unless it recycles the buffer of a read that failed to
      post, that failed on completion with bytes, or that is still outstanding at an eviction. */
  lemma StepKeepsExclusive(s: State, step: Step)
    requires Exclusive(s) && Enabled(s, step) && !Recycles(s, step)
    ensures Exclusive(Apply(s, step))
  {
    match step
    case OpenSlot(first, second) => PostAcceptHolds(s, first, second, {});
    case Start =>
    case Completion(id, ok, bytes, c) => CompleteHolds(s, id, ok, bytes, c);
    case SweepAll(visits) => SweepHolds(s, visits);
    case QueueExit(get, sock) =>
      ArmListenHolds(s, {}, {}, get, sock, Exit);
      PostListenHolds(ArmListen(s, get, sock, Exit), {} + {get.b}, {} + {sock}, get.b, Exit);
      Drop(Apply(s, step), {} + {get.b} - {get.b}, {} + {sock} - {sock}, {}, {});
  }
}
