/** Exactly which steps end the ownership of buffers and the service of connections. */
module Exactness {
  import opened BufferPool
  import opened SocketContexts
  import opened ResourceManagers
  import opened Protocol
  import opened Lifecycle
  import opened Ownership
  import opened Exclusivity

  ghost predicate Recorded(s: State) {
    InUse(s.res.buf.inUse, s.res.ctxs, s.pending)
  }

  // ----- the in-use map keeps every held buffer -----

  // Releasing a buffer in hand, and held by nobody else, takes no held buffer out of the map.
  lemma ReleaseRecorded(s: State, b: nat, recycle: bool)
    requires Recorded(s)
    requires forall i | i in s.pending :: s.pending[i].buf != b
    requires forall k | k in s.res.ctxs :: b !in s.res.ctxs[k].cache
    ensures Recorded(ReleaseBuffer(s, b, recycle))
  {
  }

  lemma ArmReadRecorded(s: State, k: nat, g: Get)
    requires Recorded(s) && k in s.res.ctxs
    ensures Recorded(ArmRead(s, k, g))
  {
  }

  lemma TryAcceptRecorded(s: State, t: Try, hand: set<nat>)
    requires Holding(s, hand, {}) && CanTry(s, t) && Recorded(s)
    ensures Recorded(TryAccept(s, t))
  {
    Unheld(s, hand, {}, t.get);
    GetIsFresh(s.res.buf, t.get);
    var s1 := ArmListen(s, t.get, t.sock, Accept);
    assert Recorded(s1);
    if !t.posted { ReleaseRecorded(s1, t.get.b, t.recycle); }
  }

  lemma PostAcceptRecorded(s: State, first: Try, second: Try, hand: set<nat>)
    requires Holding(s, hand, {}) && CanPostAccept(s, first, second) && Recorded(s)
    ensures Recorded(PostAccept(s, first, second))
  {
    TryAcceptRecorded(s, first, hand);
    if !first.posted {
      TryAcceptHolds(s, first, hand);
      TryAcceptRecorded(TryAccept(s, first), second, hand);
    }
  }

  lemma ArriveRecorded(s: State, b: nat, a: Arrival)
    requires b in s.tags && Recorded(s) && 0 < s.res.next
    requires a.bound ==> a.read.posted
    ensures Recorded(Arrive(s, b, a))
  {
    ArmReadRecorded(s.(res := Create(s.res, s.tags[b].sock, AcceptedSocket, a.now)), s.res.next, a.read.get);
  }

  lemma RepostRecorded(s: State, first: Try, second: Try, b: nat, recycle: bool)
    requires Holding(s, {b}, {}) && CanPostAccept(s, first, second) && Recorded(s)
    ensures Recorded(ReleaseListenBuffer(PostAccept(s, first, second), b, recycle))
  {
    hide Base, Placed, Truthful, SocketsApart;
    PostAcceptHolds(s, first, second, {b});
    PostAcceptRecorded(s, first, second, {b});
    assert b in {b};
    ReleaseRecorded(PostAccept(s, first, second), b, recycle);
  }

  lemma GotAcceptRecorded(s: State, id: nat, bytes: nat, c: Choices)
    requires Owned(s) && CanComplete(s, id, true, bytes, c) && Route(s, s.pending[id], true, bytes) == GotAccept
    requires c.arrival.bound ==> c.arrival.read.posted
    ensures Recorded(Complete(s, id, true, bytes, c))
  {
    hide Contexts, OneReadEach, Headers, Allocated, Apart, Placed, Truthful, SocketsApart,
         Arrive, PostAccept, CanPostAccept;
    var op := s.pending[id];
    var s0 := s.(pending := s.pending - {id});
    RouteIsIntended(s, id, true, bytes);
    ArrivedHolds(s, id, c.arrival);
    ArriveRecorded(s0, op.buf, c.arrival);
    RepostRecorded(Arrive(s0, op.buf, c.arrival), c.first, c.second, op.buf, c.recycle);
  }

  lemma TurnoverRecorded(s: State, k: nat, b: nat, now: int, r: ReadPost, recycle: bool)
    requires Exclusive(s) && Recorded(s) && k in s.res.ctxs && b in s.res.ctxs[k].cache && CanGet(s.res.buf, r.get)
    requires forall i | i in s.pending :: s.pending[i].buf != b && s.pending[i].key != k
    requires r.posted && k != LISTEN
    ensures Recorded(ReleaseContextBuffer(ReadAgain(ResetTimer(s, k, now), k, r), k, b, recycle))
  {
    hide Base, Placed, Truthful, SocketsApart;
    Unheld(s, {}, {}, r.get);
    ArmReadRecorded(ResetTimer(s, k, now), k, r.get);
    var s1 := ReadAgain(ResetTimer(s, k, now), k, r);
    assert Recorded(s1);
    assert forall l | l in s.res.ctxs && l != k :: b !in s.res.ctxs[l].cache;
    var s2 := SetCache(s1, k, s1.res.ctxs[k].cache - {b});
    ReleaseRecorded(s2, b, recycle);
    assert ReleaseBuffer(s2, b, recycle) == ReleaseContextBuffer(s1, k, b, recycle);
  }

  lemma ReleaseContextRecorded(s: State, k: nat, kept: set<nat>)
    requires Owned(s) && k in s.res.ctxs
    ensures Recorded(s.(res := ReleaseContext(s.res, k, kept)))
  {
    forall l | l in s.res.ctxs && l != k ensures s.res.ctxs[l].cache <= ReleaseContext(s.res, k, kept).buf.inUse {
      assert s.res.ctxs[l].cache !! s.res.ctxs[k].cache;
    }
  }

  lemma CompleteRecorded(s: State, id: nat, ok: bool, bytes: nat, c: Choices)
    requires Owned(s) && CanComplete(s, id, ok, bytes, c)
    requires !Strays(s, Completion(id, ok, bytes, c))
    ensures Recorded(Complete(s, id, ok, bytes, c))
  {
    var op := s.pending[id];
    var s0 := s.(pending := s.pending - {id});
    RouteIsIntended(s, id, ok, bytes);
    match Route(s, op, ok, bytes)
    case GotAccept => GotAcceptRecorded(s, id, bytes, c);
    case GotBytes =>
      ConsumeReadHolds(s, id);
      TurnoverRecorded(s0, op.key, op.buf, c.now, c.again, c.recycle);
    case ClientGone =>
      ConsumeReadHolds(s, id);
      ReleaseContextRecorded(s0, op.key, c.kept);
    case Failed =>
      ConsumeHolds(s, id);
      assert op.key == LISTEN;
      assert op.buf in {op.buf};
      ReleaseRecorded(s0, op.buf, c.recycle);
    case _ =>
  }

  lemma {:induction false} SweepRecorded(s: State, visits: seq<Visit>)
    requires Owned(s) && !RecyclesPending(s, visits)
    requires forall i, j | 0 <= i < j < |visits| :: visits[i].key != visits[j].key
    ensures Recorded(s.(res := Sweep(s.res, visits)))
  {
    hide Base, Apart, Placed, Truthful, SocketsApart;
    if visits != [] {
      var before, v := visits[..|visits| - 1], visits[|visits| - 1];
      assert !RecyclesPending(s, before) by {
        assert forall n | 0 <= n < |before| :: before[n] == visits[n];
      }
      SweepRecorded(s, before);
      SweepHolds(s, before);
      var s1 := s.(res := Sweep(s.res, before));
      if Evicts(s1.res, v) { ReleaseContextRecorded(s1, v.key, v.kept); }
    }
  }

  lemma OwnedForward(s: State, step: Step)
    requires Owned(s) && Enabled(s, step) && !Strays(s, step)
    ensures Owned(Apply(s, step))
  {
    hide Base, Apart, Placed, Truthful, SocketsApart, Complete, CanComplete;
    StepKeepsExclusive(s, step);
    match step
    case OpenSlot(first, second) => PostAcceptRecorded(s, first, second, {});
    case Start =>
    case Completion(id, ok, bytes, c) => CompleteRecorded(s, id, ok, bytes, c);
    case SweepAll(visits) => SweepRecorded(s, visits);
    case QueueExit(get, sock) => Unheld(s, {}, {}, get);
  }

  // ----- a straying step leaves a buffer with two holders, or held and unrecorded -----

  // Context k caches b, but b is free, unrecorded, or in another's hands.
  ghost predicate Astray(s: State, k: nat, b: nat) {
    && k in s.res.ctxs && b in s.res.ctxs[k].cache
    && (b in s.res.buf.free || b !in s.res.buf.inUse
        || exists i :: i in s.pending && s.pending[i].key != k && s.pending[i].buf == b)
  }

  lemma AstrayIsNotOwned(s: State, k: nat, b: nat)
    requires Astray(s, k, b)
    ensures !Owned(s)
  {
  }

  lemma TryAcceptAstray(s: State, t: Try, k: nat, b: nat)
    requires Base(s) && CanTry(s, t) && Astray(s, k, b) && k != LISTEN
    ensures Astray(TryAccept(s, t), k, b)
  {
    GetIsFresh(s.res.buf, t.get);
    assert s.res.ctxs[k].cache <= s.tags.Keys;
    var s' := TryAccept(s, t);
    if i :| i in s.pending && s.pending[i].key != k && s.pending[i].buf == b {
      assert i in s'.pending && s'.pending[i] == s.pending[i];
    } else if t.get.b == b && t.posted {
      assert s.nextOp in s'.pending && s'.pending[s.nextOp] == Op(LISTEN, b, Accept);
    }
  }

  lemma PostAcceptAstray(s: State, first: Try, second: Try, k: nat, b: nat)
    requires Base(s) && CanPostAccept(s, first, second) && Astray(s, k, b) && k != LISTEN
    ensures Astray(PostAccept(s, first, second), k, b)
  {
    TryAcceptAstray(s, first, k, b);
    if !first.posted {
      TryAcceptBase(s, first);
      TryAcceptAstray(TryAccept(s, first), second, k, b);
      var s2 := TryAccept(TryAccept(s, first), second);
      if i :| i in s2.pending && s2.pending[i].key != k && s2.pending[i].buf == b {
        assert i in PostAccept(s, first, second).pending;
      }
    }
  }

  lemma ReleaseAstray(s: State, k: nat, b: nat, other: nat, recycle: bool)
    requires Astray(s, k, b)
    ensures Astray(ReleaseListenBuffer(s, other, recycle), k, b)
  {
    if i :| i in s.pending && s.pending[i].key != k && s.pending[i].buf == b {
      assert i in ReleaseListenBuffer(s, other, recycle).pending;
    }
  }

  lemma GotAcceptAstray(s: State, id: nat, bytes: nat, c: Choices)
    requires Owned(s) && CanComplete(s, id, true, bytes, c) && Route(s, s.pending[id], true, bytes) == GotAccept
    requires c.arrival.bound && !c.arrival.read.posted
    ensures !Owned(Complete(s, id, true, bytes, c))
  {
    var op := s.pending[id];
    var s0 := s.(pending := s.pending - {id});
    var k, b := s.res.next, c.arrival.read.get.b;
    ConsumeBase(s, id);
    ArriveBase(s0, op.buf, c.arrival);
    var s1 := Arrive(s0, op.buf, c.arrival);
    assert Astray(s1, k, b);
    PostAcceptAstray(s1, c.first, c.second, k, b);
    ReleaseAstray(PostAccept(s1, c.first, c.second), k, b, op.buf, c.recycle);
    AstrayIsNotOwned(Complete(s, id, true, bytes, c), k, b);
  }

  lemma GotBytesAstray(s: State, id: nat, bytes: nat, c: Choices)
    requires Owned(s) && CanComplete(s, id, true, bytes, c) && Route(s, s.pending[id], true, bytes) == GotBytes
    requires !c.again.posted
    ensures !Owned(Complete(s, id, true, bytes, c))
  {
    Unheld(s, {}, {}, c.again.get);
    AstrayIsNotOwned(Complete(s, id, true, bytes, c), s.pending[id].key, c.again.get.b);
  }

  lemma FailedAstray(s: State, id: nat, ok: bool, bytes: nat, c: Choices)
    requires Owned(s) && CanComplete(s, id, ok, bytes, c) && Route(s, s.pending[id], ok, bytes) == Failed
    requires s.tags[s.pending[id].buf].kind == Read
    ensures !Owned(Complete(s, id, ok, bytes, c))
  {
    AstrayIsNotOwned(Complete(s, id, ok, bytes, c), s.pending[id].key, s.pending[id].buf);
  }

  lemma {:induction false} SweepGrowsFree(r: Resources, visits: seq<Visit>)
    ensures r.buf.free <= Sweep(r, visits).buf.free
  {
    if visits != [] { SweepGrowsFree(r, visits[..|visits| - 1]); }
  }

  lemma {:induction false} SweepFreesPending(s: State, visits: seq<Visit>, n: nat, i: nat)
    requires Owned(s) && n < |visits| && Evicts(s.res, visits[n])
    requires i in s.pending && s.pending[i].key == visits[n].key && s.pending[i].buf in visits[n].kept
    requires forall x, y | 0 <= x < y < |visits| :: visits[x].key != visits[y].key
    ensures s.pending[i].buf in Sweep(s.res, visits).buf.free
    decreases |visits|
  {
    var before, v := visits[..|visits| - 1], visits[|visits| - 1];
    assert forall x | 0 <= x < |before| :: before[x] == visits[x];
    if n < |before| {
      SweepFreesPending(s, before, n, i);
      assert Sweep(s.res, before).buf.free <= VisitOne(Sweep(s.res, before), v).buf.free;
    } else {
      EvictsAsBefore(s.res, before, v);
      SweepIsExact(s.res, before);
      assert s.pending[i].buf in s.res.ctxs[v.key].cache;
    }
  }

  /** Ownership of buffers, exactly: from a state in which every buffer has one holder and is
      recorded in use, a step leads to another such state if and only if no read is refused
      when posted, no read fails on completion with bytes, and no sweep recycles the buffer
      of a read still outstanding. */
  lemma OwnedExactly(s: State, step: Step)
    requires Owned(s) && Enabled(s, step)
    ensures Owned(Apply(s, step)) <==> !Strays(s, step)
  {
    hide Base, Placed, Truthful, SocketsApart, InUse, Complete;
    if !Strays(s, step) {
      OwnedForward(s, step);
    } else {
      match step
      case Completion(id, ok, bytes, c) =>
        match Route(s, s.pending[id], ok, bytes) {
          case GotAccept => GotAcceptAstray(s, id, bytes, c);
          case GotBytes => GotBytesAstray(s, id, bytes, c);
          case Failed => FailedAstray(s, id, ok, bytes, c);
        }
      case SweepAll(visits) =>
        var n, i :| 0 <= n < |visits| && Evicts(s.res, visits[n]) && i in s.pending
                 && s.pending[i].key == visits[n].key && s.pending[i].buf in visits[n].kept;
        SweepFreesPending(s, visits, n, i);
        assert i in Apply(s, step).pending;
      case _ =>
    }
  }
}
