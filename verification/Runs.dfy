/** Ownership of buffers and sockets over whole runs of the completion protocol. */
module Runs {
  import opened BufferPool
  import Sockets = SocketPool
  import opened SocketContexts
  import opened ResourceManagers
  import opened Protocol
  import opened Lifecycle
  import opened Ownership
  import opened Exclusivity
  import opened Exactness
  import opened SocketLife
  import opened Operations

  // ----- buffers -----

  // No step of the run recycles a read's buffer that is still cached or outstanding.
  ghost predicate Tame(s: State, run: seq<Step>)
    requires Legal(s, run)
  {
    run == [] || (var before := run[..|run| - 1];
                  Tame(s, before) && !Recycles(Replay(s, before), run[|run| - 1]))
  }

  ghost predicate Steady(s: State, run: seq<Step>)
    requires Legal(s, run)
  {
    run == [] || (var before := run[..|run| - 1];
                  Steady(s, before) && !Strays(Replay(s, before), run[|run| - 1]))
  }

  ghost predicate OwnedThroughout(s: State, run: seq<Step>)
    requires Legal(s, run)
  {
    Owned(Replay(s, run)) && (run == [] || OwnedThroughout(s, run[..|run| - 1]))
  }

  /** Whatever is accepted, read, refused or evicted, as long as no read's buffer is recycled
      while still cached or outstanding: pending operations have pairwise distinct buffers, none
      of them free; the connections' caches are pairwise disjoint and disjoint from the free
      cache; and connections and pending accepts have pairwise distinct sockets, all in use. */
  lemma {:induction false} RunKeepsExclusive(s: State, run: seq<Step>)
    requires Init(s) && Legal(s, run) && Tame(s, run)
    ensures Exclusive(Replay(s, run))
    decreases |run|
  {
    if run != [] {
      var before := run[..|run| - 1];
      RunKeepsExclusive(s, before);
      StepKeepsExclusive(Replay(s, before), run[|run| - 1]);
    }
  }

  /** Over a whole run every held buffer keeps its one holder and stays recorded in use if and
      only if no step of the run strays. */
  lemma {:induction false} OwnedThroughoutExactly(s: State, run: seq<Step>)
    requires Init(s) && Legal(s, run)
    ensures OwnedThroughout(s, run) <==> Steady(s, run)
    decreases |run|
  {
    if run != [] {
      var before := run[..|run| - 1];
      OwnedThroughoutExactly(s, before);
      if Steady(s, before) { OwnedExactly(Replay(s, before), run[|run| - 1]); }
      assert OwnedThroughout(s, run) ==> OwnedThroughout(s, before);
    }
  }

  // A server with one buffer and no pooled socket, and a first connection whose read is refused and recycled:
  // the accept posted next picks up the very buffer the connection still caches.
  const SMALLEST: State :=
    State(Resources(Pool({0}, {}, 1, 0), Sockets.Pool({}, {}, 0, 0, 0, 0, {}, 0, multiset{}), map[], {}, 1, 0),
          map[], {}, map[], 0, 0, 0, true)

  const FIRST_ACCEPT: Try := Try(Get(0, 0), 0, true, false)
  const NEXT_ACCEPT: Try := Try(Get(0, 1), 1, true, false)
  const REFUSED: ReadPost := ReadPost(Get(0, 1), false, true)
  const SHARING: seq<Step> := [
    OpenSlot(FIRST_ACCEPT, FIRST_ACCEPT),
    Completion(0, true, 0, Choices(Arrival(0, true, REFUSED), NEXT_ACCEPT, NEXT_ACCEPT, REFUSED, 0, false, {}))]

  // The first accept holds the one buffer and the first socket.
  const ONE_HELD: Resources :=
    Resources(Pool({}, {0}, 1, 0), Sockets.Pool({}, {0}, 1, 0, 0, 0, {0}, 0, multiset{}), map[], {}, 1, 0)

  lemma FirstSlot()
    ensures Legal(SMALLEST, SHARING[..1])
    ensures Replay(SMALLEST, SHARING[..1])
         == State(ONE_HELD,
                  map[0 := Tag(Accept, 0)], {0}, map[0 := Op(LISTEN, 0, Accept)], 1, 1, 0, true)
  {
    var one := SHARING[..1];
    assert one[..0] == [];
    assert Legal(SMALLEST, []);
    assert CanTry(SMALLEST, FIRST_ACCEPT);
  }

  lemma Refused(s: State)
    requires s == State(ONE_HELD,
                        map[0 := Tag(Accept, 0)], {0}, map[], 1, 1, 0, true)
    ensures CanGet(s.res.buf, REFUSED.get)
    ensures var s' := Arrive(s, 0, Arrival(0, true, REFUSED));
            && s'.res.buf == Pool({1}, {0, 1}, 2, 0) && s'.res.sk == s.res.sk && s'.listen == {0}
            && s'.pending == map[] && s'.nextOp == 1
            && s'.res.ctxs == map[1 := Context(0, AcceptedSocket, {1}, 0, 1)]
  {
  }

  /** The premise cannot be dropped: after these two steps of a new server a pending accept
      uses a buffer that a registered connection caches. */
  lemma RecyclingShares()
    ensures Init(SMALLEST) && Legal(SMALLEST, SHARING)
    ensures var s := Replay(SMALLEST, SHARING);
            && 1 in s.pending && s.pending[1].kind == Accept
            && 1 in s.res.ctxs && s.pending[1].buf in s.res.ctxs[1].cache
            && !Exclusive(s)
  {
    FirstSlot();
    assert SHARING[..|SHARING| - 1] == SHARING[..1];
    var s1 := Replay(SMALLEST, SHARING[..1]);
    var s2 := s1.(pending := s1.pending - {0});
    assert s2.pending == map[];
    Refused(s2);
    var s3 := Arrive(s2, 0, Arrival(0, true, REFUSED));
    assert Route(s1, s1.pending[0], true, 0) == GotAccept;
    assert CanTry(s3, NEXT_ACCEPT);
    var s := Replay(SMALLEST, SHARING);
    assert s.res.ctxs == s3.res.ctxs;
    assert 1 in s.pending && s.pending[1] == Op(LISTEN, 1, Accept);
    assert 1 in s.res.ctxs && s.pending[1].buf in s.res.ctxs[1].cache;
  }

  // ----- sockets -----

  /** A successful accept completion turns the socket of the accept into a new connection's,
      leaves every other connection as it was, and keeps the socket in use. */
  lemma AcceptTransfersSocket(s: State, id: nat, bytes: nat, c: Choices)
    requires Exclusive(s) && id in s.pending && CanComplete(s, id, true, bytes, c) && s.pending[id].kind == Accept
    ensures var s', k := Complete(s, id, true, bytes, c), s.res.next;
            && s'.res.ctxs.Keys == s.res.ctxs.Keys + {k} && k !in s.res.ctxs
            && s'.res.ctxs[k].sock == AcceptSocket(s.tags, s.pending[id]) && s'.res.ctxs[k].sock in s'.res.sk.inUse
            && (forall l | l in s.res.ctxs :: s'.res.ctxs[l] == s.res.ctxs[l])
  {
    hide Base, Apart, Placed, Truthful, Complete, CanComplete, Sockets.ClosedOnce;
    RouteIsIntended(s, id, true, bytes);
    AcceptRegisters(s, id, bytes, c);
  }

  // ----- packets -----

  /** Over a tame run every packet is taken for what it was posted as, except that the read of an
      evicted connection is dropped. */
  lemma PacketsRecognised(s: State, run: seq<Step>, id: nat, ok: bool, bytes: nat)
    requires Init(s) && Legal(s, run) && Tame(s, run) && id in Replay(s, run).pending
    ensures var t := Replay(s, run); var op := t.pending[id];
            && ReadAs(t, op) == (if op.kind == Read && op.key !in t.res.ctxs then Null else op.kind)
            && (Route(t, op, ok, bytes) == GotExit <==> op.kind == Exit && ok)
  {
    RunKeepsExclusive(s, run);
    ReadAsPosted(Replay(s, run), id);
  }

  /** So every exit packet lowers the waiting flag when it is handled, and no other packet does. */
  lemma ExitsRecognised(s: State, run: seq<Step>, id: nat, ok: bool, bytes: nat, c: Choices)
    requires Init(s) && Legal(s, run) && Tame(s, run) && id in Replay(s, run).pending
    ensures var t := Replay(s, run);
            Complete(t, id, ok, bytes, c).waiting == (t.waiting && !(ok && t.pending[id].kind == Exit))
  {
    hide Complete, Init, Legal, Replay, Tame, ReadAs, Route;
    PacketsRecognised(s, run, id, ok, bytes);
    CompleteFlag(Replay(s, run), id, ok, bytes, c);
  }
}
