/** Whether every connection is being read from, over whole runs. */
module Service {
  import opened BufferPool
  import Sockets = SocketPool
  import opened SocketContexts
  import opened ResourceManagers
  import opened Protocol
  import opened Lifecycle
  import opened Ownership
  import opened Exclusivity

  // Every connection has one read outstanding, and caches exactly that read's buffer.
  ghost predicate Served(ctxs: map<nat, Context>, pending: map<nat, Op>) {
    forall k | k in ctxs :: ServedBy(ctxs, pending, k)
  }

  ghost predicate ServedBy(ctxs: map<nat, Context>, pending: map<nat, Op>, k: nat)
    requires k in ctxs
  {
    exists i :: i in pending && pending[i].key == k && ctxs[k].cache == {pending[i].buf}
  }

  // A connection is left without its read: the packet was its read's and is not taken for one, a
  // new connection is not bound, a read is refused or fails with bytes, or the next
  // read is given the very buffer the last one is about to release.
  ghost predicate Starves(s: State, step: Step)
    requires Enabled(s, step)
  {
    step.Completion? && Forsakes(s, s.pending[step.id], step.ok, step.bytes, step.c)
  }

  predicate Forsakes(s: State, op: Op, ok: bool, bytes: nat, c: Choices) {
    match Route(s, op, ok, bytes)
    case GotAccept => op.key in s.res.ctxs || !c.arrival.bound || !c.arrival.read.posted
    case GotBytes => !c.again.posted || c.again.get.b == op.buf
    case ClientGone => false
    case _ => op.key in s.res.ctxs
  }

  // Operations already pending, and what connections cache, survive posting an accept.
  lemma TryAcceptServed(s: State, t: Try)
    requires Base(s)
    ensures var s' := TryAccept(s, t);
            && s'.res.ctxs == s.res.ctxs
            && (forall i | i in s.pending :: i in s'.pending && s'.pending[i] == s.pending[i])
            && (forall i | i in s'.pending && i !in s.pending :: s'.pending[i].key == LISTEN)
  {
    hide Contexts, Headers, Allocated, Sockets.Accounts;
  }

  lemma PostAcceptServed(s: State, first: Try, second: Try)
    requires Base(s) && CanPostAccept(s, first, second)
    ensures var s' := PostAccept(s, first, second);
            && s'.res.ctxs == s.res.ctxs
            && (forall i | i in s.pending :: i in s'.pending && s'.pending[i] == s.pending[i])
            && (forall i | i in s'.pending && i !in s.pending :: s'.pending[i].key == LISTEN)
  {
    hide Base, TryAccept, CanTry;
    TryAcceptBase(s, first);
    TryAcceptServed(s, first);
    TryAcceptServed(TryAccept(s, first), second);
  }

  lemma ServedGrows(ctxs: map<nat, Context>, pending: map<nat, Op>, pending': map<nat, Op>)
    requires forall k | k in ctxs :: k != LISTEN
    requires forall i | i in pending :: i in pending' && pending'[i] == pending[i]
    requires forall i | i in pending' && i !in pending :: pending'[i].key == LISTEN
    ensures Served(ctxs, pending') <==> Served(ctxs, pending)
  {
    forall k | k in ctxs ensures ServedBy(ctxs, pending', k) <==> ServedBy(ctxs, pending, k) {
      if i :| i in pending && pending[i].key == k && ctxs[k].cache == {pending[i].buf} {
        assert i in pending';
      }
    }
  }

  // Consuming an operation starves at most its own connection, and that one for sure.
  lemma ConsumeServed(s: State, id: nat)
    requires Base(s) && id in s.pending && Served(s.res.ctxs, s.pending)
    ensures forall k | k in s.res.ctxs ::
      ServedBy(s.res.ctxs, s.pending - {id}, k) <==> k != s.pending[id].key
    ensures s.pending[id].key in s.res.ctxs ==> s.res.ctxs[s.pending[id].key].cache == {s.pending[id].buf}
  {
    forall k | k in s.res.ctxs ensures ServedBy(s.res.ctxs, s.pending - {id}, k) <==> k != s.pending[id].key {
      var i :| i in s.pending && s.pending[i].key == k && s.res.ctxs[k].cache == {s.pending[i].buf};
      if k != s.pending[id].key { assert i in s.pending - {id}; }
    }
  }

  // Taking over a connection changes nothing for the others.
  lemma ArriveServed(s: State, b: nat, a: Arrival)
    requires Base(s) && b in s.tags && CanGet(s.res.buf, a.read.get)
    ensures var s' := Arrive(s, b, a);
            Served(s'.res.ctxs, s'.pending) <==> Served(s.res.ctxs, s.pending) && a.bound && a.read.posted
  {
    hide Headers, Allocated, Sockets.Accounts;
    var k, s' := s.res.next, Arrive(s, b, a);
    assert s'.res.ctxs[k].cache == {a.read.get.b};
    assert s'.res.ctxs.Keys == s.res.ctxs.Keys + {k};
    forall l | l in s.res.ctxs
      ensures ServedBy(s'.res.ctxs, s'.pending, l) <==> ServedBy(s.res.ctxs, s.pending, l)
    {
      if i :| i in s.pending && s.pending[i].key == l && s.res.ctxs[l].cache == {s.pending[i].buf} {
        assert i in s'.pending && s'.pending[i] == s.pending[i];
      }
    }
    if a.bound && a.read.posted {
      assert s.nextOp in s'.pending && s'.pending[s.nextOp] == Op(k, a.read.get.b, Read);
      assert ServedBy(s'.res.ctxs, s'.pending, k);
    } else {
      assert !ServedBy(s'.res.ctxs, s'.pending, k);
    }
  }

  lemma GotAcceptServed(s: State, id: nat, bytes: nat, c: Choices)
    requires Base(s) && id in s.pending && CanComplete(s, id, true, bytes, c)
    requires Route(s, s.pending[id], true, bytes) == GotAccept && Served(s.res.ctxs, s.pending)
    ensures var s' := Complete(s, id, true, bytes, c);
            Served(s'.res.ctxs, s'.pending)
            <==> s.pending[id].key !in s.res.ctxs && c.arrival.bound && c.arrival.read.posted
  {
    hide Headers, Allocated, Sockets.Accounts, OneReadEach, Arrive, PostAccept, CanPostAccept;
    var op := s.pending[id];
    var s0 := s.(pending := s.pending - {id});
    ConsumeBase(s, id);
    ConsumeServed(s, id);
    ArriveServed(s0, op.buf, c.arrival);
    ArriveBase(s0, op.buf, c.arrival);
    var s1 := Arrive(s0, op.buf, c.arrival);
    PostAcceptServed(s1, c.first, c.second);
    ServedGrows(s1.res.ctxs, s1.pending, PostAccept(s1, c.first, c.second).pending);
  }

  // The next read is posted and the last one's buffer released, on the values concerned.
  lemma ReplacedServed(ctxs: map<nat, Context>, pending: map<nat, Op>, k: nat, now: int, b: nat, g: nat,
                       ctxs': map<nat, Context>, pending': map<nat, Op>, n: nat, posted: bool)
    requires k in ctxs && ctxs[k].cache == {b} && n !in pending
    requires forall i | i in pending :: pending[i].key != k
    requires forall l | l in ctxs && l != k :: ServedBy(ctxs, pending, l)
    requires ctxs' == ctxs[k := ctxs[k].(timer := now, cache := {b} + {g} - {b})]
    requires pending' == if posted then pending[n := Op(k, g, Read)] else pending
    ensures Served(ctxs', pending') <==> posted && g != b
  {
    forall l | l in ctxs && l != k ensures ServedBy(ctxs', pending', l) {
      var i :| i in pending && pending[i].key == l && ctxs[l].cache == {pending[i].buf};
      assert i in pending' && pending'[i] == pending[i];
    }
    if posted && g != b {
      assert n in pending' && pending'[n] == Op(k, g, Read);
      assert ServedBy(ctxs', pending', k);
    } else {
      assert !ServedBy(ctxs', pending', k);
    }
  }

  lemma GotBytesIs(s: State, id: nat, bytes: nat, c: Choices)
    requires id in s.pending && Route(s, s.pending[id], true, bytes) == GotBytes
    ensures var op := s.pending[id]; var k := op.key; var s' := Complete(s, id, true, bytes, c);
            && k in s.res.ctxs
            && s'.pending == (if c.again.posted then (s.pending - {id})[s.nextOp := Op(k, c.again.get.b, Read)]
                              else s.pending - {id})
            && s'.res.ctxs == s.res.ctxs[k := s.res.ctxs[k].(timer := c.now,
                                cache := s.res.ctxs[k].cache + {c.again.get.b} - {op.buf})]
  {
    hide DoGet, Release;
  }

  lemma TurnoverServed(s: State, id: nat, bytes: nat, c: Choices)
    requires Base(s) && id in s.pending && Route(s, s.pending[id], true, bytes) == GotBytes
    requires Served(s.res.ctxs, s.pending)
    ensures var s' := Complete(s, id, true, bytes, c);
            Served(s'.res.ctxs, s'.pending) <==> c.again.posted && c.again.get.b != s.pending[id].buf
  {
    hide Headers, Allocated, Sockets.Accounts, Complete, Served, ServedBy;
    var op, s' := s.pending[id], Complete(s, id, true, bytes, c);
    ConsumeServed(s, id);
    GotBytesIs(s, id, bytes, c);
    ReplacedServed(s.res.ctxs, s.pending - {id}, op.key, c.now, op.buf, c.again.get.b,
                   s'.res.ctxs, s'.pending, s.nextOp, c.again.posted);
  }

  lemma SweepServed(s: State, visits: seq<Visit>)
    requires Base(s) && Served(s.res.ctxs, s.pending) && Walks(s.res.addrs, visits)
    ensures Served(Sweep(s.res, visits).ctxs, s.pending)
  {
    hide OneReadEach, Headers, Allocated, Sockets.Accounts;
    SweepIsExact(s.res, visits);
    var ctxs' := Sweep(s.res, visits).ctxs;
    forall k | k in ctxs' ensures ServedBy(ctxs', s.pending, k) {
      var n :| 0 <= n < |visits| && visits[n].key == k;
      assert ctxs'[k] == Aged(s.res, visits[n]);
      var i :| i in s.pending && s.pending[i].key == k && s.res.ctxs[k].cache == {s.pending[i].buf};
    }
  }

  lemma ClientGoneServed(s: State, id: nat, ok: bool, bytes: nat, c: Choices)
    requires Base(s) && id in s.pending && Route(s, s.pending[id], ok, bytes) == ClientGone
    requires Served(s.res.ctxs, s.pending)
    ensures var s' := Complete(s, id, ok, bytes, c); Served(s'.res.ctxs, s'.pending)
  {
    hide OneReadEach, Headers, Allocated, Sockets.Accounts;
    ConsumeServed(s, id);
    var s' := Complete(s, id, ok, bytes, c);
    forall k | k in s'.res.ctxs ensures ServedBy(s'.res.ctxs, s'.pending, k) {
      assert ServedBy(s.res.ctxs, s.pending - {id}, k);
    }
  }

  lemma NeverWritten(s: State, op: Op, ok: bool, bytes: nat)
    requires Base(s)
    ensures Route(s, op, ok, bytes) != Written
  {
  }

  lemma CompleteServed(s: State, id: nat, ok: bool, bytes: nat, c: Choices)
    requires Base(s) && id in s.pending && CanComplete(s, id, ok, bytes, c) && Served(s.res.ctxs, s.pending)
    ensures var s' := Complete(s, id, ok, bytes, c);
            Served(s'.res.ctxs, s'.pending) <==> !Forsakes(s, s.pending[id], ok, bytes, c)
  {
    hide Base, PostAccept, CanPostAccept, Arrive, Served, ServedBy;
    match Route(s, s.pending[id], ok, bytes)
    case GotAccept => GotAcceptServed(s, id, bytes, c);
    case GotBytes => TurnoverServed(s, id, bytes, c);
    case ClientGone => ClientGoneServed(s, id, ok, bytes, c);
    case Written => NeverWritten(s, s.pending[id], ok, bytes);
    case _ =>
      ConsumeServed(s, id);
      OnlyConsumed(s.res.ctxs, s.pending - {id}, s.pending[id].key);
  }

  lemma OnlyConsumed(ctxs: map<nat, Context>, pending: map<nat, Op>, k: nat)
    requires forall l | l in ctxs :: ServedBy(ctxs, pending, l) <==> l != k
    ensures Served(ctxs, pending) <==> k !in ctxs
  {
  }

  /** Service, exactly and in any state: if every connection has one outstanding read and caches
      exactly its buffer, a step keeps it so if and only if it does not starve one. */
  lemma ServedExactly(s: State, step: Step)
    requires Base(s) && Enabled(s, step) && Served(s.res.ctxs, s.pending)
    ensures var s' := Apply(s, step); Served(s'.res.ctxs, s'.pending) <==> !Starves(s, step)
  {
    hide OneReadEach, Headers, Allocated, Sockets.Accounts, Complete, PostAccept, CanPostAccept;
    match step
    case OpenSlot(first, second) =>
      PostAcceptServed(s, first, second);
      ServedGrows(s.res.ctxs, s.pending, PostAccept(s, first, second).pending);
    case Start =>
    case Completion(id, ok, bytes, c) => CompleteServed(s, id, ok, bytes, c);
    case SweepAll(visits) => SweepServed(s, visits);
    case QueueExit(get, sock) =>
      QueueFresh(s);
      ServedGrows(s.res.ctxs, s.pending, PostExit(s, get, sock).pending);
  }

  lemma QueueFresh(s: State)
    requires Base(s)
    ensures s.nextOp !in s.pending
  {
  }

  /** Where ownership is exclusive, starving is what its name says: a connection is not bound, or
      its read is refused or fails with bytes. */
  lemma StarvesWhenOwned(s: State, step: Step)
    requires Exclusive(s) && Enabled(s, step)
    ensures Starves(s, step) <==>
      && step.Completion?
      && (|| GivesBackRead(s, s.pending[step.id], step.ok, step.bytes, step.c)
          || (Route(s, s.pending[step.id], step.ok, step.bytes) == GotAccept && !step.c.arrival.bound))
  {
    hide Apart, Placed, Truthful, SocketsApart, Headers, Allocated, PostAccept, CanPostAccept, Arrive;
    if step.Completion? {
      RouteIsIntended(s, step.id, step.ok, step.bytes);
      if Route(s, s.pending[step.id], step.ok, step.bytes) == GotBytes { Unheld(s, {}, {}, step.c.again.get); }
      ReadAsPosted(s, step.id);
    }
  }

  ghost predicate Feeding(s: State, run: seq<Step>)
    requires Legal(s, run)
  {
    run == [] || (var before := run[..|run| - 1];
                  Feeding(s, before) && !Starves(Replay(s, before), run[|run| - 1]))
  }

  ghost predicate ServedThroughout(s: State, run: seq<Step>)
    requires Legal(s, run)
  {
    && Served(Replay(s, run).res.ctxs, Replay(s, run).pending)
    && (run == [] || ServedThroughout(s, run[..|run| - 1]))
  }

  /** Over a whole run, whatever is recycled, every connection is served all along if and only if no step starves one. */
  lemma {:induction false} ServedThroughoutExactly(s: State, run: seq<Step>)
    requires Init(s) && Legal(s, run)
    ensures ServedThroughout(s, run) <==> Feeding(s, run)
    decreases |run|
  {
    if run != [] {
      var before := run[..|run| - 1];
      ServedThroughoutExactly(s, before);
      RunKeepsBase(s, before);
      if Feeding(s, before) { ServedExactly(Replay(s, before), run[|run| - 1]); }
      assert ServedThroughout(s, run) ==> ServedThroughout(s, before);
    }
  }
}
