/** Who holds which buffer and which socket.

    Between steps every pending operation and every registered connection holds its own
    buffers and sockets.  Inside a handler a few more are in hand: `hand` are buffers and
    `hs` sockets that a running handler has obtained or dequeued and not yet placed.
  */
module Ownership {
  import opened BufferPool
  import Sockets = SocketPool
  import opened SocketContexts
  import opened ResourceManagers
  import opened Protocol
  import opened Lifecycle

  // No buffer has two holders: the free cache, the hand, a pending operation, a context's cache.
  ghost predicate Apart(free: set<nat>, hand: set<nat>, ctxs: map<nat, Context>, pending: map<nat, Op>) {
    && hand !! free
    && (forall i | i in pending :: pending[i].buf !in free && pending[i].buf !in hand)
    && (forall i, j | i in pending && j in pending && i != j :: pending[i].buf != pending[j].buf)
    && (forall k | k in ctxs :: ctxs[k].cache !! free && ctxs[k].cache !! hand)
    && (forall k, l | k in ctxs && l in ctxs && k != l :: ctxs[k].cache !! ctxs[l].cache)
  }

  // A pending operation's buffer is in the cache of its own context, and in no other connection's.
  ghost predicate Placed(ctxs: map<nat, Context>, listen: set<nat>, pending: map<nat, Op>) {
    && (forall i | i in pending && pending[i].key in ctxs :: pending[i].buf in ctxs[pending[i].key].cache)
    && (forall i | i in pending && pending[i].key == LISTEN :: pending[i].buf in listen)
    && (forall i, k | i in pending && k in ctxs && k != pending[i].key :: pending[i].buf !in ctxs[k].cache)
  }

  // The header of a pending operation's buffer says what the operation was posted as.
  ghost predicate Truthful(tags: map<nat, Tag>, pending: map<nat, Op>) {
    forall i | i in pending :: pending[i].buf in tags && tags[pending[i].buf].kind == pending[i].kind
  }

  // The socket a pending accept will hand to its connection.
  function AcceptSocket(tags: map<nat, Tag>, op: Op): nat {
    if op.buf in tags then tags[op.buf].sock else 0
  }

  // Connections, pending accepts and the hand hold pairwise distinct sockets, all in use.
  ghost predicate SocketsApart(inUse: set<nat>, hs: set<nat>, ctxs: map<nat, Context>,
                               tags: map<nat, Tag>, pending: map<nat, Op>) {
    && hs <= inUse
    && (forall k | k in ctxs :: ctxs[k].sock in inUse && ctxs[k].sock !in hs)
    && (forall k, l | k in ctxs && l in ctxs && k != l :: ctxs[k].sock != ctxs[l].sock)
    && (forall i | i in pending && pending[i].kind == Accept ::
          AcceptSocket(tags, pending[i]) in inUse && AcceptSocket(tags, pending[i]) !in hs)
    && (forall i, j | i in pending && j in pending && i != j
                      && pending[i].kind == Accept && pending[j].kind == Accept ::
          AcceptSocket(tags, pending[i]) != AcceptSocket(tags, pending[j]))
    && (forall i, k | i in pending && k in ctxs && pending[i].kind == Accept ::
          AcceptSocket(tags, pending[i]) != ctxs[k].sock)
  }

  ghost predicate Holding(s: State, hand: set<nat>, hs: set<nat>) {
    && Base(s)
    && hand <= s.tags.Keys
    && Apart(s.res.buf.free, hand, s.res.ctxs, s.pending)
    && Placed(s.res.ctxs, s.listen, s.pending)
    && Truthful(s.tags, s.pending)
    && SocketsApart(s.res.sk.inUse, hs, s.res.ctxs, s.tags, s.pending)
    && Sockets.ClosedOnce(s.res.sk)
  }

  // Exclusive ownership between steps.
  ghost predicate Exclusive(s: State) {
    Holding(s, {}, {})
  }

  lemma Drop(s: State, hand: set<nat>, hs: set<nat>, hand': set<nat>, hs': set<nat>)
    requires Holding(s, hand, hs) && hand' <= hand && hs' <= hs
    ensures Holding(s, hand', hs')
  {
  }

  // ----- the building blocks -----

  // The dequeued operation's buffer and socket come to hand, unless its connection still caches the buffer.
  lemma ConsumeHolds(s: State, id: nat)
    requires Exclusive(s) && id in s.pending
    ensures var op := s.pending[id];
            Holding(s.(pending := s.pending - {id}),
                    if op.key in s.res.ctxs then {} else {op.buf},
                    if op.kind == Accept then {AcceptSocket(s.tags, op)} else {})
  {
    ConsumeBase(s, id);
    assert s.pending[id].buf in s.tags;
    var op := s.pending[id];
    assert op.key !in s.res.ctxs ==> forall k | k in s.res.ctxs :: op.buf !in s.res.ctxs[k].cache;
  }

  lemma CreateSockets(inUse: set<nat>, hs: set<nat>, ctxs: map<nat, Context>, tags: map<nat, Tag>,
                      pending: map<nat, Op>, k: nat, c: Context)
    requires SocketsApart(inUse, hs, ctxs, tags, pending) && k !in ctxs && c.sock in hs
    ensures SocketsApart(inUse, hs - {c.sock}, ctxs[k := c], tags, pending)
  {
  }

  lemma CreateHolds(s: State, hand: set<nat>, hs: set<nat>, sock: nat, now: int)
    requires Holding(s, hand, hs) && sock in hs
    ensures Holding(s.(res := Create(s.res, sock, AcceptedSocket, now)), hand, hs - {sock})
  {
    hide Headers, Allocated, SocketsApart;
    CreateBase(s, sock, now);
    CreateSockets(s.res.sk.inUse, hs, s.res.ctxs, s.tags, s.pending, s.res.next,
                  Context(sock, AcceptedSocket, {}, now, 1));
  }

  // A buffer just obtained is held by nobody.
  lemma Unheld(s: State, hand: set<nat>, hs: set<nat>, g: Get)
    requires Holding(s, hand, hs) && CanGet(s.res.buf, g)
    ensures g.b !in hand
    ensures forall i | i in s.pending :: s.pending[i].buf != g.b
    ensures forall k | k in s.res.ctxs :: g.b !in s.res.ctxs[k].cache
  {
    GetIsFresh(s.res.buf, g);
    forall k | k in s.res.ctxs ensures g.b !in s.res.ctxs[k].cache {
      assert s.res.ctxs[k].cache <= s.tags.Keys;
    }
  }

  lemma GetApart(s: State, hand: set<nat>, hs: set<nat>, g: Get)
    requires Holding(s, hand, hs) && CanGet(s.res.buf, g)
    ensures Apart(DoGet(s.res.buf, g).free, hand, s.res.ctxs, s.pending)
  {
    GetIsFresh(s.res.buf, g);
    forall k | k in s.res.ctxs ensures s.res.ctxs[k].cache !! DoGet(s.res.buf, g).free {
      assert s.res.ctxs[k].cache <= s.tags.Keys;
    }
  }

  lemma RecacheApart(free: set<nat>, hand: set<nat>, ctxs: map<nat, Context>, pending: map<nat, Op>,
                     k: nat, cache: set<nat>)
    requires Apart(free, hand, ctxs, pending) && k in ctxs
    requires cache !! free && cache !! hand
    requires forall l | l in ctxs && l != k :: cache !! ctxs[l].cache
    ensures Apart(free, hand, ctxs[k := ctxs[k].(cache := cache)], pending)
  {
  }

  lemma RecachePlaced(ctxs: map<nat, Context>, listen: set<nat>, pending: map<nat, Op>, k: nat, cache: set<nat>)
    requires Placed(ctxs, listen, pending) && k in ctxs
    requires forall i | i in pending :: pending[i].buf in cache <==> pending[i].buf in ctxs[k].cache
    ensures Placed(ctxs[k := ctxs[k].(cache := cache)], listen, pending)
  {
  }

  lemma RecacheSockets(inUse: set<nat>, hs: set<nat>, ctxs: map<nat, Context>, tags: map<nat, Tag>,
                       pending: map<nat, Op>, k: nat, cache: set<nat>)
    requires SocketsApart(inUse, hs, ctxs, tags, pending) && k in ctxs
    ensures SocketsApart(inUse, hs, ctxs[k := ctxs[k].(cache := cache)], tags, pending)
  {
  }

  // Marking a buffer without an operation changes nothing for the pending operations.
  lemma Retag(inUse: set<nat>, hs: set<nat>, ctxs: map<nat, Context>, tags: map<nat, Tag>,
              pending: map<nat, Op>, b: nat, tag: Tag)
    requires Truthful(tags, pending) && SocketsApart(inUse, hs, ctxs, tags, pending)
    requires forall i | i in pending :: pending[i].buf != b
    ensures Truthful(tags[b := tag], pending) && SocketsApart(inUse, hs, ctxs, tags[b := tag], pending)
  {
    forall i | i in pending ensures AcceptSocket(tags[b := tag], pending[i]) == AcceptSocket(tags, pending[i]) {
    }
  }

  lemma ArmReadHolds(s: State, hand: set<nat>, hs: set<nat>, k: nat, g: Get)
    requires Holding(s, hand, hs) && k in s.res.ctxs && CanGet(s.res.buf, g)
    ensures Holding(ArmRead(s, k, g), hand, hs)
    ensures forall i | i in s.pending :: s.pending[i].buf != g.b
  {
    hide Contexts, OneReadEach, Headers;
    ArmReadBase(s, k, g);
    Unheld(s, hand, hs, g);
    GetApart(s, hand, hs, g);
    GetIsFresh(s.res.buf, g);
    var cache := s.res.ctxs[k].cache + {g.b};
    RecacheApart(DoGet(s.res.buf, g).free, hand, s.res.ctxs, s.pending, k, cache);
    RecachePlaced(s.res.ctxs, s.listen, s.pending, k, cache);
    Retag(s.res.sk.inUse, hs, s.res.ctxs, s.tags, s.pending, g.b, Tag(Read, s.res.ctxs[k].sock));
    RecacheSockets(s.res.sk.inUse, hs, s.res.ctxs, s.tags[g.b := Tag(Read, s.res.ctxs[k].sock)], s.pending, k, cache);
  }

  lemma PostApart(free: set<nat>, hand: set<nat>, ctxs: map<nat, Context>, pending: map<nat, Op>, id: nat, op: Op)
    requires Apart(free, hand, ctxs, pending) && id !in pending
    requires op.buf !in free && op.buf !in hand && forall i | i in pending :: pending[i].buf != op.buf
    ensures Apart(free, hand, ctxs, pending[id := op])
  {
  }

  lemma PostSockets(inUse: set<nat>, hs: set<nat>, ctxs: map<nat, Context>, tags: map<nat, Tag>,
                    pending: map<nat, Op>, id: nat, op: Op)
    requires SocketsApart(inUse, hs, ctxs, tags, pending) && id !in pending
    requires op.kind == Accept ==>
      var q := AcceptSocket(tags, op);
      && q in inUse && q !in hs
      && (forall k | k in ctxs :: ctxs[k].sock != q)
      && (forall i | i in pending && pending[i].kind == Accept :: AcceptSocket(tags, pending[i]) != q)
    ensures SocketsApart(inUse, hs, ctxs, tags, pending[id := op])
  {
  }

  // An operation on a buffer of its own, with a truthful header and a socket of its own, joins the pending ones.
  lemma PostHolds(s: State, hand: set<nat>, hs: set<nat>, op: Op)
    requires Holding(s, hand, hs) && s.nextOp !in s.pending
    requires Base(Post(s, op.key, op.buf, op.kind))
    requires op.buf !in s.res.buf.free && op.buf !in hand && forall i | i in s.pending :: s.pending[i].buf != op.buf
    requires if op.key in s.res.ctxs then op.buf in s.res.ctxs[op.key].cache else op.key == LISTEN && op.buf in s.listen
    requires forall k | k in s.res.ctxs && k != op.key :: op.buf !in s.res.ctxs[k].cache
    requires op.buf in s.tags && s.tags[op.buf].kind == op.kind
    requires op.kind == Accept ==>
      var q := AcceptSocket(s.tags, op);
      && q in s.res.sk.inUse && q !in hs
      && (forall k | k in s.res.ctxs :: s.res.ctxs[k].sock != q)
      && (forall i | i in s.pending && s.pending[i].kind == Accept :: AcceptSocket(s.tags, s.pending[i]) != q)
    ensures Holding(Post(s, op.key, op.buf, op.kind), hand, hs)
  {
    hide OneReadEach, Headers, Allocated, Apart, SocketsApart, AcceptSocket;
    PostApart(s.res.buf.free, hand, s.res.ctxs, s.pending, s.nextOp, op);
    PostSockets(s.res.sk.inUse, hs, s.res.ctxs, s.tags, s.pending, s.nextOp, op);
  }

  lemma PostReadHolds(s: State, hand: set<nat>, hs: set<nat>, k: nat, b: nat)
    requires Holding(s, hand, hs) && k in s.res.ctxs && b in s.res.ctxs[k].cache
    requires b in s.tags && s.tags[b].kind == Read
    requires forall i | i in s.pending :: s.pending[i].key != k && s.pending[i].buf != b
    ensures Holding(Post(s, k, b, Read), hand, hs)
  {
    hide Headers, Allocated, SocketsApart, Truthful;
    PostBase(s, k, b, Read);
    PostHolds(s, hand, hs, Op(k, b, Read));
  }

  lemma PostListenHolds(s: State, hand: set<nat>, hs: set<nat>, b: nat, kind: Kind)
    requires Holding(s, hand, hs) && b in hand && b in s.listen
    requires s.tags[b].kind == kind && (kind == Accept || kind == Exit)
    requires kind == Accept ==> s.tags[b].sock in hs
    ensures Holding(Post(s, LISTEN, b, kind), hand - {b}, hs - {s.tags[b].sock})
  {
    hide Headers, Allocated, Truthful;
    PostBase(s, LISTEN, b, kind);
    Drop(s, hand, hs, hand - {b}, hs - {s.tags[b].sock});
    PostHolds(s, hand - {b}, hs - {s.tags[b].sock}, Op(LISTEN, b, kind));
  }

  // Releasing a buffer that no operation and no connection holds.
  lemma ReleaseHolds(s: State, hand: set<nat>, hs: set<nat>, b: nat, recycle: bool)
    requires Holding(s, hand, hs) && b in s.tags
    requires forall i | i in s.pending :: s.pending[i].buf != b
    requires forall k | k in s.res.ctxs :: b !in s.res.ctxs[k].cache
    ensures Holding(ReleaseBuffer(s, b, recycle), hand - {b}, hs)
  {
    hide Contexts, OneReadEach, Headers, Allocated;
    ReleaseBufferBase(s, b, recycle);
  }

  // Destroying a buffer frees nothing.
  lemma DestroyHolds(s: State, hand: set<nat>, hs: set<nat>, b: nat)
    requires Holding(s, hand, hs) && b in s.tags
    ensures Holding(ReleaseBuffer(s, b, false), hand, hs)
  {
    ReleaseBufferBase(s, b, false);
  }

  lemma TakeApart(inUse: set<nat>, hs: set<nat>, ctxs: map<nat, Context>, tags: map<nat, Tag>,
                  pending: map<nat, Op>, q: nat)
    requires SocketsApart(inUse, hs, ctxs, tags, pending) && q !in inUse
    ensures SocketsApart(inUse + {q}, hs + {q}, ctxs, tags, pending)
  {
  }

  lemma HandApart(free: set<nat>, hand: set<nat>, ctxs: map<nat, Context>, pending: map<nat, Op>, b: nat)
    requires Apart(free, hand, ctxs, pending) && b !in free
    requires forall i | i in pending :: pending[i].buf != b
    requires forall k | k in ctxs :: b !in ctxs[k].cache
    ensures Apart(free, hand + {b}, ctxs, pending)
  {
  }

  lemma WiderListen(ctxs: map<nat, Context>, listen: set<nat>, pending: map<nat, Op>, b: nat)
    requires Placed(ctxs, listen, pending)
    ensures Placed(ctxs, listen + {b}, pending)
  {
  }

  lemma ArmListenHolds(s: State, hand: set<nat>, hs: set<nat>, g: Get, sock: nat, kind: Kind)
    requires Holding(s, hand, hs) && CanGet(s.res.buf, g) && Sockets.CanTake(s.res.sk, sock)
    requires kind == Accept || kind == Exit
    ensures Holding(ArmListen(s, g, sock, kind), hand + {g.b}, hs + {sock})
    ensures forall k | k in s.res.ctxs :: g.b !in s.res.ctxs[k].cache
  {
    hide Contexts, OneReadEach, Headers;
    ArmListenBase(s, g, sock, kind);
    Sockets.TakeAccounts(s.res.sk, sock);
    Unheld(s, hand, hs, g);
    GetApart(s, hand, hs, g);
    GetIsFresh(s.res.buf, g);
    Retag(s.res.sk.inUse, hs, s.res.ctxs, s.tags, s.pending, g.b, Tag(kind, sock));
    assert sock !in s.res.sk.inUse;
    TakeApart(s.res.sk.inUse, hs, s.res.ctxs, s.tags[g.b := Tag(kind, sock)], s.pending, sock);
    HandApart(DoGet(s.res.buf, g).free, hand, s.res.ctxs, s.pending, g.b);
    WiderListen(s.res.ctxs, s.listen, s.pending, g.b);
  }

  lemma DropContextBuffer(s: State, hand: set<nat>, hs: set<nat>, k: nat, b: nat)
    requires Holding(s, hand, hs) && k in s.res.ctxs
    requires forall i | i in s.pending :: s.pending[i].buf != b
    ensures Holding(SetCache(s, k, s.res.ctxs[k].cache - {b}), hand, hs)
  {
    var cache := s.res.ctxs[k].cache - {b};
    assert cache <= s.tags.Keys by {
      assert s.res.ctxs[k].cache <= s.tags.Keys;
    }
    SetCacheBase(s, k, cache);
    RecacheApart(s.res.buf.free, hand, s.res.ctxs, s.pending, k, cache);
    RecachePlaced(s.res.ctxs, s.listen, s.pending, k, cache);
    RecacheSockets(s.res.sk.inUse, hs, s.res.ctxs, s.tags, s.pending, k, cache);
  }

  // The kept buffers of a released context become free; none may have an operation outstanding.
  lemma ReleaseContextHolds(s: State, k: nat, kept: set<nat>)
    requires Exclusive(s) && k in s.res.ctxs
    requires forall i | i in s.pending && s.pending[i].key == k :: s.pending[i].buf !in kept
    ensures Exclusive(s.(res := ReleaseContext(s.res, k, kept)))
  {
    ReleaseContextBase(s, k, kept);
    Sockets.CloseOnceExactly(s.res.sk, s.res.ctxs[k].sock);
  }
}
