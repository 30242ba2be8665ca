/** Where every buffer recorded in use is: over tame runs none is lost.

    A buffer that is in use and not free is cached by a connection, is used by an operation on the
    listening socket, or belonged to an exit packet already heard, whose buffer the handler
    never gives back.
  */
module BufferBooks {
  import opened BufferPool
  import Sockets = SocketPool
  import opened SocketContexts
  import opened ResourceManagers
  import opened Protocol
  import opened Lifecycle
  import opened Ownership
  import opened Exclusivity
  import opened Runs
  import opened Operations

  ghost predicate HeldBy(ctxs: map<nat, Context>, pending: map<nat, Op>, hand: set<nat>, spent: set<nat>, b: nat) {
    || b in hand || b in spent
    || (exists k :: k in ctxs && b in ctxs[k].cache)
    || (exists i :: i in pending && pending[i].key == LISTEN && pending[i].buf == b)
  }

  ghost predicate NoLeak(buf: Pool, ctxs: map<nat, Context>, pending: map<nat, Op>, hand: set<nat>, spent: set<nat>) {
    forall b | b in buf.inUse && b !in buf.free :: HeldBy(ctxs, pending, hand, spent, b)
  }

  // The buffers of exit packets heard stay recorded in use, and nobody else's.
  ghost predicate SpentApart(buf: Pool, ctxs: map<nat, Context>, pending: map<nat, Op>, hand: set<nat>, spent: set<nat>) {
    && spent <= buf.inUse && spent !! buf.free && spent !! hand
    && (forall b | b in spent :: b < buf.next)
    && (forall k | k in ctxs :: ctxs[k].cache !! spent)
    && (forall i | i in pending :: pending[i].buf !in spent)
  }

  // What a connection caches is marked as a read of its own socket.
  ghost predicate Marked(ctxs: map<nat, Context>, tags: map<nat, Tag>) {
    forall k, b | k in ctxs && b in ctxs[k].cache :: b in tags && tags[b] == Tag(Read, ctxs[k].sock)
  }

  // A recycled buffer is still recorded in use; what is cached or in hand is recorded and not free.
  ghost predicate Logged(buf: Pool, ctxs: map<nat, Context>, tags: map<nat, Tag>, hand: set<nat>) {
    && (forall b | b in buf.free && b in tags :: b in buf.inUse)
    && hand <= buf.inUse - buf.free
    && (forall k | k in ctxs :: ctxs[k].cache <= buf.inUse - buf.free)
  }

  ghost predicate Books(s: State, hand: set<nat>, spent: set<nat>) {
    && Logged(s.res.buf, s.res.ctxs, s.tags, hand)
    && NoLeak(s.res.buf, s.res.ctxs, s.pending, hand, spent)
    && SpentApart(s.res.buf, s.res.ctxs, s.pending, hand, spent)
    && Marked(s.res.ctxs, s.tags)
  }

  // ----- the building blocks -----

  lemma RecacheLeak(buf: Pool, ctxs: map<nat, Context>, pending: map<nat, Op>, hand: set<nat>, spent: set<nat>,
                    k: nat, c: Context)
    requires NoLeak(buf, ctxs, pending, hand, spent)
    requires k in ctxs ==> forall b | b in ctxs[k].cache && b in buf.inUse && b !in buf.free :: b in c.cache
    ensures NoLeak(buf, ctxs[k := c], pending, hand, spent)
  {
    forall b | b in buf.inUse && b !in buf.free ensures HeldBy(ctxs[k := c], pending, hand, spent, b) {
      if l :| l in ctxs && b in ctxs[l].cache { assert l in ctxs[k := c] && b in ctxs[k := c][l].cache; }
    }
  }

  lemma GetLeak(buf: Pool, ctxs: map<nat, Context>, pending: map<nat, Op>, hand: set<nat>, spent: set<nat>, g: Get)
    requires NoLeak(buf, ctxs, pending, hand, spent) && HeldBy(ctxs, pending, hand, spent, g.b)
    ensures NoLeak(DoGet(buf, g), ctxs, pending, hand, spent)
  {
    hide HeldBy;
  }

  // A connection's cache grows by a buffer of its own.
  lemma CacheLeak(buf: Pool, ctxs: map<nat, Context>, pending: map<nat, Op>, hand: set<nat>, spent: set<nat>,
                  k: nat, g: Get)
    requires NoLeak(buf, ctxs, pending, hand, spent) && k in ctxs
    ensures NoLeak(DoGet(buf, g), ctxs[k := ctxs[k].(cache := ctxs[k].cache + {g.b})], pending, hand, spent)
  {
    var ctxs' := ctxs[k := ctxs[k].(cache := ctxs[k].cache + {g.b})];
    RecacheLeak(buf, ctxs, pending, hand, spent, k, ctxs[k].(cache := ctxs[k].cache + {g.b}));
    assert k in ctxs' && g.b in ctxs'[k].cache;
    GetLeak(buf, ctxs', pending, hand, spent, g);
  }

  lemma GetSpent(s: State, hand: set<nat>, hs: set<nat>, spent: set<nat>, g: Get)
    requires Holding(s, hand, hs) && CanGet(s.res.buf, g)
    requires SpentApart(s.res.buf, s.res.ctxs, s.pending, hand, spent)
    ensures SpentApart(DoGet(s.res.buf, g), s.res.ctxs, s.pending, hand, spent) && g.b !in spent
  {
    GetIsFresh(s.res.buf, g);
    hide Holding, CanGet, DoGet;
  }

  lemma GetLogged(s: State, hand: set<nat>, hs: set<nat>, g: Get, tag: Tag)
    requires Holding(s, hand, hs) && CanGet(s.res.buf, g) && Logged(s.res.buf, s.res.ctxs, s.tags, hand)
    ensures Logged(DoGet(s.res.buf, g), s.res.ctxs, s.tags[g.b := tag], hand + {g.b})
    ensures g.b in DoGet(s.res.buf, g).inUse && g.b !in DoGet(s.res.buf, g).free
  {
    Unheld(s, hand, hs, g);
    GetIsFresh(s.res.buf, g);
    BaseTags(s);
    GetApart(s, hand, hs, g);
    hide Holding, CanGet, DoGet;
  }

  lemma BaseTags(s: State)
    requires Base(s)
    ensures (forall b | b in s.res.buf.free :: b < s.res.buf.next) && (forall b | b in s.tags :: b < s.res.buf.next)
  {
  }

  lemma CreateBooks(s: State, hand: set<nat>, spent: set<nat>, sock: nat, now: int)
    requires Books(s, hand, spent) && s.res.next !in s.res.ctxs
    ensures Books(s.(res := Create(s.res, sock, AcceptedSocket, now)), hand, spent)
  {
    hide HeldBy, NoLeak;
    RecacheLeak(s.res.buf, s.res.ctxs, s.pending, hand, spent, s.res.next, Context(sock, AcceptedSocket, {}, now, 1));
  }

  lemma ArmReadBooks(s: State, hand: set<nat>, hs: set<nat>, spent: set<nat>, k: nat, g: Get)
    requires Holding(s, hand, hs) && k in s.res.ctxs && CanGet(s.res.buf, g) && Books(s, hand, spent)
    ensures Books(ArmRead(s, k, g), hand, spent)
  {
    Unheld(s, hand, hs, g);
    GetSpent(s, hand, hs, spent, g);
    GetLogged(s, hand, hs, g, Tag(Read, s.res.ctxs[k].sock));
    hide Holding, DoGet, CanGet, HeldBy, NoLeak, SpentApart;
    LogCached(DoGet(s.res.buf, g), s.res.ctxs, s.tags[g.b := Tag(Read, s.res.ctxs[k].sock)], hand, k, g.b);
    MarkCached(s.res.ctxs, s.tags, k, g.b);
    hide Logged, Marked;
    CacheLeak(s.res.buf, s.res.ctxs, s.pending, hand, spent, k, g);
    CacheSpent(DoGet(s.res.buf, g), s.res.ctxs, s.pending, hand, spent, k, g.b);
  }

  lemma LogCached(buf: Pool, ctxs: map<nat, Context>, tags: map<nat, Tag>, hand: set<nat>, k: nat, b: nat)
    requires Logged(buf, ctxs, tags, hand + {b}) && k in ctxs
    ensures Logged(buf, ctxs[k := ctxs[k].(cache := ctxs[k].cache + {b})], tags, hand)
  {
  }

  lemma MarkCached(ctxs: map<nat, Context>, tags: map<nat, Tag>, k: nat, b: nat)
    requires Marked(ctxs, tags) && k in ctxs
    requires forall l | l in ctxs :: b !in ctxs[l].cache
    ensures Marked(ctxs[k := ctxs[k].(cache := ctxs[k].cache + {b})], tags[b := Tag(Read, ctxs[k].sock)])
  {
  }

  lemma CacheSpent(buf: Pool, ctxs: map<nat, Context>, pending: map<nat, Op>, hand: set<nat>, spent: set<nat>,
                   k: nat, b: nat)
    requires SpentApart(buf, ctxs, pending, hand, spent) && k in ctxs && b !in spent
    ensures SpentApart(buf, ctxs[k := ctxs[k].(cache := ctxs[k].cache + {b})], pending, hand, spent)
  {
  }

  lemma PostLeak(buf: Pool, ctxs: map<nat, Context>, pending: map<nat, Op>, hand: set<nat>, spent: set<nat>, i: nat, op: Op)
    requires NoLeak(buf, ctxs, pending, hand, spent) && i !in pending
    ensures NoLeak(buf, ctxs, pending[i := op], if op.key == LISTEN then hand - {op.buf} else hand, spent)
  {
    var hand' := if op.key == LISTEN then hand - {op.buf} else hand;
    forall b | b in buf.inUse && b !in buf.free ensures HeldBy(ctxs, pending[i := op], hand', spent, b) {
      if j :| j in pending && pending[j].key == LISTEN && pending[j].buf == b { assert j in pending[i := op]; }
      if op.key == LISTEN && b == op.buf { assert i in pending[i := op]; }
    }
  }

  lemma PostReadBooks(s: State, hand: set<nat>, spent: set<nat>, k: nat, b: nat)
    requires Books(s, hand, spent) && k in s.res.ctxs && b in s.res.ctxs[k].cache && k != LISTEN && s.nextOp !in s.pending
    ensures Books(Post(s, k, b, Read), hand, spent)
  {
    hide NoLeak, Marked;
    PostLeak(s.res.buf, s.res.ctxs, s.pending, hand, spent, s.nextOp, Op(k, b, Read));
  }

  lemma PostListenBooks(s: State, hand: set<nat>, spent: set<nat>, b: nat, kind: Kind)
    requires Books(s, hand, spent) && b in hand && s.nextOp !in s.pending
    ensures Books(Post(s, LISTEN, b, kind), hand - {b}, spent)
  {
    hide NoLeak, Marked;
    PostLeak(s.res.buf, s.res.ctxs, s.pending, hand, spent, s.nextOp, Op(LISTEN, b, kind));
  }

  // A buffer held by nobody but the hand is given back.
  lemma ReleaseBooks(s: State, hand: set<nat>, spent: set<nat>, b: nat, recycle: bool)
    requires Books(s, hand, spent) && b in hand
    requires forall k | k in s.res.ctxs :: b !in s.res.ctxs[k].cache
    ensures Books(ReleaseBuffer(s, b, recycle), hand - {b}, spent)
  {
    forall x | HeldBy(s.res.ctxs, s.pending, hand, spent, x) && x != b
      ensures HeldBy(s.res.ctxs, s.pending, hand - {b}, spent, x)
    {
    }
    hide HeldBy, Marked;
  }

  lemma ReleaseContextBooks(s: State, spent: set<nat>, k: nat, kept: set<nat>)
    requires Books(s, {}, spent) && k in s.res.ctxs
    requires forall l | l in s.res.ctxs && l != k :: s.res.ctxs[l].cache !! s.res.ctxs[k].cache
    ensures Books(s.(res := ReleaseContext(s.res, k, kept)), {}, spent)
  {
    var s' := s.(res := ReleaseContext(s.res, k, kept));
    forall b | b in s'.res.buf.inUse && b !in s'.res.buf.free ensures HeldBy(s'.res.ctxs, s.pending, {}, spent, b) {
      assert HeldBy(s.res.ctxs, s.pending, {}, spent, b) && b !in s.res.ctxs[k].cache;
      if l :| l in s.res.ctxs && b in s.res.ctxs[l].cache { assert l in s'.res.ctxs; }
    }
  }

  // ----- the handlers -----

  lemma ArmListenBooks(s: State, hand: set<nat>, hs: set<nat>, spent: set<nat>, g: Get, sock: nat, kind: Kind)
    requires Holding(s, hand, hs) && CanGet(s.res.buf, g) && Books(s, hand, spent)
    ensures Books(ArmListen(s, g, sock, kind), hand + {g.b}, spent)
  {
    Unheld(s, hand, hs, g);
    GetSpent(s, hand, hs, spent, g);
    GetLogged(s, hand, hs, g, Tag(kind, sock));
    hide Holding, DoGet, CanGet, Sockets.Take, HeldBy, Logged;
    HandSpent(DoGet(s.res.buf, g), s.res.ctxs, s.pending, hand, spent, g.b);
    hide SpentApart;
    HandLeak(s.res.buf, s.res.ctxs, s.pending, hand, spent, g.b);
    GetLeak(s.res.buf, s.res.ctxs, s.pending, hand + {g.b}, spent, g);
    hide NoLeak;
  }

  lemma HandSpent(buf: Pool, ctxs: map<nat, Context>, pending: map<nat, Op>, hand: set<nat>, spent: set<nat>, b: nat)
    requires SpentApart(buf, ctxs, pending, hand, spent) && b !in spent
    ensures SpentApart(buf, ctxs, pending, hand + {b}, spent)
  {
  }

  lemma HandLeak(buf: Pool, ctxs: map<nat, Context>, pending: map<nat, Op>, hand: set<nat>, spent: set<nat>, b: nat)
    requires NoLeak(buf, ctxs, pending, hand, spent)
    ensures NoLeak(buf, ctxs, pending, hand + {b}, spent)
  {
    forall x | HeldBy(ctxs, pending, hand, spent, x) ensures HeldBy(ctxs, pending, hand + {b}, spent, x) {
    }
  }

  lemma PostFresh(s: State, hand: set<nat>, hs: set<nat>)
    requires Holding(s, hand, hs)
    ensures s.nextOp !in s.pending && 0 < s.res.next && s.res.next !in s.res.ctxs && LISTEN !in s.res.ctxs
  {
  }

  lemma TryAcceptBooks(s: State, t: Try, hand: set<nat>, spent: set<nat>)
    requires Holding(s, hand, {}) && CanTry(s, t) && Books(s, hand, spent)
    ensures Books(TryAccept(s, t), hand, spent)
  {
    PostFresh(s, hand, {});
    Unheld(s, hand, {}, t.get);
    GetSpent(s, hand, {}, spent, t.get);
    hide Holding, DoGet, CanGet, Sockets.Take, Sockets.CanTake, Books, ArmListen;
    var s1 := ArmListen(s, t.get, t.sock, Accept);
    ArmListenBooks(s, hand, {}, spent, t.get, t.sock, Accept);
    ArmListenOps(s, t.get, t.sock, Accept);
    assert hand + {t.get.b} - {t.get.b} == hand;
    if t.posted { PostListenBooks(s1, hand + {t.get.b}, spent, t.get.b, Accept); }
    else { ReleaseBooks(s1, hand + {t.get.b}, spent, t.get.b, t.recycle); }
  }

  lemma ArmListenOps(s: State, g: Get, sock: nat, kind: Kind)
    ensures ArmListen(s, g, sock, kind).pending == s.pending && ArmListen(s, g, sock, kind).nextOp == s.nextOp
  {
  }

  lemma PostAcceptBooks(s: State, first: Try, second: Try, hand: set<nat>, spent: set<nat>)
    requires Holding(s, hand, {}) && CanPostAccept(s, first, second) && Books(s, hand, spent)
    ensures Books(PostAccept(s, first, second), hand, spent)
  {
    hide Holding, TryAccept, CanTry;
    TryAcceptBooks(s, first, hand, spent);
    if !first.posted {
      TryAcceptHolds(s, first, hand);
      TryAcceptBooks(TryAccept(s, first), second, hand, spent);
    }
  }

  lemma ReadAgainBooks(s: State, hand: set<nat>, hs: set<nat>, spent: set<nat>, k: nat, r: ReadPost)
    requires Holding(s, hand, hs) && k in s.res.ctxs && CanGet(s.res.buf, r.get) && Books(s, hand, spent) && r.posted
    ensures Books(ReadAgain(s, k, r), hand, spent)
  {
    PostFresh(s, hand, hs);
    Unheld(s, hand, hs, r.get);
    ArmReadBooks(s, hand, hs, spent, k, r.get);
    hide Holding, Books, CanGet, DoGet;
    PostReadBooks(ArmRead(s, k, r.get), hand, spent, k, r.get.b);
  }

  lemma ArriveBooks(s: State, b: nat, a: Arrival, hs: set<nat>, spent: set<nat>)
    requires Holding(s, {b}, hs) && b in s.tags && s.tags[b].sock in hs && CanGet(s.res.buf, a.read.get)
    requires Books(s, {b}, spent) && (a.bound ==> a.read.posted)
    ensures Books(Arrive(s, b, a), {b}, spent)
  {
    var sock, k := s.tags[b].sock, s.res.next;
    var s1 := s.(res := Create(s.res, sock, AcceptedSocket, a.now));
    PostFresh(s, {b}, hs);
    CreateHolds(s, {b}, hs, sock, a.now);
    CreateBooks(s, {b}, spent, sock, a.now);
    hide Holding, Books, CanGet, DoGet;
    ArmReadBooks(s1, {b}, hs - {sock}, spent, k, a.read.get);
    if a.bound { ReadAgainBooks(s1, {b}, hs - {sock}, spent, k, a.read); }
  }

  // A dequeued operation on the listening socket leaves its buffer in the handler's hand.
  lemma ConsumeBooks(s: State, spent: set<nat>, id: nat)
    requires Books(s, {}, spent) && id in s.pending
    requires s.pending[id].key == LISTEN ==> s.pending[id].buf in s.res.buf.inUse && s.pending[id].buf !in s.res.buf.free
    ensures Books(s.(pending := s.pending - {id}), if s.pending[id].key == LISTEN then {s.pending[id].buf} else {}, spent)
  {
    var op := s.pending[id];
    var hand := if op.key == LISTEN then {op.buf} else {};
    forall b | HeldBy(s.res.ctxs, s.pending, {}, spent, b)
      ensures HeldBy(s.res.ctxs, s.pending - {id}, hand, spent, b)
    {
      if i :| i in s.pending && s.pending[i].key == LISTEN && s.pending[i].buf == b {
        assert i == id || i in s.pending - {id};
      }
    }
    hide HeldBy, Marked;
  }

  lemma GotAcceptBooks(s: State, spent: set<nat>, id: nat, bytes: nat, c: Choices)
    requires Owned(s) && id in s.pending && CanComplete(s, id, true, bytes, c) && Books(s, {}, spent)
    requires Route(s, s.pending[id], true, bytes) == GotAccept && (c.arrival.bound ==> c.arrival.read.posted)
    ensures Books(Complete(s, id, true, bytes, c), {}, spent)
  {
    var op := s.pending[id];
    var s0 := s.(pending := s.pending - {id});
    RouteIsIntended(s, id, true, bytes);
    ListenOp(s, id);
    ListenBuffer(s, id);
    ConsumeHolds(s, id);
    ConsumeBooks(s, spent, id);
    ArrivedHolds(s, id, c.arrival);
    hide Owned, Exclusive, Holding, Books, Arrive, PostAccept, CanPostAccept, CanGet, AcceptSocket;
    AcceptSock(s, id);
    ArriveBooks(s0, op.buf, c.arrival, {s.tags[op.buf].sock}, spent);
    RepostBooks(Arrive(s0, op.buf, c.arrival), c.first, c.second, op.buf, c.recycle, spent);
  }

  lemma AcceptSock(s: State, id: nat)
    requires id in s.pending && s.pending[id].buf in s.tags
    ensures AcceptSocket(s.tags, s.pending[id]) == s.tags[s.pending[id].buf].sock
  {
  }

  lemma RepostBooks(s: State, first: Try, second: Try, b: nat, recycle: bool, spent: set<nat>)
    requires Holding(s, {b}, {}) && CanPostAccept(s, first, second) && Books(s, {b}, spent)
    ensures Books(ReleaseListenBuffer(PostAccept(s, first, second), b, recycle), {}, spent)
  {
    PostAcceptBooks(s, first, second, {b}, spent);
    PostAcceptHolds(s, first, second, {b});
    HandAlone(PostAccept(s, first, second), {b}, {}, b);
    hide Holding, PostAccept, CanPostAccept;
    var s1 := PostAccept(s, first, second);
    assert b in {b} && {b} - {b} == {};
    ReleaseBooks(s1, {b}, spent, b, recycle);
    hide NoLeak, SpentApart, Marked, Logged;
  }

  lemma HandAlone(s: State, hand: set<nat>, hs: set<nat>, b: nat)
    requires Holding(s, hand, hs) && b in hand
    ensures forall k | k in s.res.ctxs :: b !in s.res.ctxs[k].cache
  {
  }

  lemma ListenOp(s: State, id: nat)
    requires Exclusive(s) && id in s.pending
    ensures var op := s.pending[id];
            && op.buf in s.tags && LISTEN !in s.res.ctxs
            && (op.key == LISTEN <==> op.kind == Accept || op.kind == Exit)
  {
  }

  lemma ResetTimerBooks(s: State, spent: set<nat>, k: nat, now: int)
    requires Books(s, {}, spent) && k in s.res.ctxs
    ensures Books(ResetTimer(s, k, now), {}, spent)
  {
    hide HeldBy, NoLeak;
    RecacheLeak(s.res.buf, s.res.ctxs, s.pending, {}, spent, k, s.res.ctxs[k].(timer := now));
  }

  // A buffer leaves a connection's cache and is given back.
  lemma DropBooks(s: State, spent: set<nat>, k: nat, b: nat, recycle: bool)
    requires Books(s, {}, spent) && k in s.res.ctxs && b in s.res.ctxs[k].cache
    requires forall l | l in s.res.ctxs && l != k :: b !in s.res.ctxs[l].cache
    ensures Books(ReleaseContextBuffer(s, k, b, recycle), {}, spent)
  {
    var c := s.res.ctxs[k].(cache := s.res.ctxs[k].cache - {b});
    var s1 := SetCache(s, k, s.res.ctxs[k].cache - {b});
    HandLeak(s.res.buf, s.res.ctxs, s.pending, {}, spent, b);
    UncacheLeak(s.res.buf, s.res.ctxs, s.pending, spent, k, b);
    hide NoLeak;
    assert {} + {b} == {b} && {b} - {b} == {};
    assert Books(s1, {b}, spent);
    hide SpentApart, Marked, Logged;
    ReleaseBooks(s1, {b}, spent, b, recycle);
    assert ReleaseBuffer(s1, b, recycle) == ReleaseContextBuffer(s, k, b, recycle);
  }

  lemma UncacheLeak(buf: Pool, ctxs: map<nat, Context>, pending: map<nat, Op>, spent: set<nat>, k: nat, b: nat)
    requires NoLeak(buf, ctxs, pending, {} + {b}, spent) && k in ctxs
    ensures NoLeak(buf, ctxs[k := ctxs[k].(cache := ctxs[k].cache - {b})], pending, {b}, spent)
  {
    var ctxs' := ctxs[k := ctxs[k].(cache := ctxs[k].cache - {b})];
    forall x | HeldBy(ctxs, pending, {} + {b}, spent, x) ensures HeldBy(ctxs', pending, {b}, spent, x) {
      if l :| l in ctxs && x in ctxs[l].cache && x != b { assert l in ctxs' && x in ctxs'[l].cache; }
    }
  }

  lemma OthersApart(s: State, k: nat, b: nat)
    requires Exclusive(s) && k in s.res.ctxs && b in s.res.ctxs[k].cache
    ensures forall l | l in s.res.ctxs && l != k :: b !in s.res.ctxs[l].cache
  {
  }

  lemma ReadAgainOthers(s: State, k: nat, r: ReadPost, b: nat)
    requires k in s.res.ctxs && forall l | l in s.res.ctxs && l != k :: b !in s.res.ctxs[l].cache
    requires b in s.res.ctxs[k].cache
    ensures var s' := ReadAgain(s, k, r);
            && k in s'.res.ctxs && b in s'.res.ctxs[k].cache
            && forall l | l in s'.res.ctxs && l != k :: b !in s'.res.ctxs[l].cache
  {
    hide DoGet, Release;
  }

  lemma GotBytesBooks(s: State, spent: set<nat>, id: nat, bytes: nat, c: Choices)
    requires Exclusive(s) && id in s.pending && CanComplete(s, id, true, bytes, c) && Books(s, {}, spent)
    requires Route(s, s.pending[id], true, bytes) == GotBytes && c.again.posted
    ensures Books(Complete(s, id, true, bytes, c), {}, spent)
  {
    var op := s.pending[id];
    var s0 := s.(pending := s.pending - {id});
    RouteIsIntended(s, id, true, bytes);
    ListenOp(s, id);
    ConsumeReadHolds(s, id);
    ConsumeBooks(s, spent, id);
    ResetTimerHolds(s0, op.key, c.now);
    ResetTimerBooks(s0, spent, op.key, c.now);
    var s1 := ResetTimer(s0, op.key, c.now);
    Unheld(s1, {}, {}, c.again.get);
    OthersApart(s, op.key, op.buf);
    ReadAgainOthers(s1, op.key, c.again, op.buf);
    hide Exclusive, Holding, Books, DoGet, CanGet;
    ReadAgainBooks(s1, {}, {}, spent, op.key, c.again);
    DropBooks(ReadAgain(s1, op.key, c.again), spent, op.key, op.buf, c.recycle);
  }

  // The buffers whose exit packets have been heard, after a completion too.
  function Spends(s: State, op: Op, ok: bool, bytes: nat, spent: set<nat>): set<nat> {
    if Route(s, op, ok, bytes) == GotExit then spent + {op.buf} else spent
  }

  lemma SpendBooks(s: State, spent: set<nat>, b: nat)
    requires Books(s, {b}, spent) && b < s.res.buf.next
    requires forall k | k in s.res.ctxs :: b !in s.res.ctxs[k].cache
    requires forall i | i in s.pending :: s.pending[i].buf != b
    ensures Books(s, {}, spent + {b})
  {
    forall x | HeldBy(s.res.ctxs, s.pending, {b}, spent, x) ensures HeldBy(s.res.ctxs, s.pending, {}, spent + {b}, x) {
    }
    hide HeldBy, Marked;
  }

  // An operation on the listening socket uses a buffer that is recorded in use, not free, and its own.
  lemma ListenBuffer(s: State, id: nat)
    requires Owned(s) && id in s.pending && s.pending[id].key == LISTEN
    ensures var b := s.pending[id].buf;
            && b in s.res.buf.inUse && b !in s.res.buf.free && b < s.res.buf.next
            && (forall k | k in s.res.ctxs :: b !in s.res.ctxs[k].cache)
            && (forall i | i in s.pending - {id} :: s.pending[i].buf != b)
  {
  }

  lemma RestBooks(s: State, spent: set<nat>, id: nat, ok: bool, bytes: nat, c: Choices)
    requires Owned(s) && id in s.pending && CanComplete(s, id, ok, bytes, c) && Books(s, {}, spent)
    requires var br := Route(s, s.pending[id], ok, bytes); br == Dropped || br == GotExit || br == Failed || br == ClientGone
    requires Route(s, s.pending[id], ok, bytes) == Failed ==> s.pending[id].kind != Read
    ensures Books(Complete(s, id, ok, bytes, c), {}, Spends(s, s.pending[id], ok, bytes, spent))
  {
    var op := s.pending[id];
    var s0 := s.(pending := s.pending - {id});
    RouteIsIntended(s, id, ok, bytes);
    ListenOp(s, id);
    if op.key == LISTEN { ListenBuffer(s, id); }
    if op.key in s.res.ctxs { CachesApart(s, op.key); }
    ConsumeBooks(s, spent, id);
    hide Owned, Exclusive, NoLeak, SpentApart, Marked, Logged;
    match Route(s, op, ok, bytes)
    case GotExit => SpendBooks(s0, spent, op.buf);
    case Failed =>
      ReleaseBooks(s0, {op.buf}, spent, op.buf, c.recycle);
      assert {op.buf} - {op.buf} == {};
    case ClientGone => ReleaseContextBooks(s0, spent, op.key, c.kept);
    case _ =>
  }

  lemma CachesApart(s: State, k: nat)
    requires Exclusive(s) && k in s.res.ctxs
    ensures forall l | l in s.res.ctxs && l != k :: s.res.ctxs[l].cache !! s.res.ctxs[k].cache
  {
  }

  lemma CompleteBooks(s: State, spent: set<nat>, id: nat, ok: bool, bytes: nat, c: Choices)
    requires Owned(s) && id in s.pending && CanComplete(s, id, ok, bytes, c) && Books(s, {}, spent)
    requires !GivesBackRead(s, s.pending[id], ok, bytes, c)
    ensures Books(Complete(s, id, ok, bytes, c), {}, Spends(s, s.pending[id], ok, bytes, spent))
  {
    RouteIsIntended(s, id, ok, bytes);
    ReadAsPosted(s, id);
    hide Exclusive, Books, InUse, Complete, CanComplete;
    match Route(s, s.pending[id], ok, bytes)
    case GotAccept => GotAcceptBooks(s, spent, id, bytes, c);
    case GotBytes => GotBytesBooks(s, spent, id, bytes, c);
    case Written =>
    case _ => RestBooks(s, spent, id, ok, bytes, c);
  }

  lemma VisitBooks(s: State, spent: set<nat>, v: Visit)
    requires Exclusive(s) && Books(s, {}, spent)
    ensures Books(s.(res := VisitOne(s.res, v)), {}, spent)
  {
    if Evicts(s.res, v) { CachesApart(s, v.key); }
    hide HeldBy, NoLeak, Exclusive;
    if Evicts(s.res, v) { ReleaseContextBooks(s, spent, v.key, v.kept); }
    else if v.key in s.res.ctxs && Expired(s.res.ctxs[v.key], v.now, s.res.limit) {
      RecacheLeak(s.res.buf, s.res.ctxs, s.pending, {}, spent, v.key, s.res.ctxs[v.key].(checks := 2));
    }
  }

  lemma {:induction false} SweepBooks(s: State, spent: set<nat>, visits: seq<Visit>)
    requires Exclusive(s) && !RecyclesPending(s, visits) && Books(s, {}, spent)
    requires forall i, j | 0 <= i < j < |visits| :: visits[i].key != visits[j].key
    ensures Books(s.(res := Sweep(s.res, visits)), {}, spent)
  {
    if visits != [] {
      var before := visits[..|visits| - 1];
      assert !RecyclesPending(s, before) by {
        assert forall n | 0 <= n < |before| :: before[n] == visits[n];
      }
      SweepHolds(s, before);
      hide Books, VisitOne, Exclusive, RecyclesPending;
      SweepBooks(s, spent, before);
      VisitBooks(s.(res := Sweep(s.res, before)), spent, visits[|visits| - 1]);
    } else {
      assert s.(res := Sweep(s.res, visits)) == s;
    }
  }

  ghost function SpentBy(s: State, step: Step, spent: set<nat>): set<nat>
    requires Enabled(s, step)
  {
    if step.Completion? then Spends(s, s.pending[step.id], step.ok, step.bytes, spent) else spent
  }

  lemma StepBooks(s: State, spent: set<nat>, step: Step)
    requires Owned(s) && Enabled(s, step) && !Strays(s, step) && Books(s, {}, spent)
    ensures Books(Apply(s, step), {}, SpentBy(s, step, spent))
  {
    hide Exclusive, InUse, NoLeak, SpentApart, Marked, Logged, Complete, CanComplete, PostAccept, CanPostAccept;
    match step
    case OpenSlot(first, second) =>
      OwnedHolds(s);
      PostAcceptBooks(s, first, second, {}, spent);
      SlotBooks(PostAccept(s, first, second), spent);
    case Start =>
    case Completion(id, ok, bytes, c) =>
      CompletesPending(s, step);
      CompleteBooks(s, spent, id, ok, bytes, c);
    case SweepAll(visits) => SweepBooks(s, spent, visits);
    case QueueExit(get, sock) =>
      OwnedHolds(s);
      ExitBooks(s, spent, get, sock);
  }

  lemma OwnedHolds(s: State)
    requires Owned(s)
    ensures Holding(s, {}, {})
  {
  }

  lemma SlotBooks(s: State, spent: set<nat>)
    requires Books(s, {}, spent)
    ensures Books(s.(slots := s.slots + 1), {}, spent)
  {
  }

  lemma ExitBooks(s: State, spent: set<nat>, g: Get, sock: nat)
    requires Holding(s, {}, {}) && CanGet(s.res.buf, g) && Books(s, {}, spent)
    ensures Books(PostExit(s, g, sock), {}, spent)
  {
    PostFresh(s, {}, {});
    hide Holding, Books, ArmListen, CanGet;
    ArmListenBooks(s, {}, {}, spent, g, sock, Exit);
    ArmListenOps(s, g, sock, Exit);
    PostListenBooks(ArmListen(s, g, sock, Exit), {} + {g.b}, spent, g.b, Exit);
    assert {} + {g.b} - {g.b} == {};
  }

  // ----- whole runs -----

  ghost function SpentOver(s: State, run: seq<Step>): set<nat>
    requires Legal(s, run)
  {
    if run == [] then {}
    else
      var before := run[..|run| - 1];
      SpentBy(Replay(s, before), run[|run| - 1], SpentOver(s, before))
  }

  lemma {:induction false} RunKeepsBooks(s: State, run: seq<Step>)
    requires Init(s) && Legal(s, run) && Steady(s, run)
    ensures Books(Replay(s, run), {}, SpentOver(s, run))
    decreases |run|
  {
    if run != [] {
      hide Books, Owned, Apply, Strays, Init;
      var before := run[..|run| - 1];
      RunKeepsBooks(s, before);
      OwnedThroughoutExactly(s, before);
      OwnedNow(s, before);
      StepBooks(Replay(s, before), SpentOver(s, before), run[|run| - 1]);
    }
  }

  lemma OwnedNow(s: State, run: seq<Step>)
    requires Legal(s, run) && OwnedThroughout(s, run)
    ensures Owned(Replay(s, run))
  {
  }

  function Cached(ctxs: map<nat, Context>): set<nat> {
    set k, b | k in ctxs && b in ctxs[k].cache :: b
  }

  function Listening(pending: map<nat, Op>): set<nat> {
    set i | i in pending && pending[i].key == LISTEN :: pending[i].buf
  }

  /** No buffer is lost: over every run in which no read's buffer strays, the buffers recorded in use
      and not free are exactly those the connections cache, those of the accepts and exit packets
      pending, and those of the exit packets heard; a recycled buffer stays recorded in use; and what
      a connection caches is marked as a read of its own socket. */
  lemma InUseExactly(s: State, run: seq<Step>)
    requires Init(s) && Legal(s, run) && Steady(s, run)
    ensures var t := Replay(s, run);
            && t.res.buf.inUse - t.res.buf.free == Cached(t.res.ctxs) + Listening(t.pending) + SpentOver(s, run)
            && (forall b | b in t.res.buf.free && b in t.tags :: b in t.res.buf.inUse)
            && Marked(t.res.ctxs, t.tags)
  {
    RunKeepsBooks(s, run);
    OwnedThroughoutExactly(s, run);
    OwnedNow(s, run);
    hide Init, Legal, Replay, Steady, OwnedThroughout;
    InUseIs(Replay(s, run), SpentOver(s, run));
  }

  lemma InUseIs(s: State, spent: set<nat>)
    requires Owned(s) && Books(s, {}, spent)
    ensures s.res.buf.inUse - s.res.buf.free == Cached(s.res.ctxs) + Listening(s.pending) + spent
  {
    hide Base, Placed, Truthful, SocketsApart, Marked;
    forall b | b in s.res.buf.inUse && b !in s.res.buf.free
      ensures b in Cached(s.res.ctxs) + Listening(s.pending) + spent
    {
      assert HeldBy(s.res.ctxs, s.pending, {}, spent, b);
    }
  }
}
