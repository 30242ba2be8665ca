/** Sockets over all legal runs, whatever fails and whatever is recycled.

    The socket of an accept is known only from the header of the accept's buffer.  So what is
    kept is about the buffers in the listening context's cache, not about operations: a buffer
    marked as an accept's carries an open socket of its own.
  */
module SocketLife {
  import opened BufferPool
  import Sockets = SocketPool
  import opened SocketContexts
  import opened ResourceManagers
  import opened Protocol
  import opened Lifecycle

  // The connections' sockets are in use and pairwise distinct.
  ghost predicate Connected(inUse: set<nat>, ctxs: map<nat, Context>) {
    && (forall k | k in ctxs :: ctxs[k].sock in inUse)
    && (forall k, l | k in ctxs && l in ctxs && k != l :: ctxs[k].sock != ctxs[l].sock)
  }

  predicate OffersAccept(tags: map<nat, Tag>, listen: set<nat>, b: nat) {
    b in listen && b in tags && tags[b].kind == Accept
  }

  // The sockets offered with accepts are in use, no connection's, and pairwise distinct.
  ghost predicate Offered(inUse: set<nat>, ctxs: map<nat, Context>, tags: map<nat, Tag>, listen: set<nat>) {
    && (forall b | OffersAccept(tags, listen, b) :: tags[b].sock in inUse)
    && (forall b, k | OffersAccept(tags, listen, b) && k in ctxs :: ctxs[k].sock != tags[b].sock)
    && (forall b, c | OffersAccept(tags, listen, b) && OffersAccept(tags, listen, c) && b != c ::
          tags[b].sock != tags[c].sock)
  }

  // hand: the accept's buffer that a running handler has in hand, of which nothing is said.
  ghost predicate Kept(s: State, hand: set<nat>) {
    && Sockets.Accounts(s.res.sk) && Sockets.ClosedOnce(s.res.sk)
    && Connected(s.res.sk.inUse, s.res.ctxs)
    && Offered(s.res.sk.inUse, s.res.ctxs, s.tags, s.listen - hand)
  }

  // ----- the building blocks -----

  lemma ArmReadKept(s: State, hand: set<nat>, k: nat, g: Get)
    requires Kept(s, hand) && k in s.res.ctxs
    ensures Kept(ArmRead(s, k, g), hand)
  {
  }

  lemma ArmPostReadKept(s: State, hand: set<nat>, k: nat, r: ReadPost)
    requires Kept(s, hand) && k in s.res.ctxs
    ensures Kept(ReadAgain(s, k, r), hand)
  {
    ArmReadKept(s, hand, k, r.get);
  }

  lemma CreateKept(s: State, hand: set<nat>, sock: nat, now: int)
    requires Kept(s, hand) && s.res.next !in s.res.ctxs && sock in s.res.sk.inUse
    requires forall k | k in s.res.ctxs :: s.res.ctxs[k].sock != sock
    requires forall b | OffersAccept(s.tags, s.listen - hand, b) :: s.tags[b].sock != sock
    ensures Kept(s.(res := Create(s.res, sock, AcceptedSocket, now)), hand)
  {
  }

  // A buffer marked anew, with a socket not yet in use, joins the listening context's cache.
  lemma OfferNew(inUse: set<nat>, ctxs: map<nat, Context>, tags: map<nat, Tag>, listen: set<nat>, b: nat, tag: Tag,
                 listen': set<nat>)
    requires Connected(inUse, ctxs) && Offered(inUse, ctxs, tags, listen) && tag.sock !in inUse
    requires listen' <= listen + {b}
    ensures Connected(inUse + {tag.sock}, ctxs)
    ensures Offered(inUse + {tag.sock}, ctxs, tags[b := tag], listen')
  {
    assert forall c | OffersAccept(tags[b := tag], listen', c) && c != b ::
        OffersAccept(tags, listen, c) && tags[b := tag][c] == tags[c];
  }

  lemma ArmListenKept(s: State, hand: set<nat>, g: Get, sock: nat, kind: Kind)
    requires Kept(s, hand) && Sockets.CanTake(s.res.sk, sock)
    ensures Kept(ArmListen(s, g, sock, kind), hand)
  {
    hide Connected, Offered, Sockets.Take, Sockets.CanTake, Sockets.ClosedOnce;
    Sockets.TakeAccounts(s.res.sk, sock);
    OfferNew(s.res.sk.inUse, s.res.ctxs, s.tags, s.listen - hand, g.b, Tag(kind, sock), s.listen + {g.b} - hand);
  }

  lemma ReleaseContextKept(s: State, k: nat, kept: set<nat>)
    requires Kept(s, {}) && k in s.res.ctxs
    ensures Kept(s.(res := ReleaseContext(s.res, k, kept)), {})
  {
    Sockets.CloseOnceExactly(s.res.sk, s.res.ctxs[k].sock);
  }

  // ----- the handlers -----

  lemma TryAcceptKept(s: State, hand: set<nat>, t: Try)
    requires Kept(s, hand) && CanTry(s, t)
    ensures Kept(TryAccept(s, t), hand)
  {
    ArmListenKept(s, hand, t.get, t.sock, Accept);
  }

  lemma PostAcceptKept(s: State, hand: set<nat>, first: Try, second: Try)
    requires Kept(s, hand) && CanPostAccept(s, first, second)
    ensures Kept(PostAccept(s, first, second), hand)
  {
    TryAcceptKept(s, hand, first);
    if !first.posted { TryAcceptKept(TryAccept(s, first), hand, second); }
  }

  // The accept's socket passes from its buffer to the new connection.
  lemma ArriveKept(s: State, b: nat, a: Arrival)
    requires Kept(s, {}) && OffersAccept(s.tags, s.listen, b) && s.res.next !in s.res.ctxs
    ensures Kept(Arrive(s, b, a), {b})
  {
    var sock, k := s.tags[b].sock, s.res.next;
    assert forall c | OffersAccept(s.tags, s.listen - {b}, c) :: OffersAccept(s.tags, s.listen, c);
    CreateKept(s, {b}, sock, a.now);
    var s1 := s.(res := Create(s.res, sock, AcceptedSocket, a.now));
    ArmReadKept(s1, {b}, k, a.read.get);
  }

  lemma GotAcceptKept(s: State, b: nat, c: Choices)
    requires Kept(s, {}) && OffersAccept(s.tags, s.listen, b) && s.res.next !in s.res.ctxs
    requires CanPostAccept(Arrive(s, b, c.arrival), c.first, c.second)
    ensures Kept(ReleaseListenBuffer(PostAccept(Arrive(s, b, c.arrival), c.first, c.second), b, c.recycle), {})
  {
    hide Sockets.Accounts, Sockets.ClosedOnce, Connected, Arrive, PostAccept, CanPostAccept;
    ArriveKept(s, b, c.arrival);
    var s1 := PostAccept(Arrive(s, b, c.arrival), c.first, c.second);
    PostAcceptKept(Arrive(s, b, c.arrival), {b}, c.first, c.second);
    assert s1.listen - {b} - {} == s1.listen - {b};
  }

  lemma CompleteKept(s: State, id: nat, ok: bool, bytes: nat, c: Choices)
    requires Base(s) && Kept(s, {}) && CanComplete(s, id, ok, bytes, c)
    ensures Kept(Complete(s, id, ok, bytes, c), {})
  {
    hide Sockets.Accounts, Sockets.ClosedOnce, Connected, Offered, Headers, Allocated, OneReadEach,
         Arrive, PostAccept, CanPostAccept;
    var op := s.pending[id];
    var s0 := s.(pending := s.pending - {id});
    assert Kept(s0, {});
    match Route(s, op, ok, bytes)
    case GotAccept =>
      assert s.listen - {} == s.listen;
      GotAcceptKept(s0, op.buf, c);
    case GotBytes =>
      ResetTimerKept(s0, op.key, c.now);
      ArmPostReadKept(ResetTimer(s0, op.key, c.now), {}, op.key, c.again);
      DropKept(ReadAgain(ResetTimer(s0, op.key, c.now), op.key, c.again), op.key, op.buf, c.recycle);
    case ClientGone => ReleaseContextKept(s0, op.key, c.kept);
    case Written =>
      ResetTimerKept(s0, op.key, c.now);
      DropKept(ResetTimer(s0, op.key, c.now), op.key, op.buf, c.recycle);
    case _ =>
  }

  // A packet handled as an accept registers one connection, with the socket its buffer carries.
  lemma AcceptRegisters(s: State, id: nat, bytes: nat, c: Choices)
    requires Base(s) && CanComplete(s, id, true, bytes, c)
    requires Route(s, s.pending[id], true, bytes) == GotAccept
    ensures var s', k := Complete(s, id, true, bytes, c), s.res.next;
            && k !in s.res.ctxs && s'.res.ctxs.Keys == s.res.ctxs.Keys + {k}
            && s'.res.ctxs[k].sock == s.tags[s.pending[id].buf].sock
            && s.res.sk.inUse <= s'.res.sk.inUse
            && (forall l | l in s.res.ctxs :: s'.res.ctxs[l] == s.res.ctxs[l])
  {
    hide Headers, Allocated, OneReadEach, PostAccept, CanPostAccept, Sockets.Accounts;
    PostAcceptLeaves(Arrive(s.(pending := s.pending - {id}), s.pending[id].buf, c.arrival), c.first, c.second);
  }

  /** A packet handled as an accept turns the socket its buffer carries, in use and no connection's,
      into a new connection's, and leaves every other connection as it was. */
  lemma SocketHandedOver(s: State, id: nat, bytes: nat, c: Choices)
    requires Base(s) && Kept(s, {}) && id in s.pending && CanComplete(s, id, true, bytes, c)
    requires Route(s, s.pending[id], true, bytes) == GotAccept
    ensures var s', k := Complete(s, id, true, bytes, c), s.res.next;
            && k !in s.res.ctxs && s'.res.ctxs.Keys == s.res.ctxs.Keys + {k}
            && s'.res.ctxs[k].sock == s.tags[s.pending[id].buf].sock && s'.res.ctxs[k].sock in s'.res.sk.inUse
            && (forall l | l in s.res.ctxs ::
                  s'.res.ctxs[l] == s.res.ctxs[l] && s'.res.ctxs[l].sock != s'.res.ctxs[k].sock)
  {
    hide Base, Complete, CanComplete, Sockets.Accounts, Sockets.ClosedOnce;
    AcceptRegisters(s, id, bytes, c);
    assert OffersAccept(s.tags, s.listen - {}, s.pending[id].buf);
  }

  lemma ResetTimerKept(s: State, k: nat, now: int)
    requires Kept(s, {}) && k in s.res.ctxs
    ensures Kept(ResetTimer(s, k, now), {})
  {
  }

  lemma DropKept(s: State, k: nat, b: nat, recycle: bool)
    requires Kept(s, {}) && k in s.res.ctxs
    ensures Kept(ReleaseContextBuffer(s, k, b, recycle), {})
  {
  }

  lemma {:induction false} SweepKept(s: State, visits: seq<Visit>)
    requires Kept(s, {})
    ensures Kept(s.(res := Sweep(s.res, visits)), {})
  {
    if visits != [] {
      var before, v := visits[..|visits| - 1], visits[|visits| - 1];
      SweepKept(s, before);
      var s1 := s.(res := Sweep(s.res, before));
      if Evicts(s1.res, v) { ReleaseContextKept(s1, v.key, v.kept); }
    } else {
      assert s.(res := Sweep(s.res, visits)) == s;
    }
  }

  lemma StepKept(s: State, step: Step)
    requires Base(s) && Kept(s, {}) && Enabled(s, step)
    ensures Kept(Apply(s, step), {})
  {
    hide Sockets.Accounts, Sockets.ClosedOnce, Connected, Offered, Base, Complete, CanComplete;
    match step
    case OpenSlot(first, second) => PostAcceptKept(s, {}, first, second);
    case Start =>
    case Completion(id, ok, bytes, c) => CompleteKept(s, id, ok, bytes, c);
    case SweepAll(visits) => SweepKept(s, visits);
    case QueueExit(get, sock) => ArmListenKept(s, {}, get, sock, Exit);
  }

  /** Over every legal run, whatever fails and whatever is recycled: the connections' sockets are
      in use and pairwise distinct, no accept's buffer in the listening context's cache carries a
      connection's socket or another buffer's, and no socket is closed twice. */
  lemma {:induction false} RunKeepsSockets(s: State, run: seq<Step>)
    requires Init(s) && Legal(s, run)
    ensures Kept(Replay(s, run), {})
    decreases |run|
  {
    if run != [] {
      var before := run[..|run| - 1];
      RunKeepsSockets(s, before);
      RunKeepsBase(s, before);
      StepKept(Replay(s, before), run[|run| - 1]);
    }
  }

  // ----- what is handed out -----

  // The sockets a step takes from the pool: one for each try at posting an accept, one for an exit packet.
  ghost function Takes(s: State, step: Step): nat
    requires Enabled(s, step)
  {
    match step
    case OpenSlot(first, second) => if first.posted then 1 else 2
    case Completion(id, ok, bytes, c) =>
      if Route(s, s.pending[id], ok, bytes) != GotAccept then 0 else if c.first.posted then 1 else 2
    case QueueExit(_, _) => 1
    case _ => 0
  }

  lemma TryAcceptTakes(s: State, t: Try)
    requires Sockets.Accounts(s.res.sk) && CanTry(s, t)
    ensures Sockets.Accounts(TryAccept(s, t).res.sk) && |TryAccept(s, t).res.sk.handed| == |s.res.sk.handed| + 1
  {
    hide Sockets.Take, Sockets.CanTake, Sockets.Accounts;
    Sockets.TakeAccounts(s.res.sk, t.sock);
  }

  lemma PostAcceptTakes(s: State, first: Try, second: Try)
    requires Sockets.Accounts(s.res.sk) && CanPostAccept(s, first, second)
    ensures |PostAccept(s, first, second).res.sk.handed| == |s.res.sk.handed| + if first.posted then 1 else 2
  {
    hide TryAccept, CanTry, Sockets.Accounts;
    TryAcceptTakes(s, first);
    if !first.posted { TryAcceptTakes(TryAccept(s, first), second); }
  }

  lemma CompleteTakes(s: State, id: nat, ok: bool, bytes: nat, c: Choices)
    requires Base(s) && CanComplete(s, id, ok, bytes, c)
    ensures |Complete(s, id, ok, bytes, c).res.sk.handed| == |s.res.sk.handed| + Takes(s, Completion(id, ok, bytes, c))
  {
    hide OneReadEach, Headers, Allocated, Contexts, Sockets.Accounts, PostAccept, CanPostAccept, DoGet, CanGet;
    if Route(s, s.pending[id], ok, bytes) == GotAccept {
      PostAcceptTakes(Arrive(s.(pending := s.pending - {id}), s.pending[id].buf, c.arrival), c.first, c.second);
    }
  }

  lemma {:induction false} SweepTakes(r: Resources, visits: seq<Visit>)
    ensures Sweep(r, visits).sk.handed == r.sk.handed
  {
    if visits != [] { SweepTakes(r, visits[..|visits| - 1]); }
  }

  /** Every try at posting an accept and every exit packet takes one socket never handed out before, and
      nothing else takes one. */
  lemma StepTakes(s: State, step: Step)
    requires Base(s) && Enabled(s, step)
    ensures |Apply(s, step).res.sk.handed| == |s.res.sk.handed| + Takes(s, step)
  {
    hide OneReadEach, Headers, Allocated, Contexts, Sockets.Accounts, Complete, PostAccept, CanPostAccept;
    match step
    case OpenSlot(first, second) => PostAcceptTakes(s, first, second);
    case Start =>
    case Completion(id, ok, bytes, c) => CompleteTakes(s, id, ok, bytes, c);
    case SweepAll(visits) => SweepTakes(s.res, visits);
    case QueueExit(get, sock) => Sockets.TakeAccounts(s.res.sk, sock);
  }

  // ----- what is closed, and when -----

  // The sockets of the connections that have left the registry.
  function Gone(ctxs: map<nat, Context>, ctxs': map<nat, Context>): set<nat> {
    set k | k in ctxs && k !in ctxs' :: ctxs[k].sock
  }

  // Of the sockets in use exactly those of the connections gone have left, and those newly handed out have come.
  ghost predicate Turnover(ctxs: map<nat, Context>, sk: Sockets.Pool, ctxs': map<nat, Context>, sk': Sockets.Pool) {
    && (forall k | k in ctxs && k in ctxs' :: ctxs'[k].sock == ctxs[k].sock)
    && sk.handed <= sk'.handed
    && sk'.inUse == sk.inUse - Gone(ctxs, ctxs') + (sk'.handed - sk.handed)
  }

  lemma SameTurnover(ctxs: map<nat, Context>, sk: Sockets.Pool, ctxs': map<nat, Context>)
    requires forall k | k in ctxs :: k in ctxs' && ctxs'[k].sock == ctxs[k].sock
    ensures Turnover(ctxs, sk, ctxs', sk)
  {
    assert Gone(ctxs, ctxs') == {};
  }

  lemma TryAcceptTurnover(s: State, t: Try)
    requires Sockets.Accounts(s.res.sk) && CanTry(s, t)
    ensures var p, p' := s.res.sk, TryAccept(s, t).res.sk;
            && Sockets.Accounts(p') && p.handed <= p'.handed && p'.inUse == p.inUse + (p'.handed - p.handed)
  {
    hide Sockets.Take, Sockets.CanTake, Sockets.Accounts;
    Sockets.TakeAccounts(s.res.sk, t.sock);
    UsedOnce(s.res.sk, t.sock);
  }

  lemma UsedOnce(p: Sockets.Pool, q: nat)
    requires Sockets.Accounts(p) && q !in p.handed
    ensures p.inUse + {q} == p.inUse + (p.handed + {q} - p.handed)
  {
  }

  lemma PostAcceptTurnover(s: State, first: Try, second: Try)
    requires Sockets.Accounts(s.res.sk) && CanPostAccept(s, first, second)
    ensures Turnover(s.res.ctxs, s.res.sk, PostAccept(s, first, second).res.ctxs, PostAccept(s, first, second).res.sk)
  {
    hide TryAccept, CanTry, Sockets.Accounts, Gone;
    PostAcceptLeaves(s, first, second);
    TryAcceptTurnover(s, first);
    if !first.posted { TryAcceptTurnover(TryAccept(s, first), second); }
    SameTurnover(s.res.ctxs, s.res.sk, s.res.ctxs);
  }

  lemma ArriveTurnover(s: State, b: nat, a: Arrival)
    requires b in s.tags && s.res.next !in s.res.ctxs
    ensures var s' := Arrive(s, b, a);
            && s'.res.sk == s.res.sk
            && (forall k | k in s.res.ctxs :: k in s'.res.ctxs && s'.res.ctxs[k] == s.res.ctxs[k])
  {
  }

  lemma GotAcceptTurnover(s: State, b: nat, c: Choices)
    requires b in s.tags && s.res.next !in s.res.ctxs && Sockets.Accounts(s.res.sk)
    requires CanPostAccept(Arrive(s, b, c.arrival), c.first, c.second)
    ensures var s' := PostAccept(Arrive(s, b, c.arrival), c.first, c.second);
            Turnover(s.res.ctxs, s.res.sk, s'.res.ctxs, s'.res.sk)
  {
    hide Arrive, PostAccept, CanPostAccept, Sockets.Accounts;
    var s1 := Arrive(s, b, c.arrival);
    ArriveTurnover(s, b, c.arrival);
    PostAcceptLeaves(s1, c.first, c.second);
    PostAcceptTurnover(s1, c.first, c.second);
    assert Gone(s.res.ctxs, s1.res.ctxs) == {} && Gone(s1.res.ctxs, s1.res.ctxs) == {};
  }

  lemma ReleaseTurnover(r: Resources, k: nat, kept: set<nat>)
    requires k in r.ctxs
    ensures Turnover(r.ctxs, r.sk, ReleaseContext(r, k, kept).ctxs, ReleaseContext(r, k, kept).sk)
  {
    assert Gone(r.ctxs, r.ctxs - {k}) == {r.ctxs[k].sock};
  }

  lemma CompleteTurnover(s: State, id: nat, ok: bool, bytes: nat, c: Choices)
    requires Base(s) && CanComplete(s, id, ok, bytes, c)
    ensures var s' := Complete(s, id, ok, bytes, c); Turnover(s.res.ctxs, s.res.sk, s'.res.ctxs, s'.res.sk)
  {
    hide OneReadEach, Headers, Allocated, Sockets.Accounts, Arrive, PostAccept, CanPostAccept, DoGet, CanGet, Turnover;
    var op := s.pending[id];
    var s0 := s.(pending := s.pending - {id});
    match Route(s, op, ok, bytes)
    case GotAccept => GotAcceptTurnover(s0, op.buf, c);
    case ClientGone => ReleaseTurnover(s0.res, op.key, c.kept);
    case _ => SameTurnover(s.res.ctxs, s.res.sk, Complete(s, id, ok, bytes, c).res.ctxs);
  }

  lemma TurnoverOn(ctxs: map<nat, Context>, sk: Sockets.Pool, ctxs1: map<nat, Context>, sk1: Sockets.Pool,
                   ctxs2: map<nat, Context>, sk2: Sockets.Pool)
    requires Turnover(ctxs, sk, ctxs1, sk1) && Turnover(ctxs1, sk1, ctxs2, sk2)
    requires ctxs1.Keys <= ctxs.Keys && ctxs2.Keys <= ctxs1.Keys && sk1.handed == sk.handed
    ensures Turnover(ctxs, sk, ctxs2, sk2)
  {
    forall q ensures q in Gone(ctxs, ctxs2) <==> q in Gone(ctxs, ctxs1) || q in Gone(ctxs1, ctxs2) {
      if k :| k in ctxs && k !in ctxs2 && ctxs[k].sock == q {
        assert if k in ctxs1 then q in Gone(ctxs1, ctxs2) else q in Gone(ctxs, ctxs1);
      }
      if k :| k in ctxs1 && k !in ctxs2 && ctxs1[k].sock == q { assert ctxs[k].sock == q; }
    }
  }

  lemma VisitTurnover(r: Resources, v: Visit)
    ensures var r' := VisitOne(r, v);
            Turnover(r.ctxs, r.sk, r'.ctxs, r'.sk) && r'.ctxs.Keys <= r.ctxs.Keys && r'.sk.handed == r.sk.handed
  {
    hide Turnover, ReleaseAll;
    if Evicts(r, v) { ReleaseTurnover(r, v.key, v.kept); }
    else { SameTurnover(r.ctxs, r.sk, VisitOne(r, v).ctxs); }
  }

  lemma {:induction false} SweepTurnover(r: Resources, visits: seq<Visit>)
    ensures var r' := Sweep(r, visits);
            Turnover(r.ctxs, r.sk, r'.ctxs, r'.sk) && r'.ctxs.Keys <= r.ctxs.Keys && r'.sk.handed == r.sk.handed
  {
    hide Turnover, VisitOne;
    if visits == [] {
      SameTurnover(r.ctxs, r.sk, r.ctxs);
    } else {
      var before, v := visits[..|visits| - 1], visits[|visits| - 1];
      var r1 := Sweep(r, before);
      SweepTurnover(r, before);
      VisitTurnover(r1, v);
      TurnoverOn(r.ctxs, r.sk, r1.ctxs, r1.sk, VisitOne(r1, v).ctxs, VisitOne(r1, v).sk);
    }
  }

  lemma StepTurnover(s: State, step: Step)
    requires Base(s) && Enabled(s, step)
    ensures Turnover(s.res.ctxs, s.res.sk, Apply(s, step).res.ctxs, Apply(s, step).res.sk)
  {
    hide OneReadEach, Headers, Allocated, Contexts, Sockets.Accounts, Turnover,
         Complete, CanComplete, PostAccept, CanPostAccept;
    match step
    case OpenSlot(first, second) => PostAcceptTurnover(s, first, second);
    case Start => SameTurnover(s.res.ctxs, s.res.sk, s.res.ctxs);
    case Completion(id, ok, bytes, c) => CompleteTurnover(s, id, ok, bytes, c);
    case SweepAll(visits) => SweepTurnover(s.res, visits);
    case QueueExit(get, sock) => ExitTurnover(s, get, sock);
  }

  lemma ExitTurnover(s: State, g: Get, sock: nat)
    requires Sockets.Accounts(s.res.sk) && Sockets.CanTake(s.res.sk, sock)
    ensures Turnover(s.res.ctxs, s.res.sk, PostExit(s, g, sock).res.ctxs, PostExit(s, g, sock).res.sk)
  {
    hide Sockets.Take, Sockets.CanTake, Sockets.Accounts;
    Sockets.TakeAccounts(s.res.sk, sock);
    UsedOnce(s.res.sk, sock);
    SameTurnover(s.res.ctxs, s.res.sk, s.res.ctxs);
  }

  lemma ClosedByTurnover(ctxs: map<nat, Context>, sk: Sockets.Pool, ctxs': map<nat, Context>, sk': Sockets.Pool)
    requires Turnover(ctxs, sk, ctxs', sk') && Connected(sk.inUse, ctxs) && sk.inUse <= sk.handed
    requires Sockets.ClosedOnce(sk) && Sockets.ClosedOnce(sk')
    ensures Gone(ctxs, ctxs') !! sk'.inUse && sk'.closed == sk.closed + multiset(Gone(ctxs, ctxs'))
  {
    var gone := Gone(ctxs, ctxs');
    assert gone <= sk.inUse;
    forall q ensures sk'.closed[q] == sk.closed[q] + multiset(gone)[q] {
    }
  }

  /** When a connection leaves the registry, by its client's end or by eviction, its socket is closed in
      that very step and leaves the in-use pool, and no step closes any other socket. */
  lemma StepCloses(s: State, step: Step)
    requires Base(s) && Kept(s, {}) && Enabled(s, step)
    ensures var s' := Apply(s, step); var gone := Gone(s.res.ctxs, s'.res.ctxs);
            && s'.res.sk.closed == s.res.sk.closed + multiset(gone) && gone !! s'.res.sk.inUse
            && (forall q | q in gone :: s'.res.sk.closed[q] == 1)
  {
    hide Apply, Enabled, Base, Offered, Connected, Gone, Turnover;
    var s' := Apply(s, step);
    StepTurnover(s, step);
    StepKept(s, step);
    InUseHanded(s.res.sk);
    ClosedByTurnover(s.res.ctxs, s.res.sk, s'.res.ctxs, s'.res.sk);
    forall q | q in Gone(s.res.ctxs, s'.res.ctxs) ensures s'.res.sk.closed[q] == 1 {
      assert s'.res.sk.closed[q] >= multiset(Gone(s.res.ctxs, s'.res.ctxs))[q] >= 1;
    }
  }

  lemma InUseHanded(p: Sockets.Pool)
    requires Sockets.Accounts(p)
    ensures p.inUse <= p.handed
  {
  }

  /** In particular a client's zero-byte completion closes the connection's socket, once, and takes it
      out of use. */
  lemma GoneClosesSocket(s: State, id: nat, ok: bool, c: Choices)
    requires Base(s) && Kept(s, {}) && id in s.pending && CanComplete(s, id, ok, 0, c)
    requires Route(s, s.pending[id], ok, 0) == ClientGone
    ensures s.pending[id].key in s.res.ctxs
    ensures var q, p' := s.res.ctxs[s.pending[id].key].sock, Complete(s, id, ok, 0, c).res.sk;
            q !in p'.inUse && p'.closed[q] == 1
  {
    hide Base, Kept;
    var k, s' := s.pending[id].key, Complete(s, id, ok, 0, c);
    StepCloses(s, Completion(id, ok, 0, c));
    assert k in s.res.ctxs && k !in s'.res.ctxs;
    assert s.res.ctxs[k].sock in Gone(s.res.ctxs, s'.res.ctxs);
  }

  /** However a run ends, finalizing closes whatever is still open, so that every socket the pool
      ever handed out has been closed exactly once; finalizing again closes nothing. */
  lemma EverySocketClosedOnce(s: State, run: seq<Step>)
    requires Init(s) && Legal(s, run)
    ensures var r := Replay(s, run).res;
            && (forall q :: Clear(r).sk.closed[q] == if q in r.sk.handed then 1 else 0)
            && Clear(r).ctxs == map[] && Clear(r).addrs == {}
            && Clear(r).buf.free == {} && Clear(r).buf.inUse == {} && Clear(r).sk.free == {} && Clear(r).sk.inUse == {}
            && Clear(Clear(r)) == Clear(r)
  {
    RunKeepsSockets(s, run);
    Sockets.DestroyClosesAll(Replay(s, run).res.sk);
  }

  /** At any time of any run the sockets in use are those handed out and not closed, one
      closesocket call each. */
  lemma SocketsInUse(s: State, run: seq<Step>)
    requires Init(s) && Legal(s, run)
    ensures var p := Replay(s, run).res.sk;
            |p.inUse| == |p.handed| - |p.closed| && p.size == |p.free| + p.pooled
  {
    RunKeepsSockets(s, run);
    Sockets.InUseCount(Replay(s, run).res.sk);
  }
}
