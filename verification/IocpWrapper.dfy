/** The server object (GT_IOCPWrapper): the posting methods and the completion handler,
    performed in place and proved against the state machine of module Protocol.

    The kernel appears as the ghost set of outstanding operations.  What the system answers -
    allocations, the kernel's acceptance of an operation, the clock, the recycling die - comes
    in as parameters, for every answer; which free buffer or socket a pool hands out is left open.
  */
module IocpWrappers {
  import opened BufferPool
  import Sockets = SocketPool
  import opened SocketContexts
  import opened ResourceManagers
  import opened Protocol
  import opened Lifecycle
  import opened AcceptSlots
  import opened Operations
  import opened Runs

  // ----- what the system answers -----

  // To obtaining a buffer and offering it to the kernel: the allocations of a refill, whether the
  // operation is accepted, and the die if it is not.
  datatype PostAnswers = PostAnswers(alloc: nat -> bool, accepted: bool, die: Die)

  // To taking over an accepted socket: the clock, whether it is bound to the port, and the first read.
  datatype ArrivalAnswers = ArrivalAnswers(now: int, bound: bool, read: PostAnswers)

  datatype SlotAnswers = SlotAnswers(first: PostAnswers, second: PostAnswers)

  // To handling a packet; a branch uses its own part.
  datatype Answers = Answers(arrival: ArrivalAnswers, slot: SlotAnswers, again: PostAnswers,
                             now: int, die: Die, dice: nat -> Die)

  // The steps' choices these answers amount to, once buffer b and socket q have been picked.
  function ReadOf(p: Pool, a: PostAnswers, b: nat): ReadPost {
    ReadPost(Get(Added(p, a.alloc), b), a.accepted, Reuses(a.die))
  }

  function ArrivalOf(p: Pool, a: ArrivalAnswers, b: nat): Arrival {
    Arrival(a.now, a.bound, ReadOf(p, a.read, b))
  }

  function TryOf(p: Pool, a: PostAnswers, b: nat, q: nat): Try {
    Try(Get(Added(p, a.alloc), b), q, a.accepted, Reuses(a.die))
  }

  // The two tries follow the answers; the second is made only if the first is refused.
  ghost predicate TriesHeed(s: State, a: SlotAnswers, first: Try, second: Try) {
    && first == TryOf(s.res.buf, a.first, first.get.b, first.sock)
    && (!a.first.accepted ==> second == TryOf(TryAccept(s, first).res.buf, a.second, second.get.b, second.sock))
  }

  // The choices of a handler follow the answers, in the branch it takes.
  ghost predicate Heeds(s: State, op: Op, branch: Branch, a: Answers, c: Choices) {
    match branch
    case GotAccept =>
      && op.buf in s.tags
      && c.arrival == ArrivalOf(s.res.buf, a.arrival, c.arrival.read.get.b)
      && TriesHeed(Arrive(s, op.buf, c.arrival), a.slot, c.first, c.second)
      && c.recycle == Reuses(a.die)
    case GotBytes => c.again == ReadOf(s.res.buf, a.again, c.again.get.b) && c.now == a.now && c.recycle == Reuses(a.die)
    case ClientGone => op.key in s.res.ctxs && c.kept == Reused(s.res.ctxs[op.key].cache, a.dice)
    case Failed => c.recycle == Reuses(a.die)
    case _ => true
  }

  // Of the first n slots, those for which both tries are refused.
  function Refusals(answers: nat -> SlotAnswers, n: nat): nat {
    if n == 0 then 0
    else Refusals(answers, n - 1)
         + if answers(n - 1).first.accepted || answers(n - 1).second.accepted then 0 else 1
  }

  lemma NoRefusals(answers: nat -> SlotAnswers)
    ensures Refusals(answers, 0) == 0
  {
  }

  lemma NextRefusal(answers: nat -> SlotAnswers, n: nat)
    ensures Refusals(answers, n + 1)
         == Refusals(answers, n) + if answers(n).first.accepted || answers(n).second.accepted then 0 else 1
  {
  }

  // ----- steps of the protocol -----

  // A server just built: pools pre-allocated, all else empty.
  lemma InitLeads(s: State, buffers: nat, refillBuffers: nat, sockets: nat, lowMark: nat, refillSockets: nat)
    requires s.res.buf == Grow(Pool({}, {}, 0, refillBuffers), buffers) && s.res.buf.free != {}
    requires s.res.sk == Sockets.Grow(Sockets.Pool({}, {}, 0, 0, lowMark, refillSockets, {}, 0, multiset{}), sockets)
    requires s.res.ctxs == map[] && s.res.addrs == {} && 0 < s.res.next
    requires s.tags == map[] && s.listen == {} && s.pending == map[] && s.slots == 0 && s.lost == 0
    ensures Leads(s, [], s)
  {
    Sockets.GrowAccounts(Sockets.Pool({}, {}, 0, 0, lowMark, refillSockets, {}, 0, multiset{}), sockets);
  }

  lemma OpenSlotIs(s: State, first: Try, second: Try)
    requires CanPostAccept(s, first, second)
    ensures Enabled(s, OpenSlot(first, second))
    ensures Apply(s, OpenSlot(first, second)) == PostAccept(s, first, second).(slots := s.slots + 1)
  {
  }

  lemma SlotOpened(start: State, run: seq<Step>, s: State, first: Try, second: Try)
    requires Leads(start, run, s) && CanPostAccept(s, first, second)
    ensures var s' := PostAccept(s, first, second);
            && |Accepts(s'.pending)| + s'.lost == |Accepts(s.pending)| + s.lost + 1
            && s'.lost == s.lost + if first.posted || second.posted then 0 else 1
  {
    hide Init, Legal, Replay, PostAccept, CanPostAccept, Accepts, Base;
    RunKeepsBase(start, run);
    PostAcceptSlots(s, first, second);
    PostAcceptOutcome(s, first, second);
  }

  // What the handler does, branch by branch.
  ghost predicate Carries(s: State, op: Op, branch: Branch, c: Choices, s': State) {
    match branch
    case Dropped => s' == s
    case GotExit => s' == s.(waiting := false)
    case GotAccept =>
      && op.buf in s.tags && CanGet(s.res.buf, c.arrival.read.get)
      && CanPostAccept(Arrive(s, op.buf, c.arrival), c.first, c.second)
      && s' == ReleaseListenBuffer(PostAccept(Arrive(s, op.buf, c.arrival), c.first, c.second), op.buf, c.recycle)
    case GotBytes =>
      && op.key in s.res.ctxs && CanGet(s.res.buf, c.again.get)
      && s' == ReleaseContextBuffer(ReadAgain(ResetTimer(s, op.key, c.now), op.key, c.again), op.key, op.buf, c.recycle)
    case Written => false
    case ClientGone => op.key in s.res.ctxs && s' == s.(res := ReleaseContext(s.res, op.key, c.kept))
    case Failed =>
      && op.buf in s.tags
      && s' == ReleaseBuffer(s, op.buf, c.recycle).(
                 lost := if s.tags[op.buf].kind == Accept then s.lost + 1 else s.lost)
  }

  lemma CompleteIs(s: State, id: nat, ok: bool, bytes: nat, c: Choices, s': State)
    requires id in s.pending
    requires Carries(s.(pending := s.pending - {id}), s.pending[id], Route(s, s.pending[id], ok, bytes), c, s')
    ensures CanComplete(s, id, ok, bytes, c) && s' == Complete(s, id, ok, bytes, c)
  {
    hide Arrive, PostAccept, CanPostAccept, CanGet, ReadAgain, ResetTimer, ReleaseListenBuffer,
         ReleaseContextBuffer, ReleaseContext;
  }

  ghost predicate Heeded(s: State, id: nat, ok: bool, bytes: nat, a: Answers, c: Choices)
    requires id in s.pending
  {
    Heeds(s.(pending := s.pending - {id}), s.pending[id], Route(s, s.pending[id], ok, bytes), a, c)
  }

  lemma ExitQueued(start: State, run: seq<Step>, s: State, step: Step)
    requires Leads(start, run, s) && Enabled(s, step) && step.QueueExit?
    ensures |ExitOps(Apply(s, step).pending)| == |ExitOps(s.pending)| + 1
  {
    hide Init, Legal, Replay, Enabled, Apply, ExitOps;
    RunBelow(start, run);
    StepExits(s, step);
  }

  lemma LeadsBase(start: State, run: seq<Step>, s: State)
    requires Leads(start, run, s)
    ensures Base(s)
  {
    RunKeepsBase(start, run);
  }

  lemma CompletionCounts(s: State, id: nat, ok: bool, bytes: nat, c: Choices)
    requires Base(s) && id in s.pending && CanComplete(s, id, ok, bytes, c)
    ensures var s' := Complete(s, id, ok, bytes, c);
            && s'.waiting == (s.waiting && Route(s, s.pending[id], ok, bytes) != GotExit)
            && |Accepts(s'.pending)| + s'.lost - s'.slots == |Accepts(s.pending)| + s.lost - s.slots + Skew(s, s.pending[id])
  {
    hide Base, Complete, Route, Accepts, Skew;
    CompleteFlag(s, id, ok, bytes, c);
    CompleteSlots(s, id, ok, bytes, c);
  }

  // How the pools stand after pre-allocation.
  lemma PreAllocated(refillBuffers: nat, buffers: nat, lowMark: nat, refillSockets: nat, sockets: nat)
    ensures Grow(Pool({}, {}, 0, refillBuffers), buffers).free != {} <==> buffers > 0
    ensures Sockets.Grow(Sockets.Pool({}, {}, 0, 0, lowMark, refillSockets, {}, 0, multiset{}), sockets).size == sockets
  {
    var free := Grow(Pool({}, {}, 0, refillBuffers), buffers).free;
    assert |free| == buffers by {
      assert free == {} + free;
    }
  }

  class IocpWrapper {
    const mgr: ResourceManager
    const listener: SocketContext      // accept_socket_completion_key_
    const workers: nat                 // twice the hardware concurrency
    var inited: bool                   // is_inited_
    var tags: map<nat, Tag>            // the headers of the buffers
    var waiting: bool
    ghost var pending: map<nat, Op>
    ghost var nextOp: nat
    ghost var slots: nat
    ghost var lost: nat
    ghost var start: State             // the state after initialization
    ghost var run: seq<Step>           // the steps taken since

    ghost predicate Wired()
      reads this, mgr, mgr.ctxs.Values
    {
      mgr.Valid() && listener.id == LISTEN
    }

    ghost function View(): State
      reads this, mgr, mgr.pool, mgr.socks, listener, mgr.ctxs.Values
    {
      State(mgr.View(), tags, listener.cache, pending, nextOp, slots, lost, waiting)
    }

    // The server's state is the one its own run of legal steps leads to.
    ghost predicate Valid()
      reads this, mgr, mgr.pool, mgr.socks, listener, mgr.ctxs.Values
    {
      Wired() && Leads(start, run, View())
    }

    // The constructor and Initialize.  On success as many accepts have been posted, or lost, as there
    // are workers; on failure everything is given up.
    constructor (workers: nat, preBuffers: nat, refillBuffers: nat, preSockets: int, lowMark: nat, refillSockets: nat,
                 limit: int, listenSocket: nat, alloc: nat -> bool, now: int, connected: bool, answers: nat -> SlotAnswers)
      ensures inited <==> connected && Successes(alloc, preBuffers) > 0
      ensures inited ==> Valid() && !waiting && slots == workers
      ensures inited ==> |Accepts(pending)| + lost == workers && lost == Refusals(answers, workers)
      ensures inited ==> |run| == workers && forall i | 0 <= i < workers :: run[i].OpenSlot?
      ensures inited ==> start.res.buf == Grow(Pool({}, {}, 0, refillBuffers), Successes(alloc, preBuffers))
      ensures inited ==> start.res.sk.size == if preSockets > 0 then preSockets else 0
      ensures !inited ==> mgr.ctxs == map[] && mgr.checkEnded
                          && mgr.pool.free == {} && mgr.pool.inUse == {} && mgr.socks.inUse == {}
      ensures this.workers == workers && mgr.limit == limit
    {
      hide Leads, Grow, Sockets.Grow;
      Sockets.GrowNone(Sockets.Pool({}, {}, 0, 0, lowMark, refillSockets, {}, 0, multiset{}));
      var bufs := new BufferManager(refillBuffers);
      var sockets := new Sockets.SocketManager(lowMark, refillSockets);
      var pooled := sockets.PreAllocate(preSockets);
      var ready := bufs.PreAllocate(preBuffers, alloc);
      var manager := new ResourceManager(bufs, sockets, limit);
      var ctx := new SocketContext(LISTEN, listenSocket, ListenSocket, now);
      this.workers, mgr, listener, inited := workers, manager, ctx, false;
      tags, waiting, pending, nextOp, slots, lost := map[], false, map[], 0, 0, 0;
      run := [];
      new;
      start := View();
      PreAllocated(refillBuffers, Successes(alloc, preBuffers), lowMark, refillSockets,
                   if preSockets > 0 then preSockets else 0);
      if ready {
        InitLeads(start, Successes(alloc, preBuffers), refillBuffers, if preSockets > 0 then preSockets else 0,
                  lowMark, refillSockets);
      }
      Open(ready, connected, answers);
    }

    // The rest of Initialize: the listening socket and the completion port, and the first accepts.
    method Open(ready: bool, connected: bool, answers: nat -> SlotAnswers)
      requires Wired() && !waiting && run == [] && pending == map[] && slots == 0 && lost == 0
      requires ready ==> Valid()
      modifies this, mgr, mgr.pool, mgr.socks, listener
      ensures inited <==> ready && connected
      ensures inited ==> Valid() && !waiting && slots == workers && start == old(start)
      ensures inited ==> |Accepts(pending)| + lost == workers && lost == Refusals(answers, workers)
      ensures inited ==> |run| == workers && forall i | 0 <= i < workers :: run[i].OpenSlot?
      ensures !inited ==> mgr.ctxs == map[] && mgr.checkEnded
                          && mgr.pool.free == {} && mgr.pool.inUse == {} && mgr.socks.inUse == {}
    {
      hide Leads;
      assert Accepts(pending) == {};
      inited := ready && connected;
      if inited {
        ghost var steps := PrePostAcceptEvent_(answers);
      } else {
        mgr.Finalize();
      }
    }

    /** Whatever the server has been through, as long as its run is tame: the accepts pending and the
        slots lost make up the slots opened, and every exit packet pending will be recognised. */
    lemma SlotsAndExits()
      requires Valid() && Tame(start, run)
      ensures |Accepts(pending)| + lost == slots
      ensures forall id | id in pending && pending[id].kind == Exit :: ReadAs(View(), pending[id]) == Exit
    {
      RunKeepsSlots(start, run);
      forall id | id in pending && pending[id].kind == Exit ensures ReadAs(View(), pending[id]) == Exit {
        PacketsRecognised(start, run, id, true, 0);
      }
    }

    // ----- posting -----

    ghost method Queue(key: nat, b: nat, kind: Kind)
      modifies this`pending, this`nextOp
      ensures View() == Post(old(View()), key, b, kind)
    {
      pending, nextOp := pending[nextOp := Op(key, b, kind)], nextOp + 1;
    }

    method PostReadRequestEvent_(k: nat, b: nat, accepted: bool, die: Die)
      requires Wired()
      modifies this`pending, this`nextOp, mgr.pool
      ensures Wired()
      ensures View() == PostRead(old(View()), k, b, accepted, Reuses(die))
    {
      if accepted {
        Queue(k, b, Read);
      } else {
        mgr.pool.ReleaseIOBuffer(b, die);
      }
    }

    method PrepareRead(ctx: SocketContext, alloc: nat -> bool) returns (b: nat)
      requires Wired() && ctx.id in mgr.ctxs && mgr.ctxs[ctx.id] == ctx
      modifies this`tags, mgr.pool, ctx
      ensures Wired()
      ensures var g := Get(Added(old(View()).res.buf, alloc), b);
              CanGet(old(View()).res.buf, g) && View() == ArmRead(old(View()), ctx.id, g)
    {
      hide Added, CanGet, DoGet;
      b := mgr.pool.GetNextIOBufferPtr(alloc);
      tags := tags[b := Tag(Read, ctx.sock)];
      ctx.AddIOContext2Cache(b);
      assert mgr.Contexts() == old(mgr.Contexts())[ctx.id := ctx.View()];
    }

    method PostAnotherReadRequest_(ctx: SocketContext, a: PostAnswers) returns (ghost r: ReadPost)
      requires Wired() && ctx.id in mgr.ctxs && mgr.ctxs[ctx.id] == ctx
      modifies this`tags, this`pending, this`nextOp, mgr.pool, ctx
      ensures Wired() && r == ReadOf(old(View()).res.buf, a, r.get.b) && CanGet(old(View()).res.buf, r.get)
      ensures View() == ReadAgain(old(View()), ctx.id, r)
    {
      hide Added, CanGet, DoGet, Release;
      ghost var p := View().res.buf;
      var b := PrepareRead(ctx, a.alloc);
      PostReadRequestEvent_(ctx.id, b, a.accepted, a.die);
      r := ReadOf(p, a, b);
    }

    method ProcessAcceptEvent_(b: nat, a: ArrivalAnswers) returns (ghost r: Arrival)
      requires Wired() && b in tags
      modifies this`tags, this`pending, this`nextOp, mgr.pool, mgr
      ensures Wired() && fresh(mgr.ctxs.Values - old(mgr.ctxs.Values))
      ensures r == ArrivalOf(old(View()).res.buf, a, r.read.get.b) && CanGet(old(View()).res.buf, r.read.get)
      ensures View() == Arrive(old(View()), b, r)
    {
      hide Added, CanGet, DoGet, Release;
      ghost var p := View().res.buf;
      var ctx := mgr.CreateNewSocketContext(tags[b].sock, AcceptedSocket, a.now);
      var c := PrepareRead(ctx, a.read.alloc);
      r := ArrivalOf(p, a, c);
      if a.bound {
        PostReadRequestEvent_(ctx.id, c, a.read.accepted, a.read.die);
      }
    }

    // A buffer with a pooled socket, marked and entered in the listening context's cache.
    method PrepareListen(kind: Kind, alloc: nat -> bool) returns (b: nat, ghost sock: nat)
      requires Wired()
      modifies this`tags, mgr.pool, mgr.socks, listener
      ensures Wired() && Sockets.CanTake(old(View()).res.sk, sock)
      ensures var g := Get(Added(old(View()).res.buf, alloc), b);
              CanGet(old(View()).res.buf, g) && View() == ArmListen(old(View()), g, sock, kind)
    {
      hide DoGet, CanGet, Added, Sockets.Take, Sockets.CanTake;
      b := mgr.pool.GetNextIOBufferPtr(alloc);
      var q := mgr.socks.GetNextUnuseSocket();
      sock := q;
      Mark(b, Tag(kind, q));
    }

    method Mark(b: nat, tag: Tag)
      requires Wired()
      modifies this`tags, listener
      ensures Wired() && View() == old(View()).(tags := old(tags)[b := tag], listen := old(listener.cache) + {b})
    {
      tags := tags[b := tag];
      listener.AddIOContext2Cache(b);
    }

    // One try: a buffer and a socket are obtained and offered to AcceptEx.
    method OfferAccept(a: PostAnswers) returns (ghost t: Try)
      requires Wired()
      modifies this`tags, this`pending, this`nextOp, mgr.pool, mgr.socks, listener
      ensures Wired() && t == TryOf(old(View()).res.buf, a, t.get.b, t.sock) && CanTry(old(View()), t)
      ensures View() == TryAccept(old(View()), t)
    {
      hide DoGet, CanGet, Added, Release, Sockets.Take, Sockets.CanTake;
      ghost var p := View().res.buf;
      var b;
      ghost var q;
      b, q := PrepareListen(Accept, a.alloc);
      t := TryOf(p, a, b, q);
      if a.accepted {
        Queue(LISTEN, b, Accept);
      } else {
        mgr.pool.ReleaseIOBuffer(b, a.die);
      }
    }

    method PostAnotherAcceptEvent_(a: SlotAnswers) returns (ghost first: Try, ghost second: Try)
      requires Wired()
      modifies this`tags, this`pending, this`nextOp, this`lost, mgr.pool, mgr.socks, listener
      ensures Wired() && CanPostAccept(old(View()), first, second) && TriesHeed(old(View()), a, first, second)
      ensures View() == PostAccept(old(View()), first, second)
    {
      hide TryAccept, CanTry, Added;
      var tries := 0;
      first := Try(Get(0, 0), 0, false, false);
      second := first;
      ghost var s, s1 := View(), View();
      while tries < 2
        invariant 0 <= tries <= 2 && Wired() && lost == old(lost)
        invariant tries == 0 ==> View() == s
        invariant tries >= 1 ==> CanTry(s, first) && !a.first.accepted && s1 == TryAccept(s, first)
        invariant tries >= 1 ==> first == TryOf(s.res.buf, a.first, first.get.b, first.sock)
        invariant tries == 1 ==> View() == s1
        invariant tries == 2 ==> CanTry(s1, second) && !a.second.accepted && View() == TryAccept(s1, second)
        invariant tries == 2 ==> second == TryOf(s1.res.buf, a.second, second.get.b, second.sock)
        modifies this`tags, this`pending, this`nextOp, mgr.pool, mgr.socks, listener
      {
        var answer := if tries == 0 then a.first else a.second;
        ghost var t := OfferAccept(answer);
        if tries == 0 { first, s1 := t, View(); } else { second := t; }
        if answer.accepted {
          return;
        }
        tries := tries + 1;
      }
      lost := lost + 1;
    }

    // ----- steps -----

    // A step taken is entered in the run.
    ghost method Record(s: State, step: Step)
      requires Wired() && Leads(start, run, s) && Enabled(s, step) && View() == Apply(s, step)
      modifies this`run
      ensures Valid() && run == old(run) + [step]
    {
      hide Apply, Enabled, Init, Legal, Replay;
      Extend(start, run, s, step);
      run := run + [step];
    }

    method PostForSlot(a: SlotAnswers) returns (ghost step: Step)
      requires Valid()
      modifies this`tags, this`pending, this`nextOp, this`lost, this`slots, this`run, mgr.pool, mgr.socks, listener
      ensures Valid() && start == old(start) && slots == old(slots) + 1
      ensures |Accepts(pending)| + lost == old(|Accepts(pending)| + lost) + 1
      ensures lost == old(lost) + if a.first.accepted || a.second.accepted then 0 else 1
      ensures step.OpenSlot? && run == old(run) + [step] && TriesHeed(old(View()), a, step.first, step.second)
    {
      hide Apply, Enabled, PostAccept, CanPostAccept, TryAccept, Leads, Accepts, Added;
      ghost var s := View();
      ghost var first, second := PostAnotherAcceptEvent_(a);
      OpenSlotIs(s, first, second);
      SlotOpened(start, run, s, first, second);
      slots := slots + 1;
      step := OpenSlot(first, second);
      Record(s, step);
    }

    // As many accepts are posted as there are workers.
    method PrePostAcceptEvent_(answers: nat -> SlotAnswers) returns (ghost steps: seq<Step>)
      requires Valid()
      modifies this`tags, this`pending, this`nextOp, this`lost, this`slots, this`run, mgr.pool, mgr.socks, listener
      ensures Valid() && start == old(start) && slots == old(slots) + workers
      ensures |Accepts(pending)| + lost == old(|Accepts(pending)| + lost) + workers
      ensures lost == old(lost) + Refusals(answers, workers)
      ensures run == old(run) + steps && |steps| == workers && forall i | 0 <= i < workers :: steps[i].OpenSlot?
    {
      hide Leads, TriesHeed, Accepts, Refusals;
      NoRefusals(answers);
      ghost var before := run;
      steps := [];
      var i := 0;
      while i < workers
        invariant i <= workers && Valid() && start == old(start) && slots == old(slots) + i
        invariant |Accepts(pending)| + lost == old(|Accepts(pending)| + lost) + i
        invariant lost == old(lost) + Refusals(answers, i)
        invariant run == before + steps && |steps| == i && forall j | 0 <= j < i :: steps[j].OpenSlot?
        modifies this`tags, this`pending, this`nextOp, this`lost, this`slots, this`run, mgr.pool, mgr.socks, listener
      {
        ghost var step := PostForSlot(answers(i));
        NextRefusal(answers, i);
        assert before + steps + [step] == before + (steps + [step]);
        steps := steps + [step];
        i := i + 1;
      }
    }

    method GTStartService()
      requires Valid()
      modifies this`waiting, this`run
      ensures Valid() && waiting && start == old(start) && run == old(run) + [Start]
    {
      ghost var s := View();
      waiting := true;
      Record(s, Start);
    }

    method PostOneExit(alloc: nat -> bool) returns (ghost step: Step)
      requires Valid()
      modifies this`tags, this`pending, this`nextOp, this`run, mgr.pool, mgr.socks, listener
      ensures Valid() && start == old(start) && step.QueueExit? && run == old(run) + [step]
      ensures step.get.grown == Added(old(View()).res.buf, alloc)
      ensures |ExitOps(pending)| == old(|ExitOps(pending)|) + 1
    {
      hide DoGet, CanGet, Added, Sockets.Take, Sockets.CanTake, Leads, ArmListen, ExitOps;
      ghost var s := View();
      var b;
      ghost var q;
      b, q := PrepareListen(Exit, alloc);
      Queue(LISTEN, b, Exit);
      step := QueueExit(Get(Added(s.res.buf, alloc), b), q);
      ExitQueued(start, run, s, step);
      Record(s, step);
    }

    // As many exit packets are queued as there are workers.
    method PostExitEvent_(allocs: nat -> nat -> bool) returns (ghost steps: seq<Step>)
      requires Valid()
      modifies this`tags, this`pending, this`nextOp, this`run, mgr.pool, mgr.socks, listener
      ensures Valid() && start == old(start)
      ensures |ExitOps(pending)| == old(|ExitOps(pending)|) + workers
      ensures run == old(run) + steps && |steps| == workers && forall i | 0 <= i < workers :: steps[i].QueueExit?
    {
      hide Leads, ExitOps, Added;
      ghost var before := run;
      steps := [];
      var i := 0;
      while i < workers
        invariant i <= workers && Valid() && start == old(start)
        invariant |ExitOps(pending)| == old(|ExitOps(pending)|) + i
        invariant run == before + steps && |steps| == i && forall j | 0 <= j < i :: steps[j].QueueExit?
        modifies this`tags, this`pending, this`nextOp, this`run, mgr.pool, mgr.socks, listener
      {
        ghost var step := PostOneExit(allocs(i));
        assert before + steps + [step] == before + (steps + [step]);
        steps := steps + [step];
        i := i + 1;
      }
    }

    // The sweep thread's work.
    method CheckConnections(clock: nat -> int, dice: nat -> Die) returns (ghost visits: seq<Visit>)
      requires Valid()
      modifies this`run, mgr, mgr.pool, mgr.socks, mgr.ctxs.Values
      ensures Valid() && start == old(start)
      ensures old(mgr.checkEnded) ==> View() == old(View()) && run == old(run)
      ensures !old(mgr.checkEnded) ==> run == old(run) + [SweepAll(visits)]
      ensures forall i | 0 <= i < |visits| ::
        visits[i] == VisitAt(old(View()).res, visits[i].key, clock(visits[i].key), dice)
    {
      visits := [];
      if mgr.checkEnded {
        return;
      }
      ghost var s := View();
      visits := mgr.ResourceCollector(clock, dice);
      Record(s, SweepAll(visits));
    }

    // ----- the completion handler -----

    ghost method Dequeue(id: nat)
      requires id in pending
      modifies this`pending
      ensures View() == old(View()).(pending := old(pending) - {id})
    {
      pending := pending - {id};
    }

    // A connection is taken over, the accept is posted again, and its buffer given back.
    method HandleAccept(b: nat, arrives: ArrivalAnswers, slot: SlotAnswers, die: Die)
      returns (ghost a: Arrival, ghost first: Try, ghost second: Try)
      requires Wired() && b in tags
      modifies this`tags, this`pending, this`nextOp, this`lost, mgr, mgr.pool, mgr.socks, listener
      ensures Wired() && fresh(mgr.ctxs.Values - old(mgr.ctxs.Values))
      ensures a == ArrivalOf(old(View()).res.buf, arrives, a.read.get.b) && CanGet(old(View()).res.buf, a.read.get)
      ensures var s1 := Arrive(old(View()), b, a);
              && CanPostAccept(s1, first, second) && TriesHeed(s1, slot, first, second)
              && View() == ReleaseListenBuffer(PostAccept(s1, first, second), b, Reuses(die))
    {
      hide Arrive, PostAccept, CanPostAccept, CanGet, Added, TriesHeed, ReleaseListenBuffer;
      a := ProcessAcceptEvent_(b, arrives);
      first, second := PostAnotherAcceptEvent_(slot);
      ReleaseAcceptBuffer(b, die);
    }

    method ReleaseAcceptBuffer(b: nat, die: Die)
      requires Wired()
      modifies mgr.pool, listener
      ensures Wired() && View() == ReleaseListenBuffer(old(View()), b, Reuses(die))
    {
      hide Release;
      listener.ReleaseUsedIOContext(mgr.pool, b, die);
    }

    method RestartTimer(ctx: SocketContext, now: int)
      requires Wired() && ctx.id in mgr.ctxs && mgr.ctxs[ctx.id] == ctx
      modifies ctx
      ensures Wired() && View() == ResetTimer(old(View()), ctx.id, now)
    {
      ctx.ResetTimer(now);
      assert mgr.Contexts() == old(mgr.Contexts())[ctx.id := ctx.View()];
    }

    method ReleaseUsedBuffer(ctx: SocketContext, b: nat, die: Die)
      requires Wired() && ctx.id in mgr.ctxs && mgr.ctxs[ctx.id] == ctx
      modifies ctx, mgr.pool
      ensures Wired() && View() == ReleaseContextBuffer(old(View()), ctx.id, b, Reuses(die))
    {
      ctx.ReleaseUsedIOContext(mgr.pool, b, die);
      assert mgr.Contexts() == old(mgr.Contexts())[ctx.id := ctx.View()];
    }

    // The connection's timer is reset, its next read posted, and the last read's buffer given back.
    method HandleRead(ctx: SocketContext, b: nat, now: int, again: PostAnswers, die: Die) returns (ghost r: ReadPost)
      requires Wired() && ctx.id in mgr.ctxs && mgr.ctxs[ctx.id] == ctx
      modifies this`tags, this`pending, this`nextOp, mgr.pool, ctx
      ensures Wired() && r == ReadOf(old(View()).res.buf, again, r.get.b) && CanGet(old(View()).res.buf, r.get)
      ensures var s := ReadAgain(ResetTimer(old(View()), ctx.id, now), ctx.id, r);
              View() == ReleaseContextBuffer(s, ctx.id, b, Reuses(die))
    {
      hide Added, CanGet;
      RestartTimer(ctx, now);
      r := PostAnotherReadRequest_(ctx, again);
      ReleaseUsedBuffer(ctx, b, die);
    }

    // Look up the packet's context and buffer, and decide what it is.
    method Classify(ghost id: nat, key: nat, b: nat, ok: bool, bytes: nat) returns (branch: Branch, kind: Kind)
      requires Wired() && Base(View()) && id in pending && pending[id].key == key && pending[id].buf == b
      ensures branch == Route(View(), pending[id], ok, bytes) && branch != Written
      ensures kind == if b in tags then tags[b].kind else Null
      ensures branch != Dropped ==> b in tags
      ensures branch == GotBytes || branch == ClientGone ==> key in mgr.ctxs
    {
      kind := if b in tags then tags[b].kind else Null;
      if kind == Null {
        return Dropped, kind;
      }
      var ctx: SocketContext? := listener;
      if kind != Accept && kind != Exit {
        ctx := mgr.GetCompletionKeyPtr(key);
      }
      var found := false;
      if ctx != null {
        found := ctx.HasIOBuffer(b);
      }
      if !found {
        return Dropped, kind;
      }
      branch :=
        if ok && kind == Exit then GotExit
        else if ok && kind == Accept then GotAccept
        else if ok && kind == Read && bytes != 0 then GotBytes
        else if ok && kind == Write then Written
        else if kind == Read && bytes == 0 then ClientGone
        else Failed;
    }

    // The buffer is given back, though it stays in its cache.
    method HandleFailure(kind: Kind, b: nat, die: Die)
      requires Wired()
      modifies this`lost, mgr.pool
      ensures Wired()
      ensures View() == ReleaseBuffer(old(View()), b, Reuses(die)).(
                          lost := if kind == Accept then old(lost) + 1 else old(lost))
    {
      mgr.pool.ReleaseIOBuffer(b, die);
      lost := if kind == Accept then lost + 1 else lost;
    }

    // The branch a packet was classified to.
    method Perform(branch: Branch, kind: Kind, ghost op: Op, key: nat, b: nat, a: Answers) returns (ghost c: Choices)
      requires Wired() && branch != Written && op.key == key && op.buf == b
      requires branch != Dropped ==> b in tags && kind == tags[b].kind
      requires branch == GotBytes || branch == ClientGone ==> key in mgr.ctxs
      modifies this`tags, this`pending, this`nextOp, this`lost, this`waiting,
               mgr, mgr.pool, mgr.socks, listener, mgr.ctxs.Values
      ensures Wired() && fresh(mgr.ctxs.Values - old(mgr.ctxs.Values))
      ensures Carries(old(View()), op, branch, c, View()) && Heeds(old(View()), op, branch, a, c)
    {
      hide TriesHeed, Added, Arrive, PostAccept, CanPostAccept, CanGet, ReadAgain, ResetTimer, ReleaseListenBuffer,
           ReleaseContextBuffer, ReleaseContext, ReleaseAll, Release;
      var none := ReadPost(Get(0, 0), false, false);
      var noTry := Try(Get(0, 0), 0, false, false);
      c := Choices(Arrival(0, false, none), noTry, noTry, none, 0, false, {});
      match branch {
        case Dropped =>
        case GotExit =>
          waiting := false;
        case GotAccept =>
          ghost var arrival, first, second := HandleAccept(b, a.arrival, a.slot, a.die);
          c := c.(arrival := arrival, first := first, second := second, recycle := Reuses(a.die));
        case GotBytes =>
          ghost var r := HandleRead(mgr.ctxs[key], b, a.now, a.again, a.die);
          c := c.(now := a.now, again := r, recycle := Reuses(a.die));
        case ClientGone =>
          c := c.(kept := Reused(mgr.ctxs[key].cache, a.dice));
          mgr.ReleaseContext_(mgr.ctxs[key], a.dice);
        case Failed =>
          HandleFailure(kind, b, a.die);
          c := c.(recycle := Reuses(a.die));
      }
    }

    // GetCompletionPortEventStatus once a packet has been dequeued.
    method HandlePacket(ghost id: nat, key: nat, b: nat, ok: bool, bytes: nat, a: Answers) returns (ghost c: Choices)
      requires Wired() && Base(View()) && id in pending && pending[id].key == key && pending[id].buf == b
      modifies this`tags, this`pending, this`nextOp, this`lost, this`waiting,
               mgr, mgr.pool, mgr.socks, listener, mgr.ctxs.Values
      ensures Wired() && fresh(mgr.ctxs.Values - old(mgr.ctxs.Values))
      ensures CanComplete(old(View()), id, ok, bytes, c)
      ensures View() == Complete(old(View()), id, ok, bytes, c)
      ensures Heeded(old(View()), id, ok, bytes, a, c)
    {
      hide Route, CanComplete, Complete, Carries, Heeds, Base;
      ghost var s, op := View(), pending[id];
      var branch, kind := Classify(id, key, b, ok, bytes);
      Dequeue(id);
      c := Perform(branch, kind, op, key, b, a);
      CompleteIs(s, id, ok, bytes, c, View());
    }

    // One turn of a worker: with the flag down it waits for nothing; otherwise it handles the packet it is given.
    method GetCompletionPortEventStatus(ghost id: nat, key: nat, b: nat, ok: bool, bytes: nat, a: Answers)
      requires Valid() && id in pending && pending[id].key == key && pending[id].buf == b
      modifies this`tags, this`pending, this`nextOp, this`lost, this`waiting, this`run,
               mgr, mgr.pool, mgr.socks, listener, mgr.ctxs.Values
      ensures Valid() && start == old(start) && fresh(mgr.ctxs.Values - old(mgr.ctxs.Values))
      ensures !old(waiting) ==> View() == old(View()) && run == old(run)
      ensures old(waiting) ==>
        exists c :: run == old(run) + [Completion(id, ok, bytes, c)] && Heeded(old(View()), id, ok, bytes, a, c)
      ensures waiting == (old(waiting) && Route(old(View()), old(pending[id]), ok, bytes) != GotExit)
      ensures old(waiting) ==>
        |Accepts(pending)| + lost == old(|Accepts(pending)| + lost) + Skew(old(View()), old(pending[id]))
    {
      if !waiting {
        return;
      }
      hide Base, Complete, CanComplete, Route, Accepts, Heeded, Skew, Leads;
      ghost var s := View();
      LeadsBase(start, run, s);
      ghost var c := HandlePacket(id, key, b, ok, bytes, a);
      CompletionCounts(s, id, ok, bytes, c);
      Record(s, Completion(id, ok, bytes, c));
    }

    // Unregister everything, close every socket in use and drop every buffer.
    method Finalize()
      requires Valid()
      modifies mgr, mgr.pool, mgr.socks
      ensures View() == Replay(start, run).(res := Clear(Replay(start, run).res))
      ensures start == old(start) && run == old(run)
    {
      mgr.Finalize();
    }
  }
}
