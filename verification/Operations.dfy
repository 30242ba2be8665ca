/** The waiting flag and the outstanding operations, step by step and over whole runs. */
module Operations {
  import opened ResourceManagers
  import opened Protocol
  import opened BufferPool
  import opened SocketContexts

  // ----- what a packet is taken for -----

  ghost predicate HeadedIn(s: State, op: Op, kind: Kind, cache: set<nat>) {
    op.buf in s.tags && s.tags[op.buf].kind == kind && op.buf in cache
  }

  /** A packet is taken for an accept or an exit exactly when its buffer says so and is in the listening
      context's cache, for a read or a write exactly when its buffer says so and the context
      registered under its key caches it; and it is dropped exactly when it is taken for nothing. */
  lemma TakenForExactly(s: State, op: Op, ok: bool, bytes: nat)
    ensures forall kind | kind == Accept || kind == Exit :: ReadAs(s, op) == kind <==> HeadedIn(s, op, kind, s.listen)
    ensures ReadAs(s, op) == Read <==> op.key in s.res.ctxs && HeadedIn(s, op, Read, s.res.ctxs[op.key].cache)
    ensures ReadAs(s, op) == Write <==> op.key in s.res.ctxs && HeadedIn(s, op, Write, s.res.ctxs[op.key].cache)
    ensures Route(s, op, ok, bytes) == Dropped <==> ReadAs(s, op) == Null
  {
  }

  // ----- the waiting flag -----

  lemma PostAcceptFlag(s: State, first: Try, second: Try)
    ensures PostAccept(s, first, second).waiting == s.waiting
  {
  }

  /** A completion lowers the waiting flag exactly when it takes its packet for an exit packet. */
  lemma CompleteFlag(s: State, id: nat, ok: bool, bytes: nat, c: Choices)
    requires id in s.pending
    ensures Complete(s, id, ok, bytes, c).waiting == (s.waiting && Route(s, s.pending[id], ok, bytes) != GotExit)
  {
    hide PostAccept;
    if Route(s, s.pending[id], ok, bytes) == GotAccept {
      PostAcceptFlag(Arrive(s.(pending := s.pending - {id}), s.pending[id].buf, c.arrival), c.first, c.second);
    }
  }

  /** Only starting the service raises the waiting flag, and only an exit packet lowers it. */
  lemma StepFlag(s: State, step: Step)
    requires Enabled(s, step)
    ensures Apply(s, step).waiting
         == (step.Start?
             || (s.waiting
                 && (step.Completion? ==> Route(s, s.pending[step.id], step.ok, step.bytes) != GotExit)))
  {
    hide PostAccept, CanPostAccept, Complete, Route;
    match step
    case OpenSlot(first, second) => PostAcceptFlag(s, first, second);
    case Completion(id, ok, bytes, c) => CompleteFlag(s, id, ok, bytes, c);
    case _ =>
  }

  // ----- the operations -----

  // From ops, with ids below n, to ops', with ids below n': what is not done stays pending; what is new has a
  // new id, and is an exit packet or not.
  ghost predicate Carried(ops: map<nat, Op>, n: nat, done: set<nat>, exits: bool, ops': map<nat, Op>, n': nat) {
    && n <= n'
    && (forall i | i in ops' :: i < n')
    && (forall i | i in ops && i !in done :: i in ops' && ops'[i] == ops[i])
    && (forall i | i in ops' && (i !in ops || i in done) :: n <= i && (ops'[i].kind == Exit <==> exits))
  }

  ghost predicate Below(s: State) {
    forall i | i in s.pending :: i < s.nextOp
  }

  ghost predicate Onward(s: State, s': State) {
    Carried(s.pending, s.nextOp, {}, false, s'.pending, s'.nextOp)
  }

  lemma PostCarries(s: State, key: nat, b: nat, kind: Kind)
    requires Below(s) && kind != Exit
    ensures Onward(s, Post(s, key, b, kind)) && Below(Post(s, key, b, kind))
  {
  }

  lemma TryAcceptCarries(s: State, t: Try)
    requires Below(s)
    ensures Onward(s, TryAccept(s, t)) && Below(TryAccept(s, t))
  {
    PostCarries(ArmListen(s, t.get, t.sock, Accept), LISTEN, t.get.b, Accept);
  }

  lemma OnwardOn(s: State, s1: State, s2: State)
    requires Below(s) && Onward(s, s1) && Onward(s1, s2)
    ensures Onward(s, s2)
  {
  }

  lemma PostAcceptCarries(s: State, first: Try, second: Try)
    requires Below(s)
    ensures Onward(s, PostAccept(s, first, second)) && Below(PostAccept(s, first, second))
  {
    hide TryAccept, Onward, Below;
    TryAcceptCarries(s, first);
    TryAcceptCarries(TryAccept(s, first), second);
    OnwardOn(s, TryAccept(s, first), TryAccept(TryAccept(s, first), second));
    LostOnward(s, TryAccept(TryAccept(s, first), second));
  }

  lemma LostOnward(s: State, s': State)
    requires Onward(s, s') && Below(s')
    ensures Onward(s, s'.(lost := s'.lost + 1)) && Below(s'.(lost := s'.lost + 1))
  {
  }

  lemma ReadAgainCarries(s: State, k: nat, r: ReadPost)
    requires Below(s) && k in s.res.ctxs
    ensures Onward(s, ReadAgain(s, k, r)) && Below(ReadAgain(s, k, r))
  {
    PostCarries(ArmRead(s, k, r.get), k, r.get.b, Read);
  }

  lemma ArriveCarries(s: State, b: nat, a: Arrival)
    requires Below(s) && b in s.tags
    ensures Onward(s, Arrive(s, b, a)) && Below(Arrive(s, b, a))
  {
    var s1 := s.(res := Create(s.res, s.tags[b].sock, AcceptedSocket, a.now));
    ReadAgainCarries(s1, s.res.next, a.read);
  }

  lemma Completed(s: State, id: nat, s': State)
    requires Below(s) && id in s.pending && Onward(s.(pending := s.pending - {id}), s')
    ensures Carried(s.pending, s.nextOp, {id}, false, s'.pending, s'.nextOp) && id !in s'.pending
  {
  }

  lemma CompleteCarries(s: State, id: nat, ok: bool, bytes: nat, c: Choices)
    requires Below(s) && id in s.pending
    ensures var s' := Complete(s, id, ok, bytes, c);
            Carried(s.pending, s.nextOp, {id}, false, s'.pending, s'.nextOp) && id !in s'.pending
  {
    hide Arrive, PostAccept, ReadAgain, ReleaseContext, Carried;
    var op := s.pending[id];
    var s0 := s.(pending := s.pending - {id});
    match Route(s, op, ok, bytes)
    case GotAccept =>
      var s1 := Arrive(s0, op.buf, c.arrival);
      ArriveCarries(s0, op.buf, c.arrival);
      PostAcceptCarries(s1, c.first, c.second);
      OnwardOn(s0, s1, PostAccept(s1, c.first, c.second));
      Completed(s, id, PostAccept(s1, c.first, c.second));
    case GotBytes =>
      var s1 := ResetTimer(s0, op.key, c.now);
      ReadAgainCarries(s1, op.key, c.again);
      Completed(s, id, ReadAgain(s1, op.key, c.again));
    case _ =>
      Idles(s0);
      Completed(s, id, s0);
  }

  lemma Idles(s: State)
    requires Below(s)
    ensures Onward(s, s)
  {
  }

  function Done(step: Step): set<nat> {
    if step.Completion? then {step.id} else {}
  }

  /** A step consumes the operation it completes and no other; the operations it posts have ids never
      used before, and are exit packets exactly when the step queues one. */
  lemma StepCarries(s: State, step: Step)
    requires Below(s) && Enabled(s, step)
    ensures var s' := Apply(s, step);
            && Carried(s.pending, s.nextOp, Done(step), step.QueueExit?, s'.pending, s'.nextOp) && Below(s')
            && (step.Completion? ==> step.id in s.pending && step.id !in s'.pending)
            && (step.QueueExit? ==> s'.pending == s.pending[s.nextOp := Op(LISTEN, step.get.b, Exit)])
  {
    hide PostAccept, CanPostAccept, CanComplete, Complete, Carried, ArmListen;
    match step
    case OpenSlot(first, second) => PostAcceptCarries(s, first, second);
    case Completion(id, ok, bytes, c) =>
      CompletesPending(s, step);
      CompleteCarries(s, id, ok, bytes, c);
      CarriedBelow(s, {id}, false, Complete(s, id, ok, bytes, c));
    case QueueExit(get, sock) => ExitCarries(s, get, sock);
    case _ => Idles(s);
  }

  lemma CompletesPending(s: State, step: Step)
    requires Enabled(s, step) && step.Completion?
    ensures step.id in s.pending
  {
  }

  lemma CarriedBelow(s: State, done: set<nat>, exits: bool, s': State)
    requires Carried(s.pending, s.nextOp, done, exits, s'.pending, s'.nextOp)
    ensures Below(s')
  {
  }

  lemma ExitCarries(s: State, g: Get, sock: nat)
    requires Below(s)
    ensures var s' := PostExit(s, g, sock);
            && Carried(s.pending, s.nextOp, {}, true, s'.pending, s'.nextOp) && Below(s')
            && s'.pending == s.pending[s.nextOp := Op(LISTEN, g.b, Exit)]
  {
  }

  lemma {:induction false} RunBelow(s: State, run: seq<Step>)
    requires Init(s) && Legal(s, run)
    ensures Below(Replay(s, run))
    decreases |run|
  {
    if run != [] {
      hide Apply, Enabled;
      RunBelow(s, run[..|run| - 1]);
      StepCarries(Replay(s, run[..|run| - 1]), run[|run| - 1]);
    }
  }

  // After step n of the run its operation is gone for good.
  lemma {:induction false} GoneForGood(s: State, run: seq<Step>, n: nat)
    requires Init(s) && Legal(s, run) && n < |run| && run[n].Completion?
    ensures run[n].id < Replay(s, run).nextOp && run[n].id !in Replay(s, run).pending
    decreases |run|
  {
    hide Apply, Enabled, Init;
    var before, last := run[..|run| - 1], run[|run| - 1];
    RunBelow(s, before);
    StepCarries(Replay(s, before), last);
    if n < |before| {
      assert before[n] == run[n];
      GoneForGood(s, before, n);
    }
  }

  lemma {:induction false} LegalPrefix(s: State, run: seq<Step>, n: nat)
    requires Legal(s, run) && n <= |run|
    ensures Legal(s, run[..n])
    ensures n < |run| ==> Enabled(Replay(s, run[..n]), run[n])
    decreases |run|
  {
    hide Enabled, Apply;
    if n < |run| {
      LegalPrefix(s, run[..|run| - 1], n);
      assert run[..|run| - 1][..n] == run[..n];
    } else {
      assert run[..n] == run;
    }
  }

  /** Every operation posted completes at most once in a run. */
  lemma CompletesOnce(s: State, run: seq<Step>, n: nat, m: nat)
    requires Init(s) && Legal(s, run) && n < m < |run| && run[n].Completion? && run[m].Completion?
    ensures run[n].id != run[m].id
  {
    hide Init, Legal, Replay, Enabled;
    LegalPrefix(s, run, m);
    assert run[..m][n] == run[n];
    GoneForGood(s, run[..m], n);
    RunBelow(s, run[..m]);
    StepCarries(Replay(s, run[..m]), run[m]);
  }

  // ----- exit packets -----

  function ExitOps(pending: map<nat, Op>): set<nat> {
    set i | i in pending && pending[i].kind == Exit
  }

  function QueuedExits(run: seq<Step>): nat {
    if run == [] then 0
    else QueuedExits(run[..|run| - 1]) + if run[|run| - 1].QueueExit? then 1 else 0
  }

  // The exit packets dequeued, whatever they were taken for.
  ghost function DequeuedExits(s: State, run: seq<Step>): nat
    requires Legal(s, run)
  {
    if run == [] then 0
    else
      var before, last := run[..|run| - 1], run[|run| - 1];
      DequeuedExits(s, before)
      + if last.Completion? && Replay(s, before).pending[last.id].kind == Exit then 1 else 0
  }

  lemma StepExits(s: State, step: Step)
    requires Below(s) && Enabled(s, step)
    ensures |ExitOps(Apply(s, step).pending)|
         == |ExitOps(s.pending)| + (if step.QueueExit? then 1 else 0)
            - (if step.Completion? && s.pending[step.id].kind == Exit then 1 else 0)
  {
    hide Apply, Enabled;
    StepCarries(s, step);
    var s' := Apply(s, step);
    if step.QueueExit? {
      assert ExitOps(s'.pending) == ExitOps(s.pending) + {s.nextOp};
    } else {
      assert ExitOps(s'.pending) == ExitOps(s.pending) - Done(step);
    }
  }

  /** The exit packets pending and those dequeued are together those queued, over every legal run. */
  lemma {:induction false} ExitsBalance(s: State, run: seq<Step>)
    requires Init(s) && Legal(s, run)
    ensures |ExitOps(Replay(s, run).pending)| + DequeuedExits(s, run) == QueuedExits(run)
    decreases |run|
  {
    hide Apply, Enabled;
    if run != [] {
      var before := run[..|run| - 1];
      ExitsBalance(s, before);
      RunBelow(s, before);
      StepExits(Replay(s, before), run[|run| - 1]);
    } else {
      assert ExitOps(s.pending) == {};
    }
  }
}
