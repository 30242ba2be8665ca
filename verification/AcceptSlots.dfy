/** The accept slots: accepts pending and slots lost, over whole runs. */
module AcceptSlots {
  import Sockets = SocketPool
  import opened SocketContexts
  import opened ResourceManagers
  import opened Protocol
  import opened Lifecycle
  import opened Exclusivity
  import opened Runs

  function Accepts(pending: map<nat, Op>): set<nat> {
    set i | i in pending && pending[i].kind == Accept
  }

  function Slots(s: State): int {
    |Accepts(s.pending)| + s.lost - s.slots
  }

  lemma PostSlots(s: State, key: nat, b: nat, kind: Kind)
    requires s.nextOp !in s.pending
    ensures Slots(Post(s, key, b, kind)) == Slots(s) + if kind == Accept then 1 else 0
  {
    var s' := Post(s, key, b, kind);
    assert Accepts(s'.pending) == if kind == Accept then Accepts(s.pending) + {s.nextOp} else Accepts(s.pending);
  }

  lemma ConsumeSlots(s: State, id: nat)
    requires id in s.pending
    ensures Slots(s.(pending := s.pending - {id})) == Slots(s) - if s.pending[id].kind == Accept then 1 else 0
  {
    assert Accepts(s.pending - {id}) == Accepts(s.pending) - {id};
  }

  lemma TryAcceptSlots(s: State, t: Try)
    requires Base(s)
    ensures Slots(TryAccept(s, t)) == Slots(s) + if t.posted then 1 else 0
  {
    if t.posted { PostSlots(ArmListen(s, t.get, t.sock, Accept), LISTEN, t.get.b, Accept); }
  }

  lemma PostAcceptSlots(s: State, first: Try, second: Try)
    requires Base(s) && CanPostAccept(s, first, second)
    ensures Slots(PostAccept(s, first, second)) == Slots(s) + 1
    ensures PostAccept(s, first, second).slots == s.slots
  {
    TryAcceptSlots(s, first);
    if !first.posted {
      TryAcceptBase(s, first);
      TryAcceptSlots(TryAccept(s, first), second);
    }
  }

  lemma ArmPostReadSlots(s: State, k: nat, r: ReadPost)
    requires k in s.res.ctxs && s.nextOp !in s.pending
    ensures Slots(PostRead(ArmRead(s, k, r.get), k, r.get.b, r.posted, r.recycle)) == Slots(s)
  {
    if r.posted { PostSlots(ArmRead(s, k, r.get), k, r.get.b, Read); }
  }

  lemma ArriveSlots(s: State, b: nat, a: Arrival)
    requires Base(s) && b in s.tags
    ensures Slots(Arrive(s, b, a)) == Slots(s)
  {
    ArmPostReadSlots(s.(res := Create(s.res, s.tags[b].sock, AcceptedSocket, a.now)), s.res.next, a.read);
  }

  // How far a packet's handling is out of step with what it was posted as: one too many accepts
  // posted or lost when something else is taken for an accept, one too few when an accept is not.
  function Skew(s: State, op: Op): int {
    (if ReadAs(s, op) == Accept then 1 else 0) - (if op.kind == Accept then 1 else 0)
  }

  /** A completion changes pending accepts plus lost slots by the packet's skew. */
  lemma CompleteSlots(s: State, id: nat, ok: bool, bytes: nat, c: Choices)
    requires Base(s) && CanComplete(s, id, ok, bytes, c)
    ensures Slots(Complete(s, id, ok, bytes, c)) == Slots(s) + Skew(s, s.pending[id])
  {
    hide Contexts, Headers, Allocated, Sockets.Accounts, Arrive, PostAccept, CanPostAccept;
    var op := s.pending[id];
    var s0 := s.(pending := s.pending - {id});
    ConsumeSlots(s, id);
    ConsumeBase(s, id);
    match Route(s, op, ok, bytes)
    case GotAccept =>
      ArriveSlots(s0, op.buf, c.arrival);
      ArriveBase(s0, op.buf, c.arrival);
      PostAcceptSlots(Arrive(s0, op.buf, c.arrival), c.first, c.second);
    case GotBytes => ArmPostReadSlots(ResetTimer(s0, op.key, c.now), op.key, c.again);
    case _ =>
  }

  ghost predicate Misreads(s: State, step: Step)
    requires Enabled(s, step)
  {
    step.Completion? && Skew(s, s.pending[step.id]) != 0
  }

  lemma StepSlots(s: State, step: Step)
    requires Base(s) && Enabled(s, step)
    ensures Slots(Apply(s, step)) == Slots(s) + if step.Completion? then Skew(s, s.pending[step.id]) else 0
  {
    hide Base, Complete, CanComplete;
    match step
    case OpenSlot(first, second) =>
      PostAcceptSlots(s, first, second);
      assert Slots(Apply(s, step)) == Slots(PostAccept(s, first, second)) - 1;
    case Start =>
    case Completion(id, ok, bytes, c) => CompleteSlots(s, id, ok, bytes, c);
    case SweepAll(visits) =>
    case QueueExit(get, sock) =>
      BaseOps(s);
      PostSlots(ArmListen(s, get, sock, Exit), LISTEN, get.b, Exit);
  }

  lemma BaseOps(s: State)
    requires Base(s)
    ensures s.nextOp !in s.pending
  {
  }

  // By how much the packets handled so far were out of step.
  ghost function Drift(s: State, run: seq<Step>): int
    requires Legal(s, run)
  {
    if run == [] then 0
    else
      var before, last := run[..|run| - 1], run[|run| - 1];
      Drift(s, before) + if last.Completion? then Skew(Replay(s, before), Replay(s, before).pending[last.id]) else 0
  }

  /** The law of accept slots, over every legal run: the accepts pending and the slots lost make up
      the slots opened, but for the packets taken for accepts that were none, which add one each,
      and the accepts not taken for accepts, which take one away each. */
  lemma {:induction false} SlotsDrift(s: State, run: seq<Step>)
    requires Init(s) && Legal(s, run)
    ensures var s' := Replay(s, run); |Accepts(s'.pending)| + s'.lost == s'.slots + Drift(s, run)
    decreases |run|
  {
    if run != [] {
      var before := run[..|run| - 1];
      SlotsDrift(s, before);
      RunKeepsBase(s, before);
      StepSlots(Replay(s, before), run[|run| - 1]);
    } else {
      assert Accepts(s.pending) == {};
    }
  }

  ghost predicate Recognised(s: State, run: seq<Step>)
    requires Legal(s, run)
  {
    run == [] || (var before := run[..|run| - 1];
                  Recognised(s, before) && !Misreads(Replay(s, before), run[|run| - 1]))
  }

  // At every moment of the run, pending accepts and lost slots are the slots opened.
  ghost predicate Conserved(s: State, run: seq<Step>)
    requires Legal(s, run)
  {
    && (var s' := Replay(s, run); |Accepts(s'.pending)| + s'.lost == s'.slots)
    && (run == [] || Conserved(s, run[..|run| - 1]))
  }

  /** Accept slots are conserved throughout a run if and only if no accept goes unrecognised and
      nothing else is taken for an accept. */
  lemma {:induction false} ConservedExactly(s: State, run: seq<Step>)
    requires Init(s) && Legal(s, run)
    ensures Conserved(s, run) <==> Recognised(s, run)
    decreases |run|
  {
    SlotsDrift(s, run);
    if run != [] {
      var before := run[..|run| - 1];
      SlotsDrift(s, before);
      ConservedExactly(s, before);
    }
  }

  /** So they are conserved over every tame run. */
  lemma {:induction false} RunKeepsSlots(s: State, run: seq<Step>)
    requires Init(s) && Legal(s, run) && Tame(s, run)
    ensures Recognised(s, run) && Conserved(s, run)
    decreases |run|
  {
    if run != [] {
      var before, last := run[..|run| - 1], run[|run| - 1];
      RunKeepsSlots(s, before);
      RunKeepsExclusive(s, before);
      if last.Completion? { ReadAsPosted(Replay(s, before), last.id); }
    }
    ConservedExactly(s, run);
  }

  // ----- what is lost -----

  lemma TryAcceptOutcome(s: State, t: Try)
    ensures var s' := TryAccept(s, t);
            && s'.lost == s.lost && s'.res.sk.handed == s.res.sk.handed + {t.sock}
            && s'.nextOp == s.nextOp + (if t.posted then 1 else 0)
            && s'.pending == (if t.posted then s.pending[s.nextOp := Op(LISTEN, t.get.b, Accept)] else s.pending)
            && t.get.b in s'.listen && t.get.b in s'.tags && s'.tags[t.get.b] == Tag(Accept, t.sock)
            && t.sock in s'.res.sk.inUse
  {
  }

  // The accept on this try is pending, with the buffer and the socket it took.
  ghost predicate Offers(s: State, t: Try, s': State) {
    && s'.nextOp == s.nextOp + 1 && s'.pending == s.pending[s.nextOp := Op(LISTEN, t.get.b, Accept)]
    && t.get.b in s'.listen && t.get.b in s'.tags && s'.tags[t.get.b] == Tag(Accept, t.sock)
    && t.sock in s'.res.sk.inUse
  }

  /** Posting an accept makes a second try exactly if the first is refused.  The first try that is
      accepted is pending then, with its own buffer and socket; if both are refused nothing more is pending and
      one slot is lost. */
  lemma PostAcceptOutcome(s: State, first: Try, second: Try)
    ensures var s' := PostAccept(s, first, second);
            && s'.lost == s.lost + (if first.posted || second.posted then 0 else 1)
            && (first.posted ==> Offers(s, first, s'))
            && (!first.posted && second.posted ==> Offers(s, second, s'))
            && (!first.posted && !second.posted ==> s'.pending == s.pending && s'.nextOp == s.nextOp)
            && s'.res.sk.handed == s.res.sk.handed + {first.sock} + (if first.posted then {} else {second.sock})
  {
    hide TryAccept;
    TryAcceptOutcome(s, first);
    TryAcceptOutcome(TryAccept(s, first), second);
  }

  // The slots a step loses: an accept it handles has failed, or both tries to post another are refused.
  ghost function LostBy(s: State, step: Step): nat
    requires Enabled(s, step)
  {
    match step
    case OpenSlot(first, second) => if first.posted || second.posted then 0 else 1
    case Completion(id, ok, bytes, c) =>
      (match Route(s, s.pending[id], ok, bytes)
       case GotAccept => if c.first.posted || c.second.posted then 0 else 1
       case Failed => if Header(s, s.pending[id]) == Accept then 1 else 0
       case _ => 0)
    case _ => 0
  }

  lemma StepLoses(s: State, step: Step)
    requires Enabled(s, step)
    ensures Apply(s, step).lost == s.lost + LostBy(s, step)
  {
    hide PostAccept, CanPostAccept;
    match step
    case OpenSlot(first, second) => PostAcceptOutcome(s, first, second);
    case Completion(id, ok, bytes, c) =>
      if Route(s, s.pending[id], ok, bytes) == GotAccept {
        PostAcceptOutcome(Arrive(s.(pending := s.pending - {id}), s.pending[id].buf, c.arrival), c.first, c.second);
      }
    case _ =>
  }

  ghost function LostOver(s: State, run: seq<Step>): nat
    requires Legal(s, run)
  {
    if run == [] then 0
    else
      var before := run[..|run| - 1];
      LostOver(s, before) + LostBy(Replay(s, before), run[|run| - 1])
  }

  /** The slots lost over any legal run are the accepts that failed and the re-posts whose two tries were
      both refused: nothing else loses one. */
  lemma {:induction false} LostExactly(s: State, run: seq<Step>)
    requires Init(s) && Legal(s, run)
    ensures Replay(s, run).lost == LostOver(s, run)
    decreases |run|
  {
    if run != [] {
      hide Apply, Enabled, LostBy;
      LostExactly(s, run[..|run| - 1]);
      StepLoses(Replay(s, run[..|run| - 1]), run[|run| - 1]);
    }
  }
}
