/** Starting and stopping the worker threads (GT_Util_ThreadPool and the worker loop of
    GT_IOCPWrapper), interleaved step by step.

    Each worker repeats: test its own end flag; test the shared waiting flag; wait for a
    packet; handle it.  The main thread starts the service, queues one exit packet per
    worker, and then, worker by worker, raises the end flag and joins.

    A handler takes a packet for an exit packet when it finds an exit's header in the buffer.
    What it finds is left open here, for every packet: module Runs says when the header is the
    one the packet was posted with.
  */
module Shutdown {

  datatype Packet = ExitPacket | OtherPacket

  // Where a worker is: about to test its end flag, about to test the waiting flag, waiting
  // for a packet, holding one not yet acted on, or returned.
  datatype Place = AtTop | AtFlag | Waiting | Holding(packet: Packet) | Returned

  // exited: the worker has dequeued an exit packet, and has not misread it.
  datatype Worker = Worker(place: Place, ending: bool, exited: bool)

  // What the main thread is about to do: start, post exit packet number i, raise worker
  // i's end flag, or join worker i; finished once there is no worker left.
  datatype Main = Running | Posting(i: nat) | Ending(i: nat) | Joining(i: nat)

  // misread: the exit packets handled as something else.
  datatype State = State(flag: bool, queue: seq<Packet>, workers: seq<Worker>, main: Main, misread: nat)

  // While the service runs it may be started, or stopped, at any time.
  datatype Order = Rest | StartService | StopService

  // heard: whether the worker, if it acts on a packet, finds an exit's header.
  datatype Event = MainActs(order: Order) | WorkerActs(i: nat, heard: bool) | KernelPosts

  datatype Actor = MainThread | Thread(i: nat) | Kernel

  function By(e: Event): Actor {
    match e
    case MainActs(_) => MainThread
    case WorkerActs(i, _) => Thread(i)
    case KernelPosts => Kernel
  }

  function Initial(n: nat): State {
    State(false, [], seq(n, _ => Worker(AtTop, false, false)), Running, 0)
  }

  predicate Finished(s: State) {
    s.main == Ending(|s.workers|)
  }

  // One turn of a worker; it stays where it is while no packet is queued for it.
  function Turn(s: State, i: nat, heard: bool): State
    requires i < |s.workers|
  {
    var w := s.workers[i];
    match w.place
    case AtTop => s.(workers := s.workers[i := w.(place := if w.ending then Returned else AtFlag)])
    case AtFlag => s.(workers := s.workers[i := w.(place := if s.flag then Waiting else AtTop)])
    case Waiting =>
      if s.queue == [] then s
      else s.(queue := s.queue[1..],
              workers := s.workers[i := w.(place := Holding(s.queue[0]),
                                           exited := w.exited || s.queue[0] == ExitPacket)])
    case Holding(p) =>
      var missed := p == ExitPacket && !heard;
      s.(flag := s.flag && !heard,
         misread := s.misread + if missed then 1 else 0,
         workers := s.workers[i := w.(place := AtTop, exited := w.exited && !missed)])
    case Returned => s
  }

  // One turn of the main thread.
  function MainTurn(s: State, order: Order): State {
    match s.main
    case Running =>
      (match order
       case Rest => s
       case StartService => s.(flag := true)
       case StopService => s.(main := Posting(0)))
    case Posting(i) =>
      if i < |s.workers| then s.(queue := s.queue + [ExitPacket], main := Posting(i + 1))
      else s.(main := Ending(0))
    case Ending(i) =>
      if i < |s.workers| then s.(workers := s.workers[i := s.workers[i].(ending := true)], main := Joining(i))
      else s
    case Joining(i) =>
      if i < |s.workers| && s.workers[i].place == Returned then s.(main := Ending(i + 1)) else s
  }

  function Next(s: State, e: Event): State {
    match e
    case MainActs(order) => MainTurn(s, order)
    case WorkerActs(i, heard) => if i < |s.workers| then Turn(s, i, heard) else s
    case KernelPosts => s.(queue := s.queue + [OtherPacket])
  }

  // ----- counting -----

  function Exits(queue: seq<Packet>): nat {
    if queue == [] then 0 else Exits(queue[1..]) + if queue[0] == ExitPacket then 1 else 0
  }

  function Unexited(workers: seq<Worker>): nat {
    if workers == [] then 0 else Unexited(workers[1..]) + if workers[0].exited then 0 else 1
  }

  // The workers that wait for a packet.
  function AtWait(workers: seq<Worker>): nat {
    if workers == [] then 0 else AtWait(workers[1..]) + if workers[0].place == Waiting then 1 else 0
  }

  lemma {:induction false} ExitsAppend(queue: seq<Packet>, p: Packet)
    ensures Exits(queue + [p]) == Exits(queue) + if p == ExitPacket then 1 else 0
  {
    if queue != [] {
      ExitsAppend(queue[1..], p);
      assert (queue + [p])[1..] == queue[1..] + [p];
    }
  }

  lemma {:induction false} UnexitedUpdate(workers: seq<Worker>, i: nat, w: Worker)
    requires i < |workers|
    ensures Unexited(workers[i := w])
         == Unexited(workers) - (if workers[i].exited then 0 else 1) + (if w.exited then 0 else 1)
  {
    if i > 0 {
      UnexitedUpdate(workers[1..], i - 1, w);
      assert workers[i := w][1..] == workers[1..][i - 1 := w];
    } else {
      assert workers[i := w][1..] == workers[1..];
    }
  }

  lemma {:induction false} UnexitedAll(workers: seq<Worker>)
    requires forall i | 0 <= i < |workers| :: !workers[i].exited
    ensures Unexited(workers) == |workers|
  {
    if workers != [] { UnexitedAll(workers[1..]); }
  }

  lemma {:induction false} UnexitedSome(workers: seq<Worker>, i: nat)
    requires i < |workers| && !workers[i].exited
    ensures Unexited(workers) > 0
  {
    if i > 0 { UnexitedSome(workers[1..], i - 1); }
  }

  lemma {:induction false} WaitersUnexited(workers: seq<Worker>)
    requires forall i | 0 <= i < |workers| :: workers[i].place == Waiting ==> !workers[i].exited
    ensures AtWait(workers) <= Unexited(workers)
  {
    if workers != [] { WaitersUnexited(workers[1..]); }
  }

  // ----- the invariant -----

  function Posted(s: State): nat {
    match s.main
    case Running => 0
    case Posting(i) => i
    case _ => |s.workers|
  }

  // The exit packets queued, to be posted, and misread are as many as the workers without one.
  ghost predicate Balanced(s: State) {
    Exits(s.queue) + (|s.workers| - Posted(s)) + s.misread == Unexited(s.workers)
  }

  // A worker with an exit packet is acting on it, or the flag has been lowered for good.
  ghost predicate PastExit(flag: bool, w: Worker) {
    && (w.place == Holding(ExitPacket) ==> w.exited)
    && (w.exited ==>
          w.place == Holding(ExitPacket) || (!flag && (w.place == AtTop || w.place == AtFlag || w.place == Returned)))
  }

  ghost predicate AllPastExit(s: State) {
    forall i | 0 <= i < |s.workers| :: PastExit(s.flag, s.workers[i])
  }

  // The main thread has raised worker i's end flag.
  predicate Reached(main: Main, i: nat) {
    match main
    case Ending(j) => i < j
    case Joining(j) => i <= j
    case _ => false
  }

  // A worker returns only when told to end, and is told to only when the stop reaches it.
  ghost predicate ToldFirst(s: State) {
    forall i | 0 <= i < |s.workers| ::
      (s.workers[i].place == Returned ==> s.workers[i].ending) && (s.workers[i].ending <==> Reached(s.main, i))
  }

  // The flag is raised only before anything is posted; workers are joined in order.
  ghost predicate InOrder(s: State) {
    && Posted(s) <= |s.workers|
    && (s.main.Running? ==> forall i | 0 <= i < |s.workers| :: !s.workers[i].exited)
    && (s.main.Running? ==> ExitPacket !in s.queue)
    && (s.main.Ending? || s.main.Joining? ==> s.main.i <= |s.workers|)
    && (s.main.Joining? ==> s.main.i < |s.workers| && s.workers[s.main.i].ending)
    && (s.main.Ending? || s.main.Joining? ==> forall i | 0 <= i < s.main.i :: s.workers[i].place == Returned)
  }

  ghost predicate Inv(s: State) {
    Balanced(s) && AllPastExit(s) && InOrder(s) && ToldFirst(s)
  }

  lemma TurnBalanced(s: State, i: nat, heard: bool)
    requires Balanced(s) && AllPastExit(s) && i < |s.workers|
    ensures Balanced(Turn(s, i, heard))
  {
    hide Unexited;
    var s' := Turn(s, i, heard);
    if s' != s {
      assert PastExit(s.flag, s.workers[i]);
      UnexitedUpdate(s.workers, i, s'.workers[i]);
      assert s'.workers == s.workers[i := s'.workers[i]];
    }
  }

  lemma TurnPastExit(s: State, i: nat, heard: bool)
    requires AllPastExit(s) && i < |s.workers|
    ensures AllPastExit(Turn(s, i, heard))
  {
    assert PastExit(s.flag, s.workers[i]);
  }

  lemma TurnInOrder(s: State, i: nat, heard: bool)
    requires InOrder(s) && i < |s.workers|
    ensures InOrder(Turn(s, i, heard))
  {
    if s.queue != [] { assert s.queue[0] in s.queue; }
  }

  lemma TurnToldFirst(s: State, i: nat, heard: bool)
    requires ToldFirst(s) && i < |s.workers|
    ensures ToldFirst(Turn(s, i, heard))
  {
  }

  lemma MainTurnInv(s: State, order: Order)
    requires Inv(s)
    ensures Inv(MainTurn(s, order)) && |MainTurn(s, order).workers| == |s.workers|
  {
    hide Exits, Unexited;
    ExitsAppend(s.queue, ExitPacket);
    if s.main.Ending? && s.main.i < |s.workers| {
      UnexitedUpdate(s.workers, s.main.i, s.workers[s.main.i].(ending := true));
    }
  }

  lemma NextInv(s: State, e: Event)
    requires Inv(s)
    ensures Inv(Next(s, e)) && |Next(s, e).workers| == |s.workers|
  {
    hide Exits, Unexited;
    match e
    case MainActs(order) => MainTurnInv(s, order);
    case WorkerActs(i, heard) =>
      if i < |s.workers| {
        TurnBalanced(s, i, heard);
        TurnPastExit(s, i, heard);
        TurnInOrder(s, i, heard);
        TurnToldFirst(s, i, heard);
      }
    case KernelPosts => ExitsAppend(s.queue, OtherPacket);
  }

  // An infinite interleaving: states and, at each step, what happens.
  ghost predicate IsRun(state: nat -> State, event: nat -> Event) {
    state(0) == Initial(|state(0).workers|) && forall n: nat :: state(n + 1) == Next(state(n), event(n))
  }

  lemma {:induction false} RunInv(state: nat -> State, event: nat -> Event, n: nat)
    requires IsRun(state, event)
    ensures Inv(state(n)) && |state(n).workers| == |state(0).workers|
  {
    if n == 0 {
      UnexitedAll(state(0).workers);
    } else {
      RunInv(state, event, n - 1);
      NextInv(state(n - 1), event(n - 1));
      assert state(n - 1 + 1) == Next(state(n - 1), event(n - 1));
    }
  }

  /** At every moment of every interleaving the exit packets still queued, those still to be
      posted, and those misread are together as many as the workers that have had none. */
  lemma ExitsMatchWorkers(state: nat -> State, event: nat -> Event, n: nat)
    requires IsRun(state, event)
    ensures var s := state(n); Exits(s.queue) + (|s.workers| - Posted(s)) + s.misread == Unexited(s.workers)
  {
    RunInv(state, event, n);
  }

  /** A worker that has had its exit packet never waits again.  Once stopping has posted its packets,
      there is one queued for every waiting worker, but for at most one for each exit packet misread. */
  lemma NeverStranded(state: nat -> State, event: nat -> Event, n: nat)
    requires IsRun(state, event)
    ensures forall i | 0 <= i < |state(n).workers| && state(n).workers[i].place == Waiting :: !state(n).workers[i].exited
    ensures state(n).main.Ending? || state(n).main.Joining? ==>
      && AtWait(state(n).workers) <= Exits(state(n).queue) + state(n).misread
      && (state(n).misread == 0 && AtWait(state(n).workers) > 0 ==> ExitPacket in state(n).queue)
  {
    RunInv(state, event, n);
    forall i | 0 <= i < |state(n).workers| && state(n).workers[i].place == Waiting ensures !state(n).workers[i].exited {
      assert PastExit(state(n).flag, state(n).workers[i]);
    }
    WaitersUnexited(state(n).workers);
    if Exits(state(n).queue) > 0 { ExitQueued(state(n).queue); }
  }

  /** No worker returns before its time: at every moment of every interleaving a worker that has
      returned had been told to end, and a worker is told to end when the stop has reached it, not before. */
  lemma ReturnsOnlyWhenTold(state: nat -> State, event: nat -> Event, n: nat, i: nat)
    requires IsRun(state, event) && i < |state(n).workers|
    ensures state(n).workers[i].place == Returned ==> state(n).workers[i].ending
    ensures state(n).workers[i].ending <==> Reached(state(n).main, i)
  {
    RunInv(state, event, n);
  }

  // ----- the flag, and the order of packets -----

  predicate Starts(s: State, e: Event) {
    e == MainActs(StartService) && s.main.Running?
  }

  // A worker acts on a packet in whose buffer it finds an exit's header.
  predicate HearsExit(s: State, e: Event) {
    e.WorkerActs? && e.i < |s.workers| && s.workers[e.i].place.Holding? && e.heard
  }

  // The service was started at moment m, and no exit has been heard of since, up to moment n.
  ghost predicate UpSince(state: nat -> State, event: nat -> Event, m: nat, n: nat) {
    m < n && Starts(state(m), event(m)) && forall k: nat | m < k < n :: !HearsExit(state(k), event(k))
  }

  /** The waiting flag is up if and only if the service has been started and no worker has since
      acted on what it took for an exit packet. */
  lemma {:induction false} FlagExactly(state: nat -> State, event: nat -> Event, n: nat)
    requires IsRun(state, event)
    ensures state(n).flag <==> exists m: nat :: UpSince(state, event, m, n)
  {
    if n > 0 {
      var p := n - 1;
      FlagExactly(state, event, p);
      assert state(p + 1) == Next(state(p), event(p));
      if Starts(state(p), event(p)) {
        assert UpSince(state, event, p, n);
      } else if !HearsExit(state(p), event(p)) {
        assert forall m: nat :: UpSince(state, event, m, n) <==> UpSince(state, event, m, p);
      } else {
        assert forall m: nat :: !UpSince(state, event, m, n);
      }
    }
  }

  // The packets an event queues, and the ones it hands to a worker.
  function Queues(s: State, e: Event): seq<Packet> {
    match e
    case KernelPosts => [OtherPacket]
    case MainActs(_) => if s.main.Posting? && s.main.i < |s.workers| then [ExitPacket] else []
    case WorkerActs(_, _) => []
  }

  function HandsOver(s: State, e: Event, t: State): seq<Packet> {
    if e.WorkerActs? && e.i < |s.workers| && e.i < |t.workers| && s.workers[e.i].place == Waiting
       && t.workers[e.i].place.Holding? then [t.workers[e.i].place.packet] else []
  }

  ghost function Sent(state: nat -> State, event: nat -> Event, n: nat): seq<Packet> {
    if n == 0 then [] else Sent(state, event, n - 1) + Queues(state(n - 1), event(n - 1))
  }

  ghost function HandedOver(state: nat -> State, event: nat -> Event, n: nat): seq<Packet> {
    if n == 0 then [] else HandedOver(state, event, n - 1) + HandsOver(state(n - 1), event(n - 1), state(n))
  }

  lemma HandsInOrder(s: State, e: Event)
    ensures HandsOver(s, e, Next(s, e)) + Next(s, e).queue == s.queue + Queues(s, e)
  {
  }

  /** Packets reach the workers in the order they were queued, each of them once: those handed over
      so far, followed by those in the queue, are those queued so far. */
  lemma {:induction false} HandedInOrder(state: nat -> State, event: nat -> Event, n: nat)
    requires IsRun(state, event)
    ensures HandedOver(state, event, n) + state(n).queue == Sent(state, event, n)
  {
    if n > 0 {
      HandedInOrder(state, event, n - 1);
      hide Queues, HandsOver, Next;
      assert state(n - 1 + 1) == Next(state(n - 1), event(n - 1));
      HandsInOrder(state(n - 1), event(n - 1));
      MoveOn(HandedOver(state, event, n - 1), state(n - 1).queue, Queues(state(n - 1), event(n - 1)),
             HandsOver(state(n - 1), event(n - 1), state(n)), state(n).queue);
    }
  }

  lemma MoveOn(handed: seq<Packet>, queue: seq<Packet>, more: seq<Packet>, next: seq<Packet>, queue': seq<Packet>)
    requires next + queue' == queue + more
    ensures (handed + next) + queue' == (handed + queue) + more
  {
    calc {
      (handed + next) + queue';
      handed + (next + queue');
      (handed + queue) + more;
    }
  }

  lemma {:induction false} ExitsJoin(a: seq<Packet>, b: seq<Packet>)
    ensures Exits(a + b) == Exits(a) + Exits(b)
  {
    if a == [] {
      assert a + b == b;
    } else {
      ExitsJoin(a[1..], b);
      assert (a + b)[1..] == a[1..] + b;
    }
  }

  lemma PostsOneExit(s: State, e: Event)
    requires Inv(s)
    ensures Posted(Next(s, e)) == Posted(s) + Exits(Queues(s, e))
  {
    hide Balanced, AllPastExit;
  }

  /** The main thread posts exactly one exit packet for each worker, one after another. */
  lemma {:induction false} OneExitEach(state: nat -> State, event: nat -> Event, n: nat)
    requires IsRun(state, event)
    ensures Exits(Sent(state, event, n)) == Posted(state(n))
  {
    if n > 0 {
      OneExitEach(state, event, n - 1);
      RunInv(state, event, n - 1);
      hide Queues, Next, Inv;
      assert state(n - 1 + 1) == Next(state(n - 1), event(n - 1));
      PostsOneExit(state(n - 1), event(n - 1));
      ExitsJoin(Sent(state, event, n - 1), Queues(state(n - 1), event(n - 1)));
    }
  }

  // ----- termination -----

  // Every actor other than the kernel acts again and again.
  ghost predicate Fair(event: nat -> Event, workers: nat) {
    && (forall n: nat :: ActsAfter(event, MainThread, n))
    && (forall n: nat, i: nat | i < workers :: ActsAfter(event, Thread(i), n))
  }

  ghost predicate ActsAfter(event: nat -> Event, a: Actor, n: nat) {
    exists m: nat :: ActsAt(event, a, n, m)
  }

  ghost predicate ActsAt(event: nat -> Event, a: Actor, n: nat, m: nat) {
    n <= m && By(event(m)) == a
  }

  ghost predicate Stopping(s: State) {
    !s.main.Running?
  }

  // The main thread is joining a worker that waits for a packet.
  predicate Held(s: State) {
    s.main.Joining? && s.main.i < |s.workers| && s.workers[s.main.i].place == Waiting
  }

  function Rank(p: Place): nat {
    match p
    case AtFlag => 4
    case Waiting => 3
    case Holding(_) => 2
    case AtTop => 1
    case Returned => 0
  }

  // How much of the stop is left: packets to post, workers to end, and the turns the worker being joined still needs.
  function Left(s: State): nat
    requires Inv(s)
  {
    var n := |s.workers|;
    match s.main
    case Running => 7 * n + 2
    case Posting(i) => 6 * n + 1 + (n - i)
    case Ending(i) => 6 * (n - i)
    case Joining(i) => 6 * (n - i) - 5 + Rank(s.workers[i].place)
  }

  // Whose turn brings the stop forward.
  function Helper(s: State): Actor
    requires Inv(s)
  {
    if s.main.Joining? && s.workers[s.main.i].place != Returned then Thread(s.main.i) else MainThread
  }

  lemma NoOneUndoes(s: State, e: Event)
    requires Inv(s) && Stopping(s) && Inv(Next(s, e))
    ensures Stopping(Next(s, e)) && Left(Next(s, e)) <= Left(s)
    ensures Left(Next(s, e)) < Left(s) || (Helper(Next(s, e)) == Helper(s) && (Held(Next(s, e)) <==> Held(s)))
  {
    hide Balanced, AllPastExit;
  }

  lemma HelperHelps(s: State, e: Event)
    requires Inv(s) && Stopping(s) && !Finished(s) && Inv(Next(s, e)) && By(e) == Helper(s)
    requires Held(s) ==> s.queue != []
    ensures Left(Next(s, e)) < Left(s)
  {
    hide Balanced, AllPastExit;
  }

  // Without a misread packet, a worker that waits while it is being joined finds a packet.
  lemma HeldHasPacket(s: State)
    requires Inv(s) && Held(s) && s.misread == 0
    ensures ExitPacket in s.queue
  {
    assert PastExit(s.flag, s.workers[s.main.i]);
    UnexitedSome(s.workers, s.main.i);
    ExitQueued(s.queue);
  }

  lemma {:induction false} ExitQueued(queue: seq<Packet>)
    requires Exits(queue) > 0
    ensures ExitPacket in queue
  {
    if queue[0] != ExitPacket { ExitQueued(queue[1..]); }
  }

  // Between two moments either the stop gets on, or nothing about it changes.
  lemma {:induction false} Await(state: nat -> State, event: nat -> Event, n: nat, m: nat)
    requires IsRun(state, event) && n <= m && Inv(state(n)) && Stopping(state(n))
    ensures Inv(state(m)) && Stopping(state(m)) && Left(state(m)) <= Left(state(n))
    ensures Left(state(m)) < Left(state(n))
         || (Helper(state(m)) == Helper(state(n)) && (Held(state(m)) <==> Held(state(n))))
    decreases m - n
  {
    if n < m {
      Await(state, event, n, m - 1);
      RunInv(state, event, m);
      assert state(m - 1 + 1) == Next(state(m - 1), event(m - 1));
      NoOneUndoes(state(m - 1), event(m - 1));
    }
  }

  // From moment k on, the main thread is joining a worker that waits.
  ghost predicate HeldFrom(state: nat -> State, k: nat) {
    forall m: nat | k <= m :: Held(state(m))
  }

  // A stop not finished and not held up for ever gets on.
  lemma GetsOn(state: nat -> State, event: nat -> Event, n: nat) returns (k: nat)
    requires IsRun(state, event) && Fair(event, |state(0).workers|)
    requires Inv(state(n)) && Stopping(state(n)) && !Finished(state(n))
    requires !HeldFrom(state, n)
    ensures n < k && Inv(state(k)) && Stopping(state(k)) && Left(state(k)) < Left(state(n))
  {
    var h: nat :| n <= h && !Held(state(h));
    Await(state, event, n, h);
    k := h;
    if Left(state(h)) >= Left(state(n)) {
      RunInv(state, event, h);
      assert !Finished(state(h)) by {
        assert Left(state(n)) > 0;
      }
      var a := Helper(state(h));
      assert ActsAfter(event, a, h);
      var m: nat :| ActsAt(event, a, h, m);
      Await(state, event, h, m);
      k := m;
      if Left(state(m)) >= Left(state(h)) {
        assert !Finished(state(m));
        k := m + 1;
        RunInv(state, event, k);
        assert state(m + 1) == Next(state(m), event(m));
        NoOneUndoes(state(m), event(m));
        HelperHelps(state(m), event(m));
      }
    }
  }

  lemma {:induction false} StopFrom(state: nat -> State, event: nat -> Event, n: nat) returns (k: nat)
    requires IsRun(state, event) && Fair(event, |state(0).workers|)
    requires Inv(state(n)) && Stopping(state(n))
    requires forall h: nat :: !HeldFrom(state, h)
    ensures n <= k && Finished(state(k)) && Inv(state(k))
    decreases Left(state(n))
  {
    k := n;
    if !Finished(state(n)) {
      RunInv(state, event, n);
      k := GetsOn(state, event, n);
      k := StopFrom(state, event, k);
    }
  }

  ghost predicate AllReturned(s: State) {
    forall i | 0 <= i < |s.workers| :: s.workers[i].place == Returned
  }

  lemma {:induction false} StaysFinished(state: nat -> State, event: nat -> Event, n: nat, m: nat)
    requires IsRun(state, event) && n <= m && Finished(state(n))
    ensures Finished(state(m))
    decreases m - n
  {
    if n < m {
      StaysFinished(state, event, n, m - 1);
      assert state(m - 1 + 1) == Next(state(m - 1), event(m - 1));
    }
  }

  ghost predicate Finishes(state: nat -> State) {
    exists k: nat :: Finished(state(k)) && AllReturned(state(k))
  }

  /** Exactly when stopping terminates: a fair interleaving in which the stop has begun comes to
      have joined every worker, each having returned, if and only if the main thread is not, from some
      moment on, joining for ever a worker that waits for a packet. */
  lemma StopEndsExactly(state: nat -> State, event: nat -> Event, n: nat)
    requires IsRun(state, event) && Fair(event, |state(0).workers|) && Stopping(state(n))
    ensures Finishes(state) <==> !exists h: nat :: HeldFrom(state, h)
  {
    RunInv(state, event, n);
    if k: nat :| Finished(state(k)) {
      forall h: nat ensures !HeldFrom(state, h) {
        var m := if k < h then h else k;
        StaysFinished(state, event, k, m);
        assert !Held(state(m));
      }
    }
    if forall h: nat :: !HeldFrom(state, h) {
      var k := StopFrom(state, event, n);
      assert AllReturned(state(k));
    }
  }

  lemma {:induction false} HeldByOne(state: nat -> State, event: nat -> Event, h: nat, m: nat)
    requires IsRun(state, event) && HeldFrom(state, h) && h <= m
    ensures state(m).main == state(h).main
    decreases m - h
  {
    if h < m {
      HeldByOne(state, event, h, m - 1);
      assert Held(state(m - 1)) && state(m - 1 + 1) == Next(state(m - 1), event(m - 1));
    }
  }

  // A worker held up for ever has missed its exit packet, which was misread.
  lemma HeldMeansMisread(state: nat -> State, event: nat -> Event, h: nat)
    requires IsRun(state, event) && Fair(event, |state(0).workers|) && HeldFrom(state, h)
    ensures exists k: nat :: state(k).misread > 0
  {
    RunInv(state, event, h);
    assert Held(state(h));
    var a := Thread(state(h).main.i);
    assert ActsAfter(event, a, h);
    var m: nat :| ActsAt(event, a, h, m);
    HeldByOne(state, event, h, m);
    RunInv(state, event, m);
    assert Held(state(m)) && Held(state(m + 1)) && state(m + 1) == Next(state(m), event(m));
    if state(m).misread == 0 { HeldHasPacket(state(m)); }
  }

  /** Stopping terminates if no exit packet is ever misread: in every fair interleaving in which
      it has begun, it comes to have joined every worker, each of which has returned. */
  lemma StopTerminates(state: nat -> State, event: nat -> Event, n: nat)
    requires IsRun(state, event) && Fair(event, |state(0).workers|) && Stopping(state(n))
    requires forall k: nat :: state(k).misread == 0
    ensures Finishes(state)
  {
    StopEndsExactly(state, event, n);
    if h: nat :| HeldFrom(state, h) { HeldMeansMisread(state, event, h); }
  }

  // ----- one exit packet misread -----

  function Play(s: State, events: seq<Event>): State {
    if events == [] then s else Next(Play(s, events[..|events| - 1]), events[|events| - 1])
  }

  ghost predicate Reaches(s: State, t: State) {
    exists events :: Play(s, events) == t
  }

  lemma {:induction false} PlayAppend(s: State, a: seq<Event>, b: seq<Event>)
    ensures Play(s, a + b) == Play(Play(s, a), b)
  {
    if b == [] {
      assert a + b == a;
    } else {
      PlayAppend(s, a, b[..|b| - 1]);
      assert (a + b)[..|a + b| - 1] == a + b[..|b| - 1];
    }
  }

  lemma Stays(s: State)
    ensures Reaches(s, s)
  {
    assert Play(s, []) == s;
  }

  lemma Then(s: State, t: State, e: Event)
    requires Reaches(s, t)
    ensures Reaches(s, Next(t, e))
  {
    var a :| Play(s, a) == t;
    assert (a + [e])[..|a|] == a;
    assert Play(s, a + [e]) == Next(t, e);
  }

  // The first k workers at one place of the script, the rest at another.
  function Crew(n: nat, k: nat, w: Worker, rest: Worker): seq<Worker> {
    seq(n, j => if j < k then w else rest)
  }

  const FRESH: Worker := Worker(AtTop, false, false)
  const WAITS: Worker := Worker(Waiting, false, false)
  const GONE: Worker := Worker(Returned, true, true)

  function Queued(k: nat): seq<Packet> {
    seq(k, _ => ExitPacket)
  }

  lemma {:induction false} AllComeToWait(n: nat, k: nat)
    requires k <= n
    ensures Reaches(Initial(n), State(true, [], Crew(n, k, WAITS, FRESH), Running, 0))
  {
    if k == 0 {
      Stays(Initial(n));
      Then(Initial(n), Initial(n), MainActs(StartService));
      assert Crew(n, 0, WAITS, FRESH) == Initial(n).workers;
    } else {
      AllComeToWait(n, k - 1);
      var s := State(true, [], Crew(n, k - 1, WAITS, FRESH), Running, 0);
      var s1 := Next(s, WorkerActs(k - 1, true));
      Then(Initial(n), s, WorkerActs(k - 1, true));
      Then(Initial(n), s1, WorkerActs(k - 1, true));
      assert Next(s1, WorkerActs(k - 1, true)).workers == Crew(n, k, WAITS, FRESH);
    }
  }

  lemma {:induction false} AllPosted(n: nat, k: nat)
    requires k <= n
    ensures Reaches(Initial(n), State(true, Queued(k), Crew(n, n, WAITS, FRESH), Posting(k), 0))
  {
    if k == 0 {
      AllComeToWait(n, n);
      Then(Initial(n), State(true, [], Crew(n, n, WAITS, FRESH), Running, 0), MainActs(StopService));
      assert Queued(0) == [];
    } else {
      AllPosted(n, k - 1);
      Then(Initial(n), State(true, Queued(k - 1), Crew(n, n, WAITS, FRESH), Posting(k - 1), 0), MainActs(Rest));
      assert Queued(k - 1) + [ExitPacket] == Queued(k);
    }
  }

  // The last worker misreads the first exit packet, and waits again.
  lemma LastMisreads(n: nat)
    requires n > 0
    ensures Reaches(Initial(n), State(true, Queued(n - 1), Crew(n, 0, GONE, WAITS), Ending(0), 1))
  {
    AllPosted(n, n);
    var s := State(true, Queued(n), Crew(n, n, WAITS, FRESH), Posting(n), 0);
    var misses := WorkerActs(n - 1, false);
    var s1 := Next(s, MainActs(Rest));
    var s2 := Next(s1, misses);
    var s3 := Next(s2, misses);
    var s4 := Next(s3, misses);
    Then(Initial(n), s, MainActs(Rest));
    Then(Initial(n), s1, misses);
    Then(Initial(n), s2, misses);
    Then(Initial(n), s3, misses);
    Then(Initial(n), s4, misses);
    assert Queued(n)[1..] == Queued(n - 1);
    assert s2.workers[n - 1] == Worker(Holding(ExitPacket), false, true);
    assert s3.workers[n - 1] == FRESH && s3.misread == 1;
    assert Next(s4, misses).workers == Crew(n, 0, GONE, WAITS);
  }

  // The first k of the others have heard theirs, and are joined.
  function Joined(n: nat, k: nat): State
    requires k < n
  {
    State(k == 0, Queued(n - 1 - k), Crew(n, k, GONE, WAITS), Ending(k), 1)
  }

  lemma OneHears(n: nat, k: nat)
    requires k + 1 < n
    ensures Next(Next(Joined(n, k), WorkerActs(k, true)), WorkerActs(k, true))
         == State(false, Queued(n - 2 - k), Crew(n, k, GONE, WAITS)[k := Worker(AtTop, false, true)], Ending(k), 1)
  {
    var ws := Crew(n, k, GONE, WAITS);
    assert Queued(n - 1 - k)[0] == ExitPacket && Queued(n - 1 - k)[1..] == Queued(n - 2 - k);
    assert ws[k] == WAITS;
    var s1 := Next(Joined(n, k), WorkerActs(k, true));
    assert s1 == State(k == 0, Queued(n - 2 - k), ws[k := Worker(Holding(ExitPacket), false, true)], Ending(k), 1);
    assert ws[k := Worker(Holding(ExitPacket), false, true)][k := Worker(AtTop, false, true)]
        == ws[k := Worker(AtTop, false, true)];
  }

  lemma OneReturns(n: nat, k: nat, queue: seq<Packet>, ws: seq<Worker>)
    requires k < n && |ws| == n && ws[k] == Worker(AtTop, false, true)
    ensures Next(Next(Next(State(false, queue, ws, Ending(k), 1), MainActs(Rest)), WorkerActs(k, true)), MainActs(Rest))
         == State(false, queue, ws[k := GONE], Ending(k + 1), 1)
  {
    assert ws[k := Worker(AtTop, true, true)][k := GONE] == ws[k := GONE];
  }

  // Worker k dequeues and handles a packet, is told to end, returns, and is joined.
  function JoinedNext(s: State, k: nat): State {
    var s2 := Next(Next(s, WorkerActs(k, true)), WorkerActs(k, true));
    Next(Next(Next(s2, MainActs(Rest)), WorkerActs(k, true)), MainActs(Rest))
  }

  lemma ThenJoined(s: State, t: State, k: nat)
    requires Reaches(s, t)
    ensures Reaches(s, JoinedNext(t, k))
  {
    hide Next, Reaches;
    var hears := WorkerActs(k, true);
    var t2 := Next(Next(t, hears), hears);
    Then(s, t, hears);
    Then(s, Next(t, hears), hears);
    Then(s, t2, MainActs(Rest));
    Then(s, Next(t2, MainActs(Rest)), hears);
    Then(s, Next(Next(t2, MainActs(Rest)), hears), MainActs(Rest));
  }

  lemma OneJoined(n: nat, k: nat)
    requires k + 1 < n
    ensures JoinedNext(Joined(n, k), k) == Joined(n, k + 1)
  {
    hide Next;
    OneHears(n, k);
    var ws := Crew(n, k, GONE, WAITS);
    OneReturns(n, k, Queued(n - 2 - k), ws[k := Worker(AtTop, false, true)]);
    assert ws[k := Worker(AtTop, false, true)][k := GONE] == Crew(n, k + 1, GONE, WAITS);
  }

  lemma {:induction false} OthersJoined(n: nat, k: nat)
    requires k < n
    ensures Reaches(Initial(n), Joined(n, k))
  {
    if k == 0 {
      LastMisreads(n);
    } else {
      OthersJoined(n, k - 1);
      ThenJoined(Initial(n), Joined(n, k - 1), k - 1);
      OneJoined(n, k - 1);
    }
  }

  // Everyone but the last worker has returned; it waits, nothing is queued, and the main thread is joining it.
  function Stuck(n: nat): State
    requires n > 0
  {
    State(n == 1, [], Crew(n, n - 1, GONE, WAITS)[n - 1 := WAITS.(ending := true)], Joining(n - 1), 1)
  }

  lemma ComesToBeStuck(n: nat)
    requires n > 0
    ensures Reaches(Initial(n), Stuck(n))
  {
    OthersJoined(n, n - 1);
    Then(Initial(n), Joined(n, n - 1), MainActs(Rest));
    assert Queued(0) == [];
  }

  // Every thread in turn, for ever.
  function Phase(n: nat, k: nat): nat {
    if k == 0 || Phase(n, k - 1) >= n then 0 else Phase(n, k - 1) + 1
  }

  function RoundRobin(n: nat, k: nat): Event {
    if Phase(n, k) == n then MainActs(Rest) else WorkerActs(Phase(n, k), true)
  }

  lemma StaysStuck(n: nat, k: nat)
    requires n > 0
    ensures Next(Stuck(n), RoundRobin(n, k)) == Stuck(n)
  {
  }

  function Script(n: nat, events: seq<Event>, k: nat): Event {
    if k < |events| then events[k] else RoundRobin(n, k)
  }

  function ScriptState(n: nat, events: seq<Event>, k: nat): State {
    Play(Initial(n), if k < |events| then events[..k] else events)
  }

  lemma ScriptRuns(n: nat, events: seq<Event>, k: nat)
    requires n > 0 && Play(Initial(n), events) == Stuck(n)
    ensures ScriptState(n, events, k + 1) == Next(ScriptState(n, events, k), Script(n, events, k))
  {
    if k < |events| {
      assert events[..k + 1][..k] == events[..k];
      if k + 1 == |events| { assert events[..k + 1] == events; }
    } else {
      StaysStuck(n, k);
    }
  }

  // Round robin gives every thread another turn.
  lemma {:induction false} PhaseComes(n: nat, from: nat, i: nat) returns (m: nat)
    requires i <= n && Phase(n, from) <= n
    ensures from <= m && Phase(n, m) == i
    decreases if Phase(n, from) <= i then i - Phase(n, from) else n + 1 - Phase(n, from) + i
  {
    m := from;
    if Phase(n, from) != i { m := PhaseComes(n, from + 1, i); }
  }

  lemma {:induction false} PhaseBound(n: nat, k: nat)
    ensures Phase(n, k) <= n
  {
    if k > 0 { PhaseBound(n, k - 1); }
  }

  lemma TurnComes(n: nat, events: seq<Event>, from: nat, i: nat) returns (m: nat)
    requires i <= n
    ensures from <= m && By(Script(n, events, m)) == if i == n then MainThread else Thread(i)
  {
    PhaseBound(n, from + |events|);
    m := PhaseComes(n, from + |events|, i);
  }

  /** One misread exit packet is enough: with any number of workers there is a fair interleaving in
      which exactly one is misread and stopping never comes to an end. */
  lemma OneMisreadStrands(n: nat) returns (state: nat -> State, event: nat -> Event)
    requires n > 0
    ensures IsRun(state, event) && |state(0).workers| == n && Fair(event, n)
    ensures exists k: nat :: Stopping(state(k))
    ensures forall k: nat :: state(k).misread <= 1
    ensures !Finishes(state)
  {
    ComesToBeStuck(n);
    var events :| Play(Initial(n), events) == Stuck(n);
    state, event := (k: nat) => ScriptState(n, events, k), (k: nat) => Script(n, events, k);
    assert state(0) == Initial(n);
    forall k: nat ensures state(k + 1) == Next(state(k), event(k)) {
      ScriptRuns(n, events, k);
    }
    forall from: nat ensures ActsAfter(event, MainThread, from) {
      var m := TurnComes(n, events, from, n);
      assert ActsAt(event, MainThread, from, m);
    }
    forall from: nat, i: nat | i < n ensures ActsAfter(event, Thread(i), from) {
      var m := TurnComes(n, events, from, i);
      assert ActsAt(event, Thread(i), from, m);
    }
    var h := |events|;
    assert Stopping(state(h));
    assert HeldFrom(state, h);
    StopEndsExactly(state, event, h);
    forall k: nat ensures state(k).misread <= 1 {
      if k < h { MisreadGrows(state, event, k, h); }
    }
  }

  lemma {:induction false} MisreadGrows(state: nat -> State, event: nat -> Event, k: nat, h: nat)
    requires IsRun(state, event) && k <= h
    ensures state(k).misread <= state(h).misread
    decreases h - k
  {
    if k < h {
      MisreadGrows(state, event, k, h - 1);
      assert state(h - 1 + 1) == Next(state(h - 1), event(h - 1));
    }
  }

  // Whenever a stop begins, under a fair schedule and with at most m exit packets misread, it comes to its end.
  ghost predicate AlwaysEnds(n: nat, m: nat) {
    forall state: nat -> State, event: nat -> Event ::
      IsRun(state, event) && |state(0).workers| == n && Fair(event, n)
      && (exists k: nat :: Stopping(state(k))) && (forall k: nat :: state(k).misread <= m)
      ==> Finishes(state)
  }

  /** Stopping is sure to end if and only if no exit packet can be misread (or there is no worker). */
  lemma StopIsSureExactly(n: nat, m: nat)
    ensures AlwaysEnds(n, m) <==> m == 0 || n == 0
  {
    if m == 0 || n == 0 {
      forall state: nat -> State, event: nat -> Event
        | IsRun(state, event) && |state(0).workers| == n && Fair(event, n)
          && (exists k: nat :: Stopping(state(k))) && (forall k: nat :: state(k).misread <= m)
        ensures Finishes(state)
      {
        var k: nat :| Stopping(state(k));
        if m == 0 {
          StopTerminates(state, event, k);
        } else {
          StopEndsExactly(state, event, k);
          forall h: nat ensures !HeldFrom(state, h) {
            RunInv(state, event, h);
            assert !Held(state(h));
          }
        }
      }
    } else {
      var state, event := OneMisreadStrands(n);
    }
  }
}
